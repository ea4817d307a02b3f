/** What the session parser promises: batches of five that neither lose nor reorder
    sessions, sessions only from header records, the header field mapping, and the
    sample-block rules. */
module ParserProperties {
  import opened Wrappers
  import opened Sessions
  import opened ParserSpec

  function Min(a: int, b: int): int { if a < b then a else b }

  /** Inside a sample block, `Gimme5` reads the block that Block describes: a broken block
      loses the session, a finished one yields it. */
  lemma {:induction false} CollectInBlock(rs: seq<Record>, q: nat, P: Parsers, n: nat,
                                          h: Header, acc: seq<Sample>)
    requires q <= |rs| && n >= 1
    ensures Collect(rs, q, P, n, InBlock(h, acc)) ==
              match Block(rs, q, P, acc)
              case Broken(r) => Collect(rs, r, P, n, Scanning)
              case Ended(ss, r) =>
                var rest := Collect(rs, r, P, n - 1, Scanning);
                Batch([MakeSession(h, ss)] + rest.found, rest.next)
    decreases |rs| - q
  {
    if q == |rs| {
      assert [MakeSession(h, acc)] + [] == [MakeSession(h, acc)];
    } else if Continues(rs[q], P) {
      CollectInBlock(rs, q + 1, P, n, h, acc + SampleOf(rs[q], P));
    }
  }

  /** Read record by record, `Gimme5` collects exactly what reading the file session by
      session gives: a record that starts no session is passed over, a broken block is
      lost, and a finished session is taken. */
  lemma CollectByAttempt(rs: seq<Record>, p: nat, P: Parsers, n: nat)
    requires p < |rs| && n >= 1
    ensures Collect(rs, p, P, n, Scanning) ==
              match AttemptAt(rs, p, P)
              case Skipped => Collect(rs, p + 1, P, n, Scanning)
              case Aborted(q) => Collect(rs, q, P, n, Scanning)
              case Found(s, q) =>
                var rest := Collect(rs, q, P, n - 1, Scanning);
                Batch([s] + rest.found, rest.next)
  {
    var rec := rs[p];
    if |rec| > 0 && Contains(rec[0], HeaderMark) && ParseHeader(rec, P).Some? {
      CollectInBlock(rs, p + 1, P, n, ParseHeader(rec, P).value, []);
    }
  }

  /** A batch of up to n sessions read from p, followed by every session after the cursor
      it leaves, is every session from p. */
  predicate BatchThenRest(rs: seq<Record>, p: nat, P: Parsers, n: nat)
    requires p <= |rs|
  {
    var b := Collect(rs, p, P, n, Scanning);
    b.found + AllSessions(rs, b.next, P) == AllSessions(rs, p, P)
  }

  lemma ContinueAfterSkip(rs: seq<Record>, p: nat, P: Parsers, n: nat)
    requires p < |rs| && n >= 1 && AttemptAt(rs, p, P).Skipped?
    requires BatchThenRest(rs, p + 1, P, n)
    ensures BatchThenRest(rs, p, P, n)
  {
    CollectByAttempt(rs, p, P, n);
    assert AllSessions(rs, p, P) == AllSessions(rs, p + 1, P);
  }

  lemma ContinueAfterAbort(rs: seq<Record>, p: nat, P: Parsers, n: nat, q: nat)
    requires p < |rs| && n >= 1 && AttemptAt(rs, p, P) == Aborted(q)
    requires BatchThenRest(rs, q, P, n)
    ensures BatchThenRest(rs, p, P, n)
  {
    CollectByAttempt(rs, p, P, n);
    assert AllSessions(rs, p, P) == AllSessions(rs, q, P);
  }

  lemma ContinueAfterFound(rs: seq<Record>, p: nat, P: Parsers, n: nat, s: Session, q: nat)
    requires p < |rs| && n >= 1 && AttemptAt(rs, p, P) == Found(s, q)
    requires BatchThenRest(rs, q, P, n - 1)
    ensures BatchThenRest(rs, p, P, n)
  {
    CollectByAttempt(rs, p, P, n);
    var rest := Collect(rs, q, P, n - 1, Scanning);
    assert AllSessions(rs, p, P) == [s] + AllSessions(rs, q, P);
    assert [s] + rest.found + AllSessions(rs, rest.next, P)
        == [s] + (rest.found + AllSessions(rs, rest.next, P));
  }

  /** A batch followed by everything after it is everything: stopping at a batch boundary
      and resuming from the saved cursor neither drops nor repeats a session. */
  lemma {:induction false} CollectThenContinue(rs: seq<Record>, p: nat, P: Parsers, n: nat)
    requires p <= |rs|
    ensures BatchThenRest(rs, p, P, n)
    decreases |rs| - p
  {
    if n == 0 || p == |rs| {
    } else {
      match AttemptAt(rs, p, P)
      case Skipped =>
        CollectThenContinue(rs, p + 1, P, n);
        ContinueAfterSkip(rs, p, P, n);
      case Aborted(q) =>
        CollectThenContinue(rs, q, P, n);
        ContinueAfterAbort(rs, p, P, n, q);
      case Found(s, q) =>
        CollectThenContinue(rs, q, P, n - 1);
        ContinueAfterFound(rs, p, P, n, s, q);
    }
  }

  /** A call asking for n sessions returns exactly n when at least n remain, otherwise all
      that remain, and they are the next ones in file order. */
  lemma BatchIsPrefix(rs: seq<Record>, p: nat, P: Parsers, n: nat)
    requires p <= |rs|
    ensures var b := Collect(rs, p, P, n, Scanning);
            var all := AllSessions(rs, p, P);
            |b.found| == Min(n, |all|) && b.found == all[..|b.found|]
  {
    var b := Collect(rs, p, P, n, Scanning);
    CollectThenContinue(rs, p, P, n);
    assert AllSessions(rs, |rs|, P) == [];
  }

  /** After a call that returned fewer than five, the next call returns none. */
  lemma ShortBatchIsLast(rs: seq<Record>, p: nat, P: Parsers)
    requires p <= |rs|
    requires |Collect(rs, p, P, BatchSize, Scanning).found| < BatchSize
    ensures Collect(rs, Collect(rs, p, P, BatchSize, Scanning).next, P, BatchSize, Scanning).found == []
  {
  }

  /** The batches `main` draws, laid end to end, are exactly the sessions of the file. */
  lemma {:induction false} BatchesCoverAll(rs: seq<Record>, p: nat, P: Parsers)
    requires p <= |rs|
    ensures Flatten(Batches(rs, p, P)) == AllSessions(rs, p, P)
    decreases |rs| - p
  {
    var b := Collect(rs, p, P, BatchSize, Scanning);
    CollectThenContinue(rs, p, P, BatchSize);
    if |b.found| < BatchSize {
      assert Batches(rs, p, P) == [b.found];
      assert Flatten([b.found]) == b.found + Flatten([]);
      assert AllSessions(rs, |rs|, P) == [];
    } else {
      BatchesCoverAll(rs, b.next, P);
      var bs := Batches(rs, p, P);
      assert bs == [b.found] + Batches(rs, b.next, P);
      assert bs[1..] == Batches(rs, b.next, P);
    }
  }

  /** Only a record whose field 0 contains "Ver" and whose header fields all read starts a
      session; that session is kept unless its sample block is broken. */
  lemma AttemptOutcome(rs: seq<Record>, p: nat, P: Parsers)
    requires p < |rs|
    ensures AttemptAt(rs, p, P).Found? <==>
              |rs[p]| > 0 && Contains(rs[p][0], HeaderMark) && ParseHeader(rs[p], P).Some?
              && Block(rs, p + 1, P, []).Ended?
    ensures AttemptAt(rs, p, P).Skipped? <==>
              |rs[p]| == 0 || !Contains(rs[p][0], HeaderMark) || ParseHeader(rs[p], P).None?
  {
  }

  /** A record met outside a sample block that does not start a session is passed over:
      the batch is the one read from the next record on. */
  lemma SkippedRecordIsPassedOver(rs: seq<Record>, p: nat, P: Parsers, n: nat)
    requires p < |rs| && n > 0
    requires |rs[p]| == 0 || !Contains(rs[p][0], HeaderMark) || ParseHeader(rs[p], P).None?
    ensures Collect(rs, p, P, n, Scanning) == Collect(rs, p + 1, P, n, Scanning)
    ensures AllSessions(rs, p, P) == AllSessions(rs, p + 1, P)
  {
  }

  /** A header whose hour, minute, second or any of its five floats does not parse, or
      that lacks a field, yields no session. */
  lemma BadHeaderYieldsNoSession(rec: Record, P: Parsers)
    requires
      || |rec| <= VolVisualField || |rec[DateField]| == 0
      || P.parseInt(rec[HourField]).None? || P.parseInt(rec[MinuteField]).None?
      || P.parseInt(rec[SecondField]).None?
      || P.parseFloat(rec[QMaxField]).None? || P.parseFloat(rec[TPeakField]).None?
      || P.parseFloat(rec[TEndField]).None?
      || P.parseFloat(rec[VolScaleField]).None? || P.parseFloat(rec[VolVisualField]).None?
    ensures ParseHeader(rec, P).None?
  {
  }

  /** The converse: a header that has all its fields, a non-empty field 3, and whose hour,
      minute, second and five floats parse is read, whatever the date parser makes of its
      date; a date that does not parse is kept as absent. */
  lemma GoodHeaderIsRead(rec: Record, P: Parsers)
    requires |rec| > VolVisualField && |rec[DateField]| > 0
    requires P.parseInt(rec[HourField]).Some? && P.parseInt(rec[MinuteField]).Some?
    requires P.parseInt(rec[SecondField]).Some?
    requires P.parseFloat(rec[QMaxField]).Some? && P.parseFloat(rec[TPeakField]).Some?
    requires P.parseFloat(rec[TEndField]).Some?
    requires P.parseFloat(rec[VolScaleField]).Some? && P.parseFloat(rec[VolVisualField]).Some?
    ensures ParseHeader(rec, P).Some?
    ensures ParseHeader(rec, P).value.date == P.parseDate(rec[DateField][1..])
  {
  }

  /** A file holding one header whose date does not parse, followed by one sample, holds
      one session, and that session has no date. */
  lemma UndatedSessionIsKept()
    ensures var P := Parsers(
              (s: string) => None,
              (s: string) => Some(8),
              (s: string) => Some(1.0),
              (s: string) => if s == "0.1" then Some(0.1) else None);
            var h: Record := ["Ver1", "", "", "Dbad-date", "", "8", "8", "8", "",
                              "1", "", "1", "", "1", "", "1", "", "1"];
            var rs := [h, ["0.1", "", "", "1"]];
            var ss := AllSessions(rs, 0, P);
            |ss| == 1 && ss[0].date == None && ss[0].rateSamples.samples == [Sample(1.0, 1.0)]
  {
    var P := Parsers(
      (s: string) => None,
      (s: string) => Some(8),
      (s: string) => Some(1.0),
      (s: string) => if s == "0.1" then Some(0.1) else None);
    var h: Record := ["Ver1", "", "", "Dbad-date", "", "8", "8", "8", "",
                      "1", "", "1", "", "1", "", "1", "", "1"];
    var sample: Record := ["0.1", "", "", "1"];
    var rs := [h, sample];
    assert OccursAt(h[0], HeaderMark, 0);
    assert IsNumeric(Some(sample[0]), P);
    assert Block(rs, 2, P, [Sample(1.0, 1.0)]) == Ended([Sample(1.0, 1.0)], 2);
    assert Block(rs, 1, P, []) == Ended([Sample(1.0, 1.0)], 2);
    assert AttemptAt(rs, 0, P).Found?;
  }

  /** A numeric record without a field 3 inside a sample block loses the session: the
      handler at line 312 reads field 3 again, and that exception reaches line 330. */
  lemma ShortSampleLosesSession()
    ensures var P := Parsers(
              (s: string) => Some(0),
              (s: string) => Some(8),
              (s: string) => Some(1.0),
              (s: string) => if s == "0.1" then Some(0.1) else None);
            var h: Record := ["Ver1", "", "", "D2022-07-27", "", "8", "8", "8", "",
                              "1", "", "1", "", "1", "", "1", "", "1"];
            var rs := [h, ["0.1"]];
            AllSessions(rs, 0, P) == [] && Collect(rs, 0, P, BatchSize, Scanning) == Batch([], 2)
  {
    var P := Parsers(
      (s: string) => Some(0),
      (s: string) => Some(8),
      (s: string) => Some(1.0),
      (s: string) => if s == "0.1" then Some(0.1) else None);
    var h: Record := ["Ver1", "", "", "D2022-07-27", "", "8", "8", "8", "",
                      "1", "", "1", "", "1", "", "1", "", "1"];
    var short: Record := ["0.1"];
    var rs := [h, short];
    assert OccursAt(h[0], HeaderMark, 0);
    assert IsNumeric(Some(short[0]), P) && Breaks(short, P);
    assert Block(rs, 1, P, []) == Broken(2);
    assert AttemptAt(rs, 0, P) == Aborted(2);
    CollectByAttempt(rs, 0, P, BatchSize);
  }

  /** A numeric record whose field 3 does not parse is caught by the sample's own handler:
      the record adds no sample and the session is kept. */
  lemma BadRateIsSkipped()
    ensures var P := Parsers(
              (s: string) => Some(0),
              (s: string) => Some(8),
              (s: string) => if s == "x" then None else Some(1.0),
              (s: string) => if s == "0.1" then Some(0.1) else None);
            var h: Record := ["Ver1", "", "", "D2022-07-27", "", "8", "8", "8", "",
                              "1", "", "1", "", "1", "", "1", "", "1"];
            var rs := [h, ["0.1", "", "", "x"], ["0.1", "", "", "1"]];
            var ss := AllSessions(rs, 0, P);
            |ss| == 1 && ss[0].rateSamples.samples == [Sample(1.0, 1.0)]
  {
    var P := Parsers(
      (s: string) => Some(0),
      (s: string) => Some(8),
      (s: string) => if s == "x" then None else Some(1.0),
      (s: string) => if s == "0.1" then Some(0.1) else None);
    var h: Record := ["Ver1", "", "", "D2022-07-27", "", "8", "8", "8", "",
                      "1", "", "1", "", "1", "", "1", "", "1"];
    var bad: Record := ["0.1", "", "", "x"];
    var good: Record := ["0.1", "", "", "1"];
    var rs := [h, bad, good];
    assert OccursAt(h[0], HeaderMark, 0);
    assert IsNumeric(Some(bad[0]), P) && !Breaks(bad, P) && SampleOf(bad, P) == [];
    assert IsNumeric(Some(good[0]), P) && !Breaks(good, P);
    assert Block(rs, 3, P, [Sample(1.0, 1.0)]) == Ended([Sample(1.0, 1.0)], 3);
    assert Block(rs, 2, P, []) == Ended([Sample(1.0, 1.0)], 3);
    assert Block(rs, 1, P, []) == Ended([Sample(1.0, 1.0)], 3);
    assert AttemptAt(rs, 0, P).Found?;
  }

  /** The session read from a header holds the header's fields: the date is field 3 without
      its first character (absent when it does not parse), hour, minute and second are
      fields 5, 6 and 7, qMax is field 9, tPeak field 11 and tEnd field 13. */
  lemma HeaderFieldMapping(rs: seq<Record>, p: nat, P: Parsers)
    requires p < |rs| && AttemptAt(rs, p, P).Found?
    ensures var rec := rs[p];
            var s := AttemptAt(rs, p, P).session;
            && |rec| > VolVisualField && |rec[DateField]| > 0
            && s.date == P.parseDate(rec[DateField][1..])
            && P.parseInt(rec[HourField]) == Some(s.hour)
            && P.parseInt(rec[MinuteField]) == Some(s.minute)
            && P.parseInt(rec[SecondField]) == Some(s.second)
            && P.parseFloat(rec[QMaxField]) == Some(s.qMax)
            && P.parseFloat(rec[TPeakField]) == Some(s.tPeak)
            && P.parseFloat(rec[TEndField]) == Some(s.tEnd)
            && s.rateSamples.samples == Block(rs, p + 1, P, []).samples
  {
  }

  /** Every session of the file was read from a header record at or after p. */
  lemma {:induction false} SessionsComeFromHeaders(rs: seq<Record>, p: nat, P: Parsers, k: nat)
    requires p <= |rs| && k < |AllSessions(rs, p, P)|
    ensures exists j :: p <= j < |rs| && AttemptAt(rs, j, P).Found?
                        && AttemptAt(rs, j, P).session == AllSessions(rs, p, P)[k]
                        && Contains(rs[j][0], HeaderMark)
    decreases |rs| - p
  {
    match AttemptAt(rs, p, P)
    case Skipped => SessionsComeFromHeaders(rs, p + 1, P, k);
    case Aborted(q) => SessionsComeFromHeaders(rs, q, P, k);
    case Found(s, q) =>
      if k == 0 {
        assert AttemptAt(rs, p, P).session == AllSessions(rs, p, P)[0];
      } else {
        SessionsComeFromHeaders(rs, q, P, k - 1);
      }
  }

  // ---- Sample blocks, against a direct description ----

  /** A record that continues a sample block: it has a field 3 and its field 0 is numeric. */
  predicate Continues(rec: Record, P: Parsers) {
    |rec| > RateField && IsNumeric(Some(rec[TimeField]), P)
  }

  /** The end of the run of continuing records that starts at q. */
  function RunEnd(rs: seq<Record>, q: nat, P: Parsers): (e: nat)
    requires q <= |rs|
    ensures q <= e <= |rs|
    ensures forall j :: q <= j < e ==> Continues(rs[j], P)
    ensures e < |rs| ==> !Continues(rs[e], P)
    decreases |rs| - q
  {
    if q == |rs| || !Continues(rs[q], P) then q else RunEnd(rs, q + 1, P)
  }

  /** The samples records i to e - 1 contribute, in file order. */
  function SamplesOf(rs: seq<Record>, i: nat, e: nat, P: Parsers): seq<Sample>
    requires i <= e <= |rs| && forall j :: i <= j < e ==> |rs[j]| > RateField
    decreases e - i
  {
    if i == e then [] else SampleOf(rs[i], P) + SamplesOf(rs, i + 1, e, P)
  }

  /** A sample block is the maximal run of records with a numeric field 0 and a field 3.
      Its samples are the parseable ones among them, in file order. The record that ends it
      is consumed and is not a sample; if that record has no field 0, or has a numeric
      field 0 but no field 3, the block is broken. */
  lemma {:induction false} BlockReference(rs: seq<Record>, q: nat, P: Parsers, acc: seq<Sample>)
    requires q <= |rs|
    ensures var e := RunEnd(rs, q, P);
            Block(rs, q, P, acc) ==
              if e == |rs| then Ended(acc + SamplesOf(rs, q, e, P), e)
              else if Breaks(rs[e], P) then Broken(e + 1)
              else Ended(acc + SamplesOf(rs, q, e, P), e + 1)
    decreases |rs| - q
  {
    var e := RunEnd(rs, q, P);
    if q == |rs| || !Continues(rs[q], P) {
      assert e == q;
    } else {
      var acc' := acc + SampleOf(rs[q], P);
      BlockReference(rs, q + 1, P, acc');
      assert Block(rs, q, P, acc) == Block(rs, q + 1, P, acc');
      assert e == RunEnd(rs, q + 1, P);
      assert acc + SamplesOf(rs, q, e, P) == acc' + SamplesOf(rs, q + 1, e, P);
    }
  }

  /** The record that ends a session's sample block is never tried as a header, even when
      it is one: two complete sessions written back to back yield one session. */
  lemma BackToBackHeaderIsSwallowed()
    ensures var P := Parsers(
              (s: string) => Some(0),
              (s: string) => Some(8),
              (s: string) => Some(1.0),
              (s: string) => if s == "0.1" then Some(0.1) else None);
            var h: Record := ["Ver1", "", "", "D2022-07-27", "", "8", "8", "8", "",
                              "1", "", "1", "", "1", "", "1", "", "1"];
            var sample: Record := ["0.1", "", "", "1"];
            var rs := [h, sample, h, sample];
            Contains(h[0], HeaderMark) && |AllSessions(rs, 0, P)| == 1
  {
    var P := Parsers(
      (s: string) => Some(0),
      (s: string) => Some(8),
      (s: string) => Some(1.0),
      (s: string) => if s == "0.1" then Some(0.1) else None);
    var h: Record := ["Ver1", "", "", "D2022-07-27", "", "8", "8", "8", "",
                      "1", "", "1", "", "1", "", "1", "", "1"];
    var sample: Record := ["0.1", "", "", "1"];
    var rs := [h, sample, h, sample];
    assert OccursAt(h[0], HeaderMark, 0);
    assert !Contains(sample[0], HeaderMark) by {
      assert sample[0][..|HeaderMark|][0] != HeaderMark[0];
      assert !Contains(sample[0][1..], HeaderMark);
    }
    assert !IsNumeric(Some(h[0]), P);
    assert IsNumeric(Some(sample[0]), P);
    assert Block(rs, 4, P, []) == Ended([], 4);
    assert Block(rs, 1, P, []) == Ended([Sample(1.0, 1.0)], 3);
    assert AttemptAt(rs, 3, P) == Skipped;
    assert AllSessions(rs, 3, P) == [];
    assert AttemptAt(rs, 0, P).Found?;
  }
}
