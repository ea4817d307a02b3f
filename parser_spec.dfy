/** The session parser of FlowShow.java (`Gimme5`, `isNumeric`) as functions: what one call
    collects from a cursor position over already-tokenised CSV records, and what the whole
    file holds. The imperative method that reads the records one by one is in parser.dfy. */
module ParserSpec {
  import opened Wrappers
  import opened Sessions

  type Record = seq<string>

  /** The library parsers the source calls; each is partial and gives None where Java throws. */
  datatype Parsers = Parsers(
    parseDate: string -> Option<Date>,   // LocalDate.parse
    parseInt: string -> Option<int>,     // Integer.parseInt
    parseFloat: string -> Option<real>,  // Float.parseFloat
    parseDouble: string -> Option<real>) // Double.parseDouble

  /** A record whose field 0 contains this text starts a session. */
  const HeaderMark: string := "Ver"

  /** `Gimme5` stops after this many sessions. */
  const BatchSize: nat := 5

  /** Field positions in a header record. */
  const DateField := 3
  const HourField := 5
  const MinuteField := 6
  const SecondField := 7
  const QMaxField := 9
  const TPeakField := 11
  const TEndField := 13
  const VolScaleField := 15
  const VolVisualField := 17

  /** Field positions in a sample record. */
  const TimeField := 0
  const RateField := 3

  predicate OccursAt(s: string, t: string, i: int) {
    0 <= i && i + |t| <= |s| && s[i..i + |t|] == t
  }

  /** String.contains. */
  function Contains(s: string, t: string): (r: bool)
    ensures r <==> exists i :: OccursAt(s, t, i)
    decreases |s|
  {
    if |s| < |t| then false
    else if s[..|t|] == t then assert OccursAt(s, t, 0); true
    else
      var r := Contains(s[1..], t);
      assert forall i :: OccursAt(s[1..], t, i) <==> OccursAt(s, t, i + 1) by {
        forall i ensures OccursAt(s[1..], t, i) <==> OccursAt(s, t, i + 1) {
          if 0 <= i && i + |t| <= |s| - 1 {
            assert s[1..][i..i + |t|] == s[i + 1..i + 1 + |t|];
          }
        }
      }
      assert r ==> exists i :: OccursAt(s, t, i) by {
        if r {
          var i :| OccursAt(s[1..], t, i);
          assert OccursAt(s, t, i + 1);
        }
      }
      assert (exists i :: OccursAt(s, t, i)) ==> r by {
        if exists i :: OccursAt(s, t, i) {
          var i :| OccursAt(s, t, i);
          assert i != 0;
          assert OccursAt(s[1..], t, i - 1);
        }
      }
      r
  }

  /** `isNumeric`: false for null, otherwise whether Double.parseDouble accepts the text. */
  function IsNumeric(str: Option<string>, P: Parsers): (r: bool)
    ensures str.None? ==> !r
    ensures str.Some? ==> (r <==> P.parseDouble(str.value).Some?)
  {
    match str
    case None => false
    case Some(s) => P.parseDouble(s).Some?
  }

  /** The locals the header branch of `Gimme5` computes from a header record. */
  datatype Header = Header(
    dateText: string, date: Option<Date>,
    hr: int, mn: int, sec: int,
    qmax: real, tpk: real, ttl: real, vscale: real, vvisual: real,
    seriesName: string)

  /** The header fields of a record, or None where reading them throws: a field missing,
      an empty date field (substring(1)), or an hour, minute, second or float that does not
      parse. A date that does not parse is caught on its own and leaves the date absent. */
  function ParseHeader(rec: Record, P: Parsers): (r: Option<Header>)
    ensures r.Some? ==> |rec| > VolVisualField && |rec[DateField]| > 0
  {
    if |rec| <= VolVisualField || |rec[DateField]| == 0 then None
    else
      var date := rec[DateField][1..];
      var hr := P.parseInt(rec[HourField]);
      var mn := P.parseInt(rec[MinuteField]);
      var sec := P.parseInt(rec[SecondField]);
      var qmax := P.parseFloat(rec[QMaxField]);
      var tpk := P.parseFloat(rec[TPeakField]);
      var ttl := P.parseFloat(rec[TEndField]);
      var vscale := P.parseFloat(rec[VolScaleField]);
      var vvisual := P.parseFloat(rec[VolVisualField]);
      if hr.None? || mn.None? || sec.None? || qmax.None? || tpk.None? || ttl.None?
         || vscale.None? || vvisual.None?
      then None
      else
        Some(Header(date, P.parseDate(date), hr.value, mn.value, sec.value,
                    qmax.value, tpk.value, ttl.value, vscale.value, vvisual.value,
                    date + ":" + rec[HourField] + rec[MinuteField] + rec[SecondField]))
  }

  /** The session built at the end of a sample block; the floats go to the Session
      constructor in the order (qmax, ttl, tpk). */
  function MakeSession(h: Header, samples: seq<Sample>): (s: Session)
    ensures s.date == h.date && s.hour == h.hr && s.minute == h.mn && s.second == h.sec
    ensures s.qMax == h.qmax && s.tEnd == h.ttl && s.tPeak == h.tpk
    ensures s.rateSamples.name == h.seriesName && s.rateSamples.samples == samples
  {
    NewSession(h.date, h.hr, h.mn, h.sec, h.qmax, h.ttl, h.tpk, RateSeries(h.seriesName, samples))
  }

  /** What a numeric record with a field 3 adds to the samples: (field 0, field 3), or
      nothing when either does not parse (the handler at lines 311-313 logs field 3 and the
      record is skipped). */
  function SampleOf(rec: Record, P: Parsers): (r: seq<Sample>)
    requires |rec| > RateField
    ensures |r| <= 1
    ensures r != [] <==> P.parseFloat(rec[TimeField]).Some? && P.parseFloat(rec[RateField]).Some?
    ensures r != [] ==> Some(r[0].time) == P.parseFloat(rec[TimeField])
                        && Some(r[0].rate) == P.parseFloat(rec[RateField])
  {
    if P.parseFloat(rec[TimeField]).Some? && P.parseFloat(rec[RateField]).Some?
    then [Sample(P.parseFloat(rec[TimeField]).value, P.parseFloat(rec[RateField]).value)]
    else []
  }

  /** A record inside a sample block whose reading throws past the sample's own handler:
      one without a field 0 (line 308), or a numeric one without a field 3, since the
      handler at line 312 reads `nextLine[3]` again. */
  predicate Breaks(rec: Record, P: Parsers) {
    |rec| == 0 || (IsNumeric(Some(rec[TimeField]), P) && |rec| <= RateField)
  }

  /** How a sample block ends: normally with its samples and the position of the next
      unread record, or broken by a record that `Breaks`, whose exception escapes to the
      outer handler and loses the session. */
  datatype BlockEnd = Ended(samples: seq<Sample>, resume: nat) | Broken(resume: nat)

  /** The sample block read from position q, with `acc` already collected. */
  function Block(rs: seq<Record>, q: nat, P: Parsers, acc: seq<Sample>): (b: BlockEnd)
    requires q <= |rs|
    ensures q <= b.resume <= |rs|
    decreases |rs| - q
  {
    if q == |rs| then Ended(acc, q)
    else if Breaks(rs[q], P) then Broken(q + 1)
    else if IsNumeric(Some(rs[q][TimeField]), P) then Block(rs, q + 1, P, acc + SampleOf(rs[q], P))
    else Ended(acc, q + 1)
  }

  /** The outcome of reading the record at position p outside a sample block. */
  datatype Attempt = Skipped | Aborted(resume: nat) | Found(session: Session, resume: nat)

  function AttemptAt(rs: seq<Record>, p: nat, P: Parsers): (a: Attempt)
    requires p < |rs|
    ensures !a.Skipped? ==> p < a.resume <= |rs|
  {
    var rec := rs[p];
    if |rec| == 0 || !Contains(rec[0], HeaderMark) then Skipped
    else
      match ParseHeader(rec, P)
      case None => Skipped
      case Some(h) =>
        match Block(rs, p + 1, P, [])
        case Broken(q) => Aborted(q)
        case Ended(samples, q) => Found(MakeSession(h, samples), q)
  }

  /** What one call of `Gimme5` collects: the sessions found, up to `need` of them, and the
      cursor position it leaves behind. */
  datatype Batch = Batch(found: seq<Session>, next: nat)

  /** Where the reader of `Gimme5` stands: looking for a header, or inside the sample block
      of the header it parsed, with the samples read so far. */
  datatype Mode = Scanning | InBlock(header: Header, samples: seq<Sample>)

  /** `Gimme5` read one record at a time from position p: the sessions it collects, up to
      `need` of them (the one in progress included), and where it leaves the cursor. */
  function Collect(rs: seq<Record>, p: nat, P: Parsers, need: nat, mode: Mode): (b: Batch)
    requires p <= |rs|
    ensures p <= b.next <= |rs|
    ensures |b.found| <= need
    ensures |b.found| < need ==> b.next == |rs|
    ensures mode.Scanning? ==> |b.found| <= b.next - p
    ensures mode.InBlock? ==> |b.found| <= b.next - p + 1
    decreases |rs| - p
  {
    if need == 0 then Batch([], p)
    else if p == |rs| then
      match mode
      case Scanning => Batch([], p)
      case InBlock(h, samples) => Batch([MakeSession(h, samples)], p)
    else
      var rec := rs[p];
      match mode
      case Scanning =>
        if |rec| == 0 || !Contains(rec[0], HeaderMark) then Collect(rs, p + 1, P, need, Scanning)
        else (
          match ParseHeader(rec, P)
          case None => Collect(rs, p + 1, P, need, Scanning)
          case Some(h) => Collect(rs, p + 1, P, need, InBlock(h, [])))
      case InBlock(h, samples) =>
        if Breaks(rec, P) then Collect(rs, p + 1, P, need, Scanning)
        else if IsNumeric(Some(rec[TimeField]), P) then
          Collect(rs, p + 1, P, need, InBlock(h, samples + SampleOf(rec, P)))
        else
          var rest := Collect(rs, p + 1, P, need - 1, Scanning);
          Batch([MakeSession(h, samples)] + rest.found, rest.next)
  }

  /** Every session the records hold from position p on, read without a batch limit. */
  function AllSessions(rs: seq<Record>, p: nat, P: Parsers): (ss: seq<Session>)
    requires p <= |rs|
    ensures |ss| <= |rs| - p
    decreases |rs| - p
  {
    if p == |rs| then []
    else
      match AttemptAt(rs, p, P)
      case Skipped => AllSessions(rs, p + 1, P)
      case Aborted(q) => AllSessions(rs, q, P)
      case Found(s, q) => [s] + AllSessions(rs, q, P)
  }

  /** The batches `main` obtains by calling `Gimme5` until a call returns fewer than five. */
  function Batches(rs: seq<Record>, p: nat, P: Parsers): (bs: seq<seq<Session>>)
    requires p <= |rs|
    ensures |bs| >= 1
    ensures forall i :: 0 <= i < |bs| - 1 ==> |bs[i]| == BatchSize
    ensures |bs[|bs| - 1]| < BatchSize
    decreases |rs| - p
  {
    var b := Collect(rs, p, P, BatchSize, Scanning);
    if |b.found| < BatchSize then [b.found] else [b.found] + Batches(rs, b.next, P)
  }

  function Flatten<T>(xss: seq<seq<T>>): seq<T> {
    if xss == [] then [] else xss[0] + Flatten(xss[1..])
  }
}
