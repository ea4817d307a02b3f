/** `Gimme5` as the source runs it: a cursor over the CSV records that persists between
    calls, a caller-owned list the sessions are appended to, and the nested read loops. */
module Parser {
  import opened Wrappers
  import opened Sessions
  import opened ParserSpec
  import opened ParserProperties

  /** The CSV reader: the tokenised records of the file and the position of the next one. */
  class CsvReader {
    const records: seq<Record>
    var pos: nat

    ghost predicate Valid()
      reads this
    {
      pos <= |records|
    }

    constructor (records: seq<Record>)
      ensures Valid() && this.records == records && pos == 0
    {
      this.records := records;
      pos := 0;
    }

    /** `readNext`: the next record, or None (null) once the input is exhausted. */
    method ReadNext() returns (line: Option<Record>)
      requires Valid()
      modifies this`pos
      ensures Valid()
      ensures old(pos) < |records| ==> line == Some(records[old(pos)]) && pos == old(pos) + 1
      ensures old(pos) == |records| ==> line == None && pos == old(pos)
    {
      if pos < |records| {
        line := Some(records[pos]);
        pos := pos + 1;
      } else {
        line := None;
      }
    }
  }

  /** The ArrayList<Session> that `main` owns and `Gimme5` appends to. */
  class SessionList {
    var items: seq<Session>

    constructor ()
      ensures items == []
    {
      items := [];
    }

    method Add(s: Session)
      modifies this
      ensures items == old(items) + [s]
    {
      items := items + [s];
    }
  }

  /** Where the record held in `line` sits: one before the cursor, or the end of input. */
  ghost function LinePos(reader: CsvReader, line: Option<Record>): nat
    reads reader
  {
    if line.Some? && reader.pos > 0 then reader.pos - 1 else reader.pos
  }

  ghost predicate LineIsAt(reader: CsvReader, line: Option<Record>)
    reads reader
  {
    && reader.Valid()
    && (line.Some? ==> 0 < reader.pos && line.value == reader.records[reader.pos - 1])
    && (line.None? ==> reader.pos == |reader.records|)
  }

  /** Reading from position p onwards still yields what one call promises from p0. */
  ghost predicate Resumes(rs: seq<Record>, P: Parsers, p0: nat, found: seq<Session>, p: nat)
    requires p0 <= |rs| && p <= |rs| && |found| <= BatchSize
  {
    var rest := Collect(rs, p, P, BatchSize - |found|, Scanning);
    Collect(rs, p0, P, BatchSize, Scanning) == Batch(found + rest.found, rest.next)
  }

  lemma ResumesAfterSkip(rs: seq<Record>, P: Parsers, p0: nat, found: seq<Session>, p: nat)
    requires p0 <= |rs| && p < |rs| && |found| < BatchSize
    requires AttemptAt(rs, p, P).Skipped? && Resumes(rs, P, p0, found, p)
    ensures Resumes(rs, P, p0, found, p + 1)
  {
    CollectByAttempt(rs, p, P, BatchSize - |found|);
  }

  lemma ResumesAfterThrow(rs: seq<Record>, P: Parsers, p0: nat, found: seq<Session>, p: nat, q: nat)
    requires p0 <= |rs| && p < |rs| && |found| < BatchSize
    requires !AttemptAt(rs, p, P).Found? && Resumes(rs, P, p0, found, p)
    requires q == if AttemptAt(rs, p, P).Skipped? then p + 1 else AttemptAt(rs, p, P).resume
    ensures q <= |rs| && Resumes(rs, P, p0, found, q)
  {
    CollectByAttempt(rs, p, P, BatchSize - |found|);
  }

  lemma ResumesAfterFound(rs: seq<Record>, P: Parsers, p0: nat, found: seq<Session>, p: nat,
                          s: Session, q: nat)
    requires p0 <= |rs| && p < |rs| && |found| < BatchSize
    requires AttemptAt(rs, p, P) == Found(s, q) && Resumes(rs, P, p0, found, p)
    ensures q <= |rs| && Resumes(rs, P, p0, found + [s], q)
  {
    CollectByAttempt(rs, p, P, BatchSize - |found|);
    var rest := Collect(rs, q, P, BatchSize - |found| - 1, Scanning);
    assert found + [s] + rest.found == found + ([s] + rest.found);
  }

  lemma ResumesAtEnd(rs: seq<Record>, P: Parsers, p0: nat, found: seq<Session>, p: nat)
    requires p0 <= |rs| && p <= |rs| && |found| <= BatchSize
    requires Resumes(rs, P, p0, found, p) && (|found| == BatchSize || p == |rs|)
    ensures Collect(rs, p0, P, BatchSize, Scanning) == Batch(found, p)
  {
    assert found + [] == found;
  }

  /** The sample loop of `Gimme5` (lines 307-319): reads records while field 0 is numeric,
      appending (field 0, field 3) of each that parses; the first other record ends the
      block and is consumed. A record that `Breaks` throws out of the loop. */
  method ReadSamples(reader: CsvReader, P: Parsers)
    returns (samples: seq<Sample>, nextLine: Option<Record>, broken: bool)
    requires reader.Valid()
    modifies reader`pos
    ensures LineIsAt(reader, nextLine) && old(reader.pos) <= reader.pos
    ensures broken ==> nextLine.Some?
    ensures Block(reader.records, old(reader.pos), P, []) ==
            if broken then Broken(reader.pos) else Ended(samples, reader.pos)
  {
    ghost var rs := reader.records;
    ghost var q0 := reader.pos;
    samples := [];
    broken := false;
    nextLine := reader.ReadNext();
    while nextLine.Some?
      invariant LineIsAt(reader, nextLine) && q0 <= reader.pos
      invariant Block(rs, q0, P, []) == Block(rs, LinePos(reader, nextLine), P, samples)
      decreases |rs| - reader.pos + (if nextLine.Some? then 1 else 0)
    {
      var r := nextLine.value;
      if |r| == 0 {
        broken := true;  // nextLine[0] throws outside the sample's own try
        break;
      }
      if IsNumeric(Some(r[TimeField]), P) {
        if |r| <= RateField {
          broken := true;  // the handler at line 312 reads nextLine[3] again and throws
          break;
        }
        samples := samples + SampleOf(r, P);
      } else {
        break;
      }
      nextLine := reader.ReadNext();
    }
  }

  /** The header branch of `Gimme5` (lines 283-326) for the header record `rec`, the last
      one read: reads the header fields, then the sample block, and builds the session.
      No session (None) means that an exception left the branch before line 325. */
  method ReadSession(reader: CsvReader, rec: Record, P: Parsers)
    returns (thisSession: Option<Session>, nextLine: Option<Record>)
    requires reader.Valid() && 0 < reader.pos && rec == reader.records[reader.pos - 1]
    requires |rec| > 0 && Contains(rec[0], HeaderMark)
    modifies reader`pos
    ensures LineIsAt(reader, nextLine)
    ensures var a := AttemptAt(reader.records, old(reader.pos) - 1, P);
            && (a.Found? ==> thisSession == Some(a.session))
            && (!a.Found? ==> thisSession.None? && nextLine.Some?)
            && (a.Skipped? ==> reader.pos == old(reader.pos))
            && (!a.Skipped? ==> reader.pos == a.resume)
  {
    var header := ParseHeader(rec, P);
    if header.None? {
      // a header field is missing or does not parse
      thisSession, nextLine := None, Some(rec);
      return;
    }
    var samples, broken;
    samples, nextLine, broken := ReadSamples(reader, P);
    if broken {
      thisSession := None;
    } else {
      thisSession := Some(MakeSession(header.value, samples));
    }
  }

  /** One record read by the header loop of `Gimme5` (lines 282-328), the last one read:
      a header starts a session, which is appended to `session`; a record without a field 0
      throws; any other record is passed over. Whatever happens, reading on from the cursor
      still completes the batch that the call of `Gimme5` promises. */
  method HandleRecord(reader: CsvReader, rec: Record, session: SessionList, P: Parsers,
                      nSessions0: nat, ghost p0: nat, ghost base: seq<Session>,
                      ghost found0: seq<Session>)
    returns (nSessions: nat, nextLine: Option<Record>, thrown: bool, ghost found: seq<Session>)
    requires reader.Valid() && 0 < reader.pos && rec == reader.records[reader.pos - 1]
    requires p0 <= |reader.records| && nSessions0 == |found0| < BatchSize
    requires session.items == base + found0
    requires Resumes(reader.records, P, p0, found0, reader.pos - 1)
    modifies reader`pos, session
    ensures LineIsAt(reader, nextLine) && old(reader.pos) <= reader.pos
    ensures thrown ==> nextLine.Some?
    ensures nSessions == |found| <= BatchSize && session.items == base + found
    ensures Resumes(reader.records, P, p0, found, reader.pos)
  {
    ghost var rs := reader.records;
    ghost var at := reader.pos - 1;
    nextLine := Some(rec);
    nSessions, thrown, found := nSessions0, false, found0;
    if |rec| == 0 {
      thrown := true;  // nextLine[0] throws
      ResumesAfterSkip(rs, P, p0, found, at);
    } else if Contains(rec[0], HeaderMark) {
      var thisSession;
      thisSession, nextLine := ReadSession(reader, rec, P);
      if thisSession.None? {
        thrown := true;
        ResumesAfterThrow(rs, P, p0, found, at, reader.pos);
      } else {
        ResumesAfterFound(rs, P, p0, found, at, thisSession.value, reader.pos);
        nSessions := nSessions + 1;
        session.Add(thisSession.value);
        found := found + [thisSession.value];
      }
    } else {
      ResumesAfterSkip(rs, P, p0, found, at);
    }
  }

  /** The try block of `Gimme5` (lines 281-329): reads records until the input ends, a
      fifth session has been appended, or an exception is thrown; returning stands for
      reaching the handler at line 330, which only logs. */
  method ScanRecords(reader: CsvReader, session: SessionList, P: Parsers, nSessions0: nat,
                     ghost p0: nat, ghost base: seq<Session>, ghost found0: seq<Session>)
    returns (nSessions: nat, nextLine: Option<Record>, ghost found: seq<Session>)
    requires reader.Valid() && p0 <= reader.pos
    requires nSessions0 == |found0| < BatchSize
    requires session.items == base + found0
    requires Resumes(reader.records, P, p0, found0, reader.pos)
    modifies reader`pos, session
    ensures LineIsAt(reader, nextLine) && old(reader.pos) <= reader.pos
    ensures nextLine.Some? ==> old(reader.pos) < reader.pos
    ensures nSessions == |found| <= BatchSize
    ensures session.items == base + found
    ensures Resumes(reader.records, P, p0, found, reader.pos)
  {
    ghost var rs := reader.records;
    ghost var start := reader.pos;
    nSessions, found := nSessions0, found0;
    ghost var at := reader.pos;
    nextLine := reader.ReadNext();
    while nextLine.Some?
      invariant LineIsAt(reader, nextLine) && start <= at <= reader.pos
      invariant nextLine.Some? ==> reader.pos == at + 1
      invariant nextLine.None? ==> reader.pos == at
      invariant nSessions == |found| < BatchSize
      invariant session.items == base + found
      invariant Resumes(rs, P, p0, found, at)
      decreases |rs| - at
    {
      var thrown;
      nSessions, nextLine, thrown, found :=
        HandleRecord(reader, nextLine.value, session, P, nSessions, p0, base, found);
      if thrown || nSessions >= BatchSize {
        return;
      }
      at := reader.pos;
      nextLine := reader.ReadNext();
    }
  }

  /** `Gimme5`: reads on from the reader's cursor, appends up to five sessions to `session`
      and returns how many it appended; the cursor is left after the last record it read. */
  method Gimme5(reader: CsvReader, session: SessionList, P: Parsers) returns (nSessions: nat)
    requires reader.Valid()
    modifies reader`pos, session
    ensures reader.Valid()
    ensures var b := Collect(reader.records, old(reader.pos), P, BatchSize, Scanning);
            && nSessions == |b.found|
            && reader.pos == b.next
            && session.items == old(session.items) + b.found
  {
    ghost var rs := reader.records;
    ghost var p0 := reader.pos;
    ghost var base := session.items;
    ghost var found: seq<Session> := [];
    nSessions := 0;
    var nextLine: Option<Record> := None;
    var gotEOF := false;
    while !gotEOF
      invariant reader.Valid() && p0 <= reader.pos
      invariant nSessions == |found| < BatchSize
      invariant session.items == base + found
      invariant Resumes(rs, P, p0, found, reader.pos)
      invariant gotEOF ==> reader.pos == |rs|
      decreases |rs| - reader.pos, !gotEOF
    {
      nSessions, nextLine, found := ScanRecords(reader, session, P, nSessions, p0, base, found);
      if nextLine.None? {
        gotEOF := true;
      }
      if nSessions >= BatchSize {
        break;
      }
    }
    ResumesAtEnd(rs, P, p0, found, reader.pos);
  }
}
