/** What the weekly histogram promises: every session is counted exactly once, in its own bin;
    a window closes only on a session dated more than six days after its anchor, so the
    emitted series are named by anchors more than a week apart; every series holds the 30 bins
    in index order. */
module HistogramProperties {
  import opened Wrappers
  import opened Sessions
  import opened HistogramSpec

  /** Processing `a + b` is processing `a`, then `b` from where `a` left off. */
  lemma {:induction false} RunAppend(st: HState, a: seq<Entry>, b: seq<Entry>)
    ensures CanRun(st, a + b) <==> CanRun(st, a) && CanRun(Run(st, a), b)
    ensures CanRun(st, a + b) ==> Run(st, a + b) == Run(Run(st, a), b)
    decreases |a|
  {
    if a != [] {
      assert (a + b)[0] == a[0] && (a + b)[1..] == a[1..] + b;
      if CanStep(st, a[0]) {
        RunAppend(Step(st, a[0]), a[1..], b);
      }
    } else {
      assert a + b == b;
    }
  }

  /** Processing one more session is one more step. */
  lemma RunSnoc(st: HState, es: seq<Entry>, e: Entry)
    ensures CanRun(st, es + [e]) <==> CanRun(st, es) && CanStep(Run(st, es), e)
    ensures CanRun(st, es + [e]) ==> Run(st, es + [e]) == Step(Run(st, es), e)
  {
    RunAppend(st, es, [e]);
    if CanRun(st, es) && CanStep(Run(st, es), e) {
      assert CanRun(Step(Run(st, es), e), []);
    }
  }

  /** A step never takes back a series already emitted and emits at most one: it emits one
      exactly when there is an anchor and the session is dated more than six days after it. */
  lemma StepEmitsOnlyAfterWeek(st: HState, e: Entry)
    requires CanStep(st, e)
    ensures var st' := Step(st, e);
            && st'.emitted[..|st.emitted|] == st.emitted
            && (|st'.emitted| == |st.emitted| + 1 <==>
                  st.anchor.Some? && e.date.value > st.anchor.value + WindowDays)
            && (|st'.emitted| == |st.emitted| + 1 || |st'.emitted| == |st.emitted|)
  {
  }

  /** The closing step: the old window is emitted under its anchor with its counts, and the
      new window starts at the session's date holding that session alone. */
  lemma CloseStartsNewWindow(st: HState, e: Entry)
    requires CanStep(st, e) && Closes(st, e.date)
    ensures var st' := Step(st, e);
            && st'.emitted[|st.emitted|] == Emit(st.anchor.value, st.counts)
            && st'.anchor == e.date
            && st'.counts == Zeros(|st.counts|)[e.bin := 1]
            && Sum(st'.counts) == 1
  {
    SumBump(Zeros(|st.counts|), e.bin);
    SumZeros(|st.counts|);
  }

  /** A session that does not close the window (including one dated before the anchor) only
      adds one to its own bin; the first session also sets the anchor. */
  lemma OtherSessionJoinsWindow(st: HState, e: Entry)
    requires CanStep(st, e) && !Closes(st, e.date)
    ensures var st' := Step(st, e);
            && st'.emitted == st.emitted
            && st'.anchor == (if st.anchor.None? then e.date else st.anchor)
            && st'.counts[e.bin] == st.counts[e.bin] + 1
            && forall i :: 0 <= i < |st.counts| && i != e.bin ==> st'.counts[i] == st.counts[i]
  {
  }

  // ---------------------------------------------------------------------------------------
  // Shape: 30 bins, and every emitted series holds the bins in index order

  predicate Shaped(h: HistSeries) {
    |h.points| == BinCount && forall i :: 0 <= i < BinCount ==> h.points[i].x == i
  }

  predicate AllShaped(hs: seq<HistSeries>) {
    forall k :: 0 <= k < |hs| ==> Shaped(hs[k])
  }

  predicate WellFormed(st: HState) {
    |st.counts| == BinCount && AllShaped(st.emitted)
  }

  lemma StepWellFormed(st: HState, e: Entry)
    requires WellFormed(st) && CanStep(st, e)
    ensures WellFormed(Step(st, e))
  {
    var st' := Step(st, e);
    forall k | 0 <= k < |st'.emitted|
      ensures Shaped(st'.emitted[k])
    {
      if k < |st.emitted| {
        assert st'.emitted[k] == st.emitted[k];
      }
    }
  }

  lemma {:induction false} RunWellFormed(st: HState, es: seq<Entry>)
    requires WellFormed(st) && CanRun(st, es)
    ensures WellFormed(Run(st, es))
    decreases |es|
  {
    if es != [] {
      StepWellFormed(st, es[0]);
      RunWellFormed(Step(st, es[0]), es[1..]);
    }
  }

  /** Every series of the histogram holds the 30 bins, at x = 0..29 in order. */
  lemma HistogramShape(ss: seq<Session>)
    requires HistogramDefined(ss)
    ensures AllShaped(Histogram(ss))
  {
    RunWellFormed(Init(), Entries(ss));
    var st := Run(Init(), Entries(ss));
    var hs := Histogram(ss);
    forall k | 0 <= k < |hs|
      ensures Shaped(hs[k])
    {
      if k < |st.emitted| {
        assert hs[k] == st.emitted[k];
      }
    }
  }

  // ---------------------------------------------------------------------------------------
  // Conservation: the counts of all windows add up to the number of sessions

  function SumY(ps: seq<Point>): real {
    if ps == [] then 0.0 else SumY(ps[..|ps| - 1]) + ps[|ps| - 1].y
  }

  /** The counts of every window emitted, added up. */
  function EmittedTotal(hs: seq<HistSeries>): real {
    if hs == [] then 0.0 else EmittedTotal(hs[..|hs| - 1]) + SumY(hs[|hs| - 1].points)
  }

  /** The counts of the emitted windows and of the open one. */
  function Total(st: HState): real {
    Sum(st.counts) as real + EmittedTotal(st.emitted)
  }

  lemma {:induction false} SumBump(c: seq<int>, b: int)
    requires 0 <= b < |c|
    ensures Sum(Bump(c, b)) == Sum(c) + 1
    decreases |c|
  {
    var c' := Bump(c, b);
    assert c'[..|c| - 1] == if b == |c| - 1 then c[..|c| - 1] else Bump(c[..|c| - 1], b);
    if b < |c| - 1 {
      SumBump(c[..|c| - 1], b);
    }
  }

  lemma {:induction false} SumZeros(n: nat)
    ensures Sum(Zeros(n)) == 0
  {
    if n > 0 {
      assert Zeros(n)[..n - 1] == Zeros(n - 1);
      SumZeros(n - 1);
    }
  }

  /** The emitted series carries the counts unchanged: its y values add up to their sum. */
  lemma {:induction false} SumPoints(c: seq<int>)
    ensures SumY(Points(c)) == Sum(c) as real
    decreases |c|
  {
    if c != [] {
      assert Points(c)[..|c| - 1] == Points(c[..|c| - 1]);
      SumPoints(c[..|c| - 1]);
    }
  }

  lemma StepCountsOne(st: HState, e: Entry)
    requires CanStep(st, e)
    ensures Total(Step(st, e)) == Total(st) + 1.0
  {
    SumBump(st.counts, e.bin);
    if st.anchor.Some? && Closes(st, e.date) {
      var h := Emit(st.anchor.value, st.counts);
      assert (st.emitted + [h])[..|st.emitted|] == st.emitted;
      SumPoints(st.counts);
      SumBump(Zeros(|st.counts|), e.bin);
      SumZeros(|st.counts|);
    }
  }

  lemma {:induction false} RunCountsEach(st: HState, es: seq<Entry>)
    requires CanRun(st, es)
    ensures Total(Run(st, es)) == Total(st) + |es| as real
    decreases |es|
  {
    if es != [] {
      StepCountsOne(st, es[0]);
      RunCountsEach(Step(st, es[0]), es[1..]);
    }
  }

  /** All the counts of all the series shown add up to the number of sessions. */
  lemma HistogramCountsEverySession(ss: seq<Session>)
    requires HistogramDefined(ss)
    ensures EmittedTotal(Histogram(ss)) == |ss| as real
  {
    var st := Run(Init(), Entries(ss));
    RunCountsEach(Init(), Entries(ss));
    SumZeros(BinCount);
    SumPoints(st.counts);
    assert Histogram(ss)[..|st.emitted|] == st.emitted;
  }

  // ---------------------------------------------------------------------------------------
  // Per bin: bin b of all windows together counts the sessions whose qMax rounds to b

  /** The number of sessions in `es` whose bin is `b`. */
  function Tally(es: seq<Entry>, b: int): nat {
    if es == [] then 0 else Tally(es[..|es| - 1], b) + (if es[|es| - 1].bin == b then 1 else 0)
  }

  /** Bin `b` of every window emitted, added up. */
  function EmittedAt(hs: seq<HistSeries>, b: int): real
    requires 0 <= b < BinCount && AllShaped(hs)
  {
    if hs == [] then 0.0 else EmittedAt(hs[..|hs| - 1], b) + hs[|hs| - 1].points[b].y
  }

  function BinTotal(st: HState, b: int): real
    requires 0 <= b < BinCount && WellFormed(st)
  {
    st.counts[b] as real + EmittedAt(st.emitted, b)
  }

  lemma StepCountsInBin(st: HState, e: Entry, b: int)
    requires WellFormed(st) && CanStep(st, e) && 0 <= b < BinCount
    ensures WellFormed(Step(st, e))
    ensures BinTotal(Step(st, e), b) == BinTotal(st, b) + (if e.bin == b then 1.0 else 0.0)
  {
    StepWellFormed(st, e);
    var st' := Step(st, e);
    if st.anchor.Some? && Closes(st, e.date) {
      assert st'.emitted[..|st.emitted|] == st.emitted;
    }
  }

  lemma {:induction false} RunCountsInBin(st: HState, es: seq<Entry>, b: int)
    requires WellFormed(st) && CanRun(st, es) && 0 <= b < BinCount
    ensures WellFormed(Run(st, es))
    ensures BinTotal(Run(st, es), b) == BinTotal(st, b) + Tally(es, b) as real
    decreases |es|
  {
    if es != [] {
      StepCountsInBin(st, es[0], b);
      RunCountsInBin(Step(st, es[0]), es[1..], b);
      TallyFront(es, b);
    }
  }

  lemma {:induction false} TallyFront(es: seq<Entry>, b: int)
    requires es != []
    ensures Tally(es, b) == (if es[0].bin == b then 1 else 0) + Tally(es[1..], b)
    decreases |es|
  {
    if |es| > 1 {
      assert es[..|es| - 1][1..] == es[1..][..|es| - 2];
      TallyFront(es[..|es| - 1], b);
    } else {
      assert es[..0] == [] && es[1..] == [];
    }
  }

  /** Bin b, added up over every series shown, is the number of sessions whose qMax rounds
      to b: no session is lost, counted twice, or counted in another bin. */
  lemma HistogramCountsEachBin(ss: seq<Session>, b: int)
    requires HistogramDefined(ss) && 0 <= b < BinCount
    ensures AllShaped(Histogram(ss))
    ensures EmittedAt(Histogram(ss), b) == Tally(Entries(ss), b) as real
  {
    var st := Run(Init(), Entries(ss));
    RunCountsInBin(Init(), Entries(ss), b);
    HistogramShape(ss);
    assert Histogram(ss)[..|st.emitted|] == st.emitted;
  }

  // ---------------------------------------------------------------------------------------
  // Names: the anchors of successive windows are more than a week apart

  /** The series are named by dates each more than six days after the one before. */
  predicate Spaced(hs: seq<HistSeries>) {
    forall i, j :: 0 <= i < j < |hs| ==> hs[j].name > hs[i].name + WindowDays
  }

  /** The emitted series are spaced, and the open window is anchored more than six days after
      the last of them. */
  predicate AnchorsSpaced(st: HState) {
    Spaced(st.emitted) &&
    (st.emitted != [] ==>
       st.anchor.Some? && st.anchor.value > st.emitted[|st.emitted| - 1].name + WindowDays)
  }

  lemma StepSpaced(st: HState, e: Entry)
    requires AnchorsSpaced(st) && CanStep(st, e)
    ensures AnchorsSpaced(Step(st, e))
  {
    var st' := Step(st, e);
    if st.anchor.Some? && Closes(st, e.date) {
      var hs := st'.emitted;
      forall i, j | 0 <= i < j < |hs|
        ensures hs[j].name > hs[i].name + WindowDays
      {
        if j == |hs| - 1 && i < j && st.emitted != [] {
          assert hs[i] == st.emitted[i];
          assert st.emitted[i].name <= st.emitted[|st.emitted| - 1].name;
        }
      }
    }
  }

  lemma {:induction false} RunSpaced(st: HState, es: seq<Entry>)
    requires AnchorsSpaced(st) && CanRun(st, es)
    ensures AnchorsSpaced(Run(st, es))
    decreases |es|
  {
    if es != [] {
      StepSpaced(st, es[0]);
      RunSpaced(Step(st, es[0]), es[1..]);
    }
  }

  /** The histogram series are named by increasing anchor dates more than a week apart, so
      no two of them share a name. */
  lemma HistogramNamesSpaced(ss: seq<Session>)
    requires HistogramDefined(ss)
    ensures Spaced(Histogram(ss))
    ensures forall i, j :: 0 <= i < j < |Histogram(ss)| ==> Histogram(ss)[i].name != Histogram(ss)[j].name
  {
    RunSpaced(Init(), Entries(ss));
    var st := Run(Init(), Entries(ss));
    var hs := Histogram(ss);
    forall i, j | 0 <= i < j < |hs|
      ensures hs[j].name > hs[i].name + WindowDays
    {
      if j == |st.emitted| && st.emitted != [] {
        assert hs[i] == st.emitted[i];
        assert st.emitted[i].name <= st.emitted[|st.emitted| - 1].name;
      }
    }
  }

  // ---------------------------------------------------------------------------------------
  // The worked example: days 0, 3, 8, 20 with qMax 10, 12, 25, 5

  lemma ExampleWeeks()
    ensures var es := [Entry(Some(0), 10), Entry(Some(3), 12), Entry(Some(8), 25), Entry(Some(20), 5)];
            && CanRun(Init(), es)
            && Run(Init(), es).anchor == Some(20)
            && Finish(Run(Init(), es)) ==
                 [Emit(0, Zeros(BinCount)[10 := 1][12 := 1]),
                  Emit(8, Zeros(BinCount)[25 := 1]),
                  Emit(20, Zeros(BinCount)[5 := 1])]
  {
    var es := [Entry(Some(0), 10), Entry(Some(3), 12), Entry(Some(8), 25), Entry(Some(20), 5)];
    var s1 := Step(Init(), es[0]);
    var s2 := Step(s1, es[1]);
    var s3 := Step(s2, es[2]);
    var s4 := Step(s3, es[3]);
    assert s2 == HState(Some(0), Zeros(BinCount)[10 := 1][12 := 1], []);
    assert s3 == HState(Some(8), Zeros(BinCount)[25 := 1], [Emit(0, Zeros(BinCount)[10 := 1][12 := 1])]);
    assert es[1..][1..][1..][1..] == [];
    assert CanRun(s4, []);
  }
}
