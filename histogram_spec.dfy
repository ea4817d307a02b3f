/** The weekly qMax histogram that `main` of FlowShow.java keeps while it walks the sessions
    batch by batch: one open window (an anchor date and 30 counts), closed and emitted as a
    named series when a session is dated more than six days after the anchor. Here as a fold
    over the sessions; the in-place version is the class in histogram.dfy. */
module HistogramSpec {
  import opened Wrappers
  import opened Sessions

  /** The length of `currentHistogram` (an `Integer[30]`). */
  const BinCount: nat := 30

  /** A window holds sessions dated at most this many days after its anchor. */
  const WindowDays: int := 6

  /** The y factor applied to each count when a window is emitted (`scale`, fixed at 1.0). */
  const Scale: real := 1.0

  /** `Math.round` of a float: the nearest integer, halves rounded up. */
  function Round(x: real): (r: int)
    ensures r as real - 1.0 / 2.0 <= x < r as real + 1.0 / 2.0
  {
    (x + 1.0 / 2.0).Floor
  }

  /** What the histogram needs from a session: its date and the bin of its qMax. */
  datatype Entry = Entry(date: Option<Date>, bin: int)

  function EntryOf(s: Session): (e: Entry)
    ensures e.date == s.date
    ensures e.bin as real - 1.0 / 2.0 <= s.qMax < e.bin as real + 1.0 / 2.0
  {
    Entry(s.date, Round(s.qMax))
  }

  function Entries(ss: seq<Session>): (es: seq<Entry>)
    ensures |es| == |ss|
    ensures forall i :: 0 <= i < |ss| ==> es[i] == EntryOf(ss[i])
  {
    if ss == [] then [] else Entries(ss[..|ss| - 1]) + [EntryOf(ss[|ss| - 1])]
  }

  /** One point of an emitted histogram series: the bin index and its scaled count. */
  datatype Point = Point(x: int, y: real)

  /** An emitted histogram series, named by its window's anchor date. */
  datatype HistSeries = HistSeries(name: Date, points: seq<Point>)

  /** `hgram.add(i, currentHistogram[i] * scale)` for every bin, in index order. */
  function Points(counts: seq<int>): (ps: seq<Point>)
    ensures |ps| == |counts|
    ensures forall i :: 0 <= i < |ps| ==> ps[i] == Point(i, counts[i] as real * Scale)
  {
    seq(|counts|, i requires 0 <= i < |counts| => Point(i, counts[i] as real * Scale))
  }

  /** The series `hgram` a closing window becomes, named by its anchor. */
  function Emit(anchor: Date, counts: seq<int>): (h: HistSeries)
    ensures h.name == anchor && |h.points| == |counts|
    ensures forall i :: 0 <= i < |counts| ==> h.points[i] == Point(i, counts[i] as real * Scale)
  {
    HistSeries(anchor, Points(counts))
  }

  /** The sum of the counts (`totalCounts`, lines 228-230). */
  function Sum(counts: seq<int>): int {
    if counts == [] then 0 else Sum(counts[..|counts| - 1]) + counts[|counts| - 1]
  }

  function Zeros(n: nat): (z: seq<int>)
    ensures |z| == n && forall i :: 0 <= i < n ==> z[i] == 0
  {
    seq(n, i => 0)
  }

  /** The histogram state of `main`: `currentHgramDate` (None until a dated session arrives),
      the counts of `currentHistogram`, and the series already added to `hPlots`. */
  datatype HState = HState(anchor: Option<Date>, counts: seq<int>, emitted: seq<HistSeries>)

  /** The state before the first session: no anchor, 30 zero bins (line 195), nothing emitted. */
  function Init(): (st: HState)
    ensures st.anchor.None? && st.emitted == []
    ensures |st.counts| == BinCount && forall i :: 0 <= i < BinCount ==> st.counts[i] == 0
  {
    HState(None, Zeros(BinCount), [])
  }

  function Bump(counts: seq<int>, b: int): (r: seq<int>)
    requires 0 <= b < |counts|
    ensures |r| == |counts| && r[b] == counts[b] + 1
    ensures forall i :: 0 <= i < |counts| && i != b ==> r[i] == counts[i]
  {
    counts[b := counts[b] + 1]
  }

  /** Whether the window open in `st` is closed by a session dated `date`. */
  predicate Closes(st: HState, date: Option<Date>) {
    st.anchor.Some? && date.Some? && date.value > st.anchor.value + WindowDays
  }

  /** The session is processed without an uncaught exception: its bin indexes the array,
      and once there is an anchor its date is present (`isAfter` on null throws). */
  predicate CanStep(st: HState, e: Entry) {
    0 <= e.bin < |st.counts| && (st.anchor.Some? ==> e.date.Some?)
  }

  /** One session of the loop at lines 217-241: the array keeps its 30 bins, the series
      already emitted stay, at most one is added, and once there is an anchor there
      always is one. */
  function Step(st: HState, e: Entry): (r: HState)
    requires CanStep(st, e)
    ensures |r.counts| == |st.counts|
    ensures st.emitted <= r.emitted && |r.emitted| <= |st.emitted| + 1
    ensures st.anchor.Some? ==> r.anchor.Some?
  {
    if st.anchor.None? then
      HState(e.date, Bump(st.counts, e.bin), st.emitted)
    else if Closes(st, e.date) then
      HState(e.date, Bump(Zeros(|st.counts|), e.bin), st.emitted + [Emit(st.anchor.value, st.counts)])
    else
      HState(st.anchor, Bump(st.counts, e.bin), st.emitted)
  }

  predicate CanRun(st: HState, es: seq<Entry>)
    decreases |es|
  {
    es == [] || (CanStep(st, es[0]) && CanRun(Step(st, es[0]), es[1..]))
  }

  /** The sessions processed in order: no emitted series is ever taken back, at most one
      is added per session, and the array keeps its size. */
  function Run(st: HState, es: seq<Entry>): (r: HState)
    requires CanRun(st, es)
    ensures |r.counts| == |st.counts|
    ensures st.emitted <= r.emitted && |r.emitted| <= |st.emitted| + |es|
    ensures st.anchor.Some? ==> r.anchor.Some?
    decreases |es|
  {
    if es == [] then st else Run(Step(st, es[0]), es[1..])
  }

  /** The flush at lines 251-260: the open window is emitted once more. */
  function Finish(st: HState): (hs: seq<HistSeries>)
    requires st.anchor.Some?
    ensures |hs| == |st.emitted| + 1 && hs[..|st.emitted|] == st.emitted
    ensures hs[|st.emitted|] == Emit(st.anchor.value, st.counts)
  {
    st.emitted + [Emit(st.anchor.value, st.counts)]
  }

  /** The histogram series `main` shows for the sessions `ss`, when it gets that far. */
  predicate HistogramDefined(ss: seq<Session>) {
    CanRun(Init(), Entries(ss)) && Run(Init(), Entries(ss)).anchor.Some?
  }

  function Histogram(ss: seq<Session>): seq<HistSeries>
    requires HistogramDefined(ss)
  {
    Finish(Run(Init(), Entries(ss)))
  }
}
