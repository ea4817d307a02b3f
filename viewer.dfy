/** `main` of FlowShow.java (lines 179-261) once a file has been chosen and tokenised: it
    reads the sessions five at a time, makes one "Flow" chart per batch and feeds every session
    to the weekly histogram, then flushes the histogram and adds the "Histogram" chart. */
module Viewer {
  import opened Sessions
  import opened ParserSpec
  import opened ParserProperties
  import opened HistogramSpec
  import opened HistogramProperties
  import opened Parser
  import opened HistogramAccumulator

  /** The series collection of a chart: rate series for a batch, or histogram windows. */
  datatype Plots = FlowPlots(rates: seq<RateSeries>) | HistPlots(windows: seq<HistSeries>)

  /** A chart handed to the display: a series collection, a title and the two axis labels. */
  datatype TitleDataset = TitleDataset(plots: Plots, title: string, xLabel: string, yLabel: string)

  /** The rate series of the sessions, in order (line 211). */
  function RatesOf(ss: seq<Session>): (rs: seq<RateSeries>)
    ensures |rs| == |ss|
    ensures forall i :: 0 <= i < |ss| ==> rs[i] == ss[i].rateSamples
  {
    if ss == [] then [] else RatesOf(ss[..|ss| - 1]) + [ss[|ss| - 1].rateSamples]
  }

  /** The chart of one batch (line 249): its sessions' rate series, in order. */
  function FlowChart(batch: seq<Session>): (d: TitleDataset)
    ensures d.title == "Flow" && d.xLabel == "Sec" && d.yLabel == "mL/Sec"
    ensures d.plots.FlowPlots? && |d.plots.rates| == |batch|
    ensures forall i :: 0 <= i < |batch| ==> d.plots.rates[i] == batch[i].rateSamples
  {
    TitleDataset(FlowPlots(RatesOf(batch)), "Flow", "Sec", "mL/Sec")
  }

  /** The chart of the histogram windows (line 261). */
  function HistogramChart(hs: seq<HistSeries>): (d: TitleDataset)
    ensures d.title == "Histogram" && d.xLabel == "mL/Sec" && d.yLabel == "Count"
    ensures d.plots == HistPlots(hs)
  {
    TitleDataset(HistPlots(hs), "Histogram", "mL/Sec", "Count")
  }

  function FlowCharts(bs: seq<seq<Session>>): (ds: seq<TitleDataset>)
    ensures |ds| == |bs|
    ensures forall i :: 0 <= i < |bs| ==> ds[i] == FlowChart(bs[i])
  {
    if bs == [] then [] else FlowCharts(bs[..|bs| - 1]) + [FlowChart(bs[|bs| - 1])]
  }

  /** `main` runs to the end: no session's qMax rounds outside the 30 bins, no undated session
      follows a dated one, and some session is dated, so the final flush has an anchor. */
  predicate Displayable(records: seq<Record>, P: Parsers) {
    HistogramDefined(AllSessions(records, 0, P))
  }

  /** The charts `main` builds from the records: one Flow chart per batch of five (the last
      one short, possibly empty), then one Histogram chart of all sessions. */
  function Charts(records: seq<Record>, P: Parsers): (ds: seq<TitleDataset>)
    requires Displayable(records, P)
    ensures var bs := Batches(records, 0, P);
            && |ds| == |bs| + 1
            && (forall i :: 0 <= i < |bs| ==> ds[i] == FlowChart(bs[i]))
            && ds[|bs|] == HistogramChart(Histogram(AllSessions(records, 0, P)))
  {
    FlowCharts(Batches(records, 0, P)) + [HistogramChart(Histogram(AllSessions(records, 0, P)))]
  }

  lemma {:induction false} FlattenSnoc<T>(xss: seq<seq<T>>, xs: seq<T>)
    ensures Flatten(xss + [xs]) == Flatten(xss) + xs
    decreases |xss|
  {
    if xss == [] {
      assert [] + [xs] == [xs];
      assert Flatten([xs][1..]) == [];
    } else {
      assert (xss + [xs])[1..] == xss[1..] + [xs];
      FlattenSnoc(xss[1..], xs);
    }
  }

  lemma {:induction false} FlattenSplit<T>(xss: seq<seq<T>>, k: nat)
    requires k <= |xss|
    ensures Flatten(xss[..k]) + Flatten(xss[k..]) == Flatten(xss)
    decreases k
  {
    if k > 0 {
      assert xss[..k][1..] == xss[1..][..k - 1] && xss[k..] == xss[1..][k - 1..];
      FlattenSplit(xss[1..], k - 1);
    } else {
      assert xss[..0] == [] && xss[0..] == xss;
    }
  }

  lemma TakeSnoc<T>(xs: seq<T>, k: nat)
    requires k < |xs|
    ensures xs[..k + 1] == xs[..k] + [xs[k]]
  {
  }

  lemma PrefixCanRun(pre: seq<Session>, all: seq<Session>)
    requires pre <= all && CanRun(Init(), Entries(all))
    ensures CanRun(Init(), Entries(pre))
  {
    assert Entries(all) == Entries(pre) + Entries(all)[|pre|..];
    RunAppend(Init(), Entries(pre), Entries(all)[|pre|..]);
  }

  /** What one pass of the inner loop of `main` needs: one more rate series, and the next
      session can be fed to the histogram. */
  lemma PlotStep(ss: seq<Session>, from: nat, n: nat, all: seq<Session>)
    requires from <= n < |ss| && ss <= all && CanRun(Init(), Entries(all))
    requires CanRun(Init(), Entries(ss[..n]))
    ensures RatesOf(ss[from..n + 1]) == RatesOf(ss[from..n]) + [ss[n].rateSamples]
    ensures CanStep(Run(Init(), Entries(ss[..n])), EntryOf(ss[n]))
    ensures CanRun(Init(), Entries(ss[..n + 1]))
    ensures Run(Init(), Entries(ss[..n + 1])) == Step(Run(Init(), Entries(ss[..n])), EntryOf(ss[n]))
  {
    assert ss[from..n + 1][..n - from] == ss[from..n];
    assert ss[..n + 1] == ss[..n] + [ss[n]];
    assert Entries(ss[..n + 1]) == Entries(ss[..n]) + [EntryOf(ss[n])];
    PrefixCanRun(ss[..n + 1], all);
    RunSnoc(Init(), Entries(ss[..n]), EntryOf(ss[n]));
  }

  /** The histogram has processed exactly the sessions `ss`, in order. */
  ghost predicate Processed(hist: WeeklyHistogram, ss: seq<Session>)
    reads hist, hist.counts
  {
    hist.Valid() && CanRun(Init(), Entries(ss)) && hist.State() == Run(Init(), Entries(ss))
  }

  /** The inner loop of `main` (lines 210-243): the rate series of the sessions just read, in
      order, and each of them fed to the histogram. */
  method PlotBatch(session: SessionList, nPlot0: nat, nSessions: nat, hist: WeeklyHistogram,
                   ghost all: seq<Session>)
    returns (flowPlots: seq<RateSeries>, nPlot: nat)
    requires nPlot0 + nSessions == |session.items| && session.items <= all
    requires CanRun(Init(), Entries(all)) && Processed(hist, session.items[..nPlot0])
    modifies hist, hist.counts
    ensures nPlot == |session.items|
    ensures flowPlots == RatesOf(session.items[nPlot0..])
    ensures Processed(hist, session.items)
  {
    ghost var ss := session.items;
    flowPlots := [];
    nPlot := nPlot0;
    for n := 0 to nSessions
      invariant nPlot == nPlot0 + n
      invariant flowPlots == RatesOf(ss[nPlot0..nPlot])
      invariant Processed(hist, ss[..nPlot])
    {
      var s := session.items[nPlot];
      flowPlots := flowPlots + [s.rateSamples];
      PlotStep(ss, nPlot0, nPlot, all);
      hist.Add(s);
      nPlot := nPlot + 1;
    }
    assert ss[..nPlot] == ss;
  }

  /** One pass of the batch loop: the batch `Gimme5` reads is the next of `Batches`, and the
      loop goes on exactly when it was a full one. */
  lemma BatchesStep(rs: seq<Record>, p: nat, P: Parsers)
    requires p <= |rs|
    ensures var b := Collect(rs, p, P, BatchSize, Scanning);
            var bs := Batches(rs, p, P);
            && bs[0] == b.found
            && (|b.found| == BatchSize ==> bs[1..] == Batches(rs, b.next, P))
            && (|b.found| < BatchSize ==> |bs| == 1)
  {
  }

  /** One pass of the batch loop (lines 206-249): the next batch of `Batches` is read, its rate
      series make a Flow chart, and its sessions go to the histogram. */
  method ShowBatch(reader: CsvReader, session: SessionList, hist: WeeklyHistogram, nPlot0: nat,
                   P: Parsers, ghost bs: seq<seq<Session>>, ghost k: nat, ghost all: seq<Session>)
    returns (nSessions: nat, dataset: TitleDataset, nPlot: nat)
    requires reader.Valid() && k < |bs| && Batches(reader.records, reader.pos, P) == bs[k..]
    requires session.items == Flatten(bs[..k]) && nPlot0 == |session.items|
    requires Flatten(bs) == all && CanRun(Init(), Entries(all)) && Processed(hist, session.items)
    modifies reader`pos, session, hist, hist.counts
    ensures reader.Valid()
    ensures nSessions == BatchSize <==> k + 1 < |bs|
    ensures k + 1 < |bs| ==> Batches(reader.records, reader.pos, P) == bs[k + 1..]
    ensures session.items == Flatten(bs[..k + 1]) && nPlot == |session.items|
    ensures dataset == FlowChart(bs[k])
    ensures Processed(hist, session.items)
  {
    ghost var items0 := session.items;
    ghost var b := Collect(reader.records, reader.pos, P, BatchSize, Scanning);
    BatchesStep(reader.records, reader.pos, P);
    nSessions := Gimme5(reader, session, P);
    assert bs[k] == b.found;
    TakeSnoc(bs, k);
    FlattenSnoc(bs[..k], b.found);
    FlattenSplit(bs, k + 1);
    assert session.items[..nPlot0] == items0;
    var flowPlots;
    flowPlots, nPlot := PlotBatch(session, nPlot0, nSessions, hist, all);
    assert session.items[nPlot0..] == b.found;
    dataset := TitleDataset(FlowPlots(flowPlots), "Flow", "Sec", "mL/Sec");
  }

  /** `main` from line 184 on: the batch loop, then the flush of the open histogram window. */
  method ShowFlow(records: seq<Record>, P: Parsers) returns (datasets: seq<TitleDataset>)
    requires Displayable(records, P)
    ensures datasets == Charts(records, P)
  {
    ghost var bs := Batches(records, 0, P);
    ghost var all := AllSessions(records, 0, P);
    BatchesCoverAll(records, 0, P);
    datasets := [];
    var session := new SessionList();
    var reader := new CsvReader(records);
    var hist := new WeeklyHistogram();
    var nPlot := 0;
    ghost var k := 0;
    var nSessions := BatchSize;
    while nSessions == BatchSize
      invariant reader.Valid() && reader.records == records
      invariant 0 <= k <= |bs| && (nSessions == BatchSize <==> k < |bs|)
      invariant k < |bs| ==> Batches(records, reader.pos, P) == bs[k..]
      invariant session.items == Flatten(bs[..k]) && nPlot == |session.items|
      invariant datasets == FlowCharts(bs[..k])
      invariant Processed(hist, session.items)
      decreases |bs| - k
    {
      var dataset;
      nSessions, dataset, nPlot := ShowBatch(reader, session, hist, nPlot, P, bs, k, all);
      datasets := datasets + [dataset];
      TakeSnoc(bs, k);
      k := k + 1;
    }
    assert bs[..k] == bs;
    var _ := hist.CloseWindow();
    datasets := datasets + [TitleDataset(HistPlots(hist.hPlots), "Histogram", "mL/Sec", "Count")];
  }
}
