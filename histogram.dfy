/** The weekly histogram as `main` keeps it: the anchor `currentHgramDate`, the `Integer[30]`
    array `currentHistogram` updated in place, and the collection `hPlots` of emitted series.
    Each method is proved against the fold in histogram_spec.dfy. */
module HistogramAccumulator {
  import opened Wrappers
  import opened Sessions
  import opened HistogramSpec

  class WeeklyHistogram {
    var anchor: Option<Date>
    const counts: array<int>
    var hPlots: seq<HistSeries>

    ghost predicate Valid()
      reads this
    {
      counts.Length == BinCount
    }

    /** The state this object stands for in the fold. */
    ghost function State(): HState
      reads this, counts
    {
      HState(anchor, counts[..], hPlots)
    }

    /** The declarations at lines 184-186 and the zeroing loop at line 195. */
    constructor ()
      ensures Valid() && State() == Init() && fresh(counts)
    {
      anchor := None;
      hPlots := [];
      var c := new int[BinCount];
      var i := 0;
      while i < c.Length
        invariant 0 <= i <= c.Length
        invariant forall j :: 0 <= j < i ==> c[j] == 0
      {
        c[i] := 0;
        i := i + 1;
      }
      counts := c;
      assert c[..] == Zeros(BinCount);
    }

    /** Emits the open window (lines 224-235, and again at 252-260): the series named by the
        anchor holds every bin in index order, and every bin is zeroed; returns the sum of
        the counts emitted (`totalCounts`, which the source only logs). */
    method CloseWindow() returns (totalCounts: int)
      requires Valid() && anchor.Some?
      modifies this`hPlots, counts
      ensures Valid() && anchor == old(anchor)
      ensures hPlots == old(hPlots) + [Emit(anchor.value, old(counts[..]))]
      ensures counts[..] == Zeros(BinCount)
      ensures totalCounts == Sum(old(counts[..]))
    {
      ghost var c0 := counts[..];
      var points: seq<Point> := [];
      totalCounts := 0;
      var i := 0;
      while i < counts.Length
        invariant 0 <= i <= counts.Length
        invariant forall j :: 0 <= j < i ==> counts[j] == 0
        invariant forall j :: i <= j < counts.Length ==> counts[j] == c0[j]
        invariant points == Points(c0[..i])
        invariant totalCounts == Sum(c0[..i])
        invariant hPlots == old(hPlots)
      {
        assert c0[..i + 1][..i] == c0[..i];
        assert Points(c0[..i + 1]) == Points(c0[..i]) + [Point(i, c0[i] as real * Scale)];
        totalCounts := totalCounts + counts[i];
        points := points + [Point(i, counts[i] as real * Scale)];
        counts[i] := 0;
        i := i + 1;
      }
      assert c0[..i] == c0;
      hPlots := hPlots + [HistSeries(anchor.value, points)];
      assert counts[..] == Zeros(BinCount);
    }

    /** One session of the loop at lines 217-241: the first session sets the anchor, one
        dated more than six days after the anchor closes the window and re-anchors, and
        every session adds one to the bin of its rounded qMax. */
    method Add(s: Session)
      requires Valid() && CanStep(State(), EntryOf(s))
      modifies this, counts
      ensures Valid() && State() == Step(old(State()), EntryOf(s))
    {
      var bin := Round(s.qMax);
      if anchor == None {
        anchor := s.date;
        counts[bin] := counts[bin] + 1;
      } else if s.date.value > anchor.value + WindowDays {
        var _ := CloseWindow();
        anchor := s.date;
        counts[bin] := counts[bin] + 1;
      } else {
        counts[bin] := counts[bin] + 1;
      }
    }
  }
}
