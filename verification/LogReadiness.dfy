/**
  When a log summary is ready and what its ratios are, over any history of the rolling window
  (internal/logs/window.go:81-197), in terms of the records offered and the gaps reported.
 */
module LogReadiness {
  import opened Common
  import opened LogWindow

  // ---------- What is counted about a record ----------

  /** A record counts under its own channel and level; a level that does not exist is an invalid, unclassified record. */
  lemma FacetsMean(r: Record, l: int)
    ensures Has(r, Any)
    ensures Has(r, Channel(0)) <==> r.channel == "stdout"
    ensures Has(r, Channel(1)) <==> r.channel == "stderr"
    ensures Has(r, Channel(2)) <==> r.channel != "stdout" && r.channel != "stderr"
    ensures 0 <= r.severity.level <= 6 ==> (Has(r, Level(l)) <==> r.severity.level == l) && (Has(r, Invalid) <==> r.severity.invalid)
    ensures !(0 <= r.severity.level <= 6) ==> (Has(r, Level(l)) <==> l == 0) && Has(r, Invalid)
  {
  }

  /** A record belongs to the second its time falls in, before the epoch as after it. */
  lemma SecondsMean(at: int)
    ensures Sec(at) * 1_000_000_000 <= at < (Sec(at) + 1) * 1_000_000_000
  {
  }

  // ---------- Where a history stands ----------

  /** When the window started: at first, or at the last Reset. */
  function StartOf(start: int, ops: seq<Op>): int {
    if ops == [] then start
    else if ops[|ops| - 1].Reset? then ops[|ops| - 1].at
    else StartOf(start, ops[..|ops| - 1])
  }

  // A record older than the window, seen from the newest one.
  predicate TooOld(w: Ring, r: Record) { r.at + w.c.window < w.last }

  // Its second already holds as many of its level as a bucket can.
  ghost predicate Saturated(w: Ring, r: Record)
    requires w.Shaped()
  {
    Held(w, Sec(r.at), Level(Normal(r.severity).level)) >= 0x20_0000_0000_0000 / (w.c.Seconds() + 1) / 7
  }

  /** Everything that leaves a gap: a loss, a reported gap, a record refused for its age or for want of a counter. */
  ghost function GapTimes(c: Config, start: int, ops: seq<Op>): seq<int>
    requires c.Valid()
  {
    if ops == [] then []
    else
      var init := ops[..|ops| - 1];
      var w, times := Replay(c, start, init), GapTimes(c, start, init);
      match ops[|ops| - 1]
      case Add(r) =>
        if r.severity.blank then times
        else if TooOld(w, r) then times + [w.last]
        else if Saturated(w, r) then times + [r.at]
        else times
      case Drop(at) => times + [at]
      case Gap(at) => times + [at]
      case Reset(_) => []
  }

  // No gap reaches the end of a window that ends at second `end`.
  ghost predicate GapFree(c: Config, times: seq<int>, end: int)
    requires c.Valid()
  {
    end * SECOND >= ZERO_TIME && forall i :: 0 <= i < |times| ==> Sec(times[i]) + c.Seconds() + 1 <= end
  }

  lemma GapGrows(w: Ring, at: int, times: seq<int>, end: int)
    requires w.c.Valid() && (end * SECOND >= w.gapUntil <==> GapFree(w.c, times, end))
    ensures end * SECOND >= Gapped(w, at).gapUntil <==> GapFree(w.c, times + [at], end)
  {
    assert GapEnd(w.c, at) == (Sec(at) + w.c.Seconds() + 1) * SECOND;
    assert (times + [at])[|times|] == at;
    assert forall i :: 0 <= i < |times| ==> (times + [at])[i] == times[i];
  }

  lemma AddGaps(w: Ring, r: Record)
    requires w.Shaped() && !r.severity.blank
    ensures Added(w, r).gapUntil
         == (if TooOld(w, r) then Gapped(w, w.last).gapUntil else if Saturated(w, r) then Gapped(w, r.at).gapUntil else w.gapUntil)
  {
    var w1 := if r.at > w.last then w.(last := r.at) else w;
    OpenedHolds(w1, Sec(r.at), Level(Normal(r.severity).level));
    assert Held(w1, Sec(r.at), Level(Normal(r.severity).level)) == Held(w, Sec(r.at), Level(Normal(r.severity).level));
  }

  lemma DropGaps(w: Ring, at: int)
    requires w.Shaped()
    ensures Dropped(w, at).gapUntil == Gapped(w, at).gapUntil && Dropped(w, at).started == w.started
  {
  }

  lemma {:induction false} GapMeans(c: Config, start: int, ops: seq<Op>, end: int)
    requires c.Valid()
    ensures end * SECOND >= Replay(c, start, ops).gapUntil <==> GapFree(c, GapTimes(c, start, ops), end)
  {
    hide GapFree, Added, Dropped, Gapped, Saturated;
    if ops == [] {
      NoGapYet(c, start, end);
    } else {
      var init := ops[..|ops| - 1];
      GapMeans(c, start, init, end);
      var w, times := Replay(c, start, init), GapTimes(c, start, init);
      match ops[|ops| - 1] {
        case Add(r) =>
          if r.severity.blank {
            BlankChangesNothing(w, r);
          } else {
            AddGaps(w, r);
            GapGrows(w, w.last, times, end);
            GapGrows(w, r.at, times, end);
          }
        case Drop(at) =>
          DropGaps(w, at);
          GapGrows(w, at, times, end);
        case Gap(at) => GapGrows(w, at, times, end);
        case Reset(at) => NoGapYet(c, at, end);
      }
    }
  }

  lemma NoGapYet(c: Config, at: int, end: int)
    requires c.Valid()
    ensures end * SECOND >= Started(c, at).gapUntil <==> GapFree(c, [], end)
  {
  }

  lemma BlankChangesNothing(w: Ring, r: Record)
    requires w.Shaped() && r.severity.blank
    ensures Added(w, r) == w
  {
  }

  lemma {:induction false} StartMeans(c: Config, start: int, ops: seq<Op>)
    requires c.Valid()
    ensures Replay(c, start, ops).started == StartOf(start, ops)
  {
    if ops != [] {
      StartMeans(c, start, ops[..|ops| - 1]);
      if ops[|ops| - 1].Drop? { DropGaps(Replay(c, start, ops[..|ops| - 1]), ops[|ops| - 1].at); }
    }
  }

  // ---------- Readiness ----------

  /**
    When a summary is ready, over any history whose losses are reported in time and at any time not
    before its newest record: no gap reaches the window's end, no record in it is invalid, it lies
    after the start, and it has enough records, enough of them classified. Its ratios then are
    those of the warnings, and of the errors and fatal records, among the records offered.
   */
  lemma ReadinessMeans(c: Config, start: int, ops: seq<Op>, at: int)
    requires c.Valid() && Orderly(c, start, ops) && Sec(at) >= Sec(Replay(c, start, ops).last)
    ensures var s, h, end := Summarize(Replay(c, start, ops), at), Records(ops), Sec(at);
            var window := Span(end - c.Seconds(), end);
            var total := CountAt(h, window, Any);
            && (s.ready <==>
                  && GapFree(c, GapTimes(c, start, ops), end)
                  && CountAt(h, window, Invalid) == 0
                  && (end - c.Seconds()) * SECOND >= StartOf(start, ops)
                  && total >= c.minEvents
                  && (total - CountAt(h, window, Level(UNCLASSIFIED))) as real >= c.minCoverage * total as real)
            && (s.ready ==>
                  && s.warningRatio.Some? && s.warningRatio.value * total as real == CountAt(h, window, Level(WARNING)) as real
                  && s.errorRatio.Some?
                  && s.errorRatio.value * total as real == (CountAt(h, window, Level(ERROR)) + CountAt(h, window, Level(FATAL))) as real)
  {
    hide Replay, Orderly, Records, GapTimes, GapFree, CountAt, SumIn, DropsIn, Summarize, Exact, Placed, LossesCovered, StartOf;
    var w, end := Replay(c, start, ops), Sec(at);
    HistoryIsExact(c, start, ops);
    GapMeans(c, start, ops, end);
    StartMeans(c, start, ops);
    SummaryMeans(w, at);
    SummaryCounts(w, at);
    if end * SECOND >= w.gapUntil {
      var bs, lo, h := w.buckets, end - c.Seconds(), Records(ops);
      forall f ensures SumIn(bs, lo, end, f) == CountAt(h, Span(lo, end), f) { RingCountsTheList(w, h, end, f); }
    }
  }
}
