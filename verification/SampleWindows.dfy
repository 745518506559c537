/**
  Rolling windows over every run of the evaluator: a judged condition saw every sample of its
  windows (internal/condition/transition.go:207-234, 405-453). Limits and clock jumps make a
  verdict unknown; they never approximate a window.
 */
module SampleWindows {
  import opened Common
  import opened Expression
  import opened Evaluator

  // ---------- What was offered ----------

  // The number an observation offers to the windows, if it gets that far.
  function OfferOf(cfg: Config, turn: Turn): Option<Sample> {
    if WayOf(cfg, Addressed(turn), turn.o).JudgedWay? && cfg.rule.Numeric? && cfg.rule.field in turn.o.fields
       && turn.o.fields[cfg.rule.field].Num?
    then Some(Sample(turn.o.at, turn.o.fields[cfg.rule.field].n, turn.o.seq_))
    else None
  }

  /** Every in-order numeric sample since the last clock marker, stored or not. */
  function Offered(cfg: Config, turns: seq<Turn>): seq<Sample> {
    if turns == [] then []
    else
      var last := turns[|turns| - 1];
      if last.o.health.Clock? then []
      else
        var before := Offered(cfg, turns[..|turns| - 1]);
        match OfferOf(cfg, last) case None => before case Some(s) => before + [s]
  }

  /** When the clock last jumped. */
  function MarkerAt(turns: seq<Turn>): Option<Time> {
    if turns == [] then None
    else if turns[|turns| - 1].o.health.Clock? then Some(turns[|turns| - 1].o.at)
    else MarkerAt(turns[..|turns| - 1])
  }

  // ---------- Samples inside a window ----------

  ghost predicate NotAfter(samples: seq<Sample>, t: Time) { forall i :: 0 <= i < |samples| ==> samples[i].at <= t }

  lemma {:induction false} RecentKeeps(samples: seq<Sample>, t: Time, window: int)
    ensures forall s :: s in Recent(samples, t, window) ==> s in samples && Inside(s, t, window)
    ensures |Recent(samples, t, window)| <= |samples|
  {
    if samples != [] { RecentKeeps(samples[..|samples| - 1], t, window); }
  }

  lemma RecentAppend(samples: seq<Sample>, s: Sample, now: Time, window: int)
    ensures Recent(samples + [s], now, window)
         == Recent(samples, now, window) + (if Inside(s, now, window) then [s] else [])
  {
    assert (samples + [s])[..|samples|] == samples;
  }

  // Pruning at an earlier time with a longer window loses nothing a later look needs.
  lemma {:induction false} PruningIsSafe(samples: seq<Sample>, t: Time, span: int, now: Time, window: int)
    requires now >= t && window <= span && NotAfter(samples, t)
    ensures Recent(Recent(samples, t, span), now, window) == Recent(samples, now, window)
  {
    if samples != [] {
      var init, s := samples[..|samples| - 1], samples[|samples| - 1];
      PruningIsSafe(init, t, span, now, window);
      if Inside(s, t, span) {
        RecentAppend(Recent(init, t, span), s, now, window);
      } else {
        assert Recent(init, t, span) + [] == Recent(init, t, span);
        assert Recent(init, now, window) + [] == Recent(init, now, window);
      }
    }
  }

  // ---------- What the store keeps ----------

  // Looked at from `now`, the stored samples show a window as the offered ones do.
  ghost predicate Shows(samples: seq<Sample>, offered: seq<Sample>, now: Time, window: int) {
    Recent(samples, now, window) == Recent(offered, now, window)
  }

  ghost predicate StoreOk(cfg: Config, s: Store, lastAt: Time, offered: seq<Sample>, marker: Option<Time>) {
    && NotAfter(s.samples, lastAt) && NotAfter(offered, lastAt)
    && |s.samples| <= cfg.maxSamples
    && (forall now: Time, window: nat :: now >= lastAt && now >= s.overflowUntil && window <= Span(cfg) ==>
          Shows(s.samples, offered, now, window))
    && (marker.Some? ==> lastAt >= marker.value)
    && (marker.Some? && Span(cfg) > 0 ==> s.clockUntil >= marker.value + Span(cfg) || lastAt >= marker.value + Span(cfg))
  }

  lemma StoreShows(cfg: Config, s: Store, lastAt: Time, offered: seq<Sample>, marker: Option<Time>,
                   x: Sample, now: Time, window: nat)
    requires StoreOk(cfg, s, lastAt, offered, marker) && x.at >= lastAt && window <= Span(cfg)
    requires now >= x.at && now >= StoreSample(Span(cfg), cfg.maxSamples, s, x).0.overflowUntil
    ensures Shows(StoreSample(Span(cfg), cfg.maxSamples, s, x).0.samples, offered + [x], now, window)
  {
    hide Recent;
    var kept := Recent(s.samples, x.at, Span(cfg));
    assert NotAfter(s.samples, x.at);
    PruningIsSafe(s.samples, x.at, Span(cfg), now, window);
    assert Shows(s.samples, offered, now, window);
    RecentAppend(offered, x, now, window);
    RecentAppend(kept, x, now, window);
    var all := Recent(offered, now, window);
    assert all + [] == all;
  }

  lemma StoreSampleOk(cfg: Config, s: Store, lastAt: Time, offered: seq<Sample>, marker: Option<Time>, x: Sample)
    requires StoreOk(cfg, s, lastAt, offered, marker) && x.at >= lastAt && cfg.maxSamples >= 1
    ensures StoreOk(cfg, StoreSample(Span(cfg), cfg.maxSamples, s, x).0, x.at, offered + [x], marker)
  {
    var s' := StoreSample(Span(cfg), cfg.maxSamples, s, x).0;
    RecentKeeps(s.samples, x.at, Span(cfg));
    var kept := Recent(s.samples, x.at, Span(cfg));
    assert NotAfter(kept, x.at) by {
      forall i | 0 <= i < |kept| ensures kept[i].at <= x.at { assert kept[i] in kept; }
    }
    forall now: Time, window: nat | now >= x.at && now >= s'.overflowUntil && window <= Span(cfg)
      ensures Shows(s'.samples, offered + [x], now, window)
    {
      StoreShows(cfg, s, lastAt, offered, marker, x, now, window);
    }
  }

  lemma StoreLater(cfg: Config, s: Store, lastAt: Time, offered: seq<Sample>, marker: Option<Time>, at: Time)
    requires StoreOk(cfg, s, lastAt, offered, marker) && at >= lastAt
    ensures StoreOk(cfg, s, at, offered, marker)
  {
  }

  lemma StoreMarked(cfg: Config, s: Store, at: Time)
    ensures StoreOk(cfg, Store([], 0, if Span(cfg) > 0 then at + Span(cfg) else s.clockUntil), at, [], Some(at))
  {
  }

  // ---------- What one step does to it ----------

  function StoreStep(cfg: Config, s: Store, way: Way, o: Observation, offer: Option<Sample>): Store {
    if way.ClockWay? then Store([], 0, if Span(cfg) > 0 then o.at + Span(cfg) else s.clockUntil)
    else if offer.Some? then StoreSample(Span(cfg), cfg.maxSamples, s, offer.value).0
    else s
  }

  lemma JudgeStores(cfg: Config, st: State, o: Observation)
    ensures Judge(cfg, st, o).state.store
         == if cfg.rule.Numeric? && cfg.rule.field in o.fields && o.fields[cfg.rule.field].Num?
            then StoreSample(Span(cfg), cfg.maxSamples, st.store, Sample(o.at, o.fields[cfg.rule.field].n, o.seq_)).0
            else st.store
    ensures Judge(cfg, st, o).state.lastAt == st.lastAt
  {
    hide Compare, StoreSample, AggregatesOver, Eval, NewId;
  }

  lemma StepStores(cfg: Config, turn: Turn)
    requires turn.t == Step(cfg, Addressed(turn), turn.o)
    ensures turn.t.state.store
         == StoreStep(cfg, turn.before.store, WayOf(cfg, Addressed(turn), turn.o), turn.o, OfferOf(cfg, turn))
    ensures turn.t.state.lastAt
         == if WayOf(cfg, Addressed(turn), turn.o).BackWay? then turn.before.lastAt else turn.o.at
  {
    hide Emit, Judge, Hold, Wait, Decide, StoreSample, WayOf, GapEvents, OverGap;
    var st, o := Addressed(turn), turn.o;
    var rested, events := Rested(cfg, st, o), GapEvents(cfg, st, o);
    OfferInOrder(cfg, turn);
    match WayOf(cfg, st, o) {
      case ClockWay => HoldEffect(cfg, MarkClock(cfg, st, o), o, "clock_discontinuity", []);
      case BackWay => HoldEffect(cfg, st, o, "clock_moved_backwards", []);
      case WaitWay => WaitEffect(cfg, rested, o, events);
      case BadWay => HoldEffect(cfg, rested, o, Detail(o), events);
      case JudgedWay =>
        var v := Judge(cfg, rested, o);
        JudgeStores(cfg, rested, o);
        HoldEffect(cfg, v.state, o, v.reason, events);
        DecideEffect(cfg, v.state, o, v.matched, events);
      case _ =>
    }
  }

  // A clock marker is its own way; anything else that is not refused as backward comes in order.
  lemma OfferInOrder(cfg: Config, turn: Turn)
    ensures var way := WayOf(cfg, Addressed(turn), turn.o);
            && (way.ClockWay? <==> turn.o.health.Clock?)
            && (!way.ClockWay? && !way.BackWay? ==> turn.o.at >= turn.before.lastAt)
            && (way.BackWay? ==> turn.o.at < turn.before.lastAt)
            && (OfferOf(cfg, turn).Some? ==> way.JudgedWay? && OfferOf(cfg, turn).value.at == turn.o.at)
  {
    hide Filtered;
  }

  /** Over every run the store shows what was offered, until it says that it cannot. */
  lemma {:induction false} RunStores(cfg: Config, turns: seq<Turn>)
    requires Compiled(cfg) && IsRun(cfg, turns)
    ensures StoreOk(cfg, StateAfter(turns).store, StateAfter(turns).lastAt, Offered(cfg, turns), MarkerAt(turns))
  {
    if turns != [] {
      hide Step, StoreOk, StoreSample, Evaluated, WayOf, OfferOf, Addressed, IsRun;
      var init, last := turns[..|turns| - 1], turns[|turns| - 1];
      TurnIsStep(cfg, turns);
      RunStores(cfg, init);
      StepStores(cfg, last);
      OfferInOrder(cfg, last);
      var s, lastAt, offered, marker := last.before.store, last.before.lastAt, Offered(cfg, init), MarkerAt(init);
      var way := WayOf(cfg, Addressed(last), last.o);
      if way.ClockWay? {
        StoreMarked(cfg, s, last.o.at);
      } else if !way.BackWay? {
        assert last.o.at >= lastAt;
        if OfferOf(cfg, last).Some? {
          StoreSampleOk(cfg, s, lastAt, offered, marker, OfferOf(cfg, last).value);
        } else {
          StoreLater(cfg, s, lastAt, offered, marker, last.o.at);
        }
      }
    }
  }

  // ---------- What a verdict rests on ----------

  lemma {:induction false} SameWindowsSameAggregates(ws: seq<Window>, a: seq<Sample>, b: seq<Sample>, now: Time)
    requires forall i :: 0 <= i < |ws| ==> Shows(a, b, now, ws[i].window)
    ensures AggregatesOver(ws, a, now) == AggregatesOver(ws, b, now)
  {
    if ws != [] {
      assert Shows(a, b, now, ws[|ws| - 1].window);
      SameWindowsSameAggregates(ws[..|ws| - 1], a, b, now);
    }
  }

  // Each window has its own number, so each aggregate is its own window's.
  lemma {:induction false} LeafAggregate(ws: seq<Window>, samples: seq<Sample>, now: Time, i: nat)
    requires forall k :: 0 <= k < |ws| ==> ws[k].id == k
    requires i < |ws|
    ensures var values := Values(Recent(samples, now, ws[i].window));
            var aggregates := AggregatesOver(ws, samples, now);
            && (i in aggregates <==> values != [])
            && (i in aggregates ==> aggregates[i] == Summary(ws[i].func, values))
  {
    hide Recent, Summary;
    if i < |ws| - 1 {
      LeafAggregate(ws[..|ws| - 1], samples, now, i);
    } else {
      OnlyItsOwnNumbers(ws[..i], samples, now);
    }
  }

  lemma {:induction false} OnlyItsOwnNumbers(ws: seq<Window>, samples: seq<Sample>, now: Time)
    requires forall k :: 0 <= k < |ws| ==> ws[k].id == k
    ensures forall id :: id in AggregatesOver(ws, samples, now) ==> id < |ws|
  {
    if ws != [] { OnlyItsOwnNumbers(ws[..|ws| - 1], samples, now); }
  }

  // The sample just stored lies in every window.
  lemma FreshSampleIsInside(samples: seq<Sample>, x: Sample, window: int)
    requires window > 0
    ensures Recent(samples + [x], x.at, window) != []
  {
    RecentAppend(samples, x, x.at, window);
  }

  ghost predicate EveryWindowCounted(ws: seq<Window>, samples: seq<Sample>, now: Time) {
    forall i :: 0 <= i < |ws| ==> ws[i].id in AggregatesOver(ws, samples, now)
  }

  lemma CompleteWindowsAreCounted(cfg: Config, s: Store, x: Sample)
    requires Compiled(cfg) && cfg.rule.Numeric?
    requires StoreSample(Span(cfg), cfg.maxSamples, s, x).1
    ensures EveryWindowCounted(Windows(cfg.rule.expr), StoreSample(Span(cfg), cfg.maxSamples, s, x).0.samples, x.at)
  {
    hide Recent, AggregatesOver, Windows, MaxWindow;
    var ws, samples := Windows(cfg.rule.expr), StoreSample(Span(cfg), cfg.maxSamples, s, x).0.samples;
    forall i | 0 <= i < |ws| ensures ws[i].id in AggregatesOver(ws, samples, x.at) {
      assert ws[i].window <= Span(cfg);
      FreshSampleIsInside(Recent(s.samples, x.at, Span(cfg)), x, ws[i].window);
      LeafAggregate(ws, samples, x.at, i);
    }
  }

  /** A window is never found empty: the sample being judged is always in it. */
  lemma EmptyWindowUnreachable(cfg: Config, st: State, o: Observation)
    requires Compiled(cfg)
    ensures Judge(cfg, st, o).reason != "empty_window"
  {
    hide StoreSample, AggregatesOver, Windows, Compare, NewId, Eval;
    if cfg.rule.Numeric? && cfg.rule.field in o.fields && o.fields[cfg.rule.field].Num? {
      var x := Sample(o.at, o.fields[cfg.rule.field].n, o.seq_);
      StoreReasons(cfg, st.store, x);
      if StoreSample(Span(cfg), cfg.maxSamples, st.store, x).1 { CompleteWindowsAreCounted(cfg, st.store, x); }
    }
  }

  lemma StoreReasons(cfg: Config, s: Store, x: Sample)
    ensures StoreSample(Span(cfg), cfg.maxSamples, s, x).2 != "empty_window"
  {
    hide Recent;
  }

  // What a known verdict on a numeric condition is.
  lemma KnownVerdict(cfg: Config, turn: Turn)
    requires Compiled(cfg) && cfg.rule.Numeric? && turn.t == Step(cfg, Addressed(turn), turn.o) && turn.t.known
    ensures OfferOf(cfg, turn).Some?
    ensures var x := OfferOf(cfg, turn).value;
            var r := StoreSample(Span(cfg), cfg.maxSamples, turn.before.store, x);
            && r.1
            && turn.t.matched
               == Eval(cfg.rule.expr, Context(x.value, AggregatesOver(Windows(cfg.rule.expr), r.0.samples, x.at)))
  {
    hide Emit, Hold, Wait, Decide, StoreSample, Filtered, GapEvents, OverGap, AggregatesOver, Eval, Windows;
    var st, o := Addressed(turn), turn.o;
    var rested, events := Rested(cfg, st, o), GapEvents(cfg, st, o);
    var v := Judge(cfg, rested, o);
    HoldEffect(cfg, MarkClock(cfg, st, o), o, "clock_discontinuity", []);
    HoldEffect(cfg, st, o, "clock_moved_backwards", []);
    HoldEffect(cfg, rested, o, Detail(o), events);
    HoldEffect(cfg, v.state, o, v.reason, events);
    WaitEffect(cfg, rested, o, events);
    DecideEffect(cfg, v.state, o, v.matched, events);
  }

  // A store that calls itself complete shows every window of the condition, and all of them lie after the marker.
  lemma CompleteStoreShows(cfg: Config, s: Store, lastAt: Time, offered: seq<Sample>, marker: Option<Time>, x: Sample)
    requires StoreOk(cfg, s, lastAt, offered, marker) && x.at >= lastAt
    requires StoreSample(Span(cfg), cfg.maxSamples, s, x).1
    ensures marker.Some? ==> x.at >= marker.value + Span(cfg)
    ensures forall window: nat :: window <= Span(cfg) ==>
              Shows(StoreSample(Span(cfg), cfg.maxSamples, s, x).0.samples, offered + [x], x.at, window)
  {
    hide Recent, Windows, MaxWindow;
    forall window: nat | window <= Span(cfg)
      ensures Shows(StoreSample(Span(cfg), cfg.maxSamples, s, x).0.samples, offered + [x], x.at, window)
    {
      StoreShows(cfg, s, lastAt, offered, marker, x, x.at, window);
    }
  }

  /** The samples later than `from` and no later than `to`, in order. */
  ghost function Between(samples: seq<Sample>, from: int, to: int): seq<Sample> {
    if samples == [] then []
    else
      var s := samples[|samples| - 1];
      Between(samples[..|samples| - 1], from, to) + (if s.at <= from || s.at > to then [] else [s])
  }

  lemma {:induction false} RecentIsBetween(samples: seq<Sample>, now: Time, window: int)
    ensures Recent(samples, now, window) == Between(samples, now - window, now)
  {
    if samples != [] { RecentIsBetween(samples[..|samples| - 1], now, window); }
  }

  /** Each window aggregates exactly the values of the offered samples inside it, and there is at least one. */
  ghost predicate AggregatesExactly(ws: seq<Window>, offered: seq<Sample>, now: Time, aggregates: map<int, real>) {
    forall i :: 0 <= i < |ws| ==>
      var values := Values(Between(offered, now - ws[i].window, now));
      values != [] && i in aggregates && IsAggregate(ws[i].func, values, aggregates[i])
  }

  lemma WindowsAggregateExactly(cfg: Config, samples: seq<Sample>, offered: seq<Sample>, now: Time)
    requires Compiled(cfg) && cfg.rule.Numeric?
    requires EveryWindowCounted(Windows(cfg.rule.expr), samples, now)
    requires forall window: nat :: window <= Span(cfg) ==> Shows(samples, offered, now, window)
    ensures var ws := Windows(cfg.rule.expr);
            && AggregatesOver(ws, samples, now) == AggregatesOver(ws, offered, now)
            && AggregatesExactly(ws, offered, now, AggregatesOver(ws, offered, now))
  {
    hide Recent, Between, AggregatesOver, Windows, Summary, Values, IsAggregate;
    var ws := Windows(cfg.rule.expr);
    forall i | 0 <= i < |ws| ensures Shows(samples, offered, now, ws[i].window) { assert ws[i].window <= Span(cfg); }
    SameWindowsSameAggregates(ws, samples, offered, now);
    forall i | 0 <= i < |ws|
      ensures var values := Values(Between(offered, now - ws[i].window, now));
              && values != [] && i in AggregatesOver(ws, offered, now)
              && IsAggregate(ws[i].func, values, AggregatesOver(ws, offered, now)[i])
    {
      LeafAggregate(ws, offered, now, i);
      RecentIsBetween(offered, now, ws[i].window);
      SummaryAggregates(ws[i].func, Values(Recent(offered, now, ws[i].window)));
    }
  }

  /**
    Exact window or unknown: whenever a windowed condition is judged, each of its windows
    aggregates exactly the samples offered since the last clock marker with accepted time in
    (now - W, now], the verdict is the expression over those aggregates, and no window reaches
    back to the marker.
   */
  lemma KnownIsExact(cfg: Config, turns: seq<Turn>)
    requires Compiled(cfg) && IsRun(cfg, turns) && turns != [] && cfg.rule.Numeric?
    requires turns[|turns| - 1].t.known
    ensures var last, ws, offered := turns[|turns| - 1], Windows(cfg.rule.expr), Offered(cfg, turns);
            var aggregates := AggregatesOver(ws, offered, last.o.at);
            && OfferOf(cfg, last).Some?
            && AggregatesExactly(ws, offered, last.o.at, aggregates)
            && last.t.matched == Eval(cfg.rule.expr, Context(OfferOf(cfg, last).value.value, aggregates))
            && (MarkerAt(turns).Some? ==> last.o.at >= MarkerAt(turns).value + Span(cfg))
  {
    hide Step, Recent, AggregatesOver, Eval, Windows, MaxWindow, Evaluated, StoreSample, StoreOk, AggregatesExactly,
      EveryWindowCounted, Shows, Compiled;
    var init, last := turns[..|turns| - 1], turns[|turns| - 1];
    TurnIsStep(cfg, turns);
    KnownVerdict(cfg, last);
    RunStores(cfg, init);
    var x, s := OfferOf(cfg, last).value, last.before.store;
    CompleteStoreShows(cfg, s, last.before.lastAt, Offered(cfg, init), MarkerAt(init), x);
    CompleteWindowsAreCounted(cfg, s, x);
    WindowsAggregateExactly(cfg, StoreSample(Span(cfg), cfg.maxSamples, s, x).0.samples, Offered(cfg, turns), last.o.at);
  }

  // ---------- When windows are incomplete ----------

  // A sample that found the store full.
  predicate FindsNoRoom(cfg: Config, s: Store, x: Sample) {
    Span(cfg) > 0 && |Recent(s.samples, x.at, Span(cfg))| >= cfg.maxSamples
  }

  /** The times of the samples since the last clock marker that found the store full. */
  function Overflows(cfg: Config, turns: seq<Turn>): seq<Time> {
    if turns == [] then []
    else
      var last, before := turns[|turns| - 1], Overflows(cfg, turns[..|turns| - 1]);
      if last.o.health.Clock? then []
      else if OfferOf(cfg, last).Some? && FindsNoRoom(cfg, last.before.store, OfferOf(cfg, last).value) then before + [last.o.at]
      else before
  }

  // A full span has passed since each of these times.
  predicate Passed(cfg: Config, times: seq<Time>, now: Time) { forall i :: 0 <= i < |times| ==> times[i] + Span(cfg) <= now }

  // At `now` the store's marks say whether windows are still incomplete: for a full span, no more and no less.
  ghost predicate MarksSay(cfg: Config, s: Store, overflows: seq<Time>, marker: Option<Time>, now: Time) {
    && (now >= s.overflowUntil <==> Passed(cfg, overflows, now))
    && (now >= s.clockUntil <==> Span(cfg) == 0 || marker.None? || now >= marker.value + Span(cfg))
  }

  /** From the last accepted time on the store's marks say how long windows stay incomplete. */
  ghost predicate MarksOk(cfg: Config, s: Store, lastAt: Time, overflows: seq<Time>, marker: Option<Time>) {
    forall now: Time :: now >= lastAt ==> MarksSay(cfg, s, overflows, marker, now)
  }

  lemma PassedNext(cfg: Config, times: seq<Time>, t: Time, now: Time)
    ensures Passed(cfg, times + [t], now) <==> Passed(cfg, times, now) && t + Span(cfg) <= now
  {
    assert (times + [t])[|times|] == t;
    assert forall i :: 0 <= i < |times| ==> (times + [t])[i] == times[i];
  }

  lemma SampleMarks(cfg: Config, s: Store, lastAt: Time, overflows: seq<Time>, marker: Option<Time>, x: Sample)
    requires MarksOk(cfg, s, lastAt, overflows, marker) && x.at >= lastAt
    ensures MarksOk(cfg, StoreSample(Span(cfg), cfg.maxSamples, s, x).0, x.at,
                    if FindsNoRoom(cfg, s, x) then overflows + [x.at] else overflows, marker)
  {
    hide Recent, Passed;
    var s' := StoreSample(Span(cfg), cfg.maxSamples, s, x).0;
    var overflows' := if FindsNoRoom(cfg, s, x) then overflows + [x.at] else overflows;
    forall now: Time | now >= x.at
      ensures MarksSay(cfg, s', overflows', marker, now)
    {
      assert MarksSay(cfg, s, overflows, marker, now) && MarksSay(cfg, s, overflows, marker, x.at);
      PassedNext(cfg, overflows, x.at, now);
      PassedOn(cfg, overflows, x.at, now);
    }
  }

  lemma PassedOn(cfg: Config, times: seq<Time>, now: Time, later: Time)
    requires now <= later
    ensures Passed(cfg, times, now) ==> Passed(cfg, times, later)
  {
  }

  lemma ClockMarks(cfg: Config, s: Store, at: Time)
    requires Span(cfg) == 0 ==> s.clockUntil <= at
    ensures MarksOk(cfg, Store([], 0, if Span(cfg) > 0 then at + Span(cfg) else s.clockUntil), at, [], Some(at))
  {
  }

  lemma {:induction false} RunMarks(cfg: Config, turns: seq<Turn>)
    requires Compiled(cfg) && IsRun(cfg, turns)
    ensures MarksOk(cfg, StateAfter(turns).store, StateAfter(turns).lastAt, Overflows(cfg, turns), MarkerAt(turns))
    ensures Span(cfg) == 0 ==> StateAfter(turns).store.clockUntil == 0
  {
    if turns != [] {
      hide Step, MarksOk, StoreSample, Evaluated, WayOf, OfferOf, Addressed, IsRun, Compiled;
      var init, last := turns[..|turns| - 1], turns[|turns| - 1];
      TurnIsStep(cfg, turns);
      RunMarks(cfg, init);
      StepStores(cfg, last);
      OfferInOrder(cfg, last);
      var s, lastAt, overflows, marker := last.before.store, last.before.lastAt, Overflows(cfg, init), MarkerAt(init);
      var way := WayOf(cfg, Addressed(last), last.o);
      if way.ClockWay? {
        ClockMarks(cfg, s, last.o.at);
      } else if !way.BackWay? {
        if OfferOf(cfg, last).Some? {
          SampleMarks(cfg, s, lastAt, overflows, marker, OfferOf(cfg, last).value);
          ClockStaysClear(cfg, s, OfferOf(cfg, last).value);
        } else {
          MarksLater(cfg, s, lastAt, overflows, marker, last.o.at);
        }
      }
    } else {
      NoMarksYet(cfg);
    }
  }

  lemma ClockStaysClear(cfg: Config, s: Store, x: Sample)
    ensures s.clockUntil == 0 ==> StoreSample(Span(cfg), cfg.maxSamples, s, x).0.clockUntil == 0
  {
    hide Recent;
  }

  lemma MarksLater(cfg: Config, s: Store, lastAt: Time, overflows: seq<Time>, marker: Option<Time>, at: Time)
    requires MarksOk(cfg, s, lastAt, overflows, marker) && at >= lastAt
    ensures MarksOk(cfg, s, at, overflows, marker)
  {
    hide Passed;
  }

  lemma NoMarksYet(cfg: Config)
    ensures MarksOk(cfg, INITIAL.store, INITIAL.lastAt, [], None)
  {
  }

  // The window is not marked incomplete, and the samples still in it leave room for one more.
  ghost predicate HasRoom(cfg: Config, s: Store, now: Time) {
    && now >= s.clockUntil && now >= s.overflowUntil
    && (Span(cfg) == 0 || |Recent(s.samples, now, Span(cfg))| < cfg.maxSamples)
  }

  /** After any run a healthy, in-order number is accepted, and judged if and only if the store has room for it. */
  lemma NumberIsJudgedGivenRoom(cfg: Config, turns: seq<Turn>, o: Observation)
    requires Compiled(cfg) && cfg.rule.Numeric? && IsRun(cfg, turns)
    requires o.at > 0 && o.seq_ >= 1 && o.seq_ > StateAfter(turns).lastSeq && o.at >= StateAfter(turns).lastAt
    requires KeyOf(StateAfter(turns), o).Some? && o.unrenderable == {}
    requires o.health.Ok? && !Filtered(cfg, o) && cfg.rule.field in o.fields && o.fields[cfg.rule.field].Num?
    ensures var turn := NextTurn(cfg, StateAfter(turns), o);
            IsRun(cfg, turns + [turn]) && (turn.t.known <==> HasRoom(cfg, StateAfter(turns).store, o.at))
  {
    hide HasRoom, Filtered, Step;
    RunExtends(cfg, turns, o);
    var before := StateAfter(turns);
    JudgedGivenRoom(cfg, before.(waiting := "", entity := KeyOf(before, o).value), o);
  }

  lemma JudgedGivenRoom(cfg: Config, st: State, o: Observation)
    requires Compiled(cfg) && cfg.rule.Numeric? && o.at >= st.lastAt
    requires o.health.Ok? && !Filtered(cfg, o) && cfg.rule.field in o.fields && o.fields[cfg.rule.field].Num?
    ensures Step(cfg, st, o).known <==> HasRoom(cfg, st.store, o.at)
  {
    hide Recent, AggregatesOver, Windows, Emit, Decide, Hold, Wait, GapEvents, OverGap, Eval, Filtered, MaxWindow;
    var rested, events := Rested(cfg, st, o), GapEvents(cfg, st, o);
    var x := Sample(o.at, o.fields[cfg.rule.field].n, o.seq_);
    if StoreSample(Span(cfg), cfg.maxSamples, rested.store, x).1 { CompleteWindowsAreCounted(cfg, rested.store, x); }
    var v := Judge(cfg, rested, o);
    HoldEffect(cfg, v.state, o, v.reason, events);
    DecideEffect(cfg, v.state, o, v.matched, events);
  }

  /** The aggregate of these values lies where the operator says exactly if `holds`. */
  ghost predicate AggregateDecides(func: Func, values: seq<real>, op: Op, literal: real, holds: bool) {
    exists r :: IsAggregate(func, values, r) && (holds <==> Meets(op, r - literal))
  }

  lemma AggregateDecided(func: Func, values: seq<real>, op: Op, literal: real, holds: bool, r: real)
    requires IsAggregate(func, values, r) && (holds <==> Meets(op, r - literal))
    ensures AggregateDecides(func, values, op, literal, holds)
  {
  }

  /**
    What a condition of one operand decides: a known verdict on `value op L` matches if and only
    if the offered value lies where the operator says, and one on `f(value) over W op L` if and
    only if the aggregate of the values offered in (now - W, now] does.
   */
  lemma OneOperandDecides(cfg: Config, turns: seq<Turn>)
    requires Compiled(cfg) && IsRun(cfg, turns) && turns != [] && cfg.rule.Numeric? && cfg.rule.expr.Leaf?
    requires turns[|turns| - 1].t.known
    ensures var last, c, offered := turns[|turns| - 1], cfg.rule.expr.c, Offered(cfg, turns);
            && OfferOf(cfg, last).Some?
            && match c
               case PerEvent(op, literal) => last.t.matched <==> Meets(op, OfferOf(cfg, last).value.value - literal)
               case Windowed(func, window, _, op, literal) =>
                 AggregateDecides(func, Values(Between(offered, last.o.at - window, last.o.at)), op, literal, last.t.matched)
  {
    hide IsRun, Compiled, AggregatesOver, Between, IsAggregate, Offered, WayOf;
    KnownIsExact(cfg, turns);
    var last, c, ws := turns[|turns| - 1], cfg.rule.expr.c, Windows(cfg.rule.expr);
    var aggregates := AggregatesOver(ws, Offered(cfg, turns), last.o.at);
    if c.Windowed? {
      assert ws[0].id == cfg.rule.expr.id && ws[0].func == c.func && ws[0].window == c.window;
      LeafIsFirst(cfg);
      OperatorsMean(aggregates[0], c.literal, c.op, 0.0);
      var values := Values(Between(Offered(cfg, turns), last.o.at - c.window, last.o.at));
      assert IsAggregate(c.func, values, aggregates[0]);
      assert last.t.matched <==> LeafHolds(c, 0, Context(OfferOf(cfg, last).value.value, aggregates));
      AggregateDecided(c.func, values, c.op, c.literal, last.t.matched, aggregates[0]);
    } else {
      OperatorsMean(OfferOf(cfg, last).value.value, c.literal, c.op, 0.0);
    }
  }

  lemma LeafIsFirst(cfg: Config)
    requires Compiled(cfg) && cfg.rule.Numeric? && cfg.rule.expr.Leaf? && cfg.rule.expr.c.Windowed?
    ensures cfg.rule.expr.id == 0
  {
    assert Windows(cfg.rule.expr)[0].id == 0;
  }

  /**
    After any run a healthy, in-order number is judged if and only if a full span has passed since
    the last clock marker and since every sample that found the store full, and the samples still
    in the longest window leave room for one more.
   */
  lemma NumberIsJudgedInTime(cfg: Config, turns: seq<Turn>, o: Observation)
    requires Compiled(cfg) && cfg.rule.Numeric? && IsRun(cfg, turns)
    requires o.at > 0 && o.seq_ >= 1 && o.seq_ > StateAfter(turns).lastSeq && o.at >= StateAfter(turns).lastAt
    requires KeyOf(StateAfter(turns), o).Some? && o.unrenderable == {}
    requires o.health.Ok? && !Filtered(cfg, o) && cfg.rule.field in o.fields && o.fields[cfg.rule.field].Num?
    ensures var span, marker := Span(cfg), MarkerAt(turns);
            NextTurn(cfg, StateAfter(turns), o).t.known <==>
              && (span == 0 || marker.None? || o.at >= marker.value + span)
              && Passed(cfg, Overflows(cfg, turns), o.at)
              && (span == 0 || |Recent(StateAfter(turns).store.samples, o.at, span)| < cfg.maxSamples)
  {
    hide Filtered, Step, IsRun, Passed, Recent, KeyOf;
    NumberIsJudgedGivenRoom(cfg, turns, o);
    RunMarks(cfg, turns);
    assert MarksSay(cfg, StateAfter(turns).store, Overflows(cfg, turns), MarkerAt(turns), o.at);
  }
}
