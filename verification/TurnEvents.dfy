/**
  Everything one evaluation of a run tells (internal/condition/transition.go:188-206, 238-282,
  304-368): the kinds of its events, all of them and in their order, from what happened to the
  source, the silence before it, and the verdict.
 */
module TurnEvents {
  import opened Common
  import opened Evaluator
  import Timing
  import Verdicts
  import Incidents
  import EventLog
  import Changes

  function KindsOf(events: seq<Event>): seq<Kind> {
    if events == [] then [] else KindsOf(events[..|events| - 1]) + [events[|events| - 1].id.kind]
  }

  lemma KindsAppend(events: seq<Event>, e: Event)
    ensures KindsOf(events + [e]) == KindsOf(events) + [e.id.kind] && KindsOf([]) == []
  {
    assert (events + [e])[..|events|] == events;
  }

  lemma OneKind(e: Event)
    ensures KindsOf([e]) == [e.id.kind]
  {
    KindsAppend([], e);
    assert [] + [e] == [e];
  }

  /** A sampling gap is told when the source reports one, or after a silence, unless the clock is in doubt. */
  predicate TellsGap(cfg: Config, st: State, o: Observation) {
    var way := WayOf(cfg, st, o);
    way.GapWay? || (OverGap(cfg, st, o) && !way.ClockWay? && !way.BackWay?)
  }

  /**
    Whether the source counts as unhealthy afterwards: after bad input, a clock in doubt or a
    value that cannot be judged it does; a verdict other than a timer's, or waiting for records
    that may still come, clears it; anything else leaves it.
   */
  predicate Unhealthy(cfg: Config, st: State, o: Observation, known: bool) {
    match WayOf(cfg, st, o)
    case ClockWay => true
    case BackWay => true
    case BadWay => true
    case WaitWay => st.source.unhealthy && o.detail == "collection_ended"
    case JudgedWay => !known || (st.source.unhealthy && o.health.Timer?)
    case _ => st.source.unhealthy
  }

  /** What a verdict announces: a change or new event when due, or what the rows of the incident call for. */
  function Called(cfg: Config, lastFired: Time, c: Counters, matched: bool, now: Time): seq<Kind> {
    if cfg.rule.Changed? || cfg.rule.NewEvent? then
      (if matched && Due(cfg, lastFired, now) then [Changes.SignalKind(cfg)] else [])
    else Incidents.Announced(cfg, lastFired, c, if matched then Incidents.Hit else Incidents.Miss, now)
  }

  lemma GapKinds(cfg: Config, st: State, o: Observation)
    ensures KindsOf(GapEvents(cfg, st, o)) == if OverGap(cfg, st, o) then [SamplingGap] else []
  {
    hide Emit;
    if OverGap(cfg, st, o) { OneKind(Emit(cfg, Calm(st), o, SamplingGap, "sampling_gap")); }
  }

  lemma HoldKinds(cfg: Config, st: State, o: Observation, reason: string, events: seq<Event>)
    ensures var t := Hold(cfg, st, o, reason, events);
            KindsOf(t.events) == KindsOf(events) + EventLog.Told(st.source.unhealthy, true) && t.state.source.unhealthy
  {
    hide Emit, KindsOf;
    var calm := Calm(st).(lastSeq := o.seq_, lastAt := Later(o.at, st.lastAt));
    KindsAppend(events, Emit(cfg, calm, o, SourceError, reason));
    assert KindsOf(events) + [] == KindsOf(events);
  }

  lemma WaitKinds(cfg: Config, st: State, o: Observation, events: seq<Event>)
    ensures var t := Wait(cfg, st, o, events);
            var after := st.source.unhealthy && o.detail == "collection_ended";
            KindsOf(t.events) == KindsOf(events) + EventLog.Told(st.source.unhealthy, after) && t.state.source.unhealthy == after
  {
    hide Emit, KindsOf;
    KindsAppend(events, Emit(cfg, Pass(Calm(st), o).(waiting := Detail(o)), o, SourceRecovered, "source_recovered"));
    assert KindsOf(events) + [] == KindsOf(events);
  }

  lemma SignalKinds(cfg: Config, st: State, o: Observation, matched: bool, events: seq<Event>)
    requires cfg.rule.Changed? || cfg.rule.NewEvent?
    ensures var t := Signal(cfg, st, o, matched, events);
            KindsOf(t.events) == KindsOf(events) + Called(cfg, st.lastFired, st.counters, matched, o.at) && t.state.source == st.source
  {
    hide Emit, KindsOf;
    var reason := if cfg.rule.Changed? then "condition_changed" else "condition_new-event";
    KindsAppend(events, Emit(cfg, st, o, Changes.SignalKind(cfg), reason));
    assert KindsOf(events) + [] == KindsOf(events);
  }

  lemma MatchKinds(cfg: Config, st: State, o: Observation, events: seq<Event>)
    requires !cfg.rule.Changed? && !cfg.rule.NewEvent?
    ensures var t := Match(cfg, st, o, events);
            KindsOf(t.events) == KindsOf(events) + Called(cfg, st.lastFired, st.counters, true, o.at) && t.state.source == st.source
  {
    hide Emit, KindsOf;
    KindsAppend(events, Emit(cfg, st.(counters := Counted(cfg, st.counters, o.seq_)), o, Firing, "condition_matched"));
    assert KindsOf(events) + [] == KindsOf(events);
  }

  lemma MismatchKinds(cfg: Config, st: State, o: Observation, events: seq<Event>)
    requires !cfg.rule.Changed? && !cfg.rule.NewEvent?
    ensures var t := Mismatch(cfg, st, o, events);
            KindsOf(t.events) == KindsOf(events) + Called(cfg, st.lastFired, st.counters, false, o.at) && t.state.source == st.source
  {
    hide Emit, KindsOf;
    KindsAppend(events, Emit(cfg, st.(counters := Recovering(st.counters, o.seq_)), o, Recovered, "condition_recovered"));
    assert KindsOf(events) + [] == KindsOf(events);
  }

  lemma DecideKinds(cfg: Config, st: State, o: Observation, matched: bool, events: seq<Event>)
    ensures var t := Decide(cfg, st, o, matched, events);
            var after := st.source.unhealthy && o.health.Timer?;
            && KindsOf(t.events) == KindsOf(events) + EventLog.Told(st.source.unhealthy, after) + Called(cfg, st.lastFired, st.counters, matched, o.at)
            && t.state.source.unhealthy == after
  {
    hide Emit, KindsOf, Signal, Match, Mismatch;
    var heard := st.source.unhealthy && !o.health.Timer?;
    var recovered := Emit(cfg, st, o, SourceRecovered, "source_recovered");
    KindsAppend(events, recovered);
    assert KindsOf(events) + [] == KindsOf(events);
    var events1 := if heard then events + [recovered] else events;
    var st1 := if heard then st.(source := Source(false, None)) else st;
    if cfg.rule.Changed? || cfg.rule.NewEvent? {
      SignalKinds(cfg, st1, o, matched, events1);
    } else if matched {
      MatchKinds(cfg, st1, o, events1);
    } else {
      MismatchKinds(cfg, st1, o, events1);
    }
  }

  ghost predicate TellsAll(cfg: Config, st: State, o: Observation, t: Transition) {
    && KindsOf(t.events)
       == (if TellsGap(cfg, st, o) then [SamplingGap] else [])
          + EventLog.Told(st.source.unhealthy, Unhealthy(cfg, st, o, t.known))
          + (if t.known then Called(cfg, st.lastFired, Rested(cfg, st, o).counters, t.matched, o.at) else [])
    && t.state.source.unhealthy == Unhealthy(cfg, st, o, t.known)
  }

  lemma JudgedTellsAll(cfg: Config, st: State, o: Observation)
    requires WayOf(cfg, st, o).JudgedWay?
    ensures TellsAll(cfg, st, o, Step(cfg, st, o))
  {
    hide Emit, Hold, Wait, Decide, Judge, WayOf, OverGap, KindsOf, GapEvents;
    var rested, events := Rested(cfg, st, o), GapEvents(cfg, st, o);
    var v := Judge(cfg, rested, o);
    GapKinds(cfg, st, o);
    Verdicts.JudgedStep(cfg, st, o);
    Timing.JudgeKeepsFired(cfg, rested, o);
    EventLog.JudgeKeepsSource(cfg, rested, o);
    if v.known {
      DecideKinds(cfg, v.state, o, v.matched, events);
      if !cfg.rule.Changed? { Incidents.JudgeKeepsCounters(cfg, rested, o); }
    } else {
      HoldKinds(cfg, v.state, o, v.reason, events);
      var k := KindsOf(Step(cfg, st, o).events);
      assert k + [] == k;
    }
  }

  lemma OthersTellAll(cfg: Config, st: State, o: Observation)
    requires !WayOf(cfg, st, o).JudgedWay?
    ensures TellsAll(cfg, st, o, Step(cfg, st, o))
  {
    hide Emit, Hold, Wait, Decide, Judge, WayOf, OverGap, KindsOf, GapEvents;
    var rested, events := Rested(cfg, st, o), GapEvents(cfg, st, o);
    GapKinds(cfg, st, o);
    Verdicts.JudgedStep(cfg, st, o);
    OneKind(Emit(cfg, Calm(st), o, SamplingGap, "sampling_gap"));
    KindsAppend([], Emit(cfg, Calm(st), o, SamplingGap, "sampling_gap"));
    var k := KindsOf(Step(cfg, st, o).events);
    assert k + [] == k && [] + k == k;
    match WayOf(cfg, st, o) {
      case ClockWay => HoldKinds(cfg, MarkClock(cfg, st, o), o, "clock_discontinuity", []);
      case BackWay => HoldKinds(cfg, st, o, "clock_moved_backwards", []);
      case WaitWay => WaitKinds(cfg, rested, o, events);
      case BadWay => HoldKinds(cfg, rested, o, Detail(o), events);
      case _ =>
    }
  }

  /**
    Every turn of a run tells exactly this, in this order: a sampling gap, a change of the source's
    health, and what the verdict calls for; and the source's health afterwards is what the
    observation makes it.
   */
  lemma TurnTellsAll(cfg: Config, turns: seq<Turn>)
    requires IsRun(cfg, turns) && turns != []
    ensures var last := turns[|turns| - 1]; TellsAll(cfg, Addressed(last), last.o, last.t)
  {
    hide Step, WayOf, TellsAll;
    var last := turns[|turns| - 1];
    TurnIsStep(cfg, turns);
    if WayOf(cfg, Addressed(last), last.o).JudgedWay? {
      JudgedTellsAll(cfg, Addressed(last), last.o);
    } else {
      OthersTellAll(cfg, Addressed(last), last.o);
    }
  }

  // ---------- The events a state names ----------

  // The incident event afterwards: a firing names itself, a recovery clears it.
  function IncidentAfter(before: Option<EventId>, entity: string, n: int, told: seq<Kind>): Option<EventId> {
    if told == [Firing] then Some(EventId(entity, Firing, n)) else if told == [Recovered] then None else before
  }

  // The health event afterwards: an error names itself while the source stays unhealthy.
  function HealthAfter(before: Option<EventId>, entity: string, n: int, was: bool, is_: bool): Option<EventId> {
    if is_ && !was then Some(EventId(entity, SourceError, n)) else if was && !is_ then None else before
  }

  ghost predicate NamesItsEvents(cfg: Config, st: State, o: Observation, t: Transition) {
    && t.state.incident
       == IncidentAfter(st.incident, st.entity, o.seq_,
                        if t.known then Called(cfg, st.lastFired, Rested(cfg, st, o).counters, t.matched, o.at) else [])
    && t.state.source.event == HealthAfter(st.source.event, st.entity, o.seq_, st.source.unhealthy, t.state.source.unhealthy)
  }

  lemma HoldNamesEvents(cfg: Config, st: State, o: Observation, reason: string, events: seq<Event>)
    ensures var t := Hold(cfg, st, o, reason, events);
            && t.state.incident == st.incident
            && t.state.source.event == HealthAfter(st.source.event, st.entity, o.seq_, st.source.unhealthy, true)
  {
    hide Emit;
  }

  lemma WaitNamesEvents(cfg: Config, st: State, o: Observation, events: seq<Event>)
    ensures var t := Wait(cfg, st, o, events);
            && t.state.incident == st.incident
            && t.state.source.event
               == HealthAfter(st.source.event, st.entity, o.seq_, st.source.unhealthy, st.source.unhealthy && o.detail == "collection_ended")
  {
    hide Emit;
  }

  lemma DecideNamesEvents(cfg: Config, st: State, o: Observation, matched: bool, events: seq<Event>)
    ensures var t := Decide(cfg, st, o, matched, events);
            && t.state.incident == IncidentAfter(st.incident, st.entity, o.seq_, Called(cfg, st.lastFired, st.counters, matched, o.at))
            && t.state.source.event
               == HealthAfter(st.source.event, st.entity, o.seq_, st.source.unhealthy, st.source.unhealthy && o.health.Timer?)
  {
    hide Emit;
  }

  lemma HealthOfStep(cfg: Config, st: State, o: Observation)
    ensures Step(cfg, st, o).state.source.unhealthy == Unhealthy(cfg, st, o, Step(cfg, st, o).known)
  {
    hide Step, Unhealthy, KindsOf, Called, WayOf;
    if WayOf(cfg, st, o).JudgedWay? { JudgedTellsAll(cfg, st, o); } else { OthersTellAll(cfg, st, o); }
  }

  lemma JudgedNamesEvents(cfg: Config, st: State, o: Observation)
    requires WayOf(cfg, st, o).JudgedWay?
    ensures NamesItsEvents(cfg, st, o, Step(cfg, st, o))
  {
    hide Emit, Hold, Wait, Decide, Judge, WayOf, OverGap, GapEvents, Called, HealthAfter;
    HealthOfStep(cfg, st, o);
    var rested, events := Rested(cfg, st, o), GapEvents(cfg, st, o);
    var v := Judge(cfg, rested, o);
    Verdicts.JudgedStep(cfg, st, o);
    Verdicts.JudgeKeepsEntity(cfg, rested, o);
    Timing.JudgeKeepsFired(cfg, rested, o);
    EventLog.JudgeKeepsSource(cfg, rested, o);
    Incidents.JudgeKeepsIncident(cfg, rested, o);
    if v.known {
      DecideNamesEvents(cfg, v.state, o, v.matched, events);
      CalledByCounters(cfg, st.lastFired, rested.counters, v.state.counters, v.matched, o.at);
      if !cfg.rule.Changed? { Incidents.JudgeKeepsCounters(cfg, rested, o); }
    } else {
      HoldNamesEvents(cfg, v.state, o, v.reason, events);
    }
  }

  // What a signal rule announces does not depend on the counters.
  lemma CalledByCounters(cfg: Config, lastFired: Time, c: Counters, c': Counters, matched: bool, now: Time)
    ensures cfg.rule.Changed? || cfg.rule.NewEvent? || c == c' ==>
              Called(cfg, lastFired, c, matched, now) == Called(cfg, lastFired, c', matched, now)
  {
  }

  lemma OthersNameEvents(cfg: Config, st: State, o: Observation)
    requires !WayOf(cfg, st, o).JudgedWay?
    ensures NamesItsEvents(cfg, st, o, Step(cfg, st, o))
  {
    hide Emit, Hold, Wait, Decide, Judge, WayOf, OverGap, GapEvents, Called;
    HealthOfStep(cfg, st, o);
    var rested, events := Rested(cfg, st, o), GapEvents(cfg, st, o);
    Verdicts.JudgedStep(cfg, st, o);
    match WayOf(cfg, st, o) {
      case ClockWay => HoldNamesEvents(cfg, MarkClock(cfg, st, o), o, "clock_discontinuity", []);
      case BackWay => HoldNamesEvents(cfg, st, o, "clock_moved_backwards", []);
      case WaitWay => WaitNamesEvents(cfg, rested, o, events);
      case BadWay => HoldNamesEvents(cfg, rested, o, Detail(o), events);
      case _ =>
    }
  }

  /** Over every run the state names the firing of its incident and the error of its source, and neither after they end. */
  lemma StateNamesItsEvents(cfg: Config, turns: seq<Turn>)
    requires IsRun(cfg, turns) && turns != []
    ensures var last := turns[|turns| - 1]; NamesItsEvents(cfg, Addressed(last), last.o, last.t)
  {
    hide Step, WayOf, NamesItsEvents;
    var last := turns[|turns| - 1];
    TurnIsStep(cfg, turns);
    if WayOf(cfg, Addressed(last), last.o).JudgedWay? {
      JudgedNamesEvents(cfg, Addressed(last), last.o);
    } else {
      OthersNameEvents(cfg, Addressed(last), last.o);
    }
  }
}
