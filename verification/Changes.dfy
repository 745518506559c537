/**
  Change detection and the announcement of changes and new events, over every run
  (internal/condition/signals.go:10-37, internal/condition/transition.go:314-326): what counts as
  a change, when it is announced, and which observations the announcement names.
 */
module Changes {
  import opened Common
  import opened Evaluator
  import Timing
  import Verdicts
  import Incidents
  import EventLog

  /** The latest observation that was judged. */
  function LastKnown(turns: seq<Turn>): Option<Observation> {
    if turns == [] then None
    else if turns[|turns| - 1].t.known then Some(turns[|turns| - 1].o)
    else LastKnown(turns[..|turns| - 1])
  }

  // The baseline is the value of the observation judged last.
  ghost predicate BaselineOk(cfg: Config, s: Signals, earlier: Option<Observation>)
    requires cfg.rule.Changed?
  {
    match earlier
    case None => s.baseline == None && s.baselineSeq == 0
    case Some(o) => cfg.rule.field in o.fields && s.baseline == Some(o.fields[cfg.rule.field]) && s.baselineSeq == o.seq_ >= 1
  }

  lemma JudgeChanges(cfg: Config, st: State, o: Observation)
    requires cfg.rule.Changed?
    ensures var v := Judge(cfg, st, o);
            && (v.known <==> cfg.rule.field in o.fields && !o.fields[cfg.rule.field].Nested?)
            && (!v.known ==> v.state == st)
            && (v.known ==>
                  var value := o.fields[cfg.rule.field];
                  && (v.matched <==> st.signals.baseline.Some? && st.signals.baseline.value != value)
                  && v.state.signals == st.signals.(baseline := Some(value), baselineSeq := o.seq_)
                  && v.state.counters
                     == st.counters.(evidence := if v.matched && st.signals.baselineSeq > 0 then [st.signals.baselineSeq] else []))
            && v.state.lastFired == st.lastFired
  {
  }

  lemma StepChanges(cfg: Config, st: State, o: Observation)
    requires cfg.rule.Changed?
    ensures var t := Step(cfg, st, o);
            && (t.known <==> WayOf(cfg, st, o).JudgedWay? && cfg.rule.field in o.fields && !o.fields[cfg.rule.field].Nested?)
            && (t.known ==> (t.matched <==> st.signals.baseline.Some? && st.signals.baseline.value != o.fields[cfg.rule.field]))
            && t.state.signals == if t.known then st.signals.(baseline := Some(o.fields[cfg.rule.field]), baselineSeq := o.seq_) else st.signals
  {
    hide Emit, Hold, Wait, Decide, Judge, WayOf, GapEvents, OverGap;
    var rested, events := Rested(cfg, st, o), GapEvents(cfg, st, o);
    match WayOf(cfg, st, o) {
      case ClockWay => HoldEffect(cfg, MarkClock(cfg, st, o), o, "clock_discontinuity", []);
      case BackWay => HoldEffect(cfg, st, o, "clock_moved_backwards", []);
      case WaitWay => WaitEffect(cfg, rested, o, events);
      case BadWay => HoldEffect(cfg, rested, o, Detail(o), events);
      case JudgedWay =>
        var v := Judge(cfg, rested, o);
        JudgeChanges(cfg, rested, o);
        HoldEffect(cfg, v.state, o, v.reason, events);
        DecideEffect(cfg, v.state, o, v.matched, events);
      case _ =>
    }
  }

  lemma {:induction false} RunBaseline(cfg: Config, turns: seq<Turn>)
    requires cfg.rule.Changed? && IsRun(cfg, turns)
    ensures BaselineOk(cfg, StateAfter(turns).signals, LastKnown(turns))
  {
    if turns != [] {
      hide Step, WayOf, Evaluated;
      var init, last := turns[..|turns| - 1], turns[|turns| - 1];
      TurnIsStep(cfg, turns);
      RunBaseline(cfg, init);
      StepChanges(cfg, Addressed(last), last.o);
    }
  }

  /**
    Change detection is exact: over every run an observation of a change rule is judged exactly
    when it gets that far with a plain value in its field, and then matches if and only if an
    earlier observation was judged and the value of the latest of those differs from this one.
   */
  lemma ChangeIsExact(cfg: Config, turns: seq<Turn>)
    requires cfg.rule.Changed? && IsRun(cfg, turns) && turns != []
    ensures var last, earlier, field := turns[|turns| - 1], LastKnown(turns[..|turns| - 1]), cfg.rule.field;
            && (last.t.known <==>
                  WayOf(cfg, Addressed(last), last.o).JudgedWay? && field in last.o.fields && !last.o.fields[field].Nested?)
            && (earlier.Some? ==> field in earlier.value.fields)
            && (last.t.known ==> (last.t.matched <==> earlier.Some? && earlier.value.fields[field] != last.o.fields[field]))
  {
    hide Step, WayOf, Evaluated, IsRun;
    var init, last := turns[..|turns| - 1], turns[|turns| - 1];
    TurnIsStep(cfg, turns);
    RunBaseline(cfg, init);
    StepChanges(cfg, Addressed(last), last.o);
  }

  // ---------- Announcements ----------

  function SignalKind(cfg: Config): Kind { if cfg.rule.Changed? then ChangedSeen else NewSeen }

  /** A change or new-event is among the events, or not; if it is, it names exactly `list`. */
  ghost predicate Announces(events: seq<Event>, kind: Kind, yes: bool, list: seq<int>) {
    && (yes <==> exists i :: 0 <= i < |events| && events[i].id.kind == kind)
    && forall i :: 0 <= i < |events| && events[i].id.kind == kind ==> events[i].evidence == Ascending(list)
  }

  ghost predicate Silent(events: seq<Event>) {
    forall i :: 0 <= i < |events| ==> !events[i].id.kind.ChangedSeen? && !events[i].id.kind.NewSeen?
  }

  lemma SilentAnnounces(events: seq<Event>, kind: Kind, list: seq<int>)
    requires Silent(events) && (kind.ChangedSeen? || kind.NewSeen?)
    ensures Announces(events, kind, false, list)
  {
  }

  lemma SignalNames(cfg: Config, st: State, o: Observation, kind: Kind, reason: string)
    requires kind.ChangedSeen? || kind.NewSeen?
    ensures Emit(cfg, st, o, kind, reason).evidence == Ascending(st.counters.evidence + [o.seq_])
  {
    assert EvidenceOf(cfg, st, o, kind) == st.counters.evidence + [o.seq_];
  }

  lemma AppendAnnounces(events: seq<Event>, e: Event, list: seq<int>)
    requires Silent(events) && (e.id.kind.ChangedSeen? || e.id.kind.NewSeen?) && e.evidence == Ascending(list)
    ensures Announces(events + [e], e.id.kind, true, list)
  {
    hide Ascending;
    assert (events + [e])[|events|] == e;
  }

  lemma DecideAnnounces(cfg: Config, st: State, o: Observation, matched: bool, events: seq<Event>)
    requires (cfg.rule.Changed? || cfg.rule.NewEvent?) && Silent(events)
    ensures Announces(Decide(cfg, st, o, matched, events).events, SignalKind(cfg), matched && Due(cfg, st.lastFired, o.at),
                      st.counters.evidence + [o.seq_])
  {
    hide Emit, Ascending, Announces, Match, Mismatch;
    var heard := st.source.unhealthy && !o.health.Timer?;
    var events1 := if heard then events + [Emit(cfg, st, o, SourceRecovered, "source_recovered")] else events;
    var st1 := if heard then st.(source := Source(false, None)) else st;
    var reason := if cfg.rule.Changed? then "condition_changed" else "condition_new-event";
    assert Silent(events1);
    SignalNames(cfg, st1, o, SignalKind(cfg), reason);
    AppendAnnounces(events1, Emit(cfg, st1, o, SignalKind(cfg), reason), st.counters.evidence + [o.seq_]);
    SilentAnnounces(events1, SignalKind(cfg), st.counters.evidence + [o.seq_]);
  }

  lemma OtherEndingsAreSilent(cfg: Config, st: State, o: Observation, reason: string, events: seq<Event>)
    requires Silent(events)
    ensures Silent(Hold(cfg, st, o, reason, events).events) && Silent(Wait(cfg, st, o, events).events)
  {
    hide Emit;
  }

  lemma GapIsSilent(cfg: Config, st: State, o: Observation)
    ensures Silent(GapEvents(cfg, st, o))
  {
    hide Emit;
  }

  lemma OtherWaysAreSilent(cfg: Config, st: State, o: Observation)
    requires !WayOf(cfg, st, o).JudgedWay?
    ensures Silent(Step(cfg, st, o).events) && !Step(cfg, st, o).known
  {
    hide Emit, Hold, Wait, WayOf, OverGap;
    var rested, events := Rested(cfg, st, o), GapEvents(cfg, st, o);
    Verdicts.JudgedStep(cfg, st, o);
    GapIsSilent(cfg, st, o);
    match WayOf(cfg, st, o) {
      case ClockWay => OtherEndingsAreSilent(cfg, MarkClock(cfg, st, o), o, "clock_discontinuity", []);
      case BackWay => OtherEndingsAreSilent(cfg, st, o, "clock_moved_backwards", []);
      case WaitWay => OtherEndingsAreSilent(cfg, rested, o, "", events);
      case BadWay => OtherEndingsAreSilent(cfg, rested, o, Detail(o), events);
      case _ =>
    }
  }

  // What one step announces, and the evidence it has for it.
  lemma StepAnnounces(cfg: Config, st: State, o: Observation)
    requires cfg.rule.Changed? || cfg.rule.NewEvent?
    ensures var t, v := Step(cfg, st, o), Judge(cfg, Rested(cfg, st, o), o);
            Announces(t.events, SignalKind(cfg), t.known && t.matched && Due(cfg, st.lastFired, o.at), v.state.counters.evidence + [o.seq_])
  {
    hide Hold, Wait, Decide, Judge, WayOf, OverGap, Announces, Silent;
    var rested, events := Rested(cfg, st, o), GapEvents(cfg, st, o);
    var v := Judge(cfg, rested, o);
    var list := v.state.counters.evidence + [o.seq_];
    if !WayOf(cfg, st, o).JudgedWay? {
      OtherWaysAreSilent(cfg, st, o);
      SilentAnnounces(Step(cfg, st, o).events, SignalKind(cfg), list);
    } else {
      Verdicts.JudgedStep(cfg, st, o);
      GapIsSilent(cfg, st, o);
      Timing.JudgeKeepsFired(cfg, rested, o);
      OtherEndingsAreSilent(cfg, v.state, o, v.reason, events);
      SilentAnnounces(Hold(cfg, v.state, o, v.reason, events).events, SignalKind(cfg), list);
      DecideAnnounces(cfg, v.state, o, v.matched, events);
    }
  }

  /**
    Over every run a change or new-event is announced if and only if the observation matched and
    an emission is due; a change names the observation it differs from and its own, a new event
    its own alone.
   */
  lemma SignalIsAnnounced(cfg: Config, turns: seq<Turn>)
    requires Compiled(cfg) && (cfg.rule.Changed? || cfg.rule.NewEvent?) && IsRun(cfg, turns) && turns != []
    ensures var init, last := turns[..|turns| - 1], turns[|turns| - 1];
            var earlier := if cfg.rule.Changed? && LastKnown(init).Some? then [LastKnown(init).value.seq_] else [];
            Announces(last.t.events, SignalKind(cfg),
                      last.t.known && last.t.matched && Incidents.DueSince(cfg, Timing.IntervalFrom(init), last.o.at),
                      earlier + [last.o.seq_])
  {
    hide Step, WayOf, Evaluated, IsRun, Announces, Compiled;
    var init, last := turns[..|turns| - 1], turns[|turns| - 1];
    var st, o := Addressed(last), last.o;
    TurnIsStep(cfg, turns);
    Timing.RunTimes(cfg, init);
    StepAnnounces(cfg, st, o);
    EventLog.EvidenceIsBounded(cfg, init);
    if last.t.known && last.t.matched {
      Verdicts.JudgedStep(cfg, st, o);
      if cfg.rule.Changed? {
        RunBaseline(cfg, init);
        JudgeChanges(cfg, Rested(cfg, st, o), o);
      } else {
        Incidents.JudgeKeepsCounters(cfg, Rested(cfg, st, o), o);
      }
    } else {
      NothingAnnounced(last.t.events, SignalKind(cfg), Judge(cfg, Rested(cfg, st, o), o).state.counters.evidence + [o.seq_],
                       (if cfg.rule.Changed? && LastKnown(init).Some? then [LastKnown(init).value.seq_] else []) + [o.seq_]);
    }
  }

  lemma NothingAnnounced(events: seq<Event>, kind: Kind, a: seq<int>, b: seq<int>)
    requires Announces(events, kind, false, a)
    ensures Announces(events, kind, false, b)
  {
  }
}
