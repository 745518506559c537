/**
  Timing over every run (internal/condition/transition.go:215-221, 314-344, 376-393): repeated
  emissions keep their interval, measured anew from a clock marker, and missing data is not
  reported within its period of the last sign of life.
 */
module Timing {
  import opened Common
  import opened Expression
  import opened Evaluator

  // ---------- Emissions ----------

  predicate Limited(k: Kind) { k.Firing? || k.ChangedSeen? || k.NewSeen? }

  ghost predicate Emits(t: Transition) { exists i :: 0 <= i < |t.events| && Limited(t.events[i].id.kind) }

  /** Since when the interval runs: the last emission, or a clock marker after it. */
  ghost function IntervalFrom(turns: seq<Turn>): Option<Time> {
    if turns == [] then None
    else
      var before, last := IntervalFrom(turns[..|turns| - 1]), turns[|turns| - 1];
      if Emits(last.t) || (last.o.health.Clock? && before.Some?) then Some(last.o.at) else before
  }

  ghost predicate Quiet(events: seq<Event>) { forall i :: 0 <= i < |events| ==> !Limited(events[i].id.kind) }

  lemma HoldIsQuiet(cfg: Config, st: State, o: Observation, reason: string, events: seq<Event>)
    requires Quiet(events)
    ensures Quiet(Hold(cfg, st, o, reason, events).events)
  {
    hide Emit;
  }

  lemma WaitIsQuiet(cfg: Config, st: State, o: Observation, events: seq<Event>)
    requires Quiet(events)
    ensures Quiet(Wait(cfg, st, o, events).events)
  {
    hide Emit;
  }

  // A verdict emits only when due, and then restarts the interval.
  lemma DecideTimes(cfg: Config, st: State, o: Observation, matched: bool, events: seq<Event>)
    requires Quiet(events)
    ensures var t := Decide(cfg, st, o, matched, events);
            && t.state.lastFired == (if Emits(t) then o.at else st.lastFired)
            && (Emits(t) && (cfg.level || cfg.rule.Changed? || cfg.rule.NewEvent?) ==> Due(cfg, st.lastFired, o.at))
  {
    hide Emit;
    var t := Decide(cfg, st, o, matched, events);
    if t.events != [] && Limited(t.events[|t.events| - 1].id.kind) { assert Emits(t); }
  }

  lemma GapIsQuiet(cfg: Config, st: State, o: Observation)
    ensures Quiet(GapEvents(cfg, st, o))
  {
    hide Emit;
  }

  lemma JudgeKeepsFired(cfg: Config, st: State, o: Observation)
    ensures Judge(cfg, st, o).state.lastFired == st.lastFired
  {
    hide Compare, StoreSample, NewId, AggregatesOver, Eval;
  }

  lemma StepTimes(cfg: Config, turn: Turn)
    requires turn.t == Step(cfg, Addressed(turn), turn.o)
    ensures turn.t.state.lastFired
         == if Emits(turn.t) || (turn.o.health.Clock? && turn.before.lastFired != 0) then turn.o.at else turn.before.lastFired
    ensures Emits(turn.t) && (cfg.level || cfg.rule.Changed? || cfg.rule.NewEvent?) ==> Due(cfg, turn.before.lastFired, turn.o.at)
    ensures Emits(turn.t) ==> !turn.o.health.Clock?
  {
    hide Emit, Judge, Hold, Wait, Decide, WayOf, GapEvents, OverGap, Due;
    var st, o := Addressed(turn), turn.o;
    var rested, events := Rested(cfg, st, o), GapEvents(cfg, st, o);
    GapIsQuiet(cfg, st, o);
    ClockHasItsWay(cfg, st, o);
    match WayOf(cfg, st, o) {
      case ClockWay =>
        HoldEffect(cfg, MarkClock(cfg, st, o), o, "clock_discontinuity", []);
        HoldIsQuiet(cfg, MarkClock(cfg, st, o), o, "clock_discontinuity", []);
      case BackWay =>
        HoldEffect(cfg, st, o, "clock_moved_backwards", []);
        HoldIsQuiet(cfg, st, o, "clock_moved_backwards", []);
      case WaitWay =>
        WaitEffect(cfg, rested, o, events);
        WaitIsQuiet(cfg, rested, o, events);
      case BadWay =>
        HoldEffect(cfg, rested, o, Detail(o), events);
        HoldIsQuiet(cfg, rested, o, Detail(o), events);
      case JudgedWay =>
        var v := Judge(cfg, rested, o);
        JudgeKeepsFired(cfg, rested, o);
        HoldEffect(cfg, v.state, o, v.reason, events);
        HoldIsQuiet(cfg, v.state, o, v.reason, events);
        DecideTimes(cfg, v.state, o, v.matched, events);
      case _ =>
    }
  }

  lemma ClockHasItsWay(cfg: Config, st: State, o: Observation)
    ensures WayOf(cfg, st, o).ClockWay? <==> o.health.Clock?
  {
    hide Filtered;
  }

  lemma {:induction false} RunTimes(cfg: Config, turns: seq<Turn>)
    requires IsRun(cfg, turns)
    ensures StateAfter(turns).lastFired == match IntervalFrom(turns) case None => 0 case Some(t) => t
    ensures IntervalFrom(turns).Some? ==> IntervalFrom(turns).value > 0
  {
    if turns != [] {
      hide Step, Evaluated;
      TurnIsStep(cfg, turns);
      RunTimes(cfg, turns[..|turns| - 1]);
      StepTimes(cfg, turns[|turns| - 1]);
    }
  }

  /** An emission of a level, changed or new-event watch comes at least an interval after the last one, or the marker since. */
  lemma EmissionKeepsInterval(cfg: Config, turns: seq<Turn>)
    requires IsRun(cfg, turns) && turns != []
    requires cfg.level || cfg.rule.Changed? || cfg.rule.NewEvent?
    requires Emits(turns[|turns| - 1].t)
    ensures var from := IntervalFrom(turns[..|turns| - 1]);
            from.Some? ==> turns[|turns| - 1].o.at >= from.value + cfg.interval
  {
    hide Step, Evaluated;
    TurnIsStep(cfg, turns);
    RunTimes(cfg, turns[..|turns| - 1]);
    StepTimes(cfg, turns[|turns| - 1]);
  }

  lemma {:induction false} RunPrefix(cfg: Config, turns: seq<Turn>, n: nat)
    requires IsRun(cfg, turns) && n <= |turns|
    ensures IsRun(cfg, turns[..n])
  {
    if n == |turns| {
      assert turns[..n] == turns;
    } else {
      hide Evaluated;
      RunPrefix(cfg, turns[..|turns| - 1], n);
      assert turns[..|turns| - 1][..n] == turns[..n];
    }
  }

  // Without a marker in between, the interval runs from the emission at `i` or a later one.
  lemma {:induction false} IntervalSince(cfg: Config, turns: seq<Turn>, i: nat, n: nat)
    requires IsRun(cfg, turns) && i < n <= |turns| && Emits(turns[i].t)
    requires cfg.level || cfg.rule.Changed? || cfg.rule.NewEvent?
    requires forall k :: i < k < n ==> !turns[k].o.health.Clock?
    ensures IntervalFrom(turns[..n]).Some? && IntervalFrom(turns[..n]).value >= turns[i].o.at
  {
    hide IsRun;
    assert turns[..n][..n - 1] == turns[..n - 1];
    if n > i + 1 {
      IntervalSince(cfg, turns, i, n - 1);
      RunPrefix(cfg, turns, n);
      if Emits(turns[n - 1].t) { EmissionKeepsInterval(cfg, turns[..n]); }
    }
  }

  /** Between clock markers any two emissions are at least an interval apart. */
  lemma EmissionsAreApart(cfg: Config, turns: seq<Turn>, i: nat, j: nat)
    requires IsRun(cfg, turns) && i < j < |turns| && Emits(turns[i].t) && Emits(turns[j].t)
    requires cfg.level || cfg.rule.Changed? || cfg.rule.NewEvent?
    requires forall k :: i < k < j ==> !turns[k].o.health.Clock?
    ensures turns[j].o.at >= turns[i].o.at + cfg.interval
  {
    hide IsRun;
    IntervalSince(cfg, turns, i, j);
    RunPrefix(cfg, turns, j + 1);
    assert turns[..j + 1][..j] == turns[..j];
    EmissionKeepsInterval(cfg, turns[..j + 1]);
  }

  // ---------- Missing data ----------

  /** The last sign of life: an observation that refreshed the deadline, or a clock marker. */
  ghost function LastSign(cfg: Config, turns: seq<Turn>): Option<Time> {
    if turns == [] then None
    else
      var last := turns[|turns| - 1];
      if last.o.health.Clock? || (WayOf(cfg, Addressed(last), last.o).JudgedWay? && !last.o.health.Timer?) then Some(last.o.at)
      else LastSign(cfg, turns[..|turns| - 1])
  }

  /** The observation the deadline was last refreshed by, none since a clock marker. */
  ghost function LastFresh(cfg: Config, turns: seq<Turn>): int {
    if turns == [] then 0
    else
      var last := turns[|turns| - 1];
      if last.o.health.Clock? then 0
      else if WayOf(cfg, Addressed(last), last.o).JudgedWay? && !last.o.health.Timer? then last.o.seq_
      else LastFresh(cfg, turns[..|turns| - 1])
  }

  lemma StepDeadline(cfg: Config, turn: Turn)
    requires cfg.rule.Missing? && turn.t == Step(cfg, Addressed(turn), turn.o) && turn.o.at > 0
    ensures var before, after := turn.before.deadline.missingAt, turn.t.state.deadline.missingAt;
            var judged := WayOf(cfg, Addressed(turn), turn.o).JudgedWay?;
            && (turn.o.health.Clock? || (judged && !turn.o.health.Timer?) ==> after == turn.o.at + cfg.rule.missingFor)
            && (!turn.o.health.Clock? && !(judged && !turn.o.health.Timer?) && before != 0 ==> after == before)
            && turn.t.state.deadline.freshSeq
               == (if turn.o.health.Clock? then 0 else if judged && !turn.o.health.Timer? then turn.o.seq_ else turn.before.deadline.freshSeq)
            && (turn.t.known && turn.t.matched ==>
                  judged && turn.o.health.Timer? && after != 0 && turn.o.at >= after
                  && (turn.o.deadline.Some? ==> turn.o.deadline.value == after))
  {
    hide Emit, Hold, Wait, Decide, WayOf, GapEvents, OverGap;
    var st, o := Addressed(turn), turn.o;
    var rested, events := Rested(cfg, st, o), GapEvents(cfg, st, o);
    ClockHasItsWay(cfg, st, o);
    match WayOf(cfg, st, o) {
      case ClockWay => HoldEffect(cfg, MarkClock(cfg, st, o), o, "clock_discontinuity", []);
      case BackWay => HoldEffect(cfg, st, o, "clock_moved_backwards", []);
      case WaitWay => WaitEffect(cfg, rested, o, events);
      case BadWay => HoldEffect(cfg, rested, o, Detail(o), events);
      case JudgedWay =>
        var v := Judge(cfg, rested, o);
        HoldEffect(cfg, v.state, o, v.reason, events);
        DecideEffect(cfg, v.state, o, v.matched, events);
      case _ =>
    }
  }

  lemma {:induction false} RunDeadline(cfg: Config, turns: seq<Turn>)
    requires IsRun(cfg, turns) && cfg.rule.Missing?
    ensures LastSign(cfg, turns).Some? ==>
              && LastSign(cfg, turns).value > 0
              && StateAfter(turns).deadline.missingAt == LastSign(cfg, turns).value + cfg.rule.missingFor
    ensures StateAfter(turns).deadline.freshSeq == LastFresh(cfg, turns)
  {
    if turns != [] {
      hide Step, Evaluated, WayOf;
      TurnIsStep(cfg, turns);
      RunDeadline(cfg, turns[..|turns| - 1]);
      StepDeadline(cfg, turns[|turns| - 1]);
    }
  }

  /** Missing data is never reported within its period of the last sign of life. */
  lemma MissingKeepsItsPeriod(cfg: Config, turns: seq<Turn>)
    requires IsRun(cfg, turns) && turns != [] && cfg.rule.Missing?
    requires turns[|turns| - 1].t.known && turns[|turns| - 1].t.matched
    ensures var last, sign := turns[|turns| - 1], LastSign(cfg, turns[..|turns| - 1]);
            && last.o.health.Timer?
            && (sign.Some? ==> last.o.at >= sign.value + cfg.rule.missingFor)
            && (last.o.deadline.Some? ==> last.o.at >= last.o.deadline.value)
  {
    hide Step, Evaluated, WayOf;
    TurnIsStep(cfg, turns);
    RunDeadline(cfg, turns[..|turns| - 1]);
    StepDeadline(cfg, turns[|turns| - 1]);
  }

  /**
    What a judged timer decides, over every run: it is known unless no deadline was ever set or
    the timer was armed for another one, and then matches if and only if the deadline has come.
    After a sign of life the deadline is MissingFor after it.
   */
  lemma TimerDecides(cfg: Config, turns: seq<Turn>)
    requires IsRun(cfg, turns) && turns != [] && cfg.rule.Missing?
    requires var last := turns[|turns| - 1]; last.o.health.Timer? && WayOf(cfg, Addressed(last), last.o).JudgedWay?
    ensures var last, sign := turns[|turns| - 1], LastSign(cfg, turns[..|turns| - 1]);
            var stored := last.before.deadline.missingAt;
            var due := if stored == 0 && last.o.deadline.Some? then last.o.deadline.value else stored;
            && (sign.Some? ==> due == sign.value + cfg.rule.missingFor)
            && (last.t.known <==> due > 0 && (last.o.deadline.Some? ==> last.o.deadline.value == due))
            && (last.t.known ==> (last.t.matched <==> !(last.o.at < due)))
  {
    hide WayOf, IsRun;
    var last := turns[|turns| - 1];
    TurnIsStep(cfg, turns);
    RunDeadline(cfg, turns[..|turns| - 1]);
    var st, o := Addressed(last), last.o;
    hide Hold, Decide, Emit, GapEvents, OverGap;
    var v := Judge(cfg, Rested(cfg, st, o), o);
    HoldEffect(cfg, v.state, o, v.reason, GapEvents(cfg, st, o));
    DecideEffect(cfg, v.state, o, v.matched, GapEvents(cfg, st, o));
  }

  /** Any other judged observation of a missing-data rule is a known non-match: the source is alive. */
  lemma SignIsNoMatch(cfg: Config, turns: seq<Turn>)
    requires IsRun(cfg, turns) && turns != [] && cfg.rule.Missing?
    requires var last := turns[|turns| - 1]; !last.o.health.Timer? && WayOf(cfg, Addressed(last), last.o).JudgedWay?
    ensures turns[|turns| - 1].t.known && !turns[|turns| - 1].t.matched
  {
    hide WayOf, IsRun;
    var last := turns[|turns| - 1];
    TurnIsStep(cfg, turns);
    var st, o := Addressed(last), last.o;
    hide Hold, Decide, Emit, GapEvents, OverGap;
    var v := Judge(cfg, Rested(cfg, st, o), o);
    DecideEffect(cfg, v.state, o, v.matched, GapEvents(cfg, st, o));
  }
}
