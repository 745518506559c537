/**
  Incidents over every run of the evaluator: what opens one, what closes one, and on which
  observations each rests (internal/condition/transition.go:188-206, 238-282, 327-368).
 */
module Incidents {
  import opened Common
  import opened Expression
  import opened Evaluator
  import Timing

  // What an observation was to the incident counters.
  datatype Mark = Hit | Miss | Break | Skip

  function Marked(cfg: Config, st: State, o: Observation, t: Transition): Mark {
    var way := WayOf(cfg, st, o);
    if t.known then (if t.matched then Hit else Miss)
    else if way.SameWay? || way.FilteredWay? then Skip
    else Break
  }

  function MarkOf(cfg: Config, turn: Turn): Mark { Marked(cfg, Addressed(turn), turn.o, turn.t) }

  predicate AfterSilence(cfg: Config, turn: Turn) { OverGap(cfg, Addressed(turn), turn.o) }

  /** The sequences of the latest unbroken run of `mark` observations. */
  function Streak(cfg: Config, turns: seq<Turn>, mark: Mark): seq<int> {
    if turns == [] then []
    else
      var last := turns[|turns| - 1];
      Extended(Streak(cfg, turns[..|turns| - 1], mark), mark, AfterSilence(cfg, last), MarkOf(cfg, last), last.o.seq_)
  }

  // A streak of `mark` after one more observation, marked `m`.
  function Extended(streak: seq<int>, mark: Mark, silence: bool, m: Mark, n: int): seq<int> {
    var prior := if silence then [] else streak;
    if m == mark then prior + [n] else if m == Skip then prior else []
  }

  /** The non-matches of a recovery that the current row of matches broke off. */
  function Interrupted(cfg: Config, turns: seq<Turn>): seq<int> {
    if turns == [] then []
    else
      var init, last := turns[..|turns| - 1], turns[|turns| - 1];
      BrokenOff(Interrupted(cfg, init), Streak(cfg, init, Hit), Streak(cfg, init, Miss), last.before.counters.open,
                AfterSilence(cfg, last), MarkOf(cfg, last))
  }

  function BrokenOff(broken: seq<int>, hits: seq<int>, misses: seq<int>, open: bool, silence: bool, m: Mark): seq<int> {
    if silence then []
    else
      match m
      case Hit => if hits != [] then broken else if open then misses else []
      case Skip => broken
      case _ => []
  }

  predicate IsIncident(k: Kind) { k.Firing? || k.Recovered? }

  function IncidentsIn(events: seq<Event>): seq<Kind> {
    if events == [] then []
    else
      var k := events[|events| - 1].id.kind;
      IncidentsIn(events[..|events| - 1]) + (if IsIncident(k) then [k] else [])
  }

  function IncidentLog(turns: seq<Turn>): seq<Kind> {
    if turns == [] then [] else IncidentLog(turns[..|turns| - 1]) + IncidentsIn(turns[|turns| - 1].t.events)
  }

  lemma IncidentsAppend(events: seq<Event>, e: Event)
    ensures IncidentsIn(events + [e]) == IncidentsIn(events) + (if IsIncident(e.id.kind) then [e.id.kind] else [])
  {
    assert (events + [e])[..|events|] == events;
  }

  lemma NoIncidentInGap(cfg: Config, st: State, o: Observation)
    ensures IncidentsIn(GapEvents(cfg, st, o)) == []
  {
    assert IncidentsIn([]) == [];
    if OverGap(cfg, st, o) { IncidentsAppend([], Emit(cfg, Calm(st), o, SamplingGap, "sampling_gap")); }
  }

  // ---------- One step, as far as incidents are concerned ----------

  function AfterHit(cfg: Config, c: Counters, n: int): Counters {
    var c := Counted(cfg, c, n);
    c.(open := c.open || c.matches >= cfg.consecutive)
  }

  function AfterMiss(cfg: Config, c: Counters, n: int): Counters {
    if !c.open then Zero(c)
    else if c.recoveries + 1 >= cfg.recoverAfter then Counters(false, 0, 0, [])
    else Recovering(c, n)
  }

  lemma JudgeKeepsCounters(cfg: Config, st: State, o: Observation)
    ensures !cfg.rule.Changed? ==> Judge(cfg, st, o).state.counters == st.counters
    ensures Judge(cfg, st, o).state.counters.open == st.counters.open
  {
    hide Compare, StoreSample, NewId, AggregatesOver, Eval;
  }

  lemma HoldKeepsIncident(cfg: Config, st: State, o: Observation, reason: string, events: seq<Event>)
    ensures var t := Hold(cfg, st, o, reason, events);
            t.state.counters == Zero(st.counters) && IncidentsIn(t.events) == IncidentsIn(events) && !t.known
  {
    hide Emit;
    var calm := Calm(st).(lastSeq := o.seq_, lastAt := Later(o.at, st.lastAt));
    IncidentsAppend(events, Emit(cfg, calm, o, SourceError, reason));
  }

  lemma WaitKeepsIncident(cfg: Config, st: State, o: Observation, events: seq<Event>)
    ensures var t := Wait(cfg, st, o, events);
            t.state.counters == Zero(st.counters) && IncidentsIn(t.events) == IncidentsIn(events) && !t.known
  {
    hide Emit;
    var st' := Pass(Calm(st), o).(waiting := Detail(o));
    IncidentsAppend(events, Emit(cfg, st', o, SourceRecovered, "source_recovered"));
  }

  // The incident events a mark calls for.
  function Announced(cfg: Config, lastFired: Time, c: Counters, m: Mark, now: Time): seq<Kind> {
    match m
    case Hit =>
      if c.matches + 1 >= cfg.consecutive && (if cfg.level then Due(cfg, lastFired, now) else !c.open) then [Firing] else []
    case Miss => if c.open && c.recoveries + 1 >= cfg.recoverAfter then [Recovered] else []
    case _ => []
  }

  // A verdict moves the counters, and a full row announces itself.
  lemma DecideMovesIncident(cfg: Config, st: State, o: Observation, matched: bool, events: seq<Event>)
    requires !cfg.rule.Changed? && !cfg.rule.NewEvent?
    requires IncidentsIn(events) == []
    ensures var t, c := Decide(cfg, st, o, matched, events), st.counters;
            var c' := if matched then AfterHit(cfg, c, o.seq_) else AfterMiss(cfg, c, o.seq_);
            && t.known && t.matched == matched
            && t.state.counters == c'
            && IncidentsIn(t.events) == Announced(cfg, st.lastFired, c, if matched then Hit else Miss, o.at)
  {
    hide Emit, IncidentsIn;
    var heard := st.source.unhealthy && !o.health.Timer?;
    var recovered := Emit(cfg, st, o, SourceRecovered, "source_recovered");
    IncidentsAppend(events, recovered);
    var events1 := if heard then events + [recovered] else events;
    var st1 := if heard then st.(source := Source(false, None)) else st;
    assert IncidentsIn(events1) == [];
    var st2 := st1.(counters := if matched then Counted(cfg, st.counters, o.seq_) else Recovering(st.counters, o.seq_));
    IncidentsAppend(events1, Emit(cfg, st2, o, Firing, "condition_matched"));
    IncidentsAppend(events1, Emit(cfg, st2, o, Recovered, "condition_recovered"));
    assert [] + [Firing] == [Firing] && [] + [Recovered] == [Recovered];
  }

  function AfterMark(cfg: Config, c: Counters, mark: Mark, n: int): Counters {
    match mark
    case Hit => AfterHit(cfg, c, n)
    case Miss => AfterMiss(cfg, c, n)
    case Break => Zero(c)
    case Skip => c
  }

  ghost predicate MovesByMark(cfg: Config, st: State, o: Observation) {
    var t, c := Step(cfg, st, o), st.counters;
    var c1 := if OverGap(cfg, st, o) then Zero(c) else c;
    var m := Marked(cfg, st, o, t);
    && t.state.counters == AfterMark(cfg, c1, m, o.seq_)
    && IncidentsIn(t.events) == Announced(cfg, st.lastFired, c1, m, o.at)
  }

  lemma VerdictMovesCounters(cfg: Config, st: State, o: Observation)
    requires !cfg.rule.Changed? && !cfg.rule.NewEvent?
    requires WayOf(cfg, st, o).JudgedWay?
    ensures MovesByMark(cfg, st, o)
  {
    hide Hold, Decide, Judge, Emit, GapEvents, IncidentsIn, OverGap, WayOf, AfterHit, AfterMiss;
    var rested, events := Rested(cfg, st, o), GapEvents(cfg, st, o);
    NoIncidentInGap(cfg, st, o);
    var v := Judge(cfg, rested, o);
    JudgeKeepsCounters(cfg, rested, o);
    Timing.JudgeKeepsFired(cfg, rested, o);
    HoldKeepsIncident(cfg, v.state, o, v.reason, events);
    DecideMovesIncident(cfg, v.state, o, v.matched, events);
  }

  lemma OtherWaysMoveCounters(cfg: Config, st: State, o: Observation)
    requires !WayOf(cfg, st, o).JudgedWay?
    ensures MovesByMark(cfg, st, o)
  {
    hide Hold, Wait, Emit, GapEvents, IncidentsIn, MarkClock, OverGap, WayOf, AfterHit, AfterMiss;
    OtherWaysLogNothing(cfg, st, o);
  }

  // Without a verdict nothing opens or closes: the counters restart, or are left alone.
  lemma OtherWaysLogNothing(cfg: Config, st: State, o: Observation)
    requires !WayOf(cfg, st, o).JudgedWay?
    ensures var t, way := Step(cfg, st, o), WayOf(cfg, st, o);
            && !t.known && IncidentsIn(t.events) == []
            && t.state.counters == if way.SameWay? || way.FilteredWay? then Rested(cfg, st, o).counters else Zero(st.counters)
  {
    hide Hold, Wait, Decide, Judge, Emit, GapEvents, IncidentsIn, MarkClock, OverGap, WayOf, AfterHit, AfterMiss;
    var rested, events := Rested(cfg, st, o), GapEvents(cfg, st, o);
    var gap := Emit(cfg, Calm(st), o, SamplingGap, "sampling_gap");
    NoIncidentInGap(cfg, st, o);
    NothingLogged();
    match WayOf(cfg, st, o) {
      case ClockWay =>
        MarkClockKeepsCounters(cfg, st, o);
        HoldKeepsIncident(cfg, MarkClock(cfg, st, o), o, "clock_discontinuity", []);
      case BackWay => HoldKeepsIncident(cfg, st, o, "clock_moved_backwards", []);
      case GapWay =>
        IncidentsAppend([], gap);
        assert [] + [gap] == [gap];
      case WaitWay => WaitKeepsIncident(cfg, rested, o, events);
      case BadWay => HoldKeepsIncident(cfg, rested, o, Detail(o), events);
      case _ =>
    }
  }

  /** Every step moves the counters by its mark alone, after a silence clears them. */
  lemma StepMovesCounters(cfg: Config, st: State, o: Observation)
    requires !cfg.rule.Changed? && !cfg.rule.NewEvent?
    ensures MovesByMark(cfg, st, o)
  {
    hide MovesByMark, WayOf;
    if WayOf(cfg, st, o).JudgedWay? { VerdictMovesCounters(cfg, st, o); } else { OtherWaysMoveCounters(cfg, st, o); }
  }

  lemma NothingLogged()
    ensures IncidentsIn([]) == []
  {
  }

  lemma MarkClockKeepsCounters(cfg: Config, st: State, o: Observation)
    ensures MarkClock(cfg, st, o).counters == st.counters
  {
  }

  // ---------- Every run: the counters ----------

  function Min(a: nat, b: nat): nat { if a < b then a else b }

  /**
    The counters say what the observations said: Matches is the row of matches up to Consecutive,
    Recoveries the row of non-matches of an open incident, and Evidence that row; only a row of
    matches that broke off a recovery still has its non-matches in front.
   */
  ghost predicate CountersOk(cfg: Config, hits: seq<int>, misses: seq<int>, broken: seq<int>, c: Counters) {
    && (misses != [] ==> hits == []) && (hits == [] ==> broken == [])
    && c.matches == Min(|hits|, cfg.consecutive)
    && c.recoveries == (if c.open then |misses| else 0)
    && (if c.open then |misses| < cfg.recoverAfter else |hits| < cfg.consecutive && broken == [])
    && c.evidence == if c.recoveries > 0 then misses else broken + hits[..c.matches]
  }

  lemma CountersNext(cfg: Config, hits: seq<int>, misses: seq<int>, broken: seq<int>, c: Counters, silence: bool, m: Mark, n: int)
    requires CountersOk(cfg, hits, misses, broken, c) && cfg.consecutive >= 1 && cfg.recoverAfter >= 1
    ensures CountersOk(cfg, Extended(hits, Hit, silence, m, n), Extended(misses, Miss, silence, m, n),
                       BrokenOff(broken, hits, misses, c.open, silence, m),
                       AfterMark(cfg, if silence then Zero(c) else c, m, n))
  {
    var prior := if silence then [] else hits;
    if m == Hit {
      assert (prior + [n])[..|prior|] == prior;
      if |prior| < cfg.consecutive {
        assert prior[..|prior|] == prior && (prior + [n])[..|prior| + 1] == prior + [n];
      } else {
        assert (prior + [n])[..cfg.consecutive] == prior[..cfg.consecutive];
      }
    }
  }

  /** Over every run, whatever the trigger, the counters are those the row of matches or non-matches calls for. */
  lemma {:induction false} CountersFollowTheRun(cfg: Config, turns: seq<Turn>)
    requires Compiled(cfg) && !cfg.rule.Changed? && !cfg.rule.NewEvent? && IsRun(cfg, turns)
    ensures CountersOk(cfg, Streak(cfg, turns, Hit), Streak(cfg, turns, Miss), Interrupted(cfg, turns),
                       StateAfter(turns).counters)
  {
    if turns != [] {
      hide Step, WayOf, OverGap, IncidentsIn, CountersOk, AfterMark, Extended, BrokenOff;
      var init, last := turns[..|turns| - 1], turns[|turns| - 1];
      TurnIsStep(cfg, turns);
      CountersFollowTheRun(cfg, init);
      StepMovesCounters(cfg, Addressed(last), last.o);
      CountersNext(cfg, Streak(cfg, init, Hit), Streak(cfg, init, Miss), Interrupted(cfg, init), last.before.counters,
                   AfterSilence(cfg, last), MarkOf(cfg, last), last.o.seq_);
    }
  }

  // The row an incident's next event will rest on.
  ghost function Row(cfg: Config, turns: seq<Turn>): seq<int> {
    if StateAfter(turns).counters.recoveries > 0 then Streak(cfg, turns, Miss)
    else Streak(cfg, turns, Hit)[..Min(|Streak(cfg, turns, Hit)|, cfg.consecutive)]
  }

  /** Evidence holds exactly the row if and only if that row did not break off a recovery. */
  lemma EvidenceIsTheRow(cfg: Config, turns: seq<Turn>)
    requires Compiled(cfg) && !cfg.rule.Changed? && !cfg.rule.NewEvent? && IsRun(cfg, turns)
    ensures StateAfter(turns).counters.evidence == Row(cfg, turns) <==> Interrupted(cfg, turns) == []
  {
    CountersFollowTheRun(cfg, turns);
    var row := Row(cfg, turns);
    assert [] + row == row;
  }

  /** A match breaks off a recovery exactly when one is under way; later matches of its row keep what it broke off. */
  lemma MatchInterrupts(cfg: Config, turns: seq<Turn>)
    requires Compiled(cfg) && !cfg.rule.Changed? && !cfg.rule.NewEvent? && IsRun(cfg, turns) && turns != []
    requires MarkOf(cfg, turns[|turns| - 1]) == Hit
    ensures var init, last := turns[..|turns| - 1], turns[|turns| - 1];
            Interrupted(cfg, turns) != [] <==>
              !AfterSilence(cfg, last) && (last.before.counters.recoveries > 0 || Interrupted(cfg, init) != [])
  {
    hide Step, WayOf, OverGap, Evaluated, Streak;
    TurnIsStep(cfg, turns);
    CountersFollowTheRun(cfg, turns[..|turns| - 1]);
  }

  // ---------- Every run: the events ----------

  ghost predicate DueSince(cfg: Config, from: Option<Time>, now: Time) { from.None? || now >= from.value + cfg.interval }

  /** The last observation makes a full row of matches. */
  ghost predicate FullRow(cfg: Config, turns: seq<Turn>)
    requires turns != []
  {
    MarkOf(cfg, turns[|turns| - 1]) == Hit && |Streak(cfg, turns, Hit)| >= cfg.consecutive
  }

  /** It fires: a full row that opens the incident, or, with a level trigger, comes when an emission is due. */
  ghost predicate FiresNow(cfg: Config, turns: seq<Turn>)
    requires turns != []
  {
    var last := turns[|turns| - 1];
    && FullRow(cfg, turns)
    && if cfg.level then DueSince(cfg, Timing.IntervalFrom(turns[..|turns| - 1]), last.o.at) else !last.before.counters.open
  }

  /** It recovers: the RecoverAfter-th non-match in a row of an open incident. */
  ghost predicate RecoversNow(cfg: Config, turns: seq<Turn>)
    requires turns != []
  {
    var last := turns[|turns| - 1];
    last.before.counters.open && MarkOf(cfg, last) == Miss && |Streak(cfg, turns, Miss)| == cfg.recoverAfter
  }

  // What the counters announce is what the rows say.
  lemma RowsAnnounce(cfg: Config, hits: seq<int>, misses: seq<int>, broken: seq<int>, c: Counters, silence: bool, m: Mark, n: int)
    requires CountersOk(cfg, hits, misses, broken, c) && cfg.consecutive >= 1 && cfg.recoverAfter >= 1
    ensures var c1 := if silence then Zero(c) else c;
            var full := m == Hit && |Extended(hits, Hit, silence, m, n)| >= cfg.consecutive;
            var ended := c.open && m == Miss && |Extended(misses, Miss, silence, m, n)| == cfg.recoverAfter;
            && (full <==> m == Hit && c1.matches + 1 >= cfg.consecutive)
            && (ended <==> m == Miss && c1.open && c1.recoveries + 1 >= cfg.recoverAfter)
            && (AfterMark(cfg, c1, m, n).open <==> full || (c.open && !ended))
  {
  }

  // How the last turn moved Open, and what it announced.
  lemma TurnAnnounces(cfg: Config, turns: seq<Turn>)
    requires Compiled(cfg) && !cfg.rule.Changed? && !cfg.rule.NewEvent? && IsRun(cfg, turns) && turns != []
    ensures var last := turns[|turns| - 1];
            && IncidentsIn(last.t.events)
               == (if FiresNow(cfg, turns) then [Firing] else if RecoversNow(cfg, turns) then [Recovered] else [])
            && (last.t.state.counters.open <==>
                  FullRow(cfg, turns) || (last.before.counters.open && !RecoversNow(cfg, turns)))
  {
    hide Step, WayOf, OverGap, IncidentsIn, Evaluated, Interrupted, CountersOk, AfterMark, Extended;
    var init, last := turns[..|turns| - 1], turns[|turns| - 1];
    TurnIsStep(cfg, turns);
    CountersFollowTheRun(cfg, init);
    StepMovesCounters(cfg, Addressed(last), last.o);
    RowsAnnounce(cfg, Streak(cfg, init, Hit), Streak(cfg, init, Miss), Interrupted(cfg, init), last.before.counters,
                 AfterSilence(cfg, last), MarkOf(cfg, last), last.o.seq_);
    Timing.RunTimes(cfg, init);
  }

  /**
    Counted evidence, for every trigger: an evaluation fires if and only if it makes a full row
    of matches and, with a transition trigger, the incident was closed (so the row has exactly
    Consecutive matches), or, with a level trigger, an emission is due; it recovers if and only
    if it makes the RecoverAfter-th non-match in a row of an open incident. Nothing unknown,
    waiting or silent lies inside a row.
   */
  lemma IncidentsRestOnStreaks(cfg: Config, turns: seq<Turn>)
    requires Compiled(cfg) && !cfg.rule.Changed? && !cfg.rule.NewEvent? && IsRun(cfg, turns) && turns != []
    ensures var incidents := IncidentsIn(turns[|turns| - 1].t.events);
            && (incidents == [Firing] <==> FiresNow(cfg, turns))
            && (incidents == [Recovered] <==> RecoversNow(cfg, turns))
            && (incidents == [Firing] || incidents == [Recovered] || incidents == [])
            && (FiresNow(cfg, turns) && !turns[|turns| - 1].before.counters.open ==> |Streak(cfg, turns, Hit)| == cfg.consecutive)
  {
    hide IncidentsIn, WayOf, OverGap, Evaluated, Interrupted;
    TurnAnnounces(cfg, turns);
    CountersFollowTheRun(cfg, turns[..|turns| - 1]);
  }

  /** An evaluation that opens the incident announces it, unless the trigger is level and no emission is due. */
  lemma OpeningFiresWhenDue(cfg: Config, turns: seq<Turn>)
    requires Compiled(cfg) && !cfg.rule.Changed? && !cfg.rule.NewEvent? && IsRun(cfg, turns) && turns != []
    requires var last := turns[|turns| - 1]; !last.before.counters.open && last.t.state.counters.open
    ensures var init, last := turns[..|turns| - 1], turns[|turns| - 1];
            IncidentsIn(last.t.events) == [Firing] <==>
              (cfg.level ==> DueSince(cfg, Timing.IntervalFrom(init), last.o.at))
  {
    hide IncidentsIn, IsRun, Streak, MarkOf;
    TurnAnnounces(cfg, turns);
  }

  // Firing and recovered take turns, beginning with firing; an incident is open after a firing.
  ghost predicate Alternates(log: seq<Kind>, open: bool) {
    && (forall i :: 0 <= i < |log| ==> log[i] == if i % 2 == 0 then Firing else Recovered)
    && (open <==> |log| % 2 == 1)
  }

  // The event a change of Open calls for.
  function Turned(before: bool, after: bool): seq<Kind> {
    if !before && after then [Firing] else if before && !after then [Recovered] else []
  }

  lemma AlternatesNext(log: seq<Kind>, before: bool, more: seq<Kind>, after: bool)
    requires Alternates(log, before) && |more| <= 1
    ensures Alternates(log + more, after) <==> more == Turned(before, after)
  {
    if more != [] { assert more == [more[0]] && (log + more)[|log|] == more[0]; }
    assert more == [] ==> log + more == log;
    if more == Turned(before, after) && more != [] {
      forall i | 0 <= i < |log + more| ensures (log + more)[i] == if i % 2 == 0 then Firing else Recovered {
        if i < |log| { assert (log + more)[i] == log[i]; }
      }
    }
  }

  ghost predicate AlternatesThroughout(turns: seq<Turn>) {
    && Alternates(IncidentLog(turns), StateAfter(turns).counters.open)
    && (turns != [] ==> AlternatesThroughout(turns[..|turns| - 1]))
  }

  /** With a level trigger, each full row so far came when due exactly if it opened the incident. */
  ghost predicate FiresInStep(cfg: Config, turns: seq<Turn>) {
    turns != [] ==>
      var init, last := turns[..|turns| - 1], turns[|turns| - 1];
      && FiresInStep(cfg, init)
      && (cfg.level && FullRow(cfg, turns) ==>
            (DueSince(cfg, Timing.IntervalFrom(init), last.o.at) <==> !last.before.counters.open))
  }

  /**
    When incidents alternate: at every point of a run firing and recovered have taken turns, with
    the incident open exactly after a firing, if and only if no full row of a level trigger opened
    the incident before an emission was due or repeated a firing while it was open.
   */
  lemma {:induction false} AlternationNeedsDueRows(cfg: Config, turns: seq<Turn>)
    requires Compiled(cfg) && !cfg.rule.Changed? && !cfg.rule.NewEvent? && IsRun(cfg, turns)
    ensures AlternatesThroughout(turns) <==> FiresInStep(cfg, turns)
  {
    if turns != [] {
      hide IncidentsIn, IsRun, Step, WayOf, Compiled, Addressed, Alternates, Streak, MarkOf;
      var init, last := turns[..|turns| - 1], turns[|turns| - 1];
      TurnIsStep(cfg, turns);
      AlternationNeedsDueRows(cfg, init);
      TurnAnnounces(cfg, turns);
      if AlternatesThroughout(init) {
        AlternatesNext(IncidentLog(init), last.before.counters.open, IncidentsIn(last.t.events), last.t.state.counters.open);
      }
    }
  }

  lemma {:induction false} TransitionsFireInStep(cfg: Config, turns: seq<Turn>)
    requires !cfg.level
    ensures FiresInStep(cfg, turns)
  {
    if turns != [] { TransitionsFireInStep(cfg, turns[..|turns| - 1]); }
  }

  /**
    Incident alternation: with a transition trigger, over every run, firing and recovered
    events strictly alternate and the incident is open exactly after a firing.
   */
  lemma IncidentsAlternate(cfg: Config, turns: seq<Turn>)
    requires Compiled(cfg) && !cfg.rule.Changed? && !cfg.rule.NewEvent? && !cfg.level && IsRun(cfg, turns)
    ensures Alternates(IncidentLog(turns), StateAfter(turns).counters.open)
  {
    TransitionsFireInStep(cfg, turns);
    AlternationNeedsDueRows(cfg, turns);
  }

  ghost predicate LastFired(log: seq<Kind>) { log != [] && log[|log| - 1] == Firing }

  /** Some full row since the last recovery fired: it opened the incident, or came when due. */
  ghost predicate FiredSinceRecovery(cfg: Config, turns: seq<Turn>) {
    turns != [] && !RecoversNow(cfg, turns) && (FiresNow(cfg, turns) || FiredSinceRecovery(cfg, turns[..|turns| - 1]))
  }

  lemma LastOfLog(turns: seq<Turn>)
    requires turns != [] && |IncidentsIn(turns[|turns| - 1].t.events)| <= 1
    ensures var incidents := IncidentsIn(turns[|turns| - 1].t.events);
            LastFired(IncidentLog(turns)) <==>
              incidents == [Firing] || (incidents == [] && LastFired(IncidentLog(turns[..|turns| - 1])))
  {
    hide IncidentsIn;
    var log, incidents := IncidentLog(turns[..|turns| - 1]), IncidentsIn(turns[|turns| - 1].t.events);
    assert incidents == [] ==> log + incidents == log;
  }

  /**
    A recovery has a firing of its own, after the recovery before it, if and only if a full row
    of that incident came when due; with a transition trigger the opening row always does.
   */
  lemma {:induction false} RecoveryIsPreceded(cfg: Config, turns: seq<Turn>)
    requires Compiled(cfg) && !cfg.rule.Changed? && !cfg.rule.NewEvent? && IsRun(cfg, turns)
    ensures LastFired(IncidentLog(turns)) <==> FiredSinceRecovery(cfg, turns)
  {
    if turns != [] {
      hide IncidentsIn, IsRun, Step, WayOf, FiresNow, RecoversNow, Compiled, Addressed, Streak;
      TurnIsStep(cfg, turns);
      RecoveryIsPreceded(cfg, turns[..|turns| - 1]);
      IncidentsRestOnStreaks(cfg, turns);
      LastOfLog(turns);
    }
  }

  /** Unknown input never clears an incident, whatever the rule and the trigger. */
  lemma UnknownHoldsIncident(cfg: Config, turns: seq<Turn>)
    requires IsRun(cfg, turns) && turns != [] && !turns[|turns| - 1].t.known
    ensures var last := turns[|turns| - 1];
            && last.t.state.counters.open == last.before.counters.open
            && last.t.state.incident == last.before.incident
            && IncidentsIn(last.t.events) == []
  {
    hide Step, WayOf, IncidentsIn;
    TurnIsStep(cfg, turns);
    var last := turns[|turns| - 1];
    UnknownStepHolds(cfg, Addressed(last), last.o);
  }

  lemma UnknownStepHolds(cfg: Config, st: State, o: Observation)
    requires !Step(cfg, st, o).known
    ensures var t := Step(cfg, st, o);
            t.state.counters.open == st.counters.open && t.state.incident == st.incident && IncidentsIn(t.events) == []
  {
    hide IncidentsIn, Emit, GapEvents, OverGap, WayOf, Judge, Decide;
    if WayOf(cfg, st, o).JudgedWay? {
      var events, v := GapEvents(cfg, st, o), Judge(cfg, Rested(cfg, st, o), o);
      JudgeKeepsCounters(cfg, Rested(cfg, st, o), o);
      JudgeKeepsIncident(cfg, Rested(cfg, st, o), o);
      NoIncidentInGap(cfg, st, o);
      HoldKeepsIncident(cfg, v.state, o, v.reason, events);
      DecideEffect(cfg, v.state, o, v.matched, events);
    } else {
      OtherWaysLogNothing(cfg, st, o);
    }
  }

  lemma JudgeKeepsIncident(cfg: Config, st: State, o: Observation)
    ensures Judge(cfg, st, o).state.incident == st.incident
  {
    hide Compare, StoreSample, NewId, AggregatesOver, Eval;
  }

  // ---------- The event names what it rests on ----------

  /** Every `kind` event names exactly the members of `list`, in increasing order. */
  ghost predicate Names(events: seq<Event>, kind: Kind, list: seq<int>) {
    forall i :: 0 <= i < |events| && events[i].id.kind == kind ==> events[i].evidence == Ascending(list)
  }

  ghost predicate NoIncident(events: seq<Event>) { forall i :: 0 <= i < |events| ==> !IsIncident(events[i].id.kind) }

  // What an incident event names besides its row: the freshness it is missing, or the samples in store.
  function Backing(cfg: Config, st: State): seq<int> {
    (if cfg.rule.Missing? && st.deadline.freshSeq > 0 then [st.deadline.freshSeq] else []) + SequencesOf(st.store.samples)
  }

  lemma EmitNames(cfg: Config, st: State, o: Observation, kind: Kind, reason: string, events: seq<Event>)
    requires IsIncident(kind) && NoIncident(events)
    ensures Names(events + [Emit(cfg, st, o, kind, reason)], kind, Backing(cfg, st) + st.counters.evidence + [o.seq_])
    ensures kind != Firing ==> Names(events + [Emit(cfg, st, o, kind, reason)], Firing, [])
    ensures kind != Recovered ==> Names(events + [Emit(cfg, st, o, kind, reason)], Recovered, [])
  {
  }

  // The evidence an incident event carries, given the counters it is emitted with.
  ghost function Carried(cfg: Config, st: State, c: Counters, n: int): seq<int> { Backing(cfg, st) + c.evidence + [n] }

  lemma DecideNames(cfg: Config, st: State, o: Observation, matched: bool, events: seq<Event>)
    requires !cfg.rule.Changed? && !cfg.rule.NewEvent? && NoIncident(events)
    ensures var t, c := Decide(cfg, st, o, matched, events), st.counters;
            && (matched ==> Names(t.events, Firing, Carried(cfg, st, Counted(cfg, c, o.seq_), o.seq_)))
            && (!matched ==> Names(t.events, Recovered, Carried(cfg, st, Recovering(c, o.seq_), o.seq_)))
  {
    hide Emit, Ascending, SequencesOf;
    var heard := st.source.unhealthy && !o.health.Timer?;
    var events1 := if heard then events + [Emit(cfg, st, o, SourceRecovered, "source_recovered")] else events;
    var st1 := if heard then st.(source := Source(false, None)) else st;
    assert NoIncident(events1);
    EmitNames(cfg, st1.(counters := Counted(cfg, st.counters, o.seq_)), o, Firing, "condition_matched", events1);
    EmitNames(cfg, st1.(counters := Recovering(st.counters, o.seq_)), o, Recovered, "condition_recovered", events1);
  }

  lemma StepNames(cfg: Config, st: State, o: Observation)
    requires !cfg.rule.Changed? && !cfg.rule.NewEvent? && Step(cfg, st, o).known
    ensures var t, c := Step(cfg, st, o), Rested(cfg, st, o).counters;
            && (t.matched ==> Names(t.events, Firing, Carried(cfg, t.state, Counted(cfg, c, o.seq_), o.seq_)))
            && (!t.matched ==> Names(t.events, Recovered, Carried(cfg, t.state, Recovering(c, o.seq_), o.seq_)))
  {
    hide Emit, Names, Hold, Wait, Decide, Judge, WayOf, OverGap, Counted, Recovering, SequencesOf, IncidentsIn;
    if WayOf(cfg, st, o).JudgedWay? {
      var rested, events := Rested(cfg, st, o), GapEvents(cfg, st, o);
      var v := Judge(cfg, rested, o);
      JudgeKeepsCounters(cfg, rested, o);
      HoldEffect(cfg, v.state, o, v.reason, events);
      DecideEffect(cfg, v.state, o, v.matched, events);
      DecideNames(cfg, v.state, o, v.matched, events);
    } else {
      OtherWaysLogNothing(cfg, st, o);
    }
  }

  /**
    An incident event names exactly what it rests on: a firing the first Consecutive matches of
    its row, after the non-matches that row broke off, and a recovery the non-matches of its row;
    besides those only the samples in store or the last fresh observation, and its own sequence.
    A firing that opens the incident has broken off nothing.
   */
  lemma IncidentCarriesItsStreak(cfg: Config, turns: seq<Turn>)
    requires Compiled(cfg) && !cfg.rule.Changed? && !cfg.rule.NewEvent? && IsRun(cfg, turns) && turns != []
    ensures var last := turns[|turns| - 1];
            var hits, misses := Streak(cfg, turns, Hit), Streak(cfg, turns, Miss);
            var backing := Backing(cfg, last.t.state);
            && (FiresNow(cfg, turns) ==>
                  Names(last.t.events, Firing,
                        backing + (Interrupted(cfg, turns) + hits[..Min(|hits|, cfg.consecutive)]) + [last.o.seq_]))
            && (RecoversNow(cfg, turns) ==> Names(last.t.events, Recovered, backing + misses + [last.o.seq_]))
            && (FiresNow(cfg, turns) && !last.before.counters.open ==> Interrupted(cfg, turns) == [])
  {
    hide Step, WayOf, OverGap, IncidentsIn, Names, Backing, Evaluated, Timing.IntervalFrom;
    var init, last := turns[..|turns| - 1], turns[|turns| - 1];
    TurnIsStep(cfg, turns);
    CountersFollowTheRun(cfg, init);
    CountersFollowTheRun(cfg, turns);
    StepMovesCounters(cfg, Addressed(last), last.o);
    if FiresNow(cfg, turns) || RecoversNow(cfg, turns) { StepNames(cfg, Addressed(last), last.o); }
  }

  // ---------- Two runs that show where the conditions bite ----------

  // A watch on one flag: a single match opens an incident.
  function FlagWatch(level: bool, recoverAfter: nat, interval: nat): Config {
    Config(Compared("up", Eq, Flag(true)), level, 1, recoverAfter, interval, 0, 1, map[])
  }

  function FlagSeen(n: nat, up: bool): Observation {
    Observation(n, n, Ok, "", "", None, map["up" := Flag(up)], Some("k"), {})
  }

  // The turns of observations at times 1, 2, ...
  function FlagRun(cfg: Config, ups: seq<bool>): seq<Turn> {
    if ups == [] then []
    else
      var turns := FlagRun(cfg, ups[..|ups| - 1]);
      turns + [FlagTurn(cfg, StateAfter(turns), |ups|, ups[|ups| - 1])]
  }

  function FlagTurn(cfg: Config, before: State, n: nat, up: bool): Turn {
    Turn(before, FlagSeen(n, up), Step(cfg, before.(waiting := "", entity := "k"), FlagSeen(n, up)))
  }

  ghost predicate FlagState(st: State, n: nat) {
    && st.lastSeq == n && st.lastAt == n && (st.entity == "" || st.entity == "k")
    && !st.source.unhealthy && st.store == INITIAL.store
  }

  lemma FlagStep(level: bool, recoverAfter: nat, interval: nat, before: State, n: nat, up: bool)
    requires n >= 1 && FlagState(before, n - 1)
    ensures var cfg, o, st := FlagWatch(level, recoverAfter, interval), FlagSeen(n, up), before.(waiting := "", entity := "k");
            && Step(cfg, st, o) == (if up then Match(cfg, st, o, []) else Mismatch(cfg, st, o, []))
            && FlagState(Step(cfg, st, o).state, n)
            && !AfterSilence(cfg, FlagTurn(cfg, before, n, up))
            && MarkOf(cfg, FlagTurn(cfg, before, n, up)) == (if up then Hit else Miss)
  {
    hide Emit;
  }

  lemma {:induction false} FlagRunIsRun(level: bool, recoverAfter: nat, interval: nat, ups: seq<bool>)
    ensures var cfg := FlagWatch(level, recoverAfter, interval);
            IsRun(cfg, FlagRun(cfg, ups)) && FlagState(StateAfter(FlagRun(cfg, ups)), |ups|)
  {
    if ups != [] {
      hide Step;
      var cfg, init := FlagWatch(level, recoverAfter, interval), ups[..|ups| - 1];
      FlagRunIsRun(level, recoverAfter, interval, init);
      var turns, o := FlagRun(cfg, init), FlagSeen(|ups|, ups[|ups| - 1]);
      FlagStep(level, recoverAfter, interval, StateAfter(turns), |ups|, ups[|ups| - 1]);
      RunExtends(cfg, turns, o);
      assert FlagTurn(cfg, StateAfter(turns), |ups|, ups[|ups| - 1]) == NextTurn(cfg, StateAfter(turns), o);
    }
  }

  // One more observation, as far as incidents are concerned.
  lemma FlagNext(recoverAfter: nat, interval: nat, ups: seq<bool>, up: bool)
    ensures var cfg := FlagWatch(true, recoverAfter, interval);
            var turns, all, n := FlagRun(cfg, ups), FlagRun(cfg, ups + [up]), |ups| + 1;
            var before, after, m := StateAfter(turns), StateAfter(all), if up then Hit else Miss;
            && IsRun(cfg, all) && |all| == |turns| + 1
            && after.counters == AfterMark(cfg, before.counters, m, n)
            && IncidentLog(all) == IncidentLog(turns) + Announced(cfg, before.lastFired, before.counters, m, n)
            && Streak(cfg, all, Hit) == (if up then Streak(cfg, turns, Hit) + [n] else [])
            && after.lastFired == (if up && Due(cfg, before.lastFired, n) then n else before.lastFired)
  {
    hide Step, IncidentsIn, Match, Mismatch, AfterSilence, AfterMark;
    var cfg := FlagWatch(true, recoverAfter, interval);
    assert (ups + [up])[..|ups|] == ups;
    FlagRunIsRun(true, recoverAfter, interval, ups);
    FlagRunIsRun(true, recoverAfter, interval, ups + [up]);
    var before := StateAfter(FlagRun(cfg, ups));
    FlagStep(true, recoverAfter, interval, before, |ups| + 1, up);
    FlagFires(recoverAfter, interval, before.(waiting := "", entity := "k"), FlagSeen(|ups| + 1, up));
    StepMovesCounters(cfg, before.(waiting := "", entity := "k"), FlagSeen(|ups| + 1, up));
  }

  lemma FlagFires(recoverAfter: nat, interval: nat, st: State, o: Observation)
    ensures var cfg := FlagWatch(true, recoverAfter, interval);
            && Match(cfg, st, o, []).state.lastFired == (if Due(cfg, st.lastFired, o.at) then o.at else st.lastFired)
            && Mismatch(cfg, st, o, []).state.lastFired == st.lastFired
  {
    hide Emit;
  }

  lemma FlagStart(cfg: Config)
    ensures FlagRun(cfg, []) == [] && IncidentLog([]) == [] && Streak(cfg, [], Hit) == []
  {
  }

  lemma TwoAscending(a: int, b: int)
    requires a < b
    ensures Ascending([a, b, b]) == [a, b]
  {
    assert [a, b, b][..2] == [a, b] && [a, b][..1] == [a] && [a][..0] == [];
    assert Ascending([]) == [] && Ascending([a]) == [a];
    assert [a] + [b] == [a, b];
    assert Ascending([a, b]) == [a, b];
  }

  // Match, non-match: the recovery is under way.
  lemma RecoveryUnderWay()
    ensures var cfg := FlagWatch(true, 2, 0);
            var st := StateAfter(FlagRun(cfg, [true, false]));
            st.counters == Counters(true, 0, 1, [2]) && st.lastFired == 1
            && Streak(cfg, FlagRun(cfg, [true, false]), Hit) == []
  {
    hide FlagRun, IncidentLog, Streak, IsRun;
    var cfg := FlagWatch(true, 2, 0);
    FlagStart(cfg);
    FlagNext(2, 0, [], true);
    assert [] + [true] == [true];
    FlagNext(2, 0, [true], false);
    assert [true] + [false] == [true, false];
  }

  /**
    Match, non-match, match: the recovery under way is broken off, its non-match stays in Evidence,
    and a level trigger fires naming an observation that did not match.
   */
  lemma InterruptedRecoveryIsNamed()
    ensures var cfg := FlagWatch(true, 2, 0);
            var turns := FlagRun(cfg, [true, false, true]);
            && IsRun(cfg, turns) && |turns| == 3
            && StateAfter(turns).counters.evidence == [2, 3] && Streak(cfg, turns, Hit) == [3]
            && IncidentsIn(turns[2].t.events) == [Firing]
            && forall i :: 0 <= i < |turns[2].t.events| && turns[2].t.events[i].id.kind == Firing ==>
                 turns[2].t.events[i].evidence == [2, 3]
  {
    hide FlagRun, IncidentLog, Streak, IsRun, IncidentsIn;
    var cfg := FlagWatch(true, 2, 0);
    RecoveryUnderWay();
    FlagNext(2, 0, [true, false], true);
    assert [true, false] + [true] == [true, false, true];
    FiresNamingTwo();
  }

  lemma FiresNamingTwo()
    ensures var turns := FlagRun(FlagWatch(true, 2, 0), [true, false, true]);
            && |turns| == 3 && IncidentsIn(turns[2].t.events) == [Firing]
            && Names(turns[2].t.events, Firing, [2, 3, 3]) && Ascending([2, 3, 3]) == [2, 3]
  {
    hide Step, IncidentsIn, Names, AfterSilence, Ascending, Marked, Streak;
    var cfg, ups := FlagWatch(true, 2, 0), [true, false];
    RecoveryUnderWay();
    assert ups + [true] == [true, false, true] && [true, false, true][..2] == ups;
    assert ups[..1] == [true] && [true][..0] == [];
    var before := StateAfter(FlagRun(cfg, ups));
    var st, o := before.(waiting := "", entity := "k"), FlagSeen(3, true);
    FlagRunIsRun(true, 2, 0, ups);
    FlagStep(true, 2, 0, before, 3, true);
    StepMovesCounters(cfg, st, o);
    hide Match, Mismatch;
    assert Step(cfg, st, o).known && Step(cfg, st, o).matched;
    StepNames(cfg, st, o);
    assert Carried(cfg, Step(cfg, st, o).state, Counted(cfg, st.counters, 3), 3) == [2, 3, 3];
    TwoAscending(2, 3);
  }

  /**
    Match, non-match, match, non-match with a level trigger and a long interval: the second
    incident opens before an emission is due and recovers without ever having fired.
   */
  lemma SilentIncidentRecovers()
    ensures var cfg := FlagWatch(true, 1, 10);
            var turns := FlagRun(cfg, [true, false, true, false]);
            IsRun(cfg, turns) && IncidentLog(turns) == [Firing, Recovered, Recovered]
  {
    hide FlagRun, IncidentLog, Streak, IsRun;
    var cfg := FlagWatch(true, 1, 10);
    FlagStart(cfg);
    FlagNext(1, 10, [], true);
    assert [] + [true] == [true];
    FlagNext(1, 10, [true], false);
    assert [true] + [false] == [true, false];
    FlagNext(1, 10, [true, false], true);
    assert [true, false] + [true] == [true, false, true];
    FlagNext(1, 10, [true, false, true], false);
    assert [true, false, true] + [false] == [true, false, true, false];
  }
}
