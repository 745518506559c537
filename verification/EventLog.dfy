/**
  What every run keeps about its events (internal/condition/transition.go:113-119, 164-206,
  304-310, 417-426): source errors and recoveries alternate, every event names its evidence in
  order and last of all its own observation, and the stored state stays bounded.
 */
module EventLog {
  import opened Common
  import opened Expression
  import opened Evaluator
  import Incidents

  // ---------- Source health ----------

  predicate IsHealth(k: Kind) { k.SourceError? || k.SourceRecovered? }

  function HealthIn(events: seq<Event>): seq<Kind> {
    if events == [] then []
    else
      var k := events[|events| - 1].id.kind;
      HealthIn(events[..|events| - 1]) + (if IsHealth(k) then [k] else [])
  }

  function HealthLog(turns: seq<Turn>): seq<Kind> {
    if turns == [] then [] else HealthLog(turns[..|turns| - 1]) + HealthIn(turns[|turns| - 1].t.events)
  }

  lemma HealthAppend(events: seq<Event>, e: Event)
    ensures HealthIn(events + [e]) == HealthIn(events) + (if IsHealth(e.id.kind) then [e.id.kind] else [])
  {
    assert (events + [e])[..|events|] == events;
  }

  // The health events between two states.
  function Told(before: bool, after: bool): seq<Kind> {
    if !before && after then [SourceError] else if before && !after then [SourceRecovered] else []
  }

  ghost predicate SourceOk(s: Source) { s.unhealthy <==> s.event.Some? }

  lemma HoldTells(cfg: Config, st: State, o: Observation, reason: string, events: seq<Event>)
    requires HealthIn(events) == [] && SourceOk(st.source)
    ensures var t := Hold(cfg, st, o, reason, events);
            HealthIn(t.events) == Told(st.source.unhealthy, t.state.source.unhealthy) && SourceOk(t.state.source)
  {
    hide Emit;
    var calm := Calm(st).(lastSeq := o.seq_, lastAt := Later(o.at, st.lastAt));
    HealthAppend(events, Emit(cfg, calm, o, SourceError, reason));
    assert [] + [SourceError] == [SourceError];
  }

  lemma WaitTells(cfg: Config, st: State, o: Observation, events: seq<Event>)
    requires HealthIn(events) == [] && SourceOk(st.source)
    ensures var t := Wait(cfg, st, o, events);
            HealthIn(t.events) == Told(st.source.unhealthy, t.state.source.unhealthy) && SourceOk(t.state.source)
  {
    hide Emit;
    var st' := Pass(Calm(st), o).(waiting := Detail(o));
    HealthAppend(events, Emit(cfg, st', o, SourceRecovered, "source_recovered"));
    assert [] + [SourceRecovered] == [SourceRecovered];
  }

  lemma DecideTells(cfg: Config, st: State, o: Observation, matched: bool, events: seq<Event>)
    requires HealthIn(events) == [] && SourceOk(st.source)
    ensures var t := Decide(cfg, st, o, matched, events);
            HealthIn(t.events) == Told(st.source.unhealthy, t.state.source.unhealthy) && SourceOk(t.state.source)
  {
    hide Emit, HealthIn;
    var heard := st.source.unhealthy && !o.health.Timer?;
    var recovered := Emit(cfg, st, o, SourceRecovered, "source_recovered");
    HealthAppend(events, recovered);
    var events1 := if heard then events + [recovered] else events;
    var st1 := if heard then st.(source := Source(false, None)) else st;
    assert [] + [SourceRecovered] == [SourceRecovered];
    forall e: Event | !IsHealth(e.id.kind) ensures HealthIn(events1 + [e]) == HealthIn(events1) {
      HealthAppend(events1, e);
    }
  }

  lemma GapTells(cfg: Config, st: State, o: Observation)
    ensures HealthIn(GapEvents(cfg, st, o)) == [] && HealthIn([Emit(cfg, Calm(st), o, SamplingGap, "sampling_gap")]) == []
  {
    hide Emit;
    var e := Emit(cfg, Calm(st), o, SamplingGap, "sampling_gap");
    assert [e][..0] == [] && HealthIn([]) == [];
  }

  lemma JudgeKeepsSource(cfg: Config, st: State, o: Observation)
    ensures Judge(cfg, st, o).state.source == st.source
  {
    hide Compare, StoreSample, NewId, AggregatesOver, Eval;
  }

  lemma StepTells(cfg: Config, turn: Turn)
    requires turn.t == Step(cfg, Addressed(turn), turn.o) && SourceOk(turn.before.source)
    ensures HealthIn(turn.t.events) == Told(turn.before.source.unhealthy, turn.t.state.source.unhealthy)
    ensures SourceOk(turn.t.state.source)
  {
    hide Emit, Judge, Hold, Wait, Decide, WayOf, GapEvents, OverGap, HealthIn;
    var st, o := Addressed(turn), turn.o;
    var rested, events := Rested(cfg, st, o), GapEvents(cfg, st, o);
    GapTells(cfg, st, o);
    NothingTold();
    match WayOf(cfg, st, o) {
      case ClockWay => HoldTells(cfg, MarkClock(cfg, st, o), o, "clock_discontinuity", []);
      case BackWay => HoldTells(cfg, st, o, "clock_moved_backwards", []);
      case WaitWay => WaitTells(cfg, rested, o, events);
      case BadWay => HoldTells(cfg, rested, o, Detail(o), events);
      case JudgedWay =>
        var v := Judge(cfg, rested, o);
        JudgeKeepsSource(cfg, rested, o);
        HoldTells(cfg, v.state, o, v.reason, events);
        DecideTells(cfg, v.state, o, v.matched, events);
      case _ =>
    }
  }

  lemma NothingTold()
    ensures HealthIn([]) == []
  {
  }

  ghost predicate HealthAlternates(log: seq<Kind>, unhealthy: bool) {
    && (forall i :: 0 <= i < |log| ==> log[i] == if i % 2 == 0 then SourceError else SourceRecovered)
    && (unhealthy <==> |log| % 2 == 1)
  }

  lemma HealthNext(log: seq<Kind>, before: bool, after: bool)
    requires HealthAlternates(log, before)
    ensures HealthAlternates(log + Told(before, after), after)
  {
  }

  /**
    Over every run source_error and source_recovered alternate, the source is marked unhealthy
    exactly after an error, and exactly then the state names the event that said so.
   */
  lemma {:induction false} SourceEventsAlternate(cfg: Config, turns: seq<Turn>)
    requires IsRun(cfg, turns)
    ensures HealthAlternates(HealthLog(turns), StateAfter(turns).source.unhealthy)
    ensures SourceOk(StateAfter(turns).source)
  {
    if turns != [] {
      hide Step, Evaluated, HealthIn, HealthAlternates;
      var init, last := turns[..|turns| - 1], turns[|turns| - 1];
      TurnIsStep(cfg, turns);
      SourceEventsAlternate(cfg, init);
      StepTells(cfg, last);
      HealthNext(HealthLog(init), last.before.source.unhealthy, last.t.state.source.unhealthy);
    } else {
      assert HealthLog(turns) == [];
    }
  }

  // ---------- Evidence ----------

  ghost predicate UpTo(s: seq<int>, n: int) { forall i :: 0 <= i < |s| ==> s[i] <= n }

  // No sequence a state remembers is newer than the last one it accepted.
  ghost predicate SequencesOk(st: State, n: int) {
    && UpTo(st.counters.evidence, n)
    && UpTo(SequencesOf(st.store.samples), n)
    && st.deadline.freshSeq <= n && st.signals.baselineSeq <= n
  }

  /** An event's evidence: strictly increasing, and last of all the observation that caused it. */
  ghost predicate EvidenceOk(e: Event, n: int) {
    Ascends(e.evidence) && e.evidence != [] && e.evidence[|e.evidence| - 1] == n && e.id.seq_ == n
  }

  ghost predicate AllEvidenceOk(events: seq<Event>, n: int) { forall i :: 0 <= i < |events| ==> EvidenceOk(events[i], n) }

  lemma LastIsLargest(s: seq<int>, n: int)
    requires Ascends(s) && n in s && forall x :: x in s ==> x <= n
    ensures s != [] && s[|s| - 1] == n
  {
    var i :| 0 <= i < |s| && s[i] == n;
    assert s[|s| - 1] in s;
  }

  lemma EmitNamesItself(cfg: Config, st: State, o: Observation, kind: Kind, reason: string)
    requires SequencesOk(st, o.seq_)
    ensures EvidenceOk(Emit(cfg, st, o, kind, reason), o.seq_)
  {
    hide Ascending, SequencesOf;
    var list := EvidenceOf(cfg, st, o, kind);
    assert list[|list| - 1] == o.seq_;
    forall x | x in list ensures x <= o.seq_ {}
    LastIsLargest(Ascending(list), o.seq_);
  }

  lemma {:induction false} RecentSequences(samples: seq<Sample>, now: Time, window: int, n: int)
    requires UpTo(SequencesOf(samples), n)
    ensures UpTo(SequencesOf(Recent(samples, now, window)), n)
  {
    if samples != [] {
      var init, s := samples[..|samples| - 1], samples[|samples| - 1];
      assert SequencesOf(samples) == SequencesOf(init) + [s.seq_];
      assert UpTo(SequencesOf(init), n) by {
        forall i | 0 <= i < |SequencesOf(init)| ensures SequencesOf(init)[i] <= n { assert SequencesOf(samples)[i] <= n; }
      }
      assert s.seq_ <= n by { assert SequencesOf(samples)[|SequencesOf(init)|] == s.seq_; }
      RecentSequences(init, now, window, n);
      var r := Recent(init, now, window);
      if Inside(s, now, window) {
        assert (r + [s])[..|r|] == r;
      } else {
        assert r + [] == r;
      }
    }
  }

  lemma StoredSequences(span: nat, maxSamples: nat, s: Store, x: Sample)
    requires UpTo(SequencesOf(s.samples), x.seq_)
    ensures UpTo(SequencesOf(StoreSample(span, maxSamples, s, x).0.samples), x.seq_)
  {
    hide Recent;
    var kept := Recent(s.samples, x.at, span);
    RecentSequences(s.samples, x.at, span, x.seq_);
    assert (kept + [x])[..|kept|] == kept;
  }

  lemma JudgeSequences(cfg: Config, st: State, o: Observation)
    requires SequencesOk(st, o.seq_)
    ensures SequencesOk(Judge(cfg, st, o).state, o.seq_)
  {
    hide Compare, StoreSample, NewId, AggregatesOver, Eval, SequencesOf;
    if cfg.rule.Numeric? && cfg.rule.field in o.fields && o.fields[cfg.rule.field].Num? {
      StoredSequences(Span(cfg), cfg.maxSamples, st.store, Sample(o.at, o.fields[cfg.rule.field].n, o.seq_));
    }
  }

  lemma HoldNames(cfg: Config, st: State, o: Observation, reason: string, events: seq<Event>)
    requires SequencesOk(st, o.seq_) && AllEvidenceOk(events, o.seq_)
    ensures var t := Hold(cfg, st, o, reason, events); SequencesOk(t.state, o.seq_) && AllEvidenceOk(t.events, o.seq_)
  {
    hide Emit, SequencesOf;
    var calm := Calm(st).(lastSeq := o.seq_, lastAt := Later(o.at, st.lastAt));
    EmitNamesItself(cfg, calm, o, SourceError, reason);
  }

  lemma WaitNames(cfg: Config, st: State, o: Observation, events: seq<Event>)
    requires SequencesOk(st, o.seq_) && AllEvidenceOk(events, o.seq_)
    ensures var t := Wait(cfg, st, o, events); SequencesOk(t.state, o.seq_) && AllEvidenceOk(t.events, o.seq_)
  {
    hide Emit, SequencesOf;
    EmitNamesItself(cfg, Pass(Calm(st), o).(waiting := Detail(o)), o, SourceRecovered, "source_recovered");
  }

  // An event appended to well-named events is emitted from a state with no newer sequences.
  lemma AppendNames(cfg: Config, st: State, o: Observation, kind: Kind, reason: string, events: seq<Event>)
    requires SequencesOk(st, o.seq_) && AllEvidenceOk(events, o.seq_)
    ensures AllEvidenceOk(events + [Emit(cfg, st, o, kind, reason)], o.seq_)
  {
    hide Emit, SequencesOk, EvidenceOk;
    EmitNamesItself(cfg, st, o, kind, reason);
  }

  lemma DecideNames(cfg: Config, st: State, o: Observation, matched: bool, events: seq<Event>)
    requires SequencesOk(st, o.seq_) && AllEvidenceOk(events, o.seq_)
    ensures var t := Decide(cfg, st, o, matched, events); SequencesOk(t.state, o.seq_) && AllEvidenceOk(t.events, o.seq_)
  {
    hide Emit, SequencesOf, AllEvidenceOk, Signal, Match, Mismatch;
    var heard := st.source.unhealthy && !o.health.Timer?;
    AppendNames(cfg, st, o, SourceRecovered, "source_recovered", events);
    var events1 := if heard then events + [Emit(cfg, st, o, SourceRecovered, "source_recovered")] else events;
    var st1 := if heard then st.(source := Source(false, None)) else st;
    SignalNames(cfg, st1, o, matched, events1);
    MatchNames(cfg, st1, o, events1);
    MismatchNames(cfg, st1, o, events1);
  }

  lemma SignalNames(cfg: Config, st: State, o: Observation, matched: bool, events: seq<Event>)
    requires SequencesOk(st, o.seq_) && AllEvidenceOk(events, o.seq_)
    ensures var t := Signal(cfg, st, o, matched, events); SequencesOk(t.state, o.seq_) && AllEvidenceOk(t.events, o.seq_)
  {
    hide Emit, SequencesOf, AllEvidenceOk;
    AppendNames(cfg, st, o, ChangedSeen, "condition_changed", events);
    AppendNames(cfg, st, o, NewSeen, "condition_new-event", events);
  }

  lemma MatchNames(cfg: Config, st: State, o: Observation, events: seq<Event>)
    requires SequencesOk(st, o.seq_) && AllEvidenceOk(events, o.seq_)
    ensures var t := Match(cfg, st, o, events); SequencesOk(t.state, o.seq_) && AllEvidenceOk(t.events, o.seq_)
  {
    hide Emit, SequencesOf, AllEvidenceOk;
    AppendNames(cfg, st.(counters := Counted(cfg, st.counters, o.seq_)), o, Firing, "condition_matched", events);
  }

  lemma MismatchNames(cfg: Config, st: State, o: Observation, events: seq<Event>)
    requires SequencesOk(st, o.seq_) && AllEvidenceOk(events, o.seq_)
    ensures var t := Mismatch(cfg, st, o, events); SequencesOk(t.state, o.seq_) && AllEvidenceOk(t.events, o.seq_)
  {
    hide Emit, SequencesOf, AllEvidenceOk;
    AppendNames(cfg, st.(counters := Recovering(st.counters, o.seq_)), o, Recovered, "condition_recovered", events);
  }

  lemma StepNames(cfg: Config, turn: Turn)
    requires turn.t == Step(cfg, Addressed(turn), turn.o)
    requires SequencesOk(turn.before, turn.before.lastSeq) && turn.o.seq_ > turn.before.lastSeq && turn.o.seq_ >= 1
    ensures SequencesOk(turn.t.state, turn.o.seq_) && AllEvidenceOk(turn.t.events, turn.o.seq_)
    ensures turn.t.state.lastSeq == turn.o.seq_
  {
    hide Emit, Judge, Hold, Wait, Decide, WayOf, OverGap, EvidenceOk, SequencesOf;
    var st, o := Addressed(turn), turn.o;
    var rested, events := Rested(cfg, st, o), GapEvents(cfg, st, o);
    StepAdvances(cfg, st, o);
    assert SequencesOk(st, o.seq_) && SequencesOk(Calm(st), o.seq_);
    EmitNamesItself(cfg, Calm(st), o, SamplingGap, "sampling_gap");
    match WayOf(cfg, st, o) {
      case ClockWay =>
        NoSamplesNoSequences();
        HoldNames(cfg, MarkClock(cfg, st, o), o, "clock_discontinuity", []);
      case BackWay => HoldNames(cfg, st, o, "clock_moved_backwards", []);
      case WaitWay => WaitNames(cfg, rested, o, events);
      case BadWay => HoldNames(cfg, rested, o, Detail(o), events);
      case JudgedWay =>
        var v := Judge(cfg, rested, o);
        JudgeSequences(cfg, rested, o);
        HoldNames(cfg, v.state, o, v.reason, events);
        DecideNames(cfg, v.state, o, v.matched, events);
      case _ =>
    }
  }

  lemma NoSamplesNoSequences()
    ensures SequencesOf([]) == []
  {
  }

  lemma StepAdvances(cfg: Config, st: State, o: Observation)
    ensures Step(cfg, st, o).state.lastSeq == o.seq_
  {
    hide Emit, Judge, Hold, Wait, Decide, Filtered, OverGap, GapEvents;
    var rested, events := Rested(cfg, st, o), GapEvents(cfg, st, o);
    var v := Judge(cfg, rested, o);
    HoldEffect(cfg, MarkClock(cfg, st, o), o, "clock_discontinuity", []);
    HoldEffect(cfg, st, o, "clock_moved_backwards", []);
    HoldEffect(cfg, rested, o, Detail(o), events);
    HoldEffect(cfg, v.state, o, v.reason, events);
    WaitEffect(cfg, rested, o, events);
    DecideEffect(cfg, v.state, o, v.matched, events);
  }

  /** Over every run, every event lists its evidence in increasing order and ends with its own observation. */
  lemma {:induction false} EvidenceIsOrdered(cfg: Config, turns: seq<Turn>)
    requires IsRun(cfg, turns)
    ensures SequencesOk(StateAfter(turns), StateAfter(turns).lastSeq)
    ensures turns != [] ==> AllEvidenceOk(turns[|turns| - 1].t.events, turns[|turns| - 1].o.seq_)
  {
    if turns != [] {
      hide Step, Evaluated, EvidenceOk, SequencesOk;
      TurnIsStep(cfg, turns);
      EvidenceIsOrdered(cfg, turns[..|turns| - 1]);
      StepNames(cfg, turns[|turns| - 1]);
    } else {
      NoSamplesNoSequences();
    }
  }

  // ---------- Bounds ----------

  ghost predicate CountersBounded(cfg: Config, c: Counters) {
    && c.matches <= cfg.consecutive && c.recoveries < cfg.recoverAfter
    && (if c.recoveries > 0 then c.matches == 0 && |c.evidence| == c.recoveries
        else |c.evidence| <= c.matches + cfg.recoverAfter - 1)
  }

  lemma BoundNext(cfg: Config, c: Counters, silence: bool, m: Incidents.Mark, n: int)
    requires CountersBounded(cfg, c) && cfg.consecutive >= 1 && cfg.recoverAfter >= 1
    ensures CountersBounded(cfg, Incidents.AfterMark(cfg, if silence then Zero(c) else c, m, n))
  {
  }

  // Change and new-event rules count nothing between observations.
  lemma SignalCountsNothing(cfg: Config, st: State, o: Observation)
    requires cfg.rule.Changed? || cfg.rule.NewEvent?
    requires st.counters == Zero(st.counters)
    ensures Step(cfg, st, o).state.counters == st.counters
  {
    hide Judge, Emit, GapEvents, OverGap, Filtered, Hold, Wait, MarkClock, Incidents.IncidentsIn;
    if WayOf(cfg, st, o).JudgedWay? {
      var rested, events := Rested(cfg, st, o), GapEvents(cfg, st, o);
      var v := Judge(cfg, rested, o);
      JudgeClearsNothing(cfg, rested, o);
      Incidents.HoldKeepsIncident(cfg, v.state, o, v.reason, events);
    } else {
      Incidents.OtherWaysLogNothing(cfg, st, o);
    }
  }

  lemma JudgeClearsNothing(cfg: Config, st: State, o: Observation)
    ensures var c := Judge(cfg, st, o).state.counters; c == st.counters.(evidence := c.evidence)
  {
    hide Compare, StoreSample, NewId, AggregatesOver, Eval;
  }

  /** Over every run the stored evidence never holds more than Consecutive + RecoverAfter - 1 sequences. */
  lemma {:induction false} EvidenceIsBounded(cfg: Config, turns: seq<Turn>)
    requires Compiled(cfg) && IsRun(cfg, turns)
    ensures CountersBounded(cfg, StateAfter(turns).counters)
    ensures |StateAfter(turns).counters.evidence| <= cfg.consecutive + cfg.recoverAfter - 1
    ensures cfg.rule.Changed? || cfg.rule.NewEvent? ==> StateAfter(turns).counters == Counters(false, 0, 0, [])
  {
    if turns != [] {
      hide Step, Evaluated, Incidents.Marked, Incidents.IncidentsIn, Incidents.AfterMark, OverGap;
      var last := turns[|turns| - 1];
      TurnIsStep(cfg, turns);
      EvidenceIsBounded(cfg, turns[..|turns| - 1]);
      if cfg.rule.Changed? || cfg.rule.NewEvent? {
        SignalCountsNothing(cfg, Addressed(last), last.o);
      } else {
        Incidents.StepMovesCounters(cfg, Addressed(last), last.o);
        BoundNext(cfg, last.before.counters, OverGap(cfg, Addressed(last), last.o),
                  Incidents.Marked(cfg, Addressed(last), last.o, last.t), last.o.seq_);
      }
    }
  }
}
