/**
  New-event deduplication over every run (internal/condition/signals.go:38-58,
  internal/condition/transition.go:222-231): an ID is new exactly when it was not matched
  within the last dedup period, across clock jumps and under a bounded memory.
 */
module Dedup {
  import opened Common
  import opened Evaluator

  // What happened since the last clock marker: matched IDs, and those carried over from before it.
  datatype Memory = Memory(hits: seq<(string, Time)>, carried: set<string>, markedAt: Time)

  const NOTHING := Memory([], {}, 0)

  /** An ID matched within the period, or unexpired when the clock jumped and jumped within the period. */
  ghost predicate Suppressed(d: nat, m: Memory, id: string, now: Time) {
    || (exists i :: 0 <= i < |m.hits| && m.hits[i].0 == id && now < m.hits[i].1 + d)
    || (id in m.carried && now < m.markedAt + d)
  }

  ghost function Ids(m: Memory): set<string> { (set i | 0 <= i < |m.hits| :: m.hits[i].0) + m.carried }

  ghost function StillSuppressed(d: nat, m: Memory, at: Time): set<string> {
    set id | id in Ids(m) && Suppressed(d, m, id, at)
  }

  // The ID an observation asks about, if it gets that far.
  function AskedId(cfg: Config, turn: Turn): Option<string> {
    if WayOf(cfg, Addressed(turn), turn.o).JudgedWay? && cfg.rule.NewEvent? && cfg.rule.field in turn.o.fields
       && turn.o.fields[cfg.rule.field].Str? && 1 <= |turn.o.fields[cfg.rule.field].s| <= 256
    then Some(turn.o.fields[cfg.rule.field].s)
    else None
  }

  ghost function Remembered(cfg: Config, turns: seq<Turn>): Memory
    requires cfg.rule.NewEvent?
  {
    if turns == [] then NOTHING
    else
      var m, last := Remembered(cfg, turns[..|turns| - 1]), turns[|turns| - 1];
      if last.o.health.Clock? then
        Memory([], StillSuppressed(cfg.rule.dedupFor, m, last.before.lastAt), last.o.at)
      else if AskedId(cfg, last).Some? && last.t.known && last.t.matched then
        m.(hits := m.hits + [(AskedId(cfg, last).value, last.o.at)])
      else m
  }

  /** The stored IDs suppress, from the last accepted time on, exactly what was matched. */
  ghost predicate SeenOk(d: nat, seen: map<string, Time>, m: Memory, lastAt: Time) {
    forall id: string, now: Time :: now >= lastAt ==> ((id in seen && now < seen[id]) <==> Suppressed(d, m, id, now))
  }

  lemma NewIdAnswers(d: nat, maxSamples: nat, seen: map<string, Time>, m: Memory, lastAt: Time, id: string, now: Time)
    requires SeenOk(d, seen, m, lastAt) && now >= lastAt
    ensures var (seen', known, isNew) := NewId(maxSamples, d, seen, id, now);
            && (known ==> (isNew <==> !Suppressed(d, m, id, now)))
            && (isNew ==> known)
            && SeenOk(d, seen', if isNew then m.(hits := m.hits + [(id, now)]) else m, now)
            && (|seen| <= maxSamples ==> |seen'| <= maxSamples)
  {
    var seen1 := Unexpired(seen, now);
    assert seen1.Keys <= seen.Keys;
    SubsetSize(seen1.Keys, seen.Keys);
    assert Suppressed(d, m, id, now) <==> id in seen1;
    assert SeenOk(d, seen1, m, now);
    if id !in seen1 {
      var m' := m.(hits := m.hits + [(id, now)]);
      forall x: string, t: Time | t >= now
        ensures Suppressed(d, m', x, t) <==> Suppressed(d, m, x, t) || (x == id && t < now + d)
      {
        HitAdded(d, m, id, now, x, t);
      }
      assert forall t: Time :: t >= now ==> !Suppressed(d, m, id, t);
      if |seen1| < maxSamples {
        var seen' := seen1[id := now + d];
        forall x: string, t: Time | t >= now ensures (x in seen' && t < seen'[x]) <==> Suppressed(d, m', x, t) {
          assert (x in seen1 && t < seen1[x]) <==> Suppressed(d, m, x, t);
        }
      }
    }
  }

  // The memory has room for an ID it suppresses already, or for one more.
  lemma NewIdIsKnown(d: nat, maxSamples: nat, seen: map<string, Time>, m: Memory, lastAt: Time, id: string, now: Time)
    requires SeenOk(d, seen, m, lastAt) && now >= lastAt
    ensures NewId(maxSamples, d, seen, id, now).1 <==>
              Suppressed(d, m, id, now) || |StillSuppressed(d, m, now)| < maxSamples
  {
    forall x ensures x in Unexpired(seen, now) <==> x in StillSuppressed(d, m, now) {
      assert (x in seen && now < seen[x]) <==> Suppressed(d, m, x, now);
    }
    assert Unexpired(seen, now).Keys == StillSuppressed(d, m, now);
  }

  lemma SubsetSize(a: set<string>, b: set<string>)
    requires a <= b
    ensures |a| <= |b|
  {
    assert b == a + (b - a);
  }

  lemma HitAdded(d: nat, m: Memory, id: string, at: Time, x: string, t: Time)
    ensures Suppressed(d, m.(hits := m.hits + [(id, at)]), x, t) <==> Suppressed(d, m, x, t) || (x == id && t < at + d)
  {
    var hits := m.hits + [(id, at)];
    assert hits[|m.hits|] == (id, at);
    assert forall i :: 0 <= i < |m.hits| ==> hits[i] == m.hits[i];
  }

  lemma MarkerCarries(d: nat, seen: map<string, Time>, m: Memory, lastAt: Time, at: Time)
    requires SeenOk(d, seen, m, lastAt)
    ensures SeenOk(d, Rebased(seen, lastAt, at + d), Memory([], StillSuppressed(d, m, lastAt), at), at)
    ensures |Rebased(seen, lastAt, at + d)| <= |seen|
  {
    var seen' := Rebased(seen, lastAt, at + d);
    assert seen'.Keys <= seen.Keys;
    SubsetSize(seen'.Keys, seen.Keys);
    var m' := Memory([], StillSuppressed(d, m, lastAt), at);
    forall id: string, now: Time | now >= at ensures (id in seen' && now < seen'[id]) <==> Suppressed(d, m', id, now) {
      assert (id in seen && lastAt < seen[id]) <==> Suppressed(d, m, id, lastAt);
    }
  }

  // ---------- Every run ----------

  lemma JudgeSeen(cfg: Config, st: State, o: Observation)
    requires cfg.rule.NewEvent?
    ensures var v := Judge(cfg, st, o);
            if cfg.rule.field in o.fields && IsId(o.fields[cfg.rule.field]) then
              var r := NewId(cfg.maxSamples, cfg.rule.dedupFor, st.signals.seen, o.fields[cfg.rule.field].s, o.at);
              v.state.signals.seen == r.0 && v.known == r.1 && v.matched == r.2
            else v.state.signals.seen == st.signals.seen && !v.known
  {
    hide NewId;
  }

  // What a step does to the remembered IDs, to the last accepted time, and which verdicts are known.
  lemma StepSeen(cfg: Config, turn: Turn)
    requires cfg.rule.NewEvent? && turn.t == Step(cfg, Addressed(turn), turn.o)
    ensures var way, seen := WayOf(cfg, Addressed(turn), turn.o), turn.t.state.signals.seen;
            var d := cfg.rule.dedupFor;
            && turn.t.state.lastAt == (if way.BackWay? then turn.before.lastAt else turn.o.at)
            && (turn.t.known ==> AskedId(cfg, turn).Some?)
            && if way.ClockWay? then seen == Rebased(turn.before.signals.seen, turn.before.lastAt, turn.o.at + d) && !turn.t.known
               else if AskedId(cfg, turn).Some? then
                 var r := NewId(cfg.maxSamples, d, turn.before.signals.seen, AskedId(cfg, turn).value, turn.o.at);
                 seen == r.0 && turn.t.known == r.1 && (r.1 ==> turn.t.matched == r.2)
               else seen == turn.before.signals.seen
  {
    hide Emit, Judge, NewId, Filtered, GapEvents, OverGap, Hold, Wait, Decide, Rebased;
    var st, o := Addressed(turn), turn.o;
    var rested, events := Rested(cfg, st, o), GapEvents(cfg, st, o);
    var v := Judge(cfg, rested, o);
    JudgeSeen(cfg, rested, o);
    JudgeKeepsTime(cfg, rested, o);
    HoldEffect(cfg, MarkClock(cfg, st, o), o, "clock_discontinuity", []);
    HoldEffect(cfg, st, o, "clock_moved_backwards", []);
    HoldEffect(cfg, rested, o, Detail(o), events);
    HoldEffect(cfg, v.state, o, v.reason, events);
    WaitEffect(cfg, rested, o, events);
    DecideEffect(cfg, v.state, o, v.matched, events);
  }

  lemma JudgeKeepsTime(cfg: Config, st: State, o: Observation)
    requires cfg.rule.NewEvent?
    ensures Judge(cfg, st, o).state.lastAt == st.lastAt
  {
    hide NewId;
  }

  lemma {:induction false} RunSeen(cfg: Config, turns: seq<Turn>)
    requires Compiled(cfg) && cfg.rule.NewEvent? && IsRun(cfg, turns)
    ensures SeenOk(cfg.rule.dedupFor, StateAfter(turns).signals.seen, Remembered(cfg, turns), StateAfter(turns).lastAt)
    ensures |StateAfter(turns).signals.seen| <= cfg.maxSamples
  {
    var d := cfg.rule.dedupFor;
    if turns == [] {
      assert INITIAL.signals.seen == map[];
    } else {
      hide Step, SeenOk, NewId, Evaluated, Filtered, Rebased;
      var init, last := turns[..|turns| - 1], turns[|turns| - 1];
      TurnIsStep(cfg, turns);
      RunSeen(cfg, init);
      StepSeen(cfg, last);
      var seen, m, lastAt := last.before.signals.seen, Remembered(cfg, init), last.before.lastAt;
      if last.o.health.Clock? {
        MarkerCarries(d, seen, m, lastAt, last.o.at);
      } else if AskedId(cfg, last).Some? {
        NewIdAnswers(d, cfg.maxSamples, seen, m, lastAt, AskedId(cfg, last).value, last.o.at);
      } else {
        SeenLater(d, seen, m, lastAt, last.t.state.lastAt);
      }
    }
  }

  lemma SeenLater(d: nat, seen: map<string, Time>, m: Memory, lastAt: Time, at: Time)
    requires SeenOk(d, seen, m, lastAt) && at >= lastAt
    ensures SeenOk(d, seen, m, at)
  {
  }

  /**
    Dedup is exact: over every run a judged ID is new if and only if it is not suppressed by a
    match within the period, and IDs unexpired at a clock jump stay suppressed for a full
    period after it. The memory stays within its budget; beyond it the answer is unknown.
   */
  lemma DedupIsExact(cfg: Config, turns: seq<Turn>)
    requires Compiled(cfg) && cfg.rule.NewEvent? && IsRun(cfg, turns) && turns != []
    requires turns[|turns| - 1].t.known
    ensures var init, last := turns[..|turns| - 1], turns[|turns| - 1];
            && AskedId(cfg, last).Some?
            && (last.t.matched <==>
                  !Suppressed(cfg.rule.dedupFor, Remembered(cfg, init), AskedId(cfg, last).value, last.o.at))
            && |last.t.state.signals.seen| <= cfg.maxSamples
  {
    hide Step, SeenOk, NewId, Evaluated, Filtered, Rebased, Suppressed;
    var init, last := turns[..|turns| - 1], turns[|turns| - 1];
    TurnIsStep(cfg, turns);
    RunSeen(cfg, init);
    RunSeen(cfg, turns);
    StepSeen(cfg, last);
    NewIdAnswers(cfg.rule.dedupFor, cfg.maxSamples, last.before.signals.seen, Remembered(cfg, init), last.before.lastAt,
                 AskedId(cfg, last).value, last.o.at);
  }

  /**
    An event ID that is asked about is judged if and only if it is suppressed already or fewer than
    MaxSamples IDs are: the budget makes an answer unknown, never wrong.
   */
  lemma IdIsJudgedGivenRoom(cfg: Config, turns: seq<Turn>)
    requires Compiled(cfg) && cfg.rule.NewEvent? && IsRun(cfg, turns) && turns != []
    requires AskedId(cfg, turns[|turns| - 1]).Some?
    ensures var last, m := turns[|turns| - 1], Remembered(cfg, turns[..|turns| - 1]);
            var d := cfg.rule.dedupFor;
            last.t.known <==>
              Suppressed(d, m, AskedId(cfg, last).value, last.o.at) || |StillSuppressed(d, m, last.o.at)| < cfg.maxSamples
  {
    hide Step, SeenOk, NewId, Evaluated, WayOf, Rebased, Suppressed, StillSuppressed;
    var init, last := turns[..|turns| - 1], turns[|turns| - 1];
    TurnIsStep(cfg, turns);
    RunSeen(cfg, init);
    StepSeen(cfg, last);
    AskedInOrder(cfg, last);
    NewIdIsKnown(cfg.rule.dedupFor, cfg.maxSamples, last.before.signals.seen, Remembered(cfg, init), last.before.lastAt,
                 AskedId(cfg, last).value, last.o.at);
  }

  lemma AskedInOrder(cfg: Config, turn: Turn)
    requires AskedId(cfg, turn).Some?
    ensures turn.o.at >= turn.before.lastAt && WayOf(cfg, Addressed(turn), turn.o).JudgedWay?
  {
    hide Filtered;
  }
}
