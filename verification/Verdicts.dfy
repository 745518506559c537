/**
  Which observations an evaluation accepts, which it judges, and what a comparison decides
  (internal/condition/transition.go:114-133, 207-310, 401-404), stated order-free: by what an
  observation is, not by the order in which the program asks.
 */
module Verdicts {
  import opened Common
  import opened Expression
  import opened Evaluator
  import SampleWindows

  ghost predicate Backward(st: State, o: Observation) { st.lastAt != 0 && o.at < st.lastAt }

  /** Every field the definition asks for is there, with the value asked for. */
  ghost predicate Matches(cfg: Config, o: Observation) {
    forall k :: k in cfg.match_ ==> k in o.fields && o.fields[k] == cfg.match_[k]
  }

  // A missing-data rule also judges timers and unchanged sources; any other judges healthy observations only.
  ghost predicate Heard(cfg: Config, o: Observation) {
    o.health.Ok? || (cfg.rule.Missing? && (o.health.Timer? || o.health.Unchanged?))
  }

  /** The way an observation takes, by what it is. */
  lemma WaysMean(cfg: Config, st: State, o: Observation)
    ensures var way, back, missing := WayOf(cfg, st, o), Backward(st, o), cfg.rule.Missing?;
            && (way.ClockWay? <==> o.health.Clock?)
            && (way.BackWay? <==> !o.health.Clock? && back)
            && (way.GapWay? <==> o.health.Gap? && !back)
            && (way.SameWay? <==> o.health.Unchanged? && !missing && !back)
            && (way.WaitWay? <==> o.health.Waiting? && !missing && !back)
            && (way.BadWay? <==> !back && (o.health.Unknown? || (o.health.Timer? && !missing) || (o.health.Waiting? && missing)))
            && (way.FilteredWay? <==> !back && o.health.Ok? && !Matches(cfg, o))
            && (way.JudgedWay? <==> !back && Heard(cfg, o) && (o.health.Ok? ==> Matches(cfg, o)))
  {
    forall k | k in cfg.match_ && k in o.fields
      ensures Compare(o.fields[k], Eq, cfg.match_[k]) == (true, true) <==> o.fields[k] == cfg.match_[k]
    {
      CompareMeans(o.fields[k], Eq, cfg.match_[k]);
    }
    hide Compare;
  }

  /** A silence: more than maxGap since the last accepted time, where a gap matters. */
  lemma SilenceMeans(cfg: Config, st: State, o: Observation)
    ensures OverGap(cfg, st, o) <==>
              cfg.maxGap > 0 && st.lastAt > 0 && st.lastAt + cfg.maxGap < o.at && !cfg.rule.Missing?
  {
  }

  /** What is refused: no accepted time, no new sequence, no group, another entity's, or an event without a message. */
  lemma RefusalMeans(cfg: Config, st: State, o: Observation, now: Time)
    ensures Evaluated(cfg, st, o, now).None? <==>
              || now == 0 || now != o.at || o.seq_ < 1 || o.seq_ <= st.lastSeq || o.groupKey.None?
              || (st.entity != "" && o.health.Ok? && o.groupKey != Some(st.entity))
              || exists e :: e in Step(cfg, st.(waiting := "", entity := EntityOf(st, o)), o).events
                             && e.id.kind in o.unrenderable
                             && (e.id.kind.Firing? || e.id.kind.Recovered? || e.id.kind.ChangedSeen? || e.id.kind.NewSeen?)
  {
    hide Step;
  }

  // The entity an observation is filed under: the state's own, or else the one a timer names or the group.
  function EntityOf(st: State, o: Observation): string {
    if st.entity != "" then st.entity
    else if o.health.Timer? && o.entity != "" then o.entity
    else if o.groupKey.Some? then o.groupKey.value
    else ""
  }

  lemma StepKeepsEntity(cfg: Config, st: State, o: Observation)
    ensures Step(cfg, st, o).state.entity == st.entity
  {
    hide Emit, Hold, Wait, Decide, Judge, WayOf, GapEvents, OverGap;
    var rested, events := Rested(cfg, st, o), GapEvents(cfg, st, o);
    match WayOf(cfg, st, o) {
      case ClockWay => HoldEffect(cfg, MarkClock(cfg, st, o), o, "clock_discontinuity", []);
      case BackWay => HoldEffect(cfg, st, o, "clock_moved_backwards", []);
      case WaitWay => WaitEffect(cfg, rested, o, events);
      case BadWay => HoldEffect(cfg, rested, o, Detail(o), events);
      case JudgedWay =>
        var v := Judge(cfg, rested, o);
        JudgeKeepsEntity(cfg, rested, o);
        HoldEffect(cfg, v.state, o, v.reason, events);
        DecideEffect(cfg, v.state, o, v.matched, events);
      case _ =>
    }
  }

  lemma JudgeKeepsEntity(cfg: Config, st: State, o: Observation)
    ensures Judge(cfg, st, o).state.entity == st.entity
  {
    hide Compare, StoreSample, NewId, AggregatesOver, Eval;
  }

  /** An entity, once named, never changes, and no healthy observation of another is accepted. */
  lemma EntityIsFixed(cfg: Config, turns: seq<Turn>)
    requires IsRun(cfg, turns) && turns != []
    ensures var last := turns[|turns| - 1];
            && last.t.state.entity == EntityOf(last.before, last.o)
            && (last.before.entity != "" && last.o.health.Ok? ==> last.o.groupKey == Some(last.before.entity))
  {
    var last := turns[|turns| - 1];
    StepKeepsEntity(cfg, Addressed(last), last.o);
    hide Step;
  }

  /**
    A comparison over every run: a known verdict had its field and decides by distance from a
    number, or by equality; it is known exactly when the observation is judged and the values
    can be compared.
   */
  lemma ComparisonDecides(cfg: Config, turns: seq<Turn>)
    requires IsRun(cfg, turns) && turns != [] && cfg.rule.Compared?
    ensures var last, r := turns[|turns| - 1], cfg.rule;
            var judged := WayOf(cfg, Addressed(last), last.o).JudgedWay? && r.field in last.o.fields;
            && (last.t.known <==>
                  judged && (if r.want.Num? then last.o.fields[r.field].Num?
                             else (r.op.Eq? || r.op.Ne?) && (r.want.Null? || SameType(last.o.fields[r.field], r.want))))
            && (last.t.known ==>
                  var v := last.o.fields[r.field];
                  last.t.matched <==>
                    if r.want.Num? then Meets(r.op, v.n - r.want.n) else if r.op.Eq? then v == r.want else v != r.want)
  {
    var last, r := turns[|turns| - 1], cfg.rule;
    TurnIsStep(cfg, turns);
    if r.field in last.o.fields { CompareMeans(last.o.fields[r.field], r.op, r.want); }
    JudgedStep(cfg, Addressed(last), last.o);
    hide Step, Compare, WayOf, IsRun, Meets;
  }

  // A step is known exactly when it is judged and the judgement is.
  lemma JudgedStep(cfg: Config, st: State, o: Observation)
    ensures var t, v := Step(cfg, st, o), Judge(cfg, Rested(cfg, st, o), o);
            && (t.known <==> WayOf(cfg, st, o).JudgedWay? && v.known) && (t.known ==> t.matched == v.matched)
  {
    hide Emit, Hold, Wait, Decide, Judge, WayOf, GapEvents, OverGap;
    var rested, events := Rested(cfg, st, o), GapEvents(cfg, st, o);
    match WayOf(cfg, st, o) {
      case ClockWay => HoldEffect(cfg, MarkClock(cfg, st, o), o, "clock_discontinuity", []);
      case BackWay => HoldEffect(cfg, st, o, "clock_moved_backwards", []);
      case WaitWay => WaitEffect(cfg, rested, o, events);
      case BadWay => HoldEffect(cfg, rested, o, Detail(o), events);
      case JudgedWay =>
        var v := Judge(cfg, rested, o);
        HoldEffect(cfg, v.state, o, v.reason, events);
        DecideEffect(cfg, v.state, o, v.matched, events);
      case _ =>
    }
  }

  // ---------- Reasons ----------

  /** Why a judged observation got no verdict. */
  function WhyUnknown(cfg: Config, st: State, o: Observation): string {
    match cfg.rule
    case Missing(_) => if st.deadline.missingAt == 0 && !(o.deadline.Some? && o.deadline.value > 0) then "missing_deadline" else "stale_deadline"
    case Changed(field) => if field in o.fields then "wrong_field_type" else "missing_field"
    case Compared(field, _, _) => if field in o.fields then "wrong_field_type" else "missing_field"
    case NewEvent(field, _) =>
      if field !in o.fields then "missing_field"
      else if o.fields[field].Str? && 1 <= |o.fields[field].s| <= 256 then "dedup_budget"
      else "event_id_must_be_a_nonempty_string_up_to_256_bytes"
    case Numeric(field, _) =>
      if field !in o.fields then "missing_field"
      else if !o.fields[field].Num? then "wrong_field_type"
      else if o.at < st.store.clockUntil && (Span(cfg) == 0 || |Recent(st.store.samples, o.at, Span(cfg))| < cfg.maxSamples)
      then "clock_window_incomplete"
      else "window_sample_budget"
  }

  lemma JudgeReasons(cfg: Config, st: State, o: Observation)
    requires Compiled(cfg) && !Judge(cfg, st, o).known
    ensures Judge(cfg, st, o).reason == WhyUnknown(cfg, st, o)
  {
    SampleWindows.EmptyWindowUnreachable(cfg, st, o);
    hide Compare, Recent, AggregatesOver, Eval, Windows, Compiled, MaxWindow;
  }

  // The reason a transition gives.
  function ReasonOf(cfg: Config, st: State, o: Observation, known: bool): string {
    var detail := if o.detail == "" then "source_unknown" else o.detail;
    match WayOf(cfg, st, o)
    case ClockWay => "clock_discontinuity"
    case BackWay => "clock_moved_backwards"
    case GapWay => "sampling_gap"
    case SameWay => "unchanged"
    case WaitWay => detail
    case BadWay => detail
    case FilteredWay => "filtered"
    case JudgedWay => if known then "" else WhyUnknown(cfg, st, o)
  }

  lemma EndingReasons(cfg: Config, st: State, o: Observation, reason: string, matched: bool, events: seq<Event>)
    ensures Hold(cfg, st, o, reason, events).reason == reason && Wait(cfg, st, o, events).reason == Detail(o)
    ensures Wait(cfg, st, o, events).state.waiting == Detail(o) && Hold(cfg, st, o, reason, events).state.waiting == st.waiting
    ensures Decide(cfg, st, o, matched, events).reason == "" && Decide(cfg, st, o, matched, events).state.waiting == st.waiting
  {
    hide Emit;
  }

  lemma RestedIsJudgedAlike(cfg: Config, st: State, o: Observation)
    ensures WhyUnknown(cfg, Rested(cfg, st, o), o) == WhyUnknown(cfg, st, o)
  {
    hide Recent, OverGap;
  }

  lemma StepReasons(cfg: Config, st: State, o: Observation)
    requires Compiled(cfg)
    ensures Step(cfg, st, o).reason == ReasonOf(cfg, st, o, Step(cfg, st, o).known)
  {
    JudgedStep(cfg, st, o);
    hide Emit, Hold, Wait, Decide, Judge, WayOf, GapEvents, OverGap, WhyUnknown, Compiled;
    var rested, events := Rested(cfg, st, o), GapEvents(cfg, st, o);
    EndingReasons(cfg, MarkClock(cfg, st, o), o, "clock_discontinuity", false, []);
    EndingReasons(cfg, st, o, "clock_moved_backwards", false, []);
    EndingReasons(cfg, rested, o, Detail(o), false, events);
    if WayOf(cfg, st, o).JudgedWay? {
      var v := Judge(cfg, rested, o);
      EndingReasons(cfg, v.state, o, v.reason, v.matched, events);
      RestedIsJudgedAlike(cfg, st, o);
      if !v.known { JudgeReasons(cfg, rested, o); }
    }
  }

  /** Over every run a transition says why it has no verdict, and gives no reason for one. */
  lemma ReasonsMean(cfg: Config, turns: seq<Turn>)
    requires Compiled(cfg) && IsRun(cfg, turns) && turns != []
    ensures var last := turns[|turns| - 1]; last.t.reason == ReasonOf(cfg, Addressed(last), last.o, last.t.known)
  {
    hide Step, IsRun, ReasonOf, Compiled;
    TurnIsStep(cfg, turns);
    StepReasons(cfg, Addressed(turns[|turns| - 1]), turns[|turns| - 1].o);
  }
}
