/**
  The condition evaluator (internal/condition/transition.go, internal/condition/signals.go):
  one observation of one entity turns the stored state into the next state and its events.

  Time is nanoseconds since Go's zero time, which is 0. Numbers are reals. Hashes of event
  identities are the identities themselves. Grouping, message rendering and the recognition of
  single conditions happen outside: an observation carries its group key, if it has one, and
  the kinds of event whose message template fails on it.
 */
module Evaluator {
  import opened Common
  import opened Expression

  type Time = nat

  datatype Value = Num(n: real) | Str(s: string) | Flag(b: bool) | Null | Nested(tag: int)

  datatype Rule =
    | Missing(missingFor: nat)
    | Changed(field: string)
    | NewEvent(field: string, dedupFor: nat)
    | Compared(field: string, op: Op, want: Value)
    | Numeric(field: string, expr: Expr)

  datatype Config = Config(rule: Rule, level: bool, consecutive: nat, recoverAfter: nat, interval: nat,
                           maxGap: nat, maxSamples: nat, match_: map<string, Value>)

  function MaxWindow(ws: seq<Window>): (w: int)
    ensures w >= 0 && forall i :: 0 <= i < |ws| ==> ws[i].window <= w
    ensures w == 0 || exists i :: 0 <= i < |ws| && ws[i].window == w
  {
    if ws == [] then 0
    else
      var rest := MaxWindow(ws[..|ws| - 1]);
      if ws[|ws| - 1].window > rest then ws[|ws| - 1].window else rest
  }

  // The longest window of a numeric condition, 0 for any other.
  function Span(cfg: Config): nat { if cfg.rule.Numeric? then MaxWindow(Windows(cfg.rule.expr)) else 0 }

  /** What New accepts: a compiled definition, whose windows the parser numbered from zero. */
  ghost predicate Compiled(cfg: Config) {
    && cfg.consecutive >= 1 && cfg.recoverAfter >= 1 && cfg.maxSamples >= 1
    && (cfg.rule.Changed? || cfg.rule.NewEvent? ==> cfg.level && cfg.consecutive == 1)
    && (cfg.rule.Numeric? ==>
          forall i :: 0 <= i < |Windows(cfg.rule.expr)| ==>
            var w := Windows(cfg.rule.expr)[i];
            w.id == i && w.window > 0 && !w.runBounded)
  }

  datatype Health = Ok | Unknown | Unchanged | Gap | Timer | Clock | Waiting

  datatype Kind = Firing | Recovered | ChangedSeen | NewSeen | SamplingGap | SourceError | SourceRecovered

  datatype Observation = Observation(seq_: int, at: Time, health: Health, detail: string, entity: string,
                                     deadline: Option<Time>, fields: map<string, Value>,
                                     groupKey: Option<string>, unrenderable: set<Kind>)

  datatype Sample = Sample(at: Time, value: real, seq_: int)

  datatype EventId = EventId(entity: string, kind: Kind, seq_: int)

  datatype Event = Event(id: EventId, at: Time, reason: string, evidence: seq<int>)

  // The stored state of an entity, in parts: the incident counters,
  datatype Counters = Counters(open: bool, matches: nat, recoveries: nat, evidence: seq<int>)

  // the rolling samples and the times before which a window is incomplete,
  datatype Store = Store(samples: seq<Sample>, overflowUntil: Time, clockUntil: Time)

  // the source's health and the event that announced it,
  datatype Source = Source(unhealthy: bool, event: Option<EventId>)

  // the missing-data deadline,
  datatype Deadline = Deadline(missingAt: Time, freshSeq: int)

  // and what change and new-event detection remember.
  datatype Signals = Signals(baseline: Option<Value>, baselineSeq: int, seen: map<string, Time>)

  datatype State = State(
    waiting: string, entity: string, lastAt: Time, lastSeq: int, lastFired: Time, incident: Option<EventId>,
    counters: Counters, store: Store, source: Source, deadline: Deadline, signals: Signals)

  const INITIAL := State("", "", 0, 0, 0, None, Counters(false, 0, 0, []), Store([], 0, 0), Source(false, None),
                         Deadline(0, 0), Signals(None, 0, map[]))

  datatype Transition = Transition(state: State, events: seq<Event>, known: bool, matched: bool, reason: string)

  // ---------- Comparing field values ----------

  // Whether the comparison is decidable, and its result.
  function Compare(actual: Value, op: Op, want: Value): (bool, bool) {
    if want.Num? then
      if actual.Num? then (true, CompareNumber(actual.n, op, want.n)) else (false, false)
    else if op != Eq && op != Ne then (false, false)
    else if !want.Null? && !SameType(actual, want) then (false, false)
    else (true, (actual == want) == (op == Eq))
  }

  /**
    A comparison with a number needs a number and goes by their distance; any other knows only
    equality, and needs a value of the same type unless it asks for null.
   */
  lemma CompareMeans(actual: Value, op: Op, want: Value)
    ensures var (known, holds) := Compare(actual, op, want);
            if want.Num? then (known <==> actual.Num?) && (known ==> (holds <==> Meets(op, actual.n - want.n)))
            else
              && (known <==> (op.Eq? || op.Ne?) && (want.Null? || SameType(actual, want)))
              && (known ==> (holds <==> if op.Eq? then actual == want else actual != want))
    ensures Compare(actual, Eq, want) == (true, true) <==> actual == want
  {
  }

  predicate SameType(a: Value, b: Value) {
    (a.Num? && b.Num?) || (a.Str? && b.Str?) || (a.Flag? && b.Flag?) || (a.Null? && b.Null?) || (a.Nested? && b.Nested?)
  }

  predicate Filtered(cfg: Config, o: Observation) {
    && !o.health.Timer? && !o.health.Unchanged?
    && exists k :: k in cfg.match_ && (k !in o.fields || Compare(o.fields[k], Eq, cfg.match_[k]) != (true, true))
  }

  // ---------- Aggregates over a window ----------

  function Total(values: seq<real>): real { if values == [] then 0.0 else Total(values[..|values| - 1]) + values[|values| - 1] }

  function Least(values: seq<real>): (m: real)
    requires values != []
    ensures m in values && forall v :: v in values ==> m <= v
  {
    var last := values[|values| - 1];
    if |values| == 1 then last
    else
      var m := Least(values[..|values| - 1]);
      assert values == values[..|values| - 1] + [last];
      if last < m then last else m
  }

  function Greatest(values: seq<real>): (m: real)
    requires values != []
    ensures m in values && forall v :: v in values ==> v <= m
  {
    var last := values[|values| - 1];
    if |values| == 1 then last
    else
      var m := Greatest(values[..|values| - 1]);
      assert values == values[..|values| - 1] + [last];
      if last > m then last else m
  }

  function Summary(f: Func, values: seq<real>): real
    requires values != []
  {
    match f
    case Count => |values| as real
    case Sum => Total(values)
    case Avg => Total(values) / |values| as real
    case Min => Least(values)
    case Max => Greatest(values)
  }

  /** What an aggregate is: how many, their sum, a value that times their number is the sum, or a member none is below or above. */
  ghost predicate IsAggregate(f: Func, values: seq<real>, r: real) {
    match f
    case Count => r == |values| as real
    case Sum => r == Total(values)
    case Avg => r * |values| as real == Total(values)
    case Min => r in values && forall v :: v in values ==> r <= v
    case Max => r in values && forall v :: v in values ==> v <= r
  }

  lemma SummaryAggregates(f: Func, values: seq<real>)
    requires values != []
    ensures IsAggregate(f, values, Summary(f, values))
  {
    if f.Avg? { DivisionUndone(Total(values), |values| as real); }
  }

  lemma DivisionUndone(a: real, b: real)
    requires b > 0.0
    ensures a / b * b == a
  {
  }

  /** A sum is the sum of its parts, and of one value that value. */
  lemma {:induction false} TotalAdds(a: seq<real>, b: seq<real>, v: real)
    ensures Total(a + b) == Total(a) + Total(b) && Total([v]) == v
  {
    assert [v][..0] == [] && Total([]) == 0.0;
    if b == [] {
      assert a + b == a;
    } else {
      assert (a + b)[..|a + b| - 1] == a + b[..|b| - 1];
      TotalAdds(a, b[..|b| - 1], v);
    }
  }

  method Aggregate(f: Func, values: seq<real>) returns (r: real)
    requires values != []
    ensures r == Summary(f, values) && IsAggregate(f, values, r)
  {
    SummaryAggregates(f, values);
    if f == Count { return |values| as real; }
    r := values[0];
    assert values[..1] == [values[0]];
    for i := 1 to |values|
      invariant f == Avg || f == Sum ==> r == Total(values[..i])
      invariant f == Min ==> r == Least(values[..i])
      invariant f == Max ==> r == Greatest(values[..i])
    {
      assert values[..i + 1][..i] == values[..i];
      if f == Min {
        if values[i] < r { r := values[i]; }
      } else if f == Max {
        if values[i] > r { r := values[i]; }
      } else {
        r := r + values[i];
      }
    }
    assert values[..|values|] == values;
    if f == Avg { r := r / |values| as real; }
  }

  // ---------- Samples in a window ----------

  predicate Inside(s: Sample, now: Time, window: int) { now - window < s.at <= now }

  function Recent(samples: seq<Sample>, now: Time, window: int): seq<Sample> {
    if samples == [] then []
    else
      var s := samples[|samples| - 1];
      Recent(samples[..|samples| - 1], now, window) + (if Inside(s, now, window) then [s] else [])
  }

  function Values(samples: seq<Sample>): (values: seq<real>)
    ensures |values| == |samples| && forall i :: 0 <= i < |samples| ==> values[i] == samples[i].value
  {
    if samples == [] then [] else Values(samples[..|samples| - 1]) + [samples[|samples| - 1].value]
  }

  /** The aggregate of each window of a condition, over the samples inside it. */
  function AggregatesOver(ws: seq<Window>, samples: seq<Sample>, now: Time): map<int, real> {
    if ws == [] then map[]
    else
      var w := ws[|ws| - 1];
      var values := Values(Recent(samples, now, w.window));
      var rest := AggregatesOver(ws[..|ws| - 1], samples, now);
      if values == [] then rest else rest[w.id := Summary(w.func, values)]
  }

  // ---------- Verdicts ----------

  datatype Verdict = Verdict(state: State, known: bool, matched: bool, reason: string)

  function JudgeMissing(d: nat, st: State, o: Observation): Verdict {
    if o.health.Timer? then
      var at := if st.deadline.missingAt == 0 && o.deadline.Some? then o.deadline.value else st.deadline.missingAt;
      var st := st.(deadline := st.deadline.(missingAt := at));
      if at == 0 then Verdict(st, false, false, "missing_deadline")
      else if o.deadline.Some? && at != o.deadline.value then Verdict(st, false, false, "stale_deadline")
      else Verdict(st, true, o.at >= at, "")
    else Verdict(st.(deadline := Deadline(o.at + d, o.seq_)), true, false, "")
  }

  function JudgeChange(st: State, v: Value, o: Observation): Verdict {
    if v.Nested? then Verdict(st, false, false, "wrong_field_type")
    else
      var s := st.signals;
      var changed := s.baseline.Some? && s.baseline.value != v;
      Verdict(st.(counters := st.counters.(evidence := if changed && s.baselineSeq > 0 then [s.baselineSeq] else []),
                  signals := s.(baseline := Some(v), baselineSeq := o.seq_)),
              true, changed, "")
  }

  function Unexpired(seen: map<string, Time>, now: Time): map<string, Time> {
    map id | id in seen && now < seen[id] :: seen[id]
  }

  // What is remembered after an ID is judged, whether the judgement is known, and whether the ID is new.
  function NewId(maxSamples: nat, d: nat, seen: map<string, Time>, id: string, now: Time): (map<string, Time>, bool, bool) {
    var seen := Unexpired(seen, now);
    if id in seen then (seen, true, false)
    else if |seen| >= maxSamples then (seen, false, false)
    else (seen[id := now + d], true, true)
  }

  predicate IsId(v: Value) { v.Str? && v.s != "" && |v.s| <= 256 }

  function JudgeNew(cfg: Config, d: nat, st: State, v: Value, o: Observation): Verdict {
    if !IsId(v) then Verdict(st, false, false, "event_id_must_be_a_nonempty_string_up_to_256_bytes")
    else
      var (seen, known, isNew) := NewId(cfg.maxSamples, d, st.signals.seen, v.s, o.at);
      Verdict(st.(signals := st.signals.(seen := seen)), known, isNew, if known then "" else "dedup_budget")
  }

  function Later(a: Time, b: Time): Time { if a > b then a else b }

  // Samples are pruned, and the new one stored or counted over budget; the flag says whether windows are complete.
  function StoreSample(span: nat, maxSamples: nat, s: Store, x: Sample): (Store, bool, string) {
    var kept := Recent(s.samples, x.at, span);
    if span > 0 && |kept| >= maxSamples then
      (s.(samples := kept, overflowUntil := Later(x.at + span, s.overflowUntil)), false, "window_sample_budget")
    else
      var s := s.(samples := if span > 0 then kept + [x] else kept);
      if x.at < s.clockUntil then (s, false, "clock_window_incomplete")
      else if x.at < s.overflowUntil then (s.(clockUntil := 0), false, "window_sample_budget")
      else (s.(clockUntil := 0, overflowUntil := 0), true, "")
  }

  function JudgeNumeric(cfg: Config, expr: Expr, st: State, v: Value, o: Observation): Verdict {
    if !v.Num? then Verdict(st, false, false, "wrong_field_type")
    else
      var (store, complete, reason) := StoreSample(Span(cfg), cfg.maxSamples, st.store, Sample(o.at, v.n, o.seq_));
      var st := st.(store := store);
      if !complete then Verdict(st, false, false, reason)
      else
        var aggregates := AggregatesOver(Windows(expr), store.samples, o.at);
        if exists i :: 0 <= i < |Windows(expr)| && Windows(expr)[i].id !in aggregates then
          Verdict(st, false, false, "empty_window")
        else Verdict(st, true, Eval(expr, Context(v.n, aggregates)), "")
  }

  function Judge(cfg: Config, st: State, o: Observation): Verdict {
    match cfg.rule
    case Missing(d) => JudgeMissing(d, st, o)
    case Changed(field) =>
      if field !in o.fields then Verdict(st, false, false, "missing_field") else JudgeChange(st, o.fields[field], o)
    case NewEvent(field, d) =>
      if field !in o.fields then Verdict(st, false, false, "missing_field") else JudgeNew(cfg, d, st, o.fields[field], o)
    case Compared(field, op, want) =>
      if field !in o.fields then Verdict(st, false, false, "missing_field")
      else
        var r := Compare(o.fields[field], op, want);
        Verdict(st, r.0, r.1, "wrong_field_type")
    case Numeric(field, expr) =>
      if field !in o.fields then Verdict(st, false, false, "missing_field")
      else JudgeNumeric(cfg, expr, st, o.fields[field], o)
  }

  // ---------- Events ----------

  ghost predicate Ascends(s: seq<int>) { forall i, j :: 0 <= i < j < |s| ==> s[i] < s[j] }

  // `x` put in its place, once.
  function Insert(s: seq<int>, x: int): (r: seq<int>)
    ensures forall y :: y in r <==> y in s || y == x
    ensures r != [] && (r[|r| - 1] == x || (s != [] && r[|r| - 1] == s[|s| - 1]))
  {
    if s == [] then [x]
    else
      var init, last := s[..|s| - 1], s[|s| - 1];
      assert s == init + [last];
      if x == last then s
      else if x > last then s + [x]
      else Insert(init, x) + [last]
  }

  /** The distinct members of a list in increasing order. */
  function Ascending(list: seq<int>): (r: seq<int>)
    ensures Ascends(r) && forall y :: y in r <==> y in list
  {
    if list == [] then []
    else
      assert list == list[..|list| - 1] + [list[|list| - 1]];
      var rest := Ascending(list[..|list| - 1]);
      InsertAscends(rest, list[|list| - 1]);
      Insert(rest, list[|list| - 1])
  }

  lemma {:induction false} InsertAscends(s: seq<int>, x: int)
    requires Ascends(s)
    ensures Ascends(Insert(s, x))
  {
    if s != [] && x < s[|s| - 1] {
      var init, last := s[..|s| - 1], s[|s| - 1];
      InsertAscends(init, x);
      var r := Insert(init, x);
      forall i | 0 <= i < |r| ensures r[i] < last { assert r[i] in r; }
    }
  }

  function SequencesOf(samples: seq<Sample>): seq<int> {
    if samples == [] then [] else SequencesOf(samples[..|samples| - 1]) + [samples[|samples| - 1].seq_]
  }

  /** The observations an event rests on, as they are collected. */
  function EvidenceOf(cfg: Config, st: State, o: Observation, kind: Kind): seq<int> {
    (if kind.Firing? || kind.Recovered? then
       (if cfg.rule.Missing? && st.deadline.freshSeq > 0 then [st.deadline.freshSeq] else []) + SequencesOf(st.store.samples)
     else [])
    + st.counters.evidence + [o.seq_]
  }

  function Emit(cfg: Config, st: State, o: Observation, kind: Kind, reason: string): (e: Event)
    ensures e.id == EventId(st.entity, kind, o.seq_) && e.at == o.at && e.reason == reason
    ensures Ascends(e.evidence) && o.seq_ in e.evidence
  {
    assert o.seq_ in EvidenceOf(cfg, st, o, kind);
    Event(EventId(st.entity, kind, o.seq_), o.at, reason, Ascending(EvidenceOf(cfg, st, o, kind)))
  }

  // ---------- One step ----------

  function Zero(c: Counters): Counters { Counters(c.open, 0, 0, []) }

  function Calm(st: State): State { st.(counters := Zero(st.counters)) }

  // The source's input is unknown: counters restart, the incident is held.
  function Hold(cfg: Config, st: State, o: Observation, reason: string, events: seq<Event>): Transition {
    var calm := Calm(st).(lastSeq := o.seq_, lastAt := Later(o.at, st.lastAt));
    if calm.source.unhealthy then Transition(calm, events, false, false, reason)
    else
      var e := Emit(cfg, calm, o, SourceError, reason);
      Transition(calm.(source := Source(true, Some(e.id))), events + [e], false, false, reason)
  }

  // IDs not yet expired stay suppressed for a full period from the new baseline.
  function Rebased(seen: map<string, Time>, lastAt: Time, expiry: Time): map<string, Time> {
    map id | id in seen && lastAt < seen[id] :: expiry
  }

  function MarkClock(cfg: Config, st: State, o: Observation): State {
    var st := st.(store := Store([], 0, if Span(cfg) > 0 then o.at + Span(cfg) else st.store.clockUntil),
                  lastFired := if st.lastFired != 0 then o.at else 0);
    var st := match cfg.rule
      case Missing(d) => st.(deadline := Deadline(o.at + d, 0))
      case NewEvent(_, d) => st.(signals := st.signals.(seen := Rebased(st.signals.seen, st.lastAt, o.at + d)))
      case _ => st;
    st.(lastAt := o.at)
  }

  predicate OverGap(cfg: Config, st: State, o: Observation) {
    !cfg.rule.Missing? && st.lastAt != 0 && cfg.maxGap > 0 && o.at - st.lastAt > cfg.maxGap
  }

  function Detail(o: Observation): string { if o.detail != "" then o.detail else "source_unknown" }

  // Seen and done with, without a verdict.
  function Pass(st: State, o: Observation): State { st.(lastAt := o.at, lastSeq := o.seq_) }

  function Wait(cfg: Config, st: State, o: Observation, events: seq<Event>): Transition {
    var st := Pass(Calm(st), o).(waiting := Detail(o));
    if st.source.unhealthy && o.detail != "collection_ended" then
      Transition(st.(source := Source(false, None)),
                 events + [Emit(cfg, st, o, SourceRecovered, "source_recovered")], false, false, st.waiting)
    else Transition(st, events, false, false, st.waiting)
  }

  predicate Due(cfg: Config, lastFired: Time, now: Time) { lastFired == 0 || now >= lastFired + cfg.interval }

  function Signal(cfg: Config, st: State, o: Observation, matched: bool, events: seq<Event>): Transition {
    var kind := if cfg.rule.Changed? then ChangedSeen else NewSeen;
    var reason := if cfg.rule.Changed? then "condition_changed" else "condition_new-event";
    var due := matched && Due(cfg, st.lastFired, o.at);
    var st' := Pass(st.(lastFired := if due then o.at else st.lastFired, counters := st.counters.(evidence := [])), o);
    Transition(st', if due then events + [Emit(cfg, st, o, kind, reason)] else events, true, matched, "")
  }

  // The counters after a match, before the incident opens.
  function Counted(cfg: Config, c: Counters, n: int): Counters {
    if c.matches < cfg.consecutive then Counters(c.open, c.matches + 1, 0, c.evidence + [n]) else c.(recoveries := 0)
  }

  function Match(cfg: Config, st: State, o: Observation, events: seq<Event>): Transition {
    var st := st.(counters := Counted(cfg, st.counters, o.seq_));
    var opening := Pass(st.(counters := st.counters.(open := true)), o);
    if st.counters.matches < cfg.consecutive then Transition(Pass(st, o), events, true, true, "")
    else if if cfg.level then Due(cfg, st.lastFired, o.at) else !st.counters.open then
      var e := Emit(cfg, st, o, Firing, "condition_matched");
      Transition(opening.(lastFired := o.at, incident := Some(e.id)), events + [e], true, true, "")
    else Transition(opening, events, true, true, "")
  }

  // The counters after a non-match of an open incident.
  function Recovering(c: Counters, n: int): Counters {
    Counters(c.open, 0, c.recoveries + 1, (if c.recoveries == 0 then [] else c.evidence) + [n])
  }

  function Mismatch(cfg: Config, st: State, o: Observation, events: seq<Event>): Transition {
    if !st.counters.open then Transition(Pass(Calm(st), o), events, true, false, "")
    else
      var st := st.(counters := Recovering(st.counters, o.seq_));
      if st.counters.recoveries >= cfg.recoverAfter then
        var e := Emit(cfg, st, o, Recovered, "condition_recovered");
        Transition(Pass(st.(counters := Counters(false, 0, 0, []), incident := None), o), events + [e], true, false, "")
      else Transition(Pass(st, o), events, true, false, "")
  }

  // After a verdict: the source is heard again, then the policy decides.
  function Decide(cfg: Config, st: State, o: Observation, matched: bool, events: seq<Event>): Transition {
    var heard := st.source.unhealthy && !o.health.Timer?;
    var events := if heard then events + [Emit(cfg, st, o, SourceRecovered, "source_recovered")] else events;
    var st := if heard then st.(source := Source(false, None)) else st;
    if cfg.rule.Changed? || cfg.rule.NewEvent? then Signal(cfg, st, o, matched, events)
    else if matched then Match(cfg, st, o, events)
    else Mismatch(cfg, st, o, events)
  }

  // Which of the ways through an evaluation an observation takes.
  datatype Way = ClockWay | BackWay | GapWay | SameWay | WaitWay | BadWay | FilteredWay | JudgedWay

  function WayOf(cfg: Config, st: State, o: Observation): Way {
    if o.health.Clock? then ClockWay
    else if st.lastAt != 0 && o.at < st.lastAt then BackWay
    else if o.health.Gap? then GapWay
    else if o.health.Unchanged? && !cfg.rule.Missing? then SameWay
    else if o.health.Waiting? && !cfg.rule.Missing? then WaitWay
    else if !o.health.Ok? && !(cfg.rule.Missing? && (o.health.Timer? || o.health.Unchanged?)) then BadWay
    else if Filtered(cfg, o) then FilteredWay
    else JudgedWay
  }

  // The state and events after the silence before this observation has been looked at.
  function Rested(cfg: Config, st: State, o: Observation): State { if OverGap(cfg, st, o) then Calm(st) else st }

  function GapEvents(cfg: Config, st: State, o: Observation): seq<Event> {
    if OverGap(cfg, st, o) then [Emit(cfg, Calm(st), o, SamplingGap, "sampling_gap")] else []
  }

  function Step(cfg: Config, st: State, o: Observation): Transition {
    match WayOf(cfg, st, o)
    case ClockWay => Hold(cfg, MarkClock(cfg, st, o), o, "clock_discontinuity", [])
    case BackWay => Hold(cfg, st, o, "clock_moved_backwards", [])
    case GapWay =>
      Transition(Pass(Calm(st), o), [Emit(cfg, Calm(st), o, SamplingGap, "sampling_gap")], false, false, "sampling_gap")
    case SameWay => Transition(Pass(Rested(cfg, st, o), o), GapEvents(cfg, st, o), false, false, "unchanged")
    case WaitWay => Wait(cfg, Rested(cfg, st, o), o, GapEvents(cfg, st, o))
    case BadWay => Hold(cfg, Rested(cfg, st, o), o, Detail(o), GapEvents(cfg, st, o))
    case FilteredWay => Transition(Pass(Rested(cfg, st, o), o), GapEvents(cfg, st, o), false, false, "filtered")
    case JudgedWay =>
      var v := Judge(cfg, Rested(cfg, st, o), o);
      if !v.known then Hold(cfg, v.state, o, v.reason, GapEvents(cfg, st, o))
      else Decide(cfg, v.state, o, v.matched, GapEvents(cfg, st, o))
  }

  // The entity an observation is about, or none if it is refused.
  function KeyOf(st: State, o: Observation): Option<string> {
    if o.groupKey.None? then None
    else
      var key := if o.health.Timer? && o.entity != "" then o.entity else o.groupKey.value;
      if st.entity == "" then Some(key)
      else if o.health.Ok? && st.entity != key then None
      else Some(st.entity)
  }

  predicate Templated(kind: Kind) { kind.Firing? || kind.Recovered? || kind.ChangedSeen? || kind.NewSeen? }

  /** One evaluation; none when it is refused, in which case nothing is committed. */
  function Evaluated(cfg: Config, previous: State, o: Observation, now: Time): Option<Transition> {
    if now == 0 || o.seq_ < 1 || now != o.at || o.seq_ <= previous.lastSeq || KeyOf(previous, o).None? then None
    else
      var t := Step(cfg, previous.(waiting := "", entity := KeyOf(previous, o).value), o);
      if exists e :: e in t.events && Templated(e.id.kind) && e.id.kind in o.unrenderable then None else Some(t)
  }

  // ---------- What the endings of a step leave alone ----------

  lemma HoldEffect(cfg: Config, st: State, o: Observation, reason: string, events: seq<Event>)
    ensures var t := Hold(cfg, st, o, reason, events);
            && !t.known && t.state.lastSeq == o.seq_ && t.state.lastAt == Later(o.at, st.lastAt)
            && t.state.lastFired == st.lastFired && t.state.store == st.store
            && t.state.deadline == st.deadline && t.state.signals == st.signals && t.state.entity == st.entity
  {
    hide Emit;
  }

  lemma WaitEffect(cfg: Config, st: State, o: Observation, events: seq<Event>)
    ensures var t := Wait(cfg, st, o, events);
            && !t.known && t.state.lastSeq == o.seq_ && t.state.lastAt == o.at
            && t.state.lastFired == st.lastFired && t.state.store == st.store
            && t.state.deadline == st.deadline && t.state.signals == st.signals && t.state.entity == st.entity
  {
    hide Emit;
  }

  lemma DecideEffect(cfg: Config, st: State, o: Observation, matched: bool, events: seq<Event>)
    ensures var t := Decide(cfg, st, o, matched, events);
            && t.known && t.matched == matched && t.state.lastSeq == o.seq_ && t.state.lastAt == o.at
            && t.state.store == st.store && t.state.deadline == st.deadline && t.state.signals == st.signals
            && t.state.entity == st.entity
  {
    hide Emit;
  }

  // ---------- Runs ----------

  // One committed evaluation.
  datatype Turn = Turn(before: State, o: Observation, t: Transition)

  function StateAfter(turns: seq<Turn>): State { if turns == [] then INITIAL else turns[|turns| - 1].t.state }

  /** Committed evaluations, each from the state the one before left; refused ones leave no trace. */
  ghost predicate IsRun(cfg: Config, turns: seq<Turn>) {
    turns != [] ==>
      var init, last := turns[..|turns| - 1], turns[|turns| - 1];
      && IsRun(cfg, init)
      && last.before == StateAfter(init)
      && Evaluated(cfg, last.before, last.o, last.o.at) == Some(last.t)
  }

  // The state an evaluation works on: the stored one, addressed to the observation's entity.
  function Addressed(turn: Turn): State {
    turn.before.(waiting := "", entity := if KeyOf(turn.before, turn.o).Some? then KeyOf(turn.before, turn.o).value else "")
  }

  lemma TurnIsStep(cfg: Config, turns: seq<Turn>)
    requires IsRun(cfg, turns) && turns != []
    ensures var init, last := turns[..|turns| - 1], turns[|turns| - 1];
            && IsRun(cfg, init) && last.before == StateAfter(init)
            && last.o.at > 0 && last.o.seq_ > last.before.lastSeq && last.o.seq_ >= 1
            && last.t == Step(cfg, Addressed(last), last.o)
  {
    hide Step;
  }

  // The turn an observation makes next.
  function NextTurn(cfg: Config, before: State, o: Observation): Turn
    requires KeyOf(before, o).Some?
  {
    Turn(before, o, Step(cfg, before.(waiting := "", entity := KeyOf(before, o).value), o))
  }

  /** No run is stuck: a positive, increasing, renderable observation of the run's entity always extends it. */
  lemma RunExtends(cfg: Config, turns: seq<Turn>, o: Observation)
    requires IsRun(cfg, turns)
    requires o.at > 0 && o.seq_ >= 1 && o.seq_ > StateAfter(turns).lastSeq && KeyOf(StateAfter(turns), o).Some?
    requires o.unrenderable == {}
    ensures IsRun(cfg, turns + [NextTurn(cfg, StateAfter(turns), o)])
  {
    hide Step;
    var all := turns + [NextTurn(cfg, StateAfter(turns), o)];
    assert all[..|all| - 1] == turns;
  }
}
