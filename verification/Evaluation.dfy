/**
  The evaluation of one observation as the program performs it (internal/condition/transition.go,
  internal/condition/signals.go): a copy of the state is changed field by field, samples and
  remembered IDs are filtered in loops, and events are appended as they happen. Each method is
  proved against the function of module Evaluator that the run properties are stated about.
 */
module Evaluation {
  import opened Common
  import opened Expression
  import opened Evaluator
  import SampleWindows

  // A condition as it is written: numeric ones are still text.
  datatype Clause = Ready(rule: Rule) | Written(field: string, text: string)

  // What New refuses: unusable limits, a signal with a counting policy, bad text, a window as long as the run, or a bad message.
  ghost predicate Refused(recognize: Recognizer, clause: Clause, level: bool, consecutive: nat, recoverAfter: nat, maxSamples: nat,
                          messageParses: bool) {
    || !messageParses || consecutive < 1 || recoverAfter < 1 || maxSamples < 1
    || (clause.Ready? && (clause.rule.Changed? || clause.rule.NewEvent?) && !(level && consecutive == 1))
    || (clause.Written? && (Tokens(clause.text).None? || exists t :: t in Tokens(clause.text).value && t.Atom? && Unusable(recognize, t.text)))
  }

  ghost predicate Unusable(recognize: Recognizer, text: string) {
    recognize(text).None? || (recognize(text).value.Windowed? && recognize(text).value.runBounded)
  }

  /** Whatever New accepts is compiled: evaluation meets its assumptions on every definition. */
  method New(recognize: Recognizer, clause: Clause, level: bool, consecutive: nat, recoverAfter: nat, interval: nat,
             maxGap: nat, maxSamples: nat, match_: map<string, Value>, messageParses: bool) returns (cfg: Option<Config>)
    requires PositiveWindows(recognize) && (clause.Ready? ==> !clause.rule.Numeric?)
    ensures cfg.None? <==> Refused(recognize, clause, level, consecutive, recoverAfter, maxSamples, messageParses)
    ensures cfg.Some? ==>
      && Compiled(cfg.value)
      && cfg.value == Config(cfg.value.rule, level, consecutive, recoverAfter, interval, maxGap, maxSamples, match_)
      && match clause
         case Ready(rule) => cfg.value.rule == rule
         case Written(field, text) =>
           && cfg.value.rule.Numeric? && cfg.value.rule.field == field && Normal(cfg.value.rule.expr)
           && Flatten(cfg.value.rule.expr) == Number(recognize, Tokens(text).value, 0)
  {
    hide Tokens, Flatten, Number, Normal;
    if clause.Ready? && (clause.rule.Changed? || clause.rule.NewEvent?) && (!level || consecutive != 1) { return None; }
    if consecutive < 1 || recoverAfter < 1 || maxSamples < 1 { return None; }
    if clause.Ready? {
      if !messageParses { return None; }
      return Some(Config(clause.rule, level, consecutive, recoverAfter, interval, maxGap, maxSamples, match_));
    }
    var e := ParseExpression(recognize, clause.text);
    if e.None? { return None; }
    var ws := Windows(e.value);
    ghost var ts := Tokens(clause.text).value;
    WindowIdsInOrder(recognize, ts, e.value);
    WindowsOfFlat(e.value);
    NumberedWindowsArePositive(recognize, ts, 0);
    WindowsComeFromTokens(recognize, ts, 0);
    for i := 0 to |ws|
      invariant forall k :: 0 <= k < i ==> !ws[k].runBounded
    {
      if ws[i].runBounded { return None; }
    }
    if !messageParses { return None; }
    assert forall w :: w in ws ==> !w.runBounded;
    cfg := Some(Config(Numeric(clause.field, e.value), level, consecutive, recoverAfter, interval, maxGap, maxSamples, match_));
  }

  // A window lasts as long as the run exactly when some operand says so.
  lemma {:induction false} WindowsComeFromTokens(recognize: Recognizer, ts: seq<Token>, first: nat)
    requires forall t :: t in ts && t.Atom? ==> recognize(t.text).Some?
    ensures (exists w :: w in WindowItems(Number(recognize, ts, first)) && w.runBounded)
       <==> exists t :: t in ts && t.Atom? && Unusable(recognize, t.text)
  {
    if ts != [] {
      var init, last := ts[..|ts| - 1], ts[|ts| - 1];
      assert ts == init + [last];
      WindowsComeFromTokens(recognize, init, first);
      var items := Number(recognize, ts, first);
      assert items[..|items| - 1] == Number(recognize, init, first);
      var before, it := WindowItems(Number(recognize, init, first)), items[|items| - 1];
      var added := if it.Operand? && it.c.Windowed? then [Window(it.id, it.c.func, it.c.window, it.c.runBounded)] else [];
      assert WindowItems(items) == before + added;
      assert forall w :: w in before + added <==> w in before || w in added;
      assert (exists w :: w in added && w.runBounded) <==> last.Atom? && Unusable(recognize, last.text) by {
        if last.Atom? && Unusable(recognize, last.text) { assert added[0] in added && added[0].runBounded; }
      }
    }
  }

  method Retain(samples: seq<Sample>, now: Time, window: int) returns (kept: seq<Sample>)
    ensures kept == Recent(samples, now, window)
  {
    kept := [];
    for i := 0 to |samples|
      invariant kept == Recent(samples[..i], now, window)
    {
      assert samples[..i + 1][..i] == samples[..i];
      if samples[i].at > now - window && samples[i].at <= now { kept := kept + [samples[i]]; }
    }
    assert samples[..|samples|] == samples;
  }

  // The aggregate of every window, or false at the first window without samples.
  method Windowed(ws: seq<Window>, samples: seq<Sample>, now: Time) returns (ok: bool, aggregates: map<int, real>)
    requires forall i :: 0 <= i < |ws| ==> ws[i].id == i
    ensures ok <==> forall i :: 0 <= i < |ws| ==> ws[i].id in AggregatesOver(ws, samples, now)
    ensures ok ==> aggregates == AggregatesOver(ws, samples, now)
  {
    hide Recent, Summary;
    ok, aggregates := true, map[];
    for i := 0 to |ws|
      invariant aggregates == AggregatesOver(ws[..i], samples, now)
      invariant forall k :: 0 <= k < i ==> Values(Recent(samples, now, ws[k].window)) != []
    {
      var inside := Retain(samples, now, ws[i].window);
      var values := Values(inside);
      SampleWindows.LeafAggregate(ws, samples, now, i);
      if |values| == 0 { return false, aggregates; }
      var a := Aggregate(ws[i].func, values);
      assert ws[..i + 1][..i] == ws[..i];
      aggregates := aggregates[ws[i].id := a];
    }
    assert ws[..|ws|] == ws;
    forall i | 0 <= i < |ws| ensures ws[i].id in AggregatesOver(ws, samples, now) {
      SampleWindows.LeafAggregate(ws, samples, now, i);
    }
  }

  // Expired IDs are deleted one by one, in any order.
  method DropExpired(seen: map<string, Time>, now: Time) returns (left: map<string, Time>)
    ensures left == Unexpired(seen, now)
  {
    left := seen;
    var todo := seen.Keys;
    while todo != {}
      invariant todo <= seen.Keys
      invariant left == map id | id in seen && (id in todo || now < seen[id]) :: seen[id]
      decreases |todo|
    {
      var id :| id in todo;
      todo := todo - {id};
      if now >= seen[id] { left := left - {id}; }
    }
  }

  method RebaseSeen(seen: map<string, Time>, lastAt: Time, expiry: Time) returns (left: map<string, Time>)
    ensures left == Rebased(seen, lastAt, expiry)
  {
    left := seen;
    var todo := seen.Keys;
    while todo != {}
      invariant todo <= seen.Keys
      invariant left == map id | id in seen && (id in todo || lastAt < seen[id]) :: if id in todo then seen[id] else expiry
      decreases |todo|
    {
      var id :| id in todo;
      todo := todo - {id};
      if lastAt >= seen[id] { left := left - {id}; } else { left := left[id := expiry]; }
    }
  }

  method Judged(cfg: Config, previous: State, o: Observation) returns (state: State, known: bool, matched: bool, reason: string)
    requires Compiled(cfg)
    ensures Verdict(state, known, matched, reason) == Judge(cfg, previous, o)
  {
    hide Compare, StoreSample, NewId, AggregatesOver, Eval, Windows, MaxWindow;
    state := previous;
    match cfg.rule {
      case Missing(d) =>
        if o.health.Timer? {
          if state.deadline.missingAt == 0 && o.deadline.Some? {
            state := state.(deadline := state.deadline.(missingAt := o.deadline.value));
          }
          if state.deadline.missingAt == 0 { return state, false, false, "missing_deadline"; }
          if o.deadline.Some? && state.deadline.missingAt != o.deadline.value { return state, false, false, "stale_deadline"; }
          return state, true, o.at >= state.deadline.missingAt, "";
        }
        state := state.(deadline := Deadline(o.at + d, o.seq_));
        return state, true, false, "";
      case Changed(field) =>
        if field !in o.fields { return state, false, false, "missing_field"; }
        var v := o.fields[field];
        if v.Nested? { return state, false, false, "wrong_field_type"; }
        var changed := state.signals.baseline.Some? && state.signals.baseline.value != v;
        state := state.(counters := state.counters.(evidence := []));
        if changed && state.signals.baselineSeq > 0 {
          state := state.(counters := state.counters.(evidence := [state.signals.baselineSeq]));
        }
        state := state.(signals := state.signals.(baseline := Some(v), baselineSeq := o.seq_));
        return state, true, changed, "";
      case NewEvent(field, d) =>
        if field !in o.fields { return state, false, false, "missing_field"; }
        if !IsId(o.fields[field]) {
          return state, false, false, "event_id_must_be_a_nonempty_string_up_to_256_bytes";
        }
        var seen;
        seen, known, matched := Remember(cfg.maxSamples, d, state.signals.seen, o.fields[field].s, o.at);
        state := state.(signals := state.signals.(seen := seen));
        reason := if known then "" else "dedup_budget";
        return;
      case Compared(field, op, want) =>
        if field !in o.fields { return state, false, false, "missing_field"; }
        var r := Compare(o.fields[field], op, want);
        return state, r.0, r.1, "wrong_field_type";
      case Numeric(field, expr) =>
        if field !in o.fields { return state, false, false, "missing_field"; }
        if !o.fields[field].Num? { return state, false, false, "wrong_field_type"; }
        var store, complete;
        store, complete, reason := Keep(Span(cfg), cfg.maxSamples, state.store, Sample(o.at, o.fields[field].n, o.seq_));
        state := state.(store := store);
        if !complete { return state, false, false, reason; }
        var ok, aggregates := Windowed(Windows(expr), store.samples, o.at);
        if !ok { return state, false, false, "empty_window"; }
        return state, true, Eval(expr, Context(o.fields[field].n, aggregates)), "";
    }
  }

  method Remember(maxSamples: nat, d: nat, seen: map<string, Time>, id: string, now: Time)
    returns (left: map<string, Time>, known: bool, isNew: bool)
    ensures (left, known, isNew) == NewId(maxSamples, d, seen, id, now)
  {
    left := DropExpired(seen, now);
    if id in left && now < left[id] { return left, true, false; }
    if |left| >= maxSamples { return left, false, false; }
    left := left[id := now + d];
    return left, true, true;
  }

  // A new sample: prune, check the budget, store, and see whether the windows are complete.
  method Keep(span: nat, maxSamples: nat, s: Store, x: Sample) returns (store: Store, complete: bool, reason: string)
    ensures (store, complete, reason) == StoreSample(span, maxSamples, s, x)
  {
    hide Recent;
    var kept := Retain(s.samples, x.at, span);
    store := s.(samples := kept);
    if span > 0 {
      if |kept| >= maxSamples {
        var until := x.at + span;
        if until > store.overflowUntil { store := store.(overflowUntil := until); }
        return store, false, "window_sample_budget";
      }
      store := store.(samples := kept + [x]);
    }
    if x.at < store.clockUntil { return store, false, "clock_window_incomplete"; }
    store := store.(clockUntil := 0);
    if x.at < store.overflowUntil { return store, false, "window_sample_budget"; }
    store := store.(overflowUntil := 0);
    return store, true, "";
  }

  // The evidence of an event: what the state remembers, without repeats, in order.
  method Gather(cfg: Config, st: State, o: Observation, kind: Kind) returns (evidence: seq<int>)
    ensures evidence == Ascending(EvidenceOf(cfg, st, o, kind))
  {
    hide Ascending, SequencesOf;
    var list := [];
    if kind == Firing || kind == Recovered {
      if cfg.rule.Missing? && st.deadline.freshSeq > 0 { list := list + [st.deadline.freshSeq]; }
      list := list + SequencesOf(st.store.samples);
    }
    list := list + st.counters.evidence;
    list := list + [o.seq_];
    assert list == EvidenceOf(cfg, st, o, kind);
    evidence := Sorted(list);
  }

  // Each sequence once, in increasing order.
  method Sorted(list: seq<int>) returns (r: seq<int>)
    ensures r == Ascending(list)
  {
    hide Insert;
    r := [];
    for i := 0 to |list|
      invariant r == Ascending(list[..i])
    {
      assert list[..i + 1][..i] == list[..i] && list[..i + 1][i] == list[i];
      r := Insert(r, list[i]);
    }
    assert list[..|list|] == list;
  }

  method Announce(cfg: Config, st: State, o: Observation, kind: Kind, reason: string) returns (e: Event)
    ensures e == Emit(cfg, st, o, kind, reason)
  {
    var evidence := Gather(cfg, st, o, kind);
    e := Event(EventId(st.entity, kind, o.seq_), o.at, reason, evidence);
  }

  method HoldIncident(cfg: Config, st: State, o: Observation, reason: string, events: seq<Event>) returns (t: Transition)
    ensures t == Hold(cfg, st, o, reason, events)
  {
    hide Emit;
    var state := st.(counters := st.counters.(matches := 0, recoveries := 0, evidence := []));
    state := state.(lastSeq := o.seq_);
    if o.at > state.lastAt { state := state.(lastAt := o.at); }
    var all := events;
    if !state.source.unhealthy {
      var e := Announce(cfg, state, o, SourceError, reason);
      all := all + [e];
      state := state.(source := Source(true, Some(e.id)));
    }
    t := Transition(state, all, false, false, reason);
  }

  method MarkDiscontinuity(cfg: Config, st: State, o: Observation) returns (state: State)
    ensures state == MarkClock(cfg, st, o)
  {
    hide Rebased;
    state := st.(store := st.store.(samples := [], overflowUntil := 0));
    if Span(cfg) > 0 { state := state.(store := state.store.(clockUntil := o.at + Span(cfg))); }
    if state.lastFired != 0 { state := state.(lastFired := o.at); }
    if cfg.rule.Missing? {
      state := state.(deadline := Deadline(o.at + cfg.rule.missingFor, 0));
    } else if cfg.rule.NewEvent? {
      var seen := RebaseSeen(state.signals.seen, state.lastAt, o.at + cfg.rule.dedupFor);
      state := state.(signals := state.signals.(seen := seen));
    }
    state := state.(lastAt := o.at);
  }

  method AwaitRecords(cfg: Config, st: State, o: Observation, events: seq<Event>) returns (t: Transition)
    ensures t == Wait(cfg, st, o, events)
  {
    hide Emit;
    var state := st.(counters := st.counters.(matches := 0, recoveries := 0, evidence := []));
    state := state.(waiting := Detail(o), lastAt := o.at, lastSeq := o.seq_);
    var all := events;
    if state.source.unhealthy && o.detail != "collection_ended" {
      var e := Announce(cfg, state, o, SourceRecovered, "source_recovered");
      all := all + [e];
      state := state.(source := Source(false, None));
    }
    t := Transition(state, all, false, false, state.waiting);
  }

  method ApplyPolicy(cfg: Config, st: State, o: Observation, matched: bool, events: seq<Event>) returns (t: Transition)
    ensures t == Decide(cfg, st, o, matched, events)
  {
    hide Emit;
    var state, all := st, events;
    if state.source.unhealthy && !o.health.Timer? {
      var e := Announce(cfg, state, o, SourceRecovered, "source_recovered");
      all := all + [e];
      state := state.(source := Source(false, None));
    }
    if cfg.rule.Changed? || cfg.rule.NewEvent? {
      if matched && (state.lastFired == 0 || o.at >= state.lastFired + cfg.interval) {
        var kind := if cfg.rule.Changed? then ChangedSeen else NewSeen;
        var reason := if cfg.rule.Changed? then "condition_changed" else "condition_new-event";
        var e := Announce(cfg, state, o, kind, reason);
        all := all + [e];
        state := state.(lastFired := o.at);
      }
      state := state.(counters := state.counters.(evidence := []));
    } else if matched {
      state, all := Matched(cfg, state, o, all);
    } else {
      state, all := Unmatched(cfg, state, o, all);
    }
    t := Transition(state.(lastAt := o.at, lastSeq := o.seq_), all, true, matched, "");
  }

  method Matched(cfg: Config, st: State, o: Observation, events: seq<Event>) returns (state: State, all: seq<Event>)
    ensures var t := Match(cfg, st, o, events); all == t.events && state.(lastAt := o.at, lastSeq := o.seq_) == t.state
  {
    hide Emit;
    all := events;
    state := st.(counters := st.counters.(recoveries := 0));
    if state.counters.matches < cfg.consecutive {
      state := state.(counters := state.counters.(matches := state.counters.matches + 1,
                                                  evidence := state.counters.evidence + [o.seq_]));
    }
    if state.counters.matches >= cfg.consecutive {
      var eligible := !state.counters.open;
      if cfg.level { eligible := state.lastFired == 0 || o.at >= state.lastFired + cfg.interval; }
      if eligible {
        var e := Announce(cfg, state, o, Firing, "condition_matched");
        all := all + [e];
        state := state.(lastFired := o.at, incident := Some(e.id));
      }
      state := state.(counters := state.counters.(open := true));
    }
  }

  method Unmatched(cfg: Config, st: State, o: Observation, events: seq<Event>) returns (state: State, all: seq<Event>)
    ensures var t := Mismatch(cfg, st, o, events); all == t.events && state.(lastAt := o.at, lastSeq := o.seq_) == t.state
  {
    hide Emit;
    all := events;
    state := st.(counters := st.counters.(matches := 0));
    if state.counters.open {
      if state.counters.recoveries == 0 { state := state.(counters := state.counters.(evidence := [])); }
      state := state.(counters := state.counters.(recoveries := state.counters.recoveries + 1,
                                                  evidence := state.counters.evidence + [o.seq_]));
      if state.counters.recoveries >= cfg.recoverAfter {
        var e := Announce(cfg, state, o, Recovered, "condition_recovered");
        all := all + [e];
        state := state.(incident := None, counters := Counters(false, state.counters.matches, 0, []));
      }
    } else {
      state := state.(counters := state.counters.(recoveries := 0, evidence := []));
    }
  }

  method Run(cfg: Config, st: State, o: Observation) returns (t: Transition)
    requires Compiled(cfg)
    ensures t == Step(cfg, st, o)
  {
    hide Emit, Hold, Wait, Decide, Judge, MarkClock, Filtered, Compiled;
    var state, events := st, [];
    if o.health.Clock? {
      state := MarkDiscontinuity(cfg, state, o);
      t := HoldIncident(cfg, state, o, "clock_discontinuity", events);
      return;
    }
    if state.lastAt != 0 && o.at < state.lastAt {
      t := HoldIncident(cfg, state, o, "clock_moved_backwards", events);
      return;
    }
    if o.health.Gap? {
      state := state.(counters := state.counters.(matches := 0, recoveries := 0, evidence := []));
      var e := Announce(cfg, state, o, SamplingGap, "sampling_gap");
      return Transition(state.(lastAt := o.at, lastSeq := o.seq_), [e], false, false, "sampling_gap");
    }
    if !cfg.rule.Missing? && state.lastAt != 0 && cfg.maxGap > 0 && o.at - state.lastAt > cfg.maxGap {
      state := state.(counters := state.counters.(matches := 0, recoveries := 0, evidence := []));
      var e := Announce(cfg, state, o, SamplingGap, "sampling_gap");
      events := [e];
    }
    if o.health.Unchanged? && !cfg.rule.Missing? {
      return Transition(state.(lastAt := o.at, lastSeq := o.seq_), events, false, false, "unchanged");
    }
    if o.health.Waiting? && !cfg.rule.Missing? {
      t := AwaitRecords(cfg, state, o, events);
      return;
    }
    if !o.health.Ok? && !(cfg.rule.Missing? && (o.health.Timer? || o.health.Unchanged?)) {
      t := HoldIncident(cfg, state, o, Detail(o), events);
      return;
    }
    if Filtered(cfg, o) {
      return Transition(state.(lastAt := o.at, lastSeq := o.seq_), events, false, false, "filtered");
    }
    var known, matched, reason;
    state, known, matched, reason := Judged(cfg, state, o);
    if !known {
      t := HoldIncident(cfg, state, o, reason, events);
      return;
    }
    t := ApplyPolicy(cfg, state, o, matched, events);
  }

  /** One evaluation, refused or carried out, exactly as the run properties assume it. */
  method Evaluate(cfg: Config, previous: State, o: Observation, now: Time) returns (r: Option<Transition>)
    requires Compiled(cfg)
    ensures r == Evaluated(cfg, previous, o, now)
  {
    hide Step;
    if now == 0 || o.seq_ < 1 || now != o.at { return None; }
    if o.seq_ <= previous.lastSeq { return None; }
    if o.groupKey.None? { return None; }
    var key := o.groupKey.value;
    if o.health.Timer? && o.entity != "" { key := o.entity; }
    if previous.entity != "" {
      if o.health.Ok? && previous.entity != key { return None; }
      key := previous.entity;
    }
    var t := Run(cfg, previous.(waiting := "", entity := key), o);
    for i := 0 to |t.events|
      invariant forall k :: 0 <= k < i ==> !(Templated(t.events[k].id.kind) && t.events[k].id.kind in o.unrenderable)
    {
      if Templated(t.events[i].id.kind) && t.events[i].id.kind in o.unrenderable { return None; }
    }
    r := Some(t);
  }
}
