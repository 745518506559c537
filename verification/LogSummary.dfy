/**
  Re-assessment of a published log summary (internal/logs/summary.go): a receiver validates a
  producer's counters and recomputes readiness from its own configuration. A summary that a
  window itself produced always passes while it is fresh, and nothing about it changes except,
  in one case, the stated reason.
 */
module LogSummary {
  import opened Common
  import opened LogWindow

  datatype Assessment = Refused | Assessed(summary: Summary)

  /** The largest integer a JSON number is sure to carry exactly (section 6 of RFC 8259). */
  const MAX_COUNT := TWO_53 - 1

  predicate InRange(s: Summary) {
    && 0 <= s.total <= MAX_COUNT && 0 <= s.classified <= MAX_COUNT && 0 <= s.unclassified <= MAX_COUNT
    && 0 <= s.warnings <= MAX_COUNT && 0 <= s.errors <= MAX_COUNT && 0 <= s.fatal <= MAX_COUNT
    && 0 <= s.invalid <= MAX_COUNT && 0 <= s.stdout <= MAX_COUNT && 0 <= s.stderr <= MAX_COUNT
    && 0 <= s.other <= MAX_COUNT && 0 <= s.dropped <= MAX_COUNT
  }

  function Counters(s: Summary): seq<int> {
    [s.total, s.classified, s.unclassified, s.warnings, s.errors, s.fatal,
     s.invalid, s.stdout, s.stderr, s.other, s.dropped]
  }

  lemma CountersInRange(s: Summary)
    ensures InRange(s) <==> forall k :: 0 <= k < 11 ==> 0 <= Counters(s)[k] <= MAX_COUNT
  {
    var n := Counters(s);
    assert n[0] == s.total && n[1] == s.classified && n[2] == s.unclassified && n[3] == s.warnings;
    assert n[4] == s.errors && n[5] == s.fatal && n[6] == s.invalid && n[7] == s.stdout;
    assert n[8] == s.stderr && n[9] == s.other && n[10] == s.dropped;
  }

  // Go's division truncates toward zero.
  function WholeSeconds(d: int): int { if d >= 0 then d / SECOND else -((-d) / SECOND) }

  predicate WindowFits(s: Summary, c: Config, now: int) {
    && s.version == 1 && s.windowSeconds == WholeSeconds(c.window)
    && s.windowStart == s.windowEnd - c.window && s.windowEnd == Sec(s.windowEnd) * SECOND
    && s.windowEnd <= now + SECOND && now < s.windowEnd + 3 * SECOND
  }

  predicate Consistent(s: Summary) {
    && s.classified + s.unclassified == s.total
    && s.warnings + s.errors + s.fatal <= s.classified
    && s.invalid <= s.unclassified
    && (s.stdout + s.stderr + s.other == 0 || s.stdout + s.stderr + s.other == s.total)
  }

  // The recomputed fields of an accepted summary.
  function Recomputed(s: Summary, c: Config, started: int): Summary {
    var s := if s.stdout + s.stderr + s.other == 0 then s.(other := s.total) else s;
    var s := s.(warningRatio := None, errorRatio := None, ready := false,
                coverage := Share(s.classified, s.total));
    if s.dropped > 0 then s.(complete := false, reason := CollectionGap)
    else if s.invalid > 0 then s.(complete := false, reason := InvalidRecords)
    else if s.windowStart < started then s.(complete := false, reason := WarmingUp)
    else if !s.complete then s.(reason := CollectionGap)
    else if s.total < c.minEvents then s.(reason := InsufficientRecords)
    else if s.coverage < c.minCoverage then s.(reason := InsufficientCoverage)
    else
      s.(ready := true, reason := IsReady,
         warningRatio := Ratio(s.warnings, s.total),
         errorRatio := Ratio(s.errors + s.fatal, s.total))
  }

  // At least the configured share of the records is classified.
  ghost predicate Covered(s: Summary, c: Config) {
    if s.total > 0 then s.classified as real >= c.minCoverage * s.total as real else c.minCoverage <= 0.0
  }

  /** What an accepted summary becomes: its own counts, with everything a producer could have claimed worked out again. */
  ghost predicate Reassessed(s: Summary, r: Summary, c: Config, started: int) {
    && r == s.(other := r.other, coverage := r.coverage, warningRatio := r.warningRatio, errorRatio := r.errorRatio,
               complete := r.complete, ready := r.ready, reason := r.reason)
    && r.stdout + r.stderr + r.other == r.total && (s.stdout + s.stderr + s.other != 0 ==> r.other == s.other)
    && RatiosMean(r) && Decided(s, r, c, started, Covered(s, c))
  }

  ghost predicate Decided(s: Summary, r: Summary, c: Config, started: int, covered: bool) {
    var filled, few := s.windowStart >= started, s.total < c.minEvents;
    && (r.complete <==> s.complete && s.dropped == 0 && s.invalid == 0 && filled)
    && (r.ready <==> r.complete && !few && covered)
    && (r.reason.IsReady? <==> r.ready)
    && (r.reason.InvalidRecords? <==> s.dropped == 0 && s.invalid > 0)
    && (r.reason.WarmingUp? <==> s.dropped == 0 && s.invalid == 0 && !filled)
    && (r.reason.CollectionGap? <==> s.dropped > 0 || (s.invalid == 0 && filled && !s.complete))
    && (r.reason.InsufficientRecords? <==> r.complete && few)
    && (r.reason.InsufficientCoverage? <==> r.complete && !few && !covered)
  }

  lemma RecomputedDecides(s: Summary, c: Config, started: int)
    requires InRange(s) && Consistent(s)
    ensures var r := Recomputed(s, c, started);
            && Decided(s, r, c, started, r.coverage >= c.minCoverage)
            && r.coverage == Share(s.classified, s.total)
            && (r.ready ==> r.warningRatio == Ratio(s.warnings, s.total) && r.errorRatio == Ratio(s.errors + s.fatal, s.total))
            && (!r.ready ==> r.warningRatio == r.errorRatio == None)
  {
    hide Ratio, Share;
  }

  lemma RecomputedKeeps(s: Summary, c: Config, started: int)
    requires InRange(s) && Consistent(s)
    ensures var r := Recomputed(s, c, started);
            && r == s.(other := r.other, coverage := r.coverage, warningRatio := r.warningRatio, errorRatio := r.errorRatio,
                       complete := r.complete, ready := r.ready, reason := r.reason)
            && r.stdout + r.stderr + r.other == r.total && (s.stdout + s.stderr + s.other != 0 ==> r.other == s.other)
  {
    hide Ratio, Share;
  }

  lemma RecomputedMeans(s: Summary, c: Config, started: int)
    requires InRange(s) && Consistent(s)
    ensures Reassessed(s, Recomputed(s, c, started), c, started)
  {
    hide Ratio, Share, Recomputed, Decided, Covered, RatiosMean;
    RecomputedDecides(s, c, started);
    RecomputedKeeps(s, c, started);
    CoveredMeans(s, c);
    RatiosFrom(Recomputed(s, c, started));
  }

  lemma CoveredMeans(s: Summary, c: Config)
    requires s.total >= 0
    ensures Covered(s, c) <==> Share(s.classified, s.total) >= c.minCoverage
  {
    hide Share;
    if s.total > 0 { SharesMean(s.classified, s.total, c.minCoverage); } else { NothingToShare(s.classified); }
  }

  method Assess(s: Summary, c: Config, started: int, now: int) returns (r: Assessment)
    ensures r.Assessed? <==> WindowFits(s, c, now) && Consistent(s) && InRange(s)
    ensures r.Assessed? ==>
      && s.total - s.classified == s.unclassified && s.classified - s.warnings >= s.errors + s.fatal && s.unclassified - s.invalid >= 0
      && (s.stdout == s.stderr == s.other == 0 || s.total - s.stdout == s.stderr + s.other)
      && s.version == 1 && s.windowEnd - s.windowStart == c.window && s.windowEnd % 1_000_000_000 == 0
      && -1_000_000_000 <= now - s.windowEnd < 3_000_000_000
    ensures r.Assessed? ==> forall k :: 0 <= k < 11 ==> 0 <= Counters(r.summary)[k] <= 9007199254740991
    ensures r.Assessed? ==> r.summary == Recomputed(s, c, started) && Reassessed(s, r.summary, c, started)
  {
    if InRange(s) && Consistent(s) { RecomputedMeans(s, c, started); }
    hide Reassessed;
    if s.version != 1 || s.windowSeconds != WholeSeconds(c.window) || s.windowStart != s.windowEnd - c.window
      || s.windowEnd != Sec(s.windowEnd) * SECOND || s.windowEnd > now + SECOND || now >= s.windowEnd + 3 * SECOND {
      return Refused;
    }
    var counters := Counters(s);
    CountersInRange(s);
    for i := 0 to |counters|
      invariant forall k :: 0 <= k < i ==> 0 <= counters[k] <= MAX_COUNT
    {
      if counters[i] < 0 || counters[i] > MAX_COUNT { return Refused; }
    }
    if s.classified + s.unclassified != s.total || s.warnings + s.errors + s.fatal > s.classified
      || s.invalid > s.unclassified {
      return Refused;
    }
    var channels := s.stdout + s.stderr + s.other;
    if channels != 0 && channels != s.total { return Refused; }
    var t := s;
    if channels == 0 { t := t.(other := t.total); }
    t := t.(warningRatio := None, errorRatio := None, ready := false, coverage := 0.0);
    if t.total > 0 { t := t.(coverage := t.classified as real / t.total as real); }
    if t.dropped > 0 {
      t := t.(complete := false, reason := CollectionGap);
    } else if t.invalid > 0 {
      t := t.(complete := false, reason := InvalidRecords);
    } else if t.windowStart < started {
      t := t.(complete := false, reason := WarmingUp);
    } else if !t.complete {
      t := t.(reason := CollectionGap);
    } else if t.total < c.minEvents {
      t := t.(reason := InsufficientRecords);
    } else if t.coverage < c.minCoverage {
      t := t.(reason := InsufficientCoverage);
    } else {
      t := t.(ready := true, reason := IsReady);
      t := t.(warningRatio := Ratio(t.warnings, t.total), errorRatio := Ratio(t.errors + t.fatal, t.total));
    }
    r := Assessed(t);
  }

  // ---------- What every bucket of a window keeps ----------

  ghost predicate Sound(c: Config, b: Bucket)
    requires c.Valid() && |b.counts| == 7 && |b.channels| == 3
  {
    && (forall l :: 0 <= l < 7 ==> b.counts[l] <= c.Limit())
    && b.dropped <= TWO_53 / c.Slots()
    && b.channels[0] + b.channels[1] + b.channels[2] == Get(b, Any)
    && b.invalid <= b.counts[UNCLASSIFIED]
  }

  ghost predicate AllSound(w: Ring)
    requires w.Shaped()
  {
    forall b :: b in w.buckets ==> Sound(w.c, b)
  }

  // Every record marked invalid is also unclassified, as the parser's classifications are.
  ghost predicate InvalidUnclassified(r: Record) {
    r.severity.invalid ==> r.severity.level == UNCLASSIFIED
  }

  lemma BumpedIsSound(c: Config, b: Bucket, r: Record)
    requires c.Valid() && |b.counts| == 7 && |b.channels| == 3 && Sound(c, b)
    requires b.counts[Normal(r.severity).level] < c.Limit() && InvalidUnclassified(r)
    ensures Sound(c, Bumped(b, r))
  {
    var b' := Bumped(b, r);
    assert Get(b', Any) == Get(b, Any) + 1;
  }

  lemma AddKeepsSound(w: Ring, r: Record)
    requires w.Shaped() && AllSound(w) && InvalidUnclassified(r)
    ensures AllSound(Added(w, r))
  {
    if r.severity.blank || r.at < w.last - w.c.window { return; }
    IndexIsFloorMod(Sec(r.at), w.c.Slots());
    var b := Opened(w, Sec(r.at));
    assert Sound(w.c, b);
    if b.counts[Normal(r.severity).level] < w.c.Limit() { BumpedIsSound(w.c, b, r); }
  }

  lemma DropKeepsSound(w: Ring, at: int)
    requires w.Shaped() && AllSound(w)
    ensures AllSound(Dropped(w, at))
  {
    IndexIsFloorMod(Sec(at), w.c.Slots());
    assert Sound(w.c, Opened(w, Sec(at)));
  }

  lemma {:induction false} HistoryIsSound(c: Config, start: int, ops: seq<Op>)
    requires c.Valid()
    requires forall op :: op in ops && op.Add? ==> InvalidUnclassified(op.record)
    ensures AllSound(Replay(c, start, ops))
  {
    if ops != [] {
      HistoryIsSound(c, start, ops[..|ops| - 1]);
      var w := Replay(c, start, ops[..|ops| - 1]);
      match ops[|ops| - 1] {
        case Add(r) => AddKeepsSound(w, r);
        case Drop(at) => DropKeepsSound(w, at);
        case Gap(_) =>
        case Reset(_) =>
      }
    }
  }

  // ---------- Totals of a window ----------

  lemma {:induction false} ChannelsAddUp(c: Config, bs: seq<Bucket>, lo: int, hi: int)
    requires c.Valid()
    requires forall b :: b in bs ==> |b.counts| == 7 && |b.channels| == 3 && Sound(c, b)
    ensures SumIn(bs, lo, hi, Channel(0)) + SumIn(bs, lo, hi, Channel(1)) + SumIn(bs, lo, hi, Channel(2))
         == SumIn(bs, lo, hi, Any)
  {
    if bs != [] { ChannelsAddUp(c, bs[..|bs| - 1], lo, hi); }
  }

  lemma {:induction false} LevelsAddUp(c: Config, bs: seq<Bucket>, lo: int, hi: int)
    requires c.Valid()
    requires forall b :: b in bs ==> |b.counts| == 7 && |b.channels| == 3 && Sound(c, b)
    ensures SumIn(bs, lo, hi, Invalid) <= SumIn(bs, lo, hi, Level(UNCLASSIFIED))
    ensures SumIn(bs, lo, hi, Level(UNCLASSIFIED)) + SumIn(bs, lo, hi, Level(WARNING))
          + SumIn(bs, lo, hi, Level(ERROR)) + SumIn(bs, lo, hi, Level(FATAL)) <= SumIn(bs, lo, hi, Any)
  {
    if bs != [] { LevelsAddUp(c, bs[..|bs| - 1], lo, hi); }
  }

  lemma {:induction false} TotalIsBounded(bs: seq<Bucket>, lo: int, hi: int, limit: nat, i: nat)
    requires forall b :: b in bs ==> |b.counts| == 7 && |b.channels| == 3 && Get(b, Any) <= limit
    requires i <= |bs|
    ensures SumIn(bs[..i], lo, hi, Any) <= i * limit
  {
    if i > 0 {
      TotalIsBounded(bs, lo, hi, limit, i - 1);
      SumStep(bs, lo, hi, Any, i - 1);
      assert bs[i - 1] in bs;
      assert i * limit == (i - 1) * limit + limit;
    }
  }

  // Saturation keeps every total below 2^53: seven does not divide a power of two.
  lemma LimitFits(c: Config)
    requires c.Valid()
    ensures c.Slots() * (7 * c.Limit()) <= MAX_COUNT
    ensures (c.Slots() - 1) * (TWO_53 / c.Slots()) <= MAX_COUNT
  {
    var n, share, limit := c.Slots(), TWO_53 / c.Slots(), c.Limit();
    assert n * share <= TWO_53 && share > 0;
    assert 7 * limit <= share;
    assert n * (7 * limit) <= n * share;
    assert n * (7 * limit) == 7 * (n * limit);
    assert (n - 1) * share == n * share - share;
  }

  // The slot of the window's end second never contributes, so at most all others do.
  lemma BucketLoss(w: Ring, lo: int, hi: int, i: int)
    requires w.Shaped() && AllSound(w) && Placed(w)
    requires 0 <= i < |w.buckets| && hi - lo == w.c.Seconds()
    requires lo <= w.buckets[i].second < hi
    ensures w.buckets[i].dropped <= if i == hi % w.c.Slots() then 0 else TWO_53 / w.c.Slots()
  {
    var b, n := w.buckets[i], w.c.Slots();
    assert Sound(w.c, b);
    if b.second % n == i && i == hi % n { SameSlot(b.second, hi, n); }
  }

  lemma {:induction false} LossesFit(bs: seq<Bucket>, lo: int, hi: int, free: int, share: nat, i: int)
    requires 0 <= i <= |bs|
    requires forall k :: 0 <= k < |bs| && lo <= bs[k].second < hi ==> bs[k].dropped <= if k == free then 0 else share
    ensures DropsIn(bs[..i], lo, hi) <= (if i > free >= 0 then i - 1 else i) * share
  {
    if i > 0 {
      LossesFit(bs, lo, hi, free, share, i - 1);
      DropStep(bs, lo, hi, i - 1);
      assert i * share == (i - 1) * share + share;
      assert (i - 1) * share == (i - 2) * share + share;
    }
  }

  lemma DropStep(bs: seq<Bucket>, lo: int, hi: int, i: int)
    requires 0 <= i < |bs|
    ensures DropsIn(bs[..i + 1], lo, hi)
         == DropsIn(bs[..i], lo, hi) + (if lo <= bs[i].second < hi then bs[i].dropped else 0)
  {
    assert bs[..i + 1][..i] == bs[..i];
  }

  lemma CountedIsConsistent(w: Ring, end: int)
    requires w.Shaped() && AllSound(w) && Placed(w)
    ensures Consistent(Counted(w, end)) && InRange(Counted(w, end))
    ensures var s := Counted(w, end); s.stdout + s.stderr + s.other == s.total
  {
    hide SumIn, DropsIn;
    var lo := end - w.c.Seconds();
    ChannelsAddUp(w.c, w.buckets, lo, end);
    LevelsAddUp(w.c, w.buckets, lo, end);
    forall b | b in w.buckets ensures Get(b, Any) <= 7 * w.c.Limit() { assert Sound(w.c, b); }
    TotalIsBounded(w.buckets, lo, end, 7 * w.c.Limit(), |w.buckets|);
    forall k | 0 <= k < |w.buckets| && lo <= w.buckets[k].second < end
      ensures w.buckets[k].dropped <= if k == end % w.c.Slots() then 0 else TWO_53 / w.c.Slots()
    {
      BucketLoss(w, lo, end, k);
    }
    LossesFit(w.buckets, lo, end, end % w.c.Slots(), TWO_53 / w.c.Slots(), |w.buckets|);
    assert w.buckets[..|w.buckets|] == w.buckets;
    LimitFits(w.c);
  }

  // Judging a summary leaves its window and its counters alone.
  lemma JudgeKeepsCounts(c: Config, started: int, gapUntil: int, end: int, counted: Summary)
    requires c.Valid()
    ensures var s := Judge(c, started, gapUntil, end, counted);
            Counters(s) == Counters(counted) && s.windowStart == counted.windowStart && s.windowEnd == counted.windowEnd
            && s.version == counted.version && s.windowSeconds == counted.windowSeconds
            && (Consistent(s) <==> Consistent(counted)) && (InRange(s) <==> InRange(counted)) && s.dropped == counted.dropped
  {
  }

  lemma RecomputedJudgement(c: Config, started: int, gapUntil: int, end: int, counted: Summary)
    requires c.Valid()
    requires counted.windowStart == counted.windowEnd - c.window && counted.windowEnd == end * SECOND
    requires counted.stdout + counted.stderr + counted.other == counted.total && counted.invalid >= 0
    requires counted.dropped > 0 ==> end * SECOND < gapUntil
    requires !counted.ready && counted.warningRatio == counted.errorRatio == None && counted.reason == IsReady
    ensures var s := Judge(c, started, gapUntil, end, counted);
            var r := Recomputed(s, c, started);
            && (counted.total > 0 || counted.total == counted.other == 0 ==> r.(reason := s.reason) == s)
            && (r.reason == s.reason <==>
                  !(s.windowEnd < gapUntil && s.dropped <= 0 && (s.invalid > 0 || s.windowStart < started)))
  {
  }

  lemma {:induction false} LossInsideIsCovered(bs: seq<Bucket>, lo: int, hi: int)
    requires DropsIn(bs, lo, hi) > 0
    ensures exists b :: b in bs && lo <= b.second < hi && b.dropped > 0
  {
    var b := bs[|bs| - 1];
    if !(lo <= b.second < hi && b.dropped > 0) { LossInsideIsCovered(bs[..|bs| - 1], lo, hi); }
  }

  // What Assess finds in a summary taken from ring `w`.
  ghost predicate Agrees(w: Ring, at: int, now: int)
    requires w.Shaped()
  {
    var s := Summarize(w, at);
    var r := Recomputed(s, w.c, w.started);
    && (WindowFits(s, w.c, now) <==> s.windowEnd <= now + SECOND && now < s.windowEnd + 3 * SECOND)
    && Consistent(s) && InRange(s)
    && r.(reason := s.reason) == s
    && (r.reason == s.reason <==>
          !(s.windowEnd < w.gapUntil && s.dropped == 0 && (s.invalid > 0 || s.windowStart < w.started)))
  }

  lemma RingAgrees(w: Ring, at: int, now: int)
    requires w.Shaped() && AllSound(w) && Placed(w) && LossesCovered(w)
    ensures Agrees(w, at, now)
  {
    hide SumIn, DropsIn, Sound, Placed, Judge, Recomputed;
    var end := Sec(at);
    var counted := Counted(w, end);
    CountedIsConsistent(w, end);
    JudgeKeepsCounts(w.c, w.started, w.gapUntil, end, counted);
    if counted.dropped > 0 { LossInsideIsCovered(w.buckets, end - w.c.Seconds(), end); }
    RecomputedJudgement(w.c, w.started, w.gapUntil, end, counted);
  }

  /**
    Assess agrees with Snapshot: a window's own summary is accepted exactly while it is fresh,
    and only its reason can change, when a gap without counted losses also hides invalid records
    or a window that has not filled yet.
   */
  lemma AssessAgreesWithSnapshot(c: Config, start: int, ops: seq<Op>, at: int, now: int)
    requires c.Valid()
    requires forall op :: op in ops && op.Add? ==> InvalidUnclassified(op.record)
    ensures Agrees(Replay(c, start, ops), at, now)
  {
    HistoryIsSound(c, start, ops);
    HistoryIsExact(c, start, ops);
    RingAgrees(Replay(c, start, ops), at, now);
  }

  /** The reason does change: a gap reported at the start hides that the window has not filled yet. */
  lemma ReasonCanChange()
    ensures STALE_CONFIG.Valid()
    ensures var w := Replay(STALE_CONFIG, 0, [Gap(0)]);
            var s := Summarize(w, 0);
            s.reason == CollectionGap && Recomputed(s, w.c, w.started).reason == WarmingUp
  {
    assert [Gap(0)][..0] == [];
    var w0, w := Replay(STALE_CONFIG, 0, []), Replay(STALE_CONFIG, 0, [Gap(0)]);
    assert w0 == Started(STALE_CONFIG, 0) && w == Gapped(w0, 0);
    assert w.gapUntil == 3 * SECOND && w.started == 0 && w.c == STALE_CONFIG;
    NoLossesInside(w.buckets, -2, 0);
    FreshHoldsNothing(0, Invalid);
    NothingCounted(w.buckets, -2, 0, Invalid);
    assert w.c.Seconds() == 2 && Sec(0) == 0;
  }

  lemma {:induction false} NothingCounted(bs: seq<Bucket>, lo: int, hi: int, f: Facet)
    requires forall b :: b in bs ==> |b.counts| == 7 && |b.channels| == 3 && Get(b, f) == 0
    ensures SumIn(bs, lo, hi, f) == 0
  {
    if bs != [] {
      assert bs[|bs| - 1] in bs;
      NothingCounted(bs[..|bs| - 1], lo, hi, f);
    }
  }
}
