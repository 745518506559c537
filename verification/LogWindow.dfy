/**
  The rolling log window: a ring of per-second counters (internal/logs/window.go).

  The ring is modelled twice. `Ring` and the functions on it describe every operation on
  values; class `Window` performs the same operations in place on an array. What the ring
  is for is stated against a third thing, the plain list of every record offered to it:
  a summary that says "ready" counts exactly the records of that list.

  Time is nanoseconds since the Unix epoch.
 */
module LogWindow {
  import opened Common

  const SECOND := 1_000_000_000
  const TWO_53 := 0x20_0000_0000_0000
  // Go's zero time, 1 January of year 1, in nanoseconds since the Unix epoch.
  const ZERO_TIME := -62_135_596_800 * SECOND

  // time.Time.Unix and Truncate(time.Second) both round down.
  function Sec(at: int): int { at / SECOND }

  // ---------- Records and what is counted about them ----------

  const UNCLASSIFIED := 0
  const WARNING := 4
  const ERROR := 5
  const FATAL := 6

  datatype Classification = Classification(level: int, invalid: bool, blank: bool)

  datatype Record = Record(at: int, severity: Classification, channel: string)

  /** Levels outside the enumeration are counted as invalid, unclassified records. */
  function Normal(c: Classification): (n: Classification)
    ensures 0 <= n.level < 7
  {
    if c.level < UNCLASSIFIED || c.level > FATAL then Classification(UNCLASSIFIED, true, false) else c
  }

  function ChannelIndex(channel: string): (k: nat)
    ensures k < 3
  {
    if channel == "stdout" then 0 else if channel == "stderr" then 1 else 2
  }

  // One counter of a bucket.
  datatype Facet = Any | Level(level: int) | Invalid | Channel(k: int)

  predicate Has(r: Record, f: Facet) {
    match f
    case Any => true
    case Level(l) => Normal(r.severity).level == l
    case Invalid => Normal(r.severity).invalid
    case Channel(k) => ChannelIndex(r.channel) == k
  }

  /** How many records of `h` fall in one of the seconds `seconds` and have `f`. */
  ghost function CountAt(h: seq<Record>, seconds: set<int>, f: Facet): nat {
    if h == [] then 0
    else
      var r := h[|h| - 1];
      CountAt(h[..|h| - 1], seconds, f) + (if Sec(r.at) in seconds && Has(r, f) then 1 else 0)
  }

  /** The seconds from `lo` up to, not including, `hi`. */
  ghost function Span(lo: int, hi: int): (seconds: set<int>)
    ensures forall s :: s in seconds <==> lo <= s < hi
    decreases hi - lo
  {
    if hi <= lo then {} else Span(lo, hi - 1) + {hi - 1}
  }

  lemma {:induction false} CountAppend(h: seq<Record>, r: Record, seconds: set<int>, f: Facet)
    ensures CountAt(h + [r], seconds, f)
         == CountAt(h, seconds, f) + (if Sec(r.at) in seconds && Has(r, f) then 1 else 0)
  {
    assert (h + [r])[..|h|] == h;
  }

  lemma {:induction false} CountConcat(a: seq<Record>, b: seq<Record>, seconds: set<int>, f: Facet)
    ensures CountAt(a + b, seconds, f) == CountAt(a, seconds, f) + CountAt(b, seconds, f)
  {
    hide CountAt;
    if b == [] {
      assert a + b == a;
      CountNone([], seconds, f);
    } else {
      var rest, r := b[..|b| - 1], b[|b| - 1];
      CountConcat(a, rest, seconds, f);
      CountAppend(a + rest, r, seconds, f);
      CountAppend(rest, r, seconds, f);
      assert a + b == (a + rest) + [r] && b == rest + [r];
    }
  }

  lemma {:induction false} CountUnion(h: seq<Record>, a: set<int>, b: set<int>, f: Facet)
    requires a !! b
    ensures CountAt(h, a + b, f) == CountAt(h, a, f) + CountAt(h, b, f)
  {
    if h != [] { CountUnion(h[..|h| - 1], a, b, f); }
  }

  lemma {:induction false} CountNone(h: seq<Record>, seconds: set<int>, f: Facet)
    requires forall r :: r in h ==> Sec(r.at) !in seconds
    ensures CountAt(h, seconds, f) == 0
  {
    if h != [] { CountNone(h[..|h| - 1], seconds, f); }
  }

  // ---------- Buckets ----------

  datatype Bucket = Bucket(second: int, counts: seq<nat>, invalid: nat, channels: seq<nat>, dropped: nat)

  function Fresh(second: int): Bucket { Bucket(second, [0, 0, 0, 0, 0, 0, 0], 0, [0, 0, 0], 0) }

  function Get(b: Bucket, f: Facet): nat
    requires |b.counts| == 7 && |b.channels| == 3
  {
    match f
    case Any => b.counts[0] + b.counts[1] + b.counts[2] + b.counts[3] + b.counts[4] + b.counts[5] + b.counts[6]
    case Level(l) => if 0 <= l < 7 then b.counts[l] else 0
    case Invalid => b.invalid
    case Channel(k) => if 0 <= k < 3 then b.channels[k] else 0
  }

  /** The bucket after one more record. */
  function Bumped(b: Bucket, r: Record): (b': Bucket)
    requires |b.counts| == 7 && |b.channels| == 3
    ensures |b'.counts| == 7 && |b'.channels| == 3
    ensures forall f :: Get(b', f) == Get(b, f) + (if Has(r, f) then 1 else 0)
  {
    var level := Normal(r.severity).level;
    var k := ChannelIndex(r.channel);
    b.(counts := b.counts[level := b.counts[level] + 1],
       channels := b.channels[k := b.channels[k] + 1],
       invalid := b.invalid + (if Normal(r.severity).invalid then 1 else 0))
  }

  // ---------- Ring index: Go's truncating % made non-negative ----------

  function GoRem(a: int, b: int): int
    requires b > 0
  {
    if a >= 0 then a % b else -((-a) % b)
  }

  function Index(second: int, n: int): int
    requires n > 0
  {
    GoRem(GoRem(second, n) + n, n)
  }

  lemma Multiples(n: int, d: int)
    requires n > 0
    ensures d >= 1 ==> n * d >= n
    ensures d <= -1 ==> n * d <= -n
  {
  }

  lemma RemUnique(a: int, n: int, q: int, r: int)
    requires n > 0 && 0 <= r < n && a == n * q + r
    ensures a % n == r
  {
    var q', r' := a / n, a % n;
    assert n * (q - q') == r' - r;
    Multiples(n, q - q');
  }

  lemma IndexIsFloorMod(second: int, n: int)
    requires n > 0
    ensures Index(second, n) == second % n
    ensures 0 <= Index(second, n) < n
  {
    var r := GoRem(second, n) + n;
    if second >= 0 {
      RemUnique(r, n, 1, second % n);
    } else {
      var q, m := (-second) / n, (-second) % n;
      if m == 0 {
        RemUnique(r, n, 1, 0);
        RemUnique(second, n, -q, 0);
      } else {
        RemUnique(r, n, 0, n - m);
        assert n * (-q - 1) == -n * q - n;
        RemUnique(second, n, -q - 1, n - m);
      }
    }
  }

  lemma SameSlot(a: int, b: int, n: int)
    requires n > 0 && a % n == b % n
    ensures a == b || a >= b + n || b >= a + n
  {
    var d := a / n - b / n;
    assert a - b == n * d;
    Multiples(n, d);
  }

  // ---------- The ring as a value ----------

  datatype Config = Config(window: int, minEvents: int, minCoverage: real) {
    predicate Valid() {
      && SECOND <= window <= 3600 * SECOND && window % SECOND == 0
      && minEvents >= 1 && 0.0 <= minCoverage <= 1.0
    }

    function Seconds(): (w: int)
      requires Valid()
      ensures 1 <= w <= 3600 && window == w * SECOND
    {
      window / SECOND
    }

    function Slots(): (n: int)
      requires Valid()
      ensures 2 <= n <= 3601
    {
      Seconds() + 1
    }

    // Per-level saturation of one bucket.
    function Limit(): (n: int)
      requires Valid()
      ensures n > 0
    {
      TWO_53 / Slots() / 7
    }
  }

  datatype Ring = Ring(c: Config, started: int, last: int, gapUntil: int, buckets: seq<Bucket>) {
    ghost predicate Shaped() {
      && c.Valid()
      && |buckets| == c.Slots()
      && forall b :: b in buckets ==> |b.counts| == 7 && |b.channels| == 3
    }
  }

  function Started(c: Config, at: int): (w: Ring)
    requires c.Valid()
    ensures w.Shaped()
  {
    Ring(c, at, at, ZERO_TIME, seq(c.Slots(), _ => Fresh(0)))
  }

  function GapEnd(c: Config, at: int): int { Sec(at) * SECOND + c.window + SECOND }

  function Gapped(w: Ring, at: int): Ring {
    var until := GapEnd(w.c, at);
    if until > w.gapUntil then w.(gapUntil := until) else w
  }

  // The bucket a second is written to, emptied if it still holds another second.
  function Opened(w: Ring, second: int): (b: Bucket)
    requires w.Shaped()
    ensures b.second == second && |b.counts| == 7 && |b.channels| == 3
  {
    IndexIsFloorMod(second, w.c.Slots());
    var b := w.buckets[Index(second, w.c.Slots())];
    if b.second != second then Fresh(second) else b
  }

  function Stored(w: Ring, b: Bucket): (w': Ring)
    requires w.Shaped() && |b.counts| == 7 && |b.channels| == 3
    ensures w'.Shaped()
  {
    IndexIsFloorMod(b.second, w.c.Slots());
    w.(buckets := w.buckets[Index(b.second, w.c.Slots()) := b])
  }

  function Added(w: Ring, r: Record): (w': Ring)
    requires w.Shaped()
    ensures w'.Shaped()
  {
    if r.severity.blank then w
    else if r.at < w.last - w.c.window then Gapped(w, w.last)
    else
      var w1 := if r.at > w.last then w.(last := r.at) else w;
      var b := Opened(w1, Sec(r.at));
      if b.counts[Normal(r.severity).level] >= w.c.Limit() then Gapped(Stored(w1, b), r.at)
      else Stored(w1, Bumped(b, r))
  }

  function Dropped(w: Ring, at: int): (w': Ring)
    requires w.Shaped()
    ensures w'.Shaped()
  {
    var w1 := Gapped(w, at);
    var b := Opened(w1, Sec(at));
    Stored(w1, if b.dropped < TWO_53 / w.c.Slots() then b.(dropped := b.dropped + 1) else b)
  }

  function Restarted(w: Ring, at: int): (w': Ring)
    requires w.Shaped()
    ensures w'.Shaped()
  {
    Started(w.c, at)
  }

  // ---------- Summaries ----------

  datatype Reason = IsReady | CollectionGap | InvalidRecords | WarmingUp | InsufficientRecords | InsufficientCoverage

  datatype Summary = Summary(
    version: int, windowStart: int, windowEnd: int, windowSeconds: int,
    total: int, classified: int, unclassified: int, warnings: int, errors: int, fatal: int,
    invalid: int, stdout: int, stderr: int, other: int, dropped: int,
    coverage: real, warningRatio: Option<real>, errorRatio: Option<real>,
    complete: bool, ready: bool, reason: Reason)

  ghost function Contribution(b: Bucket, lo: int, hi: int, f: Facet): nat
    requires |b.counts| == 7 && |b.channels| == 3
  {
    if lo <= b.second < hi then Get(b, f) else 0
  }

  ghost function SumIn(bs: seq<Bucket>, lo: int, hi: int, f: Facet): nat
    requires forall b :: b in bs ==> |b.counts| == 7 && |b.channels| == 3
  {
    if bs == [] then 0
    else
      SumIn(bs[..|bs| - 1], lo, hi, f) + Contribution(bs[|bs| - 1], lo, hi, f)
  }

  lemma SumStep(bs: seq<Bucket>, lo: int, hi: int, f: Facet, i: int)
    requires forall b :: b in bs ==> |b.counts| == 7 && |b.channels| == 3
    requires 0 <= i < |bs|
    ensures SumIn(bs[..i + 1], lo, hi, f)
         == SumIn(bs[..i], lo, hi, f) + Contribution(bs[i], lo, hi, f)
  {
    assert bs[..i + 1][..i] == bs[..i];
  }

  ghost function DropsIn(bs: seq<Bucket>, lo: int, hi: int): nat {
    if bs == [] then 0
    else
      var b := bs[|bs| - 1];
      DropsIn(bs[..|bs| - 1], lo, hi) + (if lo <= b.second < hi then b.dropped else 0)
  }

  // A ratio of nothing to nothing is not a number, and is left out.
  function Ratio(part: int, total: int): Option<real> { if total == 0 then None else Some(part as real / total as real) }

  function Share(part: int, total: int): real { if total > 0 then part as real / total as real else 0.0 }

  // Readiness, given the counts of the window that ends at second `end`.
  function Judge(c: Config, started: int, gapUntil: int, end: int, counted: Summary): Summary
    requires c.Valid()
  {
    var s := counted.(coverage := Share(counted.classified, counted.total));
    var at := end * SECOND;
    var s := s.(complete := at >= started + c.window && at >= gapUntil && s.invalid == 0);
    if at < gapUntil then s.(reason := CollectionGap)
    else if s.invalid > 0 then s.(reason := InvalidRecords)
    else if at < started + c.window then s.(reason := WarmingUp)
    else if s.total < c.minEvents then s.(reason := InsufficientRecords)
    else if s.coverage < c.minCoverage then s.(reason := InsufficientCoverage)
    else
      s.(ready := true,
         warningRatio := Ratio(s.warnings, s.total),
         errorRatio := Ratio(s.errors + s.fatal, s.total))
  }

  // A share of a positive total, and a ratio of one.
  lemma SharesMean(part: int, total: int, least: real)
    requires total > 0
    ensures Share(part, total) * total as real == part as real
    ensures Ratio(part, total).Some? && Ratio(part, total).value * total as real == part as real
    ensures Share(part, total) < least <==> part as real < least * total as real
  {
    var share, n := part as real / total as real, total as real;
    assert share * n == part as real;
    if share < least { Scaled(share, least, n); } else if least < share { Scaled(least, share, n); }
  }

  lemma NothingToShare(part: int)
    ensures Share(part, 0) == 0.0 && Ratio(part, 0) == None
  {
  }

  lemma Scaled(a: real, b: real, n: real)
    requires a < b && n > 0.0
    ensures a * n < b * n
  {
  }

  /** The counters of a summary are ratios of its total, as far as it has one. */
  ghost predicate RatiosMean(s: Summary) {
    && (if s.total > 0 then s.coverage * s.total as real == s.classified as real else s.coverage == 0.0)
    && (s.ready && s.total > 0 ==>
          && s.warningRatio.Some? && s.warningRatio.value * s.total as real == s.warnings as real
          && s.errorRatio.Some? && s.errorRatio.value * s.total as real == (s.errors + s.fatal) as real)
    && (!s.ready ==> s.warningRatio == s.errorRatio == None)
  }

  // Coverage and ratios worked out from the counters.
  lemma RatiosFrom(s: Summary)
    requires s.total >= 0 && s.coverage == Share(s.classified, s.total)
    requires s.ready ==> s.warningRatio == Ratio(s.warnings, s.total) && s.errorRatio == Ratio(s.errors + s.fatal, s.total)
    requires !s.ready ==> s.warningRatio == s.errorRatio == None
    ensures RatiosMean(s)
  {
    hide Ratio, Share;
    if s.total > 0 {
      SharesMean(s.classified, s.total, 0.0);
      SharesMean(s.warnings, s.total, 0.0);
      SharesMean(s.errors + s.fatal, s.total, 0.0);
    } else {
      NothingToShare(s.classified);
    }
  }

  /** What a window's own summary says: when it is complete, when ready, why not, and in which ratios. */
  ghost predicate Judged(s: Summary, c: Config, started: int, gapUntil: int) {
    var gap, filled := s.windowEnd < gapUntil, s.windowStart >= started;
    var few, enough := s.total < c.minEvents, s.classified as real >= c.minCoverage * s.total as real;
    && RatiosMean(s)
    && (s.complete <==> !gap && s.invalid == 0 && filled)
    && (s.ready <==> s.complete && !few && enough)
    && (s.reason.IsReady? <==> s.ready)
    && (s.reason.CollectionGap? <==> gap)
    && (s.reason.InvalidRecords? <==> !gap && s.invalid > 0)
    && (s.reason.WarmingUp? <==> !gap && s.invalid == 0 && !filled)
    && (s.reason.InsufficientRecords? <==> s.complete && few)
    && (s.reason.InsufficientCoverage? <==> s.complete && !few && !enough)
  }

  // A summary with its counts, before it is judged.
  predicate Unjudged(s: Summary, c: Config, end: int) {
    && s.windowStart == end * SECOND - c.window && s.windowEnd == end * SECOND && s.total >= 0 && s.invalid >= 0
    && !s.ready && s.warningRatio == s.errorRatio == None && s.reason == IsReady && s.coverage == 0.0
  }

  lemma JudgeMeans(c: Config, started: int, gapUntil: int, end: int, counted: Summary)
    requires c.Valid() && Unjudged(counted, c, end)
    ensures Judged(Judge(c, started, gapUntil, end, counted), c, started, gapUntil)
  {
    hide Ratio, Share, RatiosMean;
    RatiosFrom(Judge(c, started, gapUntil, end, counted));
    if counted.total > 0 { SharesMean(counted.classified, counted.total, c.minCoverage); } else { NothingToShare(counted.classified); }
  }

  // The counters of the window that ends at second `end`, before readiness is judged.
  ghost function Counted(w: Ring, end: int): Summary
    requires w.Shaped()
  {
    var lo, bs := end - w.c.Seconds(), w.buckets;
    Summary(1, end * SECOND - w.c.window, end * SECOND, w.c.Seconds(),
            SumIn(bs, lo, end, Any), SumIn(bs, lo, end, Any) - SumIn(bs, lo, end, Level(UNCLASSIFIED)),
            SumIn(bs, lo, end, Level(UNCLASSIFIED)), SumIn(bs, lo, end, Level(WARNING)),
            SumIn(bs, lo, end, Level(ERROR)), SumIn(bs, lo, end, Level(FATAL)),
            SumIn(bs, lo, end, Invalid), SumIn(bs, lo, end, Channel(0)), SumIn(bs, lo, end, Channel(1)),
            SumIn(bs, lo, end, Channel(2)), DropsIn(bs, lo, end),
            0.0, None, None, false, false, IsReady)
  }

  ghost function Summarize(w: Ring, at: int): Summary
    requires w.Shaped()
  {
    Judge(w.c, w.started, w.gapUntil, Sec(at), Counted(w, Sec(at)))
  }

  lemma SummaryMeans(w: Ring, at: int)
    requires w.Shaped()
    ensures Judged(Summarize(w, at), w.c, w.started, w.gapUntil)
  {
    hide SumIn, DropsIn, Judge, Judged;
    JudgeMeans(w.c, w.started, w.gapUntil, Sec(at), Counted(w, Sec(at)));
  }

  // ---------- The ring against the list of records ----------

  // What the ring still holds about one second.
  ghost function Held(w: Ring, s: int, f: Facet): nat
    requires w.Shaped()
  {
    var b := w.buckets[s % w.c.Slots()];
    if b.second == s then Get(b, f) else 0
  }

  // A second some later ready summary could still cover.
  ghost predicate Live(w: Ring, s: int)
    requires w.c.Valid()
  {
    (s + w.c.Seconds()) * SECOND >= w.gapUntil && s + w.c.Seconds() >= Sec(w.last)
  }

  ghost predicate ExactAt(w: Ring, h: seq<Record>, s: int)
    requires w.Shaped()
  {
    forall f :: Held(w, s, f) == CountAt(h, {s}, f)
  }

  ghost predicate Exact(w: Ring, h: seq<Record>)
    requires w.Shaped()
  {
    && (forall r :: r in h ==> r.at <= w.last)
    && (forall s :: Live(w, s) ==> ExactAt(w, h, s))
  }

  // A bucket sits where its second belongs, or has never been written.
  ghost predicate Placed(w: Ring)
    requires w.Shaped()
  {
    forall i :: 0 <= i < |w.buckets| ==> w.buckets[i].second % w.c.Slots() == i || w.buckets[i] == Fresh(0)
  }

  // A second that lost a record is covered by the gap.
  ghost predicate LossesCovered(w: Ring)
    requires w.Shaped()
  {
    forall b :: b in w.buckets && b.dropped > 0 ==> w.gapUntil >= (b.second + w.c.Slots()) * SECOND
  }

  lemma FreshHoldsNothing(s: int, f: Facet)
    ensures Get(Fresh(s), f) == 0
  {
  }

  lemma StartedIsExact(c: Config, at: int)
    requires c.Valid()
    ensures Exact(Started(c, at), []) && Placed(Started(c, at)) && LossesCovered(Started(c, at))
  {
    var w := Started(c, at);
    forall s, f ensures Held(w, s, f) == CountAt([], {s}, f) { FreshHoldsNothing(0, f); }
  }

  // Writing bucket `b` changes what is held about its own second, and forgets the others in its slot.
  lemma StoredHolds(w: Ring, b: Bucket, s: int, f: Facet)
    requires w.Shaped() && |b.counts| == 7 && |b.channels| == 3
    ensures Held(Stored(w, b), s, f)
         == if s == b.second then Get(b, f)
            else if s % w.c.Slots() == b.second % w.c.Slots() then 0
            else Held(w, s, f)
  {
    IndexIsFloorMod(b.second, w.c.Slots());
  }

  lemma OpenedHolds(w: Ring, s: int, f: Facet)
    requires w.Shaped()
    ensures Get(Opened(w, s), f) == Held(w, s, f)
  {
    IndexIsFloorMod(s, w.c.Slots());
    FreshHoldsNothing(s, f);
  }

  lemma AddKeepsExactAt(w: Ring, h: seq<Record>, r: Record, s: int)
    requires w.Shaped() && Exact(w, h) && !r.severity.blank
    requires Live(Added(w, r), s)
    ensures ExactAt(Added(w, r), h + [r], s)
  {
    var w', n, second := Added(w, r), w.c.Slots(), Sec(r.at);
    assert Live(w, s);
    assert ExactAt(w, h, s);
    forall f ensures Held(w', s, f) == CountAt(h + [r], {s}, f) {
      CountAppend(h, r, {s}, f);
      if r.at >= w.last - w.c.window {
        var w1 := if r.at > w.last then w.(last := r.at) else w;
        var b := Opened(w1, second);
        OpenedHolds(w1, second, f);
        StoredHolds(w1, b, s, f);
        StoredHolds(w1, Bumped(b, r), s, f);
        assert Held(w1, s, f) == Held(w, s, f);
        if s != second && s % n == second % n {
          // Only a second newer than every record shares the slot and stays live.
          SameSlot(s, second, n);
          assert s >= second + n;
          CountNone(h, {s}, f);
        }
      }
    }
  }

  lemma DropKeepsExactAt(w: Ring, h: seq<Record>, at: int, s: int)
    requires w.Shaped() && Exact(w, h)
    requires Sec(at) >= Sec(w.last) - w.c.Seconds()
    requires Live(Dropped(w, at), s)
    ensures ExactAt(Dropped(w, at), h, s)
  {
    var n, second := w.c.Slots(), Sec(at);
    assert Live(w, s);
    assert ExactAt(w, h, s);
    var w1 := Gapped(w, at);
    var b := Opened(w1, second);
    var b' := if b.dropped < TWO_53 / n then b.(dropped := b.dropped + 1) else b;
    forall f ensures Held(Dropped(w, at), s, f) == CountAt(h, {s}, f) {
      StoredHolds(w1, b', s, f);
      if s % n == second % n {
        SameSlot(s, second, n);
        assert s >= second + n;
        CountNone(h, {s}, f);
      }
    }
  }

  lemma AddKeeps(w: Ring, h: seq<Record>, r: Record)
    requires w.Shaped() && !r.severity.blank
    ensures Placed(w) ==> Placed(Added(w, r))
    ensures LossesCovered(w) ==> LossesCovered(Added(w, r))
    ensures Exact(w, h) ==> Exact(Added(w, r), h + [r])
  {
    IndexIsFloorMod(Sec(r.at), w.c.Slots());
    if Exact(w, h) {
      forall s | Live(Added(w, r), s) ensures ExactAt(Added(w, r), h + [r], s) {
        AddKeepsExactAt(w, h, r, s);
      }
    }
  }

  lemma DropKeeps(w: Ring, h: seq<Record>, at: int)
    requires w.Shaped()
    ensures Placed(w) ==> Placed(Dropped(w, at))
    ensures LossesCovered(w) ==> LossesCovered(Dropped(w, at))
    ensures Exact(w, h) && Sec(at) >= Sec(w.last) - w.c.Seconds() ==> Exact(Dropped(w, at), h)
  {
    IndexIsFloorMod(Sec(at), w.c.Slots());
    if Exact(w, h) && Sec(at) >= Sec(w.last) - w.c.Seconds() {
      forall s | Live(Dropped(w, at), s) ensures ExactAt(Dropped(w, at), h, s) {
        DropKeepsExactAt(w, h, at, s);
      }
    }
  }

  lemma GapKeeps(w: Ring, h: seq<Record>, at: int)
    requires w.Shaped()
    ensures Placed(w) ==> Placed(Gapped(w, at))
    ensures LossesCovered(w) ==> LossesCovered(Gapped(w, at))
    ensures Exact(w, h) ==> Exact(Gapped(w, at), h)
  {
    var w' := Gapped(w, at);
    if Exact(w, h) {
      forall s | Live(w', s) ensures ExactAt(w', h, s) {
        assert Live(w, s);
        assert ExactAt(w, h, s);
        forall f ensures Held(w', s, f) == CountAt(h, {s}, f) { assert Held(w', s, f) == Held(w, s, f); }
      }
    }
  }

  // ---------- A ready summary counts the list ----------

  // Seconds of the window whose slot is below `i`.
  ghost function Slotted(lo: int, hi: int, n: int, i: int): set<int>
    requires n > 0
  {
    set s | s in Span(lo, hi) && s % n < i
  }

  // The one second from `lo` on, within a ring's length, that belongs in slot `i`.
  ghost function SlotSecond(lo: int, n: int, i: int): int
    requires n > 0
  {
    lo + (i - lo) % n
  }

  lemma SlotSecondFits(lo: int, n: int, i: int)
    requires 0 <= i < n
    ensures lo <= SlotSecond(lo, n, i) < lo + n && SlotSecond(lo, n, i) % n == i
  {
    var t := SlotSecond(lo, n, i);
    assert t == n * (-((i - lo) / n)) + i;
    RemUnique(t, n, -((i - lo) / n), i);
  }

  lemma NextSlot(lo: int, hi: int, n: int, i: int)
    requires 0 <= i < n && hi <= lo + n
    ensures var t := SlotSecond(lo, n, i);
            && Slotted(lo, hi, n, i + 1) == Slotted(lo, hi, n, i) + (if t < hi then {t} else {})
            && t !in Slotted(lo, hi, n, i)
  {
    SlotSecondFits(lo, n, i);
    forall s | s in Span(lo, hi) && s % n == i ensures s == SlotSecond(lo, n, i) {
      SameSlot(s, SlotSecond(lo, n, i), n);
    }
  }

  // One bucket contributes the records of the one second of the window that belongs in its slot.
  lemma SlotCountsItsSecond(w: Ring, h: seq<Record>, end: int, f: Facet, i: int)
    requires w.Shaped() && Exact(w, h) && Placed(w)
    requires end * SECOND >= w.gapUntil && end >= Sec(w.last)
    requires 0 <= i < |w.buckets|
    ensures var lo := end - w.c.Seconds();
            var t := SlotSecond(lo, w.c.Slots(), i);
            Contribution(w.buckets[i], lo, end, f) == if t < end then CountAt(h, {t}, f) else 0
  {
    var b, n := w.buckets[i], w.c.Slots();
    var t := SlotSecond(end - w.c.Seconds(), n, i);
    SlotSecondFits(end - w.c.Seconds(), n, i);
    if b.second % n == i { SameSlot(b.second, t, n); }
    FreshHoldsNothing(0, f);
    if t < end {
      assert Live(w, t);
      assert ExactAt(w, h, t);
      assert Held(w, t, f) == CountAt(h, {t}, f);
    }
  }

  lemma {:induction false} SlotsCountTheList(bs: seq<Bucket>, h: seq<Record>, lo: int, hi: int, f: Facet, i: int)
    requires forall b :: b in bs ==> |b.counts| == 7 && |b.channels| == 3
    requires 0 <= i <= |bs| && hi <= lo + |bs| && bs != []
    requires forall k :: 0 <= k < |bs| ==>
      var t := SlotSecond(lo, |bs|, k);
      Contribution(bs[k], lo, hi, f) == if t < hi then CountAt(h, {t}, f) else 0
    ensures SumIn(bs[..i], lo, hi, f) == CountAt(h, Slotted(lo, hi, |bs|, i), f)
  {
    var n := |bs|;
    if i == 0 {
      CountNone(h, Slotted(lo, hi, n, 0), f);
    } else {
      SlotsCountTheList(bs, h, lo, hi, f, i - 1);
      SumStep(bs, lo, hi, f, i - 1);
      NextSlot(lo, hi, n, i - 1);
      var before, t := Slotted(lo, hi, n, i - 1), SlotSecond(lo, n, i - 1);
      if t < hi {
        CountUnion(h, before, {t}, f);
      } else {
        assert before + {} == before;
      }
    }
  }

  lemma RingCountsTheList(w: Ring, h: seq<Record>, end: int, f: Facet)
    requires w.Shaped() && Exact(w, h) && Placed(w)
    requires end * SECOND >= w.gapUntil && end >= Sec(w.last)
    ensures SumIn(w.buckets, end - w.c.Seconds(), end, f) == CountAt(h, Span(end - w.c.Seconds(), end), f)
  {
    var lo, n := end - w.c.Seconds(), w.c.Slots();
    forall k | 0 <= k < n
      ensures var t := SlotSecond(lo, n, k);
              Contribution(w.buckets[k], lo, end, f) == if t < end then CountAt(h, {t}, f) else 0
    {
      SlotCountsItsSecond(w, h, end, f, k);
    }
    SlotsCountTheList(w.buckets, h, lo, end, f, n);
    assert w.buckets[..|w.buckets|] == w.buckets;
    assert Slotted(lo, end, n, n) == Span(lo, end);
  }

  lemma {:induction false} NoLossesInside(bs: seq<Bucket>, lo: int, hi: int)
    requires forall b :: b in bs && lo <= b.second < hi ==> b.dropped == 0
    ensures DropsIn(bs, lo, hi) == 0
  {
    if bs != [] { NoLossesInside(bs[..|bs| - 1], lo, hi); }
  }

  /** Every counter of the summary is the number of records of `h` in its window. */
  ghost predicate CountsExactly(s: Summary, h: seq<Record>) {
    var seconds := Span(Sec(s.windowStart), Sec(s.windowEnd));
    && s.total == CountAt(h, seconds, Any)
    && s.unclassified == CountAt(h, seconds, Level(UNCLASSIFIED))
    && s.classified == s.total - s.unclassified
    && s.warnings == CountAt(h, seconds, Level(WARNING))
    && s.errors == CountAt(h, seconds, Level(ERROR))
    && s.fatal == CountAt(h, seconds, Level(FATAL))
    && s.invalid == CountAt(h, seconds, Invalid)
    && s.stdout == CountAt(h, seconds, Channel(0))
    && s.stderr == CountAt(h, seconds, Channel(1))
    && s.other == CountAt(h, seconds, Channel(2))
  }

  // What a summary is made of.
  lemma SummaryCounts(w: Ring, at: int)
    requires w.Shaped()
    ensures var s, bs, end := Summarize(w, at), w.buckets, Sec(at);
            var lo := end - w.c.Seconds();
            && s.windowStart == lo * SECOND && s.windowEnd == end * SECOND && Sec(s.windowStart) == lo && Sec(s.windowEnd) == end
            && s.total == SumIn(bs, lo, end, Any) && s.unclassified == SumIn(bs, lo, end, Level(UNCLASSIFIED))
            && s.classified == s.total - s.unclassified && s.warnings == SumIn(bs, lo, end, Level(WARNING))
            && s.errors == SumIn(bs, lo, end, Level(ERROR)) && s.fatal == SumIn(bs, lo, end, Level(FATAL))
            && s.invalid == SumIn(bs, lo, end, Invalid) && s.stdout == SumIn(bs, lo, end, Channel(0))
            && s.stderr == SumIn(bs, lo, end, Channel(1)) && s.other == SumIn(bs, lo, end, Channel(2))
            && s.dropped == DropsIn(bs, lo, end)
  {
    hide SumIn, DropsIn, Ratio, Share;
  }

  // A ready one lies after the start and the gap.
  lemma ReadyMeans(w: Ring, at: int)
    requires w.Shaped() && Summarize(w, at).ready
    ensures Sec(at) * SECOND >= w.gapUntil && Summarize(w, at).windowStart >= w.started
  {
    hide SumIn, DropsIn, Ratio, Share;
  }

  lemma ReadySummary(w: Ring, h: seq<Record>, at: int)
    requires w.Shaped() && Exact(w, h) && Placed(w) && LossesCovered(w)
    requires Summarize(w, at).ready && Sec(at) >= Sec(w.last)
    ensures CountsExactly(Summarize(w, at), h)
    ensures Summarize(w, at).dropped == 0
    ensures Summarize(w, at).windowStart >= w.started
  {
    hide CountAt, SumIn, Summarize, Placed, Exact;
    SummaryCounts(w, at);
    ReadyMeans(w, at);
    var end := Sec(at);
    var lo := end - w.c.Seconds();
    forall f ensures SumIn(w.buckets, lo, end, f) == CountAt(h, Span(lo, end), f) {
      RingCountsTheList(w, h, end, f);
    }
    NoLossesInside(w.buckets, lo, end);
  }

  // ---------- Every history of a window ----------

  datatype Op = Add(record: Record) | Drop(at: int) | Gap(at: int) | Reset(at: int)

  ghost function Replay(c: Config, start: int, ops: seq<Op>): (w: Ring)
    requires c.Valid()
    ensures w.Shaped() && w.c == c
  {
    if ops == [] then Started(c, start)
    else
      var w := Replay(c, start, ops[..|ops| - 1]);
      match ops[|ops| - 1]
      case Add(r) => Added(w, r)
      case Drop(at) => Dropped(w, at)
      case Gap(at) => Gapped(w, at)
      case Reset(at) => Restarted(w, at)
  }

  /** Every record offered since the start or the last Reset, blank ones aside. */
  ghost function Records(ops: seq<Op>): seq<Record> {
    if ops == [] then []
    else
      var h := Records(ops[..|ops| - 1]);
      match ops[|ops| - 1]
      case Add(r) => if r.severity.blank then h else h + [r]
      case Reset(_) => []
      case _ => h
  }

  /** The times at which the collector reported a lost record since the last Reset. */
  ghost function Losses(ops: seq<Op>): seq<int> {
    if ops == [] then []
    else
      var losses := Losses(ops[..|ops| - 1]);
      match ops[|ops| - 1]
      case Drop(at) => losses + [at]
      case Reset(_) => []
      case _ => losses
  }

  /** No loss is reported for a second older than the ring reaches back from its newest record. */
  ghost predicate Orderly(c: Config, start: int, ops: seq<Op>)
    requires c.Valid()
  {
    ops != [] ==>
      && Orderly(c, start, ops[..|ops| - 1])
      && var op := ops[|ops| - 1];
         op.Drop? ==> Sec(op.at) >= Sec(Replay(c, start, ops[..|ops| - 1]).last) - c.Seconds()
  }

  ghost predicate LossesGapped(w: Ring, losses: seq<int>) {
    forall at :: at in losses ==> w.gapUntil >= GapEnd(w.c, at)
  }

  lemma {:induction false} HistoryIsExact(c: Config, start: int, ops: seq<Op>)
    requires c.Valid()
    ensures Placed(Replay(c, start, ops)) && LossesCovered(Replay(c, start, ops))
    ensures LossesGapped(Replay(c, start, ops), Losses(ops))
    ensures Orderly(c, start, ops) ==> Exact(Replay(c, start, ops), Records(ops))
  {
    if ops == [] {
      StartedIsExact(c, start);
    } else {
      var before := ops[..|ops| - 1];
      hide Added, Dropped, Gapped, Restarted, Exact, Placed, LossesCovered;
      HistoryIsExact(c, start, before);
      var w, h := Replay(c, start, before), Records(before);
      match ops[|ops| - 1] {
        case Add(r) => if !r.severity.blank { AddKeeps(w, h, r); }
        case Drop(at) => DropKeeps(w, h, at);
        case Gap(at) => GapKeeps(w, h, at);
        case Reset(at) => StartedIsExact(c, at);
      }
    }
  }

  /**
    The ring refines the list: whatever was added, in whatever order, a ready summary counts
    exactly the records offered in its window, none of that window was reported lost, and the
    window lies after the start.
   */
  lemma ReadyIsExact(c: Config, start: int, ops: seq<Op>, at: int)
    requires c.Valid() && Orderly(c, start, ops)
    requires Sec(at) >= Sec(Replay(c, start, ops).last)
    ensures var s := Summarize(Replay(c, start, ops), at);
            s.ready ==>
              && CountsExactly(s, Records(ops))
              && s.dropped == 0
              && s.windowStart >= Replay(c, start, ops).started
              && forall lost :: lost in Losses(ops) ==> Sec(lost) !in Span(Sec(s.windowStart), Sec(s.windowEnd))
  {
    HistoryIsExact(c, start, ops);
    var w := Replay(c, start, ops);
    if Summarize(w, at).ready { ReadySummary(w, Records(ops), at); }
  }

  // A window of two seconds, ready with a single record.
  const STALE_CONFIG := Config(2 * SECOND, 1, 0.0)

  function Warned(second: int): Record { Record(second * SECOND, Classification(WARNING, false, false), "") }

  lemma StaleReplay()
    ensures STALE_CONFIG.Valid()
    ensures var ops := [Add(Warned(9)), Add(Warned(10)), Add(Warned(12))];
            && Orderly(STALE_CONFIG, 0, ops)
            && Records(ops) == [Warned(9), Warned(10), Warned(12)]
            && Replay(STALE_CONFIG, 0, ops)
               == Ring(STALE_CONFIG, 0, 12 * SECOND, ZERO_TIME,
                       [Bumped(Fresh(12), Warned(12)), Bumped(Fresh(10), Warned(10)), Fresh(0)])
  {
    var c := STALE_CONFIG;
    assert c.Slots() == 3;
    var a, b, d := Warned(9), Warned(10), Warned(12);
    var o1, o2, o3 := [Add(a)], [Add(a), Add(b)], [Add(a), Add(b), Add(d)];
    assert o1[..0] == [] && o2[..1] == o1 && o3[..2] == o2;
    var w0 := Started(c, 0);
    var w1 := AddToSlot(w0, a, 0);
    var w2 := AddToSlot(w1, b, 1);
    var w3 := AddToSlot(w2, d, 0);
    assert w3.buckets == [Bumped(Fresh(12), d), Bumped(Fresh(10), b), Fresh(0)];
    assert Replay(c, 0, []) == w0;
    assert Replay(c, 0, o1) == w1;
    assert Replay(c, 0, o2) == w2;
    assert Orderly(c, 0, []) && Orderly(c, 0, o1) && Orderly(c, 0, o2);
    assert Records([]) == [];
    assert Records(o1) == [a];
    assert Records(o2) == [a, b];
  }

  // The time condition is needed: a ready snapshot for a time before the newest record misses one.
  lemma StaleSnapshotUndercounts()
    ensures STALE_CONFIG.Valid()
    ensures var ops := [Add(Warned(9)), Add(Warned(10)), Add(Warned(12))];
            var s := Summarize(Replay(STALE_CONFIG, 0, ops), 11 * SECOND);
            Orderly(STALE_CONFIG, 0, ops) && s.ready && s.total < CountAt(Records(ops), Span(9, 11), Any)
  {
    hide Replay, Orderly, Records, CountAt, SumIn;
    StaleReplay();
    var w := Ring(STALE_CONFIG, 0, 12 * SECOND, ZERO_TIME,
                  [Bumped(Fresh(12), Warned(12)), Bumped(Fresh(10), Warned(10)), Fresh(0)]);
    StaleSum(w.buckets, Warned(10), Warned(12));
    OneWarning(w, Warned(10));
    CountThree(Warned(9), Warned(10), Warned(12));
  }

  // A window of two seconds in which the ring finds one warning is ready.
  lemma OneWarning(w: Ring, r: Record)
    requires w.Shaped() && w.c == STALE_CONFIG && w.started == 0 && w.gapUntil <= 11 * SECOND
    requires r.severity == Classification(WARNING, false, false)
    requires forall f :: SumIn(w.buckets, 9, 11, f) == if Has(r, f) then 1 else 0
    ensures Summarize(w, 11 * SECOND).ready && Summarize(w, 11 * SECOND).total == 1
  {
    hide SumIn, DropsIn;
    assert w.c.Seconds() == 2 && Sec(11 * SECOND) == 11;
  }

  lemma CountThree(a: Record, b: Record, d: Record)
    requires Sec(a.at) == 9 && Sec(b.at) == 10
    ensures CountAt([a, b, d], Span(9, 11), Any) >= 2
  {
    hide CountAt, Span;
    CountAppend([], a, Span(9, 11), Any);
    CountAppend([a], b, Span(9, 11), Any);
    CountAppend([a, b], d, Span(9, 11), Any);
    assert [] + [a] == [a] && [a] + [b] == [a, b] && [a, b] + [d] == [a, b, d];
  }

  lemma AddToSlot(w: Ring, r: Record, k: int) returns (w': Ring)
    requires w.Shaped() && w.c.Slots() == 3 && !r.severity.blank && r.at >= w.last
    requires 0 <= k < 3 && Sec(r.at) % 3 == k && w.buckets[k].second != Sec(r.at)
    ensures w' == Added(w, r)
    ensures w' == w.(last := r.at, buckets := w.buckets[k := Bumped(Fresh(Sec(r.at)), r)])
  {
    w' := Added(w, r);
    IndexIsFloorMod(Sec(r.at), 3);
  }

  lemma StaleSum(bs: seq<Bucket>, b: Record, d: Record)
    requires bs == [Bumped(Fresh(12), d), Bumped(Fresh(10), b), Fresh(0)]
    ensures forall f :: SumIn(bs, 9, 11, f) == if Has(b, f) then 1 else 0
  {
    assert bs[..3] == bs;
    forall f ensures SumIn(bs, 9, 11, f) == if Has(b, f) then 1 else 0 {
      SumStep(bs, 9, 11, f, 0);
      SumStep(bs, 9, 11, f, 1);
      SumStep(bs, 9, 11, f, 2);
      FreshHoldsNothing(10, f);
    }
  }

  ghost function FirstCounts(counts: seq<nat>, n: nat): nat
    requires n <= |counts|
  {
    if n == 0 then 0 else FirstCounts(counts, n - 1) + counts[n - 1]
  }

  lemma AllCounts(b: Bucket)
    requires |b.counts| == 7 && |b.channels| == 3
    ensures FirstCounts(b.counts, 7) == Get(b, Any)
  {
    assert FirstCounts(b.counts, 0) == 0;
    assert FirstCounts(b.counts, 1) == b.counts[0];
    assert FirstCounts(b.counts, 2) == b.counts[0] + b.counts[1];
    assert FirstCounts(b.counts, 3) == FirstCounts(b.counts, 2) + b.counts[2];
    assert FirstCounts(b.counts, 4) == FirstCounts(b.counts, 3) + b.counts[3];
    assert FirstCounts(b.counts, 5) == FirstCounts(b.counts, 4) + b.counts[4];
    assert FirstCounts(b.counts, 6) == FirstCounts(b.counts, 5) + b.counts[5];
  }

  // ---------- The window in place ----------

  class Window {
    const c: Config
    var started: int
    var last: int
    var gapUntil: int
    const buckets: array<Bucket>

    ghost predicate Valid()
      reads this, buckets
    {
      View().Shaped()
    }

    ghost function View(): Ring
      reads this, buckets
    {
      Ring(c, started, last, gapUntil, buckets[..])
    }

    constructor (c: Config, at: int)
      requires c.Valid()
      ensures Valid() && fresh(buckets)
      ensures View() == Started(c, at)
    {
      this.c := c;
      started, last, gapUntil := at, at, ZERO_TIME;
      buckets := new Bucket[c.Slots()](_ => Fresh(0));
      new;
      assert View().buckets == Started(c, at).buckets;
    }

    method MarkGap(at: int)
      requires Valid()
      modifies this`gapUntil
      ensures Valid() && View() == Gapped(old(View()), at)
    {
      var until := Sec(at) * SECOND + c.window + SECOND;
      if until > gapUntil { gapUntil := until; }
    }

    method Restart(at: int)
      requires Valid()
      modifies this`started, this`last, this`gapUntil, buckets
      ensures Valid() && View() == Restarted(old(View()), at)
    {
      forall i | 0 <= i < buckets.Length { buckets[i] := Fresh(0); }
      started, last, gapUntil := at, at, ZERO_TIME;
      assert View().buckets == Started(c, at).buckets;
    }

    method AddFrom(at: int, severity: Classification, channel: string)
      requires Valid()
      modifies this`last, this`gapUntil, buckets
      ensures Valid() && View() == Added(old(View()), Record(at, severity, channel))
    {
      if severity.blank { return; }
      if at < last - c.window {
        MarkGap(last);
        return;
      }
      if at > last { last := at; }
      ghost var w1 := View();
      var index, b := Open(Sec(at));
      var cl := severity;
      if cl.level < UNCLASSIFIED || cl.level > FATAL { cl := Classification(UNCLASSIFIED, true, false); }
      if b.counts[cl.level] >= TWO_53 / buckets.Length / 7 {
        MarkGap(at);
        return;
      }
      b := b.(counts := b.counts[cl.level := b.counts[cl.level] + 1]);
      var k := if channel == "stdout" then 0 else if channel == "stderr" then 1 else 2;
      b := b.(channels := b.channels[k := b.channels[k] + 1]);
      if cl.invalid { b := b.(invalid := b.invalid + 1); }
      buckets[index] := b;
      assert View().buckets == Stored(w1, b).buckets;
    }

    // The bucket of a second, emptied first if its slot holds another one.
    method Open(second: int) returns (index: int, b: Bucket)
      requires Valid()
      modifies buckets
      ensures Valid() && index == Index(second, buckets.Length) && 0 <= index < buckets.Length
      ensures b == Opened(old(View()), second) && View() == Stored(old(View()), b)
    {
      IndexIsFloorMod(second, buckets.Length);
      index := Index(second, buckets.Length);
      b := buckets[index];
      if b.second != second { b := Fresh(second); }
      buckets[index] := b;
      assert View().buckets == Stored(old(View()), b).buckets;
    }

    method Lose(at: int)
      requires Valid()
      modifies this`gapUntil, buckets
      ensures Valid() && View() == Dropped(old(View()), at)
    {
      MarkGap(at);
      ghost var w1 := View();
      var index, b := Open(Sec(at));
      if b.dropped < TWO_53 / buckets.Length { b := b.(dropped := b.dropped + 1); }
      buckets[index] := b;
      assert View().buckets == Stored(w1, b).buckets;
    }

    // The seven level counters of a bucket added to running totals.
    static method AddLevels(counts: seq<int>, b: Bucket) returns (sums: seq<int>, all: int)
      requires |counts| == 7 && |b.counts| == 7 && |b.channels| == 3
      ensures |sums| == 7 && forall l :: 0 <= l < 7 ==> sums[l] == counts[l] + Get(b, Level(l))
      ensures all == Get(b, Any)
    {
      sums, all := counts, 0;
      for l := 0 to 7
        invariant |sums| == 7
        invariant forall k :: 0 <= k < 7 ==> sums[k] == counts[k] + (if k < l then b.counts[k] else 0)
        invariant all == FirstCounts(b.counts, l)
      {
        sums := sums[l := sums[l] + b.counts[l]];
        all := all + b.counts[l];
      }
      AllCounts(b);
    }

    // The counters of the buckets whose second lies in [lo, end).
    method Accumulate(lo: int, end: int)
      returns (counts: seq<int>, channels: seq<int>, total: int, invalid: int, dropped: int)
      requires Valid()
      ensures |counts| == 7 && forall l :: 0 <= l < 7 ==> counts[l] == SumIn(buckets[..], lo, end, Level(l))
      ensures |channels| == 3 && forall k :: 0 <= k < 3 ==> channels[k] == SumIn(buckets[..], lo, end, Channel(k))
      ensures total == SumIn(buckets[..], lo, end, Any)
      ensures invalid == SumIn(buckets[..], lo, end, Invalid)
      ensures dropped == DropsIn(buckets[..], lo, end)
    {
      counts, channels := [0, 0, 0, 0, 0, 0, 0], [0, 0, 0];
      total, invalid, dropped := 0, 0, 0;
      ghost var bs := buckets[..];
      for i := 0 to buckets.Length
        invariant |counts| == 7 && forall l :: 0 <= l < 7 ==> counts[l] == SumIn(bs[..i], lo, end, Level(l))
        invariant |channels| == 3 && forall k :: 0 <= k < 3 ==> channels[k] == SumIn(bs[..i], lo, end, Channel(k))
        invariant total == SumIn(bs[..i], lo, end, Any)
        invariant invalid == SumIn(bs[..i], lo, end, Invalid)
        invariant dropped == DropsIn(bs[..i], lo, end)
      {
        var b := buckets[i];
        forall f ensures SumIn(bs[..i + 1], lo, end, f)
                      == SumIn(bs[..i], lo, end, f) + Contribution(b, lo, end, f)
        {
          SumStep(bs, lo, end, f, i);
        }
        assert bs[..i + 1][..i] == bs[..i];
        if lo <= b.second < end {
          var all;
          counts, all := AddLevels(counts, b);
          total, invalid := total + all, invalid + b.invalid;
          channels := [channels[0] + b.channels[0], channels[1] + b.channels[1], channels[2] + b.channels[2]];
          dropped := dropped + b.dropped;
        }
      }
      assert bs[..buckets.Length] == bs;
    }

    method Snapshot(at: int) returns (s: Summary)
      requires Valid()
      ensures s == Summarize(View(), at) && Judged(s, c, started, gapUntil)
    {
      SummaryMeans(View(), at);
      var end := Sec(at);
      var counts, channels, total, invalid, dropped := Accumulate(end - c.Seconds(), end);
      s := Summary(1, end * SECOND - c.window, end * SECOND, c.Seconds(),
                   total, total - counts[UNCLASSIFIED], counts[UNCLASSIFIED],
                   counts[WARNING], counts[ERROR], counts[FATAL],
                   invalid, channels[0], channels[1], channels[2], dropped,
                   0.0, None, None, false, false, IsReady);
      assert s == Counted(View(), end);
      if s.total > 0 { s := s.(coverage := s.classified as real / s.total as real); }
      s := s.(complete := end * SECOND >= started + c.window && end * SECOND >= gapUntil && s.invalid == 0);
      if end * SECOND < gapUntil {
        s := s.(reason := CollectionGap);
      } else if s.invalid > 0 {
        s := s.(reason := InvalidRecords);
      } else if end * SECOND < started + c.window {
        s := s.(reason := WarmingUp);
      } else if s.total < c.minEvents {
        s := s.(reason := InsufficientRecords);
      } else if s.coverage < c.minCoverage {
        s := s.(reason := InsufficientCoverage);
      } else {
        s := s.(ready := true);
        s := s.(warningRatio := Ratio(s.warnings, s.total), errorRatio := Ratio(s.errors + s.fatal, s.total));
      }
    }
  }

  /** A window for any configuration the limits allow, and none for any other. */
  method NewWindow(c: Config, at: int) returns (w: Window?)
    ensures w == null <==> !c.Valid()
    ensures w != null ==> fresh(w) && fresh(w.buckets) && w.Valid() && w.View() == Started(c, at)
  {
    if c.window < SECOND || c.window > 3600 * SECOND || c.window % SECOND != 0 || c.minEvents < 1
      || c.minCoverage < 0.0 || c.minCoverage > 1.0 {
      return null;
    }
    w := new Window(c, at);
  }
}
