/**
  What a ready summary says about any history of the rolling window (internal/logs/window.go),
  whatever the order of its operations and whatever the time of the snapshot.

  A record offered to the ring is held, or refused and covered by a gap, or overwritten when
  another second takes its slot over. Nothing else can happen to it, so a ready summary is short
  by exactly the overwritten records of its window.
 */
module LogOverwriting {
  import opened LogWindow

  // ---------- Records of one second ----------

  ghost function Inside(h: seq<Record>, s: int): seq<Record> {
    if h == [] then [] else Inside(h[..|h| - 1], s) + (if Sec(h[|h| - 1].at) == s then [h[|h| - 1]] else [])
  }

  ghost function Outside(h: seq<Record>, s: int): seq<Record> {
    if h == [] then [] else Outside(h[..|h| - 1], s) + (if Sec(h[|h| - 1].at) != s then [h[|h| - 1]] else [])
  }

  lemma {:induction false} CountSplits(h: seq<Record>, s: int, seconds: set<int>, f: Facet)
    ensures CountAt(h, seconds, f) == CountAt(Inside(h, s), seconds, f) + CountAt(Outside(h, s), seconds, f)
    ensures s !in seconds ==> CountAt(Inside(h, s), seconds, f) == 0
    ensures seconds == {s} ==> CountAt(Outside(h, s), seconds, f) == 0
  {
    if h != [] {
      hide CountAt, Inside, Outside;
      var init, r := h[..|h| - 1], h[|h| - 1];
      assert h == init + [r];
      CountSplits(init, s, seconds, f);
      LastSplits(h, s);
      CountAppend(init, r, seconds, f);
      if Sec(r.at) == s {
        CountAppend(Inside(init, s), r, seconds, f);
      } else {
        CountAppend(Outside(init, s), r, seconds, f);
      }
    }
  }

  lemma LastSplits(h: seq<Record>, s: int)
    requires h != []
    ensures var init, r := h[..|h| - 1], h[|h| - 1];
            && Inside(h, s) == (if Sec(r.at) == s then Inside(init, s) + [r] else Inside(init, s))
            && Outside(h, s) == (if Sec(r.at) == s then Outside(init, s) else Outside(init, s) + [r])
  {
  }

  // ---------- What becomes of a record ----------

  /** The records offered: held in their buckets, overwritten, or refused as too old or beyond saturation. */
  datatype Fates = Fates(kept: seq<Record>, overwritten: seq<Record>, refused: seq<Record>)

  // Opening the bucket of a second overwrites the other second its slot holds.
  ghost predicate Displaces(w: Ring, second: int)
    requires w.Shaped()
  {
    var b := w.buckets[second % w.c.Slots()];
    b.second != second && b.second % w.c.Slots() == second % w.c.Slots()
  }

  ghost function AfterOpening(w: Ring, x: Fates, second: int): Fates
    requires w.Shaped()
  {
    if !Displaces(w, second) then x
    else
      var s := w.buckets[second % w.c.Slots()].second;
      x.(kept := Outside(x.kept, s), overwritten := x.overwritten + Inside(x.kept, s))
  }

  ghost function AfterAdding(w: Ring, x: Fates, r: Record): Fates
    requires w.Shaped()
  {
    if r.severity.blank then x
    else if r.at < w.last - w.c.window then x.(refused := x.refused + [r])
    else
      var x' := AfterOpening(w, x, Sec(r.at));
      if Opened(w, Sec(r.at)).counts[Normal(r.severity).level] >= w.c.Limit() then x'.(refused := x'.refused + [r])
      else x'.(kept := x'.kept + [r])
  }

  ghost function FatesOf(c: Config, start: int, ops: seq<Op>): Fates
    requires c.Valid()
  {
    if ops == [] then Fates([], [], [])
    else
      var init := ops[..|ops| - 1];
      var w, x := Replay(c, start, init), FatesOf(c, start, init);
      match ops[|ops| - 1]
      case Add(r) => AfterAdding(w, x, r)
      case Drop(at) => AfterOpening(w, x, Sec(at))
      case Gap(_) => x
      case Reset(_) => Fates([], [], [])
  }

  // ---------- What every operation keeps ----------

  ghost predicate Holds(w: Ring, kept: seq<Record>)
    requires w.Shaped()
  {
    forall t, f :: Held(w, t, f) == CountAt(kept, {t}, f)
  }

  ghost predicate Conserved(h: seq<Record>, x: Fates) {
    forall seconds, f ::
      CountAt(h, seconds, f) == CountAt(x.kept, seconds, f) + CountAt(x.overwritten, seconds, f) + CountAt(x.refused, seconds, f)
  }

  ghost predicate Covered(w: Ring, refused: seq<Record>)
    requires w.c.Valid()
  {
    forall r :: r in refused ==> (Sec(r.at) + w.c.Seconds()) * SECOND < w.gapUntil
  }

  ghost predicate Accounted(w: Ring, h: seq<Record>, x: Fates)
    requires w.Shaped()
  {
    Holds(w, x.kept) && Conserved(h, x) && Covered(w, x.refused)
  }

  lemma NothingOffered(c: Config, at: int)
    requires c.Valid()
    ensures Accounted(Started(c, at), [], Fates([], [], []))
  {
    var w := Started(c, at);
    forall t, f ensures Held(w, t, f) == CountAt([], {t}, f) { FreshHoldsNothing(0, f); }
  }

  // What is held after a bucket is opened and stored, perhaps with one more record in it.
  lemma OpeningHolds(w: Ring, x: Fates, second: int, b: Bucket)
    requires w.Shaped() && Holds(w, x.kept)
    requires b.second == second && |b.counts| == 7 && |b.channels| == 3
    requires forall f :: Get(b, f) == Get(Opened(w, second), f)
    ensures Holds(Stored(w, b), AfterOpening(w, x, second).kept)
  {
    var n, s := w.c.Slots(), w.buckets[second % w.c.Slots()].second;
    hide CountAt, Inside, Outside;
    forall t, f ensures Held(Stored(w, b), t, f) == CountAt(AfterOpening(w, x, second).kept, {t}, f) {
      StoredHolds(w, b, t, f);
      OpenedHolds(w, second, f);
      assert Held(w, t, f) == CountAt(x.kept, {t}, f);
      CountSplits(x.kept, s, {t}, f);
    }
  }

  lemma OpeningConserves(w: Ring, h: seq<Record>, x: Fates, second: int)
    requires w.Shaped() && Conserved(h, x)
    ensures Conserved(h, AfterOpening(w, x, second))
  {
    hide CountAt, Inside, Outside;
    if Displaces(w, second) {
      var s := w.buckets[second % w.c.Slots()].second;
      var x' := AfterOpening(w, x, second);
      forall seconds, f
        ensures CountAt(h, seconds, f)
             == CountAt(x'.kept, seconds, f) + CountAt(x'.overwritten, seconds, f) + CountAt(x'.refused, seconds, f)
      {
        CountSplits(x.kept, s, seconds, f);
        CountConcat(x.overwritten, Inside(x.kept, s), seconds, f);
      }
    }
  }

  // One more record, kept or refused.
  lemma OfferConserves(h: seq<Record>, x: Fates, r: Record)
    requires Conserved(h, x)
    ensures Conserved(h + [r], x.(kept := x.kept + [r])) && Conserved(h + [r], x.(refused := x.refused + [r]))
  {
    hide CountAt;
    forall seconds, f
      ensures var one := if Sec(r.at) in seconds && Has(r, f) then 1 else 0;
              && CountAt(h + [r], seconds, f) == CountAt(h, seconds, f) + one
              && CountAt(x.kept + [r], seconds, f) == CountAt(x.kept, seconds, f) + one
              && CountAt(x.refused + [r], seconds, f) == CountAt(x.refused, seconds, f) + one
    {
      CountAppend(h, r, seconds, f);
      CountAppend(x.kept, r, seconds, f);
      CountAppend(x.refused, r, seconds, f);
    }
  }

  lemma BumpHolds(w: Ring, kept: seq<Record>, b: Bucket, r: Record)
    requires w.Shaped() && |b.counts| == 7 && |b.channels| == 3 && b.second == Sec(r.at)
    requires Holds(Stored(w, b), kept)
    ensures Holds(Stored(w, Bumped(b, r)), kept + [r])
  {
    hide CountAt;
    forall t, f ensures Held(Stored(w, Bumped(b, r)), t, f) == CountAt(kept + [r], {t}, f) {
      assert Held(Stored(w, b), t, f) == CountAt(kept, {t}, f);
      StoredHolds(w, b, t, f);
      StoredHolds(w, Bumped(b, r), t, f);
      CountAppend(kept, r, {t}, f);
    }
  }

  lemma SameBuckets(w: Ring, w': Ring, kept: seq<Record>)
    requires w.Shaped() && w'.Shaped() && w.c == w'.c && w.buckets == w'.buckets && Holds(w, kept)
    ensures Holds(w', kept)
  {
    hide CountAt;
    forall t, f ensures Held(w', t, f) == CountAt(kept, {t}, f) { assert Held(w, t, f) == CountAt(kept, {t}, f); }
  }

  lemma AddAccounts(w: Ring, h: seq<Record>, x: Fates, r: Record)
    requires w.Shaped() && Accounted(w, h, x) && !r.severity.blank
    ensures Accounted(Added(w, r), h + [r], AfterAdding(w, x, r))
  {
    hide Holds, Conserved, CountAt;
    if r.at < w.last - w.c.window {
      OfferConserves(h, x, r);
      SameBuckets(w, Gapped(w, w.last), x.kept);
    } else {
      var w1 := if r.at > w.last then w.(last := r.at) else w;
      var b, x' := Opened(w1, Sec(r.at)), AfterOpening(w, x, Sec(r.at));
      SameBuckets(w, w1, x.kept);
      OpeningHolds(w1, x, Sec(r.at), b);
      OpeningConserves(w, h, x, Sec(r.at));
      OfferConserves(h, x', r);
      BumpHolds(w1, x'.kept, b, r);
      SameBuckets(Stored(w1, b), Gapped(Stored(w1, b), r.at), x'.kept);
    }
  }

  lemma DropAccounts(w: Ring, h: seq<Record>, x: Fates, at: int)
    requires w.Shaped() && Accounted(w, h, x)
    ensures Accounted(Dropped(w, at), h, AfterOpening(w, x, Sec(at)))
  {
    hide Holds, Conserved, CountAt;
    var w1 := Gapped(w, at);
    var b := Opened(w1, Sec(at));
    SameBuckets(w, w1, x.kept);
    OpeningHolds(w1, x, Sec(at), if b.dropped < TWO_53 / w.c.Slots() then b.(dropped := b.dropped + 1) else b);
    OpeningConserves(w, h, x, Sec(at));
  }

  /** Over every history each offered record is held, overwritten, or refused and covered by the gap. */
  lemma {:induction false} EveryRecordIsAccountedFor(c: Config, start: int, ops: seq<Op>)
    requires c.Valid()
    ensures Accounted(Replay(c, start, ops), Records(ops), FatesOf(c, start, ops))
  {
    hide Accounted, Added, Dropped, Gapped, Restarted, AfterAdding, AfterOpening;
    if ops == [] {
      NothingOffered(c, start);
    } else {
      var init := ops[..|ops| - 1];
      EveryRecordIsAccountedFor(c, start, init);
      var w, h, x := Replay(c, start, init), Records(init), FatesOf(c, start, init);
      match ops[|ops| - 1] {
        case Add(r) => if r.severity.blank { BlankChangesNothing(w, x, r); } else { AddAccounts(w, h, x, r); }
        case Drop(at) => DropAccounts(w, h, x, at);
        case Gap(at) => GapAccounts(w, h, x, at);
        case Reset(at) => ResetAccounts(w, at);
      }
    }
  }

  lemma BlankChangesNothing(w: Ring, x: Fates, r: Record)
    requires w.Shaped() && r.severity.blank
    ensures Added(w, r) == w && AfterAdding(w, x, r) == x
  {
  }

  lemma GapAccounts(w: Ring, h: seq<Record>, x: Fates, at: int)
    requires w.Shaped() && Accounted(w, h, x)
    ensures Accounted(Gapped(w, at), h, x)
  {
    hide Holds, Conserved;
    SameBuckets(w, Gapped(w, at), x.kept);
  }

  lemma ResetAccounts(w: Ring, at: int)
    requires w.Shaped()
    ensures Accounted(Restarted(w, at), [], Fates([], [], []))
  {
    NothingOffered(w.c, at);
  }

  // ---------- What a ready summary counts ----------

  lemma SlotHoldsItsSecond(w: Ring, kept: seq<Record>, end: int, f: Facet, i: int)
    requires w.Shaped() && Holds(w, kept) && Placed(w) && 0 <= i < |w.buckets|
    ensures var lo := end - w.c.Seconds();
            var t := SlotSecond(lo, w.c.Slots(), i);
            Contribution(w.buckets[i], lo, end, f) == if t < end then CountAt(kept, {t}, f) else 0
  {
    hide CountAt;
    var b, n := w.buckets[i], w.c.Slots();
    var t := SlotSecond(end - w.c.Seconds(), n, i);
    SlotSecondFits(end - w.c.Seconds(), n, i);
    if b.second % n == i { SameSlot(b.second, t, n); }
    FreshHoldsNothing(0, f);
    assert Held(w, t, f) == CountAt(kept, {t}, f);
  }

  lemma RingCountsTheKept(w: Ring, kept: seq<Record>, end: int, f: Facet)
    requires w.Shaped() && Holds(w, kept) && Placed(w)
    ensures SumIn(w.buckets, end - w.c.Seconds(), end, f) == CountAt(kept, Span(end - w.c.Seconds(), end), f)
  {
    hide Holds, Placed, CountAt, SumIn, SlotSecond, Contribution;
    var lo, n := end - w.c.Seconds(), w.c.Slots();
    forall k | 0 <= k < n
      ensures var t := SlotSecond(lo, n, k);
              Contribution(w.buckets[k], lo, end, f) == if t < end then CountAt(kept, {t}, f) else 0
    {
      SlotHoldsItsSecond(w, kept, end, f, k);
    }
    SlotsCountTheList(w.buckets, kept, lo, end, f, n);
    assert w.buckets[..|w.buckets|] == w.buckets;
    assert Slotted(lo, end, n, n) == Span(lo, end);
  }

  // Every counter of the window, and the records it is short of.
  ghost predicate ShortBy(s: Summary, h: seq<Record>, missing: seq<Record>) {
    var seconds := Span(Sec(s.windowStart), Sec(s.windowEnd));
    && s.total + CountAt(missing, seconds, Any) == CountAt(h, seconds, Any)
    && s.unclassified + CountAt(missing, seconds, Level(UNCLASSIFIED)) == CountAt(h, seconds, Level(UNCLASSIFIED))
    && s.classified == s.total - s.unclassified
    && s.warnings + CountAt(missing, seconds, Level(WARNING)) == CountAt(h, seconds, Level(WARNING))
    && s.errors + CountAt(missing, seconds, Level(ERROR)) == CountAt(h, seconds, Level(ERROR))
    && s.fatal + CountAt(missing, seconds, Level(FATAL)) == CountAt(h, seconds, Level(FATAL))
    && s.invalid + CountAt(missing, seconds, Invalid) == CountAt(h, seconds, Invalid)
    && s.stdout + CountAt(missing, seconds, Channel(0)) == CountAt(h, seconds, Channel(0))
    && s.stderr + CountAt(missing, seconds, Channel(1)) == CountAt(h, seconds, Channel(1))
    && s.other + CountAt(missing, seconds, Channel(2)) == CountAt(h, seconds, Channel(2))
  }

  lemma AccountedSummary(w: Ring, h: seq<Record>, x: Fates, at: int)
    requires w.Shaped() && Accounted(w, h, x) && Placed(w) && Summarize(w, at).ready
    ensures ShortBy(Summarize(w, at), h, x.overwritten)
  {
    hide CountAt, SumIn, Placed, Summarize;
    SummaryCounts(w, at);
    ReadyMeans(w, at);
    var end := Sec(at);
    var lo := end - w.c.Seconds();
    forall f ensures SumIn(w.buckets, lo, end, f) + CountAt(x.overwritten, Span(lo, end), f) == CountAt(h, Span(lo, end), f) {
      RingCountsTheKept(w, x.kept, end, f);
      CountNone(x.refused, Span(lo, end), f);
    }
  }

  /**
    Any history, any time: a ready summary is short, in every counter, by exactly the overwritten
    records of its window. Nothing of that window was reported lost, and it lies after the start.
   */
  lemma ReadyIsShortByTheOverwritten(c: Config, start: int, ops: seq<Op>, at: int)
    requires c.Valid() && Summarize(Replay(c, start, ops), at).ready
    ensures var s := Summarize(Replay(c, start, ops), at);
            && ShortBy(s, Records(ops), FatesOf(c, start, ops).overwritten)
            && s.dropped == 0 && s.windowStart >= Replay(c, start, ops).started
            && forall lost :: lost in Losses(ops) ==> Sec(lost) !in Span(Sec(s.windowStart), Sec(s.windowEnd))
  {
    hide Accounted, Records, FatesOf, ShortBy, SumIn, DropsIn, Summarize, Replay, Losses, Placed, Exact;
    HistoryIsExact(c, start, ops);
    EveryRecordIsAccountedFor(c, start, ops);
    var w := Replay(c, start, ops);
    AccountedSummary(w, Records(ops), FatesOf(c, start, ops), at);
    SummaryCounts(w, at);
    ReadyMeans(w, at);
    NoLossesInside(w.buckets, Sec(at) - c.Seconds(), Sec(at));
  }

  lemma {:induction false} SomeCounted(h: seq<Record>, seconds: set<int>)
    ensures CountAt(h, seconds, Any) == 0 <==> forall r :: r in h ==> Sec(r.at) !in seconds
  {
    if h != [] {
      var init, r := h[..|h| - 1], h[|h| - 1];
      assert h == init + [r];
      SomeCounted(init, seconds);
    }
  }

  /**
    When a ready summary is exact, for any history and any time: if and only if no record of its
    window was in a bucket that another second took over.
   */
  lemma ReadyIsExactUnlessOverwritten(c: Config, start: int, ops: seq<Op>, at: int)
    requires c.Valid() && Summarize(Replay(c, start, ops), at).ready
    ensures var s := Summarize(Replay(c, start, ops), at);
            CountsExactly(s, Records(ops)) <==>
              forall r :: r in FatesOf(c, start, ops).overwritten ==> Sec(r.at) !in Span(Sec(s.windowStart), Sec(s.windowEnd))
  {
    hide Records, FatesOf, Summarize, CountAt;
    ReadyIsShortByTheOverwritten(c, start, ops, at);
    var s, lost := Summarize(Replay(c, start, ops), at), FatesOf(c, start, ops).overwritten;
    var seconds := Span(Sec(s.windowStart), Sec(s.windowEnd));
    SomeCounted(lost, seconds);
    if CountAt(lost, seconds, Any) == 0 {
      forall f ensures CountAt(lost, seconds, f) == 0 { CountNone(lost, seconds, f); }
    }
  }

  // ---------- A loss reported too late ----------

  lemma LateDropReplay()
    ensures STALE_CONFIG.Valid()
    ensures var ops := [Add(Warned(9)), Add(Warned(10)), Drop(7 * SECOND)];
            && !Orderly(STALE_CONFIG, 0, ops) && Records(ops) == [Warned(9), Warned(10)]
            && Replay(STALE_CONFIG, 0, ops)
               == Ring(STALE_CONFIG, 0, 10 * SECOND, 10 * SECOND,
                       [Bumped(Fresh(9), Warned(9)), Fresh(7).(dropped := 1), Fresh(0)])
  {
    var c, a, b := STALE_CONFIG, Warned(9), Warned(10);
    assert c.Slots() == 3;
    var o1, o2, o3 := [Add(a)], [Add(a), Add(b)], [Add(a), Add(b), Drop(7 * SECOND)];
    assert o1[..0] == [] && o2[..1] == o1 && o3[..2] == o2;
    var w0 := Started(c, 0);
    var w1 := AddToSlot(w0, a, 0);
    var w2 := AddToSlot(w1, b, 1);
    assert Replay(c, 0, []) == w0 && Replay(c, 0, o1) == w1 && Replay(c, 0, o2) == w2;
    assert Records([]) == [];
    assert Records(o1) == [a];
    assert Records(o2) == [a, b];
    DropInSlot(w2);
    assert Dropped(w2, 7 * SECOND).buckets == [Bumped(Fresh(9), a), Fresh(7).(dropped := 1), Fresh(0)];
  }

  lemma DropInSlot(w: Ring)
    requires w.Shaped() && w.c == STALE_CONFIG && w.gapUntil == ZERO_TIME && |w.buckets| == 3 && w.buckets[1].second == 10
    ensures Dropped(w, 7 * SECOND) == w.(gapUntil := 10 * SECOND, buckets := w.buckets[1 := Fresh(7).(dropped := 1)])
  {
    IndexIsFloorMod(7, 3);
    assert w.c.Slots() == 3 && Sec(7 * SECOND) == 7;
  }

  /**
    A loss reported for a second older than the ring reaches takes over the slot of a newer one,
    and the gap it marks ends before that one leaves the window: a snapshot after every record is
    ready and misses a record.
   */
  lemma LateDropUndercounts()
    ensures STALE_CONFIG.Valid()
    ensures var ops := [Add(Warned(9)), Add(Warned(10)), Drop(7 * SECOND)];
            var w := Replay(STALE_CONFIG, 0, ops);
            var s := Summarize(w, 11 * SECOND);
            Sec(11 * SECOND) >= Sec(w.last) && s.ready && s.total < CountAt(Records(ops), Span(9, 11), Any)
  {
    hide Replay, Records, CountAt, SumIn, Orderly;
    LateDropReplay();
    var w := Ring(STALE_CONFIG, 0, 10 * SECOND, 10 * SECOND,
                  [Bumped(Fresh(9), Warned(9)), Fresh(7).(dropped := 1), Fresh(0)]);
    LateSum(w.buckets, Warned(9));
    OneWarning(w, Warned(9));
    CountTwo(Warned(9), Warned(10));
  }

  lemma LateSum(bs: seq<Bucket>, a: Record)
    requires bs == [Bumped(Fresh(9), a), Fresh(7).(dropped := 1), Fresh(0)]
    ensures forall f :: SumIn(bs, 9, 11, f) == if Has(a, f) then 1 else 0
  {
    assert bs[..3] == bs;
    forall f ensures SumIn(bs, 9, 11, f) == if Has(a, f) then 1 else 0 {
      SumStep(bs, 9, 11, f, 0);
      SumStep(bs, 9, 11, f, 1);
      SumStep(bs, 9, 11, f, 2);
      FreshHoldsNothing(9, f);
    }
  }

  lemma CountTwo(a: Record, b: Record)
    requires Sec(a.at) == 9 && Sec(b.at) == 10
    ensures CountAt([a, b], Span(9, 11), Any) == 2
  {
    CountAppend([], a, Span(9, 11), Any);
    CountAppend([a], b, Span(9, 11), Any);
    assert CountAt([], Span(9, 11), Any) == 0;
    hide CountAt, Span;
    assert [] + [a] == [a] && [a] + [b] == [a, b];
  }
}
