/**
  The log collector (internal/logs/collector.go): stream callbacks put framed records into a
  bounded queue, a worker classifies them into the rolling window, and a snapshot travels
  through the same queue as a barrier.

  Each method is one atomic step under the collector's mutex or the window's; the worker's two
  steps, receiving an item and finishing it, are separate, so any other step may come between.
  The clock is a parameter of each step and never runs backwards (`now`).
 */
module LogCollector {
  import opened Common
  import opened LogWindow

  const MAX_QUEUE := 4096
  const MAX_BYTES := 0x40_0000

  datatype Item =
    | Output(data: seq<byte>, invalid: bool, at: int, channel: string, epoch: nat)
    | Barrier(at: int)

  datatype Statistics = Statistics(records: nat, warnings: nat, errors: nat, unclassified: nat, invalid: nat, dropped: nat)

  const NO_STATISTICS := Statistics(0, 0, 0, 0, 0, 0)

  function Tallied(s: Statistics, c: Classification): Statistics {
    if c.blank then s
    else
      s.(records := s.records + 1,
         warnings := s.warnings + (if c.level == WARNING then 1 else 0),
         errors := s.errors + (if c.level == ERROR || c.level == FATAL then 1 else 0),
         unclassified := s.unclassified + (if c.level == UNCLASSIFIED then 1 else 0),
         invalid := s.invalid + (if c.invalid then 1 else 0))
  }

  // A record a stream framed in the current session, and whether the queue took it.
  datatype Framed = Framed(record: Record, kept: bool)

  // ---------- Lists of framed records ----------

  function Single(r: Record): seq<Record> { if r.severity.blank then [] else [r] }

  /** The non-blank records framed in this session, whether or not the queue took them. */
  ghost function Visible(fs: seq<Framed>): seq<Record> {
    if fs == [] then [] else Visible(fs[..|fs| - 1]) + Single(fs[|fs| - 1].record)
  }

  // Those the queue took.
  ghost function Taken(fs: seq<Framed>): seq<Record> {
    if fs == [] then []
    else Taken(fs[..|fs| - 1]) + (if fs[|fs| - 1].kept then Single(fs[|fs| - 1].record) else [])
  }

  ghost function Lost(fs: seq<Framed>): nat {
    if fs == [] then 0 else Lost(fs[..|fs| - 1]) + (if fs[|fs| - 1].kept then 0 else 1)
  }

  ghost function Recount(rs: seq<Record>): Statistics {
    if rs == [] then NO_STATISTICS else Tallied(Recount(rs[..|rs| - 1]), rs[|rs| - 1].severity)
  }

  // How many records have this level.
  ghost function HowMany(rs: seq<Record>, level: int): nat {
    if rs == [] then 0 else HowMany(rs[..|rs| - 1], level) + (if rs[|rs| - 1].severity.level == level then 1 else 0)
  }

  ghost function HowManyInvalid(rs: seq<Record>): nat {
    if rs == [] then 0 else HowManyInvalid(rs[..|rs| - 1]) + (if rs[|rs| - 1].severity.invalid then 1 else 0)
  }

  /** The statistics of a session: its records, warnings, errors and fatal records, unclassified and invalid ones. */
  lemma {:induction false} StatisticsMean(rs: seq<Record>)
    requires forall i :: 0 <= i < |rs| ==> !rs[i].severity.blank
    ensures Recount(rs) == Statistics(|rs|, HowMany(rs, 4), HowMany(rs, 5) + HowMany(rs, 6), HowMany(rs, 0), HowManyInvalid(rs), 0)
  {
    if rs != [] { StatisticsMean(rs[..|rs| - 1]); }
  }

  lemma LastFramed(fs: seq<Framed>)
    requires fs != []
    ensures var init, x := fs[..|fs| - 1], fs[|fs| - 1];
            && Visible(fs) == Visible(init) + Single(x.record)
            && Taken(fs) == Taken(init) + (if x.kept then Single(x.record) else [])
  {
  }

  // Records outside the window do not matter to its counts.
  lemma {:induction false} LostOutside(fs: seq<Framed>, seconds: set<int>, f: Facet)
    requires forall i :: 0 <= i < |fs| ==> fs[i].kept || Sec(fs[i].record.at) !in seconds
    ensures CountAt(Visible(fs), seconds, f) == CountAt(Taken(fs), seconds, f)
  {
    if fs != [] {
      LostOutside(fs[..|fs| - 1], seconds, f);
      CountFramed(fs, seconds, f);
    }
  }

  // The last framed record counts alike in both lists unless it was lost inside.
  lemma CountFramed(fs: seq<Framed>, seconds: set<int>, f: Facet)
    requires fs != []
    ensures var init, x := fs[..|fs| - 1], fs[|fs| - 1];
            var one := CountAt(Single(x.record), seconds, f);
            && CountAt(Visible(fs), seconds, f) == CountAt(Visible(init), seconds, f) + one
            && CountAt(Taken(fs), seconds, f) == CountAt(Taken(init), seconds, f) + (if x.kept then one else 0)
            && (Sec(x.record.at) !in seconds ==> one == 0)
  {
    hide CountAt, Single, Visible, Taken;
    var init, x := fs[..|fs| - 1], fs[|fs| - 1];
    LastFramed(fs);
    CountConcat(Visible(init), Single(x.record), seconds, f);
    if x.kept { CountConcat(Taken(init), Single(x.record), seconds, f); } else { assert Taken(init) + [] == Taken(init); }
    if Sec(x.record.at) !in seconds { SingleOutside(x.record, seconds, f); }
  }

  lemma SingleOutside(r: Record, seconds: set<int>, f: Facet)
    requires Sec(r.at) !in seconds
    ensures CountAt(Single(r), seconds, f) == 0
  {
    CountNone(Single(r), seconds, f);
  }

  // ---------- Items on their way to the window ----------

  type Classifier = seq<byte> -> Classification

  // The record an item stands for.
  function RecordOf(cl: Classifier, it: Item): Record
    requires it.Output?
  {
    Record(it.at, if it.invalid then Classification(UNCLASSIFIED, true, false) else cl(it.data), it.channel)
  }

  // The non-blank record an item will add to session `e`, if any.
  ghost function Adds(cl: Classifier, it: Item, e: nat): seq<Record> {
    if it.Output? && it.epoch == e then Single(RecordOf(cl, it)) else []
  }

  ghost function Pending(cl: Classifier, items: seq<Item>, e: nat): seq<Record> {
    if items == [] then [] else Pending(cl, items[..|items| - 1], e) + Adds(cl, items[|items| - 1], e)
  }

  function Size(it: Item): nat { if it.Output? then |it.data| else 0 }

  ghost function Bytes(items: seq<Item>): nat {
    if items == [] then 0 else Bytes(items[..|items| - 1]) + Size(items[|items| - 1])
  }

  lemma LastPending(cl: Classifier, items: seq<Item>, e: nat)
    requires items != []
    ensures var init, it := items[..|items| - 1], items[|items| - 1];
            Pending(cl, items, e) == Pending(cl, init, e) + Adds(cl, it, e) && Bytes(items) == Bytes(init) + Size(it)
  {
  }

  lemma {:induction false} PendingHead(cl: Classifier, items: seq<Item>, e: nat)
    requires items != []
    ensures Pending(cl, items, e) == Adds(cl, items[0], e) + Pending(cl, items[1..], e)
    ensures Bytes(items) == Size(items[0]) + Bytes(items[1..])
  {
    if |items| == 1 {
      assert items[..0] == [] && items[1..] == [];
    } else {
      hide Pending, Bytes, Adds;
      var init := items[..|items| - 1];
      PendingHead(cl, init, e);
      LastPending(cl, items, e);
      LastPending(cl, items[1..], e);
      assert items[1..][..|items| - 2] == init[1..] && init[0] == items[0];
      var first, middle, last := Adds(cl, items[0], e), Pending(cl, init[1..], e), Adds(cl, items[|items| - 1], e);
      assert (first + middle) + last == first + (middle + last);
    }
  }

  lemma {:induction false} PendingOfNewSession(cl: Classifier, items: seq<Item>, e: nat)
    requires forall it :: it in items && it.Output? ==> it.epoch < e
    ensures Pending(cl, items, e) == []
  {
    if items != [] {
      assert items[|items| - 1] in items;
      PendingOfNewSession(cl, items[..|items| - 1], e);
    }
  }

  lemma {:induction false} PendingIsLater(cl: Classifier, items: seq<Item>, e: nat, at: int)
    requires forall it :: it in items ==> it.at >= at
    ensures forall r :: r in Pending(cl, items, e) ==> r.at >= at
  {
    if items != [] { PendingIsLater(cl, items[..|items| - 1], e, at); }
  }

  // ---------- The invariant, part by part ----------

  ghost predicate RingOk(w: Ring, analyzed: seq<Record>) {
    w.Shaped() && Placed(w) && LossesCovered(w) && Exact(w, analyzed)
  }

  // Nothing taken is lost or analyzed twice on its way through the queue.
  ghost predicate FlowOk(cl: Classifier, framed: seq<Framed>, analyzed: seq<Record>, waiting: seq<Item>, e: nat) {
    Taken(framed) == analyzed + Pending(cl, waiting, e)
  }

  ghost predicate LossOk(w: Ring, framed: seq<Framed>) {
    forall x :: x in framed && !x.kept ==> w.gapUntil >= GapEnd(w.c, x.record.at)
  }

  ghost predicate Timely(started: int, last: int, e: nat, now: int, it: Item) {
    && it.at <= now
    && (it.at >= last || it.at <= started)
    && (it.Output? ==> it.epoch <= e && (it.epoch == e ==> it.at >= started))
  }

  ghost predicate TimeOk(started: int, last: int, e: nat, now: int, waiting: seq<Item>) {
    && started <= last <= now
    && (forall i, j :: 0 <= i < j < |waiting| ==> waiting[i].at <= waiting[j].at)
    && (forall i :: 0 <= i < |waiting| ==> Timely(started, last, e, now, waiting[i]))
  }

  ghost predicate StatisticsOk(s: Statistics, analyzed: seq<Record>, framed: seq<Framed>) {
    s == Recount(analyzed).(dropped := Lost(framed))
  }

  lemma FlowKept(cl: Classifier, framed: seq<Framed>, analyzed: seq<Record>, waiting: seq<Item>, it: Item)
    requires it.Output? && FlowOk(cl, framed, analyzed, waiting, it.epoch)
    ensures FlowOk(cl, framed + [Framed(RecordOf(cl, it), true)], analyzed, waiting + [it], it.epoch)
    ensures Lost(framed + [Framed(RecordOf(cl, it), true)]) == Lost(framed)
  {
    var x := Framed(RecordOf(cl, it), true);
    assert (framed + [x])[..|framed|] == framed && (waiting + [it])[..|waiting|] == waiting;
  }

  lemma FlowLost(cl: Classifier, framed: seq<Framed>, r: Record)
    ensures Taken(framed + [Framed(r, false)]) == Taken(framed)
    ensures Lost(framed + [Framed(r, false)]) == Lost(framed) + 1
  {
    assert (framed + [Framed(r, false)])[..|framed|] == framed;
  }

  lemma FlowBarrier(cl: Classifier, waiting: seq<Item>, it: Item, e: nat)
    requires it.Barrier?
    ensures Pending(cl, waiting + [it], e) == Pending(cl, waiting, e)
    ensures Bytes(waiting + [it]) == Bytes(waiting)
  {
    assert (waiting + [it])[..|waiting|] == waiting;
  }

  lemma TimeAppend(started: int, last: int, e: nat, now: int, waiting: seq<Item>, it: Item)
    requires TimeOk(started, last, e, now, waiting)
    requires now <= it.at && (it.Output? ==> it.epoch == e)
    ensures TimeOk(started, last, e, it.at, waiting + [it])
  {
    forall i | 0 <= i < |waiting| + 1 ensures Timely(started, last, e, it.at, (waiting + [it])[i]) {
      if i < |waiting| { assert Timely(started, last, e, now, waiting[i]); }
    }
  }

  lemma TimeLater(started: int, last: int, e: nat, now: int, waiting: seq<Item>, at: int)
    requires TimeOk(started, last, e, now, waiting) && now <= at
    ensures TimeOk(started, last, e, at, waiting)
  {
    forall i | 0 <= i < |waiting| ensures Timely(started, last, e, at, waiting[i]) {
      assert Timely(started, last, e, now, waiting[i]);
    }
  }

  // The worker finishes the oldest item, possibly advancing the window to its time.
  lemma TimeHead(started: int, last: int, e: nat, now: int, waiting: seq<Item>, last': int)
    requires TimeOk(started, last, e, now, waiting) && waiting != []
    requires last' == last || (last' == waiting[0].at > last && waiting[0].at >= started)
    ensures TimeOk(started, last', e, now, waiting[1..])
  {
    assert Timely(started, last, e, now, waiting[0]);
    forall i | 0 <= i < |waiting| - 1 ensures Timely(started, last', e, now, waiting[1..][i]) {
      assert Timely(started, last, e, now, waiting[i + 1]);
    }
  }

  lemma TimeBehind(started: int, last: int, e: nat, now: int, waiting: seq<Item>)
    requires TimeOk(started, last, e, now, waiting) && waiting != []
    ensures waiting[0].at >= last || waiting[0].at <= started
    ensures forall it :: it in waiting[1..] ==> it.at >= waiting[0].at
  {
    assert Timely(started, last, e, now, waiting[0]);
    forall it | it in waiting[1..] ensures it.at >= waiting[0].at {
      var i :| 0 <= i < |waiting[1..]| && waiting[1..][i] == it;
      assert waiting[0].at <= waiting[i + 1].at;
    }
  }

  lemma TimeReset(started: int, last: int, e: nat, now: int, waiting: seq<Item>, at: int)
    requires TimeOk(started, last, e, now, waiting) && now <= at
    ensures TimeOk(at, at, e + 1, at, waiting)
    ensures forall it :: it in waiting && it.Output? ==> it.epoch < e + 1
  {
    forall i | 0 <= i < |waiting| ensures Timely(at, at, e + 1, at, waiting[i]) {
      assert Timely(started, last, e, now, waiting[i]);
    }
    forall it | it in waiting && it.Output? ensures it.epoch < e + 1 {
      var i :| 0 <= i < |waiting| && waiting[i] == it;
      assert Timely(started, last, e, now, waiting[i]);
    }
  }

  /**
    A ready summary for time `at`, taken when everything still waiting completed at or after
    `at`, counts exactly the records framed in its window: none of them was lost, and none
    is still waiting.
   */
  lemma ReadySummaryIsExact(cl: Classifier, w: Ring, framed: seq<Framed>, analyzed: seq<Record>,
                            waiting: seq<Item>, e: nat, at: int)
    requires RingOk(w, analyzed) && FlowOk(cl, framed, analyzed, waiting, e) && LossOk(w, framed)
    requires forall it :: it in waiting ==> it.at >= at
    requires at >= w.last || at <= w.started
    requires Summarize(w, at).ready
    ensures CountsExactly(Summarize(w, at), Visible(framed))
    ensures var s := Summarize(w, at);
            && s.dropped == 0 && s.windowStart >= w.started
            && (forall x :: x in framed && !x.kept ==> Sec(x.record.at) !in Span(Sec(s.windowStart), Sec(s.windowEnd)))
            && (forall it :: it in waiting ==> Sec(it.at) !in Span(Sec(s.windowStart), Sec(s.windowEnd)))
  {
    var s := Summarize(w, at);
    assert Sec(at) >= Sec(w.last);
    ReadySummary(w, analyzed, at);
    var seconds := Span(Sec(s.windowStart), Sec(s.windowEnd));
    forall x | x in framed && !x.kept ensures Sec(x.record.at) !in seconds {}
    PendingIsLater(cl, waiting, e, at);
    forall f ensures CountAt(Visible(framed), seconds, f) == CountAt(analyzed, seconds, f) {
      LostOutside(framed, seconds, f);
      CountConcat(analyzed, Pending(cl, waiting, e), seconds, f);
      CountNone(Pending(cl, waiting, e), seconds, f);
    }
  }

  // ---------- The whole state as a value, and what each step keeps ----------

  datatype Flow = Flow(cl: Classifier, w: Ring, framed: seq<Framed>, analyzed: seq<Record>, waiting: seq<Item>,
                       epoch: nat, now: int, bytes: int, statistics: Statistics)

  ghost predicate Ok(s: Flow) {
    && RingOk(s.w, s.analyzed)
    && FlowOk(s.cl, s.framed, s.analyzed, s.waiting, s.epoch)
    && LossOk(s.w, s.framed)
    && TimeOk(s.w.started, s.w.last, s.epoch, s.now, s.waiting)
    && StatisticsOk(s.statistics, s.analyzed, s.framed)
    && s.bytes == Bytes(s.waiting) <= MAX_BYTES
  }

  lemma EnqueueKeeps(s: Flow, it: Item)
    requires Ok(s) && it.Output? && it.epoch == s.epoch && s.now <= it.at && s.bytes + |it.data| <= MAX_BYTES
    ensures Ok(s.(framed := s.framed + [Framed(RecordOf(s.cl, it), true)], waiting := s.waiting + [it],
                  now := it.at, bytes := s.bytes + |it.data|))
  {
    FlowKept(s.cl, s.framed, s.analyzed, s.waiting, it);
    TimeAppend(s.w.started, s.w.last, s.epoch, s.now, s.waiting, it);
    assert (s.waiting + [it])[..|s.waiting|] == s.waiting;
  }

  lemma DiscardKeeps(s: Flow, it: Item)
    requires Ok(s) && it.Output? && s.now <= it.at
    ensures Ok(s.(w := Dropped(s.w, it.at), framed := s.framed + [Framed(RecordOf(s.cl, it), false)],
                  now := it.at, statistics := s.statistics.(dropped := s.statistics.dropped + 1)))
  {
    DropKeeps(s.w, s.analyzed, it.at);
    FlowLost(s.cl, s.framed, RecordOf(s.cl, it));
    TimeLater(s.w.started, s.w.last, s.epoch, s.now, s.waiting, it.at);
  }

  lemma RequestKeeps(s: Flow, at: int)
    requires Ok(s) && s.now <= at
    ensures Ok(s.(waiting := s.waiting + [Barrier(at)], now := at))
    ensures Ok(s.(w := Gapped(s.w, at), now := at))
  {
    FlowBarrier(s.cl, s.waiting, Barrier(at), s.epoch);
    TimeAppend(s.w.started, s.w.last, s.epoch, s.now, s.waiting, Barrier(at));
    GapKeeps(s.w, s.analyzed, at);
    TimeLater(s.w.started, s.w.last, s.epoch, s.now, s.waiting, at);
  }

  lemma NewSessionKeeps(s: Flow, at: int)
    requires Ok(s) && s.now <= at
    ensures Ok(s.(w := Restarted(s.w, at), framed := [], analyzed := [], epoch := s.epoch + 1, now := at,
                  statistics := NO_STATISTICS))
  {
    TimeReset(s.w.started, s.w.last, s.epoch, s.now, s.waiting, at);
    PendingOfNewSession(s.cl, s.waiting, s.epoch + 1);
    StartedIsExact(s.w.c, at);
  }

  lemma AddedTimes(w: Ring, r: Record)
    requires w.Shaped() && !r.severity.blank
    ensures var w' := Added(w, r);
            && w'.c == w.c && w'.started == w.started && w'.gapUntil >= w.gapUntil
            && w'.last == if r.at > w.last then r.at else w.last
  {
  }

  lemma FlowHead(cl: Classifier, framed: seq<Framed>, analyzed: seq<Record>, waiting: seq<Item>, e: nat)
    requires FlowOk(cl, framed, analyzed, waiting, e) && waiting != []
    ensures FlowOk(cl, framed, analyzed + Adds(cl, waiting[0], e), waiting[1..], e)
  {
    PendingHead(cl, waiting, e);
    var first, rest := Adds(cl, waiting[0], e), Pending(cl, waiting[1..], e);
    assert analyzed + (first + rest) == (analyzed + first) + rest;
  }

  lemma StatisticsNext(s: Statistics, analyzed: seq<Record>, framed: seq<Framed>, r: Record)
    requires StatisticsOk(s, analyzed, framed)
    ensures StatisticsOk(Tallied(s, r.severity), analyzed + [r], framed)
  {
    assert (analyzed + [r])[..|analyzed|] == analyzed;
  }

  lemma CountKeepsTime(s: Flow, last: int)
    requires Ok(s) && s.waiting != [] && Adds(s.cl, s.waiting[0], s.epoch) != []
    requires last == if s.waiting[0].at > s.w.last then s.waiting[0].at else s.w.last
    ensures TimeOk(s.w.started, last, s.epoch, s.now, s.waiting[1..])
  {
    assert Timely(s.w.started, s.w.last, s.epoch, s.now, s.waiting[0]);
    TimeHead(s.w.started, s.w.last, s.epoch, s.now, s.waiting, last);
  }

  lemma CountKeeps(s: Flow)
    requires Ok(s) && s.waiting != [] && Adds(s.cl, s.waiting[0], s.epoch) != []
    ensures var it := s.waiting[0];
            var r := RecordOf(s.cl, it);
            Ok(s.(w := Added(s.w, r), analyzed := s.analyzed + [r], waiting := s.waiting[1..],
                  bytes := s.bytes - |it.data|, statistics := Tallied(s.statistics, r.severity)))
  {
    hide Exact, Placed, LossesCovered, Added, Pending, Taken, Recount, Bytes, Visible, Lost, TimeOk, FlowOk, StatisticsOk, Tallied;
    var r := RecordOf(s.cl, s.waiting[0]);
    AddKeeps(s.w, s.analyzed, r);
    AddedTimes(s.w, r);
    FlowHead(s.cl, s.framed, s.analyzed, s.waiting, s.epoch);
    PendingHead(s.cl, s.waiting, s.epoch);
    StatisticsNext(s.statistics, s.analyzed, s.framed, r);
    CountKeepsTime(s, Added(s.w, r).last);
  }

  lemma SetAsideKeeps(s: Flow)
    requires Ok(s) && s.waiting != [] && Adds(s.cl, s.waiting[0], s.epoch) == []
    ensures Ok(s.(waiting := s.waiting[1..], bytes := s.bytes - Size(s.waiting[0])))
  {
    PendingHead(s.cl, s.waiting, s.epoch);
    FlowHead(s.cl, s.framed, s.analyzed, s.waiting, s.epoch);
    assert s.analyzed + [] == s.analyzed;
    TimeHead(s.w.started, s.w.last, s.epoch, s.now, s.waiting, s.w.last);
  }

  // What a snapshot answered for `at` says about the session's records.
  ghost predicate Answers(s: Summary, framed: seq<Framed>, waiting: seq<Item>) {
    var seconds := Span(Sec(s.windowStart), Sec(s.windowEnd));
    && CountsExactly(s, Visible(framed))
    && s.dropped == 0
    && (forall x :: x in framed && !x.kept ==> Sec(x.record.at) !in seconds)
    && (forall it :: it in waiting ==> Sec(it.at) !in seconds)
  }

  /** A snapshot answered in queue order is exact whenever it is ready. */
  lemma BarrierIsExact(s: Flow)
    requires Ok(s) && s.waiting != [] && s.waiting[0].Barrier?
    ensures var summary := Summarize(s.w, s.waiting[0].at);
            summary.ready ==> Answers(summary, s.framed, s.waiting[1..]) && summary.windowStart >= s.w.started
  {
    var at := s.waiting[0].at;
    TimeBehind(s.w.started, s.w.last, s.epoch, s.now, s.waiting);
    FlowHead(s.cl, s.framed, s.analyzed, s.waiting, s.epoch);
    assert s.analyzed + [] == s.analyzed;
    if Summarize(s.w, at).ready {
      ReadySummaryIsExact(s.cl, s.w, s.framed, s.analyzed, s.waiting[1..], s.epoch, at);
    }
  }

  // ---------- The collector ----------

  class Collector {
    const window: Window
    // Classification of a complete record; the parser is an arbitrary function here.
    const classify: Classifier
    var queue: seq<Item>
    var held: Option<Item>
    var queuedBytes: int
    var epoch: nat
    var statistics: Statistics

    ghost var now: int
    // Every record framed in the current session.
    ghost var framed: seq<Framed>
    // The non-blank records of this session the worker has put into the window.
    ghost var analyzed: seq<Record>

    ghost function View(): Flow
      reads this, window, window.buckets
    {
      Flow(classify, window.View(), framed, analyzed, (if held.Some? then [held.value] else []) + queue,
           epoch, now, queuedBytes, statistics)
    }

    ghost predicate Valid()
      reads this, window, window.buckets
    {
      window.Valid() && Ok(View()) && |queue| <= MAX_QUEUE
    }

    constructor (c: Config, classify: Classifier, at: int)
      requires c.Valid()
      ensures Valid() && fresh(window) && fresh(window.buckets)
      ensures View() == Flow(classify, Started(c, at), [], [], [], 0, at, 0, NO_STATISTICS)
    {
      window := new Window(c, at);
      this.classify := classify;
      queue, held, queuedBytes, epoch, statistics := [], None, 0, 0, NO_STATISTICS;
      now, framed, analyzed := at, [], [];
      new;
      StartedIsExact(c, at);
    }

    // A completed record joins the queue.
    method Enqueue(it: Item)
      requires Valid() && it.Output? && it.epoch == epoch && now <= it.at
      requires queuedBytes + |it.data| <= MAX_BYTES && |queue| < MAX_QUEUE
      modifies this`queue, this`queuedBytes, this`now, this`framed
      ensures Valid() && now == it.at && queue == old(queue) + [it]
      ensures framed == old(framed) + [Framed(RecordOf(classify, it), true)]
    {
      hide Ok;
      ghost var s := View();
      assert s.bytes == queuedBytes;
      EnqueueKeeps(s, it);
      queue := queue + [it];
      queuedBytes := queuedBytes + |it.data|;
      now, framed := it.at, framed + [Framed(RecordOf(classify, it), true)];
      assert View().waiting == s.waiting + [it];
    }

    // A completed record finds no room: the window is told that its second lost one.
    method Discard(it: Item)
      requires Valid() && it.Output? && it.epoch == epoch && now <= it.at
      modifies this`statistics, this`now, this`framed, window`gapUntil, window.buckets
      ensures Valid() && now == it.at
      ensures framed == old(framed) + [Framed(RecordOf(classify, it), false)]
    {
      hide Ok, Dropped;
      DiscardKeeps(View(), it);
      statistics := statistics.(dropped := statistics.dropped + 1);
      window.Lose(it.at);
      now, framed := it.at, framed + [Framed(RecordOf(classify, it), false)];
    }

    /** A stream completed a record; it joins the queue, or is lost and the window told so. */
    method Complete(data: seq<byte>, invalid: bool, channel: string, at: int) returns (kept: bool)
      requires Valid() && now <= at
      modifies this`queue, this`queuedBytes, this`statistics, this`now, this`framed, window`gapUntil, window.buckets
      ensures Valid() && now == at
      ensures kept <==> old(queuedBytes) + |data| <= 4 * 1024 * 1024 && |old(queue)| < 4096
      ensures framed == old(framed) + [Framed(RecordOf(classify, Output(data, invalid, at, channel, epoch)), kept)]
      ensures queue == if kept then old(queue) + [Output(data, invalid, at, channel, epoch)] else old(queue)
    {
      var it := Output(data, invalid, at, channel, epoch);
      kept := queuedBytes + |data| <= MAX_BYTES && |queue| < MAX_QUEUE;
      if kept { Enqueue(it); } else { Discard(it); }
    }

    /** A snapshot request enters the queue with its time; a full queue refuses it and marks a gap. */
    method RequestSnapshot(at: int) returns (queued: bool)
      requires Valid() && now <= at
      modifies this`queue, this`now, window`gapUntil
      ensures Valid() && now == at && queued == (|old(queue)| < MAX_QUEUE)
      ensures queue == if queued then old(queue) + [Barrier(at)] else old(queue)
    {
      hide Ok, Gapped;
      ghost var s := View();
      RequestKeeps(s, at);
      queued := |queue| < MAX_QUEUE;
      if queued {
        queue := queue + [Barrier(at)];
      } else {
        window.MarkGap(at);
      }
      now := at;
      assert queued ==> View().waiting == s.waiting + [Barrier(at)];
    }

    /** A gap reported from outside, or after a snapshot took too long. */
    method Gap(at: int)
      requires Valid()
      modifies window`gapUntil
      ensures Valid() && window.View() == Gapped(old(window.View()), at)
    {
      GapKeeps(View().w, analyzed, at);
      window.MarkGap(at);
    }

    /** A snapshot after the worker has finished and the queue is empty needs no barrier. */
    method FinalSnapshot(at: int) returns (s: Summary)
      requires Valid() && held.None? && queue == [] && now <= at
      ensures s == Summarize(window.View(), at)
      ensures s.ready ==> Answers(s, framed, []) && s.windowStart >= window.started
    {
      ghost var f := View();
      assert f.waiting == [];
      s := window.Snapshot(at);
      if s.ready { ReadySummaryIsExact(f.cl, f.w, f.framed, f.analyzed, [], f.epoch, at); }
    }

    /** The collector session is replaced: earlier records no longer count. */
    method NewSession(at: int)
      requires Valid() && now <= at
      modifies this`epoch, this`statistics, this`now, this`framed, this`analyzed,
               window`started, window`last, window`gapUntil, window.buckets
      ensures Valid() && now == at && epoch == old(epoch) + 1 && framed == [] && window.started == at
    {
      hide Ok;
      NewSessionKeeps(View(), at);
      epoch := epoch + 1;
      statistics := NO_STATISTICS;
      window.Restart(at);
      now, framed, analyzed := at, [], [];
    }

    /** The worker receives the oldest item. */
    method Take()
      requires Valid() && held.None? && queue != []
      modifies this`queue, this`held
      ensures Valid() && held == Some(old(queue)[0]) && queue == old(queue)[1..]
    {
      ghost var s := View();
      held := Some(queue[0]);
      queue := queue[1..];
      assert View().waiting == s.waiting;
    }

    // A non-blank record of the current session enters the window.
    method Count(it: Item, severity: Classification)
      requires Valid() && held == Some(it) && it.Output? && it.epoch == epoch
      requires severity == RecordOf(classify, it).severity && !severity.blank
      modifies this`held, this`queuedBytes, this`statistics, this`analyzed, window`last, window`gapUntil, window.buckets
      ensures Valid() && held == None && analyzed == old(analyzed) + [RecordOf(classify, it)]
    {
      hide Ok, Added;
      ghost var s := View();
      assert s.waiting[0] == it && s.waiting[1..] == queue;
      CountKeeps(s);
      queuedBytes := queuedBytes - |it.data|;
      window.AddFrom(it.at, severity, it.channel);
      statistics := Tallied(statistics, severity);
      held, analyzed := None, analyzed + [RecordOf(classify, it)];
      assert View().waiting == queue;
    }

    // Any other record leaves the window as it is.
    method SetAside(it: Item)
      requires Valid() && held == Some(it) && it.Output? && Adds(classify, it, epoch) == []
      modifies this`held, this`queuedBytes
      ensures Valid() && held == None
    {
      hide Ok;
      ghost var s := View();
      assert s.waiting[0] == it && s.waiting[1..] == queue;
      SetAsideKeeps(s);
      queuedBytes := queuedBytes - |it.data|;
      held := None;
      assert View().waiting == queue;
    }

    /** The worker classifies the record it holds into the window, if its session is still current. */
    method Analyze()
      requires Valid() && held.Some? && held.value.Output?
      modifies this`held, this`queuedBytes, this`statistics, this`analyzed, window`last, window`gapUntil, window.buckets
      ensures Valid() && held == None
      ensures analyzed == old(analyzed) + Adds(classify, old(held).value, epoch)
    {
      var it := held.value;
      var severity := Classification(UNCLASSIFIED, true, false);
      if !it.invalid { severity := classify(it.data); }
      if it.epoch == epoch && !severity.blank { Count(it, severity); } else { SetAside(it); }
    }

    /** The worker answers the snapshot it holds; a ready answer is exact. */
    method Answer() returns (s: Summary)
      requires Valid() && held.Some? && held.value.Barrier?
      modifies this`held
      ensures Valid() && held == None
      ensures s == Summarize(window.View(), old(held).value.at)
      ensures s.ready ==> Answers(s, framed, queue) && s.windowStart >= window.started
    {
      hide Ok, Answers, Summarize;
      ghost var before := View();
      assert before.waiting[0] == held.value && before.waiting[1..] == queue;
      s := window.Snapshot(held.value.at);
      BarrierIsExact(before);
      SetAsideKeeps(before);
      held := None;
      assert View().waiting == queue;
    }
  }
}
