/**
  The log pipeline from end to end (internal/logs/collector.go:86-111): streams frame the bytes
  written to them and hand each record to the collector, whose worker counts it into the window.

  Writing, framing timers, handing a record over, the worker's steps, snapshots and resets are
  separate steps that may come in any order, so the streams interleave as they please. What a
  ready answer counts is stated in terms of the bytes: the records of the streams are the lines
  of what was written to them.
 */
module LogPipeline {
  import opened Common
  import opened LogWindow
  import opened LogCollector
  import Framing = LogFraming

  // ---------- Records of several streams ----------

  ghost function Concat(seen: seq<seq<Framed>>): seq<Framed> {
    if seen == [] then [] else Concat(seen[..|seen| - 1]) + seen[|seen| - 1]
  }

  ghost function CountedIn(fs: seq<Framed>, seconds: set<int>, f: Facet): nat { CountAt(Visible(fs), seconds, f) }

  lemma CountedAppend(fs: seq<Framed>, x: Framed, seconds: set<int>, f: Facet)
    ensures CountedIn(fs + [x], seconds, f) == CountedIn(fs, seconds, f) + CountAt(Single(x.record), seconds, f)
  {
    assert (fs + [x])[..|fs|] == fs;
    CountFramed(fs + [x], seconds, f);
  }

  lemma NothingCounted(seconds: set<int>, f: Facet)
    ensures CountedIn([], seconds, f) == 0
  {
  }

  lemma {:induction false} CountedConcat(a: seq<Framed>, b: seq<Framed>, seconds: set<int>, f: Facet)
    ensures CountedIn(a + b, seconds, f) == CountedIn(a, seconds, f) + CountedIn(b, seconds, f)
  {
    hide CountedIn;
    if b == [] {
      assert a + b == a;
      NothingCounted(seconds, f);
    } else {
      var init, x := b[..|b| - 1], b[|b| - 1];
      CountedConcat(a, init, seconds, f);
      CountedAppend(a + init, x, seconds, f);
      CountedAppend(init, x, seconds, f);
      assert a + b == (a + init) + [x] && b == init + [x];
    }
  }

  lemma LastSeen(seen: seq<seq<Framed>>)
    requires seen != []
    ensures Concat(seen) == Concat(seen[..|seen| - 1]) + seen[|seen| - 1]
  {
  }

  // One stream hands over one more record.
  lemma {:induction false} OneMoreSeen(seen: seq<seq<Framed>>, i: nat, x: Framed, seconds: set<int>, f: Facet)
    requires i < |seen|
    ensures CountedIn(Concat(seen[i := seen[i] + [x]]), seconds, f)
         == CountedIn(Concat(seen), seconds, f) + CountAt(Single(x.record), seconds, f)
  {
    hide CountedIn, Concat;
    var n := |seen| - 1;
    var init, last := seen[..n], seen[n];
    var seen' := seen[i := seen[i] + [x]];
    LastSeen(seen);
    LastSeen(seen');
    CountedConcat(Concat(init), last, seconds, f);
    if i == n {
      assert seen'[..n] == init;
      CountedConcat(Concat(init), last + [x], seconds, f);
      CountedAppend(last, x, seconds, f);
    } else {
      assert seen'[..n] == init[i := init[i] + [x]];
      OneMoreSeen(init, i, x, seconds, f);
      CountedConcat(Concat(seen'[..n]), last, seconds, f);
    }
  }

  lemma {:induction false} NothingSeen(seen: seq<seq<Framed>>)
    requires forall i :: 0 <= i < |seen| ==> seen[i] == []
    ensures Concat(seen) == []
  {
    if seen != [] { NothingSeen(seen[..|seen| - 1]); }
  }

  lemma AnotherStream(seen: seq<seq<Framed>>)
    ensures Concat(seen + [[]]) == Concat(seen)
  {
    assert (seen + [[]])[..|seen|] == seen;
  }

  /** What the collector framed is what the streams handed over, merged in some order. */
  ghost predicate Merges(framed: seq<Framed>, seen: seq<seq<Framed>>) {
    && (forall seconds, f :: CountedIn(framed, seconds, f) == CountedIn(Concat(seen), seconds, f))
    && (forall i, k :: 0 <= i < |seen| && 0 <= k < |seen[i]| ==> seen[i][k] in framed)
  }

  lemma MergesNext(framed: seq<Framed>, seen: seq<seq<Framed>>, i: nat, x: Framed)
    requires Merges(framed, seen) && i < |seen|
    ensures Merges(framed + [x], seen[i := seen[i] + [x]])
  {
    hide CountedIn, Concat;
    forall seconds, f
      ensures CountedIn(framed + [x], seconds, f) == CountedIn(Concat(seen[i := seen[i] + [x]]), seconds, f)
    {
      CountedAppend(framed, x, seconds, f);
      OneMoreSeen(seen, i, x, seconds, f);
    }
  }

  // Every record handed over with a time in these seconds found room in the queue.
  ghost predicate NoneLost(seen: seq<seq<Framed>>, seconds: set<int>) {
    forall i, k :: 0 <= i < |seen| && 0 <= k < |seen[i]| ==> seen[i][k].kept || Sec(seen[i][k].record.at) !in seconds
  }

  // The record a framed output becomes when it is handed over.
  function Handed(cl: Classifier, o: Framing.Out, at: int, channel: string): Record {
    RecordOf(cl, Output(o.data, o.invalid, at, channel, 0))
  }

  /** What a stream handed over in this session, from its record `first` on, is what it framed, in order. */
  ghost predicate Tells(cl: Classifier, out: seq<Framing.Out>, first: nat, passed: nat, seen: seq<Framed>, channel: string) {
    && first <= passed <= |out| && |seen| == passed - first
    && forall k :: 0 <= k < |seen| ==> seen[k].record == Handed(cl, out[first + k], seen[k].record.at, channel)
  }

  lemma TellsOn(cl: Classifier, out: seq<Framing.Out>, out': seq<Framing.Out>, first: nat, passed: nat, seen: seq<Framed>, channel: string)
    requires Tells(cl, out, first, passed, seen, channel) && out <= out'
    ensures Tells(cl, out', first, passed, seen, channel)
  {
  }

  lemma TellsNext(cl: Classifier, out: seq<Framing.Out>, first: nat, passed: nat, seen: seq<Framed>, channel: string, at: int, kept: bool)
    requires Tells(cl, out, first, passed, seen, channel) && passed < |out|
    ensures Tells(cl, out, first, passed + 1, seen + [Framed(Handed(cl, out[passed], at, channel), kept)], channel)
  {
  }

  class Pipeline {
    const collector: Collector
    const mode: Framing.Mode
    const carriageReturn: bool
    var streams: seq<Framing.Framer>
    var channels: seq<string>

    // How many records each stream has handed over,
    var passed: seq<nat>

    // and how many of them in earlier sessions.
    ghost var first: seq<nat>
    // What each stream handed over in this session.
    ghost var seen: seq<seq<Framed>>

    ghost predicate StreamsOk()
      reads this, streams
    {
      && |streams| == |channels| == |passed| == |first| == |seen|
      && (forall i, j :: 0 <= i < j < |streams| ==> streams[i] != streams[j])
      && (forall i :: 0 <= i < |streams| ==>
            streams[i].Valid() && streams[i].mode == mode && streams[i].carriageReturn == carriageReturn)
    }

    ghost predicate Valid()
      reads this, collector, collector.window, collector.window.buckets, streams
    {
      && collector.Valid()
      && (mode.Multiline? ==> mode.maxLines >= 2 && !carriageReturn)
      && StreamsOk()
      && (forall i :: 0 <= i < |streams| ==>
            Tells(collector.classify, streams[i].out, first[i], passed[i], seen[i], channels[i]))
      && Merges(collector.framed, seen)
    }

    constructor (c: Config, classify: Classifier, mode: Framing.Mode, carriageReturn: bool, at: int)
      requires c.Valid() && (mode.Multiline? ==> mode.maxLines >= 2 && !carriageReturn)
      ensures Valid() && streams == [] && fresh(collector) && fresh(collector.window) && fresh(collector.window.buckets)
    {
      collector := new Collector(c, classify, at);
      this.mode, this.carriageReturn := mode, carriageReturn;
      streams, channels, passed, first, seen := [], [], [], [], [];
      new;
      NothingSeen([]);
    }

    /** A stream for one output channel. */
    method Stream(channel: string)
      requires Valid()
      modifies this`streams, this`channels, this`passed, this`first, this`seen
      ensures Valid() && |streams| == |old(streams)| + 1 && streams[..|old(streams)|] == old(streams)
      ensures channels == old(channels) + [channel] && streams[|old(streams)|].written == []
    {
      hide Framing.Framer.Valid, Collector.Valid, CountedIn, Concat;
      var f := new Framing.Framer(mode, carriageReturn);
      AnotherStream(seen);
      streams, channels := streams + [f], channels + [channel];
      passed, first, seen := passed + [0], first + [0], seen + [[]];
    }

    /** Bytes written to a stream are framed; its records wait to be handed over. */
    method Write(i: nat, p: seq<byte>)
      requires Valid() && i < |streams|
      modifies streams[i]
      ensures Valid()
      ensures streams[i].written == if old(streams[i].closed) then old(streams[i].written) else old(streams[i].written) + p
    {
      hide Framing.Framer.Valid, Collector.Valid, Merges, Tells;
      ghost var out := streams[i].out;
      var n, ok := streams[i].Write(p);
      TellsOn(collector.classify, out, streams[i].out, first[i], passed[i], seen[i], channels[i]);
    }

    /** A stream is closed: what is left over is framed too. */
    method CloseStream(i: nat)
      requires Valid() && i < |streams|
      modifies streams[i]
      ensures Valid() && streams[i].closed && streams[i].written == old(streams[i].written)
    {
      hide Framing.Framer.Valid, Collector.Valid, Merges, Tells;
      ghost var out := streams[i].out;
      streams[i].Close();
      TellsOn(collector.classify, out, streams[i].out, first[i], passed[i], seen[i], channels[i]);
    }

    /** A framing timer fires. */
    method TimerFires(i: nat, e: nat)
      requires Valid() && i < |streams| && e in streams[i].story.armed
      modifies streams[i]
      ensures Valid() && streams[i].written == old(streams[i].written)
    {
      hide Framing.Framer.Valid, Collector.Valid, Merges, Tells;
      ghost var out := streams[i].out;
      streams[i].TimerFires(e);
      TellsOn(collector.classify, out, streams[i].out, first[i], passed[i], seen[i], channels[i]);
    }

    /** A stream hands its oldest record over: it joins the queue, or is lost and the window told so. */
    method HandOver(i: nat, at: int)
      requires Valid() && i < |streams| && passed[i] < |streams[i].out| && collector.now <= at
      modifies this`passed, this`seen, collector, collector.window, collector.window.buckets
      ensures Valid() && passed == old(passed)[i := old(passed)[i] + 1] && collector.now == at
    {
      hide Framing.Framer.Valid, Collector.Valid, Merges, Tells, LogWindow.Window.Valid;
      var o := streams[i].out[passed[i]];
      ghost var framed := collector.framed;
      var kept := collector.Complete(o.data, o.invalid, channels[i], at);
      ghost var x := Framed(Handed(collector.classify, o, at, channels[i]), kept);
      MergesNext(framed, seen, i, x);
      TellsNext(collector.classify, streams[i].out, first[i], passed[i], seen[i], channels[i], at, kept);
      passed, seen := passed[i := passed[i] + 1], seen[i := seen[i] + [x]];
    }

    /** The worker takes the oldest item of the queue. */
    method Take()
      requires Valid() && collector.held.None? && collector.queue != []
      modifies collector
      ensures Valid()
    {
      hide Framing.Framer.Valid, Collector.Valid, Merges, Tells;
      collector.Take();
    }

    /** The worker counts the record it holds, if its session is still current. */
    method Analyze()
      requires Valid() && collector.held.Some? && collector.held.value.Output?
      modifies collector, collector.window, collector.window.buckets
      ensures Valid()
    {
      hide Framing.Framer.Valid, Collector.Valid, Merges, Tells;
      collector.Analyze();
    }

    method RequestSnapshot(at: int) returns (queued: bool)
      requires Valid() && collector.now <= at
      modifies collector, collector.window
      ensures Valid()
    {
      hide Framing.Framer.Valid, Collector.Valid, Merges, Tells;
      queued := collector.RequestSnapshot(at);
    }

    /** The collector session is replaced: what streams handed over before no longer counts. */
    method Reset(at: int)
      requires Valid() && collector.now <= at
      modifies this`first, this`seen, collector, collector.window, collector.window.buckets
      ensures Valid() && first == passed
    {
      hide Framing.Framer.Valid, Collector.Valid, CountedIn, Concat;
      collector.NewSession(at);
      first, seen := passed, seq(|streams|, _ => []);
      NothingSeen(seen);
    }

    // What stream `i` handed over in this session are lines of the bytes written to it, in order.
    ghost predicate HandsOverLines(i: nat)
      requires i < |streams| && |streams| == |channels| == |passed| == |first| == |seen|
      reads this, collector, streams[i]
    {
      Tells(collector.classify, Framing.LineRecords(Framing.AllLines(carriageReturn, streams[i].written, streams[i].closed)),
            first[i], passed[i], seen[i], channels[i])
    }

    lemma HandedAreLines(i: nat)
      requires Valid() && i < |streams| && mode.Plain? && !streams[i].abandoned
      ensures HandsOverLines(i)
    {
      hide Framing.Framer.Valid, Collector.Valid, Merges, Framing.LineRecords, Framing.AllLines;
      streams[i].RecordsOfBytes();
    }

    /**
      End to end: a ready answer counts, in every counter, exactly the records the streams handed
      over in this session with a time in its window, none of which was lost or is still on its
      way; in line and carriage-return modes those records are the lines of the bytes written to
      the streams, however the writes were cut and the streams interleaved.
     */
    method Answer() returns (s: Summary)
      requires Valid() && collector.held.Some? && collector.held.value.Barrier?
      modifies collector
      ensures Valid()
      ensures s.ready ==> CountsExactly(s, Visible(Concat(seen)))
      ensures s.ready ==> NoneLost(seen, Span(Sec(s.windowStart), Sec(s.windowEnd)))
      ensures mode.Plain? ==> forall i :: 0 <= i < |streams| && !streams[i].abandoned ==> HandsOverLines(i)
    {
      hide Framing.Framer.Valid, Collector.Valid, Tells, Summarize, CountAt, Concat, Visible;
      s := collector.Answer();
      if s.ready { MergedCounts(s, collector.framed, seen); }
      if mode.Plain? {
        forall i | 0 <= i < |streams| && !streams[i].abandoned ensures HandsOverLines(i) { HandedAreLines(i); }
      }
    }
  }

  lemma MergedCounts(s: Summary, framed: seq<Framed>, seen: seq<seq<Framed>>)
    requires Merges(framed, seen) && CountsExactly(s, Visible(framed))
    ensures CountsExactly(s, Visible(Concat(seen)))
  {
    hide CountAt, Visible, Concat;
    var seconds := Span(Sec(s.windowStart), Sec(s.windowEnd));
    forall f ensures CountAt(Visible(framed), seconds, f) == CountAt(Visible(Concat(seen)), seconds, f) {
      assert CountedIn(framed, seconds, f) == CountedIn(Concat(seen), seconds, f);
    }
  }
}
