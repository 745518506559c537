/**
  Transfers do happen: after any run of the transfer protocol, an action that nothing disturbs
  carries out what it is for (internal/mcpbridge/transfer_actions.go:67-127). A finish moves the
  watch, also when an earlier attempt got no further than pausing the source; a cancel gives it
  back.
 */
module HandoffProgress {
  import opened Common
  import opened Handoff

  ghost function Continue(s: State, steps: seq<Step>): State
    decreases |steps|
  {
    if steps == [] then s else Continue(Apply(s, steps[0]), steps[1..])
  }

  lemma {:induction false} RunContinues(before: seq<Step>, steps: seq<Step>)
    ensures Run(before + steps) == Continue(Run(before), steps)
    decreases |steps|
  {
    hide Apply, Run;
    if steps == [] {
      assert before + steps == before;
    } else {
      var first := before + [steps[0]];
      OneMore(before, steps[0]);
      assert before + steps == first + steps[1..];
      RunContinues(first, steps[1..]);
    }
  }

  lemma {:induction false} ContinueConcat(s: State, a: seq<Step>, b: seq<Step>)
    ensures Continue(s, a + b) == Continue(Continue(s, a), b)
    decreases |a|
  {
    hide Apply;
    if a == [] {
      assert a + b == b;
    } else {
      assert (a + b)[1..] == a[1..] + b;
      ContinueConcat(Apply(s, a[0]), a[1..], b);
    }
  }

  // ---------- One call, executed and answered ----------

  function Exchange(call: nat, reply: Reply): seq<Step> { [Send(call), Serve(call, true), Hear(reply)] }

  // What the execution of a call looks at.
  ghost predicate SameRecords(s: State, s': State) {
    s'.transfers == s.transfers && s'.status == s.status && s'.records == s.records && s'.keyed == s.keyed
  }

  // The coordinator is about to make a call of a transfer, to its pinned peers, with numbers from `call` on unused.
  ghost predicate About(s: State, id: Id, stage: Stage, call: nat) {
    && id in s.transfers && s.doing == ToSend(id, s.transfers[id].source, s.transfers[id].target, stage)
    && forall c :: c in s.calls ==> c < call
  }

  // What the recipient does and answers, whatever else is going on.
  ghost predicate Yields(s: State, id: Id, request: Request, after: State, reply: Reply)
    requires id in s.transfers
  {
    forall s1 :: SameRecords(s, s1) ==>
      var r := Execute(s1, Recipient(s.transfers[id], request), id, request, true);
      SameRecords(after, r.state) && r.reply == Some(reply)
  }

  lemma ContinueTwo(s: State, a: Step, b: Step)
    ensures Continue(s, [a, b]) == Apply(Apply(s, a), b)
  {
    hide Apply;
    assert [a, b][1..] == [b] && [b][1..] == [];
    var s1 := Apply(s, a);
    var s2 := Apply(s1, b);
    assert Continue(s2, []) == s2;
    assert Continue(s1, [b]) == s2;
  }

  lemma ContinueThree(s: State, a: Step, b: Step, c: Step)
    ensures Continue(s, [a, b, c]) == Apply(Apply(Apply(s, a), b), c)
  {
    hide Apply;
    assert [a, b, c][1..] == [b, c];
    ContinueTwo(Apply(s, a), b, c);
  }

  // A call goes out and is executed.
  lemma CallIsServed(s: State, id: Id, stage: Stage, call: nat, after: State, reply: Reply)
    requires About(s, id, stage, call)
    requires Yields(s, id, RequestOf(s.transfers[id], stage), after, reply)
    ensures var t := s.transfers[id];
            var s2 := Apply(Apply(s, Send(call)), Serve(call, true));
            && SameRecords(after, s2) && (call, reply) in s2.replies && (forall c :: c in s2.calls ==> c < call + 1)
            && s2.doing == Awaiting(id, t.source, t.target, stage, call)
  {
    hide Execute, RequestOf;
    var request := RequestOf(s.transfers[id], stage);
    var s1 := Apply(s, Send(call));
    assert SameRecords(s, s1);
    ExecuteAnswers(s1, Recipient(s.transfers[id], request), id, request, true);
  }

  lemma ExchangeLeads(s: State, id: Id, stage: Stage, call: nat, after: State, reply: Reply, next: Stage)
    requires About(s, id, stage, call) && after.keyed == s.keyed && after.transfers == s.transfers
    requires NextStage(s.transfers[id], stage, reply, id in s.keyed) == Some(next)
    requires Yields(s, id, RequestOf(s.transfers[id], stage), after, reply)
    ensures var s' := Continue(s, Exchange(call, reply)); SameRecords(after, s') && About(s', id, next, call + 1)
  {
    hide Execute, NextStage, RequestOf, Yields, Continue;
    ContinueThree(s, Send(call), Serve(call, true), Hear(reply));
    CallIsServed(s, id, stage, call, after, reply);
    HearGoesOn(Apply(Apply(s, Send(call)), Serve(call, true)), id, stage, call, reply, next);
  }

  lemma HearGoesOn(s: State, id: Id, stage: Stage, call: nat, reply: Reply, next: Stage)
    requires id in s.transfers && (call, reply) in s.replies && (forall c :: c in s.calls ==> c < call + 1)
    requires s.doing == Awaiting(id, s.transfers[id].source, s.transfers[id].target, stage, call)
    requires NextStage(s.transfers[id], stage, reply, id in s.keyed) == Some(next)
    ensures SameRecords(s, Apply(s, Hear(reply))) && About(Apply(s, Hear(reply)), id, next, call + 1)
  {
    hide NextStage;
  }

  // The last call of an action needs no answer.
  lemma LastCall(s: State, id: Id, stage: Stage, call: nat, after: State, reply: Reply)
    requires About(s, id, stage, call)
    requires Yields(s, id, RequestOf(s.transfers[id], stage), after, reply)
    ensures SameRecords(after, Continue(s, [Send(call), Serve(call, true)]))
  {
    hide RequestOf, Yields, Apply, Continue;
    ContinueTwo(s, Send(call), Serve(call, true));
    CallIsServed(s, id, stage, call, after, reply);
  }

  lemma HeldAlike(s: State, s': State, i: Instance)
    requires s'.records == s.records
    ensures Held(s', i) <==> Held(s, i)
  {
    assert forall id: Id :: HeldBy(s', i, id) <==> HeldBy(s, i, id);
  }

  lemma Begins(s: State, id: Id, action: Action, call: nat, rest: seq<Step>)
    requires s.doing.Idle? && id in s.transfers && Connected(s, s.transfers[id]) && !action.TestAction?
    requires forall c :: c in s.calls ==> c < call
    ensures var s1 := Apply(s, Begin(id, action));
            SameRecords(s, s1) && About(s1, id, FirstStage(action), call)
            && Continue(s, [Begin(id, action)] + rest) == Continue(s1, rest)
  {
    assert ([Begin(id, action)] + rest)[1..] == rest;
  }

  // ---------- Finish ----------

  // The target is prepared.
  ghost predicate Waits(s: State, t: Transfer, id: Id) {
    (t.target, id) in s.records && s.records[(t.target, id)] == TargetRecord(t.source, Prepared, t.returnOf) && Is(s, t.target, Stopped)
  }

  // The source has paused for this very transfer, or is running with nothing to hold it.
  ghost predicate PausedFor(s: State, t: Transfer, id: Id) {
    (t.source, id) in s.records && s.records[(t.source, id)] == SourceRecord(t.target, Paused) && Is(s, t.source, Stopped)
  }

  ghost predicate CanPause(s: State, t: Transfer, id: Id) {
    PausedFor(s, t, id) || ((t.source, id) !in s.records && Is(s, t.source, Running) && !Held(s, t.source))
  }

  ghost function AfterPause(s: State, t: Transfer, id: Id): State {
    if PausedFor(s, t, id) then s else Keep(Put(s, t.source, Stopped), t.source, id, SourceRecord(t.target, Paused))
  }

  function PauseReceipt(t: Transfer, id: Id): Receipt { Receipt(id, t.source, SourceRecord(t.target, Paused)) }

  function TargetReceipt(t: Transfer, id: Id, reached: TargetPhase): Receipt {
    Receipt(id, t.target, TargetRecord(t.source, reached, t.returnOf))
  }

  lemma PauseYields(s: State, id: Id)
    requires id in s.transfers && CanPause(s, s.transfers[id], id)
    ensures var t := s.transfers[id]; Yields(s, id, Pause(t.target), AfterPause(s, t, id), Got(PauseReceipt(t, id)))
  {
    forall s1 | SameRecords(s, s1) ensures Held(s1, s.transfers[id].source) <==> Held(s, s.transfers[id].source) {
      HeldAlike(s, s1, s.transfers[id].source);
    }
    hide Held;
  }

  lemma ActivateYields(s: State, id: Id)
    requires id in s.transfers && Waits(s, s.transfers[id], id)
    ensures var t := s.transfers[id];
            Yields(s, id, Activate(PauseReceipt(t, id)),
                   Keep(Put(s, t.target, Running), t.target, id, TargetRecord(t.source, Active, t.returnOf)),
                   Got(TargetReceipt(t, id, Active)))
  {
  }

  function FinishCalls(t: Transfer, id: Id, call: nat): seq<Step> {
    Exchange(call, Got(TargetReceipt(t, id, Prepared))) + (Exchange(call + 1, Outcome(true))
    + (Exchange(call + 2, Got(PauseReceipt(t, id))) + [Send(call + 3), Serve(call + 3, true)]))
  }

  function FinishSteps(t: Transfer, id: Id, call: nat): seq<Step> { [Begin(id, FinishAction)] + FinishCalls(t, id, call) }

  lemma ReadYields(s: State, id: Id)
    requires id in s.transfers && Waits(s, s.transfers[id], id)
    ensures Yields(s, id, Read, s, Got(TargetReceipt(s.transfers[id], id, Prepared)))
  {
    hide ServePrepare, ServePause, ServeActivate, ServeCancel, ServeRelease;
  }

  lemma TestYields(s: State, id: Id)
    requires id in s.transfers && Waits(s, s.transfers[id], id)
    ensures Yields(s, id, Test, s, Outcome(true))
  {
    hide ServePrepare, ServePause, ServeActivate, ServeCancel, ServeRelease;
  }

  lemma ReadLeads(s: State, id: Id, call: nat)
    requires About(s, id, Reading, call) && id in s.keyed && Waits(s, s.transfers[id], id)
    ensures var s' := Continue(s, Exchange(call, Got(TargetReceipt(s.transfers[id], id, Prepared))));
            SameRecords(s, s') && About(s', id, Checking, call + 1)
  {
    hide Yields, Continue, Exchange, Waits, PausedFor, CanPause, CanGiveBack;
    ReadYields(s, id);
    ExchangeLeads(s, id, Reading, call, s, Got(TargetReceipt(s.transfers[id], id, Prepared)), Checking);
  }

  lemma TestLeads(s: State, id: Id, call: nat)
    requires About(s, id, Checking, call) && Waits(s, s.transfers[id], id)
    ensures var s' := Continue(s, Exchange(call, Outcome(true))); SameRecords(s, s') && About(s', id, Pausing, call + 1)
  {
    hide Yields, Continue, Exchange, Waits, PausedFor, CanPause, CanGiveBack;
    TestYields(s, id);
    ExchangeLeads(s, id, Checking, call, s, Outcome(true), Pausing);
  }

  lemma PauseLeads(s: State, id: Id, call: nat)
    requires About(s, id, Pausing, call) && CanPause(s, s.transfers[id], id)
    ensures var t := s.transfers[id];
            var s' := Continue(s, Exchange(call, Got(PauseReceipt(t, id))));
            SameRecords(AfterPause(s, t, id), s') && About(s', id, Activating(PauseReceipt(t, id)), call + 1)
  {
    hide Yields, Continue, Exchange, Waits, PausedFor, CanPause, AfterPause;
    var t := s.transfers[id];
    PauseYields(s, id);
    PauseKeepsTransfers(s, t, id);
    ExchangeLeads(s, id, Pausing, call, AfterPause(s, t, id), Got(PauseReceipt(t, id)), Activating(PauseReceipt(t, id)));
  }

  lemma ActivateRuns(s: State, id: Id, call: nat)
    requires id in s.transfers && About(s, id, Activating(PauseReceipt(s.transfers[id], id)), call) && Waits(s, s.transfers[id], id)
    ensures Is(Continue(s, [Send(call), Serve(call, true)]), s.transfers[id].target, Running)
  {
    hide Yields, Continue, Exchange, Waits, PausedFor, CanPause, CanGiveBack;
    var t := s.transfers[id];
    ActivateYields(s, id);
    LastCall(s, id, Activating(PauseReceipt(t, id)), call,
             Keep(Put(s, t.target, Running), t.target, id, TargetRecord(t.source, Active, t.returnOf)),
             Got(TargetReceipt(t, id, Active)));
  }

  // The target waits on while the source pauses.
  lemma WaitsOn(s: State, s': State, t: Transfer, id: Id)
    requires Waits(s, t, id) && t.source != t.target && (SameRecords(s, s') || SameRecords(AfterPause(s, t, id), s'))
    ensures Waits(s', t, id)
  {
    hide PausedFor;
  }

  lemma FinishFrom(s: State, id: Id, call: nat)
    requires About(s, id, Reading, call) && id in s.keyed && Waits(s, s.transfers[id], id) && CanPause(s, s.transfers[id], id)
    requires s.transfers[id].source != s.transfers[id].target
    ensures Is(Continue(s, FinishCalls(s.transfers[id], id, call)), s.transfers[id].target, Running)
  {
    var t := s.transfers[id];
    var a, b, c := Exchange(call, Got(TargetReceipt(t, id, Prepared))), Exchange(call + 1, Outcome(true)), Exchange(call + 2, Got(PauseReceipt(t, id)));
    var d := [Send(call + 3), Serve(call + 3, true)];
    hide Continue, Waits, AfterPause, Exchange;
    ContinueConcat(s, a, b + (c + d));
    var s2 := Continue(s, a);
    ContinueConcat(s2, b, c + d);
    var s3 := Continue(s2, b);
    ContinueConcat(s3, c, d);
    var s4 := Continue(s3, c);
    ReadLeads(s, id, call);
    AboutTransfer(s, s2, id);
    WaitsOn(s, s2, t, id);
    TestLeads(s2, id, call + 1);
    WaitsOn(s2, s3, t, id);
    PauseStillPossible(s, s3, t, id);
    PauseLeads(s3, id, call + 2);
    WaitsOn(s3, s4, t, id);
    ActivateRuns(s4, id, call + 3);
  }

  lemma AboutTransfer(s: State, s': State, id: Id)
    requires SameRecords(s, s') && id in s.transfers
    ensures id in s'.transfers && s'.transfers[id] == s.transfers[id] && (id in s'.keyed <==> id in s.keyed)
  {
  }

  lemma PauseStillPossible(s: State, s': State, t: Transfer, id: Id)
    requires SameRecords(s, s') && CanPause(s, t, id)
    ensures CanPause(s', t, id)
  {
    HeldAlike(s, s', t.source);
  }

  // What a run says about a transfer whose target is prepared.
  lemma PreparedTargetWaits(s: State, token: Token, id: Id)
    requires PeersOk(s, token) && id in s.transfers && HasTarget(s, s.transfers[id].target, id)
    requires s.records[(s.transfers[id].target, id)].reached.Prepared?
    ensures Waits(s, s.transfers[id], id) && s.transfers[id].source != s.transfers[id].target
  {
    var t := s.transfers[id];
    assert Placed(s, t.target, id) && PairOk(s, token, id) && HeldBy(s, t.target, id);
  }

  lemma SourceCanPause(s: State, token: Token, id: Id)
    requires PeersOk(s, token) && id in s.transfers
    requires var t := s.transfers[id];
             || ((t.source, id) !in s.records && Is(s, t.source, Running))
             || (HasSource(s, t.source, id) && s.records[(t.source, id)].phase.Paused?)
    ensures CanPause(s, s.transfers[id], id)
  {
    var t := s.transfers[id];
    if (t.source, id) in s.records {
      assert Placed(s, t.source, id) && HeldBy(s, t.source, id);
    } else {
      assert forall k :: HeldBy(s, t.source, k) ==> Is(s, t.source, Stopped);
    }
  }

  /**
    After any run, a finish that nothing disturbs, of a prepared transfer with a saved test key
    whose source is running or has paused for it in an earlier attempt, leaves the watch running
    on the target.
   */
  lemma FinishMovesTheWatch(steps: seq<Step>, id: Id, call: nat)
    requires var s := Run(steps);
             && s.doing.Idle? && id in s.transfers && id in s.keyed && Connected(s, s.transfers[id])
             && (forall c :: c in s.calls ==> c < call)
             && var t := s.transfers[id];
                && HasTarget(s, t.target, id) && s.records[(t.target, id)].reached.Prepared?
                && (((t.source, id) !in s.records && Is(s, t.source, Running))
                    || (HasSource(s, t.source, id) && s.records[(t.source, id)].phase.Paused?))
    ensures var t := Run(steps).transfers[id]; Is(Run(steps + FinishSteps(t, id, call)), t.target, Running)
  {
    hide Run, TokenAfter, PeersOk, TrafficOk, Continue, FinishCalls, CanPause, Waits;
    RunKeepsPeers(steps);
    var s := Run(steps);
    var t := s.transfers[id];
    PreparedTargetWaits(s, TokenAfter(steps), id);
    SourceCanPause(s, TokenAfter(steps), id);
    RunContinues(steps, FinishSteps(t, id, call));
    Begins(s, id, FinishAction, call, FinishCalls(t, id, call));
    var s1 := Apply(s, Begin(id, FinishAction));
    hide Apply;
    PauseStillPossible(s, s1, t, id);
    WaitsOn(s, s1, t, id);
    FinishFrom(s1, id, call);
  }

  // ---------- Cancel ----------

  // The target after it canceled: its watch deleted, or held again by the transfer it would have returned.
  ghost function AfterCancel(s: State, t: Transfer, id: Id): State {
    var s1 := if t.returnOf.Some? then Keep(s, t.target, t.returnOf.value, SourceRecord(t.source, Paused)) else Put(s, t.target, Deleted);
    Keep(s1, t.target, id, TargetRecord(t.source, Canceled, t.returnOf))
  }

  // A target that returns a transfer has the record of that one.
  ghost predicate CanGiveBack(s: State, t: Transfer, id: Id) {
    t.returnOf.Some? ==>
      var k := t.returnOf.value;
      k != id && (t.target, k) in s.records && s.records[(t.target, k)] == SourceRecord(t.source, Returned)
  }

  lemma CancelYields(s: State, id: Id)
    requires id in s.transfers && Waits(s, s.transfers[id], id) && CanGiveBack(s, s.transfers[id], id)
    ensures var t := s.transfers[id]; Yields(s, id, Cancel, AfterCancel(s, t, id), Got(TargetReceipt(t, id, Canceled)))
  {
    hide ServePrepare, ServePause, ServeActivate, ServeRelease;
  }

  lemma FindYields(s: State, id: Id)
    requires id in s.transfers && PausedFor(s, s.transfers[id], id)
    ensures Yields(s, id, Find, s, Got(PauseReceipt(s.transfers[id], id)))
  {
    hide ServePrepare, ServePause, ServeActivate, ServeCancel, ServeRelease;
  }

  lemma ReleaseYields(s: State, id: Id)
    requires id in s.transfers && PausedFor(s, s.transfers[id], id)
    ensures var t := s.transfers[id];
            Yields(s, id, Release(TargetReceipt(t, id, Canceled)), Keep(s, t.source, id, SourceRecord(t.target, Released)),
                   Got(Receipt(id, t.source, SourceRecord(t.target, Released))))
  {
    hide ServePrepare, ServePause, ServeActivate, ServeCancel;
  }

  lemma CancelLeads(s: State, id: Id, call: nat)
    requires About(s, id, Canceling, call) && Waits(s, s.transfers[id], id) && CanGiveBack(s, s.transfers[id], id)
    ensures var t := s.transfers[id];
            var s' := Continue(s, Exchange(call, Got(TargetReceipt(t, id, Canceled))));
            SameRecords(AfterCancel(s, t, id), s') && About(s', id, Finding(TargetReceipt(t, id, Canceled)), call + 1)
  {
    hide Yields, Continue, Exchange, Waits, PausedFor, CanPause, CanGiveBack;
    var t := s.transfers[id];
    CancelYields(s, id);
    ExchangeLeads(s, id, Canceling, call, AfterCancel(s, t, id), Got(TargetReceipt(t, id, Canceled)),
                  Finding(TargetReceipt(t, id, Canceled)));
  }

  lemma FindLeads(s: State, id: Id, call: nat, proof: Receipt)
    requires About(s, id, Finding(proof), call) && PausedFor(s, s.transfers[id], id)
    ensures var s' := Continue(s, Exchange(call, Got(PauseReceipt(s.transfers[id], id))));
            SameRecords(s, s') && About(s', id, Releasing(proof), call + 1)
  {
    hide Yields, Continue, Exchange, Waits, PausedFor, CanPause, CanGiveBack;
    FindYields(s, id);
    ExchangeLeads(s, id, Finding(proof), call, s, Got(PauseReceipt(s.transfers[id], id)), Releasing(proof));
  }

  lemma ReleaseEnds(s: State, id: Id, call: nat)
    requires id in s.transfers && About(s, id, Releasing(TargetReceipt(s.transfers[id], id, Canceled)), call)
    requires PausedFor(s, s.transfers[id], id)
    ensures var t := s.transfers[id];
            SameRecords(Keep(s, t.source, id, SourceRecord(t.target, Released)), Continue(s, [Send(call), Serve(call, true)]))
  {
    hide Yields, Continue, PausedFor, Keep, SameRecords, Apply;
    var t := s.transfers[id];
    ReleaseYields(s, id);
    LastCall(s, id, Releasing(TargetReceipt(t, id, Canceled)), call, Keep(s, t.source, id, SourceRecord(t.target, Released)),
             Got(Receipt(id, t.source, SourceRecord(t.target, Released))));
  }

  function CancelCalls(t: Transfer, id: Id, call: nat): seq<Step> {
    Exchange(call, Got(TargetReceipt(t, id, Canceled))) + (Exchange(call + 1, Got(PauseReceipt(t, id)))
    + [Send(call + 2), Serve(call + 2, true)])
  }

  function CancelSteps(t: Transfer, id: Id, call: nat): seq<Step> { [Begin(id, CancelAction)] + CancelCalls(t, id, call) }

  // The source still waits for release after the target canceled.
  lemma PausedOn(s: State, s': State, t: Transfer, id: Id)
    requires PausedFor(s, t, id) && t.source != t.target && (SameRecords(s, s') || SameRecords(AfterCancel(s, t, id), s'))
    ensures PausedFor(s', t, id)
  {
  }

  lemma CancelFrom(s: State, id: Id, call: nat)
    requires About(s, id, Canceling, call) && Waits(s, s.transfers[id], id) && CanGiveBack(s, s.transfers[id], id)
    requires PausedFor(s, s.transfers[id], id) && s.transfers[id].source != s.transfers[id].target
    ensures var t := s.transfers[id];
            SameRecords(Keep(AfterCancel(s, t, id), t.source, id, SourceRecord(t.target, Released)),
                        Continue(s, CancelCalls(t, id, call)))
  {
    var t := s.transfers[id];
    var a, b := Exchange(call, Got(TargetReceipt(t, id, Canceled))), Exchange(call + 1, Got(PauseReceipt(t, id)));
    var d := [Send(call + 2), Serve(call + 2, true)];
    hide Continue, Waits, AfterCancel, Exchange, PausedFor, CanGiveBack;
    ContinueConcat(s, a, b + d);
    var s2 := Continue(s, a);
    ContinueConcat(s2, b, d);
    var s3 := Continue(s2, b);
    CancelLeads(s, id, call);
    CancelKeepsTransfers(s, t, id);
    PausedOn(s, s2, t, id);
    FindLeads(s2, id, call + 1, TargetReceipt(t, id, Canceled));
    PausedOn(s2, s3, t, id);
    ReleaseEnds(s3, id, call + 2);
  }

  lemma PauseKeepsTransfers(s: State, t: Transfer, id: Id)
    ensures AfterPause(s, t, id).transfers == s.transfers && AfterPause(s, t, id).keyed == s.keyed
  {
  }

  lemma CancelKeepsTransfers(s: State, t: Transfer, id: Id)
    ensures AfterCancel(s, t, id).transfers == s.transfers && AfterCancel(s, t, id).keyed == s.keyed
  {
  }

  // After the release nothing holds the source, and the user may resume it.
  lemma ReleasedSourceIsFree(s: State, token: Token, s': State, t: Transfer, id: Id)
    requires PeersOk(s, token) && PausedFor(s, t, id) && t.source != t.target
    requires SameRecords(Keep(AfterCancel(s, t, id), t.source, id, SourceRecord(t.target, Released)), s')
    ensures (t.target, id) in s'.records && s'.records[(t.target, id)] == TargetRecord(t.source, Canceled, t.returnOf)
    ensures (t.source, id) in s'.records && s'.records[(t.source, id)] == SourceRecord(t.target, Released)
    ensures Is(Apply(s', Resume(t.source)), t.source, Running)
  {
    assert HeldBy(s, t.source, id);
    forall k: Id ensures !HeldBy(s', t.source, k) { assert HeldBy(s', t.source, k) ==> HeldBy(s, t.source, k); }
  }

  /**
    After any run, a cancel that nothing disturbs, of a prepared transfer whose source has paused
    for it, leaves the target canceled and the source released, and the user can resume it.
   */
  lemma CancelReleasesTheSource(steps: seq<Step>, id: Id, call: nat)
    requires var s := Run(steps);
             && s.doing.Idle? && id in s.transfers && Connected(s, s.transfers[id])
             && (forall c :: c in s.calls ==> c < call)
             && var t := s.transfers[id];
                && HasTarget(s, t.target, id) && s.records[(t.target, id)].reached.Prepared?
                && HasSource(s, t.source, id) && s.records[(t.source, id)].phase.Paused?
    ensures var t := Run(steps).transfers[id];
            var s' := Run(steps + CancelSteps(t, id, call));
            && (t.target, id) in s'.records && s'.records[(t.target, id)] == TargetRecord(t.source, Canceled, t.returnOf)
            && (t.source, id) in s'.records && s'.records[(t.source, id)] == SourceRecord(t.target, Released)
            && Is(Apply(s', Resume(t.source)), t.source, Running)
  {
    hide Run, TokenAfter, PeersOk, TrafficOk, Continue, CancelCalls, Waits, PausedFor, CanGiveBack, AfterCancel;
    RunKeepsPeers(steps);
    var s := Run(steps);
    var t := s.transfers[id];
    PreparedTargetWaits(s, TokenAfter(steps), id);
    PausedSourceWaits(s, TokenAfter(steps), id);
    RunContinues(steps, CancelSteps(t, id, call));
    Begins(s, id, CancelAction, call, CancelCalls(t, id, call));
    var s1 := Apply(s, Begin(id, CancelAction));
    hide Apply;
    CanCancelOn(s, s1, t, id);
    CancelFrom(s1, id, call);
    AfterCancelAlike(s, s1, t, id);
    ReleasedSourceIsFree(s, TokenAfter(steps), Continue(s1, CancelCalls(t, id, call)), t, id);
  }

  lemma PausedSourceWaits(s: State, token: Token, id: Id)
    requires PeersOk(s, token) && id in s.transfers
    requires HasSource(s, s.transfers[id].source, id) && s.records[(s.transfers[id].source, id)].phase.Paused?
    requires HasTarget(s, s.transfers[id].target, id) && s.records[(s.transfers[id].target, id)].reached.Prepared?
    ensures PausedFor(s, s.transfers[id], id) && CanGiveBack(s, s.transfers[id], id)
  {
    var t := s.transfers[id];
    assert Placed(s, t.source, id) && PairOk(s, token, id) && HeldBy(s, t.source, id);
  }

  lemma CanCancelOn(s: State, s': State, t: Transfer, id: Id)
    requires SameRecords(s, s') && Waits(s, t, id) && PausedFor(s, t, id) && CanGiveBack(s, t, id)
    ensures Waits(s', t, id) && PausedFor(s', t, id) && CanGiveBack(s', t, id)
  {
  }

  lemma AfterCancelAlike(s: State, s': State, t: Transfer, id: Id)
    requires SameRecords(s, s')
    ensures var r := SourceRecord(t.target, Released);
            SameRecords(Keep(AfterCancel(s, t, id), t.source, id, r), Keep(AfterCancel(s', t, id), t.source, id, r))
  {
    CancelAlike(s, s', t, id);
    hide AfterCancel;
    KeepAlike(AfterCancel(s, t, id), AfterCancel(s', t, id), t.source, id, SourceRecord(t.target, Released));
  }

  lemma CancelAlike(s: State, s': State, t: Transfer, id: Id)
    requires SameRecords(s, s')
    ensures SameRecords(AfterCancel(s, t, id), AfterCancel(s', t, id))
  {
    var r := TargetRecord(t.source, Canceled, t.returnOf);
    match t.returnOf {
      case None => KeepAlike(Put(s, t.target, Deleted), Put(s', t.target, Deleted), t.target, id, r);
      case Some(k) =>
        var back := SourceRecord(t.source, Paused);
        KeepAlike(s, s', t.target, k, back);
        KeepAlike(Keep(s, t.target, k, back), Keep(s', t.target, k, back), t.target, id, r);
    }
  }

  lemma KeepAlike(s: State, s': State, i: Instance, id: Id, r: Record)
    requires SameRecords(s, s')
    ensures SameRecords(Keep(s, i, id, r), Keep(s', i, id, r))
  {
  }

  // ---------- Prepare ----------

  lemma PrepareYields(s: State, id: Id)
    requires id in s.transfers && (s.transfers[id].target, id) !in s.records
    requires s.transfers[id].returnOf.None? && Is(s, s.transfers[id].target, Absent)
    ensures var t := s.transfers[id];
            Yields(s, id, Prepare(t.source, None),
                   Keep(Put(s, t.target, Stopped), t.target, id, TargetRecord(t.source, Prepared, None)), Got(TargetReceipt(t, id, Prepared)))
  {
    hide ServePause, ServeActivate, ServeCancel, ServeRelease;
  }

  /** After any run, a preparation that nothing disturbs, on an instance without the watch, leaves it there, held and stopped. */
  lemma PrepareHoldsTheTarget(steps: seq<Step>, id: Id, call: nat)
    requires var s := Run(steps);
             && s.doing.Idle? && id in s.transfers && Connected(s, s.transfers[id]) && (forall c :: c in s.calls ==> c < call)
             && var t := s.transfers[id]; t.returnOf.None? && (t.target, id) !in s.records && Is(s, t.target, Absent)
    ensures var t := Run(steps).transfers[id];
            var s' := Run(steps + ([Begin(id, PrepareAction)] + [Send(call), Serve(call, true)]));
            HeldBy(s', t.target, id) && Is(s', t.target, Stopped)
  {
    hide Run, Continue, Yields;
    var s := Run(steps);
    var t := s.transfers[id];
    RunContinues(steps, [Begin(id, PrepareAction)] + [Send(call), Serve(call, true)]);
    Begins(s, id, PrepareAction, call, [Send(call), Serve(call, true)]);
    var s1 := Apply(s, Begin(id, PrepareAction));
    hide Apply;
    PrepareYields(s1, id);
    LastCall(s1, id, Preparing, call, Keep(Put(s1, t.target, Stopped), t.target, id, TargetRecord(t.source, Prepared, None)),
             Got(TargetReceipt(t, id, Prepared)));
  }

  /** A test saves its key before it sends anything. */
  lemma TestSavesItsKey(s: State, id: Id)
    requires s.doing.Idle? && id in s.transfers && Connected(s, s.transfers[id])
    ensures var s' := Apply(s, Begin(id, TestAction)); id in s'.keyed && s'.doing.ToSend? && s'.doing.stage == Probing && s'.calls == s.calls
  {
  }
}
