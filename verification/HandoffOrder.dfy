/**
  The order of the coordinator's calls (internal/mcpbridge/transfer_actions.go:67-127), over every
  run of the transfer protocol: what an action must have heard, and from whom, before it activates
  the target or releases the source.
 */
module HandoffOrder {
  import opened Common
  import opened Handoff

  /** What happened since the current action began. */
  ghost function Since(log: seq<Entry>): seq<Entry> {
    if log == [] || log[|log| - 1].Began? then [] else Since(log[..|log| - 1]) + [log[|log| - 1]]
  }

  // The stage whose reply leads to this one.
  function Previous(stage: Stage): Option<Stage> {
    match stage
    case Checking => Some(Reading)
    case Pausing => Some(Checking)
    case Activating(_) => Some(Pausing)
    case Finding(_) => Some(Canceling)
    case Releasing(proof) => Some(Finding(proof))
    case _ => None
  }

  // A call at `stage`, to the pinned peer it is meant for.
  function SentAt(t: Transfer, id: Id, stage: Stage, call: nat): Entry {
    Sent(call, id, Recipient(t, RequestOf(t, stage)), RequestOf(t, stage))
  }

  /** `past` is exactly the calls that lead to `stage`, each followed by the reply to that very call. */
  ghost predicate LeadsTo(t: Transfer, id: Id, past: seq<Entry>, stage: Stage)
    decreases |past|
  {
    match Previous(stage)
    case None => past == []
    case Some(prev) =>
      var n := |past| - 2;
      && n >= 0 && past[n].Sent? && past[n + 1].Heard?
      && past[n] == SentAt(t, id, prev, past[n].call) && past[n + 1].call == past[n].call
      && NextStage(t, prev, past[n + 1].reply, true) == Some(stage)
      && LeadsTo(t, id, past[..n], prev)
  }

  ghost predicate DoingInTurn(s: State) {
    !s.doing.Idle? ==>
      && s.doing.id in s.transfers
      && var t, past := s.transfers[s.doing.id], Since(s.log);
         if s.doing.ToSend? then LeadsTo(t, s.doing.id, past, s.doing.stage)
         else
           && past != [] && past[|past| - 1] == SentAt(t, s.doing.id, s.doing.stage, s.doing.call)
           && LeadsTo(t, s.doing.id, past[..|past| - 1], s.doing.stage)
  }

  ghost predicate SentInTurn(s: State, i: nat)
    requires i < |s.log|
  {
    var e := s.log[i];
    e.Sent? ==>
      && e.id in s.transfers && e.call in s.calls && s.calls[e.call] == Call(e.id, e.to, e.request)
      && exists stage ::
           RequestOf(s.transfers[e.id], stage) == e.request && LeadsTo(s.transfers[e.id], e.id, Since(s.log[..i]), stage)
  }

  ghost predicate LogOk(s: State) { DoingInTurn(s) && forall i :: 0 <= i < |s.log| ==> SentInTurn(s, i) }

  lemma SinceAppend(log: seq<Entry>, e: Entry)
    ensures Since(log + [e]) == if e.Began? then [] else Since(log) + [e]
  {
    assert (log + [e])[..|log|] == log;
  }

  lemma NextNeedsNoKey(t: Transfer, stage: Stage, reply: Reply, keyed: bool)
    ensures NextStage(t, stage, reply, keyed).Some? ==>
              && NextStage(t, stage, reply, true) == NextStage(t, stage, reply, keyed)
              && Previous(NextStage(t, stage, reply, keyed).value) == Some(stage)
  {
  }

  lemma FirstHasNoPast(action: Action)
    ensures Previous(FirstStage(action)) == None
  {
  }

  // Earlier entries keep their place as the log grows.
  lemma SentStays(s: State, s': State)
    requires forall i :: 0 <= i < |s.log| ==> SentInTurn(s, i)
    requires s.log <= s'.log
    requires forall id :: id in s.transfers ==> id in s'.transfers && s'.transfers[id] == s.transfers[id]
    requires forall c :: c in s.calls ==> c in s'.calls && s'.calls[c] == s.calls[c]
    ensures forall i :: 0 <= i < |s.log| ==> SentInTurn(s', i)
  {
    hide LeadsTo, Since, RequestOf;
    forall i | 0 <= i < |s.log| ensures SentInTurn(s', i) {
      assert SentInTurn(s, i) && s'.log[i] == s.log[i] && s'.log[..i] == s.log[..i];
    }
  }

  // The log and its place in it stay as they are when nothing is logged.
  lemma QuietKeepsLog(s: State, s': State)
    requires LogOk(s) && s'.log == s.log && s'.calls == s.calls && (s'.doing == s.doing || s'.doing.Idle?)
    requires forall id :: id in s.transfers ==> id in s'.transfers && s'.transfers[id] == s.transfers[id]
    ensures LogOk(s')
  {
    hide LeadsTo, Since, SentInTurn, SentAt;
    SentStays(s, s');
  }

  lemma ServeKeepsLog(s: State, call: nat, accepted: bool)
    requires LogOk(s)
    ensures LogOk(Apply(s, Serve(call, accepted)))
  {
    hide LogOk, Execute, Grows;
    if call in s.calls {
      ExecuteAnswers(s, s.calls[call].to, s.calls[call].id, s.calls[call].request, accepted);
    }
    QuietKeepsLog(s, Apply(s, Serve(call, accepted)));
  }

  // The entries a step adds are in turn, and so is what comes next.
  ghost predicate GoesOn(s: State, s': State) {
    DoingInTurn(s') && s.log <= s'.log && forall i :: |s.log| <= i < |s'.log| ==> SentInTurn(s', i)
  }

  lemma BeginInTurn(s: State, id: Id, action: Action)
    requires LogOk(s)
    ensures GoesOn(s, Apply(s, Begin(id, action)))
  {
    SinceAppend(s.log, Began(id));
    FirstHasNoPast(action);
  }

  lemma SendInTurn(s: State, call: nat)
    requires LogOk(s) && DoingOk(s)
    ensures GoesOn(s, Apply(s, Send(call)))
  {
    hide LeadsTo, Since, StageOk;
    var s' := Apply(s, Send(call));
    if s' != s {
      var past := Since(s.log);
      SinceAppend(s.log, s'.log[|s.log|]);
      assert Since(s'.log)[..|past|] == past && s'.log[..|s.log|] == s.log;
    }
  }

  lemma HearInTurn(s: State, reply: Reply)
    requires LogOk(s)
    ensures GoesOn(s, Apply(s, Hear(reply)))
  {
    hide Since, RequestOf;
    var s' := Apply(s, Hear(reply));
    if s' != s {
      var past := Since(s.log);
      SinceAppend(s.log, Heard(s.doing.call, reply));
      NextNeedsNoKey(s.transfers[s.doing.id], s.doing.stage, reply, s.doing.id in s.keyed);
      assert Since(s'.log)[..|past| - 1] == past[..|past| - 1];
    }
  }

  lemma CoordinatorKeepsLog(s: State, step: Step)
    requires LogOk(s) && DoingOk(s) && (step.Begin? || step.Send? || step.Hear?)
    ensures LogOk(Apply(s, step))
  {
    hide SentInTurn, NextStage, DoingInTurn, DoingOk, RequestOf;
    match step {
      case Begin(id, action) => BeginInTurn(s, id, action);
      case Send(call) => SendInTurn(s, call);
      case Hear(reply) => HearInTurn(s, reply);
    }
    SentStays(s, Apply(s, step));
  }

  lemma StepKeepsLog(s: State, step: Step)
    requires LogOk(s) && DoingOk(s)
    ensures LogOk(Apply(s, step))
  {
    hide LogOk, Apply, DoingOk;
    if step.Serve? {
      ServeKeepsLog(s, step.call, step.accepted);
    } else if Aside(step) {
      AsideFrame(s, step);
      QuietKeepsLog(s, Apply(s, step));
    } else {
      CoordinatorKeepsLog(s, step);
    }
  }

  /** Over every run the calls and replies since an action began are exactly those that lead to its next call. */
  lemma {:induction false} RunKeepsLog(steps: seq<Step>)
    ensures LogOk(Run(steps))
  {
    if steps != [] {
      hide Apply, LogOk, PeersOk, DoingOk;
      RunKeepsLog(steps[..|steps| - 1]);
      RunKeepsPeers(steps[..|steps| - 1]);
      StepKeepsLog(Run(steps[..|steps| - 1]), steps[|steps| - 1]);
    }
  }

  // A call to `to`, and the reply to that very call.
  ghost predicate Round(past: seq<Entry>, n: nat, id: Id, to: Instance, request: Request, reply: Reply)
    requires n + 1 < |past|
  {
    past[n].Sent? && past[n] == Sent(past[n].call, id, to, request) && past[n + 1] == Heard(past[n].call, reply)
  }

  /** A finish up to the point of activation: target read as prepared, test accepted, source paused. */
  ghost predicate FinishedUpTo(past: seq<Entry>, id: Id, t: Transfer, proof: Receipt) {
    && |past| == 6
    && (exists r :: Round(past, 0, id, t.target, Read, Got(r)) && r.at == t.target && r.record.TargetRecord? && r.record.peer == t.source && r.record.reached.Prepared?)
    && Round(past, 2, id, t.target, Test, Outcome(true))
    && Round(past, 4, id, t.source, Pause(t.target), Got(proof))
  }

  /** A cancel up to the point of release: target canceled, source found. */
  ghost predicate CanceledUpTo(past: seq<Entry>, id: Id, t: Transfer, proof: Receipt) {
    && |past| == 4
    && Round(past, 0, id, t.target, Cancel, Got(proof))
    && exists r :: Round(past, 2, id, t.source, Find, Got(r))
  }

  lemma ActivationsPast(t: Transfer, id: Id, past: seq<Entry>, proof: Receipt)
    requires LeadsTo(t, id, past, Activating(proof))
    ensures FinishedUpTo(past, id, t, proof)
  {
    var four := past[..|past| - 2];
    assert LeadsTo(t, id, four, Pausing);
    var two := four[..|four| - 2];
    assert LeadsTo(t, id, two, Checking);
    assert LeadsTo(t, id, two[..|two| - 2], Reading);
    assert four[0] == past[0] && four[1] == past[1] && four[2] == past[2] && four[3] == past[3];
    assert two[0] == past[0] && two[1] == past[1];
    assert Round(past, 0, id, t.target, Read, Got(past[1].reply.receipt));
  }

  lemma ReleasesPast(t: Transfer, id: Id, past: seq<Entry>, proof: Receipt)
    requires LeadsTo(t, id, past, Releasing(proof))
    ensures CanceledUpTo(past, id, t, proof)
  {
    var two := past[..|past| - 2];
    assert LeadsTo(t, id, two, Finding(proof));
    assert LeadsTo(t, id, two[..|two| - 2], Canceling);
    assert two[0] == past[0] && two[1] == past[1];
    assert Round(past, 2, id, t.source, Find, Got(past[3].reply.receipt));
  }

  /**
    Order of calls: in every run, whatever the connections come to reach, a call goes only to the
    pinned peer it is meant for; activate goes to the target after, in the same action, the target
    was read as prepared, its test accepted, and the source answered a pause with the receipt that
    activate carries; release goes to the source after, in the same action, the target answered a
    cancel with the receipt that release carries and the source was found. Each reply is the one
    to that very call.
   */
  lemma SendsFollowReplies(steps: seq<Step>, i: nat)
    requires i < |Run(steps).log| && Run(steps).log[i].Sent?
    ensures SentAfterReplies(Run(steps), i)
  {
    hide Run, LogOk, TrafficOk, PeersOk, SentAfterReplies;
    RunKeepsLog(steps);
    RunKeepsPeers(steps);
    EntryFollowsReplies(Run(steps), i);
  }

  // Past reading the target, an action is of a transfer with a saved test key.
  ghost predicate NeedsKey(stage: Stage) { stage.Checking? || stage.Pausing? || stage.Activating? }

  ghost predicate KeysOk(s: State) {
    && (!s.doing.Idle? && NeedsKey(s.doing.stage) ==> s.doing.id in s.keyed)
    && forall i :: 0 <= i < |s.log| && s.log[i].Sent? && (s.log[i].request.Pause? || s.log[i].request.Activate?) ==> s.log[i].id in s.keyed
  }

  lemma StepKeepsKeys(s: State, step: Step)
    requires KeysOk(s) && DoingOk(s)
    ensures KeysOk(Apply(s, step))
  {
    hide DoingOk, Execute, Held, Grows;
    if step.Serve? && step.call in s.calls {
      var c := s.calls[step.call];
      ExecuteAnswers(s, c.to, c.id, c.request, step.accepted);
    } else if Aside(step) {
      AsideFrame(s, step);
    }
  }

  /** Nothing is paused or activated without a test: those calls are only of transfers whose test key was saved. */
  lemma {:induction false} CallsNeedKeys(steps: seq<Step>)
    ensures KeysOk(Run(steps))
  {
    if steps != [] {
      hide Apply, KeysOk, PeersOk, DoingOk;
      CallsNeedKeys(steps[..|steps| - 1]);
      RunKeepsPeers(steps[..|steps| - 1]);
      StepKeepsKeys(Run(steps[..|steps| - 1]), steps[|steps| - 1]);
    }
  }

  ghost predicate SentAfterReplies(s: State, i: nat)
    requires i < |s.log| && s.log[i].Sent?
  {
    var e, past := s.log[i], Since(s.log[..i]);
    && e.id in s.transfers
    && var t := s.transfers[e.id];
       && e.to == Recipient(t, e.request)
       && (e.request.Activate? ==> FinishedUpTo(past, e.id, t, e.request.proof) && Proves(s, t, e.id, e.request.proof, true))
       && (e.request.Release? ==> CanceledUpTo(past, e.id, t, e.request.proof) && Proves(s, t, e.id, e.request.proof, false))
  }

  lemma EntryFollowsReplies(s: State, i: nat)
    requires LogOk(s) && TrafficOk(s) && i < |s.log| && s.log[i].Sent?
    ensures SentAfterReplies(s, i)
  {
    hide LeadsTo, Since, FinishedUpTo, CanceledUpTo, Proves, ReplyOk, DoingOk;
    var e, past := s.log[i], Since(s.log[..i]);
    assert SentInTurn(s, i);
    assert CallOk(s, s.calls[e.call]);
    var t := s.transfers[e.id];
    var stage :| RequestOf(t, stage) == e.request && LeadsTo(t, e.id, past, stage);
    if e.request.Activate? { ActivationsPast(t, e.id, past, e.request.proof); }
    if e.request.Release? { ReleasesPast(t, e.id, past, e.request.proof); }
  }
}
