/**
  Transfers of a watch between instances, there and back again any number of times.

  The coordinator (internal/mcpbridge/transfer_prepare.go, transfer_actions.go, transfer_store.go)
  performs one action at a time under a lock: prepare, test, finish or cancel a saved transfer,
  each a sequence of calls over two connections. A connection may come to reach another instance;
  a call may be lost, executed late or executed again, and so may its reply; an action may stop at
  any moment, by error or crash, and be tried again. Every instance (internal/watchrun/handoff.go,
  handoff_activate.go) keeps a durable record of each transfer it takes part in, and acts on its
  own records and its own watch alone. A step is one thing that happens somewhere; a run is any
  sequence of steps.
 */
module Handoff {
  import opened Common

  type Instance = nat
  type Id = nat
  type Connection = nat

  /** A saved transfer: the peers its two connections reached when it was saved, and the transfer it returns, if any. */
  datatype Transfer = Transfer(source: Instance, target: Instance, sourceConn: Connection, targetConn: Connection,
                               returnOf: Option<Id>)

  // ---------- What an instance keeps ----------

  datatype SourcePhase = Paused | Returned | Released

  datatype TargetPhase = Prepared | Active | Canceled

  /** An instance's record of a transfer, in its role. */
  datatype Record = SourceRecord(peer: Instance, phase: SourcePhase)
                  | TargetRecord(peer: Instance, reached: TargetPhase, returnOf: Option<Id>)

  // The watch of an instance; a purged one is forgotten together with its records, and its ID never used again.
  datatype Status = Absent | Stopped | Running | Deleted | Purged

  // A record as a reply carries it.
  datatype Receipt = Receipt(id: Id, at: Instance, record: Record)

  // ---------- What the coordinator does ----------

  datatype Request = Prepare(peer: Instance, returnOf: Option<Id>) | Read | Test | Pause(peer: Instance)
                   | Activate(proof: Receipt) | Cancel | Find | Release(proof: Receipt)

  datatype Reply = Got(receipt: Receipt) | Outcome(accepted: bool) | NotFound

  // The calls of the actions. Finish reads, checks, pauses and activates; cancel cancels, finds and releases.
  datatype Stage = Preparing | Probing | Reading | Checking | Pausing | Activating(proof: Receipt)
                 | Canceling | Finding(proof: Receipt) | Releasing(proof: Receipt)

  // An action, with the instances its two connections reached when it began.
  datatype Doing = Idle
                 | ToSend(id: Id, source: Instance, target: Instance, stage: Stage)
                 | Awaiting(id: Id, source: Instance, target: Instance, stage: Stage, call: nat)

  datatype Entry = Began(id: Id) | Sent(call: nat, id: Id, to: Instance, request: Request) | Heard(call: nat, reply: Reply)

  datatype Call = Call(id: Id, to: Instance, request: Request)

  datatype State = State(
    transfers: map<Id, Transfer>, keyed: set<Id>, reach: map<Connection, Instance>,
    status: map<Instance, Status>, records: map<(Instance, Id), Record>,
    doing: Doing, calls: map<nat, Call>, replies: set<(nat, Reply)>, log: seq<Entry>)

  datatype Action = PrepareAction | TestAction | FinishAction | CancelAction

  datatype Step =
    | Reconnect(conn: Connection, to: Instance)      // a connection reaches this instance from now on
    | Save(id: Id, sourceConn: Connection, targetConn: Connection, returnOf: Option<Id>)  // a reviewed transfer is saved
    | Begin(id: Id, action: Action)                  // an action starts, under the lock
    | Stop                                           // it ends, fails or crashes
    | Send(call: nat)                                // the next call goes out
    | Hear(reply: Reply)                             // the reply to it arrives
    | Serve(call: nat, accepted: bool)               // the instance called executes a call made earlier
    | Resume(peer: Instance) | Suspend(peer: Instance) | Delete(peer: Instance) | Purge(peer: Instance)

  // The watch runs on one instance, and no other has ever heard of it.
  const START := State(map[], {}, map[], map[0 := Running], map[], Idle, map[], {}, [])

  function RequestOf(t: Transfer, stage: Stage): Request {
    match stage
    case Preparing => Prepare(t.source, t.returnOf)
    case Probing => Test
    case Reading => Read
    case Checking => Test
    case Pausing => Pause(t.target)
    case Activating(proof) => Activate(proof)
    case Canceling => Cancel
    case Finding(_) => Find
    case Releasing(proof) => Release(proof)
  }

  predicate ForSource(r: Request) { r.Pause? || r.Find? || r.Release? }

  function FirstStage(action: Action): Stage {
    match action
    case PrepareAction => Preparing
    case TestAction => Probing
    case FinishAction => Reading
    case CancelAction => Canceling
  }

  // The target's record, as a finish must find it.
  predicate ReadyToFinish(t: Transfer, reply: Reply) {
    && reply.Got? && reply.receipt.record.TargetRecord? && reply.receipt.record.reached.Prepared?
    && reply.receipt.at == t.target && reply.receipt.record.peer == t.source
  }

  // What follows a reply; none when the action ends.
  function NextStage(t: Transfer, stage: Stage, reply: Reply, keyed: bool): Option<Stage> {
    match stage
    case Reading => if ReadyToFinish(t, reply) && keyed then Some(Checking) else None
    case Checking => if reply == Outcome(true) then Some(Pausing) else None
    case Pausing => if reply.Got? then Some(Activating(reply.receipt)) else None
    case Canceling => if reply.Got? then Some(Finding(reply.receipt)) else None
    case Finding(proof) => if reply.Got? then Some(Releasing(proof)) else None
    case _ => None
  }

  // ---------- An instance executes a call ----------

  predicate Is(s: State, i: Instance, status: Status) { (if i in s.status then s.status[i] else Absent) == status }

  function Put(s: State, i: Instance, status: Status): State { s.(status := s.status[i := status]) }

  predicate Holding(r: Record) { (r.SourceRecord? && r.phase.Paused?) || (r.TargetRecord? && r.reached.Prepared?) }

  predicate HeldBy(s: State, i: Instance, id: Id) { (i, id) in s.records && Holding(s.records[(i, id)]) }

  ghost predicate Held(s: State, i: Instance) { exists id :: HeldBy(s, i, id) }

  // An instance's record of a transfer in one of the two roles.
  predicate HasSource(s: State, i: Instance, id: Id) { (i, id) in s.records && s.records[(i, id)].SourceRecord? && !Is(s, i, Purged) }

  predicate HasTarget(s: State, i: Instance, id: Id) { (i, id) in s.records && s.records[(i, id)].TargetRecord? && !Is(s, i, Purged) }

  function Keep(s: State, i: Instance, id: Id, r: Record): State { s.(records := s.records[(i, id) := r]) }

  // An answer, and the state it leaves.
  datatype Served = Served(state: State, reply: Option<Reply>)

  // The record as it stands.
  function Shown(s: State, i: Instance, id: Id): Served
    requires (i, id) in s.records
  {
    Served(s, Some(Got(Receipt(id, i, s.records[(i, id)]))))
  }

  // The target creates the watch held, or takes the hold over from the transfer this one returns.
  ghost function ServePrepare(s: State, i: Instance, id: Id, peer: Instance, returnOf: Option<Id>): Served {
    var r := TargetRecord(peer, Prepared, returnOf);
    if HasTarget(s, i, id) && s.records[(i, id)] == r.(reached := s.records[(i, id)].reached) then Shown(s, i, id)
    else if (i, id) in s.records then Served(s, None)
    else
      match returnOf
      case None => if Is(s, i, Absent) then Shown(Keep(Put(s, i, Stopped), i, id, r), i, id) else Served(s, None)
      case Some(k) =>
        if HasSource(s, i, k) && s.records[(i, k)] == SourceRecord(peer, Paused) && Is(s, i, Stopped)
        then Shown(Keep(Keep(s, i, k, SourceRecord(peer, Returned)), i, id, r), i, id)
        else Served(s, None)
  }

  // The source pauses a running watch that nothing holds, once.
  ghost function ServePause(s: State, i: Instance, id: Id, peer: Instance): Served {
    if HasSource(s, i, id) && s.records[(i, id)].peer == peer then Shown(s, i, id)
    else if (i, id) !in s.records && Is(s, i, Running) && !Held(s, i) then
      Shown(Keep(Put(s, i, Stopped), i, id, SourceRecord(peer, Paused)), i, id)
    else Served(s, None)
  }

  // The target runs the watch on its peer's pause receipt, once.
  ghost function ServeActivate(s: State, i: Instance, id: Id, proof: Receipt): Served {
    if !HasTarget(s, i, id) then Served(s, None)
    else
      var r := s.records[(i, id)];
      if proof != Receipt(id, r.peer, SourceRecord(i, Paused)) then Served(s, None)
      else if r.reached.Active? then Shown(s, i, id)
      else if r.reached.Prepared? && Is(s, i, Stopped) then Shown(Keep(Put(s, i, Running), i, id, r.(reached := Active)), i, id)
      else Served(s, None)
  }

  // A prepared target deletes the watch, or gives the hold back to the transfer this one returns.
  ghost function ServeCancel(s: State, i: Instance, id: Id): Served {
    if !HasTarget(s, i, id) then Served(s, None)
    else
      var r := s.records[(i, id)];
      if r.reached.Canceled? then Shown(s, i, id)
      else if !r.reached.Prepared? || !Is(s, i, Stopped) then Served(s, None)
      else
        match r.returnOf
        case None => Shown(Keep(Put(s, i, Deleted), i, id, r.(reached := Canceled)), i, id)
        case Some(k) =>
          if k != id && HasSource(s, i, k) && s.records[(i, k)].phase.Returned?
          then Shown(Keep(Keep(s, i, k, s.records[(i, k)].(phase := Paused)), i, id, r.(reached := Canceled)), i, id)
          else Served(s, None)
  }

  // The source lets go of a paused watch on its peer's cancel receipt.
  ghost function ServeRelease(s: State, i: Instance, id: Id, proof: Receipt): Served {
    if !HasSource(s, i, id) then Served(s, None)
    else
      var r := s.records[(i, id)];
      if proof.id != id || proof.at != r.peer || !proof.record.TargetRecord? || proof.record.peer != i
         || !proof.record.reached.Canceled? || r.phase.Returned?
      then Served(s, None)
      else Shown(Keep(s, i, id, r.(phase := Released)), i, id)
  }

  ghost function Execute(s: State, i: Instance, id: Id, request: Request, accepted: bool): Served {
    match request
    case Prepare(peer, returnOf) => ServePrepare(s, i, id, peer, returnOf)
    case Read => if HasTarget(s, i, id) then Shown(s, i, id) else Served(s, Some(NotFound))
    case Test =>
      if HasTarget(s, i, id) && s.records[(i, id)].reached.Prepared? then Served(s, Some(Outcome(accepted))) else Served(s, None)
    case Pause(peer) => ServePause(s, i, id, peer)
    case Activate(proof) => ServeActivate(s, i, id, proof)
    case Cancel => ServeCancel(s, i, id)
    case Find => if HasSource(s, i, id) then Shown(s, i, id) else Served(s, Some(NotFound))
    case Release(proof) => ServeRelease(s, i, id, proof)
  }

  ghost function Answered(r: Served, call: nat): State {
    if r.reply.Some? then r.state.(replies := r.state.replies + {(call, r.reply.value)}) else r.state
  }

  // ---------- The steps ----------

  // Both connections of a transfer reach its pinned peers.
  predicate Connected(s: State, t: Transfer) {
    && t.sourceConn in s.reach && s.reach[t.sourceConn] == t.source
    && t.targetConn in s.reach && s.reach[t.targetConn] == t.target
  }

  ghost function Apply(s: State, step: Step): State {
    match step
    case Reconnect(conn, to) => s.(reach := s.reach[conn := to])
    case Save(id, sourceConn, targetConn, returnOf) =>
      if id !in s.transfers && sourceConn in s.reach && targetConn in s.reach && s.reach[sourceConn] != s.reach[targetConn]
      then s.(transfers := s.transfers[id := Transfer(s.reach[sourceConn], s.reach[targetConn], sourceConn, targetConn, returnOf)])
      else s
    case Begin(id, action) =>
      // The connections may reach other instances by now; then the action is refused. A test saves its key first.
      if s.doing.Idle? && id in s.transfers && s.transfers[id].sourceConn in s.reach && s.transfers[id].targetConn in s.reach
         && Connected(s, s.transfers[id])
      then
        s.(doing := ToSend(id, s.reach[s.transfers[id].sourceConn], s.reach[s.transfers[id].targetConn], FirstStage(action)),
           keyed := if action.TestAction? then s.keyed + {id} else s.keyed, log := s.log + [Began(id)])
      else s
    case Stop => s.(doing := Idle)
    case Send(call) =>
      if s.doing.ToSend? && call !in s.calls && s.doing.id in s.transfers then
        var d := s.doing;
        var request := RequestOf(s.transfers[d.id], d.stage);
        var to := if ForSource(request) then d.source else d.target;
        s.(calls := s.calls[call := Call(d.id, to, request)], doing := Awaiting(d.id, d.source, d.target, d.stage, call),
           log := s.log + [Sent(call, d.id, to, request)])
      else s
    case Hear(reply) =>
      if s.doing.Awaiting? && s.doing.id in s.transfers && (s.doing.call, reply) in s.replies then
        var d := s.doing;
        var next := NextStage(s.transfers[d.id], d.stage, reply, d.id in s.keyed);
        s.(doing := if next.Some? then ToSend(d.id, d.source, d.target, next.value) else Idle,
           log := s.log + [Heard(d.call, reply)])
      else s
    case Serve(call, accepted) =>
      if call in s.calls
      then Answered(Execute(s, s.calls[call].to, s.calls[call].id, s.calls[call].request, accepted), call)
      else s
    case Resume(i) => if Is(s, i, Stopped) && !Held(s, i) then Put(s, i, Running) else s
    case Suspend(i) => if Is(s, i, Running) && !Held(s, i) then Put(s, i, Stopped) else s
    case Delete(i) => if (Is(s, i, Stopped) || Is(s, i, Running)) && !Held(s, i) then Put(s, i, Deleted) else s
    case Purge(i) => if Is(s, i, Deleted) && !Held(s, i) then Put(s, i, Purged) else s
  }

  ghost function Run(steps: seq<Step>): State {
    if steps == [] then START else Apply(Run(steps[..|steps| - 1]), steps[|steps| - 1])
  }

  // ---------- Who may run ----------

  /** The right to run: with one instance, or on its way in a transfer whose source has paused. Nobody stores it. */
  datatype Token = With(at: Instance) | InFlight(id: Id)

  ghost predicate Free(s: State, i: Instance) { (Is(s, i, Stopped) || Is(s, i, Running)) && !Held(s, i) }

  /** Only the instance with the right has a watch that nothing holds; a held watch is stopped, and held once. */
  ghost predicate HoldsOk(s: State, token: Token) {
    && (forall i :: Free(s, i) ==> token == With(i))
    && (forall i, id :: HeldBy(s, i, id) ==> Is(s, i, Stopped))
    && (forall i, a, b :: HeldBy(s, i, a) && HeldBy(s, i, b) ==> a == b)
  }

  /** Records exist only at the pinned peers, each in its role. */
  ghost predicate Placed(s: State, i: Instance, id: Id) {
    (i, id) in s.records ==>
      && id in s.transfers
      && var t, r := s.transfers[id], s.records[(i, id)];
         if r.SourceRecord? then i == t.source && r.peer == t.target
         else i == t.target && r.peer == t.source && r.returnOf == t.returnOf
  }

  /** A paused source whose target has not taken over is on its way, until the target is canceled and it is released. */
  ghost predicate PairOk(s: State, token: Token, id: Id)
    requires id in s.transfers
  {
    var t := s.transfers[id];
    var a, b := (t.source, id), (t.target, id);
    && t.source != t.target
    && (a in s.records ==> b in s.records && s.records[a].SourceRecord?)
    && (b in s.records ==>
          && s.records[b].TargetRecord?
          && (s.records[b].reached.Active? ==> a in s.records && !s.records[a].phase.Released?)
          && (s.records[b].reached.Prepared? && t.returnOf.Some? ==>
                t.returnOf.value != id && (t.target, t.returnOf.value) in s.records
                && s.records[(t.target, t.returnOf.value)] == SourceRecord(t.source, Returned)))
    && (a in s.records && s.records[a].phase.Released? ==> s.records[b].reached.Canceled?)
    && (a in s.records && !s.records[a].phase.Released? && !s.records[b].reached.Active? ==> token == InFlight(id))
  }

  ghost predicate PeersOk(s: State, token: Token) {
    && HoldsOk(s, token)
    && (forall i, id :: Placed(s, i, id))
    && (forall id :: id in s.transfers ==> PairOk(s, token, id))
  }

  // What a receipt says of its instance's role stays true, and a canceled target stays canceled.
  ghost predicate Truthful(s: State, r: Receipt) {
    && (r.at, r.id) in s.records
    && var now := s.records[(r.at, r.id)];
       if r.record.SourceRecord? then now.SourceRecord? && now.peer == r.record.peer
       else now.TargetRecord? && now.peer == r.record.peer && (r.record.reached.Canceled? ==> now.reached.Canceled?)
  }

  /** A true receipt of one of the transfer's pinned peers. */
  ghost predicate Proves(s: State, t: Transfer, id: Id, r: Receipt, bySource: bool) {
    && r.id == id && r.record.SourceRecord? == bySource && r.at == (if bySource then t.source else t.target)
    && Truthful(s, r)
  }

  // What a request takes for granted.
  ghost predicate RequestOk(s: State, t: Transfer, id: Id, request: Request) {
    match request
    case Prepare(peer, returnOf) => peer == t.source && returnOf == t.returnOf
    case Pause(peer) => peer == t.target && (t.target, id) in s.records
    case Activate(proof) => Proves(s, t, id, proof, true)
    case Release(proof) => Proves(s, t, id, proof, false)
    case _ => true
  }

  ghost predicate StageOk(s: State, t: Transfer, id: Id, stage: Stage) {
    && RequestOk(s, t, id, RequestOf(t, stage))
    && (stage.Checking? ==> (t.target, id) in s.records)
    && (stage.Finding? ==> Proves(s, t, id, stage.proof, false))
  }

  function Recipient(t: Transfer, r: Request): Instance { if ForSource(r) then t.source else t.target }

  ghost predicate CallOk(s: State, c: Call) {
    && c.id in s.transfers
    && var t := s.transfers[c.id]; c.to == Recipient(t, c.request) && RequestOk(s, t, c.id, c.request)
  }

  ghost predicate ReplyOk(s: State, c: Call, reply: Reply) {
    reply.Got? ==> c.id in s.transfers && Proves(s, s.transfers[c.id], c.id, reply.receipt, ForSource(c.request))
  }

  /** The instances an action talks to are the pinned ones, and its next call stands on what it heard. */
  ghost predicate DoingOk(s: State) {
    !s.doing.Idle? ==>
      && s.doing.id in s.transfers
      && var t := s.transfers[s.doing.id];
         && s.doing.source == t.source && s.doing.target == t.target && StageOk(s, t, s.doing.id, s.doing.stage)
         && (s.doing.Awaiting? ==>
               s.doing.call in s.calls
               && s.calls[s.doing.call] == Call(s.doing.id, Recipient(t, RequestOf(t, s.doing.stage)), RequestOf(t, s.doing.stage)))
  }

  /** Everything on its way between coordinator and instances is addressed to the pinned peers and true, and stays so. */
  ghost predicate TrafficOk(s: State) {
    && (forall c :: c in s.calls ==> CallOk(s, s.calls[c]))
    && (forall r :: r in s.replies ==> r.0 in s.calls && ReplyOk(s, s.calls[r.0], r.1))
    && DoingOk(s)
  }

  // ---------- What an execution does to the right to run ----------

  // Where the right is after an instance executed a request.
  ghost function MovedBy(s: State, token: Token, i: Instance, id: Id, request: Request, s': State): Token {
    match request
    case Pause(_) => if s'.records != s.records then InFlight(id) else token
    case Activate(_) => if s'.records != s.records then With(i) else token
    case Release(_) => if s'.records != s.records then With(i) else token
    case _ => token
  }

  // Another instance's watch is as free as it was; this one's is free only with the right.
  lemma FreeAfter(s: State, s': State, token: Token, token': Token, i: Instance)
    requires HoldsOk(s, token)
    requires forall p, status :: p != i ==> (Is(s', p, status) <==> Is(s, p, status))
    requires forall p, id :: p != i ==> (HeldBy(s', p, id) <==> HeldBy(s, p, id))
    requires Free(s', i) ==> token' == With(i)
    requires token' == token || forall p :: p != i ==> token != With(p)
    requires forall id :: HeldBy(s', i, id) ==> Is(s', i, Stopped)
    requires forall a, b :: HeldBy(s', i, a) && HeldBy(s', i, b) ==> a == b
    ensures HoldsOk(s', token')
  {
    hide HeldBy, Is;
    forall p | Free(s', p) ensures token' == With(p) {
      if p != i {
        assert forall id :: HeldBy(s, p, id) ==> HeldBy(s', p, id);
        assert Free(s, p);
      }
    }
    forall p, id | HeldBy(s', p, id) ensures Is(s', p, Stopped) { if p != i { assert HeldBy(s, p, id); } }
    forall p, a, b | HeldBy(s', p, a) && HeldBy(s', p, b) ensures a == b { if p != i { assert HeldBy(s, p, a) && HeldBy(s, p, b); } }
  }

  lemma PrepareKeeps(s: State, token: Token, id: Id)
    requires PeersOk(s, token) && id in s.transfers
    ensures var t := s.transfers[id]; PeersOk(ServePrepare(s, t.target, id, t.source, t.returnOf).state, token)
  {
    var t := s.transfers[id];
    var i, s' := t.target, ServePrepare(s, t.target, id, t.source, t.returnOf).state;
    if s' != s {
      assert PairOk(s, token, id);
      forall p, k ensures Placed(s', p, k) { assert Placed(s, p, k); }
      assert t.returnOf.Some? ==> HeldBy(s, i, t.returnOf.value);
      assert t.returnOf.None? ==> forall k :: !HeldBy(s, i, k);
      forall p, k: Id ensures HeldBy(s', p, k) <==> (if p == i then k == id else HeldBy(s, p, k)) {
        assert HeldBy(s', p, k) ==> (p == i && k == id) || HeldBy(s, p, k);
      }
      assert HeldBy(s', i, id);
      FreeAfter(s, s', token, token, i);
      PrepareKeepsPairs(s, token, id);
    }
  }

  lemma PrepareKeepsPairs(s: State, token: Token, id: Id)
    requires PeersOk(s, token) && id in s.transfers
    ensures var t := s.transfers[id];
            var s' := ServePrepare(s, t.target, id, t.source, t.returnOf).state;
            s'.transfers == s.transfers && forall k :: k in s.transfers ==> PairOk(s', token, k)
  {
    var t := s.transfers[id];
    var s' := ServePrepare(s, t.target, id, t.source, t.returnOf).state;
    forall k | k in s.transfers ensures PairOk(s', token, k) { PrepareKeepsPair(s, token, id, k); }
  }

  lemma PrepareKeepsPair(s: State, token: Token, id: Id, k: Id)
    requires PeersOk(s, token) && id in s.transfers && k in s.transfers
    ensures var t := s.transfers[id];
            var s' := ServePrepare(s, t.target, id, t.source, t.returnOf).state;
            s'.transfers == s.transfers && PairOk(s', token, k)
  {
    var i := s.transfers[id].target;
    assert PairOk(s, token, id);
    assert PairOk(s, token, k) && Placed(s, s.transfers[k].target, k) && Placed(s, s.transfers[k].source, k);
    assert HeldBy(s, i, k) ==> Is(s, i, Stopped);
    hide HoldsOk, Held;
  }

  lemma PauseKeeps(s: State, token: Token, id: Id)
    requires PeersOk(s, token) && id in s.transfers && (s.transfers[id].target, id) in s.records
    ensures var t := s.transfers[id];
            var s' := ServePause(s, t.source, id, t.target).state;
            PeersOk(s', MovedBy(s, token, t.source, id, Pause(t.target), s'))
  {
    var t := s.transfers[id];
    var i, s' := t.source, ServePause(s, t.source, id, t.target).state;
    if s' != s {
      assert Free(s, i) && PairOk(s, token, id) && Placed(s, t.target, id);
      assert s'.records != s.records by { assert (i, id) in s'.records && (i, id) !in s.records; }
      forall p, k ensures Placed(s', p, k) { assert Placed(s, p, k); }
      forall k | k in s.transfers ensures PairOk(s', InFlight(id), k) {
        assert PairOk(s, token, k) && Placed(s, s.transfers[k].target, k) && Placed(s, s.transfers[k].source, k);
      }
      forall p, k: Id ensures HeldBy(s', p, k) <==> (if p == i then k == id else HeldBy(s, p, k)) {
        assert HeldBy(s, i, k) ==> Held(s, i);
      }
      assert HeldBy(s', i, id);
      FreeAfter(s, s', token, InFlight(id), i);
    }
  }

  lemma ActivateKeeps(s: State, token: Token, id: Id, proof: Receipt)
    requires PeersOk(s, token) && id in s.transfers && Proves(s, s.transfers[id], id, proof, true)
    ensures var i := s.transfers[id].target;
            var s' := ServeActivate(s, i, id, proof).state;
            PeersOk(s', MovedBy(s, token, i, id, Activate(proof), s'))
  {
    var i, s' := s.transfers[id].target, ServeActivate(s, s.transfers[id].target, id, proof).state;
    if s' != s {
      assert PairOk(s, token, id) && HeldBy(s, i, id);
      assert s'.records != s.records by { assert s'.records[(i, id)] != s.records[(i, id)]; }
      forall p, k ensures Placed(s', p, k) { assert Placed(s, p, k); }
      forall k | k in s.transfers ensures PairOk(s', With(i), k) {
        assert PairOk(s, token, k) && Placed(s, s.transfers[k].target, k) && Placed(s, s.transfers[k].source, k);
      }
      forall p, k: Id ensures HeldBy(s', p, k) <==> p != i && HeldBy(s, p, k) {
        assert HeldBy(s', p, k) ==> HeldBy(s, p, k);
      }
      FreeAfter(s, s', token, With(i), i);
    }
  }

  lemma CancelKeeps(s: State, token: Token, id: Id)
    requires PeersOk(s, token) && id in s.transfers
    ensures PeersOk(ServeCancel(s, s.transfers[id].target, id).state, token)
  {
    var t := s.transfers[id];
    var i, s' := t.target, ServeCancel(s, t.target, id).state;
    if s' != s {
      assert PairOk(s, token, id) && Placed(s, i, id) && HeldBy(s, i, id);
      forall p, k ensures Placed(s', p, k) { assert Placed(s, p, k); }
      forall p, k: Id ensures HeldBy(s', p, k) <==> (if p == i then t.returnOf == Some(k) else HeldBy(s, p, k)) {
        assert HeldBy(s', p, k) ==> (p == i && t.returnOf == Some(k)) || HeldBy(s, p, k);
      }
      assert t.returnOf.Some? ==> HeldBy(s', i, t.returnOf.value);
      FreeAfter(s, s', token, token, i);
      CancelKeepsPairs(s, token, id);
    }
  }

  lemma CancelKeepsPairs(s: State, token: Token, id: Id)
    requires PeersOk(s, token) && id in s.transfers
    ensures var s' := ServeCancel(s, s.transfers[id].target, id).state;
            s'.transfers == s.transfers && forall k :: k in s.transfers ==> PairOk(s', token, k)
  {
    var s' := ServeCancel(s, s.transfers[id].target, id).state;
    forall k | k in s.transfers ensures PairOk(s', token, k) { CancelKeepsPair(s, token, id, k); }
  }

  lemma CancelKeepsPair(s: State, token: Token, id: Id, k: Id)
    requires PeersOk(s, token) && id in s.transfers && k in s.transfers
    ensures var s' := ServeCancel(s, s.transfers[id].target, id).state; s'.transfers == s.transfers && PairOk(s', token, k)
  {
    var i := s.transfers[id].target;
    assert PairOk(s, token, id) && Placed(s, i, id);
    assert PairOk(s, token, k) && Placed(s, s.transfers[k].target, k) && Placed(s, s.transfers[k].source, k);
    assert HeldBy(s, i, k) && HeldBy(s, i, id) ==> k == id;
    hide HoldsOk, Held;
  }

  lemma ReleaseKeeps(s: State, token: Token, id: Id, proof: Receipt)
    requires PeersOk(s, token) && id in s.transfers && Proves(s, s.transfers[id], id, proof, false)
    ensures var i := s.transfers[id].source;
            var s' := ServeRelease(s, i, id, proof).state;
            PeersOk(s', MovedBy(s, token, i, id, Release(proof), s'))
  {
    var i, s' := s.transfers[id].source, ServeRelease(s, s.transfers[id].source, id, proof).state;
    if s'.records != s.records {
      assert PairOk(s, token, id) && HeldBy(s, i, id);
      forall p, k ensures Placed(s', p, k) { assert Placed(s, p, k); }
      forall k | k in s.transfers ensures PairOk(s', With(i), k) {
        assert PairOk(s, token, k) && Placed(s, s.transfers[k].target, k) && Placed(s, s.transfers[k].source, k);
      }
      forall p, k: Id ensures HeldBy(s', p, k) <==> p != i && HeldBy(s, p, k) {
        assert HeldBy(s', p, k) ==> HeldBy(s, p, k);
      }
      FreeAfter(s, s', token, With(i), i);
    } else {
      assert s' == s;
    }
  }

  lemma ExecuteKeepsPeers(s: State, token: Token, c: Call, accepted: bool)
    requires PeersOk(s, token) && CallOk(s, c)
    ensures var s' := Execute(s, c.to, c.id, c.request, accepted).state;
            PeersOk(s', MovedBy(s, token, c.to, c.id, c.request, s'))
  {
    hide PeersOk, ServePrepare, ServePause, ServeActivate, ServeCancel, ServeRelease;
    match c.request {
      case Prepare(_, _) => PrepareKeeps(s, token, c.id);
      case Pause(_) => PauseKeeps(s, token, c.id);
      case Activate(proof) => ActivateKeeps(s, token, c.id, proof);
      case Cancel => CancelKeeps(s, token, c.id);
      case Release(proof) => ReleaseKeeps(s, token, c.id, proof);
      case _ =>
    }
  }

  // ---------- What is on its way stays true ----------

  // Transfers, roles and canceled targets are for good.
  ghost predicate Grows(s: State, s': State) {
    && (forall id :: id in s.transfers ==> id in s'.transfers && s'.transfers[id] == s.transfers[id])
    && (forall k :: k in s.records ==> k in s'.records && Stays(s.records[k], s'.records[k]))
  }

  predicate Stays(r: Record, r': Record) {
    r'.peer == r.peer && if r.SourceRecord? then r'.SourceRecord? else r'.TargetRecord? && (r.reached.Canceled? ==> r'.reached.Canceled?)
  }

  lemma ProvesGrows(s: State, s': State, t: Transfer, id: Id, r: Receipt, bySource: bool)
    requires Grows(s, s') && Proves(s, t, id, r, bySource)
    ensures Proves(s', t, id, r, bySource)
  {
  }

  lemma RequestGrows(s: State, s': State, t: Transfer, id: Id, request: Request)
    requires Grows(s, s') && RequestOk(s, t, id, request)
    ensures RequestOk(s', t, id, request)
  {
  }

  lemma StageGrows(s: State, s': State, t: Transfer, id: Id, stage: Stage)
    requires Grows(s, s') && StageOk(s, t, id, stage)
    ensures StageOk(s', t, id, stage)
  {
    hide RequestOk;
    RequestGrows(s, s', t, id, RequestOf(t, stage));
  }

  // The coordinator may go on to a stage that stands on the truth, with the pinned peers.
  ghost predicate MayDo(s: State, d: Doing) {
    && d.ToSend? && d.id in s.transfers
    && var t := s.transfers[d.id]; d.source == t.source && d.target == t.target && StageOk(s, t, d.id, d.stage)
  }

  // Growing leaves calls and replies true, and the coordinator wherever it stands on the truth.
  lemma TrafficGrows(s: State, s': State)
    requires TrafficOk(s) && Grows(s, s') && s'.calls == s.calls && s'.replies == s.replies
    requires s'.doing.Idle? || s'.doing == s.doing || MayDo(s, s'.doing)
    ensures TrafficOk(s')
  {
    hide StageOk, RequestOk, Proves;
    forall c | c in s'.calls ensures CallOk(s', s'.calls[c]) {
      assert CallOk(s, s.calls[c]);
      RequestGrows(s, s', s.transfers[s.calls[c].id], s.calls[c].id, s.calls[c].request);
    }
    forall r | r in s'.replies ensures r.0 in s'.calls && ReplyOk(s', s'.calls[r.0], r.1) {
      var c := s.calls[r.0];
      assert ReplyOk(s, c, r.1);
      if r.1.Got? { ProvesGrows(s, s', s.transfers[c.id], c.id, r.1.receipt, ForSource(c.request)); }
    }
    var d := s'.doing;
    if !d.Idle? { StageGrows(s, s', s.transfers[d.id], d.id, d.stage); }
  }

  /** A reply names the record as it stands. */
  ghost predicate Current(s: State, r: Receipt) { (r.at, r.id) in s.records && s.records[(r.at, r.id)] == r.record }

  // An answer is true and to the point, and leaves the coordinator and the network alone.
  ghost predicate Answers(s: State, i: Instance, id: Id, request: Request, r: Served) {
    && Grows(s, r.state)
    && (r.reply.Some? && r.reply.value.Got? ==>
          var x := r.reply.value.receipt;
          Current(r.state, x) && x.id == id && x.at == i && x.record.SourceRecord? == ForSource(request))
    && r.state == s.(status := r.state.status, records := r.state.records)
  }

  lemma PrepareAnswers(s: State, i: Instance, id: Id, peer: Instance, returnOf: Option<Id>)
    ensures Answers(s, i, id, Prepare(peer, returnOf), ServePrepare(s, i, id, peer, returnOf))
  {
  }

  lemma CancelAnswers(s: State, i: Instance, id: Id)
    ensures Answers(s, i, id, Cancel, ServeCancel(s, i, id))
  {
  }

  lemma ActivateAnswers(s: State, i: Instance, id: Id, proof: Receipt)
    ensures Answers(s, i, id, Activate(proof), ServeActivate(s, i, id, proof))
  {
  }

  lemma PauseAnswers(s: State, i: Instance, id: Id, peer: Instance)
    ensures Answers(s, i, id, Pause(peer), ServePause(s, i, id, peer))
  {
    hide Held;
  }

  lemma ReleaseAnswers(s: State, i: Instance, id: Id, proof: Receipt)
    ensures Answers(s, i, id, Release(proof), ServeRelease(s, i, id, proof))
  {
  }

  /** Whatever an instance executes, its reply names its own record as it stands, in the role asked for. */
  lemma ExecuteAnswers(s: State, i: Instance, id: Id, request: Request, accepted: bool)
    ensures Answers(s, i, id, request, Execute(s, i, id, request, accepted))
  {
    hide ServePrepare, ServePause, ServeActivate, ServeCancel, ServeRelease;
    match request {
      case Prepare(peer, returnOf) => PrepareAnswers(s, i, id, peer, returnOf);
      case Cancel => CancelAnswers(s, i, id);
      case Activate(proof) => ActivateAnswers(s, i, id, proof);
      case Pause(peer) => PauseAnswers(s, i, id, peer);
      case Release(proof) => ReleaseAnswers(s, i, id, proof);
      case _ =>
    }
  }

  // The next stage stands on the reply that led to it.
  lemma NextIsOk(s: State, t: Transfer, id: Id, stage: Stage, reply: Reply, keyed: bool)
    requires StageOk(s, t, id, stage)
    requires reply.Got? ==> Proves(s, t, id, reply.receipt, ForSource(RequestOf(t, stage)))
    ensures NextStage(t, stage, reply, keyed).Some? ==> StageOk(s, t, id, NextStage(t, stage, reply, keyed).value)
  {
  }

  lemma FirstIsOk(s: State, t: Transfer, id: Id, action: Action)
    ensures StageOk(s, t, id, FirstStage(action))
  {
  }

  // Steps that are neither the coordinator's nor an instance's execution of a call.
  predicate Aside(step: Step) { !step.Serve? && !step.Send? && !step.Hear? && !step.Begin? }

  // They leave records, calls, replies and log alone; at most they save a transfer, or stop an action.
  lemma AsideFrame(s: State, step: Step)
    requires Aside(step)
    ensures var s' := Apply(s, step);
            && s'.records == s.records && s'.calls == s.calls && s'.replies == s.replies
            && s'.log == s.log && s'.keyed == s.keyed && (s'.doing == s.doing || s'.doing.Idle?)
            && forall id :: id in s.transfers ==> id in s'.transfers && s'.transfers[id] == s.transfers[id]
  {
    hide Held, Execute;
  }

  lemma AsideKeepsTraffic(s: State, step: Step)
    requires TrafficOk(s) && Aside(step)
    ensures TrafficOk(Apply(s, step))
  {
    hide TrafficOk, Apply, DoingOk;
    AsideFrame(s, step);
    TrafficGrows(s, Apply(s, step));
  }

  lemma BeginKeepsTraffic(s: State, id: Id, action: Action)
    requires TrafficOk(s)
    ensures TrafficOk(Apply(s, Begin(id, action)))
  {
    hide TrafficOk, StageOk;
    if id in s.transfers { FirstIsOk(s, s.transfers[id], id, action); }
    TrafficGrows(s, Apply(s, Begin(id, action)));
  }

  lemma HearKeepsTraffic(s: State, reply: Reply)
    requires TrafficOk(s)
    ensures TrafficOk(Apply(s, Hear(reply)))
  {
    hide StageOk, CallOk, Proves, NextStage;
    var d := s.doing;
    if d.Awaiting? && (d.call, reply) in s.replies {
      assert ReplyOk(s, s.calls[d.call], reply);
      NextIsOk(s, s.transfers[d.id], d.id, d.stage, reply, d.id in s.keyed);
    }
    TrafficGrows(s, Apply(s, Hear(reply)));
  }

  lemma SendKeepsTraffic(s: State, call: nat)
    requires TrafficOk(s)
    ensures TrafficOk(Apply(s, Send(call)))
  {
    hide RequestOk, Proves;
    var s' := Apply(s, Send(call));
    if s' != s {
      forall c | c in s'.calls ensures CallOk(s', s'.calls[c]) {
        if c != call { assert CallOk(s, s.calls[c]); }
        RequestGrows(s, s', s.transfers[s'.calls[c].id], s'.calls[c].id, s'.calls[c].request);
      }
      forall r | r in s'.replies ensures r.0 in s'.calls && ReplyOk(s', s'.calls[r.0], r.1) {
        var c := s.calls[r.0];
        assert ReplyOk(s, c, r.1);
        if r.1.Got? { ProvesGrows(s, s', s.transfers[c.id], c.id, r.1.receipt, ForSource(c.request)); }
      }
      StageGrows(s, s', s.transfers[s.doing.id], s.doing.id, s.doing.stage);
    }
  }

  lemma ServeKeepsTraffic(s: State, call: nat, accepted: bool)
    requires TrafficOk(s)
    ensures TrafficOk(Apply(s, Serve(call, accepted)))
  {
    if call in s.calls {
      var c := s.calls[call];
      assert CallOk(s, c);
      hide Execute, TrafficOk, RequestOk;
      var r := Execute(s, c.to, c.id, c.request, accepted);
      ExecuteAnswers(s, c.to, c.id, c.request, accepted);
      TrafficGrows(s, r.state);
      if r.reply.Some? { AnswerKeepsTraffic(r.state, call, r.reply.value); }
    }
  }

  lemma AnswerKeepsTraffic(s: State, call: nat, reply: Reply)
    requires TrafficOk(s) && call in s.calls && ReplyOk(s, s.calls[call], reply)
    ensures TrafficOk(s.(replies := s.replies + {(call, reply)}))
  {
    hide Proves, RequestOk, StageOk;
    var s' := s.(replies := s.replies + {(call, reply)});
    forall c | c in s'.calls ensures CallOk(s', s'.calls[c]) {
      assert CallOk(s, s.calls[c]);
      RequestGrows(s, s', s.transfers[s.calls[c].id], s.calls[c].id, s.calls[c].request);
    }
    forall r | r in s'.replies ensures r.0 in s'.calls && ReplyOk(s', s'.calls[r.0], r.1) {
      var c := s.calls[r.0];
      assert ReplyOk(s, c, r.1);
      if r.1.Got? { ProvesGrows(s, s', s.transfers[c.id], c.id, r.1.receipt, ForSource(c.request)); }
    }
    if !s.doing.Idle? { StageGrows(s, s', s.transfers[s.doing.id], s.doing.id, s.doing.stage); }
  }

  lemma StepKeepsTraffic(s: State, step: Step)
    requires TrafficOk(s)
    ensures TrafficOk(Apply(s, step))
  {
    hide Apply, TrafficOk;
    match step {
      case Serve(call, accepted) => ServeKeepsTraffic(s, call, accepted);
      case Send(call) => SendKeepsTraffic(s, call);
      case Hear(reply) => HearKeepsTraffic(s, reply);
      case Begin(id, action) => BeginKeepsTraffic(s, id, action);
      case _ => AsideKeepsTraffic(s, step);
    }
  }

  // ---------- Every run ----------

  ghost function Moved(s: State, token: Token, step: Step): Token {
    if step.Serve? && step.call in s.calls then
      var c := s.calls[step.call];
      MovedBy(s, token, c.to, c.id, c.request, Apply(s, step))
    else token
  }

  /** Where the right to run is after a run. */
  ghost function TokenAfter(steps: seq<Step>): Token {
    if steps == [] then With(0)
    else Moved(Run(steps[..|steps| - 1]), TokenAfter(steps[..|steps| - 1]), steps[|steps| - 1])
  }

  // Instances do not mind what travels between them.
  lemma SamePeers(s: State, s': State, token: Token)
    requires PeersOk(s, token)
    requires s'.transfers == s.transfers && s'.records == s.records && s'.status == s.status
    ensures PeersOk(s', token)
  {
    forall i, id ensures Placed(s', i, id) { assert Placed(s, i, id); }
    forall id | id in s'.transfers ensures PairOk(s', token, id) { assert PairOk(s, token, id); }
    SameHolds(s, s', token);
  }

  lemma SameHolds(s: State, s': State, token: Token)
    requires HoldsOk(s, token) && s'.records == s.records && s'.status == s.status
    ensures HoldsOk(s', token)
  {
    forall i, id: Id ensures HeldBy(s', i, id) <==> HeldBy(s, i, id) {}
    forall i ensures Held(s', i) <==> Held(s, i) {
      assert forall id: Id :: HeldBy(s', i, id) <==> HeldBy(s, i, id);
    }
    assert forall i :: Free(s', i) <==> Free(s, i);
  }

  // The user acts only on a watch that nothing holds.
  lemma UserKeepsPeers(s: State, token: Token, i: Instance, status: Status)
    requires PeersOk(s, token) && !Held(s, i)
    requires status.Stopped? || status.Running? ==> Free(s, i)
    ensures PeersOk(Put(s, i, status), token)
  {
    var s' := Put(s, i, status);
    forall p, id ensures Placed(s', p, id) { assert Placed(s, p, id); }
    forall id | id in s'.transfers ensures PairOk(s', token, id) { assert PairOk(s, token, id); }
    forall p, id: Id ensures HeldBy(s', p, id) <==> HeldBy(s, p, id) {}
    assert forall id: Id :: HeldBy(s', i, id) ==> Held(s, i);
    assert Free(s', i) ==> Free(s, i);
    FreeAfter(s, s', token, token, i);
  }

  lemma SaveKeepsPeers(s: State, token: Token, step: Step)
    requires PeersOk(s, token) && step.Save?
    ensures PeersOk(Apply(s, step), token)
  {
    var s' := Apply(s, step);
    if s' != s {
      forall i, id ensures Placed(s', i, id) { assert Placed(s, i, id); }
      forall id | id in s'.transfers ensures PairOk(s', token, id) {
        if id in s.transfers { assert PairOk(s, token, id); }
        assert Placed(s, s'.transfers[id].source, id) && Placed(s, s'.transfers[id].target, id);
      }
      SameHolds(s, s', token);
    }
  }

  lemma UserStepKeepsPeers(s: State, token: Token, step: Step)
    requires PeersOk(s, token) && (step.Resume? || step.Suspend? || step.Delete? || step.Purge?)
    ensures PeersOk(Apply(s, step), token)
  {
    hide PeersOk, Held;
    match step {
      case Resume(i) => if Is(s, i, Stopped) && !Held(s, i) { UserKeepsPeers(s, token, i, Running); }
      case Suspend(i) => if Is(s, i, Running) && !Held(s, i) { UserKeepsPeers(s, token, i, Stopped); }
      case Delete(i) => if !Held(s, i) { UserKeepsPeers(s, token, i, Deleted); }
      case Purge(i) => if !Held(s, i) { UserKeepsPeers(s, token, i, Purged); }
    }
  }

  lemma ServeKeepsPeers(s: State, token: Token, call: nat, accepted: bool)
    requires PeersOk(s, token) && TrafficOk(s)
    ensures PeersOk(Apply(s, Serve(call, accepted)), Moved(s, token, Serve(call, accepted)))
  {
    hide PeersOk, Execute;
    if call in s.calls {
      var c := s.calls[call];
      assert CallOk(s, c);
      hide TrafficOk;
      ExecuteKeepsPeers(s, token, c, accepted);
      var r := Execute(s, c.to, c.id, c.request, accepted);
      SamePeers(r.state, Answered(r, call), MovedBy(s, token, c.to, c.id, c.request, r.state));
    }
  }

  lemma CoordinatorKeepsPeers(s: State, token: Token, step: Step)
    requires PeersOk(s, token)
    requires step.Begin? || step.Send? || step.Hear? || step.Stop? || step.Reconnect?
    ensures PeersOk(Apply(s, step), token)
  {
    hide PeersOk, NextStage, RequestOf;
    SamePeers(s, Apply(s, step), token);
  }

  lemma StepKeepsPeers(s: State, token: Token, step: Step)
    requires PeersOk(s, token) && TrafficOk(s)
    ensures PeersOk(Apply(s, step), Moved(s, token, step))
  {
    hide PeersOk, TrafficOk, Apply;
    match step {
      case Serve(call, accepted) => ServeKeepsPeers(s, token, call, accepted);
      case Save(_, _, _, _) => SaveKeepsPeers(s, token, step);
      case Resume(_) => UserStepKeepsPeers(s, token, step);
      case Suspend(_) => UserStepKeepsPeers(s, token, step);
      case Delete(_) => UserStepKeepsPeers(s, token, step);
      case Purge(_) => UserStepKeepsPeers(s, token, step);
      case _ => CoordinatorKeepsPeers(s, token, step);
    }
  }

  lemma StartIsOk()
    ensures PeersOk(START, With(0)) && TrafficOk(START)
  {
  }

  lemma {:induction false} RunKeepsPeers(steps: seq<Step>)
    ensures PeersOk(Run(steps), TokenAfter(steps)) && TrafficOk(Run(steps))
  {
    hide PeersOk, TrafficOk, Apply, Moved;
    if steps == [] {
      StartIsOk();
    } else {
      var init, step := steps[..|steps| - 1], steps[|steps| - 1];
      RunKeepsPeers(init);
      StepKeepsPeers(Run(init), TokenAfter(init), step);
      StepKeepsTraffic(Run(init), step);
    }
  }

  /**
    Exclusive transfer: through any number of transfers there and back, with connections that come
    to reach other instances, calls and replies lost, late or repeated, actions stopped and
    retried, and users resuming, pausing, deleting and purging whatever nothing holds, the watch
    never runs on two instances, and no transfer has an active target and a released source.
   */
  lemma NeverOnTwoInstances(steps: seq<Step>)
    ensures var s := Run(steps);
            && (forall i, j :: Is(s, i, Running) && Is(s, j, Running) ==> i == j)
            && forall id :: id in s.transfers ==>
                 var a, b := (s.transfers[id].source, id), (s.transfers[id].target, id);
                 b in s.records && s.records[b].TargetRecord? && s.records[b].reached.Active? ==>
                   a in s.records && s.records[a].SourceRecord? && !s.records[a].phase.Released?
  {
    hide Run, TokenAfter, PeersOk;
    RunKeepsPeers(steps);
    OneRuns(Run(steps), TokenAfter(steps));
  }

  lemma OneRuns(s: State, token: Token)
    requires PeersOk(s, token)
    ensures forall i, j :: Is(s, i, Running) && Is(s, j, Running) ==> i == j
    ensures forall id :: id in s.transfers ==>
              var a, b := (s.transfers[id].source, id), (s.transfers[id].target, id);
              b in s.records && s.records[b].TargetRecord? && s.records[b].reached.Active? ==>
                a in s.records && s.records[a].SourceRecord? && !s.records[a].phase.Released?
  {
    forall i | Is(s, i, Running) ensures token == With(i) {
      assert forall id :: HeldBy(s, i, id) ==> Is(s, i, Stopped);
      assert Free(s, i);
    }
    forall id | id in s.transfers ensures PairOk(s, token, id) {}
  }

  // ---------- What lasts ----------

  lemma StepGrows(s: State, step: Step)
    ensures Grows(s, Apply(s, step))
  {
    hide Execute, Held;
    if step.Serve? && step.call in s.calls {
      var c := s.calls[step.call];
      ExecuteAnswers(s, c.to, c.id, c.request, step.accepted);
    }
  }

  lemma GrowsOn(s: State, s1: State, s2: State)
    requires Grows(s, s1) && Grows(s1, s2)
    ensures Grows(s, s2)
  {
  }

  /** A saved transfer is the same, and every record keeps its role and peer, in every extension of a run. */
  lemma {:induction false} PinsAreForGood(before: seq<Step>, more: seq<Step>)
    ensures Grows(Run(before), Run(before + more))
  {
    hide Apply, Grows, Run;
    if more == [] {
      assert before + more == before;
      GrowsSelf(Run(before));
    } else {
      var init, step := more[..|more| - 1], more[|more| - 1];
      PinsAreForGood(before, init);
      assert before + more == before + init + [step];
      OneMore(before + init, step);
      StepGrows(Run(before + init), step);
      GrowsOn(Run(before), Run(before + init), Run(before + more));
    }
  }

  lemma GrowsSelf(s: State)
    ensures Grows(s, s)
  {
  }

  lemma OneMore(steps: seq<Step>, step: Step)
    ensures Run(steps + [step]) == Apply(Run(steps), step)
  {
    hide Apply;
    assert (steps + [step])[..|steps|] == steps;
  }

  /** A receipt tells the truth about a moment: the record it names was that instance's record once in the run. */
  lemma {:induction false} ReceiptsWereRecords(steps: seq<Step>, call: nat, r: Receipt) returns (n: nat)
    requires (call, Got(r)) in Run(steps).replies
    ensures n <= |steps| && Current(Run(steps[..n]), r)
  {
    hide Apply;
    var init, step := steps[..|steps| - 1], steps[|steps| - 1];
    if (call, Got(r)) in Run(init).replies {
      n := ReceiptsWereRecords(init, call, r);
      assert init[..n] == steps[..n];
    } else {
      n := |steps|;
      assert steps[..n] == steps;
      NewReceiptIsCurrent(Run(init), step, call, r);
    }
  }

  lemma NewReceiptIsCurrent(s: State, step: Step, call: nat, r: Receipt)
    requires (call, Got(r)) !in s.replies && (call, Got(r)) in Apply(s, step).replies
    ensures Current(Apply(s, step), r)
  {
    hide Execute, Held, Grows;
    if step.Serve? && step.call in s.calls {
      var c := s.calls[step.call];
      ExecuteAnswers(s, c.to, c.id, c.request, step.accepted);
    }
  }
}
