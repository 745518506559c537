/**
  Ownership fencing of the PostgreSQL instance (internal/database/ownership.go) as a protocol:
  server sessions, one advisory lock, one owner row, and transactions of several processes, in
  any interleaving.

  A step is one statement as the server executes it. An UPDATE of the owner row waits for the
  share locks of other transactions, so it happens only when none is held; a FOR SHARE read
  keeps its lock until its transaction ends. Sessions may die at any moment and their process
  IDs be reused; nonces are random and therefore fresh.
 */
module Ownership {
  import opened Common

  type Sid = nat
  type Nonce = nat

  // What an Ownership object remembers; `sid` is its dedicated session.
  datatype Owner = Owner(sid: Sid, pid: int, lost: bool)

  datatype Row = Row(pid: int, nonce: Option<Nonce>)

  // A transaction of the owner with `nonce`: how many fences it passed, whether it holds the
  // share lock, and whether a fence refused it.
  datatype Tx = Tx(nonce: Nonce, passed: nat, share: bool, refused: bool)

  datatype Entry = Published(nonce: Nonce) | Committed(tid: nat, nonce: Nonce)

  datatype State = State(live: map<Sid, int>, next: Sid, lock: Option<Sid>, row: Row,
                         owners: map<Nonce, Owner>, txs: map<nat, Tx>, log: seq<Entry>)

  const EMPTY := State(map[], 0, None, Row(0, None), map[], map[], [])

  datatype Step =
    | Connect(pid: int)                  // a dedicated connection opens
    | Die(sid: Sid)                      // a session ends; its advisory lock is released
    | TryLock(sid: Sid)                  // pg_try_advisory_lock
    | Publish(sid: Sid, nonce: Nonce)    // the owner row is updated
    | Lose(nonce: Nonce)                 // maintain or Close marks an owner lost
    | Begin(tid: nat, nonce: Nonce)
    | Fence(tid: nat)                    // a write fence
    | Commit(tid: nat)                   // after a fence at the start and one before commit
    | Rollback(tid: nat)

  // A live session with the owner row's process ID holds the advisory lock.
  ghost predicate Active(s: State) { s.lock.Some? && s.lock.value in s.live && s.live[s.lock.value] == s.row.pid }

  /** What a write fence of an owner checks. */
  ghost predicate Passes(s: State, nonce: Nonce)
  {
    && nonce in s.owners && !s.owners[nonce].lost
    && s.row.pid == s.owners[nonce].pid && s.row.nonce == Some(nonce)
    && Active(s)
  }

  ghost predicate NoShareLock(s: State) { forall t :: t in s.txs ==> !s.txs[t].share }

  ghost predicate Enabled(s: State, step: Step) {
    match step
    case Connect(pid) => forall sid :: sid in s.live ==> s.live[sid] != pid
    case Die(sid) => sid in s.live
    case TryLock(sid) => sid in s.live && s.lock.None?
    case Publish(sid, nonce) => sid in s.live && s.lock == Some(sid) && nonce !in s.owners && NoShareLock(s)
    case Lose(nonce) => nonce in s.owners
    case Begin(tid, nonce) => tid !in s.txs && nonce in s.owners
    case Fence(tid) => tid in s.txs
    case Commit(tid) => tid in s.txs && s.txs[tid].passed >= 2 && !s.txs[tid].refused
    case Rollback(tid) => tid in s.txs
  }

  ghost function Fenced(s: State, t: Tx): Tx {
    if t.nonce in s.owners && s.owners[t.nonce].lost then t.(refused := true)
    else if Passes(s, t.nonce) then t.(share := true, passed := t.passed + 1)
    else t.(share := true, refused := true)
  }

  /** One step; a step that is not enabled changes nothing. */
  ghost function Apply(s: State, step: Step): State {
    if !Enabled(s, step) then s
    else
      match step
      case Connect(pid) => s.(live := s.live[s.next := pid], next := s.next + 1)
      case Die(sid) => s.(live := s.live - {sid}, lock := if s.lock == Some(sid) then None else s.lock)
      case TryLock(sid) => s.(lock := Some(sid))
      case Publish(sid, nonce) =>
        s.(row := Row(s.live[sid], Some(nonce)), owners := s.owners[nonce := Owner(sid, s.live[sid], false)],
           log := s.log + [Published(nonce)])
      case Lose(nonce) => s.(owners := s.owners[nonce := s.owners[nonce].(lost := true)])
      case Begin(tid, nonce) => s.(txs := s.txs[tid := Tx(nonce, 0, false, false)])
      case Fence(tid) => s.(txs := s.txs[tid := Fenced(s, s.txs[tid])])
      case Commit(tid) => s.(txs := s.txs - {tid}, log := s.log + [Committed(tid, s.txs[tid].nonce)])
      case Rollback(tid) => s.(txs := s.txs - {tid})
  }

  ghost function Run(steps: seq<Step>): State {
    if steps == [] then EMPTY else Apply(Run(steps[..|steps| - 1]), steps[|steps| - 1])
  }

  // ---------- Eras ----------

  /** Whose era it is at the end of a log. */
  ghost function Era(log: seq<Entry>): Option<Nonce> {
    if log == [] then None
    else if log[|log| - 1].Published? then Some(log[|log| - 1].nonce)
    else Era(log[..|log| - 1])
  }

  ghost predicate InEra(log: seq<Entry>, i: nat)
    requires i < |log|
  {
    log[i].Committed? ==> Era(log[..i]) == Some(log[i].nonce)
  }

  ghost predicate PublishedOnce(log: seq<Entry>, i: nat, j: nat)
    requires i < j < |log|
  {
    log[i].Published? && log[j].Published? ==> log[i].nonce != log[j].nonce
  }

  ghost predicate Inv(s: State) {
    && (forall sid :: sid in s.live ==> sid < s.next)
    && (forall a, b :: a in s.live && b in s.live && a != b ==> s.live[a] != s.live[b])
    && (s.lock.Some? ==> s.lock.value in s.live)
    && s.row.nonce == Era(s.log)
    && (s.row.nonce.Some? ==> s.row.nonce.value in s.owners && s.row.pid == s.owners[s.row.nonce.value].pid)
    && (forall n :: n in s.owners ==>
          && s.owners[n].sid < s.next
          && (s.owners[n].sid in s.live ==> s.live[s.owners[n].sid] == s.owners[n].pid))
    // A transaction that passed a fence holds the share lock in its owner's era.
    && (forall t :: t in s.txs ==> s.txs[t].passed > 0 ==> s.txs[t].share && s.row.nonce == Some(s.txs[t].nonce))
    // A session that published keeps the lock while it lives,
    && (forall n :: n in s.owners && s.owners[n].sid in s.live ==> s.lock == Some(s.owners[n].sid))
    // and a lock holder that has published is the row's owner.
    && (forall n :: n in s.owners && s.lock == Some(s.owners[n].sid) ==>
          s.row.nonce.Some? && s.owners[s.row.nonce.value].sid == s.owners[n].sid)
  }

  ghost predicate LogOk(s: State) {
    && (forall i :: 0 <= i < |s.log| ==> InEra(s.log, i))
    && (forall i, j :: 0 <= i < j < |s.log| ==> PublishedOnce(s.log, i, j))
    && (forall i :: 0 <= i < |s.log| && s.log[i].Published? ==> s.log[i].nonce in s.owners)
  }

  lemma EraAppend(log: seq<Entry>, e: Entry)
    ensures Era(log + [e]) == if e.Published? then Some(e.nonce) else Era(log)
  {
    assert (log + [e])[..|log|] == log;
  }

  lemma StepKeepsInv(s: State, step: Step)
    requires Inv(s)
    ensures Inv(Apply(s, step))
  {
    hide Era;
    match step {
      case Publish(sid, nonce) => EraAppend(s.log, Published(nonce));
      case Commit(tid) => if tid in s.txs { EraAppend(s.log, Committed(tid, s.txs[tid].nonce)); }
      case _ =>
    }
  }

  lemma AppendKeepsLog(log: seq<Entry>, e: Entry, owners: set<Nonce>)
    requires forall i :: 0 <= i < |log| ==> InEra(log, i)
    requires forall i, j :: 0 <= i < j < |log| ==> PublishedOnce(log, i, j)
    requires forall i :: 0 <= i < |log| && log[i].Published? ==> log[i].nonce in owners
    requires e.Committed? ==> Era(log) == Some(e.nonce)
    requires e.Published? ==> e.nonce !in owners
    ensures var log' := log + [e];
            && (forall i :: 0 <= i < |log'| ==> InEra(log', i))
            && (forall i, j :: 0 <= i < j < |log'| ==> PublishedOnce(log', i, j))
  {
    hide Era;
    var log' := log + [e];
    forall i | 0 <= i < |log'| ensures InEra(log', i) {
      assert log'[..i] == log[..i];
      if i < |log| { assert InEra(log, i); } else { assert log[..i] == log; }
    }
    forall i, j | 0 <= i < j < |log'| ensures PublishedOnce(log', i, j) {
      if j < |log| { assert PublishedOnce(log, i, j); }
    }
  }

  lemma StepKeepsLog(s: State, step: Step)
    requires Inv(s) && LogOk(s)
    ensures LogOk(Apply(s, step))
  {
    hide Era, PublishedOnce, InEra;
    match step {
      case Publish(sid, nonce) => if nonce !in s.owners { AppendKeepsLog(s.log, Published(nonce), s.owners.Keys); }
      case Commit(tid) =>
        if Enabled(s, step) { AppendKeepsLog(s.log, Committed(tid, s.txs[tid].nonce), s.owners.Keys); }
      case _ =>
    }
  }

  lemma {:induction false} RunIsSafe(steps: seq<Step>)
    ensures Inv(Run(steps)) && LogOk(Run(steps))
  {
    if steps != [] {
      hide Apply, Inv, LogOk;
      RunIsSafe(steps[..|steps| - 1]);
      StepKeepsInv(Run(steps[..|steps| - 1]), steps[|steps| - 1]);
      StepKeepsLog(Run(steps[..|steps| - 1]), steps[|steps| - 1]);
    }
  }

  /**
    Ownership eras: in every run, a write-fenced commit comes after its owner's publish and
    before any later publish.
   */
  lemma CommitsFallInTheirEra(steps: seq<Step>, i: nat)
    requires i < |Run(steps).log| && Run(steps).log[i].Committed?
    ensures exists p :: 0 <= p < i && Run(steps).log[p] == Published(Run(steps).log[i].nonce)
              && forall k :: p < k < i ==> Run(steps).log[k].Committed?
  {
    RunIsSafe(steps);
    var log := Run(steps).log;
    assert InEra(log, i);
    var p := EraStart(log[..i]);
    assert log[p] == log[..i][p];
    assert forall k :: p < k < i ==> log[k] == log[..i][k];
  }

  lemma {:induction false} EraStart(log: seq<Entry>) returns (p: nat)
    requires Era(log).Some?
    ensures p < |log| && log[p] == Published(Era(log).value) && forall k :: p < k < |log| ==> log[k].Committed?
  {
    if log[|log| - 1].Published? {
      p := |log| - 1;
    } else {
      p := EraStart(log[..|log| - 1]);
    }
  }

  lemma {:induction false} EraBetween(log: seq<Entry>, i: nat, n: nat)
    requires i <= n <= |log| && forall k :: i <= k < n ==> log[k].Committed?
    ensures Era(log[..n]) == Era(log[..i])
  {
    if i < n {
      assert log[..n][..n - 1] == log[..n - 1];
      EraBetween(log, i, n - 1);
    }
  }

  /** Commits form contiguous blocks by owner: between two commits of one owner lies nothing of another. */
  lemma CommitsFormBlocks(steps: seq<Step>, i: nat, j: nat, k: nat)
    requires i < k < j < |Run(steps).log|
    requires var log := Run(steps).log; log[i].Committed? && log[j].Committed? && log[i].nonce == log[j].nonce
    ensures Run(steps).log[k].Committed? && Run(steps).log[k].nonce == Run(steps).log[i].nonce
  {
    RunIsSafe(steps);
    var log := Run(steps).log;
    var n := log[i].nonce;
    assert InEra(log, i) && InEra(log, j) && InEra(log, k);
    var p := EraStart(log[..i]);
    var q := EraStart(log[..j]);
    assert log[p] == log[..i][p] == Published(n) && log[q] == log[..j][q] == Published(n);
    assert p < q ==> PublishedOnce(log, p, q);
    assert q < p ==> PublishedOnce(log, q, p);
    forall m | i <= m < j ensures log[m].Committed? { assert log[m] == log[..j][m]; }
    EraBetween(log, i, k);
  }

  // ---------- Lost owners ----------

  // A lost owner, and its transactions, none of which is past both fences.
  ghost predicate Done(s: State, nonce: Nonce) {
    && nonce in s.owners && s.owners[nonce].lost
    && forall t :: t in s.txs && s.txs[t].nonce == nonce ==> s.txs[t].passed < 2
  }

  // How many transactions of an owner have committed.
  ghost function Commits(log: seq<Entry>, nonce: Nonce): nat {
    if log == [] then 0
    else Commits(log[..|log| - 1], nonce) + (if log[|log| - 1].Committed? && log[|log| - 1].nonce == nonce then 1 else 0)
  }

  lemma CommitsAppend(log: seq<Entry>, e: Entry, nonce: Nonce)
    ensures Commits(log + [e], nonce) == Commits(log, nonce) + (if e.Committed? && e.nonce == nonce then 1 else 0)
  {
    assert (log + [e])[..|log|] == log;
  }

  lemma DoneStays(s: State, step: Step, nonce: Nonce)
    requires Done(s, nonce)
    ensures Done(Apply(s, step), nonce) && Commits(Apply(s, step).log, nonce) == Commits(s.log, nonce)
  {
    hide Commits;
    match step {
      case Publish(sid, n) => CommitsAppend(s.log, Published(n), nonce);
      case Commit(tid) => if tid in s.txs { CommitsAppend(s.log, Committed(tid, s.txs[tid].nonce), nonce); }
      case _ =>
    }
  }

  /** A lost owner starts nothing more: once none of its transactions is past both fences, it never commits again. */
  lemma {:induction false} LostOwnerIsDone(before: seq<Step>, more: seq<Step>, nonce: Nonce)
    requires Done(Run(before), nonce)
    ensures Done(Run(before + more), nonce) && Commits(Run(before + more).log, nonce) == Commits(Run(before).log, nonce)
  {
    hide Apply, Done, Commits;
    if more == [] {
      assert before + more == before;
    } else {
      var init := more[..|more| - 1];
      LostOwnerIsDone(before, init, nonce);
      assert (before + more)[..|before + more| - 1] == before + init;
      DoneStays(Run(before + init), more[|more| - 1], nonce);
    }
  }

  // ---------- Refused transactions ----------

  ghost predicate IsRefused(s: State, tid: nat) { tid in s.txs && s.txs[tid].refused }

  // How often a transaction's number appears as committed.
  ghost function CommitsOf(log: seq<Entry>, tid: nat): nat {
    if log == [] then 0
    else CommitsOf(log[..|log| - 1], tid) + (if log[|log| - 1].Committed? && log[|log| - 1].tid == tid then 1 else 0)
  }

  lemma CommitsOfAppend(log: seq<Entry>, e: Entry, tid: nat)
    ensures CommitsOf(log + [e], tid) == CommitsOf(log, tid) + (if e.Committed? && e.tid == tid then 1 else 0)
  {
    assert (log + [e])[..|log|] == log;
  }

  lemma RefusedStays(s: State, step: Step, tid: nat)
    requires IsRefused(s, tid) && step != Rollback(tid)
    ensures IsRefused(Apply(s, step), tid) && CommitsOf(Apply(s, step).log, tid) == CommitsOf(s.log, tid)
  {
    hide CommitsOf;
    match step {
      case Publish(sid, n) => CommitsOfAppend(s.log, Published(n), tid);
      case Commit(t) => if t in s.txs { CommitsOfAppend(s.log, Committed(t, s.txs[t].nonce), tid); }
      case _ =>
    }
  }

  /** A transaction that any fence refused never commits, whatever fences it passes before or after: it can only roll back. */
  lemma {:induction false} RefusedNeverCommits(before: seq<Step>, more: seq<Step>, tid: nat)
    requires IsRefused(Run(before), tid) && Rollback(tid) !in more
    ensures IsRefused(Run(before + more), tid) && CommitsOf(Run(before + more).log, tid) == CommitsOf(Run(before).log, tid)
  {
    hide Apply, IsRefused, CommitsOf;
    if more == [] {
      assert before + more == before;
    } else {
      var init, step := more[..|more| - 1], more[|more| - 1];
      assert more == init + [step] && step in more;
      RefusedNeverCommits(before, init, tid);
      assert (before + more)[..|before + more| - 1] == before + init;
      RefusedStays(Run(before + init), step, tid);
    }
  }

  /** A fence refuses a transaction exactly when its owner is lost or no longer the published one with an active lock. */
  lemma FenceRefuses(s: State, tid: nat)
    requires tid in s.txs
    ensures var t, t' := s.txs[tid], Apply(s, Fence(tid)).txs[tid];
            var good := t.nonce in s.owners && !s.owners[t.nonce].lost && s.row == Row(s.owners[t.nonce].pid, Some(t.nonce)) && Active(s);
            && (good ==> t' == Tx(t.nonce, t.passed + 1, true, t.refused))
            && (!good ==> t'.refused && t'.passed == t.passed && t'.nonce == t.nonce)
  {
  }

  // ---------- What the fence does and does not prove about the owner's own session ----------

  /**
    A passing fence means that the owner's session holds the lock, or that a session which
    reused its process ID does and has not published yet; nothing else can hold it.
   */
  lemma FenceMeaning(steps: seq<Step>, nonce: Nonce)
    requires Passes(Run(steps), nonce)
    ensures var s := Run(steps);
            var holder, own := s.lock.value, s.owners[nonce].sid;
            && (holder == own <==> own in s.live)
            && (holder != own ==>
                  && s.live[holder] == s.owners[nonce].pid
                  && forall n :: n in s.owners ==> s.owners[n].sid != holder)
  {
    RunIsSafe(steps);
  }

  // The second case happens: the old owner's transaction commits while a successor with the same
  // process ID already holds the lock. It is still in the old owner's era.
  const REUSED_PID := [Connect(7), TryLock(0), Publish(0, 0), Begin(0, 0), Die(0), Connect(7), TryLock(1),
                       Fence(0), Fence(0), Commit(0)]

  lemma OneMore(steps: seq<Step>, k: nat, s: State)
    requires k < |steps| && Run(steps[..k]) == s
    ensures Run(steps[..k + 1]) == Apply(s, steps[k])
  {
    hide Apply;
    assert steps[..k + 1][..k] == steps[..k];
  }

  lemma ReusedPidFirstOwner()
    ensures Run(REUSED_PID[..5])
         == State(map[], 1, None, Row(7, Some(0)), map[0 := Owner(0, 7, false)], map[0 := Tx(0, 0, false, false)], [Published(0)])
  {
    var r := REUSED_PID;
    assert r[..0] == [];
    OneMore(r, 0, EMPTY);
    var s1 := State(map[0 := 7], 1, None, Row(0, None), map[], map[], []);
    OneMore(r, 1, s1);
    var s2 := s1.(lock := Some(0));
    OneMore(r, 2, s2);
    var s3 := State(map[0 := 7], 1, Some(0), Row(7, Some(0)), map[0 := Owner(0, 7, false)], map[], [Published(0)]);
    OneMore(r, 3, s3);
    var s4 := s3.(txs := map[0 := Tx(0, 0, false, false)]);
    OneMore(r, 4, s4);
    assert s4.live - {0} == map[];
  }

  lemma ReusedPidSecondOwner()
    ensures Run(REUSED_PID[..7])
         == State(map[1 := 7], 2, Some(1), Row(7, Some(0)), map[0 := Owner(0, 7, false)], map[0 := Tx(0, 0, false, false)], [Published(0)])
  {
    var r := REUSED_PID;
    ReusedPidFirstOwner();
    var s5 := State(map[], 1, None, Row(7, Some(0)), map[0 := Owner(0, 7, false)], map[0 := Tx(0, 0, false, false)], [Published(0)]);
    OneMore(r, 5, s5);
    OneMore(r, 6, s5.(live := map[1 := 7], next := 2));
  }

  lemma ReusedPidPassesTheFence()
    ensures Run(REUSED_PID).log == [Published(0), Committed(0, 0)]
    ensures 0 !in Run(REUSED_PID).live && Run(REUSED_PID).lock == Some(1)
  {
    hide Run;
    var r := REUSED_PID;
    ReusedPidSecondOwner();
    var s7 := State(map[1 := 7], 2, Some(1), Row(7, Some(0)), map[0 := Owner(0, 7, false)], map[0 := Tx(0, 0, false, false)], [Published(0)]);
    OneMore(r, 7, s7);
    var s8 := s7.(txs := map[0 := Tx(0, 1, true, false)]);
    OneMore(r, 8, s8);
    var s9 := s7.(txs := map[0 := Tx(0, 2, true, false)]);
    OneMore(r, 9, s9);
    assert r[..10] == r;
  }
}
