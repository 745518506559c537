/**
  Push admission (internal/cloud/push_config.go): per-workspace and per-producer limits in one
  bounded registry, and slots that admitted requests hold until they are released.
 */
module PushAdmission {
  import opened TokenBucket
  import opened Admission

  const MAX_ENTRIES := 100 * 202
  const HOOK_SLOTS := 4
  const IDLE := 600.0

  datatype Config = Config(hostConcurrent: nat, workspaceConcurrent: nat, workspaceRate: nat, workspaceBurst: nat,
                           producerRate: nat, producerBurst: nat, bytesPerSecond: nat, byteBurst: nat)

  datatype Key = Workspace(ws: string) | Producer(ws: string, producer: string) | Signature(ws: string)

  // The limiters a new entry starts with: requests, then bytes.
  function FirstRequests(cfg: Config, k: Key): Limiter {
    match k
    case Workspace(_) => New(cfg.workspaceRate as real, cfg.workspaceBurst)
    case Producer(_, _) => New(cfg.producerRate as real, cfg.producerBurst)
    case Signature(_) => New(20.0, 40)
  }

  function FirstBytes(cfg: Config, k: Key): Limiter {
    if k.Signature? then New(1048576.0, 2097152) else New(cfg.bytesPerSecond as real, cfg.byteBurst)
  }

  datatype Budget = Budget(requests: Limiter, bytes: Limiter, active: nat, used: real)

  predicate Idle(b: Budget, at: real) {
    b.active == 0 && at - b.used > IDLE && Full(b.requests, at) && Full(b.bytes, at)
  }

  lemma IdleMeans(b: Budget, at: real)
    ensures Idle(b, at) <==> b.active == 0 && b.used + 600.0 < at && Full(b.requests, at) && Full(b.bytes, at)
  {
  }

  // ---------- Outstanding work ----------

  datatype Grant = Push(ws: string, producer: string) | Hook(ws: string)

  // What a grant holds: its entries, and a slot of its kind.
  datatype Held = Entry(k: Key) | PushSlot | HookSlot

  predicate Holds(g: Grant, h: Held) {
    match g
    case Push(ws, p) => h == Entry(Workspace(ws)) || h == Entry(Producer(ws, p)) || h == PushSlot
    case Hook(ws) => h == Entry(Signature(ws)) || h == HookSlot
  }

  ghost function Holders(grants: map<nat, Grant>, h: Held): set<nat> { set id | id in grants && Holds(grants[id], h) }

  lemma GrantAdds(grants: map<nat, Grant>, id: nat, g: Grant, h: Held)
    requires id !in grants
    ensures |Holders(grants[id := g], h)| == |Holders(grants, h)| + (if Holds(g, h) then 1 else 0)
  {
    assert Holders(grants[id := g], h) == Holders(grants, h) + (if Holds(g, h) then {id} else {});
  }

  lemma ReleaseDrops(grants: map<nat, Grant>, id: nat, h: Held)
    requires id in grants
    ensures |Holders(grants - {id}, h)| == |Holders(grants, h)| - (if Holds(grants[id], h) then 1 else 0)
  {
    assert Holders(grants - {id}, h) == Holders(grants, h) - (if Holds(grants[id], h) then {id} else {});
  }

  // ---------- The invariant ----------

  type Ledger = map<(Key, bool), seq<Served>>

  ghost predicate EntryOk(cfg: Config, k: Key, b: Budget, served: Ledger, grants: map<nat, Grant>, now: real) {
    && Tracks(b.requests, FirstRequests(cfg, k), LogOf(served, (k, false)), now)
    && Tracks(b.bytes, FirstBytes(cfg, k), LogOf(served, (k, true)), now)
    && b.active == |Holders(grants, Entry(k))|
    && (k.Workspace? ==> b.active <= cfg.workspaceConcurrent)
    && (k.Signature? ==> b.active <= 1)
  }

  ghost predicate AbsentOk(cfg: Config, k: Key, served: Ledger, grants: map<nat, Grant>, now: real) {
    && Rested(FirstRequests(cfg, k), LogOf(served, (k, false)), now)
    && Rested(FirstBytes(cfg, k), LogOf(served, (k, true)), now)
    && |Holders(grants, Entry(k))| == 0
  }

  ghost predicate RegistryOk(cfg: Config, budgets: map<Key, Budget>, served: Ledger, grants: map<nat, Grant>, now: real) {
    && (forall k :: k in budgets ==> EntryOk(cfg, k, budgets[k], served, grants, now))
    && (forall k :: k !in budgets ==> AbsentOk(cfg, k, served, grants, now))
  }

  /** What a registry that never forgets answers for one entry. */
  ghost predicate Affords(cfg: Config, served: Ledger, k: Key, at: real, bytes: nat) {
    && Allows(After(FirstRequests(cfg, k), LogOf(served, (k, false))), at, 1)
    && Allows(After(FirstBytes(cfg, k), LogOf(served, (k, true))), at, bytes)
  }

  // The ledger after one entry is charged, with the answers it gave.
  ghost function Charged(cfg: Config, served: Ledger, k: Key, at: real, bytes: nat): Ledger {
    var r, b := LogOf(served, (k, false)), LogOf(served, (k, true));
    served[(k, false) := r + [Served(at, 1, Allows(After(FirstRequests(cfg, k), r), at, 1))]]
          [(k, true) := b + [Served(at, bytes, Allows(After(FirstBytes(cfg, k), b), at, bytes))]]
  }

  lemma EvictKeeps(cfg: Config, budgets: map<Key, Budget>, served: Ledger, grants: map<nat, Grant>, at: real, k: Key)
    requires RegistryOk(cfg, budgets, served, grants, at) && k in budgets && Idle(budgets[k], at)
    ensures RegistryOk(cfg, budgets - {k}, served, grants, at)
  {
    hide Tracks, Rested, Full;
    var b := budgets[k];
    TrackEvict(b.requests, FirstRequests(cfg, k), LogOf(served, (k, false)), at);
    TrackEvict(b.bytes, FirstBytes(cfg, k), LogOf(served, (k, true)), at);
  }

  lemma InsertKeeps(cfg: Config, budgets: map<Key, Budget>, served: Ledger, grants: map<nat, Grant>, at: real, k: Key)
    requires RegistryOk(cfg, budgets, served, grants, at) && k !in budgets
    ensures RegistryOk(cfg, budgets[k := Budget(FirstRequests(cfg, k), FirstBytes(cfg, k), 0, at)], served, grants, at)
  {
    hide Tracks, Rested;
    TrackNew(FirstRequests(cfg, k), LogOf(served, (k, false)), at);
    TrackNew(FirstBytes(cfg, k), LogOf(served, (k, true)), at);
  }

  // Charging an entry lengthens its two logs and leaves every other log alone.
  lemma ChargedLogs(cfg: Config, served: Ledger, k: Key, at: real, bytes: nat)
    ensures var r, b, after := LogOf(served, (k, false)), LogOf(served, (k, true)), Charged(cfg, served, k, at, bytes);
            && LogOf(after, (k, false)) == r + [Served(at, 1, Allows(After(FirstRequests(cfg, k), r), at, 1))]
            && LogOf(after, (k, true)) == b + [Served(at, bytes, Allows(After(FirstBytes(cfg, k), b), at, bytes))]
            && forall other, kind :: other != k ==> LogOf(after, (other, kind)) == LogOf(served, (other, kind))
  {
    hide Allows, After, FirstRequests, FirstBytes;
  }

  lemma ChargeKeeps(cfg: Config, budgets: map<Key, Budget>, served: Ledger, grants: map<nat, Grant>, at: real, k: Key, bytes: nat)
    requires RegistryOk(cfg, budgets, served, grants, at) && k in budgets
    ensures var b := budgets[k];
            && RegistryOk(cfg, budgets[k := b.(requests := Spend(b.requests, at, 1), bytes := Spend(b.bytes, at, bytes))],
                          Charged(cfg, served, k, at, bytes), grants, at)
            && (Allows(b.requests, at, 1) && Allows(b.bytes, at, bytes) <==> Affords(cfg, served, k, at, bytes))
  {
    hide Tracks, Rested, Allows, After, Spend, Holders, FirstRequests, FirstBytes, LogOf, Charged, EntryOk, AbsentOk;
    var b := budgets[k];
    ChargedLogs(cfg, served, k, at, bytes);
    ChargedEntry(cfg, served, grants, at, k, bytes, b);
    OthersKeep(cfg, budgets, served, Charged(cfg, served, k, at, bytes), grants, at, k);
  }

  // The charged entry itself.
  lemma ChargedEntry(cfg: Config, served: Ledger, grants: map<nat, Grant>, at: real, k: Key, bytes: nat, b: Budget)
    requires EntryOk(cfg, k, b, served, grants, at)
    ensures EntryOk(cfg, k, b.(requests := Spend(b.requests, at, 1), bytes := Spend(b.bytes, at, bytes)),
                    Charged(cfg, served, k, at, bytes), grants, at)
    ensures Allows(b.requests, at, 1) && Allows(b.bytes, at, bytes) <==> Affords(cfg, served, k, at, bytes)
  {
    hide Tracks, Allows, After, Spend, Holders, FirstRequests, FirstBytes, LogOf, Charged;
    ChargedLogs(cfg, served, k, at, bytes);
    TrackSpend(b.requests, FirstRequests(cfg, k), LogOf(served, (k, false)), at, 1);
    TrackSpend(b.bytes, FirstBytes(cfg, k), LogOf(served, (k, true)), at, bytes);
  }

  // Entries and absent keys whose logs stay as they are.
  lemma OthersKeep(cfg: Config, budgets: map<Key, Budget>, served: Ledger, served': Ledger, grants: map<nat, Grant>, at: real, k: Key)
    requires RegistryOk(cfg, budgets, served, grants, at) && k in budgets
    requires forall other, kind :: other != k ==> LogOf(served', (other, kind)) == LogOf(served, (other, kind))
    ensures forall other :: other in budgets && other != k ==> EntryOk(cfg, other, budgets[other], served', grants, at)
    ensures forall other :: other !in budgets ==> AbsentOk(cfg, other, served', grants, at)
  {
    hide Tracks, Rested, Holders, FirstRequests, FirstBytes, LogOf;
    forall other | other in budgets && other != k ensures EntryOk(cfg, other, budgets[other], served', grants, at) {
      assert EntryOk(cfg, other, budgets[other], served, grants, at);
    }
    forall other | other !in budgets ensures AbsentOk(cfg, other, served', grants, at) {
      assert AbsentOk(cfg, other, served, grants, at);
    }
  }

  // A request alone: no bytes are charged.
  ghost function ChargedRequest(cfg: Config, served: Ledger, k: Key, at: real): Ledger {
    var r := LogOf(served, (k, false));
    served[(k, false) := r + [Served(at, 1, Allows(After(FirstRequests(cfg, k), r), at, 1))]]
  }

  ghost predicate AffordsRequest(cfg: Config, served: Ledger, k: Key, at: real) {
    Allows(After(FirstRequests(cfg, k), LogOf(served, (k, false))), at, 1)
  }

  lemma ChargedRequestLogs(cfg: Config, served: Ledger, k: Key, at: real)
    ensures var r, after := LogOf(served, (k, false)), ChargedRequest(cfg, served, k, at);
            && LogOf(after, (k, false)) == r + [Served(at, 1, Allows(After(FirstRequests(cfg, k), r), at, 1))]
            && LogOf(after, (k, true)) == LogOf(served, (k, true))
            && forall other, kind :: other != k ==> LogOf(after, (other, kind)) == LogOf(served, (other, kind))
  {
    hide Allows, After, FirstRequests;
  }

  lemma ChargeRequestKeeps(cfg: Config, budgets: map<Key, Budget>, served: Ledger, grants: map<nat, Grant>, at: real, k: Key)
    requires RegistryOk(cfg, budgets, served, grants, at) && k in budgets
    ensures var b := budgets[k];
            && RegistryOk(cfg, budgets[k := b.(requests := Spend(b.requests, at, 1))],
                          ChargedRequest(cfg, served, k, at), grants, at)
            && (Allows(b.requests, at, 1) <==> AffordsRequest(cfg, served, k, at))
  {
    hide Tracks, Rested, Allows, After, Spend, Holders, FirstRequests, FirstBytes, LogOf, ChargedRequest;
    assert EntryOk(cfg, k, budgets[k], served, grants, at);
    ChargedRequestLogs(cfg, served, k, at);
    TrackSpend(budgets[k].requests, FirstRequests(cfg, k), LogOf(served, (k, false)), at, 1);
    OthersKeep(cfg, budgets, served, ChargedRequest(cfg, served, k, at), grants, at, k);
  }

  // Charging one entry leaves what another can afford unchanged.
  lemma AffordsOther(cfg: Config, served: Ledger, k: Key, other: Key, at: real, bytes: nat)
    requires k != other
    ensures Affords(cfg, Charged(cfg, served, k, at, bytes), other, at, bytes) <==> Affords(cfg, served, other, at, bytes)
  {
    hide Allows, After;
  }

  lemma ActiveCountsGrants(cfg: Config, budgets: map<Key, Budget>, served: Ledger, grants: map<nat, Grant>, now: real, k: Key)
    requires RegistryOk(cfg, budgets, served, grants, now) && k in budgets
    ensures budgets[k].active == |Holders(grants, Entry(k))|
  {
    assert EntryOk(cfg, k, budgets[k], served, grants, now);
  }

  lemma WaitKeeps(cfg: Config, budgets: map<Key, Budget>, served: Ledger, grants: map<nat, Grant>, now: real, at: real)
    requires RegistryOk(cfg, budgets, served, grants, now) && now <= at
    ensures RegistryOk(cfg, budgets, served, grants, at)
  {
    hide Tracks, Rested;
    forall k | k in budgets ensures EntryOk(cfg, k, budgets[k], served, grants, at) {
      TrackLater(budgets[k].requests, FirstRequests(cfg, k), LogOf(served, (k, false)), now, at);
      TrackLater(budgets[k].bytes, FirstBytes(cfg, k), LogOf(served, (k, true)), now, at);
    }
    forall k | k !in budgets ensures AbsentOk(cfg, k, served, grants, at) {
      TrackLater(FirstRequests(cfg, k), FirstRequests(cfg, k), LogOf(served, (k, false)), now, at);
      TrackLater(FirstBytes(cfg, k), FirstBytes(cfg, k), LogOf(served, (k, true)), now, at);
    }
  }

  // Granting or releasing moves `active` with the outstanding grants.
  lemma GrantKeeps(cfg: Config, budgets: map<Key, Budget>, served: Ledger, grants: map<nat, Grant>, now: real,
                   id: nat, g: Grant, budgets': map<Key, Budget>)
    requires RegistryOk(cfg, budgets, served, grants, now) && id !in grants
    requires budgets'.Keys == budgets.Keys
    requires forall k :: Holds(g, Entry(k)) ==> k in budgets
    requires forall k :: k in budgets ==>
      budgets'[k] == budgets[k].(active := budgets[k].active + (if Holds(g, Entry(k)) then 1 else 0))
    requires forall k :: k in budgets && Holds(g, Entry(k)) ==>
      (k.Workspace? ==> budgets[k].active < cfg.workspaceConcurrent) && (k.Signature? ==> budgets[k].active == 0)
    ensures RegistryOk(cfg, budgets', served, grants[id := g], now)
  {
    hide Tracks, Rested, Holders, Holds;
    forall k ensures |Holders(grants[id := g], Entry(k))|
                  == |Holders(grants, Entry(k))| + (if Holds(g, Entry(k)) then 1 else 0)
    {
      GrantAdds(grants, id, g, Entry(k));
    }
  }

  lemma ReleaseKeeps(cfg: Config, budgets: map<Key, Budget>, served: Ledger, grants: map<nat, Grant>, now: real,
                     id: nat, budgets': map<Key, Budget>)
    requires RegistryOk(cfg, budgets, served, grants, now) && id in grants
    requires budgets'.Keys == budgets.Keys
    requires forall k :: k in budgets ==>
      budgets'[k].active == budgets[k].active - (if Holds(grants[id], Entry(k)) then 1 else 0)
      && budgets'[k].requests == budgets[k].requests && budgets'[k].bytes == budgets[k].bytes
    ensures RegistryOk(cfg, budgets', served, grants - {id}, now)
  {
    hide Tracks, Rested, Holders, Holds;
    forall k ensures |Holders(grants - {id}, Entry(k))|
                  == |Holders(grants, Entry(k))| - (if Holds(grants[id], Entry(k)) then 1 else 0)
    {
      ReleaseDrops(grants, id, Entry(k));
    }
  }

  // An entry with outstanding work is in the registry.
  lemma HeldIsPresent(cfg: Config, budgets: map<Key, Budget>, served: Ledger, grants: map<nat, Grant>, now: real, id: nat, k: Key)
    requires RegistryOk(cfg, budgets, served, grants, now) && id in grants && Holds(grants[id], Entry(k))
    ensures k in budgets && budgets[k].active > 0
  {
    hide Tracks, Rested;
    assert id in Holders(grants, Entry(k));
    assert k !in budgets ==> AbsentOk(cfg, k, served, grants, now);
  }

  class Server {
    const cfg: Config
    var budgets: map<Key, Budget>
    var pushSlots: nat
    var hookSlots: nat

    ghost var now: real
    // Every charge and its answer, and the grants not yet released.
    ghost var served: Ledger
    ghost var grants: map<nat, Grant>

    ghost predicate Valid()
      reads this
    {
      && |budgets| <= MAX_ENTRIES
      && RegistryOk(cfg, budgets, served, grants, now)
      && pushSlots == |Holders(grants, PushSlot)| <= cfg.hostConcurrent
      && hookSlots == |Holders(grants, HookSlot)| <= HOOK_SLOTS
    }

    constructor (cfg: Config, at: real)
      ensures Valid() && this.cfg == cfg && budgets == map[] && grants == map[] && served == map[] && now == at
    {
      this.cfg := cfg;
      budgets, pushSlots, hookSlots := map[], 0, 0;
      now, served, grants := at, map[], map[];
      forall k ensures AbsentOk(cfg, k, map[], map[], at) {
        NeverSeen(FirstRequests(cfg, k), at);
        NeverSeen(FirstBytes(cfg, k), at);
        assert Holders(map[], Entry(k)) == {};
      }
      assert Holders(map[], PushSlot) == {} && Holders(map[], HookSlot) == {};
    }

    ghost method Wait(at: real)
      requires Valid() && now <= at
      modifies this`now
      ensures Valid() && now == at
    {
      WaitKeeps(cfg, budgets, served, grants, now, at);
      now := at;
    }

    // Drops entries without work or debt that have been idle for ten minutes.
    method Evict(at: real)
      requires Valid() && now == at
      modifies this`budgets
      ensures Valid() && budgets.Keys <= old(budgets).Keys
      ensures forall k :: k in budgets ==> budgets[k] == old(budgets)[k]
      ensures forall k :: k in old(budgets) ==> (k in budgets <==> !Idle(old(budgets)[k], at))
      ensures forall k :: k in old(budgets) && k !in budgets ==>
        var b := old(budgets)[k];
        b.active == 0 && b.used + 600.0 < at && Full(b.requests, at) && Full(b.bytes, at)
    {
      hide Idle, RegistryOk, Holders;
      var todo := budgets.Keys;
      ghost var all := budgets;
      while todo != {}
        invariant todo <= all.Keys && budgets.Keys <= all.Keys
        invariant forall k :: k in budgets ==> budgets[k] == all[k]
        invariant forall k :: k in all ==> (k in budgets <==> k in todo || !Idle(all[k], at))
        invariant Valid()
        decreases |todo|
      {
        var k :| k in todo;
        todo := todo - {k};
        if Idle(budgets[k], at) {
          EvictKeeps(cfg, budgets, served, grants, at, k);
          SmallerMap(budgets, k);
          budgets := budgets - {k};
        }
      }
      forall k | k in all && k !in budgets
        ensures all[k].active == 0 && all[k].used + 600.0 < at && Full(all[k].requests, at) && Full(all[k].bytes, at)
      {
        IdleMeans(all[k], at);
      }
    }

    // The entry for a key, made if there is room for it, and marked as used now.
    method Ensure(key: Key, at: real, mayEvict: bool) returns (ok: bool)
      requires Valid() && now == at
      modifies this`budgets
      ensures Valid()
      ensures ok ==> key in budgets && budgets[key].used == at
      ensures !ok ==> key !in old(budgets) && |budgets| >= MAX_ENTRIES
      ensures !ok ==> if mayEvict then forall k :: k in budgets ==> !Idle(budgets[k], at) else budgets == old(budgets)
      ensures key in old(budgets) ==> ok && budgets.Keys == old(budgets).Keys
      ensures forall k :: k in old(budgets) && old(budgets)[k].used == at ==> k in budgets && budgets[k] == old(budgets)[k]
    {
      hide RegistryOk, Holders, Full;
      if key !in budgets {
        if |budgets| >= MAX_ENTRIES {
          if mayEvict { Evict(at); }
          if |budgets| >= MAX_ENTRIES { return false; }
        }
        InsertKeeps(cfg, budgets, served, grants, at, key);
        budgets := budgets[key := Budget(FirstRequests(cfg, key), FirstBytes(cfg, key), 0, at)];
      }
      UseKeeps(cfg, budgets, served, grants, at, key);
      budgets := budgets[key := budgets[key].(used := at)];
      ok := true;
    }

    // One attempt is charged to an entry, whatever comes of it.
    method Charge(key: Key, at: real, bytes: nat) returns (ok: bool)
      requires Valid() && now == at && key in budgets
      modifies this`budgets, this`served
      ensures Valid() && budgets.Keys == old(budgets).Keys
      ensures forall k :: k in budgets ==> budgets[k].active == old(budgets)[k].active
      ensures served == Charged(cfg, old(served), key, at, bytes)
      ensures ok <==> Affords(cfg, old(served), key, at, bytes)
    {
      hide RegistryOk, Holders, Charged, Affords, Allows, Spend;
      var b := budgets[key];
      ChargeKeeps(cfg, budgets, served, grants, at, key, bytes);
      ok := true;
      if !Allows(b.requests, at, 1) { ok := false; }
      if !Allows(b.bytes, at, bytes) { ok := false; }
      budgets := budgets[key := b.(requests := Spend(b.requests, at, 1), bytes := Spend(b.bytes, at, bytes))];
      served := Charged(cfg, served, key, at, bytes);
    }

    method ChargeRequest(key: Key, at: real) returns (ok: bool)
      requires Valid() && now == at && key in budgets
      modifies this`budgets, this`served
      ensures Valid() && budgets.Keys == old(budgets).Keys
      ensures forall k :: k in budgets ==> budgets[k].active == old(budgets)[k].active
      ensures served == ChargedRequest(cfg, old(served), key, at)
      ensures ok <==> AffordsRequest(cfg, old(served), key, at)
    {
      hide RegistryOk, Holders, ChargedRequest, AffordsRequest, Allows, Spend;
      var b := budgets[key];
      ChargeRequestKeeps(cfg, budgets, served, grants, at, key);
      ok := Allows(b.requests, at, 1);
      budgets := budgets[key := b.(requests := Spend(b.requests, at, 1))];
      served := ChargedRequest(cfg, served, key, at);
    }

    // Slots and `active` counts go up together.
    method Take(g: Grant, ghost id: nat)
      requires Valid() && id !in grants
      requires forall k :: Holds(g, Entry(k)) ==> k in budgets
      requires forall k :: k in budgets && Holds(g, Entry(k)) ==>
        (k.Workspace? ==> budgets[k].active < cfg.workspaceConcurrent) && (k.Signature? ==> budgets[k].active == 0)
      requires g.Push? ==> pushSlots < cfg.hostConcurrent
      requires g.Hook? ==> hookSlots < HOOK_SLOTS
      modifies this`budgets, this`pushSlots, this`hookSlots, this`grants
      ensures Valid() && grants == old(grants)[id := g]
    {
      hide RegistryOk, Holders;
      ghost var before := budgets;
      match g {
        case Push(ws, p) =>
          var w, q := Workspace(ws), Producer(ws, p);
          assert Holds(g, Entry(w)) && Holds(g, Entry(q));
          pushSlots := pushSlots + 1;
          budgets := budgets[w := budgets[w].(active := budgets[w].active + 1)];
          budgets := budgets[q := budgets[q].(active := budgets[q].active + 1)];
        case Hook(ws) =>
          assert Holds(g, Entry(Signature(ws)));
          hookSlots := hookSlots + 1;
          budgets := budgets[Signature(ws) := budgets[Signature(ws)].(active := budgets[Signature(ws)].active + 1)];
      }
      assert budgets.Keys == before.Keys;
      SameSize(budgets, before);
      GrantAdds(grants, id, g, PushSlot);
      GrantAdds(grants, id, g, HookSlot);
      GrantKeeps(cfg, before, served, grants, now, id, g, budgets);
      grants := grants[id := g];
    }

    /**
      A push is refused for want of room, or decided as by a registry that never forgets: both
      entries are charged, and it is granted exactly when both can afford it, the workspace has
      work to spare and a slot is free.
     */
    method AdmitPush(ws: string, producer: string, bytes: nat, at: real, ghost id: nat) returns (granted: bool, ghost noRoom: bool)
      requires Valid() && now <= at && id !in grants
      modifies this
      ensures Valid() && now == at
      ensures noRoom ==> !granted && served == old(served) && grants == old(grants)
      ensures noRoom ==>
        && (Workspace(ws) !in old(budgets) || Producer(ws, producer) !in old(budgets))
        && |budgets| >= 20200 && forall k :: k in budgets ==> !Idle(budgets[k], at)
      ensures !noRoom ==>
        var w, q := Workspace(ws), Producer(ws, producer);
        && served == Charged(cfg, Charged(cfg, old(served), w, at, bytes), q, at, bytes)
        && (granted <==>
              && Affords(cfg, old(served), w, at, bytes) && Affords(cfg, old(served), q, at, bytes)
              && |Holders(old(grants), Entry(w))| < cfg.workspaceConcurrent
              && |Holders(old(grants), PushSlot)| < cfg.hostConcurrent)
        && grants == if granted then old(grants)[id := Push(ws, producer)] else old(grants)
    {
      hide RegistryOk, Holders, Charged, Affords, Idle;
      Wait(at);
      var w, q := Workspace(ws), Producer(ws, producer);
      var ok := Ensure(w, at, true);
      if !ok { return false, true; }
      ok := Ensure(q, at, true);
      if !ok { return false, true; }
      var first := Charge(w, at, bytes);
      var second := Charge(q, at, bytes);
      noRoom := false;
      AffordsOther(cfg, old(served), w, q, at, bytes);
      ActiveCountsGrants(cfg, budgets, served, grants, now, w);
      if !first || !second || budgets[w].active >= cfg.workspaceConcurrent || pushSlots >= cfg.hostConcurrent {
        return false, false;
      }
      Take(Push(ws, producer), id);
      granted := true;
    }

    /** A webhook body: one at a time for a workspace, four on the host. */
    method AdmitHook(ws: string, at: real, ghost id: nat) returns (granted: bool, ghost noRoom: bool)
      requires Valid() && now <= at && id !in grants
      modifies this
      ensures Valid() && now == at
      ensures noRoom ==> !granted && served == old(served) && grants == old(grants)
      ensures noRoom ==> Signature(ws) !in old(budgets) && |budgets| >= 20200 && budgets == old(budgets)
      ensures !noRoom ==>
        && served == ChargedRequest(cfg, old(served), Signature(ws), at)
        && (granted <==>
              && AffordsRequest(cfg, old(served), Signature(ws), at)
              && |Holders(old(grants), Entry(Signature(ws)))| == 0
              && |Holders(old(grants), HookSlot)| < 4)
        && grants == if granted then old(grants)[id := Hook(ws)] else old(grants)
    {
      hide RegistryOk, Holders, ChargedRequest, AffordsRequest;
      Wait(at);
      var k := Signature(ws);
      var ok := Ensure(k, at, false);
      if !ok { return false, true; }
      var allowed := ChargeRequest(k, at);
      noRoom := false;
      ActiveCountsGrants(cfg, budgets, served, grants, now, k);
      if !allowed || budgets[k].active > 0 || hookSlots >= HOOK_SLOTS { return false, false; }
      Take(Hook(ws), id);
      granted := true;
    }

    /** Occupancy is unreleased work: every count is the number of grants of its own kind. */
    lemma CountsAreGrants(ws: string, producer: string)
      requires Valid()
      ensures pushSlots == |set id | id in grants && grants[id].Push?| <= cfg.hostConcurrent
      ensures hookSlots == |set id | id in grants && grants[id].Hook?| <= 4
      ensures Workspace(ws) in budgets ==>
                budgets[Workspace(ws)].active == |set id | id in grants && grants[id].Push? && grants[id].ws == ws| <= cfg.workspaceConcurrent
      ensures Producer(ws, producer) in budgets ==>
                budgets[Producer(ws, producer)].active == |set id | id in grants && grants[id] == Push(ws, producer)|
      ensures Signature(ws) in budgets ==> budgets[Signature(ws)].active == |set id | id in grants && grants[id] == Hook(ws)| <= 1
    {
      hide Tracks, Rested;
      assert Holders(grants, PushSlot) == set id | id in grants && grants[id].Push?;
      assert Holders(grants, HookSlot) == set id | id in grants && grants[id].Hook?;
      assert Holders(grants, Entry(Workspace(ws))) == set id | id in grants && grants[id].Push? && grants[id].ws == ws;
      assert Holders(grants, Entry(Producer(ws, producer))) == set id | id in grants && grants[id] == Push(ws, producer);
      assert Holders(grants, Entry(Signature(ws))) == set id | id in grants && grants[id] == Hook(ws);
    }

    /** A grant is released once: its entries are still there, and its slot is free again. */
    method Release(g: Grant, ghost id: nat)
      requires Valid() && id in grants && grants[id] == g
      modifies this`budgets, this`pushSlots, this`hookSlots, this`grants
      ensures Valid() && grants == old(grants) - {id}
    {
      hide RegistryOk, Holders;
      ghost var before := budgets;
      ReleaseDrops(grants, id, PushSlot);
      ReleaseDrops(grants, id, HookSlot);
      match g {
        case Push(ws, p) =>
          var w, q := Workspace(ws), Producer(ws, p);
          HeldIsPresent(cfg, budgets, served, grants, now, id, w);
          HeldIsPresent(cfg, budgets, served, grants, now, id, q);
          budgets := budgets[w := budgets[w].(active := budgets[w].active - 1)];
          budgets := budgets[q := budgets[q].(active := budgets[q].active - 1)];
          pushSlots := pushSlots - 1;
        case Hook(ws) =>
          HeldIsPresent(cfg, budgets, served, grants, now, id, Signature(ws));
          budgets := budgets[Signature(ws) := budgets[Signature(ws)].(active := budgets[Signature(ws)].active - 1)];
          hookSlots := hookSlots - 1;
      }
      assert budgets.Keys == before.Keys;
      SameSize(budgets, before);
      ReleaseKeeps(cfg, before, served, grants, now, id, budgets);
      grants := grants - {id};
    }

    // Whether an entry is in the registry or not, its two logs are honest.
    lemma LogsAreHonest(k: Key)
      requires Valid()
      ensures FirstRequests(cfg, k).Valid() && Honest(FirstRequests(cfg, k), LogOf(served, (k, false)))
      ensures FirstBytes(cfg, k).Valid() && Honest(FirstBytes(cfg, k), LogOf(served, (k, true)))
      ensures var log := LogOf(served, (k, false)); log != [] ==> log[|log| - 1].at <= now
    {
      hide Honest, Same, Full, Holders;
      if k in budgets { assert EntryOk(cfg, k, budgets[k], served, grants, now); }
      else { assert AbsentOk(cfg, k, served, grants, now); }
    }

    /** However keys come and go, no entry admits more requests in a stretch of time than its burst plus its rate. */
    lemma RequestsAreBounded(k: Key, i: nat, j: nat)
      requires Valid() && (k, false) in served && i < j <= |served[(k, false)]|
      ensures var log := served[(k, false)];
              var requests, time := Admitted(log[i..j]) as real, log[j - 1].at - log[i].at;
              match k
              case Workspace(_) => requests <= cfg.workspaceBurst as real + cfg.workspaceRate as real * time
              case Producer(_, _) => requests <= cfg.producerBurst as real + cfg.producerRate as real * time
              case Signature(_) => requests <= 40.0 + 20.0 * time
    {
      hide RegistryOk, Honest, Holders;
      LogsAreHonest(k);
      AdmitsAtMost(FirstRequests(cfg, k), LogOf(served, (k, false)), i, j);
    }

    /** Nor more bytes. */
    lemma BytesAreBounded(k: Key, i: nat, j: nat)
      requires Valid() && (k, true) in served && i < j <= |served[(k, true)]|
      ensures var log := served[(k, true)];
              var bytes, time := Admitted(log[i..j]) as real, log[j - 1].at - log[i].at;
              if k.Signature? then bytes <= 2097152.0 + 1048576.0 * time
              else bytes <= cfg.byteBurst as real + cfg.bytesPerSecond as real * time
    {
      hide RegistryOk, Honest, Holders;
      LogsAreHonest(k);
      AdmitsAtMost(FirstBytes(cfg, k), LogOf(served, (k, true)), i, j);
    }

    /** Nor is an entry starved: whatever it was asked for, one request is its due after a second over its rate. */
    lemma RequestComesBack(k: Key, at: real)
      requires Valid() && FirstRequests(cfg, k).rate > 0.0 && FirstRequests(cfg, k).burst >= 1
      requires at >= now + 1.0 / FirstRequests(cfg, k).rate && at >= 1.0 / FirstRequests(cfg, k).rate
      ensures AffordsRequest(cfg, served, k, at)
    {
      hide RegistryOk, Honest, Holders;
      var first, log := FirstRequests(cfg, k), LogOf(served, (k, false));
      LogsAreHonest(k);
      AfterIsValid(first, log);
      LastIsSpent(first, log, at - 1.0 / first.rate);
      WaitingPays(After(first, log), at - 1.0 / first.rate, 1);
    }
  }

  lemma UseKeeps(cfg: Config, budgets: map<Key, Budget>, served: Ledger, grants: map<nat, Grant>, at: real, k: Key)
    requires RegistryOk(cfg, budgets, served, grants, at) && k in budgets
    ensures RegistryOk(cfg, budgets[k := budgets[k].(used := at)], served, grants, at)
  {
    hide Tracks, Rested, Holders;
    assert EntryOk(cfg, k, budgets[k], served, grants, at);
  }

  lemma SameSize<K, V>(a: map<K, V>, b: map<K, V>)
    requires a.Keys == b.Keys
    ensures |a| == |b|
  {
    assert |a| == |a.Keys| && |b| == |b.Keys|;
  }
}
