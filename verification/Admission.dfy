/**
  Admission control (internal/cloud/push_config.go, internal/cloud/passwords.go): bounded
  registries of rate limiters, and the slots of admitted work.

  A registry forgets an entry only when its limiters are full again, so it decides as one that
  never forgets. The reference is, for each key, the list of every request with its answer,
  replayed on a limiter that was never dropped.
 */
module Admission {
  import opened TokenBucket

  // ---------- A remembered limiter against its history ----------

  /** `l` behaves from `now` on as the limiter `first` after everything in `log`. */
  ghost predicate Tracks(l: Limiter, first: Limiter, log: seq<Served>, now: real) {
    && l.Valid() && first.Valid() && Same(l, After(first, log), now)
    && Honest(first, log) && (log != [] ==> log[|log| - 1].at <= now)
  }

  // A limiter nobody remembers: after everything in `log` it is full again.
  ghost predicate Rested(first: Limiter, log: seq<Served>, now: real) {
    && first.Valid() && Full(After(first, log), now)
    && Honest(first, log) && (log != [] ==> log[|log| - 1].at <= now)
  }

  lemma TrackLater(l: Limiter, first: Limiter, log: seq<Served>, now: real, at: real)
    requires now <= at
    ensures Tracks(l, first, log, now) ==> Tracks(l, first, log, at)
    ensures Rested(first, log, now) ==> Rested(first, log, at)
  {
    hide Level, Honest;
    if Tracks(l, first, log, now) { SameLater(l, After(first, log), now, at); }
    if Rested(first, log, now) {
      AfterIsValid(first, log);
      FullStays(After(first, log), now, at);
    }
  }

  lemma FullStays(b: Limiter, t: real, u: real)
    requires b.Valid() && Full(b, t) && t <= u
    ensures Full(b, u)
  {
    LevelGrows(b, t, u);
  }

  lemma TrackSpend(l: Limiter, first: Limiter, log: seq<Served>, at: real, n: nat)
    requires Tracks(l, first, log, at)
    ensures Tracks(Spend(l, at, n), first, log + [Served(at, n, Allows(l, at, n))], at)
    ensures Allows(l, at, n) == Allows(After(first, log), at, n)
  {
    var log' := log + [Served(at, n, Allows(l, at, n))];
    assert log'[..|log|] == log;
    SameSpends(l, After(first, log), at, at, n);
    SpendIsValid(l, at, n);
  }

  /** An absent key is a full bucket: starting anew continues its history. */
  lemma TrackNew(first: Limiter, log: seq<Served>, now: real)
    requires Rested(first, log, now) && first == New(first.rate, first.burst)
    ensures Tracks(first, first, log, now)
  {
    AfterIsValid(first, log);
    FullIsFresh(After(first, log), now);
  }

  lemma TrackEvict(l: Limiter, first: Limiter, log: seq<Served>, now: real)
    requires Tracks(l, first, log, now) && Full(l, now)
    ensures Rested(first, log, now)
  {
  }

  lemma NeverSeen(first: Limiter, now: real)
    requires first.Valid() && first == New(first.rate, first.burst)
    ensures Rested(first, [], now)
  {
    LevelGrows(first, if now < 0.0 then now else 0.0, now);
  }

  ghost function LogOf<K>(served: map<K, seq<Served>>, k: K): seq<Served> { if k in served then served[k] else [] }

  // ---------- Password attempts ----------

  const MAX_PASSWORD_KEYS := 1024
  const ATTEMPT := New(0.2, 5)

  class PasswordLimits {
    var limits: map<string, Limiter>
    ghost var now: real
    // Every attempt that was not refused for want of room.
    ghost var served: map<string, seq<Served>>

    ghost predicate Valid()
      reads this
    {
      && |limits| <= MAX_PASSWORD_KEYS
      && (forall k :: k in limits ==> Tracks(limits[k], ATTEMPT, LogOf(served, k), now))
      && (forall k :: k !in limits ==> Rested(ATTEMPT, LogOf(served, k), now))
    }

    constructor (at: real)
      ensures Valid() && limits == map[] && served == map[] && now == at
    {
      limits, served, now := map[], map[], at;
      NeverSeen(ATTEMPT, at);
    }

    // Drops every entry that is full again.
    method Evict(at: real)
      requires Valid() && now == at
      modifies this`limits
      ensures Valid() && limits == map k | k in old(limits) && !Full(old(limits)[k], at) :: old(limits)[k]
    {
      hide Level, Honest, After, Same, Tracks, Rested, Full;
      var todo := limits.Keys;
      ghost var all := limits;
      while todo != {}
        invariant todo <= all.Keys
        invariant limits == map k | k in all && (k in todo || !Full(all[k], at)) :: all[k]
        invariant Valid()
        decreases |todo|
      {
        var k :| k in todo;
        todo := todo - {k};
        if Full(limits[k], at) {
          TrackEvict(limits[k], ATTEMPT, LogOf(served, k), at);
          SmallerMap(limits, k);
          limits := limits - {k};
        }
      }
    }

    /**
      An attempt either finds no room, when 1024 other keys still owe tokens, or gets the answer
      a registry that never forgets would give.
     */
    method Attempt(key: string, at: real) returns (ok: bool, ghost noRoom: bool)
      requires Valid() && now <= at
      modifies this
      ensures Valid() && now == at
      ensures noRoom ==> !ok && served == old(served) && key !in old(limits) && |limits| >= 1024
                         && forall k :: k in limits ==> !Full(limits[k], at)
      ensures !noRoom ==> served == old(served)[key := LogOf(old(served), key) + [Served(at, 1, ok)]]
      ensures !noRoom ==> ok == Allows(After(ATTEMPT, LogOf(old(served), key)), at, 1)
    {
      hide Level, Honest, After, Same, Tracks, Rested, Full;
      Wait(at);
      noRoom := false;
      if key !in limits {
        if |limits| >= MAX_PASSWORD_KEYS { Evict(at); }
        if |limits| >= MAX_PASSWORD_KEYS { return false, true; }
        TrackNew(ATTEMPT, LogOf(served, key), at);
        limits := limits[key := ATTEMPT];
      }
      ok := Charge(key, at);
    }

    method Charge(key: string, at: real) returns (ok: bool)
      requires Valid() && now == at && key in limits
      modifies this`limits, this`served
      ensures Valid()
      ensures served == old(served)[key := LogOf(old(served), key) + [Served(at, 1, ok)]]
      ensures ok == Allows(After(ATTEMPT, LogOf(old(served), key)), at, 1)
    {
      hide Level, Honest, After, Same, Tracks, Rested, Allows;
      var l := limits[key];
      ok := Allows(l, at, 1);
      TrackSpend(l, ATTEMPT, LogOf(served, key), at, 1);
      limits := limits[key := Spend(l, at, 1)];
      served := served[key := LogOf(served, key) + [Served(at, 1, ok)]];
    }

    ghost method Wait(at: real)
      requires Valid() && now <= at
      modifies this`now
      ensures Valid() && now == at
    {
      hide Level, Honest, After, Same;
      forall k | k in limits ensures Tracks(limits[k], ATTEMPT, LogOf(served, k), at) {
        TrackLater(limits[k], ATTEMPT, LogOf(served, k), now, at);
      }
      forall k | k !in limits ensures Rested(ATTEMPT, LogOf(served, k), at) {
        TrackLater(ATTEMPT, ATTEMPT, LogOf(served, k), now, at);
      }
      now := at;
    }

    /** However keys come and go, one key gets at most 5 + T/5 attempts in any stretch of T seconds. */
    lemma AttemptsAreBounded(key: string, i: nat, j: nat)
      requires Valid() && key in served && i < j <= |served[key]|
      ensures var log := served[key];
              Admitted(log[i..j]) as real <= 5.0 + (log[j - 1].at - log[i].at) / 5.0
    {
      LogIsHonest(key);
      AdmitsAtMost(ATTEMPT, LogOf(served, key), i, j);
    }

    lemma LogIsHonest(key: string)
      requires Valid()
      ensures var log := LogOf(served, key); Honest(ATTEMPT, log) && (log != [] ==> log[|log| - 1].at <= now)
    {
      hide Same, Full;
      if key in limits { assert Tracks(limits[key], ATTEMPT, LogOf(served, key), now); }
      else { assert Rested(ATTEMPT, LogOf(served, key), now); }
    }

    /** Nobody is locked out: whatever a key has tried, one more attempt is its due five seconds later. */
    lemma AttemptComesBack(key: string, at: real)
      requires Valid() && at >= now + 5.0 && at >= 5.0
      ensures Allows(After(ATTEMPT, LogOf(served, key)), at, 1)
    {
      hide Honest, Same, Full;
      LogIsHonest(key);
      AfterIsValid(ATTEMPT, LogOf(served, key));
      LastIsSpent(ATTEMPT, LogOf(served, key), at - 5.0);
      WaitingPays(After(ATTEMPT, LogOf(served, key)), at - 5.0, 1);
    }
  }

  lemma SmallerMap<K, V>(m: map<K, V>, k: K)
    requires k in m
    ensures |m - {k}| == |m| - 1
  {
    assert (m - {k}).Keys == m.Keys - {k};
  }
}
