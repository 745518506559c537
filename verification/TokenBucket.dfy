/**
  Token buckets as in golang.org/x/time/rate, on which the admission limits rest
  (internal/cloud/push_config.go:90-137, internal/cloud/passwords.go:31-52). Time is in seconds;
  tokens are reals.
 */
module TokenBucket {
  datatype Limiter = Limiter(rate: real, burst: nat, tokens: real, last: real) {
    ghost predicate Valid() { rate >= 0.0 && 0.0 <= tokens <= burst as real }
  }

  function New(rate: real, burst: nat): Limiter { Limiter(rate, burst, burst as real, 0.0) }

  // What trickles in from time a to time b.
  function Inflow(rate: real, a: real, b: real): real { rate * (b - a) }

  // Tokens at time t: those left, plus what has trickled in, up to the burst.
  function Level(b: Limiter, t: real): real {
    var filled := if t < b.last then b.tokens else b.tokens + Inflow(b.rate, b.last, t);
    if filled > b.burst as real then b.burst as real else filled
  }

  predicate Allows(b: Limiter, t: real, n: nat) { n <= b.burst && Level(b, t) >= n as real }

  function Spend(b: Limiter, t: real, n: nat): Limiter {
    if Allows(b, t, n) then b.(tokens := Level(b, t) - n as real, last := t) else b
  }

  predicate Full(b: Limiter, t: real) { Level(b, t) >= b.burst as real }

  lemma InflowIs(rate: real, a: real, b: real)
    ensures Inflow(rate, a, b) == rate * (b - a)
  {
  }

  lemma InflowAdds(rate: real, a: real, b: real, c: real)
    ensures Inflow(rate, a, c) == Inflow(rate, a, b) + Inflow(rate, b, c)
  {
  }

  lemma InflowGrows(rate: real, a: real, b: real)
    requires rate >= 0.0 && a <= b
    ensures Inflow(rate, a, b) >= 0.0 && Inflow(rate, a, a) == 0.0
  {
  }

  // Filling is monotone and no faster than the rate.
  lemma LevelGrows(b: Limiter, t: real, u: real)
    requires b.Valid() && t <= u
    ensures 0.0 <= Level(b, t) <= Level(b, u) <= Level(b, t) + Inflow(b.rate, t, u)
  {
    hide Inflow;
    InflowGrows(b.rate, t, u);
    if b.last <= t {
      InflowGrows(b.rate, b.last, t);
      InflowAdds(b.rate, b.last, t, u);
    } else if b.last <= u {
      InflowGrows(b.rate, b.last, u);
      InflowGrows(b.rate, t, b.last);
      InflowAdds(b.rate, t, b.last, u);
    }
  }

  lemma SpendIsValid(b: Limiter, t: real, n: nat)
    requires b.Valid()
    ensures Spend(b, t, n).Valid() && Spend(b, t, n).rate == b.rate && Spend(b, t, n).burst == b.burst
    ensures Level(Spend(b, t, n), t) == Level(b, t) - (if Allows(b, t, n) then n as real else 0.0)
  {
    hide Inflow;
    LevelGrows(b, t, t);
    InflowGrows(b.rate, t, t);
  }

  /** What a bucket holds: what was left at the last spending plus rate times the time since, up to the burst. */
  lemma LevelMeans(b: Limiter, t: real)
    requires b.Valid() && b.last <= t
    ensures var filled := b.tokens + b.rate * (t - b.last);
            Level(b, t) == if filled < b.burst as real then filled else b.burst as real
  {
  }

  /** Nobody waits longer than the rate says: n tokens, if the burst allows as many, are there after n / rate. */
  lemma WaitingPays(b: Limiter, t: real, n: nat)
    requires b.Valid() && b.rate > 0.0 && n <= b.burst && b.last <= t
    ensures Allows(b, t + n as real / b.rate, n)
  {
    var wait := n as real / b.rate;
    assert b.rate * wait == n as real;
    assert wait >= 0.0;
    var u := t + wait;
    assert b.rate * (u - b.last) == b.rate * (t - b.last) + b.rate * wait;
    assert b.rate * (t - b.last) >= 0.0;
    LevelMeans(b, u);
  }

  /** A new bucket is full: it gives its whole burst at once, and never more. */
  lemma NewIsFull(rate: real, burst: nat, t: real, n: nat)
    requires rate >= 0.0
    ensures New(rate, burst).Valid() && (Allows(New(rate, burst), t, n) <==> n <= burst)
  {
    var b := New(rate, burst);
    if 0.0 <= t {
      assert rate * t >= 0.0;
      LevelMeans(b, t);
    }
  }

  // ---------- Two limiters nobody can tell apart from time t on ----------

  ghost predicate Same(a: Limiter, b: Limiter, t: real) {
    a.rate == b.rate && a.burst == b.burst && forall u :: u >= t ==> Level(a, u) == Level(b, u)
  }

  lemma SameSpends(a: Limiter, b: Limiter, t: real, u: real, n: nat)
    requires Same(a, b, t) && t <= u
    ensures Allows(a, u, n) == Allows(b, u, n)
    ensures Same(Spend(a, u, n), Spend(b, u, n), u)
  {
  }

  lemma SameLater(a: Limiter, b: Limiter, t: real, u: real)
    requires Same(a, b, t) && t <= u
    ensures Same(a, b, u) && (Full(a, u) <==> Full(b, u))
  {
  }

  /** A full bucket is as good as a new one. */
  lemma FullIsFresh(b: Limiter, t: real)
    requires b.Valid() && Full(b, t)
    ensures Same(New(b.rate, b.burst), b, t)
  {
    var unused := New(b.rate, b.burst);
    hide Inflow;
    forall u | u >= t ensures Level(unused, u) == Level(b, u) {
      LevelGrows(b, t, u);
      LevelGrows(unused, if u < 0.0 then u else 0.0, u);
    }
  }

  // ---------- How much a bucket admits ----------

  // One request: when, how many tokens, and the answer it got.
  datatype Served = Served(at: real, n: nat, ok: bool)

  function After(b: Limiter, log: seq<Served>): Limiter {
    if log == [] then b else Spend(After(b, log[..|log| - 1]), log[|log| - 1].at, log[|log| - 1].n)
  }

  /** Every answer is the bucket's, and time does not run backwards. */
  ghost predicate Honest(b: Limiter, log: seq<Served>) {
    log != [] ==>
      var init, last := log[..|log| - 1], log[|log| - 1];
      && Honest(b, init)
      && last.ok == Allows(After(b, init), last.at, last.n)
      && (init != [] ==> init[|init| - 1].at <= last.at)
  }

  function Admitted(log: seq<Served>): nat {
    if log == [] then 0 else Admitted(log[..|log| - 1]) + (if log[|log| - 1].ok then log[|log| - 1].n else 0)
  }

  lemma {:induction false} AfterIsValid(b: Limiter, log: seq<Served>)
    requires b.Valid()
    ensures After(b, log).Valid() && After(b, log).rate == b.rate && After(b, log).burst == b.burst
  {
    if log != [] {
      AfterIsValid(b, log[..|log| - 1]);
      SpendIsValid(After(b, log[..|log| - 1]), log[|log| - 1].at, log[|log| - 1].n);
    }
  }

  lemma {:induction false} LastIsSpent(b: Limiter, log: seq<Served>, t: real)
    requires Honest(b, log) && b.last <= t && (log != [] ==> log[|log| - 1].at <= t)
    ensures After(b, log).last <= t
  {
    if log != [] {
      hide Allows;
      LastIsSpent(b, log[..|log| - 1], t);
    }
  }

  // What was admitted plus what is left never exceeds what was there plus what trickled in.
  lemma {:induction false} TokensFlow(b: Limiter, log: seq<Served>, from: real, to: real)
    requires b.Valid() && Honest(b, log) && from <= to
    requires log != [] ==> from <= log[0].at && log[|log| - 1].at <= to
    ensures Admitted(log) as real + Level(After(b, log), to) <= Level(b, from) + Inflow(b.rate, from, to)
  {
    if log == [] {
      LevelGrows(b, from, to);
    } else {
      hide Level, Inflow;
      var init, last := log[..|log| - 1], log[|log| - 1];
      var mid := After(b, init);
      if init == [] { assert from <= last.at; } else { TimesInOrder(b, log); }
      TokensFlow(b, init, from, last.at);
      AfterIsValid(b, init);
      SpendIsValid(mid, last.at, last.n);
      LevelGrows(Spend(mid, last.at, last.n), last.at, to);
      InflowAdds(b.rate, from, last.at, to);
    }
  }

  /** No token is made: what was admitted plus what is left is at most what was there plus rate times the time. */
  lemma NoTokenIsMade(b: Limiter, log: seq<Served>, from: real, to: real)
    requires b.Valid() && Honest(b, log) && from <= to
    requires log != [] ==> from <= log[0].at && log[|log| - 1].at <= to
    ensures Admitted(log) as real + Level(After(b, log), to) <= Level(b, from) + b.rate * (to - from)
  {
    hide Level, Honest, After, Inflow;
    TokensFlow(b, log, from, to);
    InflowIs(b.rate, from, to);
  }

  lemma {:induction false} TimesInOrder(b: Limiter, log: seq<Served>)
    requires Honest(b, log)
    ensures forall i :: 0 <= i < |log| ==> log[0].at <= log[i].at
    ensures forall i :: 0 <= i < |log| ==> log[i].at <= log[|log| - 1].at
  {
    if |log| > 1 {
      hide Allows, After;
      var init := log[..|log| - 1];
      TimesInOrder(b, init);
      assert init[0] == log[0] && init[|init| - 1] == log[|log| - 2];
      forall i | 0 <= i < |log| ensures log[0].at <= log[i].at && log[i].at <= log[|log| - 1].at {
        if i < |init| { assert log[i] == init[i]; }
      }
    }
  }

  lemma {:induction false} HonestParts(b: Limiter, log: seq<Served>, i: nat)
    requires Honest(b, log) && i <= |log|
    ensures Honest(b, log[..i]) && Honest(After(b, log[..i]), log[i..])
    ensures After(After(b, log[..i]), log[i..]) == After(b, log)
  {
    if i == |log| {
      assert log[..i] == log && log[i..] == [];
    } else {
      hide Allows, Spend;
      var init := log[..|log| - 1];
      HonestParts(b, init, i);
      assert init[..i] == log[..i] && log[i..][..|log| - 1 - i] == init[i..];
      assert log[i..][|log[i..]| - 1] == log[|log| - 1];
      if init[i..] != [] { assert init[i..][|init[i..]| - 1] == init[|init| - 1]; }
    }
  }

  lemma AdmitsFlow(b: Limiter, log: seq<Served>, i: nat, j: nat)
    requires b.Valid() && Honest(b, log) && i < j <= |log|
    ensures Admitted(log[i..j]) as real <= b.burst as real + Inflow(b.rate, log[i].at, log[j - 1].at)
  {
    hide Level, Allows, Inflow;
    HonestParts(b, log, j);
    var head := log[..j];
    HonestParts(b, head, i);
    assert head[..i] == log[..i] && head[i..] == log[i..j];
    var start, part := After(b, log[..i]), log[i..j];
    AfterIsValid(b, log[..i]);
    TimesInOrder(start, part);
    assert part[0] == log[i] && part[|part| - 1] == log[j - 1];
    TokensFlow(start, part, log[i].at, log[j - 1].at);
    AfterIsValid(start, part);
    LevelBounds(After(start, part), log[j - 1].at);
    LevelBounds(start, log[i].at);
  }

  /** In any stretch of requests a bucket admits at most its burst plus its rate times the duration. */
  lemma AdmitsAtMost(b: Limiter, log: seq<Served>, i: nat, j: nat)
    requires b.Valid() && Honest(b, log) && i < j <= |log|
    ensures Admitted(log[i..j]) as real <= b.burst as real + b.rate * (log[j - 1].at - log[i].at)
  {
    hide Honest, Admitted, Inflow;
    AdmitsFlow(b, log, i, j);
    InflowIs(b.rate, log[i].at, log[j - 1].at);
  }

  lemma LevelBounds(b: Limiter, t: real)
    requires b.Valid()
    ensures 0.0 <= Level(b, t) <= b.burst as real
  {
    LevelGrows(b, t, t);
  }
}
