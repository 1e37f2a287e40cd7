/** The distributed rate limiter: the Lua token bucket of RateLimiter
    (common/dao/data_redis.hpp:1657-1691), the C++ integer form
    compute_token_bucket (common/utils/reliability_state.hpp:82-104), their
    agreement, and the rate the script really enforces across key expiry. */
module TokenBucket {
  import opened Wrappers
  import opened Division

  /** The two hash fields: tokens left, and the time up to which refills are accounted. */
  datatype Bucket = Bucket(tokens: int, ts: int)

  const INT_MAX := 0x7fff_ffff

  function Min(a: int, b: int): int {
    if a < b then a else b
  }

  /** Milliseconds per token, at least one. */
  function Interval(capacity: int, windowMs: int): (i: int)
    requires capacity > 0
    ensures i >= 1
  {
    if windowMs / capacity < 1 then 1 else windowMs / capacity
  }

  /** The body of the script between reading and writing the fields: the bucket before the token is taken. */
  function Refilled(stored: Option<Bucket>, capacity: int, windowMs: int, now: int): Bucket
    requires capacity > 0
  {
    if stored.None? || now < stored.value.ts then Bucket(capacity, now)
    else
      var interval := Interval(capacity, windowMs);
      var b := stored.value;
      var refill := (now - b.ts) / interval;
      if refill > 0 then Bucket(Min(capacity, b.tokens + refill), b.ts + refill * interval) else b
  }

  function Take(b: Bucket): (bool, Bucket) {
    if b.tokens <= 0 then (false, b) else (true, b.(tokens := b.tokens - 1))
  }

  // ----- compute_token_bucket -----

  datatype Decision = Decision(allowed: bool, tokens: int, resetAt: int)

  /** static_cast<int> of a 64-bit value. */
  function ToInt32(x: int): int {
    var m := x % 0x1_0000_0000;
    if m <= INT_MAX then m else m - 0x1_0000_0000
  }

  lemma SmallIsInt32(x: int)
    requires 0 <= x <= INT_MAX
    ensures ToInt32(x) == x
  {
  }

  /** None: the int addition of tokens and refill overflows, which C++ leaves undefined. */
  function ComputeTokenBucket(currentTokens: int, lastRefill: int, now: int, windowSec: int,
                              capacity: int): Option<Decision> {
    if capacity <= 0 || windowSec <= 0 then Some(Decision(true, capacity, now))
    else
      var (current, last) :=
        if lastRefill <= 0 || now < lastRefill then (capacity, now) else (currentTokens, lastRefill);
      var interval := if windowSec * 1000 / capacity <= 0 then 1 else windowSec * 1000 / capacity;
      var refill := ToInt32((now - last) / interval);
      if refill > 0 && current + refill > INT_MAX then None
      else
        var (tokens, ts) :=
          if refill > 0 then (Min(capacity, current + refill), last + refill * interval) else (current, last);
        Some(if tokens <= 0 then Decision(false, 0, ts) else Decision(true, tokens - 1, ts))
  }

  /** What the script decides and leaves for the same stored bucket. */
  function ScriptDecision(stored: Option<Bucket>, now: int, windowSec: int, capacity: int): Decision
    requires capacity > 0
  {
    var (allowed, b) := Take(Refilled(stored, capacity, windowSec * 1000, now));
    Decision(allowed, b.tokens, b.ts)
  }

  /** The refill fits the C++ int, also after it is added to the tokens. */
  predicate FitsInt(b: Bucket, now: int, windowSec: int, capacity: int)
    requires capacity > 0
  {
    now < b.ts || b.tokens + (now - b.ts) / Interval(capacity, windowSec * 1000) <= INT_MAX
  }

  /** A truncated refill is short of the real one by a multiple of 2^32, so it leaves an earlier timestamp. */
  lemma TruncatedIsShort(refill: int, interval: int)
    requires refill > INT_MAX && interval >= 1
    ensures ToInt32(refill) < refill && ToInt32(refill) * interval < refill * interval
  {
    MulAtLeast(refill - ToInt32(refill), interval);
    assert refill * interval == ToInt32(refill) * interval + (refill - ToInt32(refill)) * interval;
  }

  /** On the same stored bucket both forms decide alike and leave the same tokens and timestamp if, and only if, the
      refill and its sum with the tokens fit the C++ int. */
  lemma LuaAgreesExactly(b: Bucket, now: int, windowSec: int, capacity: int)
    requires capacity > 0 && windowSec > 0 && 0 <= b.tokens <= INT_MAX && b.ts > 0
    ensures ComputeTokenBucket(b.tokens, b.ts, now, windowSec, capacity) ==
      Some(ScriptDecision(Some(b), now, windowSec, capacity))
      <==> FitsInt(b, now, windowSec, capacity)
  {
    var interval := Interval(capacity, windowSec * 1000);
    DivUnique(0, interval, 0, 0);
    if now >= b.ts {
      DivMono(0, now - b.ts, interval);
      var refill := (now - b.ts) / interval;
      if refill <= INT_MAX { SmallIsInt32(refill); } else { TruncatedIsShort(refill, interval); }
    }
  }

  /** And on a missing one, which the C++ form is given as timestamp 0, they always agree. */
  lemma LuaAgreesOnMissing(tokens: int, now: int, windowSec: int, capacity: int)
    requires capacity > 0 && windowSec > 0
    ensures ComputeTokenBucket(tokens, 0, now, windowSec, capacity) ==
      Some(ScriptDecision(None, now, windowSec, capacity))
  {
    DivUnique(0, Interval(capacity, windowSec * 1000), 0, 0);
  }

  /** Without a limit the C++ form allows, as RateLimiter does without asking Redis. */
  lemma NoLimitAllows(tokens: int, ts: int, now: int, windowSec: int, capacity: int)
    requires capacity <= 0 || windowSec <= 0
    ensures var d := ComputeTokenBucket(tokens, ts, now, windowSec, capacity); d.Some? && d.value.allowed
  {
  }

  // ----- The script with its key, its expiry and its runs -----

  /** The hash key: missing, or its fields and the deadline set by PEXPIRE. */
  datatype Stored = Missing | Stored(b: Bucket, deadline: int)

  function Visible(st: Stored, now: int): Option<Bucket> {
    if st.Missing? || now > st.deadline then None else Some(st.b)
  }

  function Call(st: Stored, capacity: int, windowMs: int, now: int): (Stored, bool)
    requires capacity > 0
  {
    var (allowed, b) := Take(Refilled(Visible(st, now), capacity, windowMs, now));
    (Stored(b, now + 2 * windowMs), allowed)
  }

  class RateLimiter {
    var key: Stored

    method Allow(capacity: int, windowSec: int, now: int) returns (allowed: bool)
      modifies this
      ensures capacity <= 0 || windowSec <= 0 ==> allowed && key == old(key)
      ensures capacity > 0 && windowSec > 0 ==> (key, allowed) == Call(old(key), capacity, windowSec * 1000, now)
    {
      var windowMs := windowSec * 1000;
      if capacity <= 0 || windowMs <= 0 { return true; }
      var interval := windowMs / capacity;
      if interval < 1 { interval := 1; }
      var tokens, ts := capacity, now;
      var fields := Visible(key, now);
      if fields.Some? && now >= fields.value.ts {
        tokens, ts := fields.value.tokens, fields.value.ts;
        var refill := (now - ts) / interval;
        if refill > 0 {
          tokens := Min(capacity, tokens + refill);
          ts := ts + refill * interval;
        }
      }
      if tokens <= 0 {
        key := Stored(Bucket(tokens, ts), now + windowMs * 2);
        return false;
      }
      tokens := tokens - 1;
      key := Stored(Bucket(tokens, ts), now + windowMs * 2);
      allowed := true;
    }
  }

  /** Grants over a sequence of calls with fixed limits. */
  function Grants(st: Stored, capacity: int, windowMs: int, times: seq<int>): nat
    requires capacity > 0
    decreases |times|
  {
    if times == [] then 0
    else
      var (st', ok) := Call(st, capacity, windowMs, times[0]);
      (if ok then 1 else 0) + Grants(st', capacity, windowMs, times[1..])
  }

  predicate Within(times: seq<int>, t0: int, t1: int) {
    t0 <= t1 && (forall i :: 0 <= i < |times| ==> t0 <= times[i] <= t1) &&
    forall i, j :: 0 <= i < j < |times| ==> times[i] <= times[j]
  }

  /** What every call leaves behind, at the time `last` of that call. */
  predicate Left(st: Stored, capacity: int, windowMs: int, last: int)
    requires capacity > 0
  {
    st.Stored? && 0 <= st.b.tokens <= capacity && st.b.ts <= last && st.deadline == last + 2 * windowMs &&
    last - st.b.ts < Interval(capacity, windowMs)
  }

  /** Any stored key at a time not before its last call. */
  ghost predicate Possible(st: Stored, capacity: int, windowMs: int, now: int)
    requires capacity > 0
  {
    st.Stored? ==> exists last :: last <= now && Left(st, capacity, windowMs, last)
  }

  function CeilDiv(a: int, i: int): int
    requires i >= 1
  {
    (a + i - 1) / i
  }

  /** The tokens a bucket can pay out by `t1`, if it is never full. */
  function Credit(b: Bucket, capacity: int, windowMs: int, t1: int): int
    requires capacity > 0
  {
    b.tokens + (t1 - b.ts) / Interval(capacity, windowMs)
  }

  predicate Tidy(b: Bucket, capacity: int, windowMs: int, now: int)
    requires capacity > 0
  {
    0 <= b.tokens <= capacity && b.ts <= now && now - b.ts < Interval(capacity, windowMs)
  }

  /** A refill accounts for whole intervals only, brings the timestamp within one interval of now, and creates no
      credit. */
  lemma RefillKeepsCredit(b: Bucket, capacity: int, windowMs: int, now: int, t1: int)
    requires capacity > 0 && b.ts <= now && 0 <= b.tokens <= capacity
    ensures var r := Refilled(Some(b), capacity, windowMs, now);
      Tidy(r, capacity, windowMs, now) && Credit(r, capacity, windowMs, t1) <= Credit(b, capacity, windowMs, t1)
  {
    var i := Interval(capacity, windowMs);
    var refill := (now - b.ts) / i;
    DivMod(now - b.ts, i);
    DivMono(0, now - b.ts, i);
    DivUnique(0, i, 0, 0);
    DivShift(t1 - b.ts, i, refill);
  }

  /** Two idle windows are worth at least a full bucket, up to capacity 2 * windowMs + 1. */
  lemma IdleRefills(capacity: int, windowMs: int)
    requires 0 < capacity <= 2 * windowMs + 1 && windowMs > 0
    ensures (2 * windowMs + 1) / Interval(capacity, windowMs) >= capacity
  {
    var i := Interval(capacity, windowMs);
    DivMod(windowMs, capacity);
    if windowMs / capacity >= 1 {
      assert i * capacity <= windowMs;
      DivMono(capacity * i, 2 * windowMs + 1, i);
      DivUnique(capacity * i, i, capacity, 0);
    } else {
      DivUnique(2 * windowMs + 1, 1, 2 * windowMs + 1, 0);
    }
  }

  /** Neither a refill nor a reset after expiry creates credit. */
  lemma CallKeepsCredit(st: Stored, capacity: int, windowMs: int, last: int, now: int, t1: int)
    requires 0 < capacity <= 2 * windowMs + 1 && windowMs > 0
    requires Left(st, capacity, windowMs, last) && last <= now <= t1
    ensures var r := Refilled(Visible(st, now), capacity, windowMs, now);
      Tidy(r, capacity, windowMs, now) && Credit(r, capacity, windowMs, t1) <= Credit(st.b, capacity, windowMs, t1)
  {
    var i := Interval(capacity, windowMs);
    if now > st.deadline {
      IdleRefills(capacity, windowMs);
      DivSuper(t1 - now, now - st.b.ts, i);
      DivMono(2 * windowMs + 1, now - st.b.ts, i);
    } else {
      RefillKeepsCredit(st.b, capacity, windowMs, now, t1);
    }
  }

  lemma CallLeaves(st: Stored, capacity: int, windowMs: int, now: int, t1: int)
    requires capacity > 0 && windowMs > 0
    requires Tidy(Refilled(Visible(st, now), capacity, windowMs, now), capacity, windowMs, now)
    ensures var (st', ok) := Call(st, capacity, windowMs, now);
      && Left(st', capacity, windowMs, now)
      && Credit(st'.b, capacity, windowMs, t1) + (if ok then 1 else 0)
           == Credit(Refilled(Visible(st, now), capacity, windowMs, now), capacity, windowMs, t1)
  {
  }

  /** From what a call leaves at time `last`, later calls up to `t1` get at most the credit left. */
  lemma {:induction false} LaterGrants(st: Stored, capacity: int, windowMs: int, last: int, times: seq<int>, t1: int)
    requires 0 < capacity <= 2 * windowMs + 1 && windowMs > 0
    requires Left(st, capacity, windowMs, last) && Within(times, last, t1)
    ensures Grants(st, capacity, windowMs, times) <= Credit(st.b, capacity, windowMs, t1)
    decreases |times|
  {
    if times == [] {
      DivMono(0, t1 - st.b.ts, Interval(capacity, windowMs));
      DivUnique(0, Interval(capacity, windowMs), 0, 0);
    } else {
      var now := times[0];
      CallKeepsCredit(st, capacity, windowMs, last, now, t1);
      CallLeaves(st, capacity, windowMs, now, t1);
      LaterGrants(Call(st, capacity, windowMs, now).0, capacity, windowMs, now, times[1..], t1);
    }
  }

  /** In any stretch of a run from `t0` to `t1`, expiry included, the script grants at most the capacity
      plus one token for every started interval: for every capacity up to 2 * windowMs + 1. */
  lemma RateIsBounded(st: Stored, capacity: int, windowMs: int, times: seq<int>, t0: int, t1: int)
    requires 0 < capacity <= 2 * windowMs + 1 && windowMs > 0
    requires Possible(st, capacity, windowMs, t0) && Within(times, t0, t1)
    ensures Grants(st, capacity, windowMs, times) <= capacity + CeilDiv(t1 - t0, Interval(capacity, windowMs))
  {
    var i := Interval(capacity, windowMs);
    if times == [] {
      DivMono(0, t1 - t0 + i - 1, i);
      DivUnique(0, i, 0, 0);
    } else {
      var now := times[0];
      var r := Refilled(Visible(st, now), capacity, windowMs, now);
      if Visible(st, now).Some? { RefillKeepsCredit(st.b, capacity, windowMs, now, t1); }
      CallLeaves(st, capacity, windowMs, now, t1);
      LaterGrants(Call(st, capacity, windowMs, now).0, capacity, windowMs, now, times[1..], t1);
      DivMono(t1 - r.ts, t1 - t0 + i - 1, i);
    }
  }

  function After(st: Stored, capacity: int, windowMs: int, times: seq<int>): Stored
    requires capacity > 0
    decreases |times|
  {
    if times == [] then st else After(Call(st, capacity, windowMs, times[0]).0, capacity, windowMs, times[1..])
  }

  /** Every stretch of a run may start the bound: runs only pass through possible keys. */
  lemma {:induction false} RunsStayPossible(st: Stored, capacity: int, windowMs: int, times: seq<int>, t0: int, t1: int)
    requires capacity > 0 && windowMs > 0
    requires Possible(st, capacity, windowMs, t0) && Within(times, t0, t1)
    ensures Possible(After(st, capacity, windowMs, times), capacity, windowMs, t1)
    decreases |times|
  {
    if times != [] {
      var now := times[0];
      if Visible(st, now).Some? { RefillKeepsCredit(st.b, capacity, windowMs, now, t1); }
      CallLeaves(st, capacity, windowMs, now, t1);
      RunsStayPossible(Call(st, capacity, windowMs, now).0, capacity, windowMs, times[1..], now, t1);
    }
  }

  lemma {:induction false} DrainAtOnce(st: Stored, capacity: int, windowMs: int, now: int, n: nat, rest: seq<int>)
    requires capacity > 0 && windowMs > 0
    requires st.Stored? && st.b.ts == now && n <= st.b.tokens && st.deadline == now + 2 * windowMs
    ensures Grants(st, capacity, windowMs, seq(n, _ => now) + rest)
         == n + Grants(st.(b := st.b.(tokens := st.b.tokens - n)), capacity, windowMs, rest)
    decreases n
  {
    if n == 0 {
      assert seq(n, _ => now) + rest == rest;
    } else {
      var times := seq(n, _ => now) + rest;
      assert times[1..] == seq(n - 1, _ => now) + rest;
      assert (now - st.b.ts) / Interval(capacity, windowMs) == 0;
      DrainAtOnce(st.(b := st.b.(tokens := st.b.tokens - 1)), capacity, windowMs, now, n - 1, rest);
    }
  }

  lemma DrainFresh(st: Stored, capacity: int, windowMs: int, now: int, rest: seq<int>)
    requires capacity > 0 && windowMs > 0 && Visible(st, now).None?
    ensures Grants(st, capacity, windowMs, seq(capacity, _ => now) + rest)
         == capacity + Grants(Stored(Bucket(0, now), now + 2 * windowMs), capacity, windowMs, rest)
  {
    var times := seq(capacity, _ => now) + rest;
    assert times[1..] == seq(capacity - 1, _ => now) + rest;
    DrainAtOnce(Stored(Bucket(capacity - 1, now), now + 2 * windowMs), capacity, windowMs, now, capacity - 1, rest);
  }

  /** And for no greater capacity: draining the bucket, letting its key expire and draining it again exceeds
      the bound. */
  lemma RateIsExceeded(capacity: int, windowMs: int) returns (times: seq<int>, t1: int)
    requires windowMs > 0 && capacity > 2 * windowMs + 1
    ensures Within(times, 0, t1)
    ensures Grants(Missing, capacity, windowMs, times) > capacity + CeilDiv(t1, Interval(capacity, windowMs))
  {
    t1 := 2 * windowMs + 1;
    var again := seq(capacity, _ => 2 * windowMs + 1);
    times := seq(capacity, _ => 0) + again;
    assert windowMs / capacity == 0 by { DivUnique(windowMs, capacity, 0, windowMs); }
    assert Interval(capacity, windowMs) == 1;
    DrainFresh(Missing, capacity, windowMs, 0, again);
    assert again + [] == again;
    DrainFresh(Stored(Bucket(0, 0), 2 * windowMs), capacity, windowMs, 2 * windowMs + 1, []);
    assert t1 == 2 * windowMs + 1 && CeilDiv(t1, 1) == t1;
  }

  // ----- Nobody is refused who has not had as much -----

  lemma {:induction false} AfterLast(st: Stored, capacity: int, windowMs: int, times: seq<int>, now: int)
    requires capacity > 0
    ensures var before := After(st, capacity, windowMs, times);
      && After(st, capacity, windowMs, times + [now]) == Call(before, capacity, windowMs, now).0
      && Grants(st, capacity, windowMs, times + [now]) ==
           Grants(st, capacity, windowMs, times) + (if Call(before, capacity, windowMs, now).1 then 1 else 0)
    decreases |times|
  {
    if times == [] {
      assert ([] + [now])[1..] == [];
    } else {
      assert (times + [now])[1..] == times[1..] + [now];
      AfterLast(Call(st, capacity, windowMs, times[0]).0, capacity, windowMs, times[1..], now);
    }
  }

  /** The key after the first `n` calls of a run from a missing one. */
  function KeyAt(capacity: int, windowMs: int, times: seq<int>, n: nat): Stored
    requires capacity > 0 && n <= |times|
  {
    After(Missing, capacity, windowMs, times[..n])
  }

  /** What calls `m` up to `n` of the run were granted. */
  function GrantsFrom(capacity: int, windowMs: int, times: seq<int>, m: nat, n: nat): nat
    requires capacity > 0 && m <= n <= |times|
  {
    Grants(KeyAt(capacity, windowMs, times, m), capacity, windowMs, times[m..n])
  }

  /** Call `n` of the run, by itself. */
  lemma OneMoreCall(capacity: int, windowMs: int, times: seq<int>, n: nat)
    requires capacity > 0 && n < |times|
    ensures KeyAt(capacity, windowMs, times, n + 1) ==
      Call(KeyAt(capacity, windowMs, times, n), capacity, windowMs, times[n]).0
  {
    assert times[..n + 1] == times[..n] + [times[n]];
    AfterLast(Missing, capacity, windowMs, times[..n], times[n]);
  }

  lemma {:induction false} KeyFrom(capacity: int, windowMs: int, times: seq<int>, m: nat, n: nat)
    requires capacity > 0 && m <= n <= |times|
    ensures After(KeyAt(capacity, windowMs, times, m), capacity, windowMs, times[m..n]) ==
      KeyAt(capacity, windowMs, times, n)
    decreases n - m
  {
    if m < n {
      KeyFrom(capacity, windowMs, times, m + 1, n);
      OneMoreCall(capacity, windowMs, times, m);
      assert times[m..n][1..] == times[m + 1..n];
    }
  }

  lemma OneMoreGrant(capacity: int, windowMs: int, times: seq<int>, m: nat, n: nat)
    requires capacity > 0 && m <= n < |times|
    ensures GrantsFrom(capacity, windowMs, times, m, n + 1) == GrantsFrom(capacity, windowMs, times, m, n) +
      if Call(KeyAt(capacity, windowMs, times, n), capacity, windowMs, times[n]).1 then 1 else 0
  {
    KeyFrom(capacity, windowMs, times, m, n);
    assert times[m..n + 1] == times[m..n] + [times[n]];
    AfterLast(KeyAt(capacity, windowMs, times, m), capacity, windowMs, times[m..n], times[n]);
  }

  /** Since call `m` found the bucket full, with refills accounted up to `ts`, it got `q` tokens and lost one a grant.
      */
  predicate FullSince(capacity: int, windowMs: int, times: seq<int>, n: nat, m: nat, ts: int, q: nat)
    requires capacity > 0 && m < n <= |times|
  {
    var i, st := Interval(capacity, windowMs), KeyAt(capacity, windowMs, times, n);
    && times[m] - i < ts <= times[m] && Left(st, capacity, windowMs, times[n - 1])
    && st.b.ts == ts + q * i
    && st.b.tokens + GrantsFrom(capacity, windowMs, times, m, n) == capacity + q
  }

  /** A bucket that a refill does not fill got one token for every whole interval. */
  lemma PartialRefill(b: Bucket, capacity: int, windowMs: int, now: int) returns (refill: nat)
    requires capacity > 0 && b.ts <= now && 0 <= b.tokens <= capacity
    requires Refilled(Some(b), capacity, windowMs, now).tokens != capacity
    ensures Refilled(Some(b), capacity, windowMs, now) ==
      Bucket(b.tokens + refill, b.ts + refill * Interval(capacity, windowMs))
  {
    var i := Interval(capacity, windowMs);
    DivMono(0, now - b.ts, i);
    DivUnique(0, i, 0, 0);
    refill := (now - b.ts) / i;
  }

  /** The bucket that call `n` of the run finds. */
  function Found(capacity: int, windowMs: int, times: seq<int>, n: nat): Bucket
    requires capacity > 0 && n < |times|
  {
    Refilled(Visible(KeyAt(capacity, windowMs, times, n), times[n]), capacity, windowMs, times[n])
  }

  lemma FoundFull(capacity: int, windowMs: int, times: seq<int>, n: nat)
    requires capacity > 0 && windowMs > 0 && n < |times|
    requires var b := Found(capacity, windowMs, times, n);
      b.tokens == capacity && Tidy(b, capacity, windowMs, times[n])
    ensures FullSince(capacity, windowMs, times, n + 1, n, Found(capacity, windowMs, times, n).ts, 0)
  {
    OneMoreCall(capacity, windowMs, times, n);
    CallLeaves(KeyAt(capacity, windowMs, times, n), capacity, windowMs, times[n], times[n]);
    OneMoreGrant(capacity, windowMs, times, n, n);
  }

  lemma FoundPartial(capacity: int, windowMs: int, times: seq<int>, n: nat, m: nat, ts: int, q: nat)
    returns (q': nat)
    requires capacity > 0 && windowMs > 0 && m < n < |times| && FullSince(capacity, windowMs, times, n, m, ts, q)
    requires Found(capacity, windowMs, times, n).tokens != capacity && times[n - 1] <= times[n]
    ensures FullSince(capacity, windowMs, times, n + 1, m, ts, q')
  {
    var i, now, st := Interval(capacity, windowMs), times[n], KeyAt(capacity, windowMs, times, n);
    var refill := PartialRefill(st.b, capacity, windowMs, now);
    RefillKeepsCredit(st.b, capacity, windowMs, now, now);
    OneMoreCall(capacity, windowMs, times, n);
    CallLeaves(st, capacity, windowMs, now, now);
    OneMoreGrant(capacity, windowMs, times, m, n);
    assert (q + refill) * i == q * i + refill * i;
    q' := q + refill;
  }

  /** After any calls of a run there is one that found the bucket full, and from which on the account holds. */
  lemma {:induction false} SomeFullSince(capacity: int, windowMs: int, times: seq<int>, n: nat, t1: int)
    returns (m: nat, ts: int, q: nat)
    requires capacity > 0 && windowMs > 0 && 0 < n <= |times| && Within(times, times[0], t1)
    ensures m < n && FullSince(capacity, windowMs, times, n, m, ts, q)
  {
    var k := n - 1;
    var found, st := Found(capacity, windowMs, times, k), KeyAt(capacity, windowMs, times, k);
    if k > 0 { m, ts, q := SomeFullSince(capacity, windowMs, times, k, t1); }
    if Visible(st, times[k]).Some? { RefillKeepsCredit(st.b, capacity, windowMs, times[k], times[k]); }
    if found.tokens == capacity {
      FoundFull(capacity, windowMs, times, k);
      m, ts, q := k, found.ts, 0;
    } else {
      q := FoundPartial(capacity, windowMs, times, k, m, ts, q);
    }
  }

  /** Whenever a run from a missing key refuses a call, there is an earlier call from which on it has granted the whole
      capacity and one token for every interval since: the bound that RateIsBounded gives is used up. */
  lemma RefusedOnlyWhenSpent(capacity: int, windowMs: int, times: seq<int>, n: nat, t1: int) returns (m: nat)
    requires capacity > 0 && windowMs > 0 && n < |times| && Within(times, times[0], t1)
    requires !Call(KeyAt(capacity, windowMs, times, n), capacity, windowMs, times[n]).1
    ensures m < n && GrantsFrom(capacity, windowMs, times, m, n) >=
      capacity + (times[n] - times[m]) / Interval(capacity, windowMs)
  {
    var ts, q;
    var st, now, i := KeyAt(capacity, windowMs, times, n), times[n], Interval(capacity, windowMs);
    m, ts, q := SomeFullSince(capacity, windowMs, times, n, t1);
    RefillKeepsCredit(st.b, capacity, windowMs, now, now);
    var refill := PartialRefill(st.b, capacity, windowMs, now);
    DivUnique(now - ts, i, q, now - st.b.ts);
    DivMono(now - times[m], now - ts, i);
  }
}
