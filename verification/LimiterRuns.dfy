/** What the in-process limiter does over whole runs: the rate a key gets, exactly which requests are granted, and when
    its shards, its cleanup and its limit do not show. */
module LimiterRuns {
  import opened Wrappers
  import opened ShardLimits
  import opened LocalLimiter

  // ----- The rate a key gets -----

  /** A service of requests: the states before and after each, and the answers. */
  ghost predicate Service(hash: Key -> nat, states: seq<State>, reqs: seq<Request>, answers: seq<bool>) {
    && |states| == |reqs| + 1 && |answers| == |reqs|
    && (forall i :: 0 <= i < |states| ==> Sharded(hash, states[i].shards))
    && (forall i :: 0 <= i < |reqs| ==> Turn(hash, states[i], states[i + 1], reqs[i], answers[i]))
  }

  /** The requests for `key` that were granted. */
  function Granted(reqs: seq<Request>, answers: seq<bool>, key: Key): nat
    requires |reqs| == |answers|
  {
    if reqs == [] then 0
    else
      var n := |reqs| - 1;
      Granted(reqs[..n], answers[..n], key) + (if reqs[n].key == key && answers[n] then 1 else 0)
  }

  /** Times do not decrease and lie between `t0` and `t1`. */
  predicate Timed(reqs: seq<Request>, t0: int, t1: int) {
    && t0 <= t1
    && (forall i :: 0 <= i < |reqs| ==> t0 <= reqs[i].now <= t1)
    && (forall i, j :: 0 <= i < j < |reqs| ==> reqs[i].now <= reqs[j].now)
  }

  /** `key` is always asked for with this capacity and window, and no window in use is shorter than half of that. */
  predicate Steady(reqs: seq<Request>, key: Key, capacity: int, windowSec: int) {
    && (forall i :: 0 <= i < |reqs| && reqs[i].key == key ==>
          reqs[i].capacity == capacity && reqs[i].windowSec == windowSec)
    && (forall i :: 0 <= i < |reqs| && Counts(reqs[i]) ==> windowSec <= 2 * reqs[i].windowSec)
  }

  /** The tokens `key` can have at `now`; a key without a bucket starts with a full one. */
  function Available(m: map<Key, Bucket>, key: Key, capacity: int, windowSec: int, now: int): real
    requires windowSec > 0
  {
    if key in m then Topped(m[key], capacity, windowSec, now) else capacity as real
  }

  lemma AccruedAdds(a: int, b: int, capacity: int, windowSec: int)
    requires windowSec > 0
    ensures Accrued(a, capacity, windowSec) + Accrued(b, capacity, windowSec) == Accrued(a + b, capacity, windowSec)
  {
    var w, c := windowSec as real * 1000.0, capacity as real;
    assert a as real * c + b as real * c == (a + b) as real * c;
  }

  /** Waiting makes available no more than what accrues. */
  lemma AvailableGrows(m: map<Key, Bucket>, key: Key, capacity: int, windowSec: int, clock: int, now: int)
    requires capacity > 0 && windowSec > 0 && clock <= now && (key in m ==> BucketSane(m[key], clock))
    ensures 0.0 <= Available(m, key, capacity, windowSec, clock)
    ensures Available(m, key, capacity, windowSec, now) <=
      Available(m, key, capacity, windowSec, clock) + Accrued(now - clock, capacity, windowSec)
  {
    AccruedNonNegative(now - clock, capacity, windowSec);
    if key in m {
      AccruedNonNegative(clock - m[key].refill, capacity, windowSec);
      AccruedAdds(clock - m[key].refill, now - clock, capacity, windowSec);
      AccruedAdds(0, 0, capacity, windowSec);
    }
  }

  /** A request takes from its key what it is granted, and nothing makes more available. */
  lemma AnswerSpends(hash: Key -> nat, shards: Shards, shards': Shards, r: Request, ok: bool, key: Key, capacity: int,
                     windowSec: int)
    requires |shards| == |shards'| == SHARDS && windowSec > 0 && capacity > 0 && Steady([r], key, capacity, windowSec)
    requires Answered(hash, shards, shards', r, ok) && Sane(shards, r.now)
    ensures Available(shards'[Home(hash, key)], key, capacity, windowSec, r.now) +
            (if r.key == key && ok then 1.0 else 0.0)
         <= Available(shards[Home(hash, key)], key, capacity, windowSec, r.now)
  {
    var m, m' := shards[Home(hash, key)], shards'[Home(hash, key)];
    assert [r][0] == r;
    AccruedAdds(0, 0, capacity, windowSec);
    if Counts(r) && key != r.key { assert KeptOrIdle(m, m', key, r.now, r.windowSec); }
    if key in m && key !in m' { IdleIsFull(m[key], capacity, windowSec, r.windowSec, r.now); }
  }

  /** What a key may get between `t0` and `t1`. */
  function Allowance(capacity: int, windowSec: int, t0: int, t1: int): real
    requires windowSec > 0
  {
    capacity as real + Accrued(t1 - t0, capacity, windowSec)
  }

  /** The unbounded limiter serves requests in order. */
  function IdealAll(m: map<Key, Bucket>, reqs: seq<Request>): (map<Key, Bucket>, seq<bool>) {
    if reqs == [] then (m, [])
    else
      var n := |reqs| - 1;
      var (before, answers) := IdealAll(m, reqs[..n]);
      var (after, ok) := Ideal(before, reqs[n]);
      (after, answers + [ok])
  }

  // ----- Runs -----

  /** The state stays good through a run. */
  lemma {:induction false} ServedIsGood(hash: Key -> nat, s: State, reqs: seq<Request>, t0: int, t1: int)
    requires Good(hash, s, t0) && Timed(reqs, t0, t1)
    ensures Good(hash, Served(hash, s, reqs).0, t1)
    decreases |reqs|
  {
    if reqs != [] {
      var n := |reqs| - 1;
      ServedIsGood(hash, s, reqs[..n], t0, reqs[n].now);
      CallAnswers(hash, Served(hash, s, reqs[..n]).0, reqs[n], reqs[n].now);
    }
  }

  /** The answers and the state after the last request. */
  lemma ServedLast(hash: Key -> nat, s: State, reqs: seq<Request>)
    requires |s.shards| == SHARDS && reqs != []
    ensures var n := |reqs| - 1; var (b, answers) := Served(hash, s, reqs[..n]);
      Served(hash, s, reqs) == (Call(hash, b, reqs[n]).0, answers + [Call(hash, b, reqs[n]).1])
  {
  }

  lemma ServiceExtends(hash: Key -> nat, states: seq<State>, reqs: seq<Request>, answers: seq<bool>, s: State, ok: bool)
    requires reqs != [] && Service(hash, states, reqs[..|reqs| - 1], answers)
    requires Turn(hash, states[|reqs| - 1], s, reqs[|reqs| - 1], ok)
    ensures Service(hash, states + [s], reqs, answers + [ok])
  {
  }

  /** The states of a run, before each request and at the end. */
  predicate StatesOf(hash: Key -> nat, s: State, reqs: seq<Request>, states: seq<State>)
    requires |s.shards| == SHARDS
  {
    |states| == |reqs| + 1 && forall i :: 0 <= i <= |reqs| ==> states[i] == Served(hash, s, reqs[..i]).0
  }

  lemma {:induction false} StatesExtend(hash: Key -> nat, s: State, reqs: seq<Request>, states: seq<State>)
    requires |s.shards| == SHARDS && reqs != [] && StatesOf(hash, s, reqs[..|reqs| - 1], states)
    ensures StatesOf(hash, s, reqs, states + [Served(hash, s, reqs).0])
  {
    var n := |reqs| - 1;
    var states' := states + [Served(hash, s, reqs).0];
    forall i | 0 <= i <= |reqs|
      ensures states'[i] == Served(hash, s, reqs[..i]).0
    {
      if i <= n { assert reqs[..i] == reqs[..n][..i]; } else { assert reqs[..i] == reqs; }
    }
  }

  /** A run of the limiter is such a service. */
  lemma {:induction false} ServedIsService(hash: Key -> nat, s: State, reqs: seq<Request>, t0: int, t1: int)
    returns (states: seq<State>)
    requires Good(hash, s, t0) && Timed(reqs, t0, t1)
    ensures Service(hash, states, reqs, Served(hash, s, reqs).1)
    ensures StatesOf(hash, s, reqs, states)
    decreases |reqs|
  {
    if reqs == [] {
      states := [s];
    } else {
      var n := |reqs| - 1;
      var (b, answers) := Served(hash, s, reqs[..n]);
      states := ServedIsService(hash, s, reqs[..n], t0, reqs[n].now);
      assert reqs[..n][..n] == reqs[..n];
      ServedIsGood(hash, s, reqs[..n], t0, reqs[n].now);
      CallIsTurn(hash, b, reqs[n], reqs[n].now);
      ServedLast(hash, s, reqs);
      ServiceExtends(hash, states, reqs, answers, Call(hash, b, reqs[n]).0, Call(hash, b, reqs[n]).1);
      StatesExtend(hash, s, reqs, states);
      states := states + [Call(hash, b, reqs[n]).0];
    }
  }

  /** Where a service stands after `n` requests, the last at `clock`: granted and available together are within what is
      allowed up to then. */
  ghost predicate InBudget(hash: Key -> nat, states: seq<State>, reqs: seq<Request>, answers: seq<bool>, key: Key,
                           capacity: int, windowSec: int, t0: int, clock: int, n: nat)
    requires n <= |reqs| == |answers| && n < |states| && |states[n].shards| == SHARDS && windowSec > 0
  {
    && Sane(states[n].shards, clock)
    && Granted(reqs[..n], answers[..n], key) as real +
       Available(states[n].shards[Home(hash, key)], key, capacity, windowSec, clock)
       <= Allowance(capacity, windowSec, t0, clock)
  }

  /** A request spends at most what has become available since the last one. */
  lemma TurnSpends(hash: Key -> nat, s: State, s': State, r: Request, ok: bool, key: Key, capacity: int, windowSec: int,
                   clock: int)
    requires Turn(hash, s, s', r, ok) && Sane(s.shards, clock) && clock <= r.now
    requires windowSec > 0 && capacity > 0 && Steady([r], key, capacity, windowSec)
    ensures Sane(s'.shards, r.now)
    ensures Available(s'.shards[Home(hash, key)], key, capacity, windowSec, r.now) +
            (if r.key == key && ok then 1.0 else 0.0)
         <= Available(s.shards[Home(hash, key)], key, capacity, windowSec, clock) +
            Accrued(r.now - clock, capacity, windowSec)
  {
    AnsweredIsSane(hash, s.shards, s'.shards, r, ok, clock);
    AvailableGrows(s.shards[Home(hash, key)], key, capacity, windowSec, clock, r.now);
    AnswerSpends(hash, s.shards, s'.shards, r, ok, key, capacity, windowSec);
  }

  lemma BudgetNext(hash: Key -> nat, states: seq<State>, reqs: seq<Request>, answers: seq<bool>, key: Key,
                   capacity: int, windowSec: int, t0: int, clock: int, n: nat)
    requires n < |reqs| == |answers| && n + 1 < |states| && windowSec > 0 && capacity > 0 && clock <= reqs[n].now
    requires Turn(hash, states[n], states[n + 1], reqs[n], answers[n]) && Steady([reqs[n]], key, capacity, windowSec)
    requires InBudget(hash, states, reqs, answers, key, capacity, windowSec, t0, clock, n)
    ensures InBudget(hash, states, reqs, answers, key, capacity, windowSec, t0, reqs[n].now, n + 1)
  {
    TurnSpends(hash, states[n], states[n + 1], reqs[n], answers[n], key, capacity, windowSec, clock);
    assert reqs[..n + 1][..n] == reqs[..n] && answers[..n + 1][..n] == answers[..n];
    GrantedLast(reqs[..n + 1], answers[..n + 1], key);
    AccruedAdds(clock - t0, reqs[n].now - clock, capacity, windowSec);
  }

  /** At any point of any service, what a key was granted plus what is available to it is within its capacity and what
      accrued. */
  lemma {:induction false} ServiceBudget(hash: Key -> nat, states: seq<State>, reqs: seq<Request>, answers: seq<bool>,
                                         key: Key, capacity: int, windowSec: int, t0: int, t1: int, n: nat)
    requires windowSec > 0 && capacity > 0 && Service(hash, states, reqs, answers) && n <= |reqs|
    requires Sane(states[0].shards, t0) && Timed(reqs, t0, t1) && Steady(reqs, key, capacity, windowSec)
    ensures
      InBudget(hash, states, reqs, answers, key, capacity, windowSec, t0, if n == 0 then t0 else reqs[n - 1].now, n)
  {
    if n == 0 {
      AvailableGrows(states[0].shards[Home(hash, key)], key, capacity, windowSec, t0, t0);
      AvailableIsCapped(states[0].shards[Home(hash, key)], key, capacity, windowSec, t0);
      AccruedAdds(0, 0, capacity, windowSec);
    } else {
      ServiceBudget(hash, states, reqs, answers, key, capacity, windowSec, t0, t1, n - 1);
      assert Turn(hash, states[n - 1], states[n - 1 + 1], reqs[n - 1], answers[n - 1]);
      var clock := if n == 1 then t0 else reqs[n - 2].now;
      BudgetNext(hash, states, reqs, answers, key, capacity, windowSec, t0, clock, n - 1);
    }
  }

  lemma AvailableIsCapped(m: map<Key, Bucket>, key: Key, capacity: int, windowSec: int, now: int)
    requires windowSec > 0
    ensures Available(m, key, capacity, windowSec, now) <= capacity as real
  {
  }

  lemma GrantedLast(reqs: seq<Request>, answers: seq<bool>, key: Key)
    requires reqs != [] && |answers| == |reqs|
    ensures var n := |reqs| - 1;
      Granted(reqs, answers, key) ==
        Granted(reqs[..n], answers[..n], key) + (if reqs[n].key == key && answers[n] then 1 else 0)
  {
  }

  lemma AllowanceGrows(capacity: int, windowSec: int, t0: int, last: int, t1: int)
    requires capacity > 0 && windowSec > 0 && last <= t1
    ensures Allowance(capacity, windowSec, t0, last) <= Allowance(capacity, windowSec, t0, t1)
  {
    AccruedAdds(last - t0, t1 - last, capacity, windowSec);
    AccruedNonNegative(t1 - last, capacity, windowSec);
  }

  lemma ServiceRate(hash: Key -> nat, states: seq<State>, reqs: seq<Request>, answers: seq<bool>, key: Key,
                    capacity: int, windowSec: int, t0: int, t1: int)
    requires windowSec > 0 && capacity > 0 && Service(hash, states, reqs, answers)
    requires Sane(states[0].shards, t0) && Timed(reqs, t0, t1) && Steady(reqs, key, capacity, windowSec)
    ensures Granted(reqs, answers, key) as real <= Allowance(capacity, windowSec, t0, t1)
  {
    var n := |reqs|;
    var last := if n == 0 then t0 else reqs[n - 1].now;
    ServiceBudget(hash, states, reqs, answers, key, capacity, windowSec, t0, t1, n);
    assert reqs[..n] == reqs && answers[..n] == answers;
    AvailableGrows(states[n].shards[Home(hash, key)], key, capacity, windowSec, last, last);
    AllowanceGrows(capacity, windowSec, t0, last, t1);
  }

  /** Between `t0` and `t1` a key asked for with capacity C is granted at most C + C * (t1 - t0) / (1000 * window)
      requests, from any state the limiter may be in, whatever other keys do and whether or not the bucket limit is
      reached, as long as no window in use is shorter than half the key's own. */
  lemma KeyRateIsBounded(hash: Key -> nat, s: State, reqs: seq<Request>, key: Key, capacity: int, windowSec: int,
                         t0: int, t1: int)
    requires windowSec > 0 && capacity > 0 && Good(hash, s, t0)
    requires Timed(reqs, t0, t1) && Steady(reqs, key, capacity, windowSec)
    ensures Granted(reqs, Served(hash, s, reqs).1, key) as real <= Allowance(capacity, windowSec, t0, t1)
  {
    var states := ServedIsService(hash, s, reqs, t0, t1);
    ServiceRate(hash, states, reqs, Served(hash, s, reqs).1, key, capacity, windowSec, t0, t1);
  }

  /** All windows that matter are from `window` to twice that. */
  predicate WithinFactorTwo(reqs: seq<Request>, window: int) {
    forall i :: 0 <= i < |reqs| && Counts(reqs[i]) ==> window <= reqs[i].windowSec <= 2 * window
  }

  /** The first `n` requests leave their keys with buckets. */
  predicate NobodyTurnedAway(hash: Key -> nat, states: seq<State>, reqs: seq<Request>, n: nat)
    requires n <= |reqs| < |states| && forall i :: 0 <= i < |states| ==> |states[i].shards| == SHARDS
  {
    forall i :: 0 <= i < n && Counts(reqs[i]) ==> reqs[i].key in states[i + 1].shards[Home(hash, reqs[i].key)]
  }

  /** A request that is answered with a bucket keeps the two limiters in step. */
  lemma AnswerIsIdeal(hash: Key -> nat, shards: Shards, shards': Shards, ideal: map<Key, Bucket>, r: Request, ok: bool,
                      window: int, clock: int)
    requires |shards| == |shards'| == SHARDS && clock <= r.now && window > 0
    requires Simulates(hash, shards, ideal, clock, window) && Answered(hash, shards, shards', r, ok)
    requires Counts(r) ==> window <= r.windowSec <= 2 * window && r.key in shards'[Home(hash, r.key)]
    ensures Ideal(ideal, r).1 == ok && Simulates(hash, shards', Ideal(ideal, r).0, r.now, window)
  {
    LaterSimulates(hash, shards, ideal, clock, r.now, window);
    if Counts(r) { AnsweredSimulates(hash, shards, shards', ideal, r, window, ok); }
  }

  lemma IdealLast(ideal: map<Key, Bucket>, reqs: seq<Request>)
    requires reqs != []
    ensures var n := |reqs| - 1; var (m, answers) := IdealAll(ideal, reqs[..n]);
      |answers| == n && IdealAll(ideal, reqs) == (Ideal(m, reqs[n]).0, answers + [Ideal(m, reqs[n]).1])
  {
    IdealAnswersAll(ideal, reqs[..|reqs| - 1]);
  }

  lemma {:induction false} IdealAnswersAll(ideal: map<Key, Bucket>, reqs: seq<Request>)
    ensures |IdealAll(ideal, reqs).1| == |reqs|
  {
    if reqs != [] { IdealAnswersAll(ideal, reqs[..|reqs| - 1]); }
  }

  /** After `n` requests the two limiters are in step and have answered alike. */
  ghost predicate Alike(hash: Key -> nat, states: seq<State>, reqs: seq<Request>, answers: seq<bool>,
                        ideal: map<Key, Bucket>, window: int, clock: int, n: nat)
    requires n <= |reqs| == |answers| && |reqs| < |states| && |states[n].shards| == SHARDS
  {
    && IdealAll(ideal, reqs[..n]).1 == answers[..n]
    && Simulates(hash, states[n].shards, IdealAll(ideal, reqs[..n]).0, clock, window)
  }

  lemma AlikeNext(hash: Key -> nat, states: seq<State>, reqs: seq<Request>, answers: seq<bool>, ideal: map<Key,
                  Bucket>,
                  window: int, clock: int, n: nat)
    requires n < |reqs| == |answers| && |reqs| < |states| && |states[n].shards| == |states[n + 1].shards| == SHARDS
    requires window > 0
    requires Alike(hash, states, reqs, answers, ideal, window, clock, n) && clock <= reqs[n].now
    requires Answered(hash, states[n].shards, states[n + 1].shards, reqs[n], answers[n])
    requires var r := reqs[n];
      Counts(r) ==> window <= r.windowSec <= 2 * window && r.key in states[n + 1].shards[Home(hash, r.key)]
    ensures Alike(hash, states, reqs, answers, ideal, window, reqs[n].now, n + 1)
  {
    assert reqs[..n + 1][..n] == reqs[..n];
    IdealLast(ideal, reqs[..n + 1]);
    var m := IdealAll(ideal, reqs[..n]).0;
    AnswerIsIdeal(hash, states[n].shards, states[n + 1].shards, m, reqs[n], answers[n], window, clock);
  }

  /** Over any service with windows within a factor of two and nobody turned away, all answers are those of the
      unbounded limiter. */
  lemma {:induction false} ServiceIsIdeal(hash: Key -> nat, states: seq<State>, reqs: seq<Request>, answers: seq<bool>,
                                          ideal: map<Key, Bucket>, window: int, t0: int, t1: int, n: nat)
    requires Service(hash, states, reqs, answers) && Simulates(hash, states[0].shards, ideal, t0, window) && window > 0
    requires Timed(reqs, t0, t1) && WithinFactorTwo(reqs, window) && n <= |reqs|
    requires NobodyTurnedAway(hash, states, reqs, n)
    ensures Alike(hash, states, reqs, answers, ideal, window, if n == 0 then t0 else reqs[n - 1].now, n)
  {
    if n > 0 {
      ServiceIsIdeal(hash, states, reqs, answers, ideal, window, t0, t1, n - 1);
      assert Turn(hash, states[n - 1], states[n - 1 + 1], reqs[n - 1], answers[n - 1]);
      AlikeNext(hash, states, reqs, answers, ideal, window, if n == 1 then t0 else reqs[n - 2].now, n - 1);
    }
  }

  // ----- Who is turned away -----

  function KeysOf(reqs: seq<Request>): set<Key> {
    set i | 0 <= i < |reqs| :: reqs[i].key
  }

  function StoredKeys(shards: Shards): set<Key> {
    if shards == [] then {} else StoredKeys(shards[..|shards| - 1]) + shards[|shards| - 1].Keys
  }

  lemma {:induction false} StoredSomewhere(shards: Shards, k: Key)
    ensures k in StoredKeys(shards) <==> exists i :: 0 <= i < |shards| && k in shards[i]
  {
    if shards != [] {
      var n := |shards| - 1;
      StoredSomewhere(shards[..n], k);
      if i :| 0 <= i < |shards| && k in shards[i] { assert i < n ==> k in shards[..n][i]; }
    }
  }

  /** Every key has its own shard, so the buckets are as many as the keys. */
  lemma {:induction false} TotalIsStoredKeys(hash: Key -> nat, shards: Shards)
    requires forall i, k :: 0 <= i < |shards| && k in shards[i] ==> i == Home(hash, k)
    ensures Total(shards) == |StoredKeys(shards)|
  {
    if shards != [] {
      var n := |shards| - 1;
      TotalIsStoredKeys(hash, shards[..n]);
      forall k | k in StoredKeys(shards[..n])
        ensures k !in shards[n].Keys
      {
        StoredSomewhere(shards[..n], k);
        var i :| 0 <= i < n && k in shards[..n][i];
        assert k in shards[i];
        assert k in shards[n] ==> n == Home(hash, k);
      }
      assert StoredKeys(shards[..n]) !! shards[n].Keys;
    }
  }

  /** In a service that starts with no buckets only keys that asked have any. */
  lemma {:induction false} OnlyAskersStored(hash: Key -> nat, states: seq<State>, reqs: seq<Request>,
                                            answers: seq<bool>, n: nat, k: Key)
    requires Service(hash, states, reqs, answers) && n <= |reqs|
    requires (forall i :: 0 <= i < SHARDS ==> states[0].shards[i] == map[])
    requires k in states[n].shards[Home(hash, k)]
    ensures k in KeysOf(reqs)
  {
    if n > 0 {
      var r := reqs[n - 1];
      assert Turn(hash, states[n - 1], states[n - 1 + 1], r, answers[n - 1]);
      if k != r.key {
        assert Counts(r) ==>
          KeptOrIdle(states[n - 1].shards[Home(hash, k)], states[n].shards[Home(hash, k)], k, r.now, r.windowSec);
        OnlyAskersStored(hash, states, reqs, answers, n - 1, k);
      }
    }
  }

  /** A key that has no bucket itself and shares the limiter with as many as there may be. */
  lemma ManyKeys(hash: Key -> nat, shards: Shards, reqs: seq<Request>, key: Key)
    requires Sharded(hash, shards) && Total(shards) == MAX_BUCKETS && StoredKeys(shards) <= KeysOf(reqs)
    requires key in KeysOf(reqs) && key !in shards[Home(hash, key)]
    ensures |KeysOf(reqs)| > MAX_BUCKETS
  {
    TotalIsStoredKeys(hash, shards);
    StoredSomewhere(shards, key);
    FewerKeys(StoredKeys(shards) + {key}, KeysOf(reqs));
  }

  /** A key is turned away only when 65536 other keys that asked have buckets, so never with at most 65536 keys. */
  lemma TurnedAwayNeedsManyKeys(hash: Key -> nat, states: seq<State>, reqs: seq<Request>, answers: seq<bool>, i: nat)
    requires Service(hash, states, reqs, answers) && (forall j :: 0 <= j < SHARDS ==> states[0].shards[j] == map[])
    requires i < |reqs| && Counts(reqs[i]) && reqs[i].key !in states[i + 1].shards[Home(hash, reqs[i].key)]
    ensures |KeysOf(reqs)| > MAX_BUCKETS
  {
    var shards := states[i + 1].shards;
    assert Turn(hash, states[i], states[i + 1], reqs[i], answers[i]);
    forall k | k in StoredKeys(shards)
      ensures k in KeysOf(reqs)
    {
      StoredSomewhere(shards, k);
      OnlyAskersStored(hash, states, reqs, answers, i + 1, k);
    }
    assert reqs[i].key in KeysOf(reqs);
    ManyKeys(hash, shards, reqs, reqs[i].key);
  }

  lemma FewKeysFit(hash: Key -> nat, states: seq<State>, reqs: seq<Request>, answers: seq<bool>)
    requires Service(hash, states, reqs, answers) && (forall j :: 0 <= j < SHARDS ==> states[0].shards[j] == map[])
    requires |KeysOf(reqs)| <= MAX_BUCKETS
    ensures NobodyTurnedAway(hash, states, reqs, |reqs|)
  {
    forall i | 0 <= i < |reqs| && Counts(reqs[i])
      ensures reqs[i].key in states[i + 1].shards[Home(hash, reqs[i].key)]
    {
      if reqs[i].key !in states[i + 1].shards[Home(hash, reqs[i].key)] {
        TurnedAwayNeedsManyKeys(hash, states, reqs, answers, i);
      }
    }
  }

  /** Request `i` of a run was turned away, with 65536 buckets stored. */
  predicate TurnedAwayAtLimit(hash: Key -> nat, s: State, reqs: seq<Request>, i: nat)
    requires |s.shards| == SHARDS && i < |reqs|
  {
    var shards := Served(hash, s, reqs[..i + 1]).0.shards;
    Counts(reqs[i]) && reqs[i].key !in shards[Home(hash, reqs[i].key)] && Total(shards) == 65536
  }

  /** Over any run from any state in step with the unbounded limiter, with windows within a factor of two: all answers
      are the unbounded limiter's, or some key was turned away with 65536 buckets stored. */
  lemma {:induction false} RunIsIdeal(hash: Key -> nat, s: State, ideal: map<Key, Bucket>, reqs: seq<Request>,
                                      window: int, t0: int, t1: int)
    requires Good(hash, s, t0) && Simulates(hash, s.shards, ideal, t0, window) && window > 0
    requires Timed(reqs, t0, t1) && WithinFactorTwo(reqs, window)
    ensures Served(hash, s, reqs).1 == IdealAll(ideal, reqs).1 ||
            exists i :: 0 <= i < |reqs| && TurnedAwayAtLimit(hash, s, reqs, i)
  {
    var states := ServedIsService(hash, s, reqs, t0, t1);
    var answers := Served(hash, s, reqs).1;
    if NobodyTurnedAway(hash, states, reqs, |reqs|) {
      ServiceIsIdeal(hash, states, reqs, answers, ideal, window, t0, t1, |reqs|);
      assert reqs[..|reqs|] == reqs && answers[..|reqs|] == answers;
    } else {
      var i :| 0 <= i < |reqs| && Counts(reqs[i]) && reqs[i].key !in states[i + 1].shards[Home(hash, reqs[i].key)];
      assert Turn(hash, states[i], states[i + 1], reqs[i], answers[i]);
      assert TurnedAwayAtLimit(hash, s, reqs, i);
    }
  }

  /** From an empty limiter, with at most 65536 keys and windows within a factor of two: the limiter with its shards,
      its cleanup and its limit gives the answers of a map that never forgets a key. */
  lemma FewKeysAnswerIdeally(hash: Key -> nat, s: State, reqs: seq<Request>, window: int, t0: int, t1: int)
    requires Blank(s) && Timed(reqs, t0, t1) && WithinFactorTwo(reqs, window) && window > 0
    requires |KeysOf(reqs)| <= 65536
    ensures Served(hash, s, reqs).1 == IdealAll(map[], reqs).1
  {
    BlankIsGood(hash, s, t0);
    RunIsIdeal(hash, s, map[], reqs, window, t0, t1);
    var states := ServedIsService(hash, s, reqs, t0, t1);
    FewKeysFit(hash, states, reqs, Served(hash, s, reqs).1);
  }

  // ----- The answers, from times and answers alone -----

  /** What a key had left after its last request, and when that was. */
  datatype Purse = Purse(amount: real, at: int)

  /** What a key has at `now`: at first its capacity, which is also the most it can save, and later what was left and
      what came in since. */
  function Have(p: Option<Purse>, capacity: int, windowSec: int, now: int): real
    requires windowSec > 0
  {
    match p
    case None => capacity as real
    case Some(Purse(amount, at)) =>
      var total := amount + (now - at) as real * capacity as real / (windowSec as real * 1000.0);
      if total < capacity as real then total else capacity as real
  }

  /** The requests for `key`, each paid for if it was granted. */
  function PurseAfter(reqs: seq<Request>, answers: seq<bool>, key: Key, capacity: int, windowSec: int): Option<Purse>
    requires |answers| == |reqs| && windowSec > 0
  {
    if reqs == [] then None
    else
      var n := |reqs| - 1;
      var before := PurseAfter(reqs[..n], answers[..n], key, capacity, windowSec);
      if reqs[n].key != key then before
      else
        var have := Have(before, capacity, windowSec, reqs[n].now);
        Some(Purse(if answers[n] then have - 1.0 else have, reqs[n].now))
  }

  /** The bucket holds what is in the purse; a key without a bucket has all it can have. */
  predicate InPurse(m: map<Key, Bucket>, key: Key, p: Option<Purse>, capacity: int, windowSec: int, clock: int)
    requires windowSec > 0
  {
    if key in m then p == Some(Purse(m[key].tokens, m[key].refill)) && m[key].refill <= clock
    else p.None? || (p.value.at <= clock && Have(p, capacity, windowSec, clock) == capacity as real)
  }

  lemma HaveIsTopped(b: Bucket, capacity: int, windowSec: int, now: int)
    requires windowSec > 0 && b.refill <= now
    ensures Have(Some(Purse(b.tokens, b.refill)), capacity, windowSec, now) == Topped(b, capacity, windowSec, now)
  {
  }

  /** Who has all there is to have keeps it. */
  lemma HaveStaysFull(p: Purse, capacity: int, windowSec: int, clock: int, now: int)
    requires windowSec > 0 && capacity > 0 && p.at <= clock <= now
    requires Have(Some(p), capacity, windowSec, clock) == capacity as real
    ensures Have(Some(p), capacity, windowSec, now) == capacity as real
  {
    AccruedAdds(clock - p.at, now - clock, capacity, windowSec);
    AccruedNonNegative(now - clock, capacity, windowSec);
  }

  /** A request for another key leaves the purse right. */
  lemma OtherKeepsPurse(m: map<Key, Bucket>, m': map<Key, Bucket>, key: Key, p: Option<Purse>, capacity: int,
                        windowSec: int, clock: int, now: int, idle: int)
    requires windowSec > 0 && capacity > 0 && clock <= now && windowSec <= 2 * idle
    requires InPurse(m, key, p, capacity, windowSec, clock) && (key in m ==> BucketSane(m[key], clock))
    requires KeptOrIdle(m, m', key, now, idle)
    ensures InPurse(m', key, p, capacity, windowSec, now)
  {
    if key in m && key !in m' {
      IdleIsFull(m[key], capacity, windowSec, idle, now);
      HaveIsTopped(m[key], capacity, windowSec, now);
    } else if key !in m && p.Some? {
      HaveStaysFull(p.value, capacity, windowSec, clock, now);
    }
  }

  /** A request for the key is granted exactly if there is one to spend and a bucket to spend it from. */
  lemma OwnSpendsPurse(m: map<Key, Bucket>, m': map<Key, Bucket>, r: Request, ok: bool, p: Option<Purse>, clock: int)
    requires Counts(r) && clock <= r.now && KeyServed(m, m', r, ok)
    requires InPurse(m, r.key, p, r.capacity, r.windowSec, clock) && (r.key in m ==> BucketSane(m[r.key], clock))
    ensures var have := Have(p, r.capacity, r.windowSec, r.now);
      && (ok <==> have >= 1.0 && r.key in m')
      && InPurse(m', r.key, Some(Purse(if ok then have - 1.0 else have, r.now)), r.capacity, r.windowSec, r.now)
  {
    if r.key in m {
      HaveIsTopped(m[r.key], r.capacity, r.windowSec, r.now);
      if r.key !in m' { IdleIsFull(m[r.key], r.capacity, r.windowSec, r.windowSec, r.now); }
    } else if p.Some? {
      HaveStaysFull(p.value, r.capacity, r.windowSec, clock, r.now);
    }
  }

  lemma TurnSpendsPurse(hash: Key -> nat, s: State, s': State, r: Request, ok: bool, key: Key, p: Option<Purse>,
                        capacity: int, windowSec: int, clock: int)
    requires Turn(hash, s, s', r, ok) && Sane(s.shards, clock) && clock <= r.now
    requires windowSec > 0 && capacity > 0 && Steady([r], key, capacity, windowSec)
    requires InPurse(s.shards[Home(hash, key)], key, p, capacity, windowSec, clock)
    ensures var m', have := s'.shards[Home(hash, key)], Have(p, capacity, windowSec, r.now);
      && (r.key == key ==> (ok <==> have >= 1.0 && key in m'))
      && InPurse(m', key, if r.key == key then Some(Purse(if ok then have - 1.0 else have, r.now)) else p,
                 capacity, windowSec, r.now)
  {
    var m, m' := s.shards[Home(hash, key)], s'.shards[Home(hash, key)];
    assert [r][0] == r;
    if r.key == key {
      OwnSpendsPurse(m, m', r, ok, p, clock);
    } else if Counts(r) {
      OtherKeepsPurse(m, m', key, p, capacity, windowSec, clock, r.now, r.windowSec);
    } else if key !in m && p.Some? {
      HaveStaysFull(p.value, capacity, windowSec, clock, r.now);
    }
  }

  /** The time of the last of the first `n` requests. */
  function ClockAt(reqs: seq<Request>, t0: int, n: nat): int
    requires n <= |reqs|
  {
    if n == 0 then t0 else reqs[n - 1].now
  }

  lemma PurseLast(reqs: seq<Request>, answers: seq<bool>, key: Key, capacity: int, windowSec: int, n: nat)
    requires n < |reqs| == |answers| && windowSec > 0
    ensures var before := PurseAfter(reqs[..n], answers[..n], key, capacity, windowSec);
      var have := Have(before, capacity, windowSec, reqs[n].now);
      PurseAfter(reqs[..n + 1], answers[..n + 1], key, capacity, windowSec) ==
      if reqs[n].key == key then Some(Purse(if answers[n] then have - 1.0 else have, reqs[n].now)) else before
  {
    assert reqs[..n + 1][..n] == reqs[..n] && answers[..n + 1][..n] == answers[..n];
  }

  lemma {:induction false} ServicePurse(hash: Key -> nat, states: seq<State>, reqs: seq<Request>, answers: seq<bool>,
                                        key: Key, capacity: int, windowSec: int, t0: int, t1: int, n: nat)
    requires windowSec > 0 && capacity > 0 && Service(hash, states, reqs, answers) && n <= |reqs|
    requires Blank(states[0]) && Timed(reqs, t0, t1) && Steady(reqs, key, capacity, windowSec)
    ensures Sane(states[n].shards, ClockAt(reqs, t0, n))
    ensures InPurse(states[n].shards[Home(hash, key)], key,
                    PurseAfter(reqs[..n], answers[..n], key, capacity, windowSec), capacity, windowSec,
                    ClockAt(reqs, t0, n))
  {
    if n > 0 {
      var m, clock := n - 1, ClockAt(reqs, t0, n - 1);
      ServicePurse(hash, states, reqs, answers, key, capacity, windowSec, t0, t1, m);
      assert Turn(hash, states[m], states[m + 1], reqs[m], answers[m]);
      PurseLast(reqs, answers, key, capacity, windowSec, m);
      AnsweredIsSane(hash, states[m].shards, states[n].shards, reqs[m], answers[m], clock);
      TurnSpendsPurse(hash, states[m], states[n], reqs[m], answers[m], key,
                      PurseAfter(reqs[..m], answers[..m], key, capacity, windowSec), capacity, windowSec, clock);
    }
  }

  lemma ServiceDecides(hash: Key -> nat, states: seq<State>, reqs: seq<Request>, answers: seq<bool>, key: Key,
                       capacity: int, windowSec: int, t0: int, t1: int, n: nat)
    requires windowSec > 0 && capacity > 0 && Service(hash, states, reqs, answers) && n < |reqs| && reqs[n].key == key
    requires Blank(states[0]) && Timed(reqs, t0, t1) && Steady(reqs, key, capacity, windowSec)
    ensures var purse := PurseAfter(reqs[..n], answers[..n], key, capacity, windowSec);
      answers[n] <==>
        Have(purse, capacity, windowSec, reqs[n].now) >= 1.0 && key in states[n + 1].shards[Home(hash, key)]
    ensures key !in states[n + 1].shards[Home(hash, key)] ==> Total(states[n + 1].shards) == MAX_BUCKETS
  {
    ServicePurse(hash, states, reqs, answers, key, capacity, windowSec, t0, t1, n);
    assert Turn(hash, states[n], states[n + 1], reqs[n], answers[n]);
    TurnSpendsPurse(hash, states[n], states[n + 1], reqs[n], answers[n], key,
                    PurseAfter(reqs[..n], answers[..n], key, capacity, windowSec), capacity, windowSec,
                    ClockAt(reqs, t0, n));
  }

  /** In any run from an empty limiter, a key asked for with one capacity and window, no other window being shorter than
      half of that, is granted a request exactly if its purse has at least one, unless it is turned away with 65536
      buckets stored. */
  lemma {:induction false} PurseDecides(hash: Key -> nat, s: State, reqs: seq<Request>, key: Key, capacity: int,
                                        windowSec: int, t0: int, t1: int, n: nat)
    requires windowSec > 0 && capacity > 0 && Blank(s) && n < |reqs| && reqs[n].key == key
    requires Timed(reqs, t0, t1) && Steady(reqs, key, capacity, windowSec)
    ensures var answers := Served(hash, s, reqs).1;
      var purse := PurseAfter(reqs[..n], answers[..n], key, capacity, windowSec);
      answers[n] <==> Have(purse, capacity, windowSec, reqs[n].now) >= 1.0 && !TurnedAwayAtLimit(hash, s, reqs, n)
  {
    BlankIsGood(hash, s, t0);
    var states := ServedIsService(hash, s, reqs, t0, t1);
    assert reqs[..0] == [];
    ServiceDecides(hash, states, reqs, Served(hash, s, reqs).1, key, capacity, windowSec, t0, t1, n);
  }

  /** A request without a limit is always granted. */
  lemma NoLimitNoRefusal(hash: Key -> nat, s: State, reqs: seq<Request>, t0: int, t1: int, n: nat)
    requires Good(hash, s, t0) && Timed(reqs, t0, t1) && n < |reqs| && (reqs[n].capacity <= 0 || reqs[n].windowSec <= 0)
    ensures Served(hash, s, reqs).1[n]
  {
    var states := ServedIsService(hash, s, reqs, t0, t1);
    assert Turn(hash, states[n], states[n + 1], reqs[n], Served(hash, s, reqs).1[n]);
  }

  // ----- Windows that differ by more -----

  /** The slow key asks once, the quick one until the 1024th request of all, when the slow one has just become idle for
      its window, and then the slow one again. */
  function FailingRun(slow: Key, quick: Key, windowSec: int, idle: int): seq<Request> {
    seq(CLEANUP_EVERY + 1, i requires 0 <= i =>
      if i == 0 then Request(slow, 1, windowSec, 0)
      else if i < CLEANUP_EVERY then Request(quick, 1, idle, 2000 * idle + 1)
      else Request(slow, 1, windowSec, 2000 * idle + 1))
  }

  /** These are the requests of the failing run. */
  predicate Fails(reqs: seq<Request>, slow: Key, quick: Key, windowSec: int, idle: int) {
    && |reqs| == CLEANUP_EVERY + 1 && reqs[0] == Request(slow, 1, windowSec, 0)
    && (forall i :: 0 < i < CLEANUP_EVERY ==> reqs[i] == Request(quick, 1, idle, 2000 * idle + 1))
    && reqs[CLEANUP_EVERY] == Request(slow, 1, windowSec, 2000 * idle + 1)
  }

  /** The requests use these two windows only. */
  predicate UsesWindows(reqs: seq<Request>, idle: int, windowSec: int) {
    forall i :: 0 <= i < |reqs| ==> reqs[i].windowSec == idle || reqs[i].windowSec == windowSec
  }

  lemma FailingRunIsProper(reqs: seq<Request>, slow: Key, quick: Key, windowSec: int, idle: int)
    requires idle > 0 && Fails(reqs, slow, quick, windowSec, idle)
    ensures Timed(reqs, 0, 2000 * idle + 1) && UsesWindows(reqs, idle, windowSec) && |KeysOf(reqs)| <= 2
  {
    FewerKeys(KeysOf(reqs), {slow, quick});
  }

  /** The slow key's bucket is empty since time 0, or forgotten. */
  predicate Drained(m: map<Key, Bucket>, slow: Key) {
    slow in m ==> m[slow] == Bucket(0.0, 0, 0)
  }

  lemma {:induction false} SlowStaysDrained(hash: Key -> nat, states: seq<State>, reqs: seq<Request>,
                                            answers: seq<bool>, slow: Key, quick: Key,
                                            windowSec: int, idle: int, n: nat)
    requires Service(hash, states, reqs, answers) && Blank(states[0]) && Fails(reqs, slow, quick, windowSec, idle)
    requires slow != quick && windowSec > 0 && idle > 0 && 0 < n <= CLEANUP_EVERY
    requires NobodyTurnedAway(hash, states, reqs, |reqs|)
    ensures Drained(states[n].shards[Home(hash, slow)], slow) && states[n].operations == n && answers[0]
  {
    assert Turn(hash, states[n - 1], states[n - 1 + 1], reqs[n - 1], answers[n - 1]);
    if n > 1 {
      SlowStaysDrained(hash, states, reqs, answers, slow, quick, windowSec, idle, n - 1);
      var home := Home(hash, slow);
      assert KeptOrIdle(states[n - 1].shards[home], states[n].shards[home], slow, reqs[n - 1].now, idle);
    }
  }

  /** The 1024th request makes the limiter forget the slow key, which then gets a fresh bucket. */
  lemma SlowIsForgotten(hash: Key -> nat, states: seq<State>, reqs: seq<Request>, answers: seq<bool>, slow: Key,
                        quick: Key, windowSec: int, idle: int)
    requires Service(hash, states, reqs, answers) && Blank(states[0]) && Fails(reqs, slow, quick, windowSec, idle)
    requires slow != quick && Home(hash, slow) == Home(hash, quick) && windowSec > 0 && idle > 0
    requires NobodyTurnedAway(hash, states, reqs, |reqs|)
    ensures answers[0] && answers[CLEANUP_EVERY]
  {
    var n, home := CLEANUP_EVERY, Home(hash, slow);
    SlowStaysDrained(hash, states, reqs, answers, slow, quick, windowSec, idle, n - 1);
    SlowStaysDrained(hash, states, reqs, answers, slow, quick, windowSec, idle, n);
    assert Turn(hash, states[n - 1], states[n - 1 + 1], reqs[n - 1], answers[n - 1]);
    assert KeptOrIdle(states[n - 1].shards[home], states[n].shards[home], slow, reqs[n - 1].now, idle);
    assert slow !in states[n].shards[home];
    assert Turn(hash, states[n], states[n + 1], reqs[n], answers[n]);
  }

  /** The unbounded limiter remembers, and denies. */
  lemma {:induction false} IdealRemembers(reqs: seq<Request>, slow: Key, quick: Key, windowSec: int, idle: int, n: nat)
    requires Fails(reqs, slow, quick, windowSec, idle) && slow != quick && windowSec > 0 && idle > 0
    requires 0 < n <= CLEANUP_EVERY
    ensures var m := IdealAll(map[], reqs[..n]).0; slow in m && m[slow] == Bucket(0.0, 0, 0)
  {
    IdealLast(map[], reqs[..n]);
    assert reqs[..n][..n - 1] == reqs[..n - 1];
    if n == 1 { assert reqs[..0] == []; } else { IdealRemembers(reqs, slow, quick, windowSec, idle, n - 1); }
  }

  lemma IdealDenies(reqs: seq<Request>, slow: Key, quick: Key, windowSec: int, idle: int)
    requires Fails(reqs, slow, quick, windowSec, idle) && slow != quick && 0 < 2 * idle < windowSec
    ensures |IdealAll(map[], reqs).1| == |reqs| && !IdealAll(map[], reqs).1[CLEANUP_EVERY]
  {
    IdealRemembers(reqs, slow, quick, windowSec, idle, CLEANUP_EVERY);
    IdealLast(map[], reqs);
    JustIdle(windowSec, idle);
  }

  /** Two requests that were granted count as two. */
  lemma {:induction false} GrantedBoth(reqs: seq<Request>, answers: seq<bool>, key: Key, i: nat, j: nat)
    requires |answers| == |reqs| && i < j < |reqs| && reqs[i].key == reqs[j].key == key && answers[i] && answers[j]
    ensures Granted(reqs, answers, key) >= 2
  {
    var n := |reqs| - 1;
    GrantedLast(reqs, answers, key);
    if j < n { GrantedBoth(reqs[..n], answers[..n], key, i, j); } else { GrantedOne(reqs[..n], answers[..n], key, i); }
  }

  lemma {:induction false} GrantedOne(reqs: seq<Request>, answers: seq<bool>, key: Key, i: nat)
    requires |answers| == |reqs| && i < |reqs| && reqs[i].key == key && answers[i]
    ensures Granted(reqs, answers, key) >= 1
  {
    var n := |reqs| - 1;
    GrantedLast(reqs, answers, key);
    if i < n { GrantedOne(reqs[..n], answers[..n], key, i); }
  }

  /** If the window of one key is over twice that of another in the same shard, the other's cleanup forgets the key's
      empty bucket too soon: in this run of 1025 requests it is granted more than its rate, and the unbounded limiter
      answers otherwise. */
  lemma ForgetsTooSoon(hash: Key -> nat, start: State, slow: Key, quick: Key, windowSec: int, idle: int)
    returns (reqs: seq<Request>)
    requires Blank(start) && slow != quick && Home(hash, slow) == Home(hash, quick) && 0 < 2 * idle < windowSec
    ensures |reqs| == CLEANUP_EVERY + 1 && Modest(reqs, 2000 * idle + 1, idle, windowSec)
    ensures forall r :: r in reqs && r.key == slow ==> r.capacity == 1 && r.windowSec == windowSec
    ensures var answers := Served(hash, start, reqs).1;
      && Granted(reqs, answers, slow) as real > Allowance(1, windowSec, 0, 2000 * idle + 1)
      && answers != IdealAll(map[], reqs).1
  {
    reqs := FailingRun(slow, quick, windowSec, idle);
    assert Fails(reqs, slow, quick, windowSec, idle);
    FailingRunIsProper(reqs, slow, quick, windowSec, idle);
    BlankIsGood(hash, start, 0);
    var states := ServedIsService(hash, start, reqs, 0, 2000 * idle + 1);
    var answers := Served(hash, start, reqs).1;
    FewKeysFit(hash, states, reqs, answers);
    SlowIsForgotten(hash, states, reqs, answers, slow, quick, windowSec, idle);
    GrantedBoth(reqs, answers, slow, 0, CLEANUP_EVERY);
    IdealDenies(reqs, slow, quick, windowSec, idle);
    JustIdle(windowSec, idle);
  }

  predicate AnswersIdeally(hash: Key -> nat, start: State, reqs: seq<Request>)
    requires Blank(start)
  {
    Served(hash, start, reqs).1 == IdealAll(map[], reqs).1
  }

  /** A run from time 0 with these windows, and no more keys than buckets. */
  predicate Modest(reqs: seq<Request>, t1: int, idle: int, windowSec: int) {
    Timed(reqs, 0, t1) && UsesWindows(reqs, idle, windowSec) && |KeysOf(reqs)| <= MAX_BUCKETS
  }

  ghost predicate AlwaysIdeal(hash: Key -> nat, start: State, idle: int, windowSec: int)
    requires Blank(start)
  {
    forall reqs, t1 :: Modest(reqs, t1, idle, windowSec) ==> AnswersIdeally(hash, start, reqs)
  }

  /** For two windows in use, and wherever two keys share a shard, all such runs are answered as by the unbounded
      limiter if and only if the longer is at most twice the shorter. */
  lemma FactorOfTwoIsExact(hash: Key -> nat, start: State, slow: Key, quick: Key, idle: int, windowSec: int)
    requires Blank(start) && 0 < idle <= windowSec && slow != quick && Home(hash, slow) == Home(hash, quick)
    ensures windowSec <= 2 * idle <==> AlwaysIdeal(hash, start, idle, windowSec)
  {
    if windowSec <= 2 * idle {
      forall reqs, t1 | Modest(reqs, t1, idle, windowSec)
        ensures AnswersIdeally(hash, start, reqs)
      {
        FewKeysAnswerIdeally(hash, start, reqs, idle, 0, t1);
      }
    } else {
      var reqs := ForgetsTooSoon(hash, start, slow, quick, windowSec, idle);
      assert !AnswersIdeally(hash, start, reqs);
    }
  }
}
