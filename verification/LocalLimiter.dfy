/** The constants of the in-process limiter (common/utils/local_rate_limiter.hpp:33, 86-88). */
module ShardLimits {
  const SHARDS: nat := 64
  const MAX_BUCKETS: nat := 65536
  const RECLAIM_SCAN: nat := 8
  const CLEANUP_EVERY: nat := 1024
}

/** The in-process fallback limiter (common/utils/local_rate_limiter.hpp):
    sharded buckets with idle cleanup and a hard bucket limit, against an
    unbounded map that never forgets a key.  Doubles are reals here and each
    call is one step; LimiterRuns has the runs. */
module LocalLimiter {
  import opened ShardLimits

  type Key = string

  /** A token bucket; a fresh one has refill == seen. */
  datatype Bucket = Bucket(tokens: real, refill: int, seen: int)

  type Shards = seq<map<Key, Bucket>>

  function RealMin(a: real, b: real): real {
    if a < b then a else b
  }

  /** Tokens accrued in `elapsed` milliseconds. */
  function Accrued(elapsed: int, capacity: int, windowSec: int): real
    requires windowSec > 0
  {
    elapsed as real * capacity as real / (windowSec as real * 1000.0)
  }

  function Topped(b: Bucket, capacity: int, windowSec: int, now: int): real
    requires windowSec > 0
  {
    var elapsed := if now > b.refill then now - b.refill else 0;
    RealMin(capacity as real, b.tokens + Accrued(elapsed, capacity, windowSec))
  }

  /** consume_ */
  function Consume(b: Bucket, capacity: int, windowSec: int, now: int): (Bucket, bool)
    requires windowSec > 0
  {
    var tokens := Topped(b, capacity, windowSec, now);
    if tokens < 1.0 then (Bucket(tokens, now, now), false) else (Bucket(tokens - 1.0, now, now), true)
  }

  /** The unbounded limiter: a map that keeps every key for ever. */
  function Ideal(m: map<Key, Bucket>, r: Request): (map<Key, Bucket>, bool) {
    if !Counts(r) then (m, true)
    else if r.key !in m then (m[r.key := Bucket(r.capacity as real - 1.0, r.now, r.now)], true)
    else
      var (b, ok) := Consume(m[r.key], r.capacity, r.windowSec, r.now);
      (m[r.key := b], ok)
  }

  predicate IdleAt(b: Bucket, now: int, windowSec: int) {
    now > b.seen && now - b.seen > windowSec * 2000
  }

  /** What cleanup_ leaves of a shard. */
  function Kept(m: map<Key, Bucket>, now: int, windowSec: int): map<Key, Bucket> {
    map k | k in m && !IdleAt(m[k], now, windowSec) :: m[k]
  }

  function Total(shards: Shards): nat {
    if shards == [] then 0 else Total(shards[..|shards| - 1]) + |shards[|shards| - 1]|
  }

  lemma {:induction false} TotalUpdate(shards: Shards, i: nat, m: map<Key, Bucket>)
    requires i < |shards|
    ensures Total(shards[i := m]) + |shards[i]| == Total(shards) + |m|
  {
    var n := |shards| - 1;
    if i == n {
      assert shards[i := m][..n] == shards[..n];
    } else {
      assert shards[i := m][..n] == shards[..n][i := m];
      TotalUpdate(shards[..n], i, m);
    }
  }

  /** A bucket of window `windowSec` that is idle for a window of at least half that tops up to the full capacity, so
      dropping it loses nothing. */
  lemma IdleIsFull(b: Bucket, capacity: int, windowSec: int, idle: int, now: int)
    requires capacity > 0 && 0 < windowSec <= 2 * idle && b.tokens >= 0.0 && b.refill == b.seen && IdleAt(b, now, idle)
    ensures Topped(b, capacity, windowSec, now) == capacity as real
    ensures Consume(b, capacity, windowSec, now) == (Bucket(capacity as real - 1.0, now, now), true)
  {
    var w, c, e := windowSec as real * 1000.0, capacity as real, (now - b.seen) as real;
    assert e >= w;
    assert e * c >= w * c;
    QuotientAtLeast(e * c, c, w);
  }

  lemma QuotientAtLeast(x: real, c: real, w: real)
    requires w > 0.0 && x >= w * c
    ensures x / w >= c
  {
    var q := x / w;
    assert q * w == x;
    if q < c { assert q * w < c * w; }
  }

  /** Forgetting a bucket of one window as idle for another is harmless, whatever it holds and whenever it happens, if
      and only if the one is at most twice the other. */
  lemma ForgettingIsHarmlessExactly(windowSec: int, idle: int)
    requires windowSec > 0 && idle > 0
    ensures windowSec <= 2 * idle <==>
      forall b, capacity, now :: capacity > 0 && BucketSane(b, now) && IdleAt(b, now, idle) ==>
        Topped(b, capacity, windowSec, now) == capacity as real
  {
    if windowSec <= 2 * idle {
      forall b, capacity, now | capacity > 0 && BucketSane(b, now) && IdleAt(b, now, idle)
        ensures Topped(b, capacity, windowSec, now) == capacity as real
      {
        IdleIsFull(b, capacity, windowSec, idle, now);
      }
    } else {
      var b, now := Bucket(0.0, 0, 0), 2000 * idle + 1;
      JustIdle(windowSec, idle);
      assert BucketSane(b, now) && IdleAt(b, now, idle);
      assert Topped(b, 1, windowSec, now) != 1 as real;
    }
  }

  /** Just idle for one window, an empty bucket of a window over twice as long has not filled up. */
  lemma JustIdle(windowSec: int, idle: int)
    requires 0 < 2 * idle < windowSec
    ensures Accrued(2000 * idle + 1, 1, windowSec) < 1.0
  {
    var w, e := windowSec as real * 1000.0, (2000 * idle + 1) as real;
    QuotientBelow(e, w);
    assert e * 1.0 == e;
  }

  lemma QuotientBelow(x: real, w: real)
    requires 0.0 < w && x < w
    ensures x / w < 1.0
  {
    FactorBelow(x / w, w);
  }

  lemma FactorBelow(q: real, w: real)
    requires 0.0 < w && q * w < w
    ensures q < 1.0
  {
  }

  function Home(hash: Key -> nat, key: Key): nat {
    hash(key) % SHARDS
  }

  /** Shards are disjoint by hash. */
  ghost predicate Sharded(hash: Key -> nat, shards: Shards) {
    |shards| == SHARDS && forall i, k :: 0 <= i < |shards| && k in shards[i] ==> i == Home(hash, k)
  }

  /** The two limiters hold the same bucket for key `k`, or the sharded one dropped it as idle. */
  predicate Agrees(m: map<Key, Bucket>, ideal: map<Key, Bucket>, k: Key, clock: int, window: int) {
    if k in m then k in ideal && m[k] == ideal[k] else k in ideal ==> IdleAt(ideal[k], clock, window)
  }

  ghost predicate Simulates(hash: Key -> nat, shards: Shards, ideal: map<Key, Bucket>, clock: int, window: int)
    requires |shards| == SHARDS
  {
    && (forall k :: k in ideal ==> ideal[k].tokens >= 0.0 && ideal[k].refill == ideal[k].seen <= clock)
    && (forall k :: Agrees(shards[Home(hash, k)], ideal, k, clock, window))
  }

  function Put(hash: Key -> nat, shards: Shards, key: Key, b: Bucket): Shards
    requires |shards| == SHARDS
  {
    shards[Home(hash, key) := shards[Home(hash, key)][key := b]]
  }

  lemma PutTotal(hash: Key -> nat, shards: Shards, key: Key, b: Bucket)
    requires Sharded(hash, shards)
    ensures Sharded(hash, Put(hash, shards, key, b))
    ensures Total(Put(hash, shards, key, b)) == Total(shards) + (if key in shards[Home(hash, key)] then 0 else 1)
  {
    var m := shards[Home(hash, key)];
    TotalUpdate(shards, Home(hash, key), m[key := b]);
    assert m[key := b].Keys == m.Keys + {key};
  }

  datatype Request = Request(key: Key, capacity: int, windowSec: int, now: int)

  /** The request is one the limiter acts on. */
  predicate Counts(r: Request) {
    r.capacity > 0 && r.windowSec > 0
  }

  // ----- The limiter -----

  datatype State = State(shards: Shards, count: int, operations: nat, cursor: nat)

  /** A limiter that nobody has asked. */
  predicate Blank(s: State) {
    |s.shards| == SHARDS && (forall i :: 0 <= i < SHARDS ==> s.shards[i] == map[]) && s.count == s.operations == 0
  }

  datatype Room = Present | Reserved | Full

  /** cleanup_ */
  function Cleaned(s: State, i: nat, now: int, windowSec: int): (r: State)
    requires i < |s.shards|
    ensures |r.shards| == |s.shards|
  {
    var kept := Kept(s.shards[i], now, windowSec);
    s.(shards := s.shards[i := kept], count := s.count - (|s.shards[i]| - |kept|))
  }

  /** One round of reclaim_idle_bounded_, and whether it ends the loop. */
  function ReclaimRound(s: State, target: nat, index: nat, now: int, windowSec: int): (r: (State, bool))
    requires |s.shards| == SHARDS
    ensures |r.0.shards| == SHARDS
  {
    if index % SHARDS == target then (s, false)
    else
      var c := Cleaned(s, index % SHARDS, now, windowSec);
      (c, c.count < MAX_BUCKETS)
  }

  /** The rounds from shard `index` up to `end`. */
  function ReclaimedFrom(s: State, target: nat, index: nat, end: nat, now: int, windowSec: int): (r: State)
    requires |s.shards| == SHARDS
    ensures |r.shards| == SHARDS
    decreases end - index
  {
    if index >= end then s
    else
      var (c, done) := ReclaimRound(s, target, index, now, windowSec);
      if done then c else ReclaimedFrom(c, target, index + 1, end, now, windowSec)
  }

  /** reclaim_idle_bounded_ */
  function Reclaimed(s: State, target: nat, now: int, windowSec: int): (r: State)
    requires |s.shards| == SHARDS
    ensures |r.shards| == SHARDS
  {
    var end := s.cursor + RECLAIM_SCAN;
    ReclaimedFrom(s.(cursor := end), target, s.cursor, end, now, windowSec)
  }

  /** reserve_bucket_, uncontended; the counter is raised where there is room. */
  function Reserve(s: State): (State, bool) {
    if s.count < MAX_BUCKETS then (s.(count := s.count + 1), true) else (s, false)
  }

  /** The key has no bucket: reserve one, cleaning its shard and then others if the limit is reached. */
  function RoomMade(s: State, home: nat, key: Key, now: int, windowSec: int): (r: (State, Room))
    requires |s.shards| == SHARDS && home < SHARDS
    ensures |r.0.shards| == SHARDS
  {
    if Reserve(s).1 then (Reserve(s).0, Reserved)
    else
      var c := Cleaned(s, home, now, windowSec);
      if Reserve(c).1 then (Reserve(c).0, Reserved)
      else
        var d := Reclaimed(c, home, now, windowSec);
        if key in d.shards[home] then (d, Present)
        else if Reserve(d).1 then (Reserve(d).0, Reserved)
        else (d, Full)
  }

  /** Consume from the key's bucket, or insert one with a token taken. */
  function Stored(hash: Key -> nat, s: State, r: Request): (res: (State, bool))
    requires |s.shards| == SHARDS && Counts(r)
    ensures |res.0.shards| == SHARDS
  {
    var m := s.shards[Home(hash, r.key)];
    var (b, ok) := if r.key in m then Consume(m[r.key], r.capacity, r.windowSec, r.now)
                   else (Bucket(r.capacity as real - 1.0, r.now, r.now), true);
    (s.(shards := Put(hash, s.shards, r.key, b)), ok)
  }

  /** The count of operations, and the cleanup at every 1024th. */
  function Begun(hash: Key -> nat, s: State, r: Request): (res: State)
    requires |s.shards| == SHARDS
    ensures |res.shards| == SHARDS
  {
    var s' := s.(operations := s.operations + 1);
    if s'.operations % CLEANUP_EVERY == 0 then Cleaned(s', Home(hash, r.key), r.now, r.windowSec) else s'
  }

  /** allow */
  function Call(hash: Key -> nat, s: State, r: Request): (res: (State, bool))
    requires |s.shards| == SHARDS
    ensures |res.0.shards| == SHARDS
  {
    if !Counts(r) then (s, true)
    else
      var b, home := Begun(hash, s, r), Home(hash, r.key);
      var (m, room) := if r.key in b.shards[home] then (b, Present) else RoomMade(b, home, r.key, r.now, r.windowSec);
      if room.Full? then (m, false) else Stored(hash, m, r)
  }

  /** The requests answered in order. */
  function Served(hash: Key -> nat, s: State, reqs: seq<Request>): (res: (State, seq<bool>))
    requires |s.shards| == SHARDS
    ensures |res.0.shards| == SHARDS && |res.1| == |reqs|
  {
    if reqs == [] then (s, [])
    else
      var n := |reqs| - 1;
      var (before, answers) := Served(hash, s, reqs[..n]);
      var (after, ok) := Call(hash, before, reqs[n]);
      (after, answers + [ok])
  }

  class LocalRateLimiter {
    const hash: Key -> nat
    var shards: Shards
    var count: int
    var operations: nat
    var cursor: nat

    function View(): State
      reads this
    {
      State(shards, count, operations, cursor)
    }

    constructor (hash: Key -> nat)
      ensures Blank(View()) && this.hash == hash
    {
      this.hash := hash;
      shards := seq(SHARDS, i => map[]);
      count, operations, cursor := 0, 0, 0;
    }

    /** The erase loop of cleanup_, which visits the buckets in any order. */
    static method Sweep(m: map<Key, Bucket>, now: int, windowSec: int) returns (kept: map<Key, Bucket>, removed: nat)
      ensures kept == Kept(m, now, windowSec) && removed == |m| - |kept|
    {
      var todo := m.Keys;
      kept, removed := m, 0;
      while todo != {}
        invariant todo <= kept.Keys <= m.Keys && removed == |m| - |kept|
        invariant forall k :: k in kept ==> kept[k] == m[k]
        invariant forall k :: k in m && k !in todo ==> (k in kept <==> !IdleAt(m[k], now, windowSec))
        decreases todo
      {
        var k :| k in todo;
        todo := todo - {k};
        if IdleAt(kept[k], now, windowSec) {
          ghost var before := kept;
          kept := kept - {k};
          assert before.Keys == kept.Keys + {k};
          removed := removed + 1;
        }
      }
    }

    method Cleanup(i: nat, now: int, windowSec: int)
      requires i < |shards|
      modifies this`shards, this`count
      ensures View() == Cleaned(old(View()), i, now, windowSec)
    {
      var m, removed := Sweep(shards[i], now, windowSec);
      shards := shards[i := m];
      if removed != 0 { count := count - removed; }
    }

    method ReserveBucket() returns (ok: bool)
      modifies this`count
      ensures (View(), ok) == Reserve(old(View()))
    {
      ok := count < MAX_BUCKETS;
      if ok { count := count + 1; }
    }

    method ReclaimIdleBounded(target: nat, now: int, windowSec: int)
      requires |shards| == SHARDS
      modifies this`shards, this`count, this`cursor
      ensures View() == Reclaimed(old(View()), target, now, windowSec)
    {
      var start := cursor;
      cursor := cursor + RECLAIM_SCAN;
      ghost var end := ReclaimedFrom(View(), target, start, cursor, now, windowSec);
      for offset := 0 to RECLAIM_SCAN
        invariant |shards| == SHARDS && cursor == start + RECLAIM_SCAN
        invariant ReclaimedFrom(View(), target, start + offset, cursor, now, windowSec) == end
      {
        var index := (start + offset) % SHARDS;
        if index != target {
          Cleanup(index, now, windowSec);
          if count < MAX_BUCKETS { return; }
        }
      }
    }

    method MakeRoom(key: Key, now: int, windowSec: int) returns (room: Room)
      requires |shards| == SHARDS
      modifies this`shards, this`count, this`cursor
      ensures (View(), room) == RoomMade(old(View()), Home(hash, key), key, now, windowSec)
    {
      var home := Home(hash, key);
      var reserved := ReserveBucket();
      if reserved { return Reserved; }
      Cleanup(home, now, windowSec);
      reserved := ReserveBucket();
      if reserved { return Reserved; }
      ReclaimIdleBounded(home, now, windowSec);
      if key in shards[home] { return Present; }
      reserved := ReserveBucket();
      room := if reserved then Reserved else Full;
    }

    method Allow(key: Key, capacity: int, windowSec: int, now: int) returns (ok: bool)
      requires |shards| == SHARDS
      modifies this
      ensures (View(), ok) == Call(hash, old(View()), Request(key, capacity, windowSec, now))
    {
      if capacity <= 0 || windowSec <= 0 { return true; }
      operations := operations + 1;
      if operations % CLEANUP_EVERY == 0 { Cleanup(Home(hash, key), now, windowSec); }
      var room := Present;
      if key !in shards[Home(hash, key)] { room := MakeRoom(key, now, windowSec); }
      if room.Full? { return false; }
      ok := Store(key, capacity, windowSec, now);
    }

    /** consume_ on the key's bucket, or the insertion of a fresh one. */
    method Store(key: Key, capacity: int, windowSec: int, now: int) returns (ok: bool)
      requires |shards| == SHARDS && capacity > 0 && windowSec > 0
      modifies this`shards
      ensures (View(), ok) == Stored(hash, old(View()), Request(key, capacity, windowSec, now))
    {
      var home := Home(hash, key);
      var b := Bucket(capacity as real - 1.0, now, now);
      ok := true;
      if key in shards[home] {
        var (left, granted) := Consume(shards[home][key], capacity, windowSec, now);
        b, ok := left, granted;
      }
      shards := shards[home := shards[home][key := b]];
    }
  }

  // ----- What a call does to a key -----

  /** The bucket of `k` stays as it is, or goes because it is idle. */
  predicate KeptOrIdle(m: map<Key, Bucket>, m': map<Key, Bucket>, k: Key, now: int, windowSec: int) {
    && (k in m' ==> k in m && m'[k] == m[k])
    && (k in m && k !in m' ==> IdleAt(m[k], now, windowSec))
  }

  ghost predicate Trimmed(hash: Key -> nat, shards: Shards, shards': Shards, now: int, windowSec: int)
    requires |shards| == |shards'| == SHARDS
  {
    forall k :: KeptOrIdle(shards[Home(hash, k)], shards'[Home(hash, k)], k, now, windowSec)
  }

  lemma TrimmedTwice(hash: Key -> nat, a: Shards, b: Shards, c: Shards, now: int, windowSec: int)
    requires |a| == |b| == |c| == SHARDS && Trimmed(hash, a, b, now, windowSec) && Trimmed(hash, b, c, now, windowSec)
    ensures Trimmed(hash, a, c, now, windowSec)
  {
    forall k
      ensures KeptOrIdle(a[Home(hash, k)], c[Home(hash, k)], k, now, windowSec)
    {
      assert KeptOrIdle(a[Home(hash, k)], b[Home(hash, k)], k, now, windowSec);
      assert KeptOrIdle(b[Home(hash, k)], c[Home(hash, k)], k, now, windowSec);
    }
  }

  lemma CleanupTrims(hash: Key -> nat, shards: Shards, i: nat, now: int, windowSec: int)
    requires i < |shards| == SHARDS
    ensures Trimmed(hash, shards, shards[i := Kept(shards[i], now, windowSec)], now, windowSec)
  {
  }

  /** The asking key consumes from its bucket or gets a fresh one; without a bucket afterwards it was turned away. */
  predicate KeyServed(m: map<Key, Bucket>, m': map<Key, Bucket>, r: Request, ok: bool)
    requires Counts(r)
  {
    if r.key !in m' then !ok && (r.key in m ==> IdleAt(m[r.key], r.now, r.windowSec))
    else if r.key in m then Consume(m[r.key], r.capacity, r.windowSec, r.now) == (m'[r.key], ok)
    else ok && m'[r.key] == Bucket(r.capacity as real - 1.0, r.now, r.now)
  }

  /** One answered request: its key is served, or turned away with the buckets at their limit; the buckets of other keys
      stay or go as idle. */
  ghost predicate Answered(hash: Key -> nat, shards: Shards, shards': Shards, r: Request, ok: bool)
    requires |shards| == |shards'| == SHARDS
  {
    if !Counts(r) then ok && shards' == shards
    else
      && KeyServed(shards[Home(hash, r.key)], shards'[Home(hash, r.key)], r, ok)
      && (r.key !in shards'[Home(hash, r.key)] ==> Total(shards') == MAX_BUCKETS)
      && (forall k :: k != r.key ==> KeptOrIdle(shards[Home(hash, k)], shards'[Home(hash, k)], k, r.now, r.windowSec))
  }

  /** After trimming, the key's bucket is written. */
  lemma PutServes(hash: Key -> nat, shards: Shards, trimmed: Shards, r: Request, b: Bucket, ok: bool)
    requires |shards| == |trimmed| == SHARDS && Counts(r)
    requires Trimmed(hash, shards, trimmed, r.now, r.windowSec) && Sane(shards, r.now)
    requires var m := trimmed[Home(hash, r.key)];
      (b, ok) == if r.key in m then Consume(m[r.key], r.capacity, r.windowSec, r.now)
                 else (Bucket(r.capacity as real - 1.0, r.now, r.now), true)
    ensures Answered(hash, shards, Put(hash, trimmed, r.key, b), r, ok)
  {
    var shards' := Put(hash, trimmed, r.key, b);
    var home := Home(hash, r.key);
    assert KeptOrIdle(shards[home], trimmed[home], r.key, r.now, r.windowSec);
    if r.key in shards[home] && r.key !in trimmed[home] {
      IdleIsFull(shards[home][r.key], r.capacity, r.windowSec, r.windowSec, r.now);
    }
    forall k | k != r.key
      ensures KeptOrIdle(shards[Home(hash, k)], shards'[Home(hash, k)], k, r.now, r.windowSec)
    {
      assert KeptOrIdle(shards[Home(hash, k)], trimmed[Home(hash, k)], k, r.now, r.windowSec);
    }
  }

  lemma TurnedAway(hash: Key -> nat, shards: Shards, trimmed: Shards, r: Request)
    requires |shards| == |trimmed| == SHARDS && Counts(r)
    requires Trimmed(hash, shards, trimmed, r.now, r.windowSec) && r.key !in trimmed[Home(hash, r.key)]
    requires Total(trimmed) == MAX_BUCKETS
    ensures Answered(hash, shards, trimmed, r, false)
  {
    assert KeptOrIdle(shards[Home(hash, r.key)], trimmed[Home(hash, r.key)], r.key, r.now, r.windowSec);
  }

  predicate BucketSane(b: Bucket, clock: int) {
    b.tokens >= 0.0 && b.refill == b.seen <= clock
  }

  predicate Sane(shards: Shards, clock: int) {
    forall i, k :: 0 <= i < |shards| && k in shards[i] ==> BucketSane(shards[i][k], clock)
  }

  lemma AnsweredIsSane(hash: Key -> nat, shards: Shards, shards': Shards, r: Request, ok: bool, clock: int)
    requires Sharded(hash, shards) && Sharded(hash, shards') && clock <= r.now && Sane(shards, clock)
    requires Answered(hash, shards, shards', r, ok)
    ensures Sane(shards', r.now)
  {
    forall i, k | 0 <= i < |shards'| && k in shards'[i]
      ensures BucketSane(shards'[i][k], r.now)
    {
      assert i == Home(hash, k);
      if Counts(r) && k == r.key && k in shards[i] { ConsumeSane(shards[i][k], r.capacity, r.windowSec, r.now); }
    }
  }

  /** With windows from `window` to twice that, an answer that turns nobody away is that of the unbounded limiter, and
      keeps the two in step. */
  lemma AnsweredSimulates(hash: Key -> nat, shards: Shards, shards': Shards, ideal: map<Key, Bucket>, r: Request,
                          window: int, ok: bool)
    requires |shards| == |shards'| == SHARDS && r.capacity > 0 && 0 < window <= r.windowSec <= 2 * window
    requires Simulates(hash, shards, ideal, r.now, window) && Answered(hash, shards, shards', r, ok)
    requires r.key in shards'[Home(hash, r.key)]
    ensures Ideal(ideal, r) == (ideal[r.key := shards'[Home(hash, r.key)][r.key]], ok)
    ensures Simulates(hash, shards', ideal[r.key := shards'[Home(hash, r.key)][r.key]], r.now, window)
  {
    var home := Home(hash, r.key);
    assert Agrees(shards[home], ideal, r.key, r.now, window);
    if r.key in ideal {
      ConsumeSane(ideal[r.key], r.capacity, r.windowSec, r.now);
      if r.key !in shards[home] { IdleIsFull(ideal[r.key], r.capacity, r.windowSec, window, r.now); }
    }
    forall k
      ensures Agrees(shards'[Home(hash, k)], ideal[r.key := shards'[home][r.key]], k, r.now, window)
    {
      assert Agrees(shards[Home(hash, k)], ideal, k, r.now, window);
      assert k != r.key ==> KeptOrIdle(shards[Home(hash, k)], shards'[Home(hash, k)], k, r.now, r.windowSec);
    }
  }

  lemma LaterSimulates(hash: Key -> nat, shards: Shards, ideal: map<Key, Bucket>, clock: int, now: int, window: int)
    requires |shards| == SHARDS && Simulates(hash, shards, ideal, clock, window) && clock <= now
    ensures Simulates(hash, shards, ideal, now, window)
  {
    forall k
      ensures Agrees(shards[Home(hash, k)], ideal, k, now, window)
    {
      assert Agrees(shards[Home(hash, k)], ideal, k, clock, window);
    }
  }

  lemma ConsumeSane(b: Bucket, capacity: int, windowSec: int, now: int)
    requires capacity > 0 && windowSec > 0 && b.tokens >= 0.0
    ensures var b' := Consume(b, capacity, windowSec, now).0; b'.tokens >= 0.0 && b'.refill == b'.seen == now
  {
    var elapsed := if now > b.refill then now - b.refill else 0;
    AccruedNonNegative(elapsed, capacity, windowSec);
  }

  lemma AccruedNonNegative(elapsed: int, capacity: int, windowSec: int)
    requires elapsed >= 0 && capacity > 0 && windowSec > 0
    ensures Accrued(elapsed, capacity, windowSec) >= 0.0
  {
    assert elapsed as real * capacity as real >= 0.0;
  }

  lemma {:induction false} NothingStored(shards: Shards)
    requires forall i :: 0 <= i < |shards| ==> shards[i] == map[]
    ensures Total(shards) == 0
  {
    if shards != [] { NothingStored(shards[..|shards| - 1]); }
  }

  // ----- Reclaiming -----

  /** `i` is among the `n` shards from `start` on. */
  predicate InScan(i: nat, start: nat, n: nat) {
    n > 0 && (InScan(i, start, n - 1) || (start + n - 1) % SHARDS == i)
  }

  /** The first `n` shards from `start` on are cleaned, except the target; no other is touched. */
  predicate Scanned(shards: Shards, shards': Shards, start: nat, n: nat, target: nat, now: int, windowSec: int) {
    |shards| == |shards'| == SHARDS &&
    forall i :: 0 <= i < SHARDS ==>
      shards'[i] == if i != target && InScan(i, start, n) then Kept(shards[i], now, windowSec) else shards[i]
  }

  lemma ScanOneMore(shards: Shards, before: Shards, after: Shards, start: nat, n: nat, target: nat, now: int,
                    windowSec: int)
    requires Scanned(shards, before, start, n, target, now, windowSec)
    requires var i := (start + n) % SHARDS;
      after == if i == target then before else before[i := Kept(before[i], now, windowSec)]
    ensures Scanned(shards, after, start, n + 1, target, now, windowSec)
  {
    var i := (start + n) % SHARDS;
    assert Kept(Kept(shards[i], now, windowSec), now, windowSec) == Kept(shards[i], now, windowSec);
  }

  lemma RoundScans(s0: State, s: State, target: nat, start: nat, n: nat, now: int, windowSec: int)
    requires Scanned(s0.shards, s.shards, start, n, target, now, windowSec)
    ensures var (c, done) := ReclaimRound(s, target, start + n, now, windowSec);
      Scanned(s0.shards, c.shards, start, n + 1, target, now, windowSec) && (done ==> c.count < MAX_BUCKETS)
  {
    var c := ReclaimRound(s, target, start + n, now, windowSec).0;
    ScanOneMore(s0.shards, s.shards, c.shards, start, n, target, now, windowSec);
  }

  lemma {:induction false} ReclaimScans(s0: State, s: State, target: nat, start: nat, n: nat, end: nat, now: int,
                                        windowSec: int) returns (m: nat)
    requires Scanned(s0.shards, s.shards, start, n, target, now, windowSec) && start + n <= end
    ensures var r := ReclaimedFrom(s, target, start + n, end, now, windowSec);
      && start + m <= end && Scanned(s0.shards, r.shards, start, m, target, now, windowSec)
      && (start + m < end ==> r.count < MAX_BUCKETS) && r.cursor == s.cursor
    decreases end - n
  {
    m := n;
    if start + n < end {
      var (c, done) := ReclaimRound(s, target, start + n, now, windowSec);
      RoundScans(s0, s, target, start, n, now, windowSec);
      if done {
        m := n + 1;
      } else {
        m := ReclaimScans(s0, c, target, start, n + 1, end, now, windowSec);
      }
    }
  }

  /** Cleaning goes round the next shards in turn except the target: eight of them, or fewer if that made room. */
  lemma ReclaimedScans(s: State, target: nat, now: int, windowSec: int) returns (m: nat)
    requires |s.shards| == SHARDS
    ensures var r := Reclaimed(s, target, now, windowSec);
      && m <= 8 && Scanned(s.shards, r.shards, s.cursor, m, target, now, windowSec)
      && (m < 8 ==> r.count < 65536) && r.cursor == s.cursor + 8
  {
    var end := s.cursor + RECLAIM_SCAN;
    m := ReclaimScans(s, s.(cursor := end), target, s.cursor, 0, end, now, windowSec);
  }

  // ----- What the state keeps -----

  /** With `pending` buckets reserved and not yet inserted. */
  ghost predicate Booked(hash: Key -> nat, s: State, pending: nat) {
    Sharded(hash, s.shards) && s.count == Total(s.shards) + pending <= MAX_BUCKETS
  }

  /** A state the limiter may be in at time `clock`. */
  ghost predicate Good(hash: Key -> nat, s: State, clock: int) {
    Booked(hash, s, 0) && Sane(s.shards, clock)
  }

  lemma BlankIsGood(hash: Key -> nat, s: State, clock: int)
    requires Blank(s)
    ensures Good(hash, s, clock)
  {
    NothingStored(s.shards);
  }

  /** From `s` to `r` only idle buckets went, and the counter with them. */
  ghost predicate Shrunk(hash: Key -> nat, s: State, r: State, now: int, windowSec: int)
    requires |s.shards| == |r.shards| == SHARDS
  {
    Booked(hash, r, 0) && r.count <= s.count && Trimmed(hash, s.shards, r.shards, now, windowSec)
  }

  lemma ShrunkTwice(hash: Key -> nat, a: State, b: State, c: State, now: int, windowSec: int)
    requires |a.shards| == |b.shards| == |c.shards| == SHARDS
    requires Shrunk(hash, a, b, now, windowSec) && Shrunk(hash, b, c, now, windowSec)
    ensures Shrunk(hash, a, c, now, windowSec)
  {
    TrimmedTwice(hash, a.shards, b.shards, c.shards, now, windowSec);
  }

  lemma CleanedShrinks(hash: Key -> nat, s: State, i: nat, now: int, windowSec: int)
    requires Booked(hash, s, 0) && i < SHARDS
    ensures Shrunk(hash, s, Cleaned(s, i, now, windowSec), now, windowSec)
  {
    var kept := Kept(s.shards[i], now, windowSec);
    TotalUpdate(s.shards, i, kept);
    CleanupTrims(hash, s.shards, i, now, windowSec);
    FewerKeys(kept.Keys, s.shards[i].Keys);
  }

  lemma {:induction false} FewerKeys(a: set<Key>, b: set<Key>)
    requires a <= b
    ensures |a| <= |b|
  {
    if a != {} {
      var x :| x in a;
      FewerKeys(a - {x}, b - {x});
    }
  }

  lemma RoundShrinks(hash: Key -> nat, s: State, target: nat, index: nat, now: int, windowSec: int)
    requires Booked(hash, s, 0)
    ensures Shrunk(hash, s, ReclaimRound(s, target, index, now, windowSec).0, now, windowSec)
  {
    if index % SHARDS != target { CleanedShrinks(hash, s, index % SHARDS, now, windowSec); }
  }

  lemma {:induction false} ReclaimingShrinks(hash: Key -> nat, s: State, target: nat, index: nat, end: nat, now: int,
                                             windowSec: int)
    requires Booked(hash, s, 0)
    ensures Shrunk(hash, s, ReclaimedFrom(s, target, index, end, now, windowSec), now, windowSec)
    decreases end - index
  {
    if index < end {
      var (c, done) := ReclaimRound(s, target, index, now, windowSec);
      RoundShrinks(hash, s, target, index, now, windowSec);
      if !done {
        ReclaimingShrinks(hash, c, target, index + 1, end, now, windowSec);
        ShrunkTwice(hash, s, c, ReclaimedFrom(c, target, index + 1, end, now, windowSec), now, windowSec);
      }
    }
  }

  lemma ReclaimedToShrinks(hash: Key -> nat, s: State, target: nat, end: nat, now: int, windowSec: int)
    requires Booked(hash, s, 0)
    ensures Shrunk(hash, s, ReclaimedFrom(s.(cursor := end), target, s.cursor, end, now, windowSec), now, windowSec)
  {
    ReclaimingShrinks(hash, s.(cursor := end), target, s.cursor, end, now, windowSec);
  }

  lemma ReclaimedShrinks(hash: Key -> nat, s: State, target: nat, now: int, windowSec: int)
    requires Booked(hash, s, 0)
    ensures Shrunk(hash, s, Reclaimed(s, target, now, windowSec), now, windowSec)
  {
    ReclaimedToShrinks(hash, s, target, s.cursor + RECLAIM_SCAN, now, windowSec);
  }

  lemma ShrunkGivesNoBucket(hash: Key -> nat, s: State, r: State, key: Key, now: int, windowSec: int)
    requires |s.shards| == |r.shards| == SHARDS && Shrunk(hash, s, r, now, windowSec)
    requires key !in s.shards[Home(hash, key)]
    ensures key !in r.shards[Home(hash, key)]
  {
    assert KeptOrIdle(s.shards[Home(hash, key)], r.shards[Home(hash, key)], key, now, windowSec);
  }

  /** From `s` to `r` only idle buckets went, and a place was reserved if there is room. */
  ghost predicate Roomy(hash: Key -> nat, s: State, r: State, room: Room, key: Key, now: int, windowSec: int)
    requires |s.shards| == |r.shards| == SHARDS
  {
    && Trimmed(hash, s.shards, r.shards, now, windowSec) && r.count <= s.count + 1
    && key !in r.shards[Home(hash, key)] && !room.Present?
    && Booked(hash, r, if room.Reserved? then 1 else 0) && (room.Full? ==> r.count == MAX_BUCKETS)
  }

  lemma ReserveIsRoomy(hash: Key -> nat, s: State, r: State, key: Key, now: int, windowSec: int)
    requires |s.shards| == |r.shards| == SHARDS && Shrunk(hash, s, r, now, windowSec)
    requires key !in s.shards[Home(hash, key)]
    ensures key !in r.shards[Home(hash, key)]
    ensures Roomy(hash, s, Reserve(r).0, if Reserve(r).1 then Reserved else Full, key, now, windowSec)
  {
    ShrunkGivesNoBucket(hash, s, r, key, now, windowSec);
  }

  lemma RoomMadeIsRoomy(hash: Key -> nat, s: State, key: Key, now: int, windowSec: int)
    requires Booked(hash, s, 0) && key !in s.shards[Home(hash, key)]
    ensures var (r, room) := RoomMade(s, Home(hash, key), key, now, windowSec);
      Roomy(hash, s, r, room, key, now, windowSec)
  {
    var home := Home(hash, key);
    if s.count < MAX_BUCKETS {
      ReserveIsRoomy(hash, s, s, key, now, windowSec);
    } else {
      var c := Cleaned(s, home, now, windowSec);
      CleanedShrinks(hash, s, home, now, windowSec);
      if c.count < MAX_BUCKETS {
        ReserveIsRoomy(hash, s, c, key, now, windowSec);
      } else {
        var d := Reclaimed(c, home, now, windowSec);
        ReclaimedShrinks(hash, c, home, now, windowSec);
        ShrunkTwice(hash, s, c, d, now, windowSec);
        ReserveIsRoomy(hash, s, d, key, now, windowSec);
      }
    }
  }

  lemma BegunShrinks(hash: Key -> nat, s: State, r: Request)
    requires Booked(hash, s, 0)
    ensures Shrunk(hash, s, Begun(hash, s, r), r.now, r.windowSec)
  {
    var s' := s.(operations := s.operations + 1);
    if s'.operations % CLEANUP_EVERY == 0 { CleanedShrinks(hash, s', Home(hash, r.key), r.now, r.windowSec); }
  }

  lemma StoredBooked(hash: Key -> nat, s: State, r: Request)
    requires Counts(r) && |s.shards| == SHARDS && Booked(hash, s, if r.key in s.shards[Home(hash, r.key)] then 0 else 1)
    ensures Booked(hash, Stored(hash, s, r).0, 0) && Stored(hash, s, r).0.count == s.count
  {
    PutTotal(hash, s.shards, r.key, Stored(hash, s, r).0.shards[Home(hash, r.key)][r.key]);
  }

  /** allow answers for its key alone, forgets only idle buckets of others, and turns a key away only with the counter
      at its limit. */
  lemma CallAnswers(hash: Key -> nat, s: State, r: Request, clock: int)
    requires Good(hash, s, clock) && clock <= r.now
    ensures var (s', ok) := Call(hash, s, r); Good(hash, s', r.now) && Answered(hash, s.shards, s'.shards, r, ok)
  {
    var (s', ok) := Call(hash, s, r);
    if Counts(r) {
      var b, home := Begun(hash, s, r), Home(hash, r.key);
      BegunShrinks(hash, s, r);
      var (m, room) := if r.key in b.shards[home] then (b, Present) else RoomMade(b, home, r.key, r.now, r.windowSec);
      if r.key !in b.shards[home] {
        RoomMadeIsRoomy(hash, b, r.key, r.now, r.windowSec);
        TrimmedTwice(hash, s.shards, b.shards, m.shards, r.now, r.windowSec);
      }
      if room.Full? {
        TurnedAway(hash, s.shards, m.shards, r);
      } else {
        StoredBooked(hash, m, r);
        PutServes(hash, s.shards, m.shards, r, s'.shards[home][r.key], ok);
      }
    }
    AnsweredIsSane(hash, s.shards, s'.shards, r, ok, clock);
  }

  lemma CallCounts(hash: Key -> nat, s: State, r: Request)
    requires |s.shards| == SHARDS
    ensures Call(hash, s, r).0.operations == s.operations + (if Counts(r) then 1 else 0)
  {
    if Counts(r) {
      var b := Begun(hash, s, r);
      RoomCounts(b, Home(hash, r.key), r.key, r.now, r.windowSec);
    }
  }

  lemma RoomCounts(s: State, home: nat, key: Key, now: int, windowSec: int)
    requires |s.shards| == SHARDS && home < SHARDS
    ensures RoomMade(s, home, key, now, windowSec).0.operations == s.operations
  {
    var c := Cleaned(s, home, now, windowSec);
    ReclaimCounts(c.(cursor := c.cursor + RECLAIM_SCAN), home, c.cursor, c.cursor + RECLAIM_SCAN, now, windowSec);
  }

  lemma {:induction false} ReclaimCounts(s: State, target: nat, index: nat, end: nat, now: int, windowSec: int)
    requires |s.shards| == SHARDS
    ensures ReclaimedFrom(s, target, index, end, now, windowSec).operations == s.operations
    decreases end - index
  {
    if index < end {
      var (c, done) := ReclaimRound(s, target, index, now, windowSec);
      if !done { ReclaimCounts(c, target, index + 1, end, now, windowSec); }
    }
  }

  /** What is gone after the cleanup stays gone, except for the asking key. */
  lemma CleanedStaysClean(hash: Key -> nat, s: State, r: Request, m: Shards, x: Bucket)
    requires |s.shards| == |m| == SHARDS && (s.operations + 1) % CLEANUP_EVERY == 0
    requires Trimmed(hash, Begun(hash, s, r).shards, m, r.now, r.windowSec)
    ensures ShardCleaned(hash, s.shards, m, r) && ShardCleaned(hash, s.shards, Put(hash, m, r.key, x), r)
  {
    var home, b := Home(hash, r.key), Begun(hash, s, r).shards;
    assert b[home] == Kept(s.shards[home], r.now, r.windowSec);
    forall k | Home(hash, k) == home && k in s.shards[home] && IdleAt(s.shards[home][k], r.now, r.windowSec)
      ensures k !in m[home]
    {
      assert KeptOrIdle(b[home], m[home], k, r.now, r.windowSec);
    }
  }

  lemma CallCleans(hash: Key -> nat, s: State, r: Request, clock: int)
    requires Good(hash, s, clock) && Counts(r) && (s.operations + 1) % CLEANUP_EVERY == 0
    ensures ShardCleaned(hash, s.shards, Call(hash, s, r).0.shards, r)
  {
    var b, home := Begun(hash, s, r), Home(hash, r.key);
    BegunShrinks(hash, s, r);
    var (m, room) := if r.key in b.shards[home] then (b, Present) else RoomMade(b, home, r.key, r.now, r.windowSec);
    if r.key !in b.shards[home] { RoomMadeIsRoomy(hash, b, r.key, r.now, r.windowSec); }
    var m' := Call(hash, s, r).0.shards[home];
    var x := if r.key in m' then m'[r.key] else Bucket(0.0, 0, 0);
    CleanedStaysClean(hash, s, r, m.shards, x);
  }

  lemma CallIsTurn(hash: Key -> nat, s: State, r: Request, clock: int)
    requires Good(hash, s, clock) && clock <= r.now
    ensures Good(hash, Call(hash, s, r).0, r.now) && Turn(hash, s, Call(hash, s, r).0, r, Call(hash, s, r).1)
  {
    CallAnswers(hash, s, r, clock);
    CallCounts(hash, s, r);
    if Counts(r) && (s.operations + 1) % CLEANUP_EVERY == 0 { CallCleans(hash, s, r, clock); }
  }

  // ----- A call as a turn -----

  /** Of the keys that share a shard with the asking one, none that was idle for its window has a bucket left. */
  ghost predicate ShardCleaned(hash: Key -> nat, shards: Shards, shards': Shards, r: Request)
    requires |shards| == |shards'| == SHARDS
  {
    var m, m' := shards[Home(hash, r.key)], shards'[Home(hash, r.key)];
    forall k :: k != r.key && Home(hash, k) == Home(hash, r.key) && k in m && IdleAt(m[k], r.now, r.windowSec) ==>
      k !in m'
  }

  /** One request, answered; it is counted, and every 1024th forgets what is idle in its shard. */
  ghost predicate Turn(hash: Key -> nat, s: State, s': State, r: Request, ok: bool) {
    && Sharded(hash, s.shards) && Sharded(hash, s'.shards) && Answered(hash, s.shards, s'.shards, r, ok)
    && s'.operations == s.operations + (if Counts(r) then 1 else 0)
    && (Counts(r) && s'.operations % CLEANUP_EVERY == 0 ==> ShardCleaned(hash, s.shards, s'.shards, r))
  }

  /** Every 1024th turn forgets, of the other keys in its shard, exactly those not asked for within its last two
      windows. */
  lemma EveryThousandthForgets(hash: Key -> nat, s: State, s': State, r: Request, ok: bool, clock: int, k: Key)
    requires Turn(hash, s, s', r, ok) && Sane(s.shards, clock) && clock <= r.now
    requires Counts(r) && s'.operations % 1024 == 0
    requires k != r.key && Home(hash, k) == Home(hash, r.key) && k in s.shards[Home(hash, k)]
    ensures var m, m' := s.shards[Home(hash, k)], s'.shards[Home(hash, k)];
      (k in m' ==> m'[k] == m[k]) && (k in m' <==> r.now - m[k].seen <= 2 * 1000 * r.windowSec)
  {
    assert KeptOrIdle(s.shards[Home(hash, k)], s'.shards[Home(hash, k)], k, r.now, r.windowSec);
    assert BucketSane(s.shards[Home(hash, k)][k], clock);
  }
}
