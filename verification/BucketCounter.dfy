/** The bucket counter of the local limiter under concurrent callers
    (common/utils/local_rate_limiter.hpp:28-57, 90-128).  Every atomic access to
    the counter, every lock operation, and every insertion or erasure is one step
    of one caller; which buckets are idle, and when cleanup is due, is left open. */
module BucketCounter {
  import opened Wrappers
  import opened ShardLimits

  type Key = string

  /** What follows a cleanup. */
  datatype After = ThenFind | ThenReserve | ThenCheck(left: nat)

  /** Where a caller of allow stands.  `home` is the shard of its key. */
  datatype Stage =
    | Entering
    | Entered
    | Sweeping(at: nat, erased: nat, next: After)       // erasing idle buckets of shard `at`
    | Finding
    | Loading(round: nat)                               // reserve_bucket_: about to read the counter
    | Swapping(round: nat, seen: nat)                   // about to compare-and-swap seen -> seen + 1
    | Inserting                                         // reserved, not yet inserted
    | RollingBack                                       // emplace threw: about to give the place back
    | Leaving                                           // about to release the home shard and return
    | SteppingOut                                       // about to release it for the reclaim scan
    | Scanning(left: nat, at: nat)                      // about to lock candidate `at`, or to go back
    | Checking(left: nat, at: nat)                      // cleaned the candidate, about to read the counter
    | Dropping(left: nat, at: nat)                      // about to release the candidate
    | Refinding                                         // holds the home shard again
    | Returned

  datatype Caller = Caller(key: Key, home: nat, stage: Stage)

  /** Keys stored per shard, the holder of each shard's lock, the counter and the callers. */
  datatype World = World(shards: seq<set<Key>>, locks: seq<Option<nat>>, count: int, callers: seq<Caller>)

  /** What the environment decides in a step: a yes or no, a bucket to erase, where a reclaim scan starts. */
  datatype Choice = Choice(yes: bool, victim: Key, start: nat)

  /** The shard whose lock a caller at this stage holds. */
  function Holding(c: Caller): Option<nat> {
    match c.stage
    case Entering => None
    case Returned => None
    case Scanning(_, _) => None
    case Sweeping(at, _, _) => Some(at)
    case Checking(_, at) => Some(at)
    case Dropping(_, at) => Some(at)
    case _ => Some(c.home)
  }

  predicate Enabled(w: World, t: nat, ch: Choice)
    requires Shaped(w)
  {
    t < |w.callers| &&
    var c := w.callers[t];
    match c.stage
    case Entering => w.locks[c.home].None?
    case Scanning(left, at) => if left == 0 then w.locks[c.home].None? else at == c.home || w.locks[at].None?
    case Sweeping(at, _, _) => ch.yes ==> ch.victim in w.shards[at]
    case Returned => false
    case _ => true
  }

  function Move(w: World, t: nat, s: Stage): World
    requires t < |w.callers|
  {
    w.(callers := w.callers[t := w.callers[t].(stage := s)])
  }

  function Lock(w: World, i: nat, o: Option<nat>): World
    requires i < |w.locks|
  {
    w.(locks := w.locks[i := o])
  }

  predicate Shaped(w: World) {
    && |w.shards| == |w.locks| == SHARDS
    && forall t :: 0 <= t < |w.callers| ==> CallerShaped(w.callers[t])
  }

  predicate CallerShaped(c: Caller) {
    && c.home < SHARDS
    && (c.stage.Sweeping? || c.stage.Scanning? || c.stage.Checking? || c.stage.Dropping? ==> c.stage.at < SHARDS)
    && (c.stage.Sweeping? && !c.stage.next.ThenCheck? ==> c.stage.at == c.home)
    && (c.stage.Swapping? ==> c.stage.seen < MAX_BUCKETS)
  }

  /** After a failed reservation: clean the home shard, then scan others, then give up. */
  function Refused(round: nat, home: nat): Stage {
    if round == 0 then Sweeping(home, 0, ThenReserve) else if round == 1 then SteppingOut else Leaving
  }

  function Resume(next: After, at: nat): Stage {
    match next
    case ThenFind => Finding
    case ThenReserve => Loading(1)
    case ThenCheck(left) => Checking(left, at)
  }

  /** One step of caller `t`. */
  function Next(w: World, t: nat, ch: Choice): World
    requires Shaped(w) && Enabled(w, t, ch)
  {
    var c := w.callers[t];
    match c.stage
    case Entering => Lock(Move(w, t, Entered), c.home, Some(t))
    case Entered => Move(w, t, if ch.yes then Sweeping(c.home, 0, ThenFind) else Finding)
    case Sweeping(at, erased, next) =>
      if ch.yes then Move(w, t, Sweeping(at, erased + 1, next)).(shards := w.shards[at := w.shards[at] - {ch.victim}])
      else Move(w, t, Resume(next, at)).(count := w.count - erased)
    case Finding => Move(w, t, if c.key in w.shards[c.home] then Leaving else Loading(0))
    case Loading(round) =>
      Move(w, t, if 0 <= w.count < MAX_BUCKETS then Swapping(round, w.count) else Refused(round, c.home))
    case Swapping(round, seen) =>
      // a weak compare-and-swap may fail although the counter still equals `seen`
      if w.count == seen && ch.yes then Move(w, t, Inserting).(count := w.count + 1) else Move(w, t, Loading(round))
    case Inserting =>
      if ch.yes then Move(w, t, Leaving).(shards := w.shards[c.home := w.shards[c.home] + {c.key}])
      else Move(w, t, RollingBack)
    case RollingBack => Move(w, t, Leaving).(count := w.count - 1)
    case Leaving => Lock(Move(w, t, Returned), c.home, None)
    case SteppingOut => Lock(Move(w, t, Scanning(RECLAIM_SCAN, ch.start % SHARDS)), c.home, None)
    case Scanning(left, at) =>
      if left == 0 then Lock(Move(w, t, Refinding), c.home, Some(t))
      else if at == c.home then Move(w, t, Scanning(left - 1, (at + 1) % SHARDS))
      else Lock(Move(w, t, Sweeping(at, 0, ThenCheck(left - 1))), at, Some(t))
    case Checking(left, at) => Move(w, t, Dropping(if w.count < MAX_BUCKETS then 0 else left, at))
    case Dropping(left, at) => Lock(Move(w, t, Scanning(left, (at + 1) % SHARDS)), at, None)
    case Refinding => Move(w, t, if c.key in w.shards[c.home] then Leaving else Loading(2))
  }

  predicate Initial(w: World) {
    && |w.shards| == |w.locks| == SHARDS && w.count == 0
    && (forall i :: 0 <= i < SHARDS ==> w.shards[i] == {} && w.locks[i].None?)
    && forall t :: 0 <= t < |w.callers| ==> w.callers[t].home < SHARDS && w.callers[t].stage == Entering
  }

  // ----- The invariant -----

  /** Reserved but not inserted, or erased but not subtracted. */
  function Pending(c: Caller): nat {
    if c.stage.Inserting? || c.stage.RollingBack? then 1 else if c.stage.Sweeping? then c.stage.erased else 0
  }

  function AllPending(callers: seq<Caller>): nat {
    if callers == [] then 0 else AllPending(callers[..|callers| - 1]) + Pending(callers[|callers| - 1])
  }

  function Stored(shards: seq<set<Key>>): nat {
    if shards == [] then 0 else Stored(shards[..|shards| - 1]) + |shards[|shards| - 1]|
  }

  /** Every lock is held exactly by the caller whose stage says so. */
  predicate Exclusive(w: World)
    requires Shaped(w)
  {
    && (forall t :: 0 <= t < |w.callers| && Holding(w.callers[t]).Some? ==>
          w.locks[Holding(w.callers[t]).value] == Some(t))
    && (forall i :: 0 <= i < SHARDS && w.locks[i].Some? ==>
          w.locks[i].value < |w.callers| && Holding(w.callers[w.locks[i].value]) == Some(i))
  }

  /** A caller on its way to insert has seen that its key is missing. */
  predicate KnowsMissing(w: World, c: Caller)
    requires c.home < |w.shards|
  {
    c.stage.Loading? || c.stage.Swapping? || c.stage.Inserting? || (c.stage.Sweeping? && c.stage.next.ThenReserve?) ==>
      c.key !in w.shards[c.home]
  }

  predicate Inv(w: World) {
    && Shaped(w) && Exclusive(w)
    && (forall t :: 0 <= t < |w.callers| ==> KnowsMissing(w, w.callers[t]))
    && w.count == Stored(w.shards) + AllPending(w.callers) <= MAX_BUCKETS
  }

  lemma {:induction false} PendingUpdate(callers: seq<Caller>, t: nat, c: Caller)
    requires t < |callers|
    ensures AllPending(callers[t := c]) + Pending(callers[t]) == AllPending(callers) + Pending(c)
  {
    var n := |callers| - 1;
    if t == n {
      assert callers[t := c][..n] == callers[..n];
    } else {
      assert callers[t := c][..n] == callers[..n][t := c];
      PendingUpdate(callers[..n], t, c);
    }
  }

  lemma {:induction false} StoredUpdate(shards: seq<set<Key>>, i: nat, keys: set<Key>)
    requires i < |shards|
    ensures Stored(shards[i := keys]) + |shards[i]| == Stored(shards) + |keys|
  {
    var n := |shards| - 1;
    if i == n {
      assert shards[i := keys][..n] == shards[..n];
    } else {
      assert shards[i := keys][..n] == shards[..n][i := keys];
      StoredUpdate(shards[..n], i, keys);
    }
  }

  lemma StepKeepsShape(w: World, t: nat, ch: Choice)
    requires Shaped(w) && Enabled(w, t, ch)
    ensures Shaped(Next(w, t, ch))
  {
    var w' := Next(w, t, ch);
    assert CallerShaped(w.callers[t]);
    assert CallerShaped(w'.callers[t]);
    StepMovesOne(w, t, ch);
    StepLocks(w, t, ch);
  }

  /** A step takes at most one lock, which was free, or releases the one it held. */
  predicate LocksFollow(locks: seq<Option<nat>>, locks': seq<Option<nat>>, t: nat, h: Option<nat>, h': Option<nat>) {
    || (locks' == locks && h' == h)
    || (h.None? && h'.Some? && h'.value < |locks| && locks[h'.value].None? && locks' == locks[h'.value := Some(t)])
    || (h.Some? && h'.None? && h.value < |locks| && locks' == locks[h.value := None])
  }

  lemma StepLocks(w: World, t: nat, ch: Choice)
    requires Shaped(w) && Enabled(w, t, ch)
    ensures var w' := Next(w, t, ch);
      LocksFollow(w.locks, w'.locks, t, Holding(w.callers[t]), Holding(w'.callers[t]))
  {
    assert CallerShaped(w.callers[t]);
  }

  lemma StepMovesOne(w: World, t: nat, ch: Choice)
    requires Shaped(w) && Enabled(w, t, ch)
    ensures var w' := Next(w, t, ch);
      |w'.callers| == |w.callers| && w'.callers == w.callers[t := w'.callers[t]]
  {
  }

  lemma LocksStayExclusive(w: World, t: nat, w': World)
    requires Shaped(w) && Shaped(w') && Exclusive(w) && t < |w.callers| == |w'.callers|
    requires w'.callers == w.callers[t := w'.callers[t]]
    requires LocksFollow(w.locks, w'.locks, t, Holding(w.callers[t]), Holding(w'.callers[t]))
    ensures Exclusive(w')
  {
    forall u | 0 <= u < |w'.callers| && Holding(w'.callers[u]).Some?
      ensures w'.locks[Holding(w'.callers[u]).value] == Some(u)
    {
      if u != t { assert w'.callers[u] == w.callers[u]; }
    }
    forall i | 0 <= i < SHARDS && w'.locks[i].Some?
      ensures w'.locks[i].value < |w'.callers| && Holding(w'.callers[w'.locks[i].value]) == Some(i)
    {
      if w'.locks[i] == w.locks[i] && w.locks[i].value != t {
        assert w'.callers[w.locks[i].value] == w.callers[w.locks[i].value];
      }
    }
  }

  lemma StepKeepsExclusive(w: World, t: nat, ch: Choice)
    requires Inv(w) && Enabled(w, t, ch) && Shaped(Next(w, t, ch))
    ensures Exclusive(Next(w, t, ch))
  {
    StepLocks(w, t, ch);
    StepMovesOne(w, t, ch);
    LocksStayExclusive(w, t, Next(w, t, ch));
  }

  /** Only the holder of a shard's lock changes the shard. */
  lemma StepKeepsMissing(w: World, t: nat, ch: Choice, u: nat)
    requires Inv(w) && Enabled(w, t, ch) && u < |w.callers| && Shaped(Next(w, t, ch)) && u < |Next(w, t, ch).callers|
    ensures KnowsMissing(Next(w, t, ch), Next(w, t, ch).callers[u])
  {
    assert CallerShaped(w.callers[t]) && CallerShaped(w.callers[u]);
    assert KnowsMissing(w, w.callers[u]) && KnowsMissing(w, w.callers[t]);
    StepBooks(w, t, ch);
    StepMovesOne(w, t, ch);
  }

  /** The counter and the shards change only together with what the caller has in transit. */
  lemma StepBooks(w: World, t: nat, ch: Choice)
    requires Shaped(w) && Enabled(w, t, ch) && KnowsMissing(w, w.callers[t])
    ensures var w', c := Next(w, t, ch), w.callers[t]; var c' := w'.callers[t];
      || (w'.shards == w.shards && w'.count - w.count == Pending(c') - Pending(c)
          && (w'.count <= w.count || w'.count <= MAX_BUCKETS))
      || (c.stage.Sweeping? && ch.victim in w.shards[c.stage.at] && w'.count == w.count && Pending(c') == Pending(c) + 1
          && w'.shards == w.shards[c.stage.at := w.shards[c.stage.at] - {ch.victim}])
      || (c.stage.Inserting? && c.key !in w.shards[c.home] && w'.count == w.count && Pending(c') == Pending(c) - 1
          && w'.shards == w.shards[c.home := w.shards[c.home] + {c.key}])
  {
    assert CallerShaped(w.callers[t]);
  }

  lemma StepConserves(w: World, t: nat, ch: Choice)
    requires Inv(w) && Enabled(w, t, ch)
    ensures var w' := Next(w, t, ch); w'.count == Stored(w'.shards) + AllPending(w'.callers) <= MAX_BUCKETS
  {
    var w', c := Next(w, t, ch), w.callers[t];
    assert CallerShaped(c) && KnowsMissing(w, c);
    StepBooks(w, t, ch);
    StepMovesOne(w, t, ch);
    PendingUpdate(w.callers, t, w'.callers[t]);
    if w'.shards != w.shards {
      if c.stage.Sweeping? {
        StoredUpdate(w.shards, c.stage.at, w.shards[c.stage.at] - {ch.victim});
      } else {
        StoredUpdate(w.shards, c.home, w.shards[c.home] + {c.key});
      }
    }
  }

  lemma StepKeepsInv(w: World, t: nat, ch: Choice)
    requires Inv(w) && Enabled(w, t, ch)
    ensures Inv(Next(w, t, ch))
  {
    var w' := Next(w, t, ch);
    StepKeepsShape(w, t, ch);
    StepKeepsExclusive(w, t, ch);
    StepConserves(w, t, ch);
    StepMovesOne(w, t, ch);
    forall u | 0 <= u < |w'.callers|
      ensures KnowsMissing(w', w'.callers[u])
    {
      StepKeepsMissing(w, t, ch, u);
    }
  }

  lemma {:induction false} NothingYet(shards: seq<set<Key>>, callers: seq<Caller>)
    requires forall i :: 0 <= i < |shards| ==> shards[i] == {}
    requires forall t :: 0 <= t < |callers| ==> callers[t].stage == Entering
    ensures Stored(shards) == 0 && AllPending(callers) == 0
    decreases |shards| + |callers|
  {
    if shards != [] { NothingYet(shards[..|shards| - 1], callers); }
    if callers != [] { NothingYet(shards, callers[..|callers| - 1]); }
  }

  // ----- Theorem -----

  datatype Turn = Turn(caller: nat, choice: Choice)

  /** The world after a schedule of turns, if each was possible. */
  function Run(start: World, turns: seq<Turn>): Option<World> {
    if turns == [] then Some(start)
    else
      var before := Run(start, turns[..|turns| - 1]);
      var last := turns[|turns| - 1];
      if before.Some? && Shaped(before.value) && Enabled(before.value, last.caller, last.choice)
      then Some(Next(before.value, last.caller, last.choice))
      else None
  }

  lemma InitialInv(w: World)
    requires Initial(w)
    ensures Inv(w)
  {
    NothingYet(w.shards, w.callers);
  }

  lemma {:induction false} InvReached(start: World, turns: seq<Turn>)
    requires Inv(start) && Run(start, turns).Some?
    ensures Inv(Run(start, turns).value)
  {
    if turns != [] {
      InvReached(start, turns[..|turns| - 1]);
      var last := turns[|turns| - 1];
      StepKeepsInv(Run(start, turns[..|turns| - 1]).value, last.caller, last.choice);
    }
  }

  /** In every interleaving the counter is the stored buckets plus those in transit, it never exceeds the limit,
      so neither do the stored buckets, and no caller holds two shard locks. */
  lemma CounterIsConserved(start: World, turns: seq<Turn>)
    requires Initial(start) && Run(start, turns).Some?
    ensures var w := Run(start, turns).value;
      && w.count == Stored(w.shards) + AllPending(w.callers)
      && Stored(w.shards) <= w.count <= 65536
      && forall a, b, t :: 0 <= a < |w.locks| && 0 <= b < |w.locks| && w.locks[a] == Some(t) == w.locks[b] ==> a == b
  {
    InitialInv(start);
    InvReached(start, turns);
  }
}
