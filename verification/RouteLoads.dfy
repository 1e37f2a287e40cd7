/** Route lookups (resolve_route, push/source/push_server.h:677-717): any number
    of threads go through the route cache, the single-flight registry and Redis,
    interleaved at every lock, cache and registry access. */
module RouteLoads {
  import opened Wrappers
  import I = Inflight

  type Key = I.Key

  /** Whether there is a route cache, and a registry; without one all keys share a single mutex. */
  datatype Config = Config(caching: bool, registered: bool)

  datatype Stage =
    | Idle
    | Probing
    | Acquiring
    | Waiting
    | Rechecking
    | Loading
    | Filling
    | Unlocking
    | Releasing

  datatype Thread = Thread(key: Key, stage: Stage)

  /** `holder`: the thread in each mutex, None being the shared one.  The multisets count what happened per key. */
  datatype World = World(pool: I.Pool, holder: map<Option<nat>, nat>, cached: set<Key>, threads: seq<Thread>,
                         loads: multiset<Key>, fills: multiset<Key>, failures: multiset<Key>, drops: multiset<Key>)

  datatype Step =
    | Call(t: nat, key: Key)
    | Act(t: nat, fails: bool)
    | CacheDrops(key: Key)               // expiry or eviction

  predicate Enabled(w: World, s: Step) {
    match s
    case Call(t, _) => t < |w.threads| && w.threads[t].stage == Idle
    case CacheDrops(key) => key in w.cached
    case Act(t, _) =>
      t < |w.threads| && t < |w.pool.guards| && w.threads[t].stage != Idle &&
      match w.threads[t].stage
      case Acquiring => !w.pool.guards[t].attached
      case Waiting => w.pool.guards[t].mu !in w.holder
      case _ => true
  }

  function Move(w: World, t: nat, s: Stage): World
    requires t < |w.threads|
  {
    w.(threads := w.threads[t := w.threads[t].(stage := s)])
  }

  function Next(w: World, g: Config, s: Step): World
    requires Enabled(w, s)
  {
    match s
    case Call(t, key) => w.(threads := w.threads[t := Thread(key, Probing)])
    case CacheDrops(key) => w.(cached := w.cached - {key}, drops := w.drops + multiset{key})
    case Act(t, fails) => Advance(w, g, t, fails)
  }

  /** The next access of a thread. */
  function Advance(w: World, g: Config, t: nat, fails: bool): World
    requires Enabled(w, Act(t, fails))
  {
    var key := w.threads[t].key;
    var hit := g.caching && key in w.cached;
    match w.threads[t].stage
    case Probing => Move(w, t, if hit then Idle else Acquiring)
    case Acquiring => Move(w, t, Waiting).(pool := if g.registered then I.Take(w.pool, t, key) else w.pool)
    case Waiting => Move(w, t, Rechecking).(holder := w.holder[w.pool.guards[t].mu := t])
    case Rechecking => if hit then Move(w, t, Unlocking) else Move(w, t, Loading).(loads := w.loads + multiset{key})
    case Loading =>
      if fails then Move(w, t, Unlocking).(failures := w.failures + multiset{key}) else Move(w, t, Filling)
    case Filling =>
      Move(w, t, Unlocking).(cached := if g.caching then w.cached + {key} else w.cached,
        fills := w.fills + multiset{key})
    case Unlocking => Move(w, t, Releasing).(holder := w.holder - {w.pool.guards[t].mu})
    case Releasing => Move(w, t, Idle).(pool := I.Drop(w.pool, t))
  }

  predicate Initial(w: World) {
    && w.pool.inflight == map[] && w.pool.minted == 0 && |w.pool.guards| == |w.threads|
    && w.holder == map[] && w.cached == {}
    && w.loads == multiset{} && w.fills == multiset{} && w.failures == multiset{} && w.drops == multiset{}
    && (forall t :: 0 <= t < |w.threads| ==> w.threads[t].stage == Idle && w.pool.guards[t] == I.EMPTY)
  }

  function Run(start: World, g: Config, steps: seq<Step>): Option<World> {
    if steps == [] then Some(start)
    else
      var before := Run(start, g, steps[..|steps| - 1]);
      if before.Some? && Enabled(before.value, steps[|steps| - 1])
      then Some(Next(before.value, g, steps[|steps| - 1])) else None
  }

  // ----- The invariant -----

  predicate Guarded(s: Stage) {
    s.Waiting? || Inside(s) || s.Releasing?
  }

  predicate Inside(s: Stage) {
    s.Rechecking? || s.Loading? || s.Filling? || s.Unlocking?
  }

  /** The thread is between starting its Redis load and storing the result. */
  predicate InLoad(s: Stage) {
    s.Loading? || s.Filling?
  }

  predicate GuardRight(g: Config, th: Thread, h: I.Hold) {
    if Guarded(th.stage) && g.registered then h.attached && h.key == th.key else h == I.EMPTY
  }

  predicate LockRight(w: World, t: nat)
    requires t < |w.threads| && t < |w.pool.guards|
  {
    Inside(w.threads[t].stage) ==> w.pool.guards[t].mu in w.holder && w.holder[w.pool.guards[t].mu] == t
  }

  predicate MissRight(w: World, th: Thread) {
    InLoad(th.stage) ==> th.key !in w.cached
  }

  predicate ThreadRight(w: World, g: Config, t: nat)
    requires t < |w.threads| && t < |w.pool.guards|
  {
    GuardRight(g, w.threads[t], w.pool.guards[t]) && LockRight(w, t) && MissRight(w, w.threads[t])
  }

  predicate Busy(w: World, key: Key) {
    exists t :: 0 <= t < |w.threads| && InLoad(w.threads[t].stage) && w.threads[t].key == key
  }

  /** Every load of a key was stored, failed or is under way; every stored one is cached or was dropped. */
  predicate Tallied(w: World, g: Config, key: Key) {
    && w.loads[key] == w.fills[key] + w.failures[key] + (if Busy(w, key) then 1 else 0)
    && (g.caching ==> w.fills[key] == w.drops[key] + (if key in w.cached then 1 else 0))
  }

  /** A locked mutex is locked by a thread that is inside with it. */
  predicate HolderRight(w: World, m: Option<nat>)
    requires m in w.holder && |w.pool.guards| == |w.threads|
  {
    var t := w.holder[m];
    t < |w.threads| && Inside(w.threads[t].stage) && w.pool.guards[t].mu == m
  }

  ghost predicate Inv(w: World, g: Config) {
    && I.Inv(w.pool) && |w.pool.guards| == |w.threads| && (!g.caching ==> w.cached == {})
    && (forall m :: m in w.holder ==> HolderRight(w, m))
    && (forall t :: 0 <= t < |w.threads| ==> ThreadRight(w, g, t))
    && (forall key :: Tallied(w, g, key))
  }

  /** Two threads inside for one key, or without a registry for any, are one thread. */
  lemma Exclusive(w: World, g: Config, t: nat, u: nat)
    requires Inv(w, g) && t < |w.threads| && u < |w.threads|
    requires Inside(w.threads[t].stage) && Inside(w.threads[u].stage)
    requires w.threads[t].key == w.threads[u].key || !g.registered
    ensures t == u
  {
    assert ThreadRight(w, g, t) && ThreadRight(w, g, u);
    if g.registered { I.MutexPerKey(w.pool, t, u); }
  }

  /** Nobody else is in a load of the key of a thread that is inside. */
  lemma OthersNotInLoad(w: World, g: Config, t: nat)
    requires Inv(w, g) && t < |w.threads| && Inside(w.threads[t].stage)
    ensures forall u :: 0 <= u < |w.threads| && u != t && InLoad(w.threads[u].stage) ==>
      w.threads[u].key != w.threads[t].key
  {
    forall u | 0 <= u < |w.threads| && u != t && InLoad(w.threads[u].stage)
      ensures w.threads[u].key != w.threads[t].key
    {
      if w.threads[u].key == w.threads[t].key { Exclusive(w, g, t, u); }
    }
  }

  /** Thread `t` becomes `th`. */
  predicate Steps(w: World, w': World, t: nat, th: Thread)
    requires t < |w.threads|
  {
    w'.threads == w.threads[t := th]
  }

  lemma BusySame(w: World, w': World, t: nat, th: Thread, key: Key)
    requires t < |w.threads| && Steps(w, w', t, th)
    requires InLoad(th.stage) == InLoad(w.threads[t].stage) && (InLoad(th.stage) ==> th.key == w.threads[t].key)
    ensures Busy(w', key) == Busy(w, key)
  {
    if Busy(w, key) {
      var u :| 0 <= u < |w.threads| && InLoad(w.threads[u].stage) && w.threads[u].key == key;
      assert InLoad(w'.threads[u].stage) && w'.threads[u].key == key;
    }
  }

  lemma BusyStarts(w: World, w': World, g: Config, t: nat, th: Thread, key: Key)
    requires Inv(w, g) && t < |w.threads| && Steps(w, w', t, th) && th.key == w.threads[t].key
    requires Inside(w.threads[t].stage) && !InLoad(w.threads[t].stage) && InLoad(th.stage)
    ensures if key == th.key then !Busy(w, key) && Busy(w', key) else Busy(w', key) == Busy(w, key)
  {
    OthersNotInLoad(w, g, t);
    assert w'.threads[t] == th;
    if key != th.key && Busy(w, key) {
      var u :| 0 <= u < |w.threads| && InLoad(w.threads[u].stage) && w.threads[u].key == key;
      assert InLoad(w'.threads[u].stage) && w'.threads[u].key == key;
    }
  }

  lemma BusyEnds(w: World, w': World, g: Config, t: nat, th: Thread, key: Key)
    requires Inv(w, g) && t < |w.threads| && Steps(w, w', t, th) && th.key == w.threads[t].key
    requires InLoad(w.threads[t].stage) && !InLoad(th.stage)
    ensures if key == th.key then Busy(w, key) && !Busy(w', key) else Busy(w', key) == Busy(w, key)
  {
    OthersNotInLoad(w, g, t);
    if key != th.key && Busy(w, key) {
      var u :| 0 <= u < |w.threads| && InLoad(w.threads[u].stage) && w.threads[u].key == key;
      assert InLoad(w'.threads[u].stage) && w'.threads[u].key == key;
    }
  }

  // ----- What each access keeps -----

  predicate SameTallies(w: World, w': World) {
    w'.loads == w.loads && w'.fills == w.fills && w'.failures == w.failures &&
    w'.drops == w.drops && w'.cached == w.cached
  }

  predicate SameLocks(w: World, w': World) {
    w'.pool == w.pool && w'.holder == w.holder
  }

  /** A step outside the load, which changes no counter. */
  lemma TalliesSame(w: World, w': World, g: Config, t: nat, th: Thread)
    requires Inv(w, g) && t < |w.threads| && Steps(w, w', t, th) && SameTallies(w, w')
    requires InLoad(th.stage) == InLoad(w.threads[t].stage) && (InLoad(th.stage) ==> th.key == w.threads[t].key)
    ensures forall key :: Tallied(w', g, key)
  {
    forall key
      ensures Tallied(w', g, key)
    {
      assert Tallied(w, g, key);
      BusySame(w, w', t, th, key);
    }
  }

  /** A step that neither locks nor unlocks and keeps the guard. */
  lemma ThreadsSame(w: World, w': World, g: Config, t: nat, th: Thread)
    requires Inv(w, g) && t < |w.threads| && Steps(w, w', t, th) && SameLocks(w, w') && w'.cached == w.cached
    requires Inside(th.stage) == Inside(w.threads[t].stage) && Guarded(th.stage) == Guarded(w.threads[t].stage)
    requires Guarded(th.stage) ==> th.key == w.threads[t].key
    requires MissRight(w, th)
    ensures forall u :: 0 <= u < |w'.threads| ==> ThreadRight(w', g, u)
    ensures forall m :: m in w'.holder ==> HolderRight(w', m)
  {
    forall u | 0 <= u < |w'.threads|
      ensures ThreadRight(w', g, u)
    {
      assert ThreadRight(w, g, u);
    }
    assert forall m :: m in w'.holder ==> HolderRight(w, m);
  }

  lemma CallKeeps(w: World, g: Config, t: nat, key: Key)
    requires Inv(w, g) && Enabled(w, Call(t, key))
    ensures Inv(Next(w, g, Call(t, key)), g)
  {
    var w' := Next(w, g, Call(t, key));
    TalliesSame(w, w', g, t, Thread(key, Probing));
    ThreadsSame(w, w', g, t, Thread(key, Probing));
  }

  lemma DropKeeps(w: World, g: Config, key: Key)
    requires Inv(w, g) && Enabled(w, CacheDrops(key))
    ensures Inv(Next(w, g, CacheDrops(key)), g)
  {
    var w' := Next(w, g, CacheDrops(key));
    forall u | 0 <= u < |w'.threads|
      ensures ThreadRight(w', g, u)
    {
      assert ThreadRight(w, g, u);
    }
    forall k
      ensures Tallied(w', g, k)
    {
      assert Tallied(w, g, k);
      assert Busy(w', k) == Busy(w, k);
    }
    assert forall m :: m in w'.holder ==> HolderRight(w, m);
  }

  lemma ProbeKeeps(w: World, g: Config, t: nat, fails: bool)
    requires Inv(w, g) && Enabled(w, Act(t, fails)) && w.threads[t].stage == Probing
    ensures Inv(Advance(w, g, t, fails), g)
  {
    var w' := Advance(w, g, t, fails);
    TalliesSame(w, w', g, t, w'.threads[t]);
    ThreadsSame(w, w', g, t, w'.threads[t]);
  }

  lemma AcquireKeeps(w: World, g: Config, t: nat, fails: bool)
    requires Inv(w, g) && Enabled(w, Act(t, fails)) && w.threads[t].stage == Acquiring
    ensures Inv(Advance(w, g, t, fails), g)
  {
    var w' := Advance(w, g, t, fails);
    TalliesSame(w, w', g, t, w'.threads[t]);
    I.TakeKeeps(w.pool, t, w.threads[t].key);
    forall u | 0 <= u < |w'.threads|
      ensures ThreadRight(w', g, u)
    {
      assert ThreadRight(w, g, u);
    }
    assert forall m :: m in w'.holder ==> HolderRight(w, m);
  }

  lemma LockKeeps(w: World, g: Config, t: nat, fails: bool)
    requires Inv(w, g) && Enabled(w, Act(t, fails)) && w.threads[t].stage == Waiting
    ensures Inv(Advance(w, g, t, fails), g)
  {
    var w' := Advance(w, g, t, fails);
    TalliesSame(w, w', g, t, w'.threads[t]);
    forall u | 0 <= u < |w'.threads|
      ensures ThreadRight(w', g, u)
    {
      assert ThreadRight(w, g, u);
    }
    assert forall m :: m in w.holder ==> HolderRight(w, m);
  }

  lemma RecheckKeeps(w: World, g: Config, t: nat, fails: bool)
    requires Inv(w, g) && Enabled(w, Act(t, fails)) && w.threads[t].stage == Rechecking
    ensures Inv(Advance(w, g, t, fails), g)
  {
    var w' := Advance(w, g, t, fails);
    var th := w'.threads[t];
    ThreadsSame(w, w', g, t, th);
    if th.stage == Unlocking {
      TalliesSame(w, w', g, t, th);
    } else {
      forall key
        ensures Tallied(w', g, key)
      {
        assert Tallied(w, g, key);
        BusyStarts(w, w', g, t, th, key);
      }
    }
  }

  lemma LoadKeeps(w: World, g: Config, t: nat, fails: bool)
    requires Inv(w, g) && Enabled(w, Act(t, fails)) && w.threads[t].stage == Loading
    ensures Inv(Advance(w, g, t, fails), g)
  {
    var w' := Advance(w, g, t, fails);
    var th := w'.threads[t];
    assert ThreadRight(w, g, t);
    ThreadsSame(w, w', g, t, th);
    if !fails {
      TalliesSame(w, w', g, t, th);
    } else {
      forall key
        ensures Tallied(w', g, key)
      {
        assert Tallied(w, g, key);
        BusyEnds(w, w', g, t, th, key);
      }
    }
  }

  /** Storing the route cannot overtake another load of it: there is none. */
  lemma FillKeeps(w: World, g: Config, t: nat, fails: bool)
    requires Inv(w, g) && Enabled(w, Act(t, fails)) && w.threads[t].stage == Filling
    ensures Inv(Advance(w, g, t, fails), g)
  {
    var w' := Advance(w, g, t, fails);
    assert ThreadRight(w, g, t);
    OthersNotInLoad(w, g, t);
    forall u | 0 <= u < |w'.threads|
      ensures ThreadRight(w', g, u)
    {
      assert ThreadRight(w, g, u);
    }
    forall key
      ensures Tallied(w', g, key)
    {
      assert Tallied(w, g, key);
      BusyEnds(w, w', g, t, w'.threads[t], key);
    }
    assert forall m :: m in w'.holder ==> HolderRight(w, m);
  }

  lemma UnlockKeeps(w: World, g: Config, t: nat, fails: bool)
    requires Inv(w, g) && Enabled(w, Act(t, fails)) && w.threads[t].stage == Unlocking
    ensures Inv(Advance(w, g, t, fails), g)
  {
    var w' := Advance(w, g, t, fails);
    TalliesSame(w, w', g, t, w'.threads[t]);
    assert ThreadRight(w, g, t);
    forall u | 0 <= u < |w'.threads|
      ensures ThreadRight(w', g, u)
    {
      assert ThreadRight(w, g, u);
    }
    assert forall m :: m in w'.holder ==> HolderRight(w, m);
  }

  lemma ReleaseKeeps(w: World, g: Config, t: nat, fails: bool)
    requires Inv(w, g) && Enabled(w, Act(t, fails)) && w.threads[t].stage == Releasing
    ensures Inv(Advance(w, g, t, fails), g)
  {
    var w' := Advance(w, g, t, fails);
    TalliesSame(w, w', g, t, w'.threads[t]);
    I.DropKeeps(w.pool, t);
    forall u | 0 <= u < |w'.threads|
      ensures ThreadRight(w', g, u)
    {
      assert ThreadRight(w, g, u);
    }
    assert forall m :: m in w'.holder ==> HolderRight(w, m);
  }

  lemma StepKeepsInv(w: World, g: Config, s: Step)
    requires Inv(w, g) && Enabled(w, s)
    ensures Inv(Next(w, g, s), g)
  {
    match s {
      case Call(t, key) => CallKeeps(w, g, t, key);
      case CacheDrops(key) => DropKeeps(w, g, key);
      case Act(t, fails) =>
        match w.threads[t].stage {
          case Probing => ProbeKeeps(w, g, t, fails);
          case Acquiring => AcquireKeeps(w, g, t, fails);
          case Waiting => LockKeeps(w, g, t, fails);
          case Rechecking => RecheckKeeps(w, g, t, fails);
          case Loading => LoadKeeps(w, g, t, fails);
          case Filling => FillKeeps(w, g, t, fails);
          case Unlocking => UnlockKeeps(w, g, t, fails);
          case Releasing => ReleaseKeeps(w, g, t, fails);
        }
    }
  }

  lemma InitialInv(w: World, g: Config)
    requires Initial(w)
    ensures Inv(w, g)
  {
    forall key
      ensures I.Counted(w.pool, key)
    {
      NoneLive(w.pool.guards, key);
    }
  }

  lemma {:induction false} NoneLive(guards: seq<I.Hold>, key: Key)
    requires forall i :: 0 <= i < |guards| ==> guards[i] == I.EMPTY
    ensures I.Live(guards, key) == 0
  {
    if guards != [] { NoneLive(guards[..|guards| - 1], key); }
  }

  lemma {:induction false} InvReached(start: World, g: Config, steps: seq<Step>)
    requires Initial(start) && Run(start, g, steps).Some?
    ensures Inv(Run(start, g, steps).value, g)
  {
    if steps == [] {
      InitialInv(start, g);
    } else {
      InvReached(start, g, steps[..|steps| - 1]);
      StepKeepsInv(Run(start, g, steps[..|steps| - 1]).value, g, steps[|steps| - 1]);
    }
  }

  /** In every interleaving at most one thread per key loads from Redis; without a registry, at most one at all. */
  lemma OneLoadPerKey(start: World, g: Config, steps: seq<Step>, t: nat, u: nat)
    requires Initial(start) && Run(start, g, steps).Some?
    requires var w := Run(start, g, steps).value;
      && t < |w.threads| && u < |w.threads| && InLoad(w.threads[t].stage) && InLoad(w.threads[u].stage)
      && (w.threads[t].key == w.threads[u].key || !g.registered)
    ensures t == u
  {
    InvReached(start, g, steps);
    Exclusive(Run(start, g, steps).value, g, t, u);
  }

  /** With a route cache, a key is loaded again only after its entry was dropped or its load failed. */
  lemma LoadsAreBounded(start: World, g: Config, steps: seq<Step>, key: Key)
    requires Initial(start) && Run(start, g, steps).Some? && g.caching
    ensures var w := Run(start, g, steps).value; w.loads[key] <= 1 + w.drops[key] + w.failures[key]
  {
    InvReached(start, g, steps);
    var w := Run(start, g, steps).value;
    assert Tallied(w, g, key);
    if Busy(w, key) {
      var t :| 0 <= t < |w.threads| && InLoad(w.threads[t].stage) && w.threads[t].key == key;
      assert ThreadRight(w, g, t);
    }
  }

  /** While any lookup is under way, some thread can go on: nobody waits for a lock that is never given back. */
  lemma NeverStuck(start: World, g: Config, steps: seq<Step>, t: nat) returns (u: nat)
    requires Initial(start) && Run(start, g, steps).Some?
    requires t < |Run(start, g, steps).value.threads| && Run(start, g, steps).value.threads[t].stage != Idle
    ensures Enabled(Run(start, g, steps).value, Act(u, false))
  {
    InvReached(start, g, steps);
    var w := Run(start, g, steps).value;
    assert ThreadRight(w, g, t);
    u := t;
    if w.threads[t].stage == Waiting && w.pool.guards[t].mu in w.holder {
      assert HolderRight(w, w.pool.guards[t].mu);
      u := w.holder[w.pool.guards[t].mu];
    }
  }

  /** Once every thread is idle the registry is empty: no entry survives its last guard. */
  lemma IdleLeavesNothing(start: World, g: Config, steps: seq<Step>)
    requires Initial(start) && Run(start, g, steps).Some?
    requires forall t :: 0 <= t < |Run(start, g, steps).value.threads| ==>
      Run(start, g, steps).value.threads[t].stage == Idle
    ensures Run(start, g, steps).value.pool.inflight == map[] && Run(start, g, steps).value.holder == map[]
  {
    InvReached(start, g, steps);
    var w := Run(start, g, steps).value;
    forall t | 0 <= t < |w.threads|
      ensures w.pool.guards[t] == I.EMPTY
    {
      assert ThreadRight(w, g, t);
    }
    forall key
      ensures key !in w.pool.inflight
    {
      NoneLive(w.pool.guards, key);
      assert I.Counted(w.pool, key);
    }
    assert forall m :: m in w.holder ==> HolderRight(w, m);
  }

  // ----- A lookup by itself -----

  function Ahead(s: Stage): nat {
    match s
    case Idle => 0
    case Probing => 8
    case Acquiring => 7
    case Waiting => 6
    case Rechecking => 5
    case Loading => 4
    case Filling => 3
    case Unlocking => 2
    case Releasing => 1
  }

  /** Thread `t` alone goes on until it is done, or has to wait. */
  function Finish(w: World, g: Config, t: nat, fails: bool): World
    requires t < |w.threads|
    decreases Ahead(w.threads[t].stage)
  {
    if Enabled(w, Act(t, fails)) then Finish(Advance(w, g, t, fails), g, t, fails) else w
  }

  /** From the unlocking on nothing is left to decide. */
  lemma LeavesAlone(w: World, g: Config, t: nat, fails: bool)
    requires t < |w.threads| && t < |w.pool.guards| && w.threads[t].stage == Unlocking
    ensures Finish(w, g, t, fails) ==
      Move(w, t, Idle).(holder := w.holder - {w.pool.guards[t].mu}, pool := I.Drop(w.pool, t))
  {
    var w1 := Advance(w, g, t, fails);
    assert Finish(w, g, t, fails) == Finish(w1, g, t, fails) == Finish(Advance(w1, g, t, fails), g, t, fails);
  }

  lemma FillsAlone(w: World, g: Config, t: nat, fails: bool)
    requires t < |w.threads| && t < |w.pool.guards| && w.threads[t].stage == Filling
    ensures var w', key := Finish(w, g, t, fails), w.threads[t].key;
      w' == Move(w, t, Idle).(cached := if g.caching then w.cached + {key} else w.cached,
        fills := w.fills + multiset{key}, holder := w.holder - {w.pool.guards[t].mu}, pool := I.Drop(w.pool, t))
  {
    var w1 := Advance(w, g, t, fails);
    assert Finish(w, g, t, fails) == Finish(w1, g, t, fails);
    LeavesAlone(w1, g, t, fails);
  }

  lemma LoadsAlone(w: World, g: Config, t: nat, fails: bool)
    requires t < |w.threads| && t < |w.pool.guards| && w.threads[t].stage == Loading
    ensures var w', key := Finish(w, g, t, fails), w.threads[t].key;
      && w'.threads == w.threads[t := Thread(key, Idle)] && w'.pool == I.Drop(w.pool, t)
      && w'.loads == w.loads && w'.holder == w.holder - {w.pool.guards[t].mu}
      && w'.failures == w.failures + (if fails then multiset{key} else multiset{})
      && w'.cached == w.cached + (if !fails && g.caching then {key} else {})
  {
    var w1 := Advance(w, g, t, fails);
    assert Finish(w, g, t, fails) == Finish(w1, g, t, fails);
    if fails { LeavesAlone(w1, g, t, fails); } else { FillsAlone(w1, g, t, fails); }
  }

  lemma RechecksAlone(w: World, g: Config, t: nat, fails: bool)
    requires t < |w.threads| && t < |w.pool.guards| && w.threads[t].stage == Rechecking
    requires !(g.caching && w.threads[t].key in w.cached)
    ensures var w', key := Finish(w, g, t, fails), w.threads[t].key;
      && w'.threads == w.threads[t := Thread(key, Idle)] && w'.pool == I.Drop(w.pool, t)
      && w'.loads == w.loads + multiset{key} && w'.holder == w.holder - {w.pool.guards[t].mu}
      && w'.failures == w.failures + (if fails then multiset{key} else multiset{})
      && w'.cached == w.cached + (if !fails && g.caching then {key} else {})
  {
    var w1 := Advance(w, g, t, fails);
    assert Finish(w, g, t, fails) == Finish(w1, g, t, fails);
    LoadsAlone(w1, g, t, fails);
  }

  /** Taking a reference and giving it back leaves the registry as it was. */
  lemma TakeAndDrop(p: I.Pool, t: nat, key: Key)
    requires I.Free(p, t) && p.guards[t] == I.EMPTY && (key in p.inflight ==> p.inflight[key].refs > 0)
    ensures I.Drop(I.Take(p, t, key), t).inflight == p.inflight && I.Drop(I.Take(p, t, key), t).guards == p.guards
  {
    var taken := I.Take(p, t, key);
    assert I.Released(taken.inflight, key) == p.inflight;
  }

  /** With nobody in the way a thread gets its guard and the lock. */
  lemma EntersAlone(w: World, g: Config, t: nat, fails: bool)
    requires t < |w.threads| && t < |w.pool.guards| && w.threads[t].stage == Acquiring
    requires w.holder == map[] && w.pool.guards[t] == I.EMPTY
    ensures var p := if g.registered then I.Take(w.pool, t, w.threads[t].key) else w.pool;
      Finish(w, g, t, fails) ==
        Finish(Move(w, t, Rechecking).(pool := p, holder := map[p.guards[t].mu := t]), g, t, fails)
  {
    var p := if g.registered then I.Take(w.pool, t, w.threads[t].key) else w.pool;
    var w1 := Advance(w, g, t, fails);
    var w2 := Advance(w1, g, t, fails);
    assert Finish(w, g, t, fails) == Finish(w1, g, t, fails) == Finish(w2, g, t, fails);
    assert w2.threads == Move(w, t, Rechecking).threads && w2.holder == map[p.guards[t].mu := t];
  }

  /** A lookup undisturbed, with nobody in the way: a cached route is returned as it is; otherwise there is one load,
      whose result is cached if there is a cache; and the registry and the locks are left as they were. */
  lemma LookupAlone(w: World, g: Config, t: nat, fails: bool)
    requires t < |w.threads| && t < |w.pool.guards| && w.threads[t].stage == Probing
    requires w.holder == map[] && w.pool.guards[t] == I.EMPTY
    requires var refs := w.pool.inflight; w.threads[t].key in refs ==> refs[w.threads[t].key].refs > 0
    ensures var w', key := Finish(w, g, t, fails), w.threads[t].key;
      var loads := !(g.caching && key in w.cached);
      && w'.threads == w.threads[t := Thread(key, Idle)] && w'.holder == map[]
      && w'.pool.inflight == w.pool.inflight && w'.pool.guards == w.pool.guards
      && w'.loads == w.loads + (if loads then multiset{key} else multiset{})
      && w'.failures == w.failures + (if loads && fails then multiset{key} else multiset{})
      && w'.cached == w.cached + (if loads && !fails && g.caching then {key} else {})
  {
    var w1 := Advance(w, g, t, fails);
    assert Finish(w, g, t, fails) == Finish(w1, g, t, fails);
    if !(g.caching && w.threads[t].key in w.cached) { MissesAlone(w1, g, t, fails); }
  }

  lemma MissesAlone(w: World, g: Config, t: nat, fails: bool)
    requires t < |w.threads| && t < |w.pool.guards| && w.threads[t].stage == Acquiring
    requires w.holder == map[] && w.pool.guards[t] == I.EMPTY && !(g.caching && w.threads[t].key in w.cached)
    requires var refs := w.pool.inflight; w.threads[t].key in refs ==> refs[w.threads[t].key].refs > 0
    ensures var w', key := Finish(w, g, t, fails), w.threads[t].key;
      && w'.threads == w.threads[t := Thread(key, Idle)] && w'.holder == map[]
      && w'.pool.inflight == w.pool.inflight && w'.pool.guards == w.pool.guards
      && w'.loads == w.loads + multiset{key}
      && w'.failures == w.failures + (if fails then multiset{key} else multiset{})
      && w'.cached == w.cached + (if !fails && g.caching then {key} else {})
  {
    var key := w.threads[t].key;
    var p := if g.registered then I.Take(w.pool, t, key) else w.pool;
    var w1 := Move(w, t, Rechecking).(pool := p, holder := map[p.guards[t].mu := t]);
    EntersAlone(w, g, t, fails);
    RechecksAlone(w1, g, t, fails);
    assert w1.threads[t := Thread(key, Idle)] == w.threads[t := Thread(key, Idle)];
    assert w1.holder - {p.guards[t].mu} == map[];
    if g.registered { TakeAndDrop(w.pool, t, key); } else { assert w.pool.guards[t := I.EMPTY] == w.pool.guards; }
  }
}
