/** The two models of the in-process limiter are one: the accesses of a caller that nobody
    interrupts (BucketCounter) have the effect of the call as one step (LocalLimiter) on the
    keys with a bucket, the counter and the locks. */
module LimiterRefinement {
  import opened Wrappers
  import opened ShardLimits
  import opened BucketCounter
  import L = LocalLimiter

  /** What decides the way of a caller that nobody interferes with: whether cleanup is due, which keys are idle, and
      where its reclaim scan would start and how many shards it would take in. */
  datatype Plan = Plan(due: bool, idle: set<Key>, start: nat, scan: nat)

  /** A cleanup erases the idle keys one by one; a compare-and-swap and an insertion succeed. */
  ghost function Choose(w: World, t: nat, plan: Plan): Choice
    requires Shaped(w) && t < |w.callers|
  {
    assert CallerShaped(w.callers[t]);
    match w.callers[t].stage
    case Entered => Choice(plan.due, "", 0)
    case Sweeping(at, _, _) =>
      var todo := w.shards[at] * plan.idle;
      if todo == {} then Choice(false, "", 0) else var k :| k in todo; Choice(true, k, 0)
    case SteppingOut => Choice(false, "", plan.start)
    case _ => Choice(true, "", 0)
  }

  /** An upper bound on the steps ahead, erasures of the cleanup under way apart. */
  function Ahead(s: Stage, count: int): nat {
    match s
    case Entering => 60
    case Entered => 59
    case Sweeping(_, _, ThenFind) => 58
    case Finding => 57
    case Sweeping(_, _, ThenReserve) => 53
    case Loading(round) => if round == 0 then 55 else if round == 1 then 51 else 5
    case Swapping(round, seen) =>
      (if round == 0 then 54 else if round == 1 then 50 else 4) + (if seen == count then 0 else 2)
    case SteppingOut => 49
    case Scanning(left, _) => 8 + 5 * left
    case Sweeping(_, _, ThenCheck(left)) => 8 + 5 * left + 4
    case Checking(left, _) => 8 + 5 * left + 3
    case Dropping(left, _) => 8 + 5 * left + 2
    case Refinding => 7
    case Inserting => 3
    case RollingBack => 2
    case Leaving => 1
    case Returned => 0
  }

  /** What the cleanup under way has still to erase. */
  function Unswept(w: World, t: nat, plan: Plan): nat
    requires Shaped(w) && t < |w.callers|
  {
    assert CallerShaped(w.callers[t]);
    var s := w.callers[t].stage;
    if s.Sweeping? then |w.shards[s.at] * plan.idle| else 0
  }

  lemma {:induction false} EraseOne(keys: set<Key>, idle: set<Key>, k: Key)
    requires k in keys * idle
    ensures |(keys - {k}) * idle| + 1 == |keys * idle| && (keys - {k}) - idle == keys - idle
  {
    assert (keys - {k}) * idle == keys * idle - {k};
  }

  lemma {:induction false} SweepComesCloser(w: World, t: nat, plan: Plan)
    requires Shaped(w) && t < |w.callers| && w.callers[t].stage.Sweeping?
    ensures Enabled(w, t, Choose(w, t, plan)) && |Next(w, t, Choose(w, t, plan)).callers| == |w.callers|
    ensures var ch := Choose(w, t, plan); var w' := Next(w, t, ch);
      var s, s' := w.callers[t].stage, w'.callers[t].stage;
      if ch.yes then
        && s' == Sweeping(s.at, s.erased + 1, s.next) && s.at < |w.shards| == |w'.shards|
        && |w'.shards[s.at] * plan.idle| < |w.shards[s.at] * plan.idle|
      else Ahead(s', w'.count) < Ahead(s, w.count)
  {
    assert CallerShaped(w.callers[t]);
    var ch := Choose(w, t, plan);
    if ch.yes { EraseOne(w.shards[w.callers[t].stage.at], plan.idle, ch.victim); }
  }

  lemma {:induction false} OtherComesCloser(w: World, t: nat, ch: Choice)
    requires Shaped(w) && Enabled(w, t, ch) && !w.callers[t].stage.Sweeping?
    requires ch.yes || !w.callers[t].stage.Swapping?
    ensures var w' := Next(w, t, ch);
      |w'.callers| == |w.callers| && Ahead(w'.callers[t].stage, w'.count) < Ahead(w.callers[t].stage, w.count)
  {
  }

  lemma {:induction false} StepComesCloser(w: World, t: nat, plan: Plan)
    requires Shaped(w) && t < |w.callers| && Enabled(w, t, Choose(w, t, plan)) && Shaped(Next(w, t, Choose(w, t, plan)))
    ensures |Next(w, t, Choose(w, t, plan)).callers| == |w.callers|
    ensures var w' := Next(w, t, Choose(w, t, plan));
      var before, after := Ahead(w.callers[t].stage, w.count), Ahead(w'.callers[t].stage, w'.count);
      after < before || (after == before && Unswept(w', t, plan) < Unswept(w, t, plan))
  {
    if w.callers[t].stage.Sweeping? {
      SweepComesCloser(w, t, plan);
    } else {
      OtherComesCloser(w, t, Choose(w, t, plan));
    }
  }

  /** Caller `t` alone goes on until it has returned, or finds a lock taken. */
  ghost function Alone(w: World, t: nat, plan: Plan): World
    requires Shaped(w) && t < |w.callers|
    decreases Ahead(w.callers[t].stage, w.count), Unswept(w, t, plan)
  {
    var ch := Choose(w, t, plan);
    if !Enabled(w, t, ch) then w
    else
      StepKeepsShape(w, t, ch);
      StepMovesOne(w, t, ch);
      StepComesCloser(w, t, plan);
      Alone(Next(w, t, ch), t, plan)
  }

  // ----- The call as one step, on keys and counter -----

  datatype Books = Books(shards: seq<set<Key>>, count: int)

  /** The counter is the number of stored keys. */
  predicate Fair(b: Books) {
    |b.shards| == SHARDS && b.count == Stored(b.shards)
  }

  function Swept(b: Books, i: nat, idle: set<Key>): Books
    requires i < |b.shards|
  {
    Books(b.shards[i := b.shards[i] - idle], b.count - |b.shards[i] * idle|)
  }

  /** Up to `left` shards from `at` on are cleaned, except the home shard, until there is room. */
  function Scanned(b: Books, left: nat, at: nat, home: nat, idle: set<Key>): Books
    requires |b.shards| == SHARDS
    decreases left
  {
    if left == 0 then b
    else if at % SHARDS == home then Scanned(b, left - 1, at + 1, home, idle)
    else
      var b' := Swept(b, at % SHARDS, idle);
      if b'.count < MAX_BUCKETS then b' else Scanned(b', left - 1, at + 1, home, idle)
  }

  function Inserted(b: Books, home: nat, key: Key): Books
    requires home < |b.shards|
  {
    Books(b.shards[home := b.shards[home] + {key}], b.count + 1)
  }

  /** What allow leaves after the scan, */
  function LastTry(b: Books, key: Key, home: nat): Books
    requires home < |b.shards|
  {
    if key !in b.shards[home] && b.count < MAX_BUCKETS then Inserted(b, home, key) else b
  }

  /** ... after the cleanup of its shard that makes room, */
  function SecondTry(b: Books, key: Key, home: nat, plan: Plan): Books
    requires |b.shards| == SHARDS && home < SHARDS
  {
    if b.count < MAX_BUCKETS then Inserted(b, home, key)
    else
      ScannedShape(b, plan.scan, plan.start, home, plan.idle);
      LastTry(Scanned(b, plan.scan, plan.start, home, plan.idle), key, home)
  }

  /** ... after the cleanup that may be due, */
  function FirstTry(b: Books, key: Key, home: nat, plan: Plan): Books
    requires |b.shards| == SHARDS && home < SHARDS
  {
    if key in b.shards[home] then b
    else if b.count < MAX_BUCKETS then Inserted(b, home, key)
    else SecondTry(Swept(b, home, plan.idle), key, home, plan)
  }

  /** ... and in all. */
  function Allowed(b: Books, key: Key, home: nat, plan: Plan): Books
    requires |b.shards| == SHARDS && home < SHARDS
  {
    FirstTry(if plan.due then Swept(b, home, plan.idle) else b, key, home, plan)
  }

  lemma {:induction false} ScannedShape(b: Books, left: nat, at: nat, home: nat, idle: set<Key>)
    requires |b.shards| == SHARDS
    ensures |Scanned(b, left, at, home, idle).shards| == SHARDS
    ensures home < SHARDS ==> Scanned(b, left, at, home, idle).shards[home] == b.shards[home]
    decreases left
  {
    if left > 0 {
      var b' := if at % SHARDS == home then b else Swept(b, at % SHARDS, idle);
      ScannedShape(b', left - 1, at + 1, home, idle);
    }
  }

  lemma {:induction false} SweptIsFair(b: Books, i: nat, idle: set<Key>)
    requires Fair(b) && i < SHARDS
    ensures Fair(Swept(b, i, idle))
  {
    StoredUpdate(b.shards, i, b.shards[i] - idle);
    assert b.shards[i] == (b.shards[i] - idle) + (b.shards[i] * idle);
  }

  lemma {:induction false} ScannedIsFair(b: Books, left: nat, at: nat, home: nat, idle: set<Key>)
    requires Fair(b)
    ensures Fair(Scanned(b, left, at, home, idle))
    decreases left
  {
    if left > 0 {
      var b' := if at % SHARDS == home then b else Swept(b, at % SHARDS, idle);
      if at % SHARDS != home { SweptIsFair(b, at % SHARDS, idle); }
      ScannedIsFair(b', left - 1, at + 1, home, idle);
    }
  }

  // ----- The accesses in a row -----

  /** The world in which only caller `t` has moved. */
  function At(w: World, t: nat, s: Stage, locks: seq<Option<nat>>, b: Books): World
    requires t < |w.callers|
  {
    World(b.shards, locks, b.count, w.callers[t := w.callers[t].(stage := s)])
  }

  predicate Sized(w: World, t: nat, s: Stage, locks: seq<Option<nat>>, b: Books) {
    Shaped(w) && t < |w.callers| && |locks| == |b.shards| == SHARDS && CallerShaped(w.callers[t].(stage := s))
  }

  lemma {:induction false} SizedIsShaped(w: World, t: nat, s: Stage, locks: seq<Option<nat>>, b: Books)
    requires Sized(w, t, s, locks, b)
    ensures Shaped(At(w, t, s, locks, b))
  {
  }

  /** What the caller alone makes of such a world. */
  ghost function Rest(w: World, t: nat, plan: Plan, s: Stage, locks: seq<Option<nat>>, b: Books): World
    requires Sized(w, t, s, locks, b)
  {
    SizedIsShaped(w, t, s, locks, b);
    Alone(At(w, t, s, locks, b), t, plan)
  }

  predicate Unlocked(locks: seq<Option<nat>>) {
    forall i :: 0 <= i < |locks| ==> locks[i].None?
  }

  /** Two worlds of this kind are equal if what can differ is. */
  lemma {:induction false} SameAt(w: World, t: nat, x: World, s: Stage, locks: seq<Option<nat>>, b: Books)
    requires t < |w.callers| == |x.callers| && x.locks == locks && x.shards == b.shards && x.count == b.count
    requires x.callers[t] == w.callers[t].(stage := s)
    requires forall u :: 0 <= u < |w.callers| && u != t ==> x.callers[u] == w.callers[u]
    ensures x == At(w, t, s, locks, b)
  {
    assert x.callers == At(w, t, s, locks, b).callers;
  }

  /** One step of the caller alone. */
  lemma {:induction false} Hop(w: World, t: nat, plan: Plan, s: Stage, locks: seq<Option<nat>>, b: Books, s': Stage,
            locks': seq<Option<nat>>, b': Books)
    requires Sized(w, t, s, locks, b) && Sized(w, t, s', locks', b') && Shaped(At(w, t, s, locks, b))
    requires var x := At(w, t, s, locks, b); Enabled(x, t, Choose(x, t, plan))
    requires var x := At(w, t, s, locks, b); Next(x, t, Choose(x, t, plan)) == At(w, t, s', locks', b')
    ensures Rest(w, t, plan, s, locks, b) == Rest(w, t, plan, s', locks', b')
  {
  }

  /** Nothing left to erase: the count is taken off. */
  lemma {:induction false} SweepEnds(w: World, t: nat, plan: Plan, locks: seq<Option<nat>>, b: Books, at: nat,
                                     erased: nat, next: After)
    requires Sized(w, t, Sweeping(at, erased, next), locks, b) && b.shards[at] * plan.idle == {}
    ensures Sized(w, t, Resume(next, at), locks, b)
    ensures Rest(w, t, plan, Sweeping(at, erased, next), locks, b) ==
      Rest(w, t, plan, Resume(next, at), locks, b.(count := b.count - erased))
  {
    var x := At(w, t, Sweeping(at, erased, next), locks, b);
    SizedIsShaped(w, t, Sweeping(at, erased, next), locks, b);
    SameAt(w, t, Next(x, t, Choose(x, t, plan)), Resume(next, at), locks, b.(count := b.count - erased));
    Hop(w, t, plan, Sweeping(at, erased, next), locks, b, Resume(next, at), locks, b.(count := b.count - erased));
  }

  lemma {:induction false} SweepGoesOn(w: World, t: nat, plan: Plan, locks: seq<Option<nat>>, b: Books, at: nat,
                                       erased: nat, next: After)
    returns (k: Key)
    requires Sized(w, t, Sweeping(at, erased, next), locks, b) && b.shards[at] * plan.idle != {}
    ensures k in b.shards[at] * plan.idle
    ensures var b' := b.(shards := b.shards[at := b.shards[at] - {k}]);
      && Sized(w, t, Sweeping(at, erased + 1, next), locks, b')
      && Rest(w, t, plan, Sweeping(at, erased, next), locks, b) ==
         Rest(w, t, plan, Sweeping(at, erased + 1, next), locks, b')
  {
    var x := At(w, t, Sweeping(at, erased, next), locks, b);
    SizedIsShaped(w, t, Sweeping(at, erased, next), locks, b);
    k := Choose(x, t, plan).victim;
    var b' := b.(shards := b.shards[at := b.shards[at] - {k}]);
    SameAt(w, t, Next(x, t, Choose(x, t, plan)), Sweeping(at, erased + 1, next), locks, b');
    Hop(w, t, plan, Sweeping(at, erased, next), locks, b, Sweeping(at, erased + 1, next), locks, b');
  }

  lemma {:induction false} SweptAlready(b: Books, at: nat, idle: set<Key>)
    requires at < |b.shards| && b.shards[at] * idle == {}
    ensures Swept(b, at, idle) == b
  {
    assert forall k :: k in b.shards[at] && k in idle ==> k in b.shards[at] * idle;
    assert b.shards[at] - idle == b.shards[at];
  }

  lemma {:induction false} SweptOneLess(b: Books, at: nat, idle: set<Key>, k: Key)
    requires at < |b.shards| && k in b.shards[at] * idle
    ensures var b' := b.(shards := b.shards[at := b.shards[at] - {k}]);
      Swept(b', at, idle) == Swept(b, at, idle).(count := Swept(b, at, idle).count + 1)
  {
    EraseOne(b.shards[at], idle, k);
    var b' := b.(shards := b.shards[at := b.shards[at] - {k}]);
    assert b'.shards[at := b'.shards[at] - idle] == b.shards[at := b.shards[at] - idle];
  }

  lemma {:induction false} SweepsAlone(w: World, t: nat, plan: Plan, locks: seq<Option<nat>>, b: Books, at: nat,
                                       erased: nat, next: After)
    requires Sized(w, t, Sweeping(at, erased, next), locks, b)
    ensures Sized(w, t, Resume(next, at), locks, Swept(b, at, plan.idle))
    ensures Rest(w, t, plan, Sweeping(at, erased, next), locks, b) ==
      var b' := Swept(b, at, plan.idle); Rest(w, t, plan, Resume(next, at), locks, b'.(count := b'.count - erased))
    decreases |b.shards[at] * plan.idle|
  {
    if b.shards[at] * plan.idle == {} {
      SweptAlready(b, at, plan.idle);
      SweepEnds(w, t, plan, locks, b, at, erased, next);
    } else {
      var k := SweepGoesOn(w, t, plan, locks, b, at, erased, next);
      EraseOne(b.shards[at], plan.idle, k);
      SweptOneLess(b, at, plan.idle, k);
      SweepsAlone(w, t, plan, locks, b.(shards := b.shards[at := b.shards[at] - {k}]), at, erased + 1, next);
    }
  }

  lemma {:induction false} LeavesAlone(w: World, t: nat, plan: Plan, locks: seq<Option<nat>>, b: Books)
    requires Sized(w, t, Leaving, locks, b)
    ensures Rest(w, t, plan, Leaving, locks, b) == At(w, t, Returned, locks[w.callers[t].home := None], b)
  {
    var x, home := At(w, t, Leaving, locks, b), w.callers[t].home;
    SizedIsShaped(w, t, Leaving, locks, b);
    SameAt(w, t, Next(x, t, Choose(x, t, plan)), Returned, locks[home := None], b);
    Hop(w, t, plan, Leaving, locks, b, Returned, locks[home := None], b);
  }

  lemma {:induction false} InsertsAlone(w: World, t: nat, plan: Plan, locks: seq<Option<nat>>, b: Books)
    requires Sized(w, t, Inserting, locks, b)
    ensures var c := w.callers[t];
      Rest(w, t, plan, Inserting, locks, b) ==
        At(w, t, Returned, locks[c.home := None], Books(b.shards[c.home := b.shards[c.home] + {c.key}], b.count))
  {
    var c := w.callers[t];
    var x, b' := At(w, t, Inserting, locks, b), Books(b.shards[c.home := b.shards[c.home] + {c.key}], b.count);
    SizedIsShaped(w, t, Inserting, locks, b);
    SameAt(w, t, Next(x, t, Choose(x, t, plan)), Leaving, locks, b');
    Hop(w, t, plan, Inserting, locks, b, Leaving, locks, b');
    LeavesAlone(w, t, plan, locks, b');
  }

  lemma {:induction false} SwapsAlone(w: World, t: nat, plan: Plan, locks: seq<Option<nat>>, b: Books, round: nat)
    requires 0 <= b.count < MAX_BUCKETS && Sized(w, t, Swapping(round, b.count), locks, b)
    ensures var c := w.callers[t];
      Rest(w, t, plan, Swapping(round, b.count), locks, b) ==
        At(w, t, Returned, locks[c.home := None], Inserted(b, c.home, c.key))
  {
    var s := Swapping(round, b.count);
    var x := At(w, t, s, locks, b);
    SizedIsShaped(w, t, s, locks, b);
    SameAt(w, t, Next(x, t, Choose(x, t, plan)), Inserting, locks, b.(count := b.count + 1));
    Hop(w, t, plan, s, locks, b, Inserting, locks, b.(count := b.count + 1));
    InsertsAlone(w, t, plan, locks, b.(count := b.count + 1));
  }

  /** A reservation below the limit leads to the insertion; at the limit the caller goes on as the round says. */
  lemma {:induction false} ReservesAlone(w: World, t: nat, plan: Plan, locks: seq<Option<nat>>, b: Books, round: nat)
    requires Sized(w, t, Loading(round), locks, b) && b.count >= 0
    ensures var c := w.callers[t];
      Rest(w, t, plan, Loading(round), locks, b) ==
        if b.count < MAX_BUCKETS then At(w, t, Returned, locks[c.home := None], Inserted(b, c.home, c.key))
        else Rest(w, t, plan, Refused(round, c.home), locks, b)
  {
    var x, home := At(w, t, Loading(round), locks, b), w.callers[t].home;
    SizedIsShaped(w, t, Loading(round), locks, b);
    var s := if b.count < MAX_BUCKETS then Swapping(round, b.count) else Refused(round, home);
    SameAt(w, t, Next(x, t, Choose(x, t, plan)), s, locks, b);
    Hop(w, t, plan, Loading(round), locks, b, s, locks, b);
    if b.count < MAX_BUCKETS { SwapsAlone(w, t, plan, locks, b, round); }
  }

  /** One candidate of the scan is locked, cleaned and released. */
  lemma {:induction false} CandidateAlone(w: World, t: nat, plan: Plan, locks: seq<Option<nat>>, b: Books, left: nat,
                                          at: nat)
    requires Sized(w, t, Scanning(left, at), locks, b) && Unlocked(locks) && left > 0 && at != w.callers[t].home
    ensures var b' := Swept(b, at, plan.idle);
      Rest(w, t, plan, Scanning(left, at), locks, b) ==
        Rest(w, t, plan, Scanning(if b'.count < MAX_BUCKETS then 0 else left - 1, (at + 1) % SHARDS), locks, b')
  {
    var held, b' := locks[at := Some(t)], Swept(b, at, plan.idle);
    var x := At(w, t, Scanning(left, at), locks, b);
    SizedIsShaped(w, t, Scanning(left, at), locks, b);
    SameAt(w, t, Next(x, t, Choose(x, t, plan)), Sweeping(at, 0, ThenCheck(left - 1)), held, b);
    Hop(w, t, plan, Scanning(left, at), locks, b, Sweeping(at, 0, ThenCheck(left - 1)), held, b);
    SweepsAlone(w, t, plan, held, b, at, 0, ThenCheck(left - 1));
    CheckedAlone(w, t, plan, locks, b', left - 1, at);
  }

  lemma {:induction false} CheckedAlone(w: World, t: nat, plan: Plan, locks: seq<Option<nat>>, b: Books, left: nat,
                                        at: nat)
    requires at < |locks| == SHARDS && Unlocked(locks) && Sized(w, t, Checking(left, at), locks[at := Some(t)], b)
    ensures
      Rest(w, t, plan, Checking(left, at), locks[at := Some(t)], b) ==
        Rest(w, t, plan, Scanning(if b.count < MAX_BUCKETS then 0 else left, (at + 1) % SHARDS), locks, b)
  {
    var held, rest := locks[at := Some(t)], if b.count < MAX_BUCKETS then 0 else left;
    var x := At(w, t, Checking(left, at), held, b);
    SizedIsShaped(w, t, Checking(left, at), held, b);
    SameAt(w, t, Next(x, t, Choose(x, t, plan)), Dropping(rest, at), held, b);
    Hop(w, t, plan, Checking(left, at), held, b, Dropping(rest, at), held, b);
    var y := At(w, t, Dropping(rest, at), held, b);
    SizedIsShaped(w, t, Dropping(rest, at), held, b);
    assert held[at := None] == locks;
    SameAt(w, t, Next(y, t, Choose(y, t, plan)), Scanning(rest, (at + 1) % SHARDS), locks, b);
    Hop(w, t, plan, Dropping(rest, at), held, b, Scanning(rest, (at + 1) % SHARDS), locks, b);
  }

  /** The scan, and back to the home shard. */
  lemma {:induction false} ScansAlone(w: World, t: nat, plan: Plan, locks: seq<Option<nat>>, b: Books, left: nat,
                                      at: nat)
    requires Sized(w, t, Scanning(left, at % SHARDS), locks, b) && Unlocked(locks)
    ensures var home := w.callers[t].home; var b' := Scanned(b, left, at, home, plan.idle);
      |b'.shards| == SHARDS && Rest(w, t, plan, Scanning(left, at % SHARDS), locks, b) ==
        Rest(w, t, plan, Refinding, locks[home := Some(t)], b')
    decreases left
  {
    var home, i := w.callers[t].home, at % SHARDS;
    ScannedShape(b, left, at, home, plan.idle);
    SizedIsShaped(w, t, Scanning(left, i), locks, b);
    var x := At(w, t, Scanning(left, i), locks, b);
    assert (i + 1) % SHARDS == (at + 1) % SHARDS;
    if left == 0 {
      SameAt(w, t, Next(x, t, Choose(x, t, plan)), Refinding, locks[home := Some(t)], b);
      Hop(w, t, plan, Scanning(left, i), locks, b, Refinding, locks[home := Some(t)], b);
    } else if i == home {
      SameAt(w, t, Next(x, t, Choose(x, t, plan)), Scanning(left - 1, (i + 1) % SHARDS), locks, b);
      Hop(w, t, plan, Scanning(left, i), locks, b, Scanning(left - 1, (i + 1) % SHARDS), locks, b);
      ScansAlone(w, t, plan, locks, b, left - 1, at + 1);
    } else {
      var b' := Swept(b, i, plan.idle);
      CandidateAlone(w, t, plan, locks, b, left, i);
      ScansAlone(w, t, plan, locks, b', if b'.count < MAX_BUCKETS then 0 else left - 1, at + 1);
    }
  }

  lemma {:induction false} LastTryAlone(w: World, t: nat, plan: Plan, locks: seq<Option<nat>>, b: Books)
    requires Sized(w, t, Refinding, locks, b) && Fair(b)
    ensures var c := w.callers[t];
      Rest(w, t, plan, Refinding, locks, b) == At(w, t, Returned, locks[c.home := None], LastTry(b, c.key, c.home))
  {
    var c, x := w.callers[t], At(w, t, Refinding, locks, b);
    var s := if c.key in b.shards[c.home] then Leaving else Loading(2);
    SizedIsShaped(w, t, Refinding, locks, b);
    SameAt(w, t, Next(x, t, Choose(x, t, plan)), s, locks, b);
    Hop(w, t, plan, Refinding, locks, b, s, locks, b);
    LeavesAlone(w, t, plan, locks, b);
    if s.Loading? { ReservesAlone(w, t, plan, locks, b, 2); }
  }

  lemma {:induction false} SecondTryAlone(w: World, t: nat, plan: Plan, locks: seq<Option<nat>>, b: Books)
    requires Shaped(w) && t < |w.callers| && |locks| == SHARDS && Unlocked(locks) && Fair(b)
    requires plan.scan == RECLAIM_SCAN
    ensures var c := w.callers[t]; c.home < SHARDS && var held := locks[c.home := Some(t)];
      Sized(w, t, Loading(1), held, b) &&
      Rest(w, t, plan, Loading(1), held, b) == At(w, t, Returned, locks, SecondTry(b, c.key, c.home, plan))
  {
    var c := w.callers[t];
    var held, at := locks[c.home := Some(t)], plan.start % SHARDS;
    assert held[c.home := None] == locks;
    ReservesAlone(w, t, plan, held, b, 1);
    if b.count >= MAX_BUCKETS {
      var x := At(w, t, SteppingOut, held, b);
      SizedIsShaped(w, t, SteppingOut, held, b);
      SameAt(w, t, Next(x, t, Choose(x, t, plan)), Scanning(plan.scan, at), locks, b);
      Hop(w, t, plan, SteppingOut, held, b, Scanning(plan.scan, at), locks, b);
      ScansAlone(w, t, plan, locks, b, plan.scan, plan.start);
      ScannedIsFair(b, plan.scan, plan.start, c.home, plan.idle);
      LastTryAlone(w, t, plan, held, Scanned(b, plan.scan, plan.start, c.home, plan.idle));
    }
  }

  lemma {:induction false} FirstTryAlone(w: World, t: nat, plan: Plan, locks: seq<Option<nat>>, b: Books)
    requires Shaped(w) && t < |w.callers| && |locks| == SHARDS && Unlocked(locks) && Fair(b)
    requires plan.scan == RECLAIM_SCAN
    ensures var c := w.callers[t]; c.home < SHARDS && var held := locks[c.home := Some(t)];
      Sized(w, t, Finding, held, b) &&
      Rest(w, t, plan, Finding, held, b) == At(w, t, Returned, locks, FirstTry(b, c.key, c.home, plan))
  {
    var c := w.callers[t];
    var held := locks[c.home := Some(t)];
    assert held[c.home := None] == locks;
    var x, s := At(w, t, Finding, held, b), if c.key in b.shards[c.home] then Leaving else Loading(0);
    SizedIsShaped(w, t, Finding, held, b);
    SameAt(w, t, Next(x, t, Choose(x, t, plan)), s, held, b);
    Hop(w, t, plan, Finding, held, b, s, held, b);
    LeavesAlone(w, t, plan, held, b);
    if s.Loading? {
      ReservesAlone(w, t, plan, held, b, 0);
      if b.count >= MAX_BUCKETS {
        SweepsAlone(w, t, plan, held, b, c.home, 0, ThenReserve);
        SweptIsFair(b, c.home, plan.idle);
        SecondTryAlone(w, t, plan, locks, Swept(b, c.home, plan.idle));
      }
    }
  }

  /** The shard is locked, and cleaned if that is due. */
  lemma {:induction false} EntersAlone(w: World, t: nat, plan: Plan, locks: seq<Option<nat>>, b: Books)
    requires Sized(w, t, Entering, locks, b) && Unlocked(locks)
    ensures var home := w.callers[t].home; var held := locks[home := Some(t)];
      var b' := if plan.due then Swept(b, home, plan.idle) else b;
      Sized(w, t, Finding, held, b') && Rest(w, t, plan, Entering, locks, b) == Rest(w, t, plan, Finding, held, b')
  {
    var home := w.callers[t].home;
    var held, x := locks[home := Some(t)], At(w, t, Entering, locks, b);
    SizedIsShaped(w, t, Entering, locks, b);
    SameAt(w, t, Next(x, t, Choose(x, t, plan)), Entered, held, b);
    Hop(w, t, plan, Entering, locks, b, Entered, held, b);
    var y, s := At(w, t, Entered, held, b), if plan.due then Sweeping(home, 0, ThenFind) else Finding;
    SizedIsShaped(w, t, Entered, held, b);
    SameAt(w, t, Next(y, t, Choose(y, t, plan)), s, held, b);
    Hop(w, t, plan, Entered, held, b, s, held, b);
    if plan.due { SweepsAlone(w, t, plan, held, b, home, 0, ThenFind); }
  }

  /** A caller of allow that finds every lock free and is not interrupted leaves what the call as one step leaves. */
  lemma {:induction false} AllowAlone(w: World, t: nat, plan: Plan, b: Books)
    requires Shaped(w) && t < |w.callers| && w.callers[t].stage == Entering && Unlocked(w.locks)
    requires b == Books(w.shards, w.count) && Fair(b) && plan.scan == RECLAIM_SCAN
    ensures w.callers[t].home < SHARDS
    ensures var c := w.callers[t];
      Alone(w, t, plan) == At(w, t, Returned, w.locks, Allowed(b, c.key, c.home, plan))
  {
    var c := w.callers[t];
    assert CallerShaped(c);
    SameAt(w, t, w, Entering, w.locks, b);
    EntersAlone(w, t, plan, w.locks, b);
    if plan.due { SweptIsFair(b, c.home, plan.idle); }
    FirstTryAlone(w, t, plan, w.locks, if plan.due then Swept(b, c.home, plan.idle) else b);
  }

  // ----- The call of LocalLimiter, seen on keys and counter -----

  /** The keys with a bucket. */
  function KeysIn(shards: L.Shards): (keys: seq<set<Key>>)
    ensures |keys| == |shards| && forall i :: 0 <= i < |shards| ==> keys[i] == shards[i].Keys
  {
    seq(|shards|, i requires 0 <= i < |shards| => shards[i].Keys)
  }

  function BooksOf(s: L.State): Books {
    Books(KeysIn(s.shards), s.count)
  }

  function IdleKeys(shards: L.Shards, now: int, windowSec: int): set<Key> {
    set i, k | 0 <= i < |shards| && k in shards[i] && L.IdleAt(shards[i][k], now, windowSec) :: k
  }

  /** Cleanup of any shard takes away exactly these keys. */
  predicate IdleAre(shards: L.Shards, idle: set<Key>, now: int, windowSec: int) {
    forall i {:trigger L.Kept(shards[i], now, windowSec)} :: 0 <= i < |shards| ==>
      L.Kept(shards[i], now, windowSec).Keys == shards[i].Keys - idle
  }

  /** Since every key is in one shard only, those idle anywhere are those. */
  lemma {:induction false} IdleKeysAre(hash: Key -> nat, shards: L.Shards, now: int, windowSec: int)
    requires L.Sharded(hash, shards)
    ensures IdleAre(shards, IdleKeys(shards, now, windowSec), now, windowSec)
  {
    var idle := IdleKeys(shards, now, windowSec);
    forall i, k | 0 <= i < |shards| && k in shards[i]
      ensures k in idle <==> L.IdleAt(shards[i][k], now, windowSec)
    {
      assert L.Home(hash, k) == i;
      if k in idle {
        var j :| 0 <= j < |shards| && k in shards[j] && L.IdleAt(shards[j][k], now, windowSec);
        assert L.Home(hash, k) == j;
      }
    }
  }

  lemma {:induction false} KeptCounts(m: map<Key, L.Bucket>, kept: map<Key, L.Bucket>, idle: set<Key>)
    requires kept.Keys == m.Keys - idle
    ensures |m| - |kept| == |m.Keys * idle|
  {
    assert m.Keys == kept.Keys + (m.Keys * idle);
    assert |m| == |m.Keys| && |kept| == |kept.Keys|;
  }

  lemma {:induction false} KeptTwice(m: map<Key, L.Bucket>, now: int, windowSec: int)
    ensures L.Kept(L.Kept(m, now, windowSec), now, windowSec) == L.Kept(m, now, windowSec)
  {
  }

  lemma {:induction false} CleanedIsSwept(s: L.State, i: nat, idle: set<Key>, now: int, windowSec: int)
    requires i < |s.shards| && IdleAre(s.shards, idle, now, windowSec)
    ensures var s' := L.Cleaned(s, i, now, windowSec);
      IdleAre(s'.shards, idle, now, windowSec) && BooksOf(s') == Swept(BooksOf(s), i, idle)
  {
    var kept := L.Kept(s.shards[i], now, windowSec);
    KeptCounts(s.shards[i], kept, idle);
    KeptTwice(s.shards[i], now, windowSec);
    assert KeysIn(s.shards[i := kept]) == KeysIn(s.shards)[i := kept.Keys];
  }

  /** One round of the scan, which cleans shard `i` unless that is the home shard. */
  lemma {:induction false} RoundIsSwept(s: L.State, target: nat, index: nat, i: nat, idle: set<Key>, now: int,
                                        windowSec: int)
    requires |s.shards| == SHARDS && IdleAre(s.shards, idle, now, windowSec) && i == index % SHARDS
    ensures var (c, done) := L.ReclaimRound(s, target, index, now, windowSec);
      && IdleAre(c.shards, idle, now, windowSec) && (done <==> i != target && c.count < MAX_BUCKETS)
      && BooksOf(c) == if i == target then BooksOf(s) else Swept(BooksOf(s), i, idle)
  {
    if i != target { CleanedIsSwept(s, i, idle, now, windowSec); }
  }

  lemma {:induction false} ScanUnfolds(b: Books, left: nat, at: nat, i: nat, home: nat, idle: set<Key>, b': Books)
    requires |b.shards| == SHARDS && left > 0 && i == at % SHARDS
    requires b' == if i == home then b else Swept(b, i, idle)
    ensures |b'.shards| == SHARDS && Scanned(b, left, at, home, idle) ==
      if i != home && b'.count < MAX_BUCKETS then b' else Scanned(b', left - 1, at + 1, home, idle)
  {
  }

  lemma {:induction false} ReclaimedIsScanned(s: L.State, target: nat, index: nat, end: nat, idle: set<Key>, now: int,
                                              windowSec: int)
    requires |s.shards| == SHARDS && IdleAre(s.shards, idle, now, windowSec) && index <= end
    ensures BooksOf(L.ReclaimedFrom(s, target, index, end, now, windowSec)) ==
      Scanned(BooksOf(s), end - index, index, target, idle)
    decreases end - index
  {
    if index < end {
      var i, b := index % SHARDS, BooksOf(s);
      var (c, done) := L.ReclaimRound(s, target, index, now, windowSec);
      RoundIsSwept(s, target, index, i, idle, now, windowSec);
      ScanUnfolds(b, end - index, index, i, target, idle, BooksOf(c));
      if !done { ReclaimedIsScanned(c, target, index + 1, end, idle, now, windowSec); }
    }
  }

  /** The scan leaves the home shard alone, so a key that is not there does not turn up. */
  lemma {:induction false} StillMissing(d: L.State, b: Books, n: nat, at: nat, home: nat, idle: set<Key>, key: Key)
    requires |b.shards| == |d.shards| == SHARDS && home < SHARDS && BooksOf(d) == Scanned(b, n, at, home, idle)
    requires key !in b.shards[home]
    ensures key !in d.shards[home]
  {
    ScannedShape(b, n, at, home, idle);
    assert BooksOf(d).shards[home] == d.shards[home].Keys;
  }

  /** reclaim_idle_bounded_, as RoomMade calls it. */
  lemma {:induction false} ReclaimingIsScanned(s: L.State, home: nat, end: nat, idle: set<Key>, now: int,
                                               windowSec: int, d: L.State)
    requires |s.shards| == SHARDS && IdleAre(s.shards, idle, now, windowSec) && end == s.cursor + RECLAIM_SCAN
    requires d == L.ReclaimedFrom(s.(cursor := end), home, s.cursor, end, now, windowSec)
    ensures BooksOf(d) == Scanned(BooksOf(s), end - s.cursor, s.cursor, home, idle)
  {
    ReclaimedIsScanned(s.(cursor := end), home, s.cursor, end, idle, now, windowSec);
  }

  /** The books once the key is in. */
  function With(b: Books, home: nat, key: Key): Books
    requires home < |b.shards|
  {
    Books(b.shards[home := b.shards[home] + {key}], b.count)
  }

  lemma {:induction false} ReserveInserts(s: L.State, home: nat, key: Key)
    requires home < |s.shards| && s.count < MAX_BUCKETS
    ensures With(BooksOf(L.Reserve(s).0), home, key) == Inserted(BooksOf(s), home, key)
  {
  }

  /** The last try, after reclaiming left `d`. */
  lemma {:induction false} LastTryIs(d: L.State, home: nat, key: Key, m: L.State, room: L.Room)
    requires |d.shards| == SHARDS && home < SHARDS && key !in d.shards[home]
    requires (m, room) == if L.Reserve(d).1 then (L.Reserve(d).0, L.Reserved) else (d, L.Full)
    ensures key !in m.shards[home]
    ensures LastTry(BooksOf(d), key, home) == if room.Full? then BooksOf(m) else With(BooksOf(m), home, key)
  {
    assert BooksOf(d).shards[home] == d.shards[home].Keys;
    if d.count < MAX_BUCKETS { ReserveInserts(d, home, key); }
  }

  /** The second try, after the cleanup of the home shard left `c`. */
  lemma {:induction false} SecondTryIs(c: L.State, home: nat, key: Key, plan: Plan, now: int, windowSec: int,
                                       d: L.State)
    requires |c.shards| == |d.shards| == SHARDS && home < SHARDS && key !in c.shards[home] && c.count >= MAX_BUCKETS
    requires BooksOf(d) == Scanned(BooksOf(c), plan.scan, plan.start, home, plan.idle)
    ensures key !in d.shards[home]
    ensures SecondTry(BooksOf(c), key, home, plan) == LastTry(BooksOf(d), key, home)
  {
    assert BooksOf(c).shards[home] == c.shards[home].Keys;
    StillMissing(d, BooksOf(c), plan.scan, plan.start, home, plan.idle, key);
  }

  /** Room at the limit, where the cleanup of the home shard left `c`. */
  lemma {:induction false} RoomAtLimit(c: L.State, home: nat, key: Key, plan: Plan, now: int, windowSec: int,
                                       m: L.State, room: L.Room)
    requires |c.shards| == SHARDS && home < SHARDS && key !in c.shards[home] && c.count >= MAX_BUCKETS
    requires IdleAre(c.shards, plan.idle, now, windowSec) && plan.start == c.cursor && plan.scan == RECLAIM_SCAN
    requires var d := L.Reclaimed(c, home, now, windowSec);
      (m, room) == if key in d.shards[home] then (d, L.Present)
                   else if L.Reserve(d).1 then (L.Reserve(d).0, L.Reserved) else (d, L.Full)
    ensures |m.shards| == SHARDS && !room.Present? && key !in m.shards[home]
    ensures SecondTry(BooksOf(c), key, home, plan) == if room.Full? then BooksOf(m) else With(BooksOf(m), home, key)
  {
    var d := L.Reclaimed(c, home, now, windowSec);
    ReclaimingIsScanned(c, home, c.cursor + RECLAIM_SCAN, plan.idle, now, windowSec, d);
    SecondTryIs(c, home, key, plan, now, windowSec, d);
    LastTryIs(d, home, key, m, room);
  }

  /** Room is made, or not, as the tries say. */
  lemma {:induction false} RoomIsTries(s: L.State, home: nat, key: Key, plan: Plan, now: int, windowSec: int)
    requires |s.shards| == SHARDS && home < SHARDS && key !in s.shards[home]
    requires IdleAre(s.shards, plan.idle, now, windowSec) && plan.start == s.cursor && plan.scan == RECLAIM_SCAN
    ensures var (m, room) := L.RoomMade(s, home, key, now, windowSec);
      && !room.Present? && key !in m.shards[home]
      && FirstTry(BooksOf(s), key, home, plan) == if room.Full? then BooksOf(m) else With(BooksOf(m), home, key)
  {
    var (m, room) := L.RoomMade(s, home, key, now, windowSec);
    assert BooksOf(s).shards[home] == s.shards[home].Keys;
    if s.count < MAX_BUCKETS {
      ReserveInserts(s, home, key);
    } else {
      var c := L.Cleaned(s, home, now, windowSec);
      CleanedIsSwept(s, home, plan.idle, now, windowSec);
      assert c.cursor == s.cursor && key !in c.shards[home];
      assert FirstTry(BooksOf(s), key, home, plan) == SecondTry(BooksOf(c), key, home, plan);
      if c.count < MAX_BUCKETS {
        ReserveInserts(c, home, key);
      } else {
        RoomAtLimit(c, home, key, plan, now, windowSec, m, room);
      }
    }
  }

  lemma {:induction false} StoredInserts(hash: Key -> nat, s: L.State, r: L.Request)
    requires |s.shards| == SHARDS && L.Counts(r)
    ensures BooksOf(L.Stored(hash, s, r).0) == With(BooksOf(s), L.Home(hash, r.key), r.key)
  {
    var home, after := L.Home(hash, r.key), L.Stored(hash, s, r).0;
    forall i | 0 <= i < SHARDS
      ensures KeysIn(after.shards)[i] == With(BooksOf(s), home, r.key).shards[i]
    {
      if i == home { assert after.shards[i].Keys == s.shards[i].Keys + {r.key}; }
    }
  }

  /** What decides the way of a call in this state. */
  function PlanOf(s: L.State, r: L.Request): Plan {
    Plan((s.operations + 1) % CLEANUP_EVERY == 0, IdleKeys(s.shards, r.now, r.windowSec), s.cursor, RECLAIM_SCAN)
  }

  lemma {:induction false} CallIsAllowed(hash: Key -> nat, s: L.State, r: L.Request)
    requires L.Sharded(hash, s.shards) && L.Counts(r)
    ensures BooksOf(L.Call(hash, s, r).0) == Allowed(BooksOf(s), r.key, L.Home(hash, r.key), PlanOf(s, r))
  {
    var home, b, plan := L.Home(hash, r.key), L.Begun(hash, s, r), PlanOf(s, r);
    IdleKeysAre(hash, s.shards, r.now, r.windowSec);
    CleanedIsSwept(s.(operations := s.operations + 1), home, plan.idle, r.now, r.windowSec);
    assert BooksOf(b) == if plan.due then Swept(BooksOf(s), home, plan.idle) else BooksOf(s);
    if r.key in b.shards[home] {
      StoredInserts(hash, b, r);
      assert BooksOf(b).shards[home] + {r.key} == BooksOf(b).shards[home];
    } else {
      var (m, room) := L.RoomMade(b, home, r.key, r.now, r.windowSec);
      RoomIsTries(b, home, r.key, plan, r.now, r.windowSec);
      if !room.Full? { StoredInserts(hash, m, r); }
    }
  }

  lemma {:induction false} TotalIsStored(shards: L.Shards)
    ensures L.Total(shards) == Stored(KeysIn(shards))
  {
    if shards != [] {
      var n := |shards| - 1;
      TotalIsStored(shards[..n]);
      assert KeysIn(shards)[..n] == KeysIn(shards[..n]);
      assert |shards[n]| == |shards[n].Keys|;
    }
  }

  /** In any state the limiter may be in, the accesses of a caller of allow that finds the locks free and is not
      interrupted leave exactly the keys and the counter that the call as one step leaves, and the locks free. */
  lemma {:induction false} CallIsUninterrupted(hash: Key -> nat, s: L.State, r: L.Request, clock: int, w: World, t: nat)
    requires L.Good(hash, s, clock) && L.Counts(r) && Shaped(w) && t < |w.callers| && Unlocked(w.locks)
    requires w.callers[t] == Caller(r.key, L.Home(hash, r.key), Entering)
    requires w.shards == BooksOf(s).shards && w.count == s.count
    ensures var w', b := Alone(w, t, PlanOf(s, r)), BooksOf(L.Call(hash, s, r).0);
      && w'.shards == b.shards && w'.count == b.count && w'.locks == w.locks
      && w'.callers == w.callers[t := w.callers[t].(stage := Returned)]
  {
    TotalIsStored(s.shards);
    AllowAlone(w, t, PlanOf(s, r), BooksOf(s));
    CallIsAllowed(hash, s, r);
  }
}
