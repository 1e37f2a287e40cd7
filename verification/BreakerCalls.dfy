/** The circuit breaker with each method call as one step: the class as it is
    written, the specification of each method, and the failure threshold over
    whole histories. */
module BreakerCalls {
  import opened Wrappers
  import opened BreakerSteps

  /** The fields of the breaker, without its mutex. */
  datatype Core = Core(state: State, generation: nat, failures: nat, openUntil: int)

  /** open_locked */
  function OpenCircuit(c: Core, now: int): (Core, Transition) {
    if c.state == Open then (c, NoTransition)
    else (Core(Open, c.generation + 1, 0, now + OPEN_FOR_MS), Opened)
  }

  /** before_call; no permit means RedisCircuitOpen was thrown. */
  function Ask(c: Core, now: int): (Core, Option<Permit>) {
    match c.state
    case Closed => (c, Some(Permit(c.generation, false)))
    case HalfOpen => (c, None)
    case Open =>
      if now < c.openUntil then (c, None)
      else (c.(state := HalfOpen), Some(Permit(c.generation, true)))
  }

  function SettleSuccess(c: Core, p: Permit): (Core, Transition) {
    if p.generation != c.generation then (c, NoTransition)
    else if c.state == Closed && !p.probe then (c.(failures := 0), NoTransition)
    else if c.state == HalfOpen && p.probe then (c.(state := Closed, failures := 0), Recovered)
    else (c, NoTransition)
  }

  function SettleFailure(c: Core, p: Permit, now: int): (Core, Transition) {
    if p.generation != c.generation then (c, NoTransition)
    else if c.state == HalfOpen && p.probe then OpenCircuit(c, now)
    else if c.state != Closed || p.probe then (c, NoTransition)
    else
      var n := (c.failures + 1) % UINT32;
      if n < FAILURE_THRESHOLD then (c.(failures := n), NoTransition)
      else OpenCircuit(c.(failures := n), now)
  }

  function SettleAbandoned(c: Core, p: Permit, now: int): (Core, Transition) {
    if p.generation != c.generation || !p.probe || c.state != HalfOpen then (c, NoTransition)
    else OpenCircuit(c, now)
  }

  function Settle(c: Core, p: Permit, o: Outcome, now: int): (Core, Transition) {
    match o
    case Success => SettleSuccess(c, p)
    case Failure => SettleFailure(c, p, now)
    case Abandoned => SettleAbandoned(c, p, now)
  }

  class RedisCircuitBreaker {
    var state: State
    var generation: nat
    var failures: nat
    var openUntil: int

    ghost function View(): Core
      reads this
    {
      Core(state, generation, failures, openUntil)
    }

    constructor ()
      ensures View() == Core(Closed, 0, 0, 0)
    {
      state, generation, failures, openUntil := Closed, 0, 0, 0;
    }

    method OpenLocked(now: int) returns (t: Transition)
      modifies this
      ensures (View(), t) == OpenCircuit(old(View()), now)
    {
      if state == Open { return NoTransition; }
      failures := 0;
      openUntil := now + OPEN_FOR_MS;
      state := Open;
      generation := generation + 1;
      t := Opened;
    }

    method BeforeCall(now: int) returns (r: Option<Permit>)
      modifies this
      ensures (View(), r) == Ask(old(View()), now)
    {
      if state == Closed { return Some(Permit(generation, false)); }
      if state == HalfOpen || now < openUntil { return None; }
      state := HalfOpen;
      r := Some(Permit(generation, true));
    }

    method OnSuccess(p: Permit) returns (t: Transition)
      modifies this
      ensures (View(), t) == SettleSuccess(old(View()), p)
    {
      var current := state;
      if current == Closed && !p.probe {
        if p.generation == generation { failures := 0; }
        return NoTransition;
      }
      if p.generation != generation { return NoTransition; }
      if current == HalfOpen && p.probe {
        failures := 0;
        state := Closed;
        return Recovered;
      }
      t := NoTransition;
    }

    method OnConnectionFailure(p: Permit, now: int) returns (t: Transition)
      modifies this
      ensures (View(), t) == SettleFailure(old(View()), p, now)
    {
      if p.generation != generation { return NoTransition; }
      if state == Closed && !p.probe {
        failures := (failures + 1) % UINT32;
        if failures < FAILURE_THRESHOLD { return NoTransition; }
      }
      if state == HalfOpen && p.probe { t := OpenLocked(now); return; }
      if state != Closed || p.probe { return NoTransition; }
      if failures < FAILURE_THRESHOLD { return NoTransition; }
      t := OpenLocked(now);
    }

    method OnAbandoned(p: Permit, now: int) returns (t: Transition)
      modifies this
      ensures (View(), t) == SettleAbandoned(old(View()), p, now)
    {
      if p.generation != generation || !p.probe || state != HalfOpen { return NoTransition; }
      t := OpenLocked(now);
    }
  }

  // ----- The failure threshold over whole histories -----

  datatype Settlement = Settlement(p: Permit, o: Outcome)

  /** Consecutive failures of generation `g`: failures of its ordinary permits
      since the last success of one of them.  Defined on the history alone. */
  function Streak(h: seq<Settlement>, g: nat): nat {
    if h == [] then 0
    else
      var last := h[|h| - 1];
      var before := Streak(h[..|h| - 1], g);
      if last.p != Permit(g, false) then before
      else match last.o
        case Success => 0
        case Failure => before + 1
        case Abandoned => before
  }

  /** The breaker, the permits handed out and not yet settled, and the settlements so far. */
  datatype System = System(core: Core, pending: multiset<Permit>, history: seq<Settlement>)

  datatype Call = AskCall(now: int) | SettleCall(p: Permit, o: Outcome, now: int)

  predicate Allowed(y: System, c: Call) {
    c.SettleCall? ==> c.p in y.pending
  }

  function Perform(y: System, c: Call): System
    requires Allowed(y, c)
  {
    match c
    case AskCall(now) =>
      var (core, r) := Ask(y.core, now);
      System(core, if r.Some? then y.pending + multiset{r.value} else y.pending, y.history)
    case SettleCall(p, o, now) =>
      System(Settle(y.core, p, o, now).0, y.pending - multiset{p}, y.history + [Settlement(p, o)])
  }

  const FRESH := System(Core(Closed, 0, 0, 0), multiset{}, [])

  /** The system after a sequence of calls, if each settles a pending permit. */
  function After(calls: seq<Call>): Option<System> {
    if calls == [] then Some(FRESH)
    else
      var y := After(calls[..|calls| - 1]);
      if y.Some? && Allowed(y.value, calls[|calls| - 1]) then Some(Perform(y.value, calls[|calls| - 1])) else None
  }

  predicate PermitTracked(c: Core, pending: multiset<Permit>, p: Permit) {
    if p.probe then p.generation == c.generation && c.state == HalfOpen && pending[p] == 1
    else p.generation < c.generation || (p.generation == c.generation && c.state == Closed)
  }

  predicate PendingTracked(y: System) {
    forall p :: p in y.pending ==> PermitTracked(y.core, y.pending, p)
  }

  predicate StreakTracked(y: System) {
    && (forall i :: 0 <= i < |y.history| ==> y.history[i].p.generation <= y.core.generation)
    && (y.core.state != Closed ==> Streak(y.history, y.core.generation) == 0)
    && y.core.failures == Streak(y.history, y.core.generation) < FAILURE_THRESHOLD
  }

  predicate Coherent(y: System) {
    PendingTracked(y) && StreakTracked(y)
  }

  lemma {:induction false} NoStreakAhead(h: seq<Settlement>, g: nat)
    requires forall i :: 0 <= i < |h| ==> h[i].p.generation < g
    ensures Streak(h, g) == 0
  {
    if h != [] { NoStreakAhead(h[..|h| - 1], g); }
  }

  lemma StreakExtends(h: seq<Settlement>, s: Settlement, g: nat)
    ensures Streak(h + [s], g) ==
      (if s.p != Permit(g, false) || s.o == Abandoned then Streak(h, g)
       else if s.o == Success then 0 else Streak(h, g) + 1)
  {
    assert (h + [s])[..|h|] == h;
  }

  /** The failure counter follows the streak. */
  lemma SettleKeepsStreak(y: System, p: Permit, o: Outcome, now: int)
    requires Coherent(y) && p in y.pending
    ensures StreakTracked(Perform(y, SettleCall(p, o, now)))
  {
    var y' := Perform(y, SettleCall(p, o, now));
    assert PermitTracked(y.core, y.pending, p);
    StreakExtends(y.history, Settlement(p, o), y.core.generation);
    if y'.core.generation != y.core.generation {
      NoStreakAhead(y'.history, y'.core.generation);
    }
  }

  lemma SettleKeepsPending(y: System, p: Permit, o: Outcome, now: int)
    requires Coherent(y) && p in y.pending
    ensures PendingTracked(Perform(y, SettleCall(p, o, now)))
  {
    var y' := Perform(y, SettleCall(p, o, now));
    assert PermitTracked(y.core, y.pending, p);
    forall q | q in y'.pending
      ensures PermitTracked(y'.core, y'.pending, q)
    {
      assert PermitTracked(y.core, y.pending, q);
    }
  }

  lemma AskKeepsPending(y: System, now: int)
    requires Coherent(y)
    ensures PendingTracked(Perform(y, AskCall(now)))
  {
    var y' := Perform(y, AskCall(now));
    forall q | q in y'.pending
      ensures PermitTracked(y'.core, y'.pending, q)
    {
      assert q in y.pending ==> PermitTracked(y.core, y.pending, q);
    }
  }

  lemma PerformKeepsCoherent(y: System, c: Call)
    requires Coherent(y) && Allowed(y, c)
    ensures Coherent(Perform(y, c))
  {
    match c
    case AskCall(now) => AskKeepsPending(y, now);
    case SettleCall(p, o, now) =>
      SettleKeepsStreak(y, p, o, now);
      SettleKeepsPending(y, p, o, now);
  }

  lemma {:induction false} ReachedIsCoherent(calls: seq<Call>)
    requires After(calls).Some?
    ensures Coherent(After(calls).value)
  {
    if calls != [] {
      ReachedIsCoherent(calls[..|calls| - 1]);
      PerformKeepsCoherent(After(calls[..|calls| - 1]).value, calls[|calls| - 1]);
    }
  }

  /** In every history, a settlement opens the circuit exactly when it is the
      third consecutive connection failure of the current generation, or when it
      settles the probe with anything but success; it recovers exactly when it
      settles the probe with success. */
  lemma OpensExactlyAtThreshold(calls: seq<Call>, p: Permit, o: Outcome, now: int)
    requires After(calls).Some? && p in After(calls).value.pending
    ensures var y := After(calls).value;
      && (Settle(y.core, p, o, now).1 == Opened <==>
            if p.probe then o != Success
            else o == Failure && p.generation == y.core.generation &&
                 Streak(y.history + [Settlement(p, o)], p.generation) == 3)
      && (Settle(y.core, p, o, now).1 == Recovered <==> p.probe && o == Success)
  {
    ReachedIsCoherent(calls);
    var y := After(calls).value;
    StreakExtends(y.history, Settlement(p, o), p.generation);
    SettleResult(y, p, o, now);
  }

  lemma SettleResult(y: System, p: Permit, o: Outcome, now: int)
    requires Coherent(y) && p in y.pending
    ensures Settle(y.core, p, o, now).1 == Opened <==>
      if p.probe then o != Success
      else o == Failure && p.generation == y.core.generation && y.core.failures + 1 == FAILURE_THRESHOLD
    ensures Settle(y.core, p, o, now).1 == Recovered <==> p.probe && o == Success
  {
  }

  /** With no permit outstanding the circuit is open or closed. */
  lemma SettledIsNotHalfOpen(calls: seq<Call>)
    requires After(calls).Some? && After(calls).value.pending == multiset{}
    ensures After(calls).value.core.state != HalfOpen
  {
    AwaitedReached(calls);
  }

  /** While half-open, the breaker waits for a probe. */
  predicate ProbeAwaited(y: System) {
    y.core.state == HalfOpen ==> Permit(y.core.generation, true) in y.pending
  }

  lemma SettleKeepsAwaited(y: System, p: Permit, o: Outcome, now: int)
    requires Coherent(y) && ProbeAwaited(y) && p in y.pending
    ensures ProbeAwaited(Perform(y, SettleCall(p, o, now)))
  {
    assert PermitTracked(y.core, y.pending, p);
  }

  lemma {:induction false} AwaitedReached(calls: seq<Call>)
    requires After(calls).Some?
    ensures ProbeAwaited(After(calls).value)
  {
    if calls != [] {
      var y, c := After(calls[..|calls| - 1]).value, calls[|calls| - 1];
      ReachedIsCoherent(calls[..|calls| - 1]);
      AwaitedReached(calls[..|calls| - 1]);
      if c.SettleCall? { SettleKeepsAwaited(y, c.p, c.o, c.now); }
    }
  }

  // ----- What a call is told, from what calls were told before -----

  /** What callers know: that the circuit recovered or never opened, that it opened at `at` and nobody got a permit
      since, or that somebody did. */
  datatype Word = Working | Tripped(at: int) | Probed

  /** The last word, read off the permits and transitions that the calls reported. */
  function LastWord(calls: seq<Call>): Word
    requires After(calls).Some?
  {
    if calls == [] then Working
    else
      var n := |calls| - 1;
      var y, word := After(calls[..n]).value, LastWord(calls[..n]);
      match calls[n]
      case AskCall(now) => if word.Tripped? && Ask(y.core, now).1.Some? then Probed else word
      case SettleCall(p, o, now) =>
        match Settle(y.core, p, o, now).1
        case Opened => Tripped(now)
        case Recovered => Working
        case NoTransition => word
  }

  /** How many calls reported `Opened`. */
  function Openings(calls: seq<Call>): nat
    requires After(calls).Some?
  {
    if calls == [] then 0
    else
      var n, c := |calls| - 1, calls[|calls| - 1];
      Openings(calls[..n]) +
      if c.SettleCall? && Settle(After(calls[..n]).value.core, c.p, c.o, c.now).1 == Opened then 1 else 0
  }

  predicate Says(word: Word, c: Core) {
    match word
    case Working => c.state == Closed
    case Tripped(at) => c.state == Open && c.openUntil == at + 1000
    case Probed => c.state == HalfOpen
  }

  lemma SettleSays(c: Core, p: Permit, o: Outcome, now: int, word: Word)
    requires Says(word, c)
    ensures var (c', t) := Settle(c, p, o, now);
      && c'.generation == c.generation + (if t == Opened then 1 else 0)
      && Says(match t case Opened => Tripped(now) case Recovered => Working case NoTransition => word, c')
  {
  }

  lemma AskSays(c: Core, now: int, word: Word)
    requires Says(word, c)
    ensures var (c', r) := Ask(c, now);
      c'.generation == c.generation && Says(if word.Tripped? && r.Some? then Probed else word, c')
  {
  }

  lemma {:induction false} WordTracked(calls: seq<Call>)
    requires After(calls).Some?
    ensures Says(LastWord(calls), After(calls).value.core) && Openings(calls) == After(calls).value.core.generation
  {
    if calls != [] {
      var n, c := |calls| - 1, calls[|calls| - 1];
      WordTracked(calls[..n]);
      var y := After(calls[..n]).value;
      assert After(calls) == Some(Perform(y, c));
      match c
      case AskCall(now) => AskSays(y.core, now, LastWord(calls[..n]));
      case SettleCall(p, o, now) => SettleSays(y.core, p, o, now, LastWord(calls[..n]));
    }
  }

  /** What an ask is told, from what was told before alone: an ordinary permit while the circuit works, nothing in the
      second after it opened, then the probe, once; each stamped with the number of openings. */
  lemma AskFollowsWord(calls: seq<Call>, now: int)
    requires After(calls).Some?
    ensures Ask(After(calls).value.core, now).1 ==
      match LastWord(calls)
      case Working => Some(Permit(Openings(calls), false))
      case Tripped(at) => if now >= at + 1000 then Some(Permit(Openings(calls), true)) else None
      case Probed => None
  {
    WordTracked(calls);
  }

  // ----- A call is an uninterrupted run of its accesses -----

  /** The breaker with its mutex free. */
  function Unlocked(c: Core): Shared {
    Shared(c.state, c.generation, c.failures, c.openUntil, None)
  }

  /** The caller holds a permit, or is through. */
  predicate Resting(pc: Pc) {
    pc.Holding? || Finished(pc)
  }

  /** An upper bound on the accesses before the caller rests. */
  function Ahead(pc: Pc): nat {
    match pc
    case Start => 12
    case BcState(_) => 11
    case BcLock => 10
    case BcLockedState => 9
    case BcClosedGeneration => 8
    case BcClock => 8
    case BcStoreHalfOpen => 7
    case BcProbeGeneration => 6
    case BcUnlock(_) => 5
    case BcUnlockReject => 5
    case SuState(_) => 14
    case SuGeneration(_) => 13
    case SuClearFailures(_) => 12
    case SuLock(_, _) => 12
    case SuLockedGeneration(_, _) => 11
    case SuProbeClear(_) => 10
    case SuStoreClosed(_) => 9
    case FaGeneration(_) => 14
    case FaState(_) => 13
    case FaCount(_) => 12
    case FaLock(_) => 11
    case FaLockedGeneration(_) => 10
    case FaLockedState(_) => 9
    case FaLockedCount(_) => 8
    case AbLock(_) => 11
    case AbGeneration(_) => 10
    case AbState(_) => 9
    case OpState(_) => 7
    case OpClearFailures(_) => 6
    case OpDeadline(_) => 5
    case OpStoreOpen(_) => 4
    case OpNextGeneration(_) => 3
    case Unlock(_, _) => 2
    case _ => 0
  }

  lemma AskingComesCloser(s: Shared, pc: Pc, t: nat, env: Env)
    requires CanStep(s, pc) && !Resting(pc) && Asking(pc)
    ensures Ahead(Step(s, pc, t, env).1) < Ahead(pc)
  {
  }

  lemma SettlingComesCloser(s: Shared, pc: Pc, t: nat, env: Env)
    requires CanStep(s, pc) && !Resting(pc) && !Asking(pc)
    ensures Ahead(Step(s, pc, t, env).1) < Ahead(pc)
  {
  }

  lemma StepComesCloser(s: Shared, pc: Pc, t: nat, env: Env)
    requires CanStep(s, pc) && !Resting(pc)
    ensures Ahead(Step(s, pc, t, env).1) < Ahead(pc)
  {
    if Asking(pc) { AskingComesCloser(s, pc, t, env); } else { SettlingComesCloser(s, pc, t, env); }
  }

  /** Caller `t` alone takes steps until it rests, or finds the mutex taken. */
  function Alone(s: Shared, pc: Pc, t: nat, env: Env): (Shared, Pc)
    decreases Ahead(pc)
  {
    if Resting(pc) || !CanStep(s, pc) then (s, pc)
    else
      StepComesCloser(s, pc, t, env);
      var (s', pc') := Step(s, pc, t, env);
      Alone(s', pc', t, env)
  }

  /** The breaker in the hands of caller `t`. */
  function Locked(c: Core, t: nat): Shared {
    Unlocked(c).(holder := Some(t))
  }

  lemma UnlocksAlone(c: Core, p: Permit, r: Transition, t: nat, env: Env)
    ensures Alone(Locked(c, t), Unlock(p, r), t, env) == (Unlocked(c), Done(p, r))
  {
    assert Alone(Locked(c, t), Unlock(p, r), t, env) == Alone(Unlocked(c), Done(p, r), t, env);
  }

  lemma StoresOpenAlone(c: Core, p: Permit, t: nat, env: Env)
    ensures var c' := c.(state := Open, generation := c.generation + 1);
      Alone(Locked(c, t), OpStoreOpen(p), t, env) == (Unlocked(c'), Done(p, Opened))
  {
    var c' := c.(state := Open, generation := c.generation + 1);
    UnlocksAlone(c', p, Opened, t, env);
    assert Alone(Locked(c, t), OpStoreOpen(p), t, env) == Alone(Locked(c', t), Unlock(p, Opened), t, env);
  }

  lemma DatesAndOpensAlone(c: Core, p: Permit, t: nat, env: Env)
    ensures var c' := Core(Open, c.generation + 1, c.failures, env.now + OPEN_FOR_MS);
      Alone(Locked(c, t), OpDeadline(p), t, env) == (Unlocked(c'), Done(p, Opened))
  {
    StoresOpenAlone(c.(openUntil := env.now + OPEN_FOR_MS), p, t, env);
  }

  lemma ClearsAndOpensAlone(c: Core, p: Permit, t: nat, env: Env)
    ensures var c' := Core(Open, c.generation + 1, 0, env.now + OPEN_FOR_MS);
      Alone(Locked(c, t), OpClearFailures(p), t, env) == (Unlocked(c'), Done(p, Opened))
  {
    DatesAndOpensAlone(c.(failures := 0), p, t, env);
  }

  lemma OpensAlone(c: Core, p: Permit, t: nat, env: Env)
    ensures var (c', r) := OpenCircuit(c, env.now);
      Alone(Locked(c, t), OpState(p), t, env) == (Unlocked(c'), Done(p, r))
  {
    if c.state == Open { UnlocksAlone(c, p, NoTransition, t, env); } else { ClearsAndOpensAlone(c, p, t, env); }
  }

  lemma AsksAloneLocked(c: Core, t: nat, env: Env)
    requires c.state != Closed
    ensures var (c', r) := Ask(c, env.now);
      Alone(Locked(c, t), BcLockedState, t, env) == (Unlocked(c'), if r.Some? then Holding(r.value) else Rejected)
  {
    if c.state == Open && env.now >= c.openUntil {
      var s2 := Locked(c, t).(state := HalfOpen);
      assert Alone(Locked(c, t), BcClock, t, env) == Alone(s2, BcProbeGeneration, t, env);
      assert Alone(s2, BcProbeGeneration, t, env) ==
        Alone(s2.(holder := None), Holding(Permit(c.generation, true)), t, env);
    } else if c.state == Open {
      assert Alone(Locked(c, t), BcClock, t, env) == Alone(Unlocked(c), Rejected, t, env);
    }
  }

  /** before_call, undisturbed, is Ask. */
  lemma AskIsUninterrupted(c: Core, t: nat, env: Env)
    ensures var (c', r) := Ask(c, env.now);
      Alone(Unlocked(c), Start, t, env) == (Unlocked(c'), if r.Some? then Holding(r.value) else Rejected)
  {
    assert Alone(Unlocked(c), Start, t, env) == Alone(Unlocked(c), BcState(c.generation), t, env);
    if c.state != Closed {
      AsksAloneLocked(c, t, env);
      assert Alone(Unlocked(c), BcLock, t, env) == Alone(Locked(c, t), BcLockedState, t, env);
    }
  }

  lemma SucceedsAloneLocked(c: Core, p: Permit, t: nat, env: Env)
    requires c.state != Closed || p.probe
    ensures var (c', r) := SettleSuccess(c, p);
      Alone(Locked(c, t), SuLockedGeneration(p, c.state), t, env) == (Unlocked(c'), Done(p, r))
  {
    var (c', r) := SettleSuccess(c, p);
    UnlocksAlone(c', p, r, t, env);
    if r == Recovered {
      assert Alone(Locked(c, t), SuProbeClear(p), t, env) == Alone(Locked(c', t), Unlock(p, Recovered), t, env);
    } else {
      assert Alone(Locked(c, t), SuLockedGeneration(p, c.state), t, env) == Alone(Locked(c, t), Unlock(p, r), t, env);
    }
  }

  lemma SucceedsAloneUnlocked(c: Core, p: Permit, t: nat, env: Env)
    requires c.state == Closed && !p.probe
    ensures var (c', r) := SettleSuccess(c, p);
      Alone(Unlocked(c), SuGeneration(p), t, env) == (Unlocked(c'), Done(p, r))
  {
    if p.generation == c.generation {
      assert Alone(Unlocked(c), SuClearFailures(p), t, env) ==
        Alone(Unlocked(c.(failures := 0)), Done(p, NoTransition), t, env);
    }
  }

  lemma SuccessIsUninterrupted(c: Core, p: Permit, t: nat, env: Env)
    ensures var (c', r) := SettleSuccess(c, p); Alone(Unlocked(c), SuState(p), t, env) == (Unlocked(c'), Done(p, r))
  {
    if c.state != Closed || p.probe {
      SucceedsAloneLocked(c, p, t, env);
      assert Alone(Unlocked(c), SuLock(p, c.state), t, env) ==
        Alone(Locked(c, t), SuLockedGeneration(p, c.state), t, env);
    } else {
      SucceedsAloneUnlocked(c, p, t, env);
    }
  }

  lemma FailsAloneLocked(c: Core, p: Permit, t: nat, env: Env)
    requires p.generation == c.generation && (p.probe || c.state != Closed || c.failures >= FAILURE_THRESHOLD)
    ensures var (c', r) := if c.state == (if p.probe then HalfOpen else Closed)
                           then OpenCircuit(c, env.now) else (c, NoTransition);
      Alone(Unlocked(c), FaLock(p), t, env) == (Unlocked(c'), Done(p, r))
  {
    OpensAlone(c, p, t, env);
    UnlocksAlone(c, p, NoTransition, t, env);
    assert Alone(Unlocked(c), FaLock(p), t, env) == Alone(Locked(c, t), FaLockedState(p), t, env);
    if c.state == Closed && !p.probe {
      assert Alone(Locked(c, t), FaLockedState(p), t, env) == Alone(Locked(c, t), OpState(p), t, env);
    }
  }

  lemma FailureIsUninterrupted(c: Core, p: Permit, t: nat, env: Env)
    ensures var (c', r) := SettleFailure(c, p, env.now);
      Alone(Unlocked(c), FaGeneration(p), t, env) == (Unlocked(c'), Done(p, r))
  {
    if p.generation == c.generation {
      assert Alone(Unlocked(c), FaGeneration(p), t, env) == Alone(Unlocked(c), FaState(p), t, env);
      if c.state == Closed && !p.probe {
        var n := (c.failures + 1) % UINT32;
        var c2 := c.(failures := n);
        if n >= FAILURE_THRESHOLD {
          FailsAloneLocked(c2, p, t, env);
          assert Alone(Unlocked(c), FaState(p), t, env) == Alone(Unlocked(c2), FaLock(p), t, env);
        } else {
          assert Alone(Unlocked(c), FaState(p), t, env) == Alone(Unlocked(c2), Done(p, NoTransition), t, env);
        }
      } else {
        FailsAloneLocked(c, p, t, env);
        assert Alone(Unlocked(c), FaState(p), t, env) == Alone(Unlocked(c), FaLock(p), t, env);
      }
    }
  }

  lemma AbandonedIsUninterrupted(c: Core, p: Permit, t: nat, env: Env)
    ensures var (c', r) := SettleAbandoned(c, p, env.now);
      Alone(Unlocked(c), AbLock(p), t, env) == (Unlocked(c'), Done(p, r))
  {
    UnlocksAlone(c, p, NoTransition, t, env);
    assert Alone(Unlocked(c), AbLock(p), t, env) == Alone(Locked(c, t), AbGeneration(p), t, env);
    if p.generation == c.generation && p.probe {
      if c.state == HalfOpen { OpensAlone(c, p, t, env); }
      assert Alone(Locked(c, t), AbGeneration(p), t, env) ==
        Alone(Locked(c, t), if c.state == HalfOpen then OpState(p) else Unlock(p, NoTransition), t, env);
    }
  }

  /** A settlement, undisturbed, is Settle. */
  lemma SettleIsUninterrupted(c: Core, p: Permit, t: nat, env: Env)
    ensures var (c', r) := Settle(c, p, env.outcome, env.now);
      var (s, pc) := Step(Unlocked(c), Holding(p), t, env); Alone(s, pc, t, env) == (Unlocked(c'), Done(p, r))
  {
    match env.outcome
    case Success => SuccessIsUninterrupted(c, p, t, env);
    case Failure => FailureIsUninterrupted(c, p, t, env);
    case Abandoned => AbandonedIsUninterrupted(c, p, t, env);
  }
}
