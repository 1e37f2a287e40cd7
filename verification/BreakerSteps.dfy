/** The Redis circuit breaker (common/utils/redis_circuit_breaker.hpp) under
    arbitrary interleaving.  Every atomic load, store or read-modify-write, and
    every mutex acquisition and release, is one step of one caller.  A caller is
    one guarded Redis call: it asks for a permit and, if it gets one, settles it
    with an outcome of its choosing.  A finished caller keeps its permit and its
    result, so the caller table is also the history of the run. */
module BreakerSteps {
  import opened Wrappers

  datatype State = Closed | Open | HalfOpen
  datatype Transition = NoTransition | Opened | Recovered
  datatype Permit = Permit(generation: nat, probe: bool)
  datatype Outcome = Success | Failure | Abandoned

  const FAILURE_THRESHOLD := 3
  const OPEN_FOR_MS := 1000
  const UINT32 := 0x1_0000_0000

  /** The shared fields; `holder` is the caller that owns the mutex. */
  datatype Shared = Shared(state: State, generation: nat, failures: nat, openUntil: int, holder: Option<nat>)

  /** Program counters.  Each names the access the caller performs next. */
  datatype Pc =
    // before_call
    | Start
    | BcState(g: nat)
    | BcLock
    | BcLockedState
    | BcClosedGeneration
    | BcClock
    | BcStoreHalfOpen
    | BcProbeGeneration
    | BcUnlock(p: Permit)
    | BcUnlockReject
    // between the two calls
    | Holding(p: Permit)
    // on_success
    | SuState(p: Permit)
    | SuGeneration(p: Permit)
    | SuClearFailures(p: Permit)
    | SuLock(p: Permit, seen: State)
    | SuLockedGeneration(p: Permit, seen: State)
    | SuProbeClear(p: Permit)
    | SuStoreClosed(p: Permit)
    // on_connection_failure
    | FaGeneration(p: Permit)
    | FaState(p: Permit)
    | FaCount(p: Permit)
    | FaLock(p: Permit)
    | FaLockedGeneration(p: Permit)
    | FaLockedState(p: Permit)
    | FaLockedCount(p: Permit)
    // on_abandoned
    | AbLock(p: Permit)
    | AbGeneration(p: Permit)
    | AbState(p: Permit)
    // open_locked
    | OpState(p: Permit)
    | OpClearFailures(p: Permit)
    | OpDeadline(p: Permit)
    | OpStoreOpen(p: Permit)
    | OpNextGeneration(p: Permit)
    // the end of a settlement
    | Unlock(p: Permit, result: Transition)
    | Done(p: Permit, result: Transition)
    | Rejected

  /** What the environment contributes to a step: the clock and the outcome of the guarded call. */
  datatype Env = Env(now: int, outcome: Outcome)

  datatype World = World(shared: Shared, callers: seq<Pc>)

  predicate InCriticalSection(pc: Pc) {
    pc.BcLockedState? || pc.BcClosedGeneration? || pc.BcClock? || pc.BcStoreHalfOpen? ||
    pc.BcProbeGeneration? || pc.BcUnlock? || pc.BcUnlockReject? ||
    pc.SuLockedGeneration? || pc.SuProbeClear? || pc.SuStoreClosed? ||
    pc.FaLockedGeneration? || pc.FaLockedState? || pc.FaLockedCount? ||
    pc.AbGeneration? || pc.AbState? ||
    pc.OpState? || pc.OpClearFailures? || pc.OpDeadline? || pc.OpStoreOpen? || pc.OpNextGeneration? ||
    pc.Unlock?
  }

  predicate WantsLock(pc: Pc) {
    pc.BcLock? || pc.SuLock? || pc.FaLock? || pc.AbLock?
  }

  predicate Finished(pc: Pc) {
    pc.Done? || pc.Rejected?
  }

  predicate CanStep(s: Shared, pc: Pc) {
    !Finished(pc) && (WantsLock(pc) ==> s.holder.None?)
  }

  /** One step of caller `t`: the access named by its program counter. */
  function Step(s: Shared, pc: Pc, t: nat, env: Env): (r: (Shared, Pc))
    requires CanStep(s, pc)
  {
    match pc
    case Start => (s, BcState(s.generation))
    case BcState(g) => (s, if s.state == Closed then Holding(Permit(g, false)) else BcLock)
    case BcLock => (s.(holder := Some(t)), BcLockedState)
    case BcLockedState =>
      (s, match s.state case Closed => BcClosedGeneration case HalfOpen => BcUnlockReject case Open => BcClock)
    case BcClosedGeneration => (s, BcUnlock(Permit(s.generation, false)))
    case BcClock => (s, if env.now < s.openUntil then BcUnlockReject else BcStoreHalfOpen)
    case BcStoreHalfOpen => (s.(state := HalfOpen), BcProbeGeneration)
    case BcProbeGeneration => (s, BcUnlock(Permit(s.generation, true)))
    case BcUnlock(p) => (s.(holder := None), Holding(p))
    case BcUnlockReject => (s.(holder := None), Rejected)
    case Holding(p) =>
      (s, match env.outcome case Success => SuState(p) case Failure => FaGeneration(p) case Abandoned => AbLock(p))
    case SuState(p) => (s, if s.state == Closed && !p.probe then SuGeneration(p) else SuLock(p, s.state))
    case SuGeneration(p) => (s, if p.generation == s.generation then SuClearFailures(p) else Done(p, NoTransition))
    case SuClearFailures(p) => (s.(failures := 0), Done(p, NoTransition))
    case SuLock(p, seen) => (s.(holder := Some(t)), SuLockedGeneration(p, seen))
    case SuLockedGeneration(p, seen) =>
      (s, if p.generation == s.generation && seen == HalfOpen && p.probe then SuProbeClear(p)
          else Unlock(p, NoTransition))
    case SuProbeClear(p) => (s.(failures := 0), SuStoreClosed(p))
    case SuStoreClosed(p) => (s.(state := Closed), Unlock(p, Recovered))
    case FaGeneration(p) => (s, if p.generation != s.generation then Done(p, NoTransition) else FaState(p))
    case FaState(p) => (s, if s.state == Closed && !p.probe then FaCount(p) else FaLock(p))
    case FaCount(p) =>
      var n := (s.failures + 1) % UINT32;
      (s.(failures := n), if n < FAILURE_THRESHOLD then Done(p, NoTransition) else FaLock(p))
    case FaLock(p) => (s.(holder := Some(t)), FaLockedGeneration(p))
    case FaLockedGeneration(p) =>
      (s, if p.generation != s.generation then Unlock(p, NoTransition) else FaLockedState(p))
    case FaLockedState(p) =>
      (s, if s.state == HalfOpen && p.probe then OpState(p)
          else if s.state != Closed || p.probe then Unlock(p, NoTransition)
          else FaLockedCount(p))
    case FaLockedCount(p) => (s, if s.failures < FAILURE_THRESHOLD then Unlock(p, NoTransition) else OpState(p))
    case AbLock(p) => (s.(holder := Some(t)), AbGeneration(p))
    case AbGeneration(p) =>
      (s, if p.generation != s.generation || !p.probe then Unlock(p, NoTransition) else AbState(p))
    case AbState(p) => (s, if s.state != HalfOpen then Unlock(p, NoTransition) else OpState(p))
    case OpState(p) => (s, if s.state == Open then Unlock(p, NoTransition) else OpClearFailures(p))
    case OpClearFailures(p) => (s.(failures := 0), OpDeadline(p))
    case OpDeadline(p) => (s.(openUntil := env.now + OPEN_FOR_MS), OpStoreOpen(p))
    case OpStoreOpen(p) => (s.(state := Open), OpNextGeneration(p))
    case OpNextGeneration(p) => (s.(generation := s.generation + 1), Unlock(p, Opened))
    case Unlock(p, result) => (s.(holder := None), Done(p, result))
  }

  /** Caller `t` takes one step; the others do not move. */
  predicate Next(w: World, t: nat, env: Env, w': World) {
    t < |w.callers| && CanStep(w.shared, w.callers[t]) &&
    var (s', pc') := Step(w.shared, w.callers[t], t, env);
    w' == World(s', w.callers[t := pc'])
  }

  predicate Initial(w: World) {
    w.shared == Shared(Closed, 0, 0, 0, None) &&
    forall t :: 0 <= t < |w.callers| ==> w.callers[t] == Start
  }

  /** A run: an initial world and any schedule of caller steps. */
  ghost predicate IsRun(ws: seq<World>) {
    |ws| > 0 && Initial(ws[0]) &&
    forall i :: 0 <= i < |ws| - 1 ==> Succeeds(ws[i], ws[i + 1])
  }

  ghost predicate Succeeds(w: World, w': World) {
    exists t: nat, env: Env :: Next(w, t, env, w')
  }

  // ----- What the theorems speak about -----

  function PermitOf(pc: Pc): Option<Permit> {
    if pc.Start? || pc.BcState? || pc.BcLock? || pc.BcLockedState? || pc.BcClosedGeneration? || pc.BcClock? ||
       pc.BcStoreHalfOpen? || pc.BcProbeGeneration? || pc.BcUnlockReject? || pc.Rejected?
    then None
    else Some(pc.p)
  }

  predicate HasResult(pc: Pc, r: Transition) {
    (pc.Unlock? || pc.Done?) && pc.result == r
  }

  /** A probe permit was issued to this caller (it may have been settled since). */
  predicate IssuedProbe(pc: Pc) {
    PermitOf(pc).Some? && PermitOf(pc).value.probe
  }

  /** The caller is between taking the half-open slot and giving it up. */
  predicate Probing(pc: Pc) {
    pc.BcProbeGeneration? || (IssuedProbe(pc) && !pc.OpNextGeneration? && !pc.Unlock? && !pc.Done?)
  }

  function CountResults(callers: seq<Pc>, r: Transition): nat {
    if callers == [] then 0
    else CountResults(callers[..|callers| - 1], r) + (if HasResult(callers[|callers| - 1], r) then 1 else 0)
  }

  // ----- The invariant -----

  /** Caller at OpNextGeneration: Open is stored, the generation is about to move. */
  predicate Bumping(w: World) {
    w.shared.holder.Some? && w.shared.holder.value < |w.callers| && w.callers[w.shared.holder.value].OpNextGeneration?
  }

  predicate Exclusion(w: World) {
    forall t: nat :: t < |w.callers| ==> (InCriticalSection(w.callers[t]) <==> w.shared.holder == Some(t))
  }

  /** Facts a caller in the critical section has established about the state word. */
  predicate KnowsState(s: Shared, pc: Pc) {
    && (pc.BcClock? || pc.BcStoreHalfOpen? || pc.OpNextGeneration? ==> s.state == Open)
    && (pc.BcClosedGeneration? ==> s.state == Closed)
    && (pc.OpState? || pc.OpClearFailures? || pc.OpDeadline? || pc.OpStoreOpen? ==>
          s.state == (if pc.p.probe then HalfOpen else Closed))
    && (pc.FaLockedCount? ==> s.state == Closed && !pc.p.probe)
    && (pc.SuProbeClear? || pc.SuStoreClosed? || pc.AbState? ==> pc.p.probe)
    && (pc.SuGeneration? || pc.SuClearFailures? || pc.FaCount? ==> !pc.p.probe)
  }

  /** No stamp is from the future, and an `Opened` result ended the generation of its permit. */
  predicate StampBounded(s: Shared, pc: Pc) {
    && (pc.BcState? ==> pc.g <= s.generation)
    && (PermitOf(pc).Some? ==> PermitOf(pc).value.generation <= s.generation)
    && (HasResult(pc, Opened) ==> pc.p.generation < s.generation)
  }

  /** Past the locked comparison the permit is known to be of the current generation. */
  predicate StampCurrent(s: Shared, pc: Pc) {
    pc.SuProbeClear? || pc.SuStoreClosed? || pc.FaLockedState? || pc.FaLockedCount? || pc.AbState? ||
    pc.OpState? || pc.OpClearFailures? || pc.OpDeadline? || pc.OpStoreOpen? || pc.OpNextGeneration? ==>
      pc.p.generation == s.generation
  }

  predicate KnowsGeneration(s: Shared, pc: Pc) {
    StampBounded(s, pc) && StampCurrent(s, pc)
  }

  /** A probing caller pins the half-open state and the current generation. */
  predicate ProbePins(s: Shared, pc: Pc) {
    && (Probing(pc) ==> s.state == HalfOpen)
    && (Probing(pc) && !pc.BcProbeGeneration? ==> PermitOf(pc).value.generation == s.generation)
    && (Probing(pc) && (pc.SuLock? || pc.SuLockedGeneration?) ==> pc.seen == HalfOpen)
  }

  /** A settled probe reported a transition, and its generation is over unless it recovered. */
  predicate ProbeResult(w: World, pc: Pc) {
    && ((pc.Unlock? || pc.Done?) && pc.p.probe ==>
          && pc.result != NoTransition
          && (pc.p.generation < w.shared.generation || w.shared.state == Closed || Bumping(w)))
    && (HasResult(pc, Recovered) ==> pc.p.probe)
  }

  predicate Locals(w: World) {
    forall t :: 0 <= t < |w.callers| ==>
      && KnowsState(w.shared, w.callers[t]) && KnowsGeneration(w.shared, w.callers[t])
      && ProbePins(w.shared, w.callers[t]) && ProbeResult(w, w.callers[t])
  }

  predicate OneProber(w: World) {
    forall t, u :: 0 <= t < u < |w.callers| ==> !(Probing(w.callers[t]) && Probing(w.callers[u]))
  }

  predicate DistinctProbeGenerations(w: World) {
    forall t, u :: 0 <= t < u < |w.callers| && IssuedProbe(w.callers[t]) && IssuedProbe(w.callers[u]) ==>
      PermitOf(w.callers[t]).value.generation != PermitOf(w.callers[u]).value.generation
  }

  ghost predicate SlotTaken(w: World) {
    w.shared.state == HalfOpen ==> exists t :: 0 <= t < |w.callers| && Probing(w.callers[t])
  }

  ghost predicate Inv(w: World) {
    Exclusion(w) && Locals(w) && OneProber(w) && DistinctProbeGenerations(w) && SlotTaken(w) &&
    CountResults(w.callers, Opened) == w.shared.generation
  }

  // ----- Every step keeps the invariant -----

  lemma {:induction false} CountUpdate(callers: seq<Pc>, t: nat, pc: Pc, r: Transition)
    requires t < |callers|
    ensures CountResults(callers[t := pc], r) + (if HasResult(callers[t], r) then 1 else 0)
         == CountResults(callers, r) + (if HasResult(pc, r) then 1 else 0)
  {
    var n := |callers| - 1;
    if t == n {
      assert callers[t := pc][..n] == callers[..n];
    } else {
      assert callers[t := pc][..n] == callers[..n][t := pc];
      CountUpdate(callers[..n], t, pc, r);
    }
  }

  /** The mutex goes from free to the stepping caller, back, or stays; and the caller knows which. */
  lemma StepLocks(s: Shared, pc: Pc, t: nat, env: Env)
    requires CanStep(s, pc) && (InCriticalSection(pc) <==> s.holder == Some(t))
    ensures var (s', pc') := Step(s, pc, t, env);
      && (InCriticalSection(pc') <==> s'.holder == Some(t))
      && (s'.holder == s.holder || (s.holder.None? && s'.holder == Some(t)) || (s.holder == Some(t) && s'.holder.None?))
  {
  }

  lemma KeepsExclusion(w: World, t: nat, env: Env, w': World)
    requires Inv(w) && Next(w, t, env, w')
    ensures Exclusion(w')
  {
    StepLocks(w.shared, w.callers[t], t, env);
    forall u: nat | u < |w'.callers|
      ensures InCriticalSection(w'.callers[u]) <==> w'.shared.holder == Some(u)
    {
      assert InCriticalSection(w.callers[u]) <==> w.shared.holder == Some(u);
    }
  }

  predicate Asking(pc: Pc) {
    PermitOf(pc).None? || pc.BcUnlock? || pc.Holding?
  }

  predicate Opening(pc: Pc) {
    pc.OpState? || pc.OpClearFailures? || pc.OpDeadline? || pc.OpStoreOpen? || pc.OpNextGeneration?
  }

  lemma AskingKeepsState(s: Shared, pc: Pc, t: nat, env: Env)
    requires CanStep(s, pc) && KnowsState(s, pc) && Asking(pc)
    ensures var (s', pc') := Step(s, pc, t, env); KnowsState(s', pc')
  {
  }

  lemma OpeningKeepsState(s: Shared, pc: Pc, t: nat, env: Env)
    requires CanStep(s, pc) && KnowsState(s, pc) && Opening(pc)
    ensures var (s', pc') := Step(s, pc, t, env); KnowsState(s', pc')
  {
  }

  lemma SettlingKeepsState(s: Shared, pc: Pc, t: nat, env: Env)
    requires CanStep(s, pc) && KnowsState(s, pc) && ProbePins(s, pc) && !Asking(pc) && !Opening(pc)
    ensures var (s', pc') := Step(s, pc, t, env); KnowsState(s', pc')
  {
  }

  /** The stepping caller's own facts follow from the facts it had. */
  lemma KeepsOwnState(s: Shared, pc: Pc, t: nat, env: Env)
    requires CanStep(s, pc) && KnowsState(s, pc) && ProbePins(s, pc)
    ensures var (s', pc') := Step(s, pc, t, env); KnowsState(s', pc')
  {
    if Asking(pc) { AskingKeepsState(s, pc, t, env); }
    else if Opening(pc) { OpeningKeepsState(s, pc, t, env); }
    else { SettlingKeepsState(s, pc, t, env); }
  }

  /** A permit, once handed out, stays with its caller unchanged. */
  lemma KeepsPermit(s: Shared, pc: Pc, t: nat, env: Env)
    requires CanStep(s, pc) && PermitOf(pc).Some?
    ensures PermitOf(Step(s, pc, t, env).1) == PermitOf(pc)
  {
  }

  lemma KeepsOwnBound(s: Shared, pc: Pc, t: nat, env: Env)
    requires CanStep(s, pc) && StampBounded(s, pc) && StampCurrent(s, pc)
    ensures var (s', pc') := Step(s, pc, t, env); StampBounded(s', pc')
  {
    var (s', pc') := Step(s, pc, t, env);
    if PermitOf(pc).Some? {
      KeepsPermit(s, pc, t, env);
      assert s'.generation >= s.generation;
      assert HasResult(pc', Opened) ==> HasResult(pc, Opened) || pc.OpNextGeneration?;
    }
  }

  lemma KeepsOwnCurrency(s: Shared, pc: Pc, t: nat, env: Env)
    requires CanStep(s, pc) && StampCurrent(s, pc)
    ensures var (s', pc') := Step(s, pc, t, env); StampCurrent(s', pc')
  {
  }

  lemma KeepsOwnPins(s: Shared, pc: Pc, t: nat, env: Env)
    requires CanStep(s, pc) && KnowsState(s, pc) && KnowsGeneration(s, pc) && ProbePins(s, pc)
    ensures var (s', pc') := Step(s, pc, t, env); ProbePins(s', pc')
  {
  }

  lemma KeepsOwnResult(w: World, t: nat, env: Env, w': World)
    requires Inv(w) && Next(w, t, env, w')
    ensures ProbeResult(w', w'.callers[t])
  {
    var pc := w.callers[t];
    assert InCriticalSection(pc) <==> w.shared.holder == Some(t);
  }

  /** The state word only moves under the mutex, and never under a probing caller's feet. */
  lemma StoresAreExclusive(w: World, t: nat, env: Env, w': World)
    requires Inv(w) && Next(w, t, env, w')
    ensures w'.shared.state != w.shared.state || w'.shared.generation != w.shared.generation ==>
              w.shared.holder == Some(t)
    ensures w'.shared.generation >= w.shared.generation
    ensures w.shared.state == HalfOpen && w'.shared.state != HalfOpen ==> Probing(w.callers[t])
    ensures w'.shared.generation != w.shared.generation ==> w.callers[t].OpNextGeneration?
  {
    assert InCriticalSection(w.callers[t]) <==> w.shared.holder == Some(t);
  }

  /** The facts of a caller that does not move. */
  lemma KeepsOtherFacts(w: World, t: nat, env: Env, w': World, u: nat)
    requires Inv(w) && Next(w, t, env, w') && u < |w.callers| && u != t
    ensures KnowsState(w'.shared, w'.callers[u]) && KnowsGeneration(w'.shared, w'.callers[u])
    ensures ProbePins(w'.shared, w'.callers[u])
  {
    StoresAreExclusive(w, t, env, w');
    assert InCriticalSection(w.callers[u]) <==> w.shared.holder == Some(u);
    assert !(Probing(w.callers[t]) && Probing(w.callers[u])) by {
      if t < u { assert !(Probing(w.callers[t]) && Probing(w.callers[u])); }
    }
  }

  lemma KeepsOtherResult(w: World, t: nat, env: Env, w': World, u: nat)
    requires Inv(w) && Next(w, t, env, w') && u < |w.callers| && u != t
    ensures ProbeResult(w', w'.callers[u])
  {
    StoresAreExclusive(w, t, env, w');
    assert InCriticalSection(w.callers[t]) <==> w.shared.holder == Some(t);
    assert w'.callers[u] == w.callers[u];
    assert ProbeResult(w, w.callers[u]);
  }

  lemma KeepsOneProber(w: World, t: nat, env: Env, w': World)
    requires Inv(w) && Next(w, t, env, w')
    ensures OneProber(w')
  {
    if !Probing(w.callers[t]) && Probing(w'.callers[t]) {
      assert w.callers[t].BcStoreHalfOpen?;
      assert w.shared.state == Open;
    }
  }

  /** A probe permit is minted only when no permit of this generation carries a probe yet. */
  lemma KeepsDistinctProbes(w: World, t: nat, env: Env, w': World)
    requires Inv(w) && Next(w, t, env, w')
    ensures DistinctProbeGenerations(w')
  {
    var pc := w.callers[t];
    assert InCriticalSection(pc) <==> w.shared.holder == Some(t);
    if pc.BcProbeGeneration? {
      assert Probing(pc) && w.shared.state == HalfOpen && !Bumping(w);
      forall u | 0 <= u < |w.callers| && u != t && IssuedProbe(w.callers[u])
        ensures PermitOf(w.callers[u]).value.generation < w.shared.generation
      {
        assert !Probing(w.callers[u]);
        assert InCriticalSection(w.callers[u]) <==> w.shared.holder == Some(u);
        assert ProbeResult(w, w.callers[u]);
      }
    } else {
      assert IssuedProbe(w'.callers[t]) ==> IssuedProbe(pc) && PermitOf(pc) == PermitOf(w'.callers[t]);
    }
  }

  /** Half-open after a step: the caller has the slot, or somebody else had it before. */
  lemma StepKeepsSlot(s: Shared, pc: Pc, t: nat, env: Env)
    requires CanStep(s, pc) && KnowsState(s, pc) && KnowsGeneration(s, pc) && ProbePins(s, pc)
    ensures var (s', pc') := Step(s, pc, t, env);
      s'.state == HalfOpen ==> Probing(pc') || (s.state == HalfOpen && !Probing(pc))
  {
  }

  lemma KeepsSlotTaken(w: World, t: nat, env: Env, w': World)
    requires Inv(w) && Next(w, t, env, w')
    ensures SlotTaken(w')
  {
    StepKeepsSlot(w.shared, w.callers[t], t, env);
    if w'.shared.state == HalfOpen && !Probing(w'.callers[t]) {
      var u :| 0 <= u < |w.callers| && Probing(w.callers[u]);
      assert w'.callers[u] == w.callers[u];
    }
  }

  lemma KeepsLocals(w: World, t: nat, env: Env, w': World)
    requires Inv(w) && Next(w, t, env, w')
    ensures Locals(w')
  {
    KeepsOwnState(w.shared, w.callers[t], t, env);
    KeepsOwnBound(w.shared, w.callers[t], t, env);
    KeepsOwnCurrency(w.shared, w.callers[t], t, env);
    KeepsOwnPins(w.shared, w.callers[t], t, env);
    KeepsOwnResult(w, t, env, w');
    forall u | 0 <= u < |w.callers| && u != t
      ensures KnowsState(w'.shared, w'.callers[u]) && KnowsGeneration(w'.shared, w'.callers[u])
      ensures ProbePins(w'.shared, w'.callers[u]) && ProbeResult(w', w'.callers[u])
    {
      KeepsOtherFacts(w, t, env, w', u);
      KeepsOtherResult(w, t, env, w', u);
    }
  }

  lemma StepCountsOpened(s: Shared, pc: Pc, t: nat, env: Env)
    requires CanStep(s, pc)
    ensures var (s', pc') := Step(s, pc, t, env);
      s'.generation + (if HasResult(pc, Opened) then 1 else 0) ==
      s.generation + (if HasResult(pc', Opened) then 1 else 0)
  {
  }

  lemma KeepsOpenedCount(w: World, t: nat, env: Env, w': World)
    requires Inv(w) && Next(w, t, env, w')
    ensures CountResults(w'.callers, Opened) == w'.shared.generation
  {
    StepCountsOpened(w.shared, w.callers[t], t, env);
    CountUpdate(w.callers, t, w'.callers[t], Opened);
  }

  lemma InvKept(w: World, t: nat, env: Env, w': World)
    requires Inv(w) && Next(w, t, env, w')
    ensures Inv(w')
  {
    KeepsExclusion(w, t, env, w');
    KeepsLocals(w, t, env, w');
    KeepsOneProber(w, t, env, w');
    KeepsDistinctProbes(w, t, env, w');
    KeepsSlotTaken(w, t, env, w');
    KeepsOpenedCount(w, t, env, w');
  }

  lemma {:induction false} NoResultsYet(callers: seq<Pc>, r: Transition)
    requires forall t :: 0 <= t < |callers| ==> callers[t] == Start
    ensures CountResults(callers, r) == 0
  {
    if callers != [] { NoResultsYet(callers[..|callers| - 1], r); }
  }

  lemma {:induction false} InvReached(ws: seq<World>, i: nat)
    requires IsRun(ws) && i < |ws|
    ensures Inv(ws[i])
  {
    if i == 0 {
      NoResultsYet(ws[0].callers, Opened);
    } else {
      InvReached(ws, i - 1);
      assert Succeeds(ws[i - 1], ws[i - 1 + 1]);
      var t: nat, env: Env :| Next(ws[i - 1], t, env, ws[i]);
      InvKept(ws[i - 1], t, env, ws[i]);
    }
  }

  // ----- Theorems over every reachable world -----

  /** A generation issues at most one probe permit, and `Recovered` is reported at most once per generation. */
  lemma OneProbePerGeneration(ws: seq<World>, i: nat, t: nat, u: nat)
    requires IsRun(ws) && i < |ws| && t < |ws[i].callers| && u < |ws[i].callers|
    requires PermitOf(ws[i].callers[t]).Some? && PermitOf(ws[i].callers[u]).Some?
    requires PermitOf(ws[i].callers[t]).value.generation == PermitOf(ws[i].callers[u]).value.generation
    ensures IssuedProbe(ws[i].callers[t]) && IssuedProbe(ws[i].callers[u]) ==> t == u
    ensures HasResult(ws[i].callers[t], Recovered) && HasResult(ws[i].callers[u], Recovered) ==> t == u
  {
    InvReached(ws, i);
    var w := ws[i];
    assert ProbeResult(w, w.callers[t]) && ProbeResult(w, w.callers[u]);
  }

  /** HalfOpen means that exactly one caller has the slot, and unless it is just about to
      load the generation into its permit, it holds an unsettled probe permit of the current one. */
  lemma HalfOpenHasOneProbe(ws: seq<World>, i: nat)
    requires IsRun(ws) && i < |ws| && ws[i].shared.state == HalfOpen
    ensures exists t :: 0 <= t < |ws[i].callers| && Probing(ws[i].callers[t]) &&
              (forall u :: 0 <= u < |ws[i].callers| && Probing(ws[i].callers[u]) ==> u == t) &&
              (ws[i].callers[t].BcProbeGeneration? ||
               PermitOf(ws[i].callers[t]) == Some(Permit(ws[i].shared.generation, true)))
  {
    InvReached(ws, i);
    var w := ws[i];
    var t :| 0 <= t < |w.callers| && Probing(w.callers[t]);
    assert ProbePins(w.shared, w.callers[t]);
  }

  /** With no call under way the circuit is open or closed: nobody leaves it half-open for good. */
  lemma QuietIsNotHalfOpen(ws: seq<World>, i: nat)
    requires IsRun(ws) && i < |ws| && forall t :: 0 <= t < |ws[i].callers| ==>
      Finished(ws[i].callers[t]) || ws[i].callers[t].Start?
    ensures ws[i].shared.state != HalfOpen
  {
    InvReached(ws, i);
  }

  /** Settling a probe always reports a transition and leaves the half-open state of its generation. */
  lemma SettledProbeLeavesHalfOpen(ws: seq<World>, i: nat, t: nat)
    requires IsRun(ws) && i < |ws| && t < |ws[i].callers|
    requires ws[i].callers[t].Done? && ws[i].callers[t].p.probe
    ensures ws[i].callers[t].result == Opened || ws[i].callers[t].result == Recovered
    ensures ws[i].shared.state == HalfOpen ==> ws[i].callers[t].p.generation < ws[i].shared.generation
  {
    InvReached(ws, i);
    var w := ws[i];
    assert ProbeResult(w, w.callers[t]);
    if Bumping(w) {
      assert KnowsState(w.shared, w.callers[w.shared.holder.value]);
    }
  }

  /** The generation counter is the number of `Opened` results handed out. */
  lemma OpenedCountsGenerations(ws: seq<World>, i: nat)
    requires IsRun(ws) && i < |ws|
    ensures CountResults(ws[i].callers, Opened) == ws[i].shared.generation
  {
    InvReached(ws, i);
  }

  /** A step by a caller whose permit is stale changes neither the state nor the generation. */
  lemma StalePermitsAreInert(ws: seq<World>, i: nat, t: nat, env: Env)
    requires IsRun(ws) && i + 1 < |ws| && Next(ws[i], t, env, ws[i + 1])
    requires PermitOf(ws[i].callers[t]).Some?
    requires PermitOf(ws[i].callers[t]).value.generation != ws[i].shared.generation
    ensures ws[i + 1].shared.state == ws[i].shared.state
    ensures ws[i + 1].shared.generation == ws[i].shared.generation
  {
    InvReached(ws, i);
    var w := ws[i];
    assert KnowsGeneration(w.shared, w.callers[t]);
  }

  // ----- How long an open circuit refuses -----

  /** Who takes a step, and what the environment contributes to it. */
  datatype Turn = Turn(t: nat, env: Env)

  /** A run with its schedule. */
  predicate Scheduled(ws: seq<World>, turns: seq<Turn>) {
    |ws| == |turns| + 1 && Initial(ws[0]) &&
    forall i :: 0 <= i < |turns| ==> Next(ws[i], turns[i].t, turns[i].env, ws[i + 1])
  }

  lemma ScheduledIsRun(ws: seq<World>, turns: seq<Turn>)
    requires Scheduled(ws, turns)
    ensures IsRun(ws)
  {
    forall i | 0 <= i < |ws| - 1
      ensures Succeeds(ws[i], ws[i + 1])
    {
      assert Next(ws[i], turns[i].t, turns[i].env, ws[i + 1]);
    }
  }

  /** Where the caller that takes step `i` stands. */
  function Actor(ws: seq<World>, turns: seq<Turn>, i: nat): Pc
    requires Scheduled(ws, turns) && i < |turns|
  {
    assert Next(ws[i], turns[i].t, turns[i].env, ws[i + 1]);
    ws[i].callers[turns[i].t]
  }

  /** What caller `t` last read off the clock in open_locked, within the first `i` steps. */
  function ClockRead(ws: seq<World>, turns: seq<Turn>, t: nat, i: nat): Option<int>
    requires Scheduled(ws, turns) && i <= |turns|
  {
    if i == 0 then None
    else if turns[i - 1].t == t && Actor(ws, turns, i - 1).OpDeadline? then Some(turns[i - 1].env.now)
    else ClockRead(ws, turns, t, i - 1)
  }

  /** Step `i` tells its caller `Opened`. */
  predicate TellsOpened(ws: seq<World>, turns: seq<Turn>, i: nat)
    requires Scheduled(ws, turns) && i < |turns|
  {
    var t := turns[i].t;
    t < |ws[i + 1].callers| && HasResult(ws[i + 1].callers[t], Opened) && !HasResult(Actor(ws, turns, i), Opened)
  }

  /** The time at which the last caller told `Opened` within the first `i` steps read the clock. */
  function LastOpening(ws: seq<World>, turns: seq<Turn>, i: nat): Option<int>
    requires Scheduled(ws, turns) && i <= |turns|
  {
    if i == 0 then None
    else if TellsOpened(ws, turns, i - 1) then ClockRead(ws, turns, turns[i - 1].t, i - 1)
    else LastOpening(ws, turns, i - 1)
  }

  predicate Dating(pc: Pc) {
    pc.OpStoreOpen? || pc.OpNextGeneration?
  }

  /** Some caller has set the deadline and not yet reported the opening. */
  ghost predicate SomeDating(w: World) {
    exists t :: 0 <= t < |w.callers| && Dating(w.callers[t])
  }

  /** The deadline is a second after the clock reading of whoever opens, or else of whoever opened last. */
  ghost predicate Dated(ws: seq<World>, turns: seq<Turn>, i: nat)
    requires Scheduled(ws, turns) && i <= |turns|
  {
    var w := ws[i];
    && (forall t: nat :: t < |w.callers| && Dating(w.callers[t]) ==>
          ClockRead(ws, turns, t, i) == Some(w.shared.openUntil - 1000))
    && (!SomeDating(w) && (w.shared.state == Open || LastOpening(ws, turns, i).Some?) ==>
          LastOpening(ws, turns, i) == Some(w.shared.openUntil - 1000))
  }

  /** A step, by what it does to the opening. */
  lemma StepDates(s: Shared, pc: Pc, t: nat, env: Env)
    requires CanStep(s, pc)
    ensures var (s', pc') := Step(s, pc, t, env);
      && (s'.openUntil == if pc.OpDeadline? then env.now + 1000 else s.openUntil)
      && (Dating(pc') <==> pc.OpDeadline? || pc.OpStoreOpen?)
      && (s'.state == Open ==> s.state == Open || pc.OpStoreOpen?)
      && (HasResult(pc', Opened) && !HasResult(pc, Opened) <==> pc.OpNextGeneration?)
  {
  }

  /** No two callers are in the critical section. */
  lemma DatingIsAlone(w: World, t: nat, u: nat)
    requires Exclusion(w) && t < |w.callers| && u < |w.callers|
    ensures InCriticalSection(w.callers[t]) && InCriticalSection(w.callers[u]) ==> t == u
  {
    assert InCriticalSection(w.callers[t]) <==> w.shared.holder == Some(t);
    assert InCriticalSection(w.callers[u]) <==> w.shared.holder == Some(u);
  }

  /** What a step of caller `t` does to the opening. */
  predicate Redates(w: World, t: nat, now: int, w': World) {
    t < |w.callers| && |w'.callers| == |w.callers| &&
    var pc, pc' := w.callers[t], w'.callers[t];
    && (forall u :: 0 <= u < |w.callers| && u != t ==> w'.callers[u] == w.callers[u])
    && (w'.shared.openUntil == if pc.OpDeadline? then now + 1000 else w.shared.openUntil)
    && (Dating(pc') <==> pc.OpDeadline? || pc.OpStoreOpen?)
    && (w'.shared.state == Open ==> w.shared.state == Open || pc.OpStoreOpen?)
    && (HasResult(pc', Opened) && !HasResult(pc, Opened) <==> pc.OpNextGeneration?)
  }

  lemma TurnRedates(ws: seq<World>, turns: seq<Turn>, i: nat)
    requires Scheduled(ws, turns) && i < |turns|
    ensures Redates(ws[i], turns[i].t, turns[i].env.now, ws[i + 1])
    ensures TellsOpened(ws, turns, i) <==> Actor(ws, turns, i).OpNextGeneration?
  {
    assert Next(ws[i], turns[i].t, turns[i].env, ws[i + 1]);
    StepDates(ws[i].shared, Actor(ws, turns, i), turns[i].t, turns[i].env);
  }

  /** Whoever dates an opening was doing so before, or has just read the clock. */
  lemma DaterKept(ws: seq<World>, turns: seq<Turn>, i: nat, u: nat)
    requires Scheduled(ws, turns) && i < |turns| && Exclusion(ws[i]) && Dated(ws, turns, i)
    requires u < |ws[i + 1].callers| && Dating(ws[i + 1].callers[u])
    ensures ClockRead(ws, turns, u, i + 1) == Some(ws[i + 1].shared.openUntil - 1000)
  {
    TurnRedates(ws, turns, i);
    DatingIsAlone(ws[i], u, turns[i].t);
  }

  /** Once nobody dates an opening, either the last one was just reported, or nobody did before. */
  lemma OpeningKept(ws: seq<World>, turns: seq<Turn>, i: nat)
    requires Scheduled(ws, turns) && i < |turns| && Exclusion(ws[i]) && Dated(ws, turns, i)
    requires !SomeDating(ws[i + 1]) && (ws[i + 1].shared.state == Open || LastOpening(ws, turns, i + 1).Some?)
    ensures LastOpening(ws, turns, i + 1) == Some(ws[i + 1].shared.openUntil - 1000)
  {
    TurnRedates(ws, turns, i);
    var w, t := ws[i], turns[i].t;
    assert !Dating(ws[i + 1].callers[t]);
    if !w.callers[t].OpNextGeneration? {
      forall u | 0 <= u < |w.callers|
        ensures !Dating(w.callers[u])
      {
        assert u != t ==> ws[i + 1].callers[u] == w.callers[u];
      }
    }
  }

  lemma DatedKept(ws: seq<World>, turns: seq<Turn>, i: nat)
    requires Scheduled(ws, turns) && i < |turns| && Exclusion(ws[i]) && Dated(ws, turns, i)
    ensures Dated(ws, turns, i + 1)
  {
    var w' := ws[i + 1];
    forall u: nat | u < |w'.callers| && Dating(w'.callers[u])
      ensures ClockRead(ws, turns, u, i + 1) == Some(w'.shared.openUntil - 1000)
    {
      DaterKept(ws, turns, i, u);
    }
    if !SomeDating(w') && (w'.shared.state == Open || LastOpening(ws, turns, i + 1).Some?) {
      OpeningKept(ws, turns, i);
    }
  }

  lemma {:induction false} DatedReached(ws: seq<World>, turns: seq<Turn>, i: nat)
    requires Scheduled(ws, turns) && i <= |turns|
    ensures Dated(ws, turns, i)
  {
    if i > 0 {
      DatedReached(ws, turns, i - 1);
      ScheduledIsRun(ws, turns);
      InvReached(ws, i - 1);
      DatedKept(ws, turns, i - 1);
    }
  }

  /** In every interleaving: whoever finds the circuit open under the mutex is refused for a second after the last
      caller told `Opened` read the clock, and then takes the half-open slot. */
  lemma OpenRefusesForASecond(ws: seq<World>, turns: seq<Turn>, i: nat)
    requires Scheduled(ws, turns) && i < |turns| && Actor(ws, turns, i).BcClock?
    ensures ws[i].shared.state == Open && LastOpening(ws, turns, i).Some?
    ensures var late := turns[i].env.now >= LastOpening(ws, turns, i).value + 1000;
      ws[i + 1].callers[turns[i].t] == if late then BcStoreHalfOpen else BcUnlockReject
  {
    var w, t := ws[i], turns[i].t;
    assert Next(w, t, turns[i].env, ws[i + 1]);
    ScheduledIsRun(ws, turns);
    InvReached(ws, i);
    DatedReached(ws, turns, i);
    assert KnowsState(w.shared, w.callers[t]);
    forall u | 0 <= u < |w.callers|
      ensures !Dating(w.callers[u])
    {
      DatingIsAlone(w, t, u);
    }
  }
}
