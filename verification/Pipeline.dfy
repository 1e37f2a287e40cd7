/** RedisPipeline (common/dao/data_redis.hpp:65-198) and the guarded calls of
    RedisClient: who settles a permit, and how often, through moves, failed
    queueing, execution and destruction. */
module Pipeline {
  import opened Wrappers
  import opened BreakerSteps
  import opened BreakerCalls

  /** How a call into the Redis client library ends: normally, or by one of the
      exceptions the catch clauses tell apart. */
  datatype Reply = Ok | IoError | ClosedError | ReplyError | PoolWaitError | OtherRedisError | OtherException

  /** guarded_, guarded_void_, exec and the construction of a pipeline. */
  function CallOutcome(r: Reply): Outcome {
    match r
    case Ok => Success
    case ReplyError => Success
    case IoError => Failure
    case ClosedError => Failure
    case PoolWaitError => Failure
    case OtherRedisError => Abandoned
    case OtherException => Abandoned
  }

  /** queue_: nothing is settled on success, and a reply error has no clause of its own. */
  function QueueOutcome(r: Reply): Option<Outcome> {
    match r
    case Ok => None
    case IoError => Some(Failure)
    case ClosedError => Some(Failure)
    case PoolWaitError => Some(Failure)
    case ReplyError => Some(Abandoned)
    case OtherRedisError => Some(Abandoned)
    case OtherException => Some(Abandoned)
  }

  /** The fields of a pipeline object; `hasBreaker` is a non-null shared_ptr. */
  datatype Pipe<P> = Pipe(hasBreaker: bool, permit: P, settled: bool)

  /** What an operation reports to the breaker, if anything. */
  datatype Report<P> = Silent | Reports(permit: P, outcome: Outcome)

  /** Holding an unsettled permit requires a breaker to settle it with. */
  predicate Sound<P>(v: Pipe<P>) {
    v.settled || v.hasBreaker
  }

  function SettleWith<P>(v: Pipe<P>, o: Outcome): (Pipe<P>, Report<P>) {
    if v.settled then (v, Silent) else (v.(settled := true), Reports(v.permit, o))
  }

  function Abandon<P>(v: Pipe<P>): (Pipe<P>, Report<P>) {
    if v.settled || !v.hasBreaker then (v, Silent) else (v.(settled := true), Reports(v.permit, Abandoned))
  }

  function Queued<P>(v: Pipe<P>, r: Reply): (Pipe<P>, Report<P>) {
    if v.settled || r.Ok? then (v, Silent) else SettleWith(v, QueueOutcome(r).value)
  }

  function Executed<P>(v: Pipe<P>, r: Reply): (Pipe<P>, Report<P>) {
    if v.settled then (v, Silent) else SettleWith(v, CallOutcome(r))
  }

  function MovedFrom<P>(v: Pipe<P>): Pipe<P> {
    v.(hasBreaker := false, settled := true)
  }

  /** The class as it is written, over a real breaker. */
  class RedisPipeline {
    var breaker: RedisCircuitBreaker?
    var permit: Permit
    var settled: bool

    ghost function View(): Pipe<Permit>
      reads this
    {
      Pipe(breaker != null, permit, settled)
    }

    /** The effect of a report on the breaker. */
    static ghost predicate Told(before: Core, r: Report<Permit>, now: int, after: Core) {
      after == (if r.Silent? then before else Settle(before, r.permit, r.outcome, now).0)
    }

    constructor (breaker: RedisCircuitBreaker, permit: Permit)
      ensures View() == Pipe(true, permit, false) && this.breaker == breaker
    {
      this.breaker, this.permit, this.settled := breaker, permit, false;
    }

    constructor Move(other: RedisPipeline)
      modifies other
      ensures View() == old(other.View()) && breaker == old(other.breaker)
      ensures other.View() == MovedFrom(old(other.View()))
    {
      breaker, permit, settled := other.breaker, other.permit, other.settled;
      new;
      other.breaker := null;
      other.settled := true;
    }

    method SettleAs(o: Outcome, now: int)
      requires Sound(View())
      modifies this`settled, breaker
      ensures View() == SettleWith(old(View()), o).0
      ensures breaker != null ==> Told(old(breaker.View()), SettleWith(old(View()), o).1, now, breaker.View())
    {
      if settled { return; }
      settled := true;
      match o {
        case Success => var _ := breaker.OnSuccess(permit);
        case Failure => var _ := breaker.OnConnectionFailure(permit, now);
        case Abandoned => var _ := breaker.OnAbandoned(permit, now);
      }
    }

    /** The destructor, and the first half of a move assignment. */
    method Release(now: int)
      modifies this`settled, breaker
      ensures View() == Abandon(old(View())).0
      ensures breaker != null ==> Told(old(breaker.View()), Abandon(old(View())).1, now, breaker.View())
    {
      if settled || breaker == null { return; }
      settled := true;
      var _ := breaker.OnAbandoned(permit, now);
    }

    method Assign(other: RedisPipeline, now: int)
      modifies this, other, breaker
      ensures other == this ==> View() == old(View()) && breaker == old(breaker)
      ensures other != this ==> View() == old(other.View()) && breaker == old(other.breaker)
      ensures other != this ==> other.View() == MovedFrom(old(other.View()))
      ensures old(breaker) != null ==>
        Told(old(breaker.View()), if other == this then Silent else Abandon(old(View())).1, now, old(breaker).View())
    {
      if other == this { return; }
      Release(now);
      breaker, permit, settled := other.breaker, other.permit, other.settled;
      other.breaker := null;
      other.settled := true;
    }

    method Queue(r: Reply, now: int) returns (logicError: bool)
      requires Sound(View())
      modifies this`settled, breaker
      ensures logicError == old(settled)
      ensures View() == Queued(old(View()), r).0
      ensures breaker != null ==> Told(old(breaker.View()), Queued(old(View()), r).1, now, breaker.View())
    {
      if settled { return true; }
      logicError := false;
      if !r.Ok? { SettleAs(QueueOutcome(r).value, now); }
    }

    method Exec(r: Reply, now: int) returns (logicError: bool)
      requires Sound(View())
      modifies this`settled, breaker
      ensures logicError == old(settled)
      ensures View() == Executed(old(View()), r).0
      ensures breaker != null ==> Told(old(breaker.View()), Executed(old(View()), r).1, now, breaker.View())
    {
      if settled { return true; }
      logicError := false;
      SettleAs(CallOutcome(r), now);
    }
  }

  // ----- Every permit is settled exactly once, whatever is done with the objects -----

  /** All pipeline objects alive, the tickets (one per permit issued), and what was reported.  A guarded call under way
      is kept among the objects: it holds its permit as a pipeline does, and other operations fall in between. */
  datatype Pool = Pool(pipes: map<nat, Pipe<nat>>, issued: set<nat>, reports: seq<Report<nat>>)

  datatype Op =
    | Enter(id: nat, ticket: nat)                    // guarded_ and guarded_void_, up to the call itself
    | Leave(id: nat, reply: Reply)                   // ... and from its return on
    | Create(id: nat, ticket: nat, reply: Reply)     // RedisClient::pipeline
    | MoveInit(dst: nat, src: nat)
    | MoveAssign(dst: nat, src: nat)
    | QueueOn(id: nat, reply: Reply)
    | ExecOn(id: nat, reply: Reply)
    | Destroy(id: nat)

  predicate Possible(w: Pool, op: Op) {
    match op
    case Enter(i, k) => k !in w.issued && i !in w.pipes
    case Leave(i, _) => i in w.pipes
    case Create(i, k, _) => k !in w.issued && i !in w.pipes
    case MoveInit(d, s) => d !in w.pipes && s in w.pipes
    case MoveAssign(d, s) => d in w.pipes && s in w.pipes
    case QueueOn(i, _) => i in w.pipes
    case ExecOn(i, _) => i in w.pipes
    case Destroy(i) => i in w.pipes
  }

  function Log(w: Pool, r: Report<nat>): seq<Report<nat>> {
    if r.Silent? then w.reports else w.reports + [r]
  }

  function Act(w: Pool, op: Op): Pool
    requires Possible(w, op)
  {
    match op
    case Enter(i, k) => w.(issued := w.issued + {k}, pipes := w.pipes[i := Pipe(true, k, false)])
    case Leave(i, r) => w.(pipes := w.pipes - {i}, reports := Log(w, Executed(w.pipes[i], r).1))
    case Create(i, k, r) =>
      if r.Ok? then w.(issued := w.issued + {k}, pipes := w.pipes[i := Pipe(true, k, false)])
      else w.(issued := w.issued + {k}, reports := w.reports + [Reports(k, CallOutcome(r))])
    case MoveInit(d, s) => w.(pipes := w.pipes[d := w.pipes[s]][s := MovedFrom(w.pipes[s])])
    case MoveAssign(d, s) =>
      if d == s then w
      else w.(pipes := w.pipes[d := w.pipes[s]][s := MovedFrom(w.pipes[s])], reports := Log(w, Abandon(w.pipes[d]).1))
    case QueueOn(i, r) =>
      w.(pipes := w.pipes[i := Queued(w.pipes[i], r).0], reports := Log(w, Queued(w.pipes[i], r).1))
    case ExecOn(i, r) =>
      w.(pipes := w.pipes[i := Executed(w.pipes[i], r).0], reports := Log(w, Executed(w.pipes[i], r).1))
    case Destroy(i) =>
      w.(pipes := w.pipes - {i}, reports := Log(w, Abandon(w.pipes[i]).1))
  }

  function AfterOps(ops: seq<Op>): Option<Pool> {
    if ops == [] then Some(Pool(map[], {}, []))
    else
      var w := AfterOps(ops[..|ops| - 1]);
      if w.Some? && Possible(w.value, ops[|ops| - 1]) then Some(Act(w.value, ops[|ops| - 1])) else None
  }

  function TimesReported(reports: seq<Report<nat>>, k: nat): nat {
    if reports == [] then 0
    else
      var last := reports[|reports| - 1];
      TimesReported(reports[..|reports| - 1], k) + (if last.Reports? && last.permit == k then 1 else 0)
  }

  /** The objects that still owe the settlement of ticket `k`. */
  function Owing(pipes: map<nat, Pipe<nat>>, k: nat): set<nat> {
    set i | i in pipes && Owes(pipes[i], k)
  }

  predicate Owes(v: Pipe<nat>, k: nat) {
    !v.settled && v.permit == k
  }

  /** Settlements made and still owed for ticket `k`. */
  function Account(w: Pool, k: nat): nat {
    TimesReported(w.reports, k) + |Owing(w.pipes, k)|
  }

  ghost predicate Balanced(w: Pool) {
    && (forall i :: i in w.pipes ==> Sound(w.pipes[i]))
    && (forall k :: Account(w, k) == if k in w.issued then 1 else 0)
  }

  lemma ReportAdds(reports: seq<Report<nat>>, r: Report<nat>, k: nat)
    requires r.Reports?
    ensures TimesReported(reports + [r], k) == TimesReported(reports, k) + (if r.permit == k then 1 else 0)
  {
    assert (reports + [r])[..|reports|] == reports;
  }

  lemma LogAdds(w: Pool, r: Report<nat>, k: nat)
    ensures TimesReported(Log(w, r), k) == TimesReported(w.reports, k) + (if r.Reports? && r.permit == k then 1 else 0)
  {
    if r.Reports? { ReportAdds(w.reports, r, k); }
  }

  lemma OwingPut(pipes: map<nat, Pipe<nat>>, i: nat, v: Pipe<nat>, k: nat)
    ensures |Owing(pipes[i := v], k)| + (if i in pipes && Owes(pipes[i], k) then 1 else 0)
         == |Owing(pipes, k)| + (if Owes(v, k) then 1 else 0)
  {
    var rest := Owing(pipes, k) - {i};
    assert Owing(pipes, k) == if i in pipes && Owes(pipes[i], k) then rest + {i} else rest;
    assert Owing(pipes[i := v], k) == if Owes(v, k) then rest + {i} else rest;
  }

  lemma OwingDrop(pipes: map<nat, Pipe<nat>>, i: nat, k: nat)
    requires i in pipes
    ensures |Owing(pipes - {i}, k)| + (if Owes(pipes[i], k) then 1 else 0) == |Owing(pipes, k)|
  {
    var rest := Owing(pipes, k) - {i};
    assert Owing(pipes, k) == if Owes(pipes[i], k) then rest + {i} else rest;
    assert Owing(pipes - {i}, k) == rest;
  }

  lemma DebtIssued(w: Pool, op: Op, k: nat)
    requires Possible(w, op) && (op.Enter? || op.Create?)
    ensures Account(Act(w, op), k) == Account(w, k) + (if op.ticket == k then 1 else 0)
  {
    if op.Create? { ReportAdds(w.reports, Reports(op.ticket, CallOutcome(op.reply)), k); }
    OwingPut(w.pipes, op.id, Pipe(true, op.ticket, false), k);
  }

  lemma DebtMoved(w: Pool, op: Op, k: nat)
    requires Balanced(w) && Possible(w, op) && (op.MoveInit? || op.MoveAssign?)
    ensures Account(Act(w, op), k) == Account(w, k)
  {
    var d, s := op.dst, op.src;
    OwingPut(w.pipes, d, w.pipes[s], k);
    OwingPut(w.pipes[d := w.pipes[s]], s, MovedFrom(w.pipes[s]), k);
    if op.MoveAssign? { LogAdds(w, Abandon(w.pipes[d]).1, k); }
  }

  lemma DebtSettled(w: Pool, op: Op, k: nat)
    requires Balanced(w) && Possible(w, op) && (op.QueueOn? || op.ExecOn? || op.Destroy? || op.Leave?)
    ensures Account(Act(w, op), k) == Account(w, k)
  {
    var v := w.pipes[op.id];
    if op.Destroy? || op.Leave? {
      OwingDrop(w.pipes, op.id, k);
      LogAdds(w, if op.Leave? then Executed(v, op.reply).1 else Abandon(v).1, k);
    } else {
      var (v', r) := if op.QueueOn? then Queued(v, op.reply) else Executed(v, op.reply);
      OwingPut(w.pipes, op.id, v', k);
      LogAdds(w, r, k);
    }
  }

  /** Debt for one ticket only moves between objects or turns into a report. */
  lemma DebtMoves(w: Pool, op: Op, k: nat)
    requires Balanced(w) && Possible(w, op)
    ensures Account(Act(w, op), k) == Account(w, k) + (if k in Act(w, op).issued && k !in w.issued then 1 else 0)
  {
    if op.Enter? || op.Create? { DebtIssued(w, op, k); }
    else if op.MoveInit? || op.MoveAssign? { DebtMoved(w, op, k); }
    else { DebtSettled(w, op, k); }
  }

  lemma ActKeepsBalanced(w: Pool, op: Op)
    requires Balanced(w) && Possible(w, op)
    ensures Balanced(Act(w, op))
  {
    forall k: nat
      ensures Account(Act(w, op), k) == if k in Act(w, op).issued then 1 else 0
    {
      assert Account(w, k) == if k in w.issued then 1 else 0;
      DebtMoves(w, op, k);
    }
  }

  lemma {:induction false} BalanceReached(ops: seq<Op>)
    requires AfterOps(ops).Some?
    ensures Balanced(AfterOps(ops).value)
  {
    if ops != [] {
      BalanceReached(ops[..|ops| - 1]);
      ActKeepsBalanced(AfterOps(ops[..|ops| - 1]).value, ops[|ops| - 1]);
    }
  }

  /** No permit is ever settled twice, a settled permit is owed by nobody, and
      once every pipeline is destroyed each issued permit has been settled. */
  lemma SettledExactlyOnce(ops: seq<Op>, k: nat)
    requires AfterOps(ops).Some?
    ensures var w := AfterOps(ops).value;
      && TimesReported(w.reports, k) <= 1
      && (TimesReported(w.reports, k) == 1 ==>
            k in w.issued && forall i :: i in w.pipes && w.pipes[i].permit == k ==> w.pipes[i].settled)
      && (w.pipes == map[] ==> (TimesReported(w.reports, k) == 1 <==> k in w.issued))
  {
    BalanceReached(ops);
    var w := AfterOps(ops).value;
    assert Account(w, k) == if k in w.issued then 1 else 0;
    forall i | i in w.pipes && w.pipes[i].permit == k && !w.pipes[i].settled
      ensures |Owing(w.pipes, k)| >= 1
    {
      assert i in Owing(w.pipes, k);
    }
    if w.pipes == map[] { assert Owing(w.pipes, k) == {}; }
  }

  // ----- The objects and the breaker together -----

  /** The pipeline objects, the breaker behind them, the permit each ticket stands for, and whether a report ever came
      for a permit the breaker was not waiting for. */
  datatype Client = Client(pool: Pool, system: System, permits: map<nat, Permit>, astray: bool)

  datatype Turn = Turn(op: Op, now: int)

  predicate Issues(op: Op) {
    op.Enter? || op.Create?
  }

  /** What an operation reports, if anything. */
  function NewReport(w: Pool, op: Op): Report<nat>
    requires Possible(w, op)
  {
    match op
    case Enter(_, _) => Silent
    case Leave(i, r) => Executed(w.pipes[i], r).1
    case Create(_, k, r) => if r.Ok? then Silent else Reports(k, CallOutcome(r))
    case MoveInit(_, _) => Silent
    case MoveAssign(d, s) => if d == s then Silent else Abandon(w.pipes[d]).1
    case QueueOn(i, r) => Queued(w.pipes[i], r).1
    case ExecOn(i, r) => Executed(w.pipes[i], r).1
    case Destroy(i) => Abandon(w.pipes[i]).1
  }

  lemma ActLogs(w: Pool, op: Op)
    requires Possible(w, op)
    ensures Act(w, op).reports == Log(w, NewReport(w, op))
  {
  }

  /** The turn asks for a permit and gets RedisCircuitOpen: the operation does not come about. */
  predicate Refused(c: Client, t: Turn) {
    Issues(t.op) && Ask(c.system.core, t.now).1.None?
  }

  /** The operation with the permit it asked for, if it needs one. */
  function Asked(c: Client, t: Turn): Client
    requires Possible(c.pool, t.op) && !Refused(c, t)
  {
    if !Issues(t.op) then c.(pool := Act(c.pool, t.op))
    else
      var permit := Ask(c.system.core, t.now).1.value;
      Client(Act(c.pool, t.op), Perform(c.system, AskCall(t.now)), c.permits[t.op.ticket := permit], c.astray)
  }

  /** What an operation reports settles the permit of its ticket. */
  function Take(c: Client, t: Turn): Client
    requires Possible(c.pool, t.op)
  {
    if Refused(c, t) then c else Told(Asked(c, t), NewReport(c.pool, t.op), t.now)
  }

  function Told(c: Client, r: Report<nat>, now: int): Client {
    if r.Silent? then c
    else if r.permit !in c.permits || c.permits[r.permit] !in c.system.pending then c.(astray := true)
    else c.(system := Perform(c.system, SettleCall(c.permits[r.permit], r.outcome, now)))
  }

  /** The client after these turns; None only if one is not possible, as when it uses an object that does not exist. */
  function AfterTurns(turns: seq<Turn>): Option<Client> {
    if turns == [] then Some(Client(Pool(map[], {}, []), FRESH, map[], false))
    else
      var c := AfterTurns(turns[..|turns| - 1]);
      if c.Some? && Possible(c.value.pool, turns[|turns| - 1].op) then Some(Take(c.value, turns[|turns| - 1])) else None
  }

  /** The tickets of permit `p` that are not settled yet. */
  function Unsettled(permits: map<nat, Permit>, reports: seq<Report<nat>>, p: Permit): set<nat> {
    set k | k in permits && TimesReported(reports, k) == 0 && permits[k] == p
  }

  /** The breaker waits for as many permits of each kind as are not settled. */
  ghost predicate Awaits(y: System, permits: map<nat, Permit>, reports: seq<Report<nat>>) {
    forall p :: y.pending[p] == |Unsettled(permits, reports, p)|
  }

  ghost predicate Reached(y: System) {
    exists calls :: After(calls) == Some(y)
  }

  ghost predicate InStep(c: Client) {
    !c.astray && Balanced(c.pool) && c.permits.Keys == c.pool.issued &&
    Reached(c.system) && Awaits(c.system, c.permits, c.pool.reports)
  }

  lemma CallReached(y: System, c: Call)
    requires Reached(y) && Allowed(y, c)
    ensures Reached(Perform(y, c))
  {
    var calls :| After(calls) == Some(y);
    assert (calls + [c])[..|calls|] == calls;
    assert After(calls + [c]) == Some(Perform(y, c));
  }

  lemma UnsettledIssued(permits: map<nat, Permit>, reports: seq<Report<nat>>, k: nat, granted: Permit, p: Permit)
    requires k !in permits && TimesReported(reports, k) == 0
    ensures |Unsettled(permits[k := granted], reports, p)| ==
      |Unsettled(permits, reports, p)| + (if p == granted then 1 else 0)
  {
    assert Unsettled(permits[k := granted], reports, p) ==
      if p == granted then Unsettled(permits, reports, p) + {k} else Unsettled(permits, reports, p);
  }

  lemma AskAwaits(y: System, permits: map<nat, Permit>, reports: seq<Report<nat>>, k: nat, now: int)
    requires Awaits(y, permits, reports) && k !in permits && TimesReported(reports, k) == 0 && Ask(y.core, now).1.Some?
    ensures Awaits(Perform(y, AskCall(now)), permits[k := Ask(y.core, now).1.value], reports)
  {
    var granted := Ask(y.core, now).1.value;
    assert Perform(y, AskCall(now)).pending == y.pending + multiset{granted};
    forall p
      ensures (y.pending + multiset{granted})[p] == |Unsettled(permits[k := granted], reports, p)|
    {
      assert y.pending[p] == |Unsettled(permits, reports, p)|;
      UnsettledIssued(permits, reports, k, granted, p);
    }
  }

  lemma SettleAwaits(y: System, permits: map<nat, Permit>, reports: seq<Report<nat>>, r: Report<nat>, now: int)
    requires Awaits(y, permits, reports) && r.Reports? && r.permit in permits && TimesReported(reports, r.permit) == 0
    ensures permits[r.permit] in y.pending
    ensures Awaits(Perform(y, SettleCall(permits[r.permit], r.outcome, now)), permits, reports + [r])
  {
    var settled := permits[r.permit];
    assert r.permit in Unsettled(permits, reports, settled);
    forall p
      ensures (y.pending - multiset{settled})[p] == |Unsettled(permits, reports + [r], p)|
    {
      forall k
        ensures TimesReported(reports + [r], k) == TimesReported(reports, k) + (if r.permit == k then 1 else 0)
      {
        ReportAdds(reports, r, k);
      }
      assert Unsettled(permits, reports + [r], p) == Unsettled(permits, reports, p) - {r.permit};
    }
  }

  /** Whatever is reported was issued, and not reported before. */
  lemma ReportIsNew(w: Pool, op: Op)
    requires Balanced(w) && Possible(w, op) && NewReport(w, op).Reports?
    ensures var k := NewReport(w, op).permit; k in Act(w, op).issued && TimesReported(w.reports, k) == 0
  {
    var k := NewReport(w, op).permit;
    ActKeepsBalanced(w, op);
    ActLogs(w, op);
    LogAdds(w, NewReport(w, op), k);
    assert Account(Act(w, op), k) == if k in Act(w, op).issued then 1 else 0;
  }

  lemma ToldInStep(c: Client, before: seq<Report<nat>>, r: Report<nat>, now: int)
    requires !c.astray && Balanced(c.pool) && c.permits.Keys == c.pool.issued && Reached(c.system)
    requires Awaits(c.system, c.permits, before)
    requires c.pool.reports == if r.Silent? then before else before + [r]
    requires r.Reports? ==> r.permit in c.permits && TimesReported(before, r.permit) == 0
    ensures InStep(Told(c, r, now))
  {
    if r.Reports? {
      SettleAwaits(c.system, c.permits, before, r, now);
      CallReached(c.system, SettleCall(c.permits[r.permit], r.outcome, now));
    }
  }

  /** The operation with its permit asked for, if it needs one; its report is still to be told. */
  lemma ActInStep(c: Client, op: Op, asked: System, permits: map<nat, Permit>, now: int)
    requires InStep(c) && Possible(c.pool, op) && Reached(asked) && Awaits(asked, permits, c.pool.reports)
    requires permits.Keys == Act(c.pool, op).issued
    ensures InStep(Told(Client(Act(c.pool, op), asked, permits, c.astray), NewReport(c.pool, op), now))
  {
    ActKeepsBalanced(c.pool, op);
    ActLogs(c.pool, op);
    if NewReport(c.pool, op).Reports? { ReportIsNew(c.pool, op); }
    ToldInStep(Client(Act(c.pool, op), asked, permits, c.astray), c.pool.reports, NewReport(c.pool, op), now);
  }

  lemma IssueKeepsInStep(c: Client, t: Turn)
    requires InStep(c) && Possible(c.pool, t.op) && Issues(t.op) && Ask(c.system.core, t.now).1.Some?
    ensures var k, r := t.op.ticket, Ask(c.system.core, t.now).1;
      var asked, permits := Perform(c.system, AskCall(t.now)), c.permits[k := r.value];
      Reached(asked) && Awaits(asked, permits, c.pool.reports) && permits.Keys == Act(c.pool, t.op).issued
  {
    assert Account(c.pool, t.op.ticket) == 0;
    AskAwaits(c.system, c.permits, c.pool.reports, t.op.ticket, t.now);
    CallReached(c.system, AskCall(t.now));
  }

  lemma TurnKeepsInStep(c: Client, t: Turn)
    requires InStep(c) && Possible(c.pool, t.op)
    ensures InStep(Take(c, t))
  {
    var r := Ask(c.system.core, t.now).1;
    if !Issues(t.op) {
      ActInStep(c, t.op, c.system, c.permits, t.now);
    } else if r.Some? {
      IssueKeepsInStep(c, t);
      ActInStep(c, t.op, Perform(c.system, AskCall(t.now)), c.permits[t.op.ticket := r.value], t.now);
    }
  }

  /** However operations on the objects and their permits go, the breaker waits for exactly the permits that are not
      settled, and no report goes astray. */
  lemma {:induction false} InStepReached(turns: seq<Turn>)
    requires AfterTurns(turns).Some?
    ensures InStep(AfterTurns(turns).value)
  {
    if turns == [] {
      assert After([]) == Some(FRESH);
    } else {
      InStepReached(turns[..|turns| - 1]);
      TurnKeepsInStep(AfterTurns(turns[..|turns| - 1]).value, turns[|turns| - 1]);
    }
  }

  /** With no pipeline alive and no call under way the breaker is not half-open: nobody can lose the probe. */
  lemma IdleClientIsNotHalfOpen(turns: seq<Turn>)
    requires AfterTurns(turns).Some? && AfterTurns(turns).value.pool.pipes == map[]
    ensures AfterTurns(turns).value.system.core.state != HalfOpen
  {
    var c := AfterTurns(turns).value;
    InStepReached(turns);
    forall p
      ensures c.system.pending[p] == 0
    {
      forall k | k in c.permits
        ensures TimesReported(c.pool.reports, k) == 1
      {
        assert Account(c.pool, k) == 1 && Owing(c.pool.pipes, k) == {};
      }
      assert Unsettled(c.permits, c.pool.reports, p) == {};
    }
    var calls :| After(calls) == Some(c.system);
    assert c.system.pending == multiset{};
    SettledIsNotHalfOpen(calls);
  }

  // ----- What replies do to the breaker -----

  /** Redis answered. */
  predicate Answered(r: Reply) {
    r == Ok || r == ReplyError
  }

  /** The connection was lost, or there was none to be had. */
  predicate Broken(r: Reply) {
    r == IoError || r == ClosedError || r == PoolWaitError
  }

  datatype Fate = Served | Lost | Dropped

  function FateOf(r: Reply): Fate {
    if Answered(r) then Served else if Broken(r) then Lost else Dropped
  }

  datatype Verdict<P> = Verdict(permit: P, fate: Fate)

  /** What an operation means for a ticket, by the reply it got: queueing says nothing unless it fails, and nothing good
      then; an object that goes away or is overwritten drops what it holds. */
  function Meaning(w: Pool, op: Op): Option<Verdict<nat>>
    requires Possible(w, op)
  {
    match op
    case Enter(_, _) => None
    case MoveInit(_, _) => None
    case Create(_, k, r) => if r.Ok? then None else Some(Verdict(k, FateOf(r)))
    case Leave(i, r) => if w.pipes[i].settled then None else Some(Verdict(w.pipes[i].permit, FateOf(r)))
    case ExecOn(i, r) => if w.pipes[i].settled then None else Some(Verdict(w.pipes[i].permit, FateOf(r)))
    case QueueOn(i, r) =>
      if w.pipes[i].settled || r.Ok? then None
      else Some(Verdict(w.pipes[i].permit, if Broken(r) then Lost else Dropped))
    case MoveAssign(d, s) =>
      if d == s || w.pipes[d].settled then None else Some(Verdict(w.pipes[d].permit, Dropped))
    case Destroy(i) => if w.pipes[i].settled then None else Some(Verdict(w.pipes[i].permit, Dropped))
  }

  function PermitIn(c: Client, k: nat): Permit {
    if k in c.permits then c.permits[k] else Permit(0, false)
  }

  /** The permit a ticket stands for in a turn. */
  function PermitFor(c: Client, t: Turn, k: nat): Permit {
    var r := Ask(c.system.core, t.now).1;
    if Issues(t.op) && t.op.ticket == k && r.Some? then r.value else PermitIn(c, k)
  }

  /** The permit a turn decides about, and how, if it does. */
  function Decides(c: Client, t: Turn): seq<Verdict<Permit>>
    requires Possible(c.pool, t.op)
  {
    var m := Meaning(c.pool, t.op);
    if Refused(c, t) || m.None? then [] else [Verdict(PermitFor(c, t, m.value.permit), m.value.fate)]
  }

  function Verdicts(turns: seq<Turn>): seq<Verdict<Permit>>
    requires AfterTurns(turns).Some?
  {
    if turns == [] then []
    else
      var n := |turns| - 1;
      Verdicts(turns[..n]) + Decides(AfterTurns(turns[..n]).value, turns[n])
  }

  /** How many ordinary permits of generation `g` were lost in a row. */
  function LostInRow(vs: seq<Verdict<Permit>>, g: nat): nat {
    if vs == [] then 0
    else
      var last, before := vs[|vs| - 1], LostInRow(vs[..|vs| - 1], g);
      if last.permit != Permit(g, false) || last.fate == Dropped then before
      else if last.fate == Lost then before + 1 else 0
  }

  function Settled(v: Verdict<Permit>): Settlement {
    Settlement(v.permit, match v.fate case Served => Success case Lost => Failure case Dropped => Abandoned)
  }

  function History(vs: seq<Verdict<Permit>>): seq<Settlement> {
    seq(|vs|, i requires 0 <= i < |vs| => Settled(vs[i]))
  }

  lemma HistoryGrows(vs: seq<Verdict<Permit>>, more: seq<Verdict<Permit>>)
    ensures History(vs + more) == History(vs) + History(more)
  {
  }

  lemma {:induction false} StreakIsLostInRow(vs: seq<Verdict<Permit>>, g: nat)
    ensures Streak(History(vs), g) == LostInRow(vs, g)
  {
    if vs != [] {
      var n := |vs| - 1;
      StreakIsLostInRow(vs[..n], g);
      assert History(vs)[..n] == History(vs[..n]);
    }
  }

  /** The report made is what the reply means. */
  lemma ReportIsMeaning(w: Pool, op: Op)
    requires Balanced(w) && Possible(w, op)
    ensures NewReport(w, op) ==
      match Meaning(w, op)
      case None => Silent
      case Some(v) =>
        Reports(v.permit, match v.fate case Served => Success case Lost => Failure case Dropped => Abandoned)
  {
    assert forall i :: i in w.pipes ==> Sound(w.pipes[i]);
  }

  /** What is told in step goes into the history. */
  lemma ToldSettles(c: Client, r: Report<nat>, now: int)
    requires !Told(c, r, now).astray
    ensures Told(c, r, now).system.history == c.system.history +
      if r.Silent? then [] else [Settlement(PermitIn(c, r.permit), r.outcome)]
  {
  }

  lemma AskedKeepsHistory(c: Client, t: Turn, k: nat)
    requires Possible(c.pool, t.op) && !Refused(c, t)
    ensures Asked(c, t).system.history == c.system.history && PermitIn(Asked(c, t), k) == PermitFor(c, t, k)
  {
  }

  /** A turn that decides settles, and one that does not leaves the history alone. */
  lemma TurnSettles(c: Client, t: Turn)
    requires Possible(c.pool, t.op) && !Take(c, t).astray && Balanced(c.pool)
    ensures Take(c, t).system.history == c.system.history + History(Decides(c, t))
  {
    var m := Meaning(c.pool, t.op);
    ReportIsMeaning(c.pool, t.op);
    if !Refused(c, t) {
      ToldSettles(Asked(c, t), NewReport(c.pool, t.op), t.now);
      AskedKeepsHistory(c, t, if m.Some? then m.value.permit else 0);
      if m.Some? { assert History(Decides(c, t)) == [Settled(Decides(c, t)[0])]; }
    }
  }

  lemma {:induction false} HistoryIsVerdicts(turns: seq<Turn>)
    requires AfterTurns(turns).Some?
    ensures AfterTurns(turns).value.system.history == History(Verdicts(turns))
  {
    if turns != [] {
      var n := |turns| - 1;
      HistoryIsVerdicts(turns[..n]);
      InStepReached(turns[..n]);
      InStepReached(turns);
      TurnSettles(AfterTurns(turns[..n]).value, turns[n]);
      HistoryGrows(Verdicts(turns[..n]), Decides(AfterTurns(turns[..n]).value, turns[n]));
    }
  }

  /** The third permit of a generation lost in a row, or a probe that was not served. */
  predicate Trips(vs: seq<Verdict<Permit>>, v: Verdict<Permit>, g: nat) {
    if v.permit.probe then v.fate != Served
    else v.permit.generation == g && v.fate == Lost && LostInRow(vs + [v], g) == 3
  }

  /** What a settlement reports, and the breaker it leaves. */
  lemma TransitionShows(c: Core, p: Permit, o: Outcome, now: int)
    ensures var (c', r) := Settle(c, p, o, now);
      match r
      case Opened => c'.state == Open && c'.generation == c.generation + 1
      case Recovered => c'.state == Closed && c'.generation == c.generation && c.state == HalfOpen
      case NoTransition => c'.state == c.state && c'.generation == c.generation
  {
  }

  lemma SettlementTrips(y: System, vs: seq<Verdict<Permit>>, v: Verdict<Permit>, now: int)
    requires Reached(y) && y.history == History(vs) && v.permit in y.pending
    ensures var r := Settle(y.core, v.permit, Settled(v).o, now).1;
      (r == Opened <==> Trips(vs, v, y.core.generation)) && (r == Recovered <==> v.permit.probe && v.fate == Served)
  {
    var calls :| After(calls) == Some(y);
    OpensExactlyAtThreshold(calls, v.permit, Settled(v).o, now);
    HistoryGrows(vs, [v]);
    assert History([v]) == [Settled(v)];
    StreakIsLostInRow(vs + [v], v.permit.generation);
  }

  /** A turn in step that decides settles a permit the breaker waits for. */
  lemma DecidedIsPending(c: Client, t: Turn)
    requires InStep(c) && Possible(c.pool, t.op) && Decides(c, t) != []
    ensures var v, a := Decides(c, t)[0], Asked(c, t);
      && Reached(a.system) && v.permit in a.system.pending
      && Take(c, t).system == Perform(a.system, SettleCall(v.permit, Settled(v).o, t.now))
  {
    var m := Meaning(c.pool, t.op).value;
    ReportIsMeaning(c.pool, t.op);
    TurnKeepsInStep(c, t);
    AskedKeepsHistory(c, t, m.permit);
    if Issues(t.op) { CallReached(c.system, AskCall(t.now)); }
  }

  /** A turn that does not decide at most takes the half-open slot. */
  lemma UndecidedTurn(c: Client, t: Turn)
    requires Balanced(c.pool) && Possible(c.pool, t.op) && Decides(c, t) == []
    ensures Take(c, t).system.core == if Issues(t.op) then Ask(c.system.core, t.now).0 else c.system.core
  {
    ReportIsMeaning(c.pool, t.op);
  }

  /** Asking changes neither the generation nor the failures, nor whether the circuit is closed. */
  lemma AskShows(c: Core, now: int)
    ensures var c' := Ask(c, now).0;
      c'.generation == c.generation && c'.failures == c.failures && (c'.state == Closed <==> c.state == Closed)
  {
  }

  /** After any turns, the failures the breaker counts are the permits of its generation lost in a row. */
  lemma FailuresAreLostInRow(turns: seq<Turn>)
    requires AfterTurns(turns).Some?
    ensures var core := AfterTurns(turns).value.system.core;
      core.failures == LostInRow(Verdicts(turns), core.generation)
  {
    InStepReached(turns);
    HistoryIsVerdicts(turns);
    var y := AfterTurns(turns).value.system;
    var calls :| After(calls) == Some(y);
    ReachedIsCoherent(calls);
    StreakIsLostInRow(Verdicts(turns), y.core.generation);
  }

  /** After any turns: the next one opens the breaker if and only if the reply it got makes the third permit of the
      generation lost in a row, or fails a probe; and closes it again if and only if it serves the probe. */
  lemma RepliesDecide(turns: seq<Turn>, t: Turn)
    requires AfterTurns(turns).Some? && Possible(AfterTurns(turns).value.pool, t.op)
    ensures var c := AfterTurns(turns).value;
      var core, core', d := c.system.core, Take(c, t).system.core, Decides(c, t);
      && core'.generation ==
           core.generation + (if d != [] && Trips(Verdicts(turns), d[0], core.generation) then 1 else 0)
      && (core'.generation != core.generation ==> core'.state == Open)
      && (core.state != Closed && core'.state == Closed <==> d != [] && d[0].permit.probe && d[0].fate == Served)
  {
    InStepReached(turns);
    HistoryIsVerdicts(turns);
    TurnDecides(AfterTurns(turns).value, Verdicts(turns), t);
  }

  lemma TurnDecides(c: Client, vs: seq<Verdict<Permit>>, t: Turn)
    requires InStep(c) && c.system.history == History(vs) && Possible(c.pool, t.op)
    ensures var core, core', d := c.system.core, Take(c, t).system.core, Decides(c, t);
      && core'.generation == core.generation + (if d != [] && Trips(vs, d[0], core.generation) then 1 else 0)
      && (core'.generation != core.generation ==> core'.state == Open)
      && (core.state != Closed && core'.state == Closed <==> d != [] && d[0].permit.probe && d[0].fate == Served)
  {
    AskShows(c.system.core, t.now);
    if Decides(c, t) == [] {
      UndecidedTurn(c, t);
    } else {
      var v, a := Decides(c, t)[0], Asked(c, t).system;
      DecidedIsPending(c, t);
      AskedKeepsHistory(c, t, 0);
      SettlementTrips(a, vs, v, t.now);
      TransitionShows(a.core, v.permit, Settled(v).o, t.now);
    }
  }

  /** As long as every reply is an answer the breaker stays as new. */
  lemma {:induction false} AnsweredStaysClosed(turns: seq<Turn>)
    requires AfterTurns(turns).Some?
    requires forall i :: 0 <= i < |turns| ==> AnswersOnly(turns[i].op)
    ensures var core := AfterTurns(turns).value.system.core;
      core.state == Closed && core.failures == core.generation == 0
  {
    if turns != [] {
      var n := |turns| - 1;
      var c, t := AfterTurns(turns[..n]).value, turns[n];
      AnsweredStaysClosed(turns[..n]);
      InStepReached(turns[..n]);
      if Decides(c, t) == [] {
        UndecidedTurn(c, t);
      } else {
        var v := Decides(c, t)[0];
        DecidedIsPending(c, t);
        AskShows(c.system.core, t.now);
        AnswerIsNotLost(c, t);
        ClosedStaysClosed(Asked(c, t).system, v.permit, Settled(v).o, t.now);
      }
    }
  }

  lemma AnswerIsNotLost(c: Client, t: Turn)
    requires Possible(c.pool, t.op) && AnswersOnly(t.op) && Decides(c, t) != []
    ensures Decides(c, t)[0].fate != Lost
  {
  }

  predicate AnswersOnly(op: Op) {
    op.Leave? || op.Create? || op.QueueOn? || op.ExecOn? ==> Answered(op.reply)
  }

  lemma ClosedStaysClosed(y: System, p: Permit, o: Outcome, now: int)
    requires Reached(y) && y.core.state == Closed && y.core.failures == y.core.generation == 0
    requires p in y.pending && o != Failure
    ensures Settle(y.core, p, o, now).0 == y.core
  {
    var calls :| After(calls) == Some(y);
    ReachedIsCoherent(calls);
    assert PermitTracked(y.core, y.pending, p);
  }
}
