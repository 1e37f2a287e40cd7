/** The Snowflake id generator (common/infra/snowflake.hpp) in 64-bit arithmetic.
    The clock is an input: a call gets the readings it will take, in any order of
    values.  Calls hold the generator's lock, so each is one step. */
module Snowflake {
  import opened Wrappers
  import opened Bits
  import opened Division

  const WORKERS := 1024
  const SEQUENCES := 4096
  const DELTA_LIMIT := 0x400_0000_0000   // 2^42
  const LAST_MILLISECOND: u64 := WRAP - 1

  datatype Generator = Generator(worker: u64, epoch: u64, waits: bool)
  datatype State = State(last: u64, sequence: u64)

  /** `Blocked`: the readings ran out while the call was still waiting. */
  datatype Outcome = Id(id: u64) | ClockBackwards | Blocked

  /** The parts shifted to their places and joined; ComposeJoinsBits shows that this is `<<` and `|`. */
  function Compose(g: Generator, s: State): u64 {
    (Minus(s.last, g.epoch) * 0x40_0000 + g.worker * 0x1000 + s.sequence) % WRAP
  }

  function Minus(a: u64, b: u64): u64 {
    (a - b) % WRAP
  }

  function Successor(a: u64): u64 {
    (a + 1) % WRAP
  }

  /** The first reading that reached the target, and the readings after it. */
  function Waited(readings: seq<u64>, target: u64): Option<(u64, seq<u64>)> {
    if readings == [] then None
    else if readings[0] >= target then Some((readings[0], readings[1..]))
    else Waited(readings[1..], target)
  }

  /** Next from the point where `now` is not before the last id's time. */
  function Stamped(s: State, now: u64, readings: seq<u64>): Option<State> {
    if now != s.last then Some(State(now, 0))
    else if (s.sequence + 1) % SEQUENCES != 0 then Some(State(now, (s.sequence + 1) % SEQUENCES))
    else
      var w := Waited(readings, Successor(s.last));
      if w.None? then None else Some(State(w.value.0, 0))
  }

  /** The state behind the next id, if one comes. */
  function Next(g: Generator, s: State, readings: seq<u64>): (Option<State>, Outcome) {
    if readings == [] then (None, Blocked)
    else
      var now := readings[0];
      if now < s.last && (!g.waits || s.last - now > 1000) then (Some(s), ClockBackwards)
      else
        var w := if now < s.last then Waited(readings[1..], s.last) else Some((now, readings[1..]));
        if w.None? then (None, Blocked)
        else
          var s' := Stamped(s, w.value.0, w.value.1);
          if s'.None? then (None, Blocked) else (s', Id(Compose(g, s'.value)))
  }

  class SnowflakeId {
    const worker: u64
    const epoch: u64
    const waits: bool
    var last: u64
    var sequence: u64

    function Settings(): Generator {
      Generator(worker, epoch, waits)
    }

    function View(): State
      reads this
    {
      State(last, sequence)
    }

    constructor (worker: u64, epoch: u64, waits: bool)
      requires worker < WORKERS
      ensures Settings() == Generator(worker, epoch, waits) && View() == State(0, 0)
    {
      this.worker, this.epoch, this.waits := worker, epoch, waits;
      last, sequence := 0, 0;
    }

    /** The constructor as callers see it: it refuses a worker number that does not fit. */
    static method Create(worker: u64, epoch: u64, waits: bool) returns (r: Option<SnowflakeId>)
      ensures r.Some? <==> worker < WORKERS
      ensures r.Some? ==>
        fresh(r.value) && r.value.Settings() == Generator(worker, epoch, waits) && r.value.View() == State(0, 0)
    {
      if worker >= WORKERS { return None; }
      var g := new SnowflakeId(worker, epoch, waits);
      return Some(g);
    }

    /** Reads the clock until it reaches the target; `i` is the next reading. */
    static method WaitUntil(readings: seq<u64>, i: nat, target: u64) returns (now: u64, next: nat, reached: bool)
      requires i <= |readings|
      ensures next <= |readings|
      ensures Waited(readings[i..], target) == if reached then Some((now, readings[next..])) else None
    {
      next, now, reached := i, 0, false;
      while next < |readings|
        invariant i <= next <= |readings|
        invariant Waited(readings[i..], target) == Waited(readings[next..], target)
      {
        now, next := readings[next], next + 1;
        if now >= target { return now, next, true; }
      }
    }

    method NextId(readings: seq<u64>) returns (r: Outcome)
      modifies this
      ensures r == Next(Settings(), old(View()), readings).1
      ensures !r.Blocked? ==> Some(View()) == Next(Settings(), old(View()), readings).0
    {
      if readings == [] { return Blocked; }
      var now, next, reached := readings[0], 1, true;
      if now < last {
        var diff := last - now;
        if !waits || diff > 1000 { return ClockBackwards; }
        now, next, reached := WaitUntil(readings, next, last);
        if !reached { return Blocked; }
      }
      if now == last {
        sequence := (sequence + 1) % SEQUENCES;
        if sequence == 0 {
          now, next, reached := WaitUntil(readings, next, Successor(last));
          if !reached { return Blocked; }
        }
      } else {
        sequence := 0;
      }
      last := now;
      return Id(Compose(Settings(), View()));
    }
  }

  // ----- Taking an id apart -----

  predicate InRange(g: Generator, ts: u64) {
    g.epoch <= ts < LAST_MILLISECOND && ts - g.epoch < DELTA_LIMIT
  }

  function WorkerOf(id: u64): int {
    id / 0x1000 % WORKERS
  }

  /** In range nothing wraps. */
  lemma ComposeIsSum(g: Generator, s: State)
    requires g.worker < WORKERS && s.sequence < SEQUENCES && g.epoch <= s.last && s.last - g.epoch < DELTA_LIMIT
    ensures Compose(g, s) == (s.last - g.epoch) * 0x40_0000 + (g.worker * 0x1000 + s.sequence)
    ensures g.worker * 0x1000 + s.sequence < 0x40_0000
  {
    var d := s.last - g.epoch;
    assert Minus(s.last, g.epoch) == d;
    assert d * 0x40_0000 + g.worker * 0x1000 + s.sequence < WRAP;
  }

  /** An id can be taken apart again: time, worker and sequence do not overlap. */
  lemma PartsShow(g: Generator, s: State)
    requires g.worker < WORKERS && s.sequence < SEQUENCES && g.epoch <= s.last && s.last - g.epoch < DELTA_LIMIT
    ensures var id := Compose(g, s);
      WorkerOf(id) == g.worker && id % SEQUENCES == s.sequence && id / 0x40_0000 + g.epoch == s.last
  {
    var d, w, q := s.last - g.epoch, g.worker, s.sequence;
    var id := d * 0x40_0000 + (w * 0x1000 + q);
    ComposeIsSum(g, s);
    DivUnique(id, 0x40_0000, d, w * 0x1000 + q);
    DivUnique(id, SEQUENCES, d * WORKERS + w, q);
    DivMod(id, SEQUENCES);
    DivUnique(d * WORKERS + w, WORKERS, d, w);
    DivMod(d * WORKERS + w, WORKERS);
  }

  /** Times 2^42 milliseconds apart give the same ids. */
  lemma FarTimesCollide(g: Generator, ts: u64, sequence: u64)
    requires ts + DELTA_LIMIT < WRAP
    ensures Compose(g, State(ts, sequence)) == Compose(g, State(ts + DELTA_LIMIT, sequence))
  {
    var d, d' := Minus(ts, g.epoch), Minus(ts + DELTA_LIMIT, g.epoch);
    assert d' == d + DELTA_LIMIT || d' == d + DELTA_LIMIT - WRAP;
    assert DELTA_LIMIT * 0x40_0000 == WRAP;
  }

  // ----- The arithmetic is the source's bit expressions -----

  lemma ShiftedTime(delta: u64)
    ensures ShiftLeft(delta, 22) == delta % DELTA_LIMIT * 0x40_0000 == delta * 0x40_0000 % WRAP
  {
    Widths();
    var q, r := delta / DELTA_LIMIT, delta % DELTA_LIMIT;
    assert delta == q * DELTA_LIMIT + r;
    assert delta * 0x40_0000 == q * WRAP + r * 0x40_0000;
    DivUnique(delta * 0x40_0000, WRAP, q, r * 0x40_0000);
    DivMod(delta * 0x40_0000, WRAP);
  }

  lemma ShiftedWorker(worker: u64)
    requires worker < WORKERS
    ensures ShiftLeft(worker, 12) == worker * 0x1000
  {
    Widths();
  }

  /** Parts below their places are joined by adding them. */
  lemma PartsJoin(d: nat, worker: nat, sequence: nat)
    requires worker < WORKERS && sequence < SEQUENCES
    ensures Or(Or(d * 0x40_0000, worker * 0x1000), sequence) == d * 0x40_0000 + worker * 0x1000 + sequence
  {
    Widths();
    OrIsSum(d, 22, worker * 0x1000);
    assert d * 0x40_0000 + worker * 0x1000 == (d * WORKERS + worker) * 0x1000;
    OrIsSum(d * WORKERS + worker, 12, sequence);
  }

  /** The id is the time shifted left by 22, the worker by 12 and the sequence number, joined by `|` in 64 bits. */
  lemma {:induction false} ComposeJoinsBits(g: Generator, s: State)
    requires g.worker < WORKERS && s.sequence < SEQUENCES
    ensures Compose(g, s) == Or(Or(ShiftLeft(Minus(s.last, g.epoch), 22), ShiftLeft(g.worker, 12)), s.sequence)
  {
    var delta := Minus(s.last, g.epoch);
    ComposeFits(g, s);
    PartsJoin(delta % DELTA_LIMIT, g.worker, s.sequence);
    ShiftedTime(delta);
    ShiftedWorker(g.worker);
  }

  lemma ComposeFits(g: Generator, s: State)
    requires g.worker < WORKERS && s.sequence < SEQUENCES
    ensures Compose(g, s) == Minus(s.last, g.epoch) % DELTA_LIMIT * 0x40_0000 + g.worker * 0x1000 + s.sequence
  {
    JoinedFits(Minus(s.last, g.epoch), g.worker * 0x1000 + s.sequence);
  }

  /** Adding what is below the time cannot carry out of 64 bits. */
  lemma JoinedFits(delta: u64, low: nat)
    requires low < 0x40_0000
    ensures (delta * 0x40_0000 + low) % WRAP == delta % DELTA_LIMIT * 0x40_0000 + low
  {
    var q, r := delta / DELTA_LIMIT, delta % DELTA_LIMIT;
    assert delta == q * DELTA_LIMIT + r;
    DivUnique(delta * 0x40_0000 + low, WRAP, q, r * 0x40_0000 + low);
    DivMod(delta * 0x40_0000 + low, WRAP);
  }

  /** Counting modulo 4096 is masking with twelve ones. */
  lemma SequenceMasksBits(q: nat)
    ensures (q + 1) % SEQUENCES == And(q + 1, Pow2(12) - 1)
  {
    Widths();
    AndIsRemainder(q + 1, 12);
  }

  // ----- Runs -----

  /** The ids so far; no state once a call blocks for good. */
  datatype Trace = Trace(state: Option<State>, ids: seq<u64>)

  function Run(g: Generator, calls: seq<seq<u64>>): Trace {
    if calls == [] then Trace(Some(State(0, 0)), [])
    else
      var t := Run(g, calls[..|calls| - 1]);
      if t.state.None? then t
      else
        var (s, r) := Next(g, t.state.value, calls[|calls| - 1]);
        Trace(s, if r.Id? then t.ids + [r.id] else t.ids)
  }

  predicate Ranged(g: Generator, readings: seq<u64>) {
    forall i :: 0 <= i < |readings| ==> InRange(g, readings[i])
  }

  /** A later time, or the same one with a later sequence number. */
  predicate Later(s: State, s': State) {
    s.last < s'.last || (s.last == s'.last && s.sequence < s'.sequence)
  }

  lemma {:induction false} WaitedInRange(g: Generator, readings: seq<u64>, target: u64)
    requires Ranged(g, readings) && Waited(readings, target).Some?
    ensures target <= Waited(readings, target).value.0 && InRange(g, Waited(readings, target).value.0)
    ensures Ranged(g, Waited(readings, target).value.1)
  {
    assert InRange(g, readings[0]);
    if readings[0] < target { WaitedInRange(g, readings[1..], target); }
  }

  lemma StampedIsLater(g: Generator, s: State, now: u64, readings: seq<u64>)
    requires s.last <= now && s.last < LAST_MILLISECOND && s.sequence < SEQUENCES && InRange(g, now)
    requires Ranged(g, readings)
    requires Stamped(s, now, readings).Some?
    ensures var s' := Stamped(s, now, readings).value; Later(s, s') && s'.sequence < SEQUENCES && InRange(g, s'.last)
  {
    if now == s.last && (s.sequence + 1) % SEQUENCES == 0 { WaitedInRange(g, readings, Successor(s.last)); }
  }

  lemma NextIsLater(g: Generator, s: State, readings: seq<u64>)
    requires s.last < LAST_MILLISECOND && s.sequence < SEQUENCES && Ranged(g, readings) && Next(g, s, readings).1.Id?
    ensures var (s', r) := Next(g, s, readings);
      s'.Some? && r.id == Compose(g, s'.value) && Later(s, s'.value) &&
      s'.value.sequence < SEQUENCES && InRange(g, s'.value.last)
  {
    assert InRange(g, readings[0]);
    if readings[0] < s.last { WaitedInRange(g, readings[1..], s.last); }
    var w := if readings[0] < s.last then Waited(readings[1..], s.last) else Some((readings[0], readings[1..]));
    StampedIsLater(g, s, w.value.0, w.value.1);
  }

  lemma LaterIsGreater(g: Generator, s: State, s': State)
    requires g.worker < WORKERS && s.sequence < SEQUENCES && s'.sequence < SEQUENCES
    requires InRange(g, s.last) && InRange(g, s'.last) && Later(s, s')
    ensures Compose(g, s) < Compose(g, s')
  {
    ComposeIsSum(g, s);
    ComposeIsSum(g, s');
  }

  predicate Increasing(ids: seq<u64>) {
    forall i, j :: 0 <= i < j < |ids| ==> ids[i] < ids[j]
  }

  predicate AllFrom(ids: seq<u64>, worker: u64) {
    forall i :: 0 <= i < |ids| ==> WorkerOf(ids[i]) == worker
  }

  predicate StateRight(g: Generator, t: Trace) {
    t.state.Some? ==>
      var s := t.state.value;
      && s.sequence < SEQUENCES && s.last < LAST_MILLISECOND
      && (t.ids != [] ==> InRange(g, s.last) && t.ids[|t.ids| - 1] == Compose(g, s))
  }

  predicate Inv(g: Generator, t: Trace) {
    StateRight(g, t) && Increasing(t.ids) && AllFrom(t.ids, g.worker)
  }

  lemma Grows(g: Generator, t: Trace, s': State)
    requires g.worker < WORKERS && Inv(g, t) && t.state.Some?
    requires Later(t.state.value, s') && s'.sequence < SEQUENCES && InRange(g, s'.last)
    ensures Inv(g, Trace(Some(s'), t.ids + [Compose(g, s')]))
  {
    PartsShow(g, s');
    if t.ids != [] { LaterIsGreater(g, t.state.value, s'); }
  }

  lemma {:induction false} InvReached(g: Generator, calls: seq<seq<u64>>)
    requires g.worker < WORKERS && forall i :: 0 <= i < |calls| ==> Ranged(g, calls[i])
    ensures Inv(g, Run(g, calls))
  {
    if calls != [] {
      var t := Run(g, calls[..|calls| - 1]);
      InvReached(g, calls[..|calls| - 1]);
      if t.state.Some? && Next(g, t.state.value, calls[|calls| - 1]).1.Id? {
        NextIsLater(g, t.state.value, calls[|calls| - 1]);
        Grows(g, t, Next(g, t.state.value, calls[|calls| - 1]).0.value);
      }
    }
  }

  /** Whatever the clock reads, in whatever order, the ids of one generator strictly increase. */
  lemma IdsIncrease(g: Generator, calls: seq<seq<u64>>)
    requires g.worker < WORKERS && forall i :: 0 <= i < |calls| ==> Ranged(g, calls[i])
    ensures Increasing(Run(g, calls).ids)
  {
    InvReached(g, calls);
  }

  /** Generators with different workers never give the same id, even if their epochs differ. */
  lemma WorkersNeverCollide(g: Generator, calls: seq<seq<u64>>, h: Generator, others: seq<seq<u64>>, i: nat, j: nat)
    requires g.worker < WORKERS && h.worker < WORKERS && g.worker != h.worker
    requires forall n :: 0 <= n < |calls| ==> Ranged(g, calls[n])
    requires forall n :: 0 <= n < |others| ==> Ranged(h, others[n])
    requires i < |Run(g, calls).ids| && j < |Run(h, others).ids|
    ensures Run(g, calls).ids[i] != Run(h, others).ids[j]
  {
    InvReached(g, calls);
    InvReached(h, others);
  }

  // ----- What an answer depends on -----

  /** A wait ends if some reading reaches the target; readings after the one that does are left over. */
  lemma {:induction false} WaitedFinds(readings: seq<u64>, target: u64, i: nat)
    requires i < |readings| && readings[i] >= target
    ensures Waited(readings, target).Some?
    ensures var (now, rest) := Waited(readings, target).value; now == readings[i] || readings[i] in rest
  {
    if readings[0] < target { WaitedFinds(readings[1..], target, i - 1); }
  }

  lemma StampedFinds(s: State, now: u64, readings: seq<u64>)
    requires s.last < LAST_MILLISECOND && (now > s.last || exists r :: r in readings && r > s.last)
    ensures Stamped(s, now, readings).Some?
  {
    if now <= s.last {
      var r :| r in readings && r > s.last;
      var i :| 0 <= i < |readings| && readings[i] == r;
      WaitedFinds(readings, Successor(s.last), i);
    }
  }

  lemma NextFinds(g: Generator, s: State, readings: seq<u64>, i: nat)
    requires s.last < LAST_MILLISECOND && i < |readings| && readings[i] > s.last
    requires !(readings[0] < s.last && (!g.waits || s.last - readings[0] > 1000))
    ensures Next(g, s, readings).1.Id?
  {
    if readings[0] < s.last { WaitedFinds(readings[1..], s.last, i - 1); }
    var w := if readings[0] < s.last then Waited(readings[1..], s.last) else Some((readings[0], readings[1..]));
    if i > 0 { assert readings[1..][i - 1] == readings[i]; }
    assert w.value.0 > s.last || readings[i] in w.value.1;
    StampedFinds(s, w.value.0, w.value.1);
  }

  /** After any ids: with the time read off the last one, a call is refused exactly if the clock is behind it by more
      than a second, or at all where the generator does not wait, and then nothing changes; and any other call returns
      an id once the clock is past that time. */
  lemma RefusesExactlyOnRollback(g: Generator, calls: seq<seq<u64>>, readings: seq<u64>)
    requires g.worker < WORKERS && (forall i :: 0 <= i < |calls| ==> Ranged(g, calls[i])) && readings != []
    requires Run(g, calls).state.Some? && Run(g, calls).ids != []
    ensures var t := Run(g, calls); var time := t.ids[|t.ids| - 1] / 0x40_0000 + g.epoch;
      var (s', r) := Next(g, t.state.value, readings);
      var behind := readings[0] < time && (!g.waits || time - readings[0] > 1000);
      && (r == ClockBackwards <==> behind) && (behind ==> s' == t.state)
      && (!behind && (exists i :: 0 <= i < |readings| && readings[i] > time) ==> r.Id?)
  {
    InvReached(g, calls);
    var t := Run(g, calls);
    var s := t.state.value;
    PartsShow(g, s);
    if !(readings[0] < s.last && (!g.waits || s.last - readings[0] > 1000)) &&
       exists i :: 0 <= i < |readings| && readings[i] > s.last
    {
      var i :| 0 <= i < |readings| && readings[i] > s.last;
      NextFinds(g, s, readings, i);
    }
  }

  // ----- The last millisecond -----

  /** A clock that stays in the last representable millisecond. */
  lemma ClockStands(g: Generator, k: nat) returns (calls: seq<seq<u64>>)
    requires k < SEQUENCES
    ensures var t := Run(g, calls);
      && t.state == Some(State(LAST_MILLISECOND, k))
      && t.ids != [] && t.ids[0] == Compose(g, State(LAST_MILLISECOND, 0))
    ensures forall i :: 0 <= i < |calls| ==> forall j :: 0 <= j < |calls[i]| ==> calls[i][j] == LAST_MILLISECOND
    decreases k
  {
    var call := [LAST_MILLISECOND];
    if k == 0 {
      calls := [call];
      assert calls[..0] == [];
    } else {
      var before := ClockStands(g, k - 1);
      calls := before + [call];
      assert calls[..|before|] == before;
    }
  }

  /** There is no millisecond to wait for after the last one, so once its numbers are used up ids repeat. */
  lemma LastMillisecondRepeats(g: Generator) returns (calls: seq<seq<u64>>)
    ensures forall i :: 0 <= i < |calls| ==> forall j :: 0 <= j < |calls[i]| ==> calls[i][j] == LAST_MILLISECOND
    ensures var ids := Run(g, calls).ids; |ids| > 1 && ids[0] == ids[|ids| - 1]
  {
    var before := ClockStands(g, SEQUENCES - 1);
    var call := [LAST_MILLISECOND, LAST_MILLISECOND];
    calls := before + [call];
    assert calls[..|before|] == before;
    assert Waited(call[1..], 0) == Some((LAST_MILLISECOND, call[2..]));
  }
}
