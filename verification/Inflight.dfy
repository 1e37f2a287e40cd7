/** The single-flight registry (common/utils/inflight.hpp): reference-counted
    mutexes per key, handed out through movable guards. */
module Inflight {
  import opened Wrappers

  type Key = string

  datatype Entry = Entry(mu: nat, refs: nat)

  /** What a guard object holds; unattached once moved from, released or never filled. */
  datatype Hold = Hold(mu: Option<nat>, key: Key, attached: bool)

  const EMPTY := Hold(None, "", false)

  /** A new entry gets mutex `next`, which nobody has. */
  function Acquired(inflight: map<Key, Entry>, key: Key, next: nat): map<Key, Entry> {
    inflight[key := if key in inflight then Entry(inflight[key].mu, inflight[key].refs + 1) else Entry(next, 1)]
  }

  function Released(inflight: map<Key, Entry>, key: Key): map<Key, Entry> {
    if key !in inflight then inflight
    else if inflight[key].refs > 1 then inflight[key := Entry(inflight[key].mu, inflight[key].refs - 1)]
    else inflight - {key}
  }

  class InflightRegistry {
    var inflight: map<Key, Entry>
    /** How many mutexes were ever made: the identity of the next. */
    var minted: nat

    constructor ()
      ensures inflight == map[] && minted == 0
    {
      inflight, minted := map[], 0;
    }

    method Acquire(key: Key) returns (g: Guard)
      modifies this
      ensures inflight == Acquired(old(inflight), key, old(minted))
      ensures fresh(g) && g.registry == this && key in inflight && g.View() == Hold(Some(inflight[key].mu), key, true)
      ensures minted == if key in old(inflight) then old(minted) else old(minted) + 1
    {
      var mu;
      if key !in inflight {
        mu, minted := minted, minted + 1;
        inflight := inflight[key := Entry(mu, 1)];
      } else {
        mu := inflight[key].mu;
        inflight := inflight[key := inflight[key].(refs := inflight[key].refs + 1)];
      }
      g := new Guard(Some(mu), key, this);
    }

    method Release(key: Key)
      modifies this`inflight
      ensures inflight == Released(old(inflight), key)
    {
      if key !in inflight { return; }
      if inflight[key].refs > 1 {
        inflight := inflight[key := inflight[key].(refs := inflight[key].refs - 1)];
        return;
      }
      inflight := inflight - {key};
    }
  }

  class Guard {
    var mu: Option<nat>
    var key: Key
    var registry: InflightRegistry?

    function View(): Hold
      reads this
    {
      Hold(mu, key, registry != null)
    }

    constructor (mu: Option<nat>, key: Key, registry: InflightRegistry?)
      ensures View() == Hold(mu, key, registry != null) && this.registry == registry
    {
      this.mu, this.key, this.registry := mu, key, registry;
    }

    constructor MoveFrom(o: Guard)
      modifies o
      ensures View() == old(o.View()) && registry == old(o.registry) && o.View() == EMPTY
    {
      mu, key, registry := o.mu, o.key, o.registry;
      new;
      o.mu, o.key, o.registry := None, "", null;
    }

    /** Releases what this guard held, then takes over; on itself it does nothing. */
    method MoveAssign(o: Guard)
      modifies this, o, registry
      ensures this == o ==> View() == old(View()) && registry == old(registry)
      ensures this != o ==> View() == old(o.View()) && registry == old(o.registry) && o.View() == EMPTY
      ensures old(registry) != null ==>
        old(registry).inflight ==
          (if this == o then old(registry.inflight) else Released(old(registry.inflight), old(key)))
    {
      if this != o {
        if registry != null { registry.Release(key); }
        mu, key, registry := o.mu, o.key, o.registry;
        o.mu, o.key, o.registry := None, "", null;
      }
    }

    method Destroy()
      modifies this, registry
      ensures View() == EMPTY
      ensures old(registry) != null ==> old(registry).inflight == Released(old(registry.inflight), old(key))
    {
      if registry != null { registry.Release(key); }
      mu, key, registry := None, "", null;
    }
  }

  // ----- All guards of one registry -----

  datatype Pool = Pool(inflight: map<Key, Entry>, minted: nat, guards: seq<Hold>)

  datatype Step =
    | Declare                             // a guard holding nothing
    | Acquire(slot: nat, key: Key)        // acquire, into a guard being constructed
    | MoveConstruct(dst: nat, src: nat)
    | MoveAssign(dst: nat, src: nat)
    | Destroy(slot: nat)

  predicate Free(p: Pool, slot: nat) {
    slot < |p.guards| && !p.guards[slot].attached
  }

  predicate Enabled(p: Pool, s: Step) {
    match s
    case Declare => true
    case Acquire(slot, _) => Free(p, slot)
    case MoveConstruct(dst, src) => Free(p, dst) && src < |p.guards| && dst != src
    case MoveAssign(dst, src) => dst < |p.guards| && src < |p.guards|
    case Destroy(slot) => slot < |p.guards|
  }

  /** Take one reference for a guard that holds none. */
  function Take(p: Pool, slot: nat, key: Key): Pool
    requires Free(p, slot)
  {
    var inflight := Acquired(p.inflight, key, p.minted);
    Pool(inflight, if key in p.inflight then p.minted else p.minted + 1,
         p.guards[slot := Hold(Some(inflight[key].mu), key, true)])
  }

  /** Give back what a guard holds. */
  function Drop(p: Pool, slot: nat): Pool
    requires slot < |p.guards|
  {
    p.(inflight := if p.guards[slot].attached then Released(p.inflight, p.guards[slot].key) else p.inflight,
       guards := p.guards[slot := EMPTY])
  }

  function Transfer(p: Pool, dst: nat, src: nat): Pool
    requires dst < |p.guards| && src < |p.guards|
  {
    p.(guards := p.guards[dst := p.guards[src]][src := EMPTY])
  }

  function Next(p: Pool, s: Step): Pool
    requires Enabled(p, s)
  {
    match s
    case Declare => p.(guards := p.guards + [EMPTY])
    case Acquire(slot, key) => Take(p, slot, key)
    case MoveConstruct(dst, src) => Transfer(p, dst, src)
    case MoveAssign(dst, src) => if dst == src then p else Transfer(Drop(p, dst), dst, src)
    case Destroy(slot) => Drop(p, slot)
  }

  function Bit(h: Hold, key: Key): nat {
    if h.attached && h.key == key then 1 else 0
  }

  /** The number of live guards of a key. */
  function Live(guards: seq<Hold>, key: Key): nat {
    if guards == [] then 0 else Live(guards[..|guards| - 1], key) + Bit(guards[|guards| - 1], key)
  }

  predicate Counted(p: Pool, key: Key) {
    (if key in p.inflight then p.inflight[key].refs else 0) == Live(p.guards, key) &&
    (key in p.inflight ==> Live(p.guards, key) > 0)
  }

  predicate HoldsShared(p: Pool, h: Hold) {
    h.attached ==> h.key in p.inflight && h.mu == Some(p.inflight[h.key].mu)
  }

  predicate MutexesDistinct(p: Pool) {
    && (forall k :: k in p.inflight ==> p.inflight[k].mu < p.minted)
    && (forall j, k :: j in p.inflight && k in p.inflight && j != k ==> p.inflight[j].mu != p.inflight[k].mu)
  }

  ghost predicate Inv(p: Pool) {
    && (forall k :: Counted(p, k))
    && (forall i :: 0 <= i < |p.guards| ==> HoldsShared(p, p.guards[i]))
    && MutexesDistinct(p)
  }

  lemma {:induction false} LiveUpdate(guards: seq<Hold>, i: nat, h: Hold, key: Key)
    requires i < |guards|
    ensures Live(guards[i := h], key) + Bit(guards[i], key) == Live(guards, key) + Bit(h, key)
  {
    var n := |guards| - 1;
    if i == n {
      assert guards[i := h][..n] == guards[..n];
    } else {
      assert guards[i := h][..n] == guards[..n][i := h];
      LiveUpdate(guards[..n], i, h, key);
    }
  }

  lemma LiveCounts(guards: seq<Hold>, i: nat, key: Key)
    requires i < |guards| && Bit(guards[i], key) == 1
    ensures Live(guards, key) > 0
  {
    LiveUpdate(guards, i, EMPTY, key);
  }

  lemma TakeKeeps(p: Pool, slot: nat, key: Key)
    requires Inv(p) && Free(p, slot)
    ensures Inv(Take(p, slot, key))
  {
    var p' := Take(p, slot, key);
    forall k
      ensures Counted(p', k)
    {
      assert Counted(p, k);
      LiveUpdate(p.guards, slot, p'.guards[slot], k);
    }
    forall i | 0 <= i < |p'.guards|
      ensures HoldsShared(p', p'.guards[i])
    {
      assert HoldsShared(p, p.guards[i]);
    }
  }

  lemma DropKeeps(p: Pool, slot: nat)
    requires Inv(p) && slot < |p.guards|
    ensures Inv(Drop(p, slot))
  {
    var p' := Drop(p, slot);
    forall k
      ensures Counted(p', k)
    {
      assert Counted(p, k) && HoldsShared(p, p.guards[slot]);
      LiveUpdate(p.guards, slot, EMPTY, k);
    }
    forall i | 0 <= i < |p'.guards|
      ensures HoldsShared(p', p'.guards[i])
    {
      assert HoldsShared(p, p.guards[i]);
      if p'.guards[i].attached {
        assert Counted(p', p'.guards[i].key);
        LiveCounts(p'.guards, i, p'.guards[i].key);
      }
    }
  }

  lemma TransferKeeps(p: Pool, dst: nat, src: nat)
    requires Inv(p) && Free(p, dst) && src < |p.guards| && dst != src
    ensures Inv(Transfer(p, dst, src))
  {
    var p' := Transfer(p, dst, src);
    forall k
      ensures Counted(p', k)
    {
      assert Counted(p, k);
      LiveUpdate(p.guards, dst, p.guards[src], k);
      LiveUpdate(p.guards[dst := p.guards[src]], src, EMPTY, k);
    }
    forall i | 0 <= i < |p'.guards|
      ensures HoldsShared(p', p'.guards[i])
    {
      assert HoldsShared(p, p.guards[i]) && HoldsShared(p, p.guards[src]);
    }
  }

  lemma StepKeepsInv(p: Pool, s: Step)
    requires Inv(p) && Enabled(p, s)
    ensures Inv(Next(p, s))
  {
    match s {
      case Declare =>
        var p' := Next(p, s);
        forall k
          ensures Counted(p', k)
        {
          assert Counted(p, k);
          assert p'.guards[..|p.guards|] == p.guards;
        }
        forall i | 0 <= i < |p'.guards|
          ensures HoldsShared(p', p'.guards[i])
        {
          assert i < |p.guards| ==> HoldsShared(p, p.guards[i]);
        }
      case Acquire(slot, key) => TakeKeeps(p, slot, key);
      case MoveConstruct(dst, src) => TransferKeeps(p, dst, src);
      case MoveAssign(dst, src) =>
        if dst != src {
          DropKeeps(p, dst);
          TransferKeeps(Drop(p, dst), dst, src);
        }
      case Destroy(slot) => DropKeeps(p, slot);
    }
  }

  function Run(steps: seq<Step>): Option<Pool> {
    if steps == [] then Some(Pool(map[], 0, []))
    else
      var before := Run(steps[..|steps| - 1]);
      if before.Some? && Enabled(before.value, steps[|steps| - 1])
      then Some(Next(before.value, steps[|steps| - 1])) else None
  }

  lemma {:induction false} InvReached(steps: seq<Step>)
    requires Run(steps).Some?
    ensures Inv(Run(steps).value)
  {
    if steps != [] {
      InvReached(steps[..|steps| - 1]);
      StepKeepsInv(Run(steps[..|steps| - 1]).value, steps[|steps| - 1]);
    }
  }

  /** After any acquiring, moving and destroying of guards, a key has an entry exactly while it has a live guard, and
      its count is the number of them. */
  lemma EntriesCountGuards(steps: seq<Step>, key: Key)
    requires Run(steps).Some?
    ensures var p := Run(steps).value;
      && (key in p.inflight <==> Live(p.guards, key) > 0)
      && (key in p.inflight ==> p.inflight[key].refs == Live(p.guards, key))
  {
    InvReached(steps);
    assert Counted(Run(steps).value, key);
  }

  /** Live guards have one mutex exactly if they have one key. */
  lemma MutexPerKey(p: Pool, i: nat, j: nat)
    requires Inv(p) && i < |p.guards| && j < |p.guards| && p.guards[i].attached && p.guards[j].attached
    ensures p.guards[i].mu.Some? && (p.guards[i].mu == p.guards[j].mu <==> p.guards[i].key == p.guards[j].key)
  {
    assert HoldsShared(p, p.guards[i]) && HoldsShared(p, p.guards[j]);
  }

  lemma GuardsShareOneMutex(steps: seq<Step>, i: nat, j: nat)
    requires Run(steps).Some? && i < |Run(steps).value.guards| && j < |Run(steps).value.guards|
    requires Run(steps).value.guards[i].attached && Run(steps).value.guards[j].attached
    ensures var p := Run(steps).value; p.guards[i].mu == p.guards[j].mu <==> p.guards[i].key == p.guards[j].key
  {
    InvReached(steps);
    MutexPerKey(Run(steps).value, i, j);
  }
}
