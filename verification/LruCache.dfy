/** The in-process cache (common/utils/local_cache.hpp): expiry, a hard capacity
    and least-recently-used eviction, against the log of the calls made on it.
    Each call runs under the cache's lock, so it is one step. */
module LruCache {
  import opened Wrappers

  type Key = string
  datatype Entry<V> = Entry(value: V, expires: int)
  datatype Stats = Stats(hits: nat, misses: nat, evictions: nat, expired: nat)

  /** What a call did to its key. */
  datatype Event<V> =
    | Hit(key: Key)                                   // get found it
    | Missed(key: Key)                                // get did not
    | Seen(key: Key)                                  // set_if_absent found it and stored nothing
    | Wrote(key: Key, entry: Entry<V>, isNew: bool)     // stored; `isNew`: as a new entry
    | Removed(key: Key, stored: bool)                 // invalidated; `stored`: it had an entry

  // ----- Reading the log -----

  predicate Touches<V>(e: Event<V>, k: Key) {
    e.key == k && (e.Hit? || e.Seen? || e.Wrote?)
  }

  /** When `k` was last touched; -1 for never. */
  ghost function LastTouch<V>(log: seq<Event<V>>, k: Key): int {
    if log == [] then -1
    else if Touches(log[|log| - 1], k) then |log| - 1
    else LastTouch(log[..|log| - 1], k)
  }

  /** The last value written under `k` and not invalidated. */
  ghost function LastWrite<V>(log: seq<Event<V>>, k: Key): Option<Entry<V>> {
    if log == [] then None
    else
      var e := log[|log| - 1];
      if e.Wrote? && e.key == k then Some(e.entry)
      else if e.Removed? && e.key == k then None
      else LastWrite(log[..|log| - 1], k)
  }

  /** The keys touched since `k` was. */
  ghost function Since<V>(log: seq<Event<V>>, k: Key): set<Key> {
    if log == [] then {}
    else
      var e := log[|log| - 1];
      if Touches(e, k) then {}
      else Since(log[..|log| - 1], k) + (if Touches(e, e.key) then {e.key} else {})
  }

  /** How many calls of each kind there were. */
  datatype Tally = Tally(hits: nat, misses: nat, insertions: nat, invalidations: nat)

  ghost function Tallied<V>(log: seq<Event<V>>): Tally {
    if log == [] then Tally(0, 0, 0, 0)
    else
      var t := Tallied(log[..|log| - 1]);
      match log[|log| - 1]
      case Hit(_) => t.(hits := t.hits + 1)
      case Missed(_) => t.(misses := t.misses + 1)
      case Seen(_) => t
      case Wrote(_, _, isNew) => if isNew then t.(insertions := t.insertions + 1) else t
      case Removed(_, stored) => if stored then t.(invalidations := t.invalidations + 1) else t
  }

  predicate WritesKey<V>(e: Event<V>, k: Key) {
    e.key == k && (e.Wrote? || e.Removed?)
  }

  lemma Appended<V>(log: seq<Event<V>>, e: Event<V>, k: Key)
    ensures LastTouch(log + [e], k) == if Touches(e, k) then |log| else LastTouch(log, k)
    ensures WritesKey(e, k) ==> LastWrite(log + [e], k) == if e.Wrote? then Some(e.entry) else None
    ensures !WritesKey(e, k) ==> LastWrite(log + [e], k) == LastWrite(log, k)
    ensures !Touches(e, k) ==> Since(log, k) <= Since(log + [e], k)
  {
    assert (log + [e])[..|log|] == log;
  }

  lemma TallyAppended<V>(log: seq<Event<V>>, e: Event<V>)
    ensures var t, t' := Tallied(log), Tallied(log + [e]);
      && t'.hits == t.hits + (if e.Hit? then 1 else 0)
      && t'.misses == t.misses + (if e.Missed? then 1 else 0)
      && t'.insertions == t.insertions + (if e.Wrote? && e.isNew then 1 else 0)
      && t'.invalidations == t.invalidations + (if e.Removed? && e.stored then 1 else 0)
  {
    assert (log + [e])[..|log|] == log;
  }

  lemma {:induction false} TouchBounds<V>(log: seq<Event<V>>, k: Key)
    ensures -1 <= LastTouch(log, k) < |log|
  {
    if log != [] { TouchBounds(log[..|log| - 1], k); }
  }

  /** The keys touched since `k` are those whose last touch is later. */
  lemma {:induction false} SinceIsLater<V>(log: seq<Event<V>>, a: Key, k: Key)
    ensures a in Since(log, k) <==> LastTouch(log, a) > LastTouch(log, k)
  {
    if log != [] {
      SinceIsLater(log[..|log| - 1], a, k);
      TouchBounds(log[..|log| - 1], a);
      TouchBounds(log[..|log| - 1], k);
    }
  }

  lemma {:induction false} SubsetSize<T>(a: set<T>, b: set<T>)
    requires a <= b
    ensures |a| <= |b|
  {
    if a != {} {
      var x :| x in a;
      SubsetSize(a - {x}, b - {x});
    }
  }

  // ----- The cache -----

  datatype State<V> = State(entries: map<Key, Entry<V>>, lru: seq<Key>, stats: Stats)

  /** The list with the nodes of `gone` unlinked. */
  function Drop(lru: seq<Key>, gone: set<Key>): seq<Key> {
    if lru == [] then [] else (if lru[0] in gone then [] else [lru[0]]) + Drop(lru[1..], gone)
  }

  function Erased<V>(s: State<V>, gone: set<Key>): State<V> {
    s.(entries := s.entries - gone, lru := Drop(s.lru, gone))
  }

  function Touched<V>(s: State<V>, key: Key): State<V> {
    s.(lru := [key] + Drop(s.lru, {key}))
  }

  function Due<V>(s: State<V>, now: int): set<Key> {
    set k | k in s.entries && now > s.entries[k].expires
  }

  /** erase_expired_ */
  function Swept<V>(s: State<V>, now: int): State<V> {
    Erased(s, Due(s, now)).(stats := s.stats.(expired := s.stats.expired + |Due(s, now)|))
  }

  /** erase_entry_ of an entry found expired. */
  function Expired<V>(s: State<V>, key: Key): State<V> {
    Erased(s, {key}).(stats := s.stats.(expired := s.stats.expired + 1))
  }

  function Evicted<V>(s: State<V>, key: Key): State<V> {
    Erased(s, {key}).(stats := s.stats.(evictions := s.stats.evictions + 1))
  }

  /** One round of the eviction loop: the key at the back of the list goes. */
  function BackDropped<V>(s: State<V>): (r: State<V>)
    requires s.lru != []
    ensures |r.lru| < |s.lru|
  {
    var victim := s.lru[|s.lru| - 1];
    DropShortens(s.lru, victim);
    if victim in s.entries then Evicted(s, victim) else s.(lru := s.lru[..|s.lru| - 1])
  }

  /** evict_over_capacity_ */
  function Fitted<V>(s: State<V>, max: nat): State<V>
    decreases |s.lru|
  {
    if |s.entries| <= max || s.lru == [] then s else Fitted(BackDropped(s), max)
  }

  function Pushed<V>(s: State<V>, key: Key, e: Entry<V>): State<V> {
    s.(lru := [key] + s.lru, entries := s.entries[key := e])
  }

  predicate LiveAt<V>(s: State<V>, key: Key, now: int) {
    key in s.entries && now <= s.entries[key].expires
  }

  /** The key's own stale entry goes, then all the other stale ones. */
  function Cleared<V>(s: State<V>, key: Key, now: int): State<V> {
    Swept(if key in s.entries then Expired(s, key) else s, now)
  }

  datatype Op<V> =
    | Get(key: Key, now: int)
    | Set(key: Key, value: V, ttl: int, now: int)
    | SetIfAbsent(key: Key, value: V, ttl: int, now: int)
    | Invalidate(key: Key)
    | EvictExpired(now: int)

  function Invalidated<V>(s: State<V>, key: Key): State<V> {
    if key in s.entries then Erased(s, {key}) else s
  }

  function AfterGet<V>(s: State<V>, key: Key, now: int): State<V> {
    if LiveAt(s, key, now) then Touched(s, key).(stats := s.stats.(hits := s.stats.hits + 1))
    else
      var s' := if key in s.entries then Expired(s, key) else s;
      s'.(stats := s'.stats.(misses := s'.stats.misses + 1))
  }

  function AfterSet<V>(s: State<V>, max: nat, key: Key, value: V, ttl: int, now: int): State<V> {
    if ttl <= 0 then Invalidated(s, key)
    else if max == 0 then s
    else if LiveAt(s, key, now) then Touched(s.(entries := s.entries[key := Entry(value, now + ttl)]), key)
    else Fitted(Pushed(Cleared(s, key, now), key, Entry(value, now + ttl)), max)
  }

  function AfterSetIfAbsent<V>(s: State<V>, max: nat, key: Key, value: V, ttl: int, now: int): State<V> {
    if ttl <= 0 || max == 0 then s
    else if LiveAt(s, key, now) then Touched(s, key)
    else Fitted(Pushed(Cleared(s, key, now), key, Entry(value, now + ttl)), max)
  }

  function Next<V>(s: State<V>, max: nat, op: Op<V>): State<V> {
    match op
    case Get(key, now) => AfterGet(s, key, now)
    case Set(key, value, ttl, now) => AfterSet(s, max, key, value, ttl, now)
    case SetIfAbsent(key, value, ttl, now) => AfterSetIfAbsent(s, max, key, value, ttl, now)
    case Invalidate(key) => Invalidated(s, key)
    case EvictExpired(now) => Swept(s, now)
  }

  lemma {:induction false} DropNothing(lru: seq<Key>)
    ensures Drop(lru, {}) == lru
  {
    if lru != [] { DropNothing(lru[1..]); }
  }

  lemma {:induction false} DropMore(lru: seq<Key>, gone: set<Key>, key: Key)
    ensures Drop(Drop(lru, gone), {key}) == Drop(lru, gone + {key})
  {
    if lru != [] {
      DropMore(lru[1..], gone, key);
      var rest := Drop(lru[1..], gone);
      assert if lru[0] in gone then Drop(lru, gone) == rest else Drop(lru, gone)[1..] == rest;
    }
  }

  lemma ErasedMore<V>(s: State<V>, gone: set<Key>, key: Key)
    ensures Erased(Erased(s, gone), {key}) == Erased(s, gone + {key})
  {
    DropMore(s.lru, gone, key);
    assert s.entries - gone - {key} == s.entries - (gone + {key});
  }

  lemma SweepStarts<V>(s: State<V>, now: int)
    ensures Due(s, now) - s.entries.Keys == {} && Erased(s, {}) == s
  {
    DropNothing(s.lru);
    assert s.entries - {} == s.entries;
  }

  /** One round of the sweep: with `todo` not yet visited, the due keys outside it are gone. */
  lemma SweepStep<V>(s: State<V>, now: int, todo: set<Key>, k: Key)
    requires k in todo && todo <= s.entries.Keys
    ensures var due := Due(s, now); var s' := Erased(s, due - todo);
      && k in s'.entries && s'.entries[k] == s.entries[k]
      && (k in due ==> Erased(s', {k}) == Erased(s, due - (todo - {k})) && |due - (todo - {k})| == |due - todo| + 1)
      && (k !in due ==> due - (todo - {k}) == due - todo)
  {
    var due := Due(s, now);
    if k in due {
      assert due - (todo - {k}) == due - todo + {k};
      ErasedMore(s, due - todo, k);
    } else {
      assert due - (todo - {k}) == due - todo;
    }
  }

  lemma {:induction false} DropShortens(lru: seq<Key>, key: Key)
    ensures |Drop(lru, {key})| <= |lru| && (key in lru ==> |Drop(lru, {key})| < |lru|)
  {
    if lru != [] { DropShortens(lru[1..], key); }
  }

  class LocalCache<V> {
    const max: nat
    var entries: map<Key, Entry<V>>
    var lru: seq<Key>
    var stats: Stats

    function View(): State<V>
      reads this
    {
      State(entries, lru, stats)
    }

    constructor (maxEntries: nat)
      ensures max == maxEntries && View() == State(map[], [], Stats(0, 0, 0, 0))
    {
      max, entries, lru, stats := maxEntries, map[], [], Stats(0, 0, 0, 0);
    }

    method Touch(key: Key)
      modifies this`lru
      ensures View() == Touched(old(View()), key)
    {
      lru := [key] + Drop(lru, {key});
    }

    method EraseEntry(key: Key)
      modifies this`lru, this`entries
      ensures View() == Erased(old(View()), {key})
    {
      lru := Drop(lru, {key});
      entries := entries - {key};
    }

    /** An entry found expired. */
    method ExpireEntry(key: Key)
      modifies this
      ensures View() == Expired(old(View()), key)
    {
      EraseEntry(key);
      stats := stats.(expired := stats.expired + 1);
    }

    method GetEntry(key: Key, now: int) returns (r: Option<V>)
      modifies this
      ensures View() == Next(old(View()), max, Get(key, now))
      ensures r == if LiveAt(old(View()), key, now) then Some(old(entries)[key].value) else None
    {
      if key !in entries {
        stats := stats.(misses := stats.misses + 1);
        r := None;
      } else if now > entries[key].expires {
        ExpireEntry(key);
        stats := stats.(misses := stats.misses + 1);
        r := None;
      } else {
        Touch(key);
        stats := stats.(hits := stats.hits + 1);
        r := Some(entries[key].value);
      }
    }

    method InvalidateKey(key: Key)
      modifies this
      ensures View() == Next(old(View()), max, Invalidate(key))
    {
      if key in entries { EraseEntry(key); }
    }

    /** The map is walked in any order. */
    method EraseExpired(now: int) returns (removed: nat)
      modifies this
      ensures View() == Swept(old(View()), now) && removed == |Due(old(View()), now)|
    {
      removed := 0;
      var todo := entries.Keys;
      ghost var before, due := View(), Due(View(), now);
      SweepStarts(before, now);
      while todo != {}
        invariant todo <= before.entries.Keys && View() == Erased(before, due - todo) && removed == |due - todo|
        decreases todo
      {
        var k :| k in todo;
        SweepStep(before, now, todo, k);
        todo := todo - {k};
        if now > entries[k].expires {
          EraseEntry(k);
          removed := removed + 1;
        }
      }
      assert due - {} == due;
      stats := stats.(expired := stats.expired + removed);
    }

    method EvictExpiredEntries(now: int) returns (removed: nat)
      modifies this
      ensures View() == Next(old(View()), max, EvictExpired(now)) && removed == |old(entries)| - |entries|
    {
      removed := EraseExpired(now);
      assert old(entries).Keys == entries.Keys + Due(old(View()), now);
    }

    method DropBack() returns (evictions: nat)
      requires lru != []
      modifies this
      ensures View() == BackDropped(old(View())) && evictions == stats.evictions - old(stats.evictions)
    {
      var victim := lru[|lru| - 1];
      if victim in entries {
        EraseEntry(victim);
        stats, evictions := stats.(evictions := stats.evictions + 1), 1;
      } else {
        lru, evictions := lru[..|lru| - 1], 0;
      }
    }

    method EvictOverCapacity() returns (evictions: nat)
      modifies this
      ensures View() == Fitted(old(View()), max) && evictions == stats.evictions - old(stats.evictions)
    {
      evictions := 0;
      ghost var fitted := Fitted(View(), max);
      while |entries| > max && lru != []
        invariant Fitted(View(), max) == fitted && evictions == stats.evictions - old(stats.evictions)
        decreases |lru|
      {
        var n := DropBack();
        evictions := evictions + n;
      }
    }

    method Admit(key: Key, e: Entry<V>, now: int)
      modifies this
      ensures View() == Fitted(Pushed(Swept(old(View()), now), key, e), max)
    {
      var _ := EraseExpired(now);
      lru := [key] + lru;
      entries := entries[key := e];
      var _ := EvictOverCapacity();
    }

    method SetEntry(key: Key, value: V, ttl: int, now: int)
      modifies this
      ensures View() == Next(old(View()), max, Set(key, value, ttl, now))
    {
      if ttl <= 0 {
        InvalidateKey(key);
        return;
      }
      if max == 0 { return; }
      if key in entries {
        if now > entries[key].expires {
          ExpireEntry(key);
        } else {
          entries := entries[key := Entry(value, now + ttl)];
          Touch(key);
          return;
        }
      }
      Admit(key, Entry(value, now + ttl), now);
    }

    /** Stores only where no live entry is. */
    method SetEntryIfAbsent(key: Key, value: V, ttl: int, now: int) returns (stored: bool)
      modifies this
      ensures View() == Next(old(View()), max, SetIfAbsent(key, value, ttl, now))
      ensures stored == (ttl > 0 && max > 0 && !LiveAt(old(View()), key, now))
    {
      if ttl <= 0 || max == 0 { return false; }
      if key in entries {
        if now <= entries[key].expires {
          Touch(key);
          return false;
        }
        ExpireEntry(key);
      }
      Admit(key, Entry(value, now + ttl), now);
      return true;
    }
  }

  // ----- The recency list -----

  /** Most recently touched first, and strictly so. */
  ghost predicate Descending<V>(lru: seq<Key>, log: seq<Event<V>>) {
    forall i, j :: 0 <= i < j < |lru| ==> LastTouch(log, lru[i]) > LastTouch(log, lru[j])
  }

  predicate Lists(lru: seq<Key>, keys: set<Key>) {
    (forall k :: k in keys ==> k in lru) && (forall i :: 0 <= i < |lru| ==> lru[i] in keys)
  }

  /** `lru` lists exactly `keys`, most recently touched first. */
  ghost predicate Listing<V>(lru: seq<Key>, keys: set<Key>, log: seq<Event<V>>) {
    Lists(lru, keys) && Descending(lru, log)
  }

  lemma {:induction false} DropMembers(lru: seq<Key>, gone: set<Key>, k: Key)
    ensures k in Drop(lru, gone) <==> k in lru && k !in gone
  {
    if lru != [] { DropMembers(lru[1..], gone, k); }
  }

  lemma {:induction false} DropDescends<V>(lru: seq<Key>, gone: set<Key>, log: seq<Event<V>>)
    requires Descending(lru, log)
    ensures Descending(Drop(lru, gone), log)
  {
    if lru != [] {
      var rest := Drop(lru[1..], gone);
      DropDescends(lru[1..], gone, log);
      forall j | 0 <= j < |rest|
        ensures LastTouch(log, lru[0]) > LastTouch(log, rest[j])
      {
        DropMembers(lru[1..], gone, rest[j]);
      }
    }
  }

  lemma DropLists(lru: seq<Key>, gone: set<Key>, keys: set<Key>)
    requires Lists(lru, keys)
    ensures Lists(Drop(lru, gone), keys - gone)
  {
    var rest := Drop(lru, gone);
    forall k | k in keys - gone
      ensures k in rest
    {
      DropMembers(lru, gone, k);
    }
    forall i | 0 <= i < |rest|
      ensures rest[i] in keys - gone
    {
      DropMembers(lru, gone, rest[i]);
    }
  }

  lemma DropKeeps<V>(lru: seq<Key>, keys: set<Key>, log: seq<Event<V>>, gone: set<Key>)
    requires Listing(lru, keys, log)
    ensures Listing(Drop(lru, gone), keys - gone, log)
  {
    DropDescends(lru, gone, log);
    DropLists(lru, gone, keys);
  }

  lemma PushKeeps<V>(lru: seq<Key>, keys: set<Key>, log: seq<Event<V>>, e: Event<V>)
    requires Listing(lru, keys, log) && e.key !in keys && Touches(e, e.key)
    ensures Listing([e.key] + lru, keys + {e.key}, log + [e])
  {
    Appended(log, e, e.key);
    forall i | 0 <= i < |lru|
      ensures LastTouch(log + [e], lru[i]) == LastTouch(log, lru[i]) < |log|
    {
      Appended(log, e, lru[i]);
      TouchBounds(log, lru[i]);
    }
  }

  lemma TouchKeeps<V>(lru: seq<Key>, keys: set<Key>, log: seq<Event<V>>, e: Event<V>)
    requires Listing(lru, keys, log) && e.key in keys && Touches(e, e.key)
    ensures Listing([e.key] + Drop(lru, {e.key}), keys, log + [e])
  {
    DropKeeps(lru, keys, log, {e.key});
    PushKeeps(Drop(lru, {e.key}), keys - {e.key}, log, e);
    assert keys - {e.key} + {e.key} == keys;
  }

  lemma QuietKeeps<V>(lru: seq<Key>, keys: set<Key>, log: seq<Event<V>>, e: Event<V>)
    requires Listing(lru, keys, log) && !Touches(e, e.key)
    ensures Listing(lru, keys, log + [e])
  {
    forall i | 0 <= i < |lru|
      ensures LastTouch(log + [e], lru[i]) == LastTouch(log, lru[i])
    {
      Appended(log, e, lru[i]);
    }
  }

  /** No key is listed twice, so the list is as long as the map is large. */
  lemma {:induction false} ListingSize<V>(lru: seq<Key>, keys: set<Key>, log: seq<Event<V>>)
    requires Listing(lru, keys, log)
    ensures |lru| == |keys|
    ensures forall i, j :: 0 <= i < j < |lru| ==> lru[i] != lru[j]
  {
    if lru == [] {
      assert keys == {};
    } else {
      forall k | k in keys - {lru[0]}
        ensures k in lru[1..]
      {
        assert k in lru;
      }
      ListingSize(lru[1..], keys - {lru[0]}, log);
    }
  }

  // ----- What the entries mean -----

  /** Every entry is the latest write of its key. */
  ghost predicate Latest<V>(entries: map<Key, Entry<V>>, log: seq<Event<V>>) {
    forall k :: k in entries ==> LastWrite(log, k) == Some(entries[k])
  }

  /** A live write may be missing only because `max` other keys were touched after its key. */
  ghost predicate MissExplained<V>(log: seq<Event<V>>, clock: int, max: nat, k: Key) {
    LastWrite(log, k).Some? && clock <= LastWrite(log, k).value.expires ==> |Since(log, k)| >= max
  }

  ghost predicate Explained<V>(keys: set<Key>, log: seq<Event<V>>, clock: int, max: nat) {
    forall k :: k !in keys ==> MissExplained(log, clock, max, k)
  }

  /** Every insertion is still stored, or was evicted, expired or invalidated. */
  ghost predicate Balanced<V>(s: State<V>, log: seq<Event<V>>) {
    var t := Tallied(log);
    && t.hits == s.stats.hits && t.misses == s.stats.misses
    && t.insertions == |s.entries| + s.stats.evictions + s.stats.expired + t.invalidations
  }

  ghost predicate Sound<V>(s: State<V>, log: seq<Event<V>>, clock: int, max: nat) {
    && Listing(s.lru, s.entries.Keys, log) && Latest(s.entries, log)
    && Explained(s.entries.Keys, log, clock, max) && Balanced(s, log)
  }

  /** Later events that do not touch a key leave a miss of it explained. */
  lemma StaysExplained<V>(log: seq<Event<V>>, clock: int, max: nat, k: Key, e: Event<V>, now: int)
    requires MissExplained(log, clock, max, k) && clock <= now && !Touches(e, k)
    ensures MissExplained(log + [e], now, max, k)
  {
    Appended(log, e, k);
    SubsetSize(Since(log, k), Since(log + [e], k));
  }

  lemma AllStayExplained<V>(keys: set<Key>, log: seq<Event<V>>, clock: int, max: nat, e: Event<V>, now: int)
    requires Explained(keys, log, clock, max) && clock <= now
    requires Touches(e, e.key) ==> e.key in keys
    ensures Explained(keys, log + [e], now, max)
  {
    forall k | k !in keys
      ensures MissExplained(log + [e], now, max, k)
    {
      StaysExplained(log, clock, max, k, e, now);
    }
  }

  lemma StaysLatest<V>(entries: map<Key, Entry<V>>, log: seq<Event<V>>, e: Event<V>)
    requires Latest(entries, log) && !(e.Removed? && e.key in entries)
    ensures Latest(if e.Wrote? then entries[e.key := e.entry] else entries, log + [e])
  {
    forall k | k in entries || k == e.key
      ensures WritesKey(e, k) ==> LastWrite(log + [e], k) == if e.Wrote? then Some(e.entry) else None
      ensures !WritesKey(e, k) ==> LastWrite(log + [e], k) == LastWrite(log, k)
    {
      Appended(log, e, k);
    }
  }

  /** The keys that stay all come after one touched before each of them. */
  lemma EvictionExplained<V>(kept: set<Key>, log: seq<Event<V>>, clock: int, max: nat, k: Key)
    requires |kept| >= max && forall a :: a in kept ==> LastTouch(log, a) > LastTouch(log, k)
    ensures MissExplained(log, clock, max, k)
  {
    forall a | a in kept
      ensures a in Since(log, k)
    {
      SinceIsLater(log, a, k);
    }
    SubsetSize(kept, Since(log, k));
  }

  /** Entries go, with nothing logged. */
  lemma EraseSound<V>(s: State<V>, log: seq<Event<V>>, clock: int, max: nat, gone: set<Key>, now: int)
    requires Sound(s, log, clock, max) && clock <= now && gone <= s.entries.Keys
    requires forall k :: k in gone ==> MissExplained(log, now, max, k)
    ensures var s' := Erased(s, gone);
      Listing(s'.lru, s'.entries.Keys, log) && Latest(s'.entries, log) && Explained(s'.entries.Keys, log, now, max)
    ensures |Erased(s, gone).entries| == |s.entries| - |gone|
  {
    DropKeeps(s.lru, s.entries.Keys, log, gone);
    assert (s.entries - gone).Keys == s.entries.Keys - gone;
    forall k | k !in s.entries.Keys - gone
      ensures MissExplained(log, now, max, k)
    {
      assert k in gone || MissExplained(log, clock, max, k);
    }
  }

  lemma SweepSound<V>(s: State<V>, log: seq<Event<V>>, clock: int, max: nat, now: int)
    requires Sound(s, log, clock, max) && clock <= now
    ensures Sound(Swept(s, now), log, now, max)
  {
    forall k | k in Due(s, now)
      ensures MissExplained(log, now, max, k)
    {
      assert LastWrite(log, k) == Some(s.entries[k]);
    }
    EraseSound(s, log, clock, max, Due(s, now), now);
  }

  lemma ExpireSound<V>(s: State<V>, log: seq<Event<V>>, clock: int, max: nat, key: Key, now: int)
    requires Sound(s, log, clock, max) && clock <= now && key in s.entries && now > s.entries[key].expires
    ensures Sound(Expired(s, key), log, now, max)
  {
    EraseSound(s, log, clock, max, {key}, now);
  }

  lemma MissSound<V>(s: State<V>, log: seq<Event<V>>, clock: int, max: nat, key: Key, now: int)
    requires Sound(s, log, clock, max) && clock <= now
    ensures Sound(s.(stats := s.stats.(misses := s.stats.misses + 1)), log + [Missed(key)], now, max)
  {
    var e: Event<V> := Missed(key);
    TallyAppended(log, e);
    QuietKeeps(s.lru, s.entries.Keys, log, e);
    AllStayExplained(s.entries.Keys, log, clock, max, e, now);
    StaysLatest(s.entries, log, e);
  }

  lemma HitSound<V>(s: State<V>, log: seq<Event<V>>, clock: int, max: nat, key: Key, now: int)
    requires Sound(s, log, clock, max) && clock <= now && key in s.entries
    ensures Sound(Touched(s, key).(stats := s.stats.(hits := s.stats.hits + 1)), log + [Hit(key)], now, max)
  {
    var e: Event<V> := Hit(key);
    TallyAppended(log, e);
    TouchKeeps(s.lru, s.entries.Keys, log, e);
    AllStayExplained(s.entries.Keys, log, clock, max, e, now);
    StaysLatest(s.entries, log, e);
  }

  lemma SeenSound<V>(s: State<V>, log: seq<Event<V>>, clock: int, max: nat, key: Key, now: int)
    requires Sound(s, log, clock, max) && clock <= now && key in s.entries
    ensures Sound(Touched(s, key), log + [Seen(key)], now, max)
  {
    var e: Event<V> := Seen(key);
    TallyAppended(log, e);
    TouchKeeps(s.lru, s.entries.Keys, log, e);
    AllStayExplained(s.entries.Keys, log, clock, max, e, now);
    StaysLatest(s.entries, log, e);
  }

  lemma OverwriteSound<V>(s: State<V>, log: seq<Event<V>>, clock: int, max: nat, key: Key, entry: Entry<V>, now: int)
    requires Sound(s, log, clock, max) && clock <= now && key in s.entries
    ensures Sound(Touched(s.(entries := s.entries[key := entry]), key), log + [Wrote(key, entry, false)], now, max)
    ensures |s.entries[key := entry]| == |s.entries|
  {
    var e := Wrote(key, entry, false);
    TallyAppended(log, e);
    TouchKeeps(s.lru, s.entries.Keys, log, e);
    assert s.entries[key := entry].Keys == s.entries.Keys;
    AllStayExplained(s.entries.Keys, log, clock, max, e, now);
    StaysLatest(s.entries, log, e);
  }

  lemma PushSound<V>(s: State<V>, log: seq<Event<V>>, clock: int, max: nat, key: Key, entry: Entry<V>, now: int)
    requires Sound(s, log, clock, max) && clock <= now && key !in s.entries
    ensures Sound(Pushed(s, key, entry), log + [Wrote(key, entry, true)], now, max)
  {
    var e := Wrote(key, entry, true);
    TallyAppended(log, e);
    PushKeeps(s.lru, s.entries.Keys, log, e);
    assert s.entries[key := entry].Keys == s.entries.Keys + {key};
    assert Explained(s.entries.Keys + {key}, log, clock, max);
    AllStayExplained(s.entries.Keys + {key}, log, clock, max, e, now);
    StaysLatest(s.entries, log, e);
  }

  lemma InvalidateSound<V>(s: State<V>, log: seq<Event<V>>, clock: int, max: nat, key: Key)
    requires Sound(s, log, clock, max)
    ensures Sound(Invalidated(s, key), log + [Removed(key, key in s.entries)], clock, max)
    ensures |Invalidated(s, key).entries| <= |s.entries|
  {
    var e: Event<V> := Removed(key, key in s.entries);
    var s' := Invalidated(s, key);
    TallyAppended(log, e);
    if key in s.entries { DropKeeps(s.lru, s.entries.Keys, log, {key}); }
    assert s'.entries.Keys == s.entries.Keys - {key};
    SubsetSize(s'.entries.Keys, s.entries.Keys);
    QuietKeeps(s'.lru, s'.entries.Keys, log, e);
    StaysLatest(s'.entries, log, e);
    forall k | k !in s'.entries.Keys
      ensures MissExplained(log + [e], clock, max, k)
    {
      if k == key { Appended(log, e, k); } else { StaysExplained(log, clock, max, k, e, clock); }
    }
  }

  /** The key at the back of the list is the least recently touched. */
  lemma BackIsOldest<V>(s: State<V>, log: seq<Event<V>>, clock: int, max: nat)
    requires Sound(s, log, clock, max) && s.lru != []
    ensures s.lru[|s.lru| - 1] in s.entries
    ensures forall k :: k in s.entries && k != s.lru[|s.lru| - 1] ==>
      LastTouch(log, k) > LastTouch(log, s.lru[|s.lru| - 1])
  {
    var victim := s.lru[|s.lru| - 1];
    assert victim in s.entries.Keys;
    forall k | k in s.entries && k != victim
      ensures LastTouch(log, k) > LastTouch(log, victim)
    {
      assert k in s.entries.Keys;
      var i :| 0 <= i < |s.lru| && s.lru[i] == k;
    }
  }

  lemma EvictSound<V>(s: State<V>, log: seq<Event<V>>, clock: int, max: nat)
    requires Sound(s, log, clock, max) && |s.entries| > max && s.lru != []
    ensures Sound(Evicted(s, s.lru[|s.lru| - 1]), log, clock, max)
  {
    var victim := s.lru[|s.lru| - 1];
    BackIsOldest(s, log, clock, max);
    EvictionExplained(s.entries.Keys - {victim}, log, clock, max, victim);
    EraseSound(s, log, clock, max, {victim}, clock);
  }

  /** Of `before`, `after` keeps the most recently touched, and all of it if there is room. */
  ghost predicate Trimmed<V>(before: map<Key, Entry<V>>, after: map<Key, Entry<V>>, log: seq<Event<V>>, max: nat) {
    && (forall k :: k in after ==> k in before && after[k] == before[k])
    && (forall k :: k in before && k !in after ==> Outlived(after, log, max, k))
  }

  /** `max` entries or more stay, each touched after `k`. */
  ghost predicate Outlived<V>(after: map<Key, Entry<V>>, log: seq<Event<V>>, max: nat, k: Key) {
    |after| >= max && forall a :: a in after ==> LastTouch(log, a) > LastTouch(log, k)
  }

  lemma TrimmedTwice<V>(a: map<Key, Entry<V>>, b: map<Key, Entry<V>>, c: map<Key, Entry<V>>, log: seq<Event<V>>,
                        max: nat)
    requires Trimmed(a, b, log, max) && Trimmed(b, c, log, max)
    ensures Trimmed(a, c, log, max)
  {
    forall k | k in a && k !in c
      ensures Outlived(c, log, max, k)
    {
      if k !in b {
        assert Outlived(b, log, max, k);
        if x :| x in b && x !in c { assert Outlived(c, log, max, x); } else { assert b == c; }
      }
    }
  }

  lemma OldestTrims<V>(entries: map<Key, Entry<V>>, victim: Key, log: seq<Event<V>>, max: nat)
    requires |entries| > max && victim in entries
    requires forall k :: k in entries && k != victim ==> LastTouch(log, k) > LastTouch(log, victim)
    ensures Trimmed(entries, entries - {victim}, log, max)
  {
    assert (entries - {victim}).Keys == entries.Keys - {victim};
    assert Outlived(entries - {victim}, log, max, victim);
  }

  lemma ListNotEmpty<V>(s: State<V>, log: seq<Event<V>>)
    requires Listing(s.lru, s.entries.Keys, log) && s.entries != map[]
    ensures s.lru != []
  {
    var k :| k in s.entries.Keys;
  }

  /** One round over capacity evicts the least recently touched key and nothing else. */
  lemma BackTrims<V>(s: State<V>, log: seq<Event<V>>, clock: int, max: nat)
    requires Sound(s, log, clock, max) && |s.entries| > max && s.lru != []
    ensures BackDropped(s) == Evicted(s, s.lru[|s.lru| - 1]) && Trimmed(s.entries, BackDropped(s).entries, log, max)
  {
    BackIsOldest(s, log, clock, max);
    var victim := s.lru[|s.lru| - 1];
    assert BackDropped(s) == Evicted(s, victim);
    OldestTrims(s.entries, victim, log, max);
  }

  lemma {:induction false} FitSound<V>(s: State<V>, log: seq<Event<V>>, clock: int, max: nat)
    requires Sound(s, log, clock, max)
    ensures var r := Fitted(s, max);
      Sound(r, log, clock, max) && |r.entries| <= max && Trimmed(s.entries, r.entries, log, max)
    decreases |s.lru|
  {
    if |s.entries| > max {
      ListNotEmpty(s, log);
      EvictSound(s, log, clock, max);
      BackTrims(s, log, clock, max);
      var r := BackDropped(s);
      FitSound(r, log, clock, max);
      TrimmedTwice(s.entries, r.entries, Fitted(r, max).entries, log, max);
    }
  }

  // ----- Runs -----

  /** The cache after some calls, the log of them and the time of the last. */
  datatype Trace<V> = Trace(state: State<V>, log: seq<Event<V>>, clock: int)

  predicate Timely<V>(op: Op<V>, clock: int) {
    op.Invalidate? || clock <= op.now
  }

  /** What the log says of a call. */
  function Logged<V>(s: State<V>, max: nat, op: Op<V>): seq<Event<V>> {
    match op
    case Get(key, now) => [if LiveAt(s, key, now) then Hit(key) else Missed(key)]
    case Set(key, value, ttl, now) =>
      if ttl <= 0 then [Removed(key, key in s.entries)]
      else if max == 0 then []
      else [Wrote(key, Entry(value, now + ttl), !LiveAt(s, key, now))]
    case SetIfAbsent(key, value, ttl, now) =>
      if ttl <= 0 || max == 0 then []
      else if LiveAt(s, key, now) then [Seen(key)]
      else [Wrote(key, Entry(value, now + ttl), true)]
    case Invalidate(key) => [Removed(key, key in s.entries)]
    case EvictExpired(_) => []
  }

  function After<V>(t: Trace<V>, max: nat, op: Op<V>): Trace<V> {
    Trace(Next(t.state, max, op), t.log + Logged(t.state, max, op), if op.Invalidate? then t.clock else op.now)
  }

  /** The calls in order, on a clock that never goes back; None if it does. */
  function Run<V>(max: nat, start: int, ops: seq<Op<V>>): Option<Trace<V>> {
    if ops == [] then Some(Trace(State(map[], [], Stats(0, 0, 0, 0)), [], start))
    else
      var t, op := Run(max, start, ops[..|ops| - 1]), ops[|ops| - 1];
      if t.Some? && Timely(op, t.value.clock) then Some(After(t.value, max, op)) else None
  }

  lemma LaterSound<V>(s: State<V>, log: seq<Event<V>>, clock: int, max: nat, now: int)
    requires Sound(s, log, clock, max) && clock <= now
    ensures Sound(s, log, now, max)
  {
    forall k | k !in s.entries.Keys
      ensures MissExplained(log, now, max, k)
    {
      assert MissExplained(log, clock, max, k);
    }
  }

  lemma GetCases<V>(s: State<V>, key: Key, now: int)
    ensures var s' := if key in s.entries then Expired(s, key) else s;
      && (LiveAt(s, key, now) ==>
            AfterGet(s, key, now) == Touched(s, key).(stats := s.stats.(hits := s.stats.hits + 1)))
      && (!LiveAt(s, key, now) ==> AfterGet(s, key, now) == s'.(stats := s'.stats.(misses := s'.stats.misses + 1)))
  {
  }

  /** What is left of an entry found stale, or of none. */
  lemma StaleSound<V>(s: State<V>, log: seq<Event<V>>, clock: int, max: nat, key: Key, now: int)
    requires Sound(s, log, clock, max) && clock <= now && !LiveAt(s, key, now)
    ensures Sound(if key in s.entries then Expired(s, key) else s, log, now, max)
  {
    if key in s.entries { ExpireSound(s, log, clock, max, key, now); } else { LaterSound(s, log, clock, max, now); }
  }

  lemma GetSound<V>(s: State<V>, log: seq<Event<V>>, clock: int, max: nat, key: Key, now: int)
    requires Sound(s, log, clock, max) && clock <= now
    ensures Sound(AfterGet(s, key, now), log + [if LiveAt(s, key, now) then Hit(key) else Missed(key)], now, max)
  {
    GetCases(s, key, now);
    if LiveAt(s, key, now) {
      HitSound(s, log, clock, max, key, now);
    } else {
      StaleSound(s, log, clock, max, key, now);
      MissSound(if key in s.entries then Expired(s, key) else s, log, now, max, key, now);
    }
  }

  /** Clearing drops exactly the stale entries, the key's own included. */
  lemma ClearedContents<V>(s: State<V>, key: Key, now: int)
    requires !LiveAt(s, key, now)
    ensures var c := Cleared(s, key, now);
      key !in c.entries && (forall k :: k in c.entries <==> LiveAt(s, k, now)) &&
      (forall k :: k in c.entries ==> c.entries[k] == s.entries[k])
  {
  }

  lemma ClearSound<V>(s: State<V>, log: seq<Event<V>>, clock: int, max: nat, key: Key, now: int)
    requires Sound(s, log, clock, max) && clock <= now && !LiveAt(s, key, now)
    ensures Sound(Cleared(s, key, now), log, now, max)
  {
    StaleSound(s, log, clock, max, key, now);
    SweepSound(if key in s.entries then Expired(s, key) else s, log, now, max, now);
  }

  lemma InsertSound<V>(s: State<V>, log: seq<Event<V>>, clock: int, max: nat, key: Key, e: Entry<V>, now: int)
    requires Sound(s, log, clock, max) && clock <= now && !LiveAt(s, key, now)
    ensures var r := Fitted(Pushed(Cleared(s, key, now), key, e), max); var log' := log + [Wrote(key, e, true)];
      Sound(r, log', now, max) && |r.entries| <= max &&
      Trimmed(Cleared(s, key, now).entries[key := e], r.entries, log', max)
  {
    ClearedContents(s, key, now);
    ClearSound(s, log, clock, max, key, now);
    PushSound(Cleared(s, key, now), log, now, max, key, e, now);
    FitSound(Pushed(Cleared(s, key, now), key, e), log + [Wrote(key, e, true)], now, max);
  }

  ghost predicate Good<V>(t: Trace<V>, max: nat) {
    Sound(t.state, t.log, t.clock, max) && |t.state.entries| <= max
  }

  lemma NothingLogged<V>(t: Trace<V>, max: nat, now: int)
    requires Good(t, max) && t.clock <= now
    ensures Good(Trace(t.state, t.log + [], now), max)
  {
    LaterSound(t.state, t.log, t.clock, max, now);
    assert t.log + [] == t.log;
  }

  lemma InvalidateGood<V>(t: Trace<V>, max: nat, key: Key, now: int)
    requires Good(t, max) && t.clock <= now
    ensures Good(Trace(Invalidated(t.state, key), t.log + [Removed(key, key in t.state.entries)], now), max)
  {
    InvalidateSound(t.state, t.log, t.clock, max, key);
    LaterSound(Invalidated(t.state, key), t.log + [Removed(key, key in t.state.entries)], t.clock, max, now);
  }

  lemma InsertGood<V>(t: Trace<V>, max: nat, key: Key, e: Entry<V>, now: int)
    requires Good(t, max) && t.clock <= now && !LiveAt(t.state, key, now)
    ensures Good(Trace(Fitted(Pushed(Cleared(t.state, key, now), key, e), max),
               t.log + [Wrote(key, e, true)], now), max)
  {
    InsertSound(t.state, t.log, t.clock, max, key, e, now);
  }

  lemma OverwriteGood<V>(t: Trace<V>, max: nat, key: Key, e: Entry<V>, now: int)
    requires Good(t, max) && t.clock <= now && LiveAt(t.state, key, now)
    ensures Good(Trace(Touched(t.state.(entries := t.state.entries[key := e]), key),
               t.log + [Wrote(key, e, false)], now), max)
  {
    OverwriteSound(t.state, t.log, t.clock, max, key, e, now);
  }

  lemma SeenGood<V>(t: Trace<V>, max: nat, key: Key, now: int)
    requires Good(t, max) && t.clock <= now && LiveAt(t.state, key, now)
    ensures Good(Trace(Touched(t.state, key), t.log + [Seen(key)], now), max)
  {
    SeenSound(t.state, t.log, t.clock, max, key, now);
  }

  lemma GetGood<V>(t: Trace<V>, max: nat, key: Key, now: int)
    requires Good(t, max) && t.clock <= now
    ensures Good(Trace(AfterGet(t.state, key, now),
               t.log + [if LiveAt(t.state, key, now) then Hit(key) else Missed(key)], now), max)
  {
    GetSound(t.state, t.log, t.clock, max, key, now);
    SubsetSize(AfterGet(t.state, key, now).entries.Keys, t.state.entries.Keys);
  }

  lemma SweepGood<V>(t: Trace<V>, max: nat, now: int)
    requires Good(t, max) && t.clock <= now
    ensures Good(Trace(Swept(t.state, now), t.log, now), max)
  {
    SweepSound(t.state, t.log, t.clock, max, now);
    SubsetSize(Swept(t.state, now).entries.Keys, t.state.entries.Keys);
  }

  lemma SetCases<V>(t: Trace<V>, max: nat, key: Key, value: V, ttl: int, now: int)
    ensures var t', e := After(t, max, Set(key, value, ttl, now)), Entry(value, now + ttl);
      && (ttl <= 0 ==> t' == Trace(Invalidated(t.state, key), t.log + [Removed(key, key in t.state.entries)], now))
      && (ttl > 0 && max == 0 ==> t' == Trace(t.state, t.log + [], now))
      && (ttl > 0 && max > 0 && LiveAt(t.state, key, now) ==>
            t' == Trace(Touched(t.state.(entries := t.state.entries[key := e]), key),
                        t.log + [Wrote(key, e, false)], now))
      && (ttl > 0 && max > 0 && !LiveAt(t.state, key, now) ==>
            t' == Trace(Fitted(Pushed(Cleared(t.state, key, now), key, e), max), t.log + [Wrote(key, e, true)], now))
  {
  }

  lemma SetGood<V>(t: Trace<V>, max: nat, key: Key, value: V, ttl: int, now: int)
    requires Good(t, max) && t.clock <= now
    ensures Good(After(t, max, Set(key, value, ttl, now)), max)
  {
    SetCases(t, max, key, value, ttl, now);
    if ttl <= 0 {
      InvalidateGood(t, max, key, now);
    } else if max == 0 {
      NothingLogged(t, max, now);
    } else if LiveAt(t.state, key, now) {
      OverwriteGood(t, max, key, Entry(value, now + ttl), now);
    } else {
      InsertGood(t, max, key, Entry(value, now + ttl), now);
    }
  }

  lemma SetIfAbsentCases<V>(t: Trace<V>, max: nat, key: Key, value: V, ttl: int, now: int)
    ensures var t', e := After(t, max, SetIfAbsent(key, value, ttl, now)), Entry(value, now + ttl);
      && (ttl <= 0 || max == 0 ==> t' == Trace(t.state, t.log + [], now))
      && (ttl > 0 && max > 0 && LiveAt(t.state, key, now) ==>
            t' == Trace(Touched(t.state, key), t.log + [Seen(key)], now))
      && (ttl > 0 && max > 0 && !LiveAt(t.state, key, now) ==>
            t' == Trace(Fitted(Pushed(Cleared(t.state, key, now), key, e), max), t.log + [Wrote(key, e, true)], now))
  {
  }

  lemma SetIfAbsentGood<V>(t: Trace<V>, max: nat, key: Key, value: V, ttl: int, now: int)
    requires Good(t, max) && t.clock <= now
    ensures Good(After(t, max, SetIfAbsent(key, value, ttl, now)), max)
  {
    SetIfAbsentCases(t, max, key, value, ttl, now);
    if ttl <= 0 || max == 0 {
      NothingLogged(t, max, now);
    } else if LiveAt(t.state, key, now) {
      SeenGood(t, max, key, now);
    } else {
      InsertGood(t, max, key, Entry(value, now + ttl), now);
    }
  }

  lemma OtherCases<V>(t: Trace<V>, max: nat, key: Key, now: int)
    ensures After(t, max, Get(key, now)) ==
      Trace(AfterGet(t.state, key, now), t.log + [if LiveAt(t.state, key, now) then Hit(key) else Missed(key)], now)
    ensures After(t, max, Invalidate(key)) ==
      Trace(Invalidated(t.state, key), t.log + [Removed(key, key in t.state.entries)], t.clock)
    ensures After(t, max, EvictExpired(now)) == Trace(Swept(t.state, now), t.log, now)
  {
    assert t.log + [] == t.log;
  }

  /** Every call keeps the invariant. */
  lemma CallKeepsGood<V>(t: Trace<V>, max: nat, op: Op<V>)
    requires Good(t, max) && Timely(op, t.clock)
    ensures Good(After(t, max, op), max)
  {
    match op {
      case Get(key, now) =>
        OtherCases(t, max, key, now);
        GetGood(t, max, key, now);
      case Set(key, value, ttl, now) => SetGood(t, max, key, value, ttl, now);
      case SetIfAbsent(key, value, ttl, now) => SetIfAbsentGood(t, max, key, value, ttl, now);
      case Invalidate(key) =>
        OtherCases(t, max, key, t.clock);
        InvalidateGood(t, max, key, t.clock);
      case EvictExpired(now) =>
        OtherCases(t, max, "", now);
        SweepGood(t, max, now);
    }
  }

  /** After any calls: the list is the map's keys in strict last-touch order, the capacity holds, every entry is its
      key's latest write, every live write that is gone was pushed out, and every insertion is accounted for. */
  lemma {:induction false} RunsAreSound<V>(max: nat, start: int, ops: seq<Op<V>>)
    requires Run(max, start, ops).Some?
    ensures Good(Run(max, start, ops).value, max)
  {
    if ops != [] {
      RunsAreSound(max, start, ops[..|ops| - 1]);
      CallKeepsGood(Run(max, start, ops[..|ops| - 1]).value, max, ops[|ops| - 1]);
    }
  }

  function Answer<V>(s: State<V>, key: Key, now: int): Option<V> {
    if LiveAt(s, key, now) then Some(s.entries[key].value) else None
  }

  /** After any calls, get answers with the latest write of its key while that is live, and with nothing otherwise;
      it may miss a live one only after `max` other keys were touched. */
  lemma GetIsLatestWrite<V>(max: nat, start: int, ops: seq<Op<V>>, key: Key, now: int)
    requires Run(max, start, ops).Some? && Run(max, start, ops).value.clock <= now
    ensures var t := Run(max, start, ops).value; var w := LastWrite(t.log, key);
      && (Answer(t.state, key, now).Some? ==>
            w.Some? && now <= w.value.expires && Answer(t.state, key, now).value == w.value.value)
      && (w.Some? && now <= w.value.expires && |Since(t.log, key)| < max ==>
            Answer(t.state, key, now) == Some(w.value.value))
  {
    RunsAreSound(max, start, ops);
    var t := Run(max, start, ops).value;
    if key !in t.state.entries.Keys { assert MissExplained(t.log, t.clock, max, key); }
  }

  /** From `t` to `t'` the key's entry is stored, what is stale goes, and of the rest only what is outlived. */
  ghost predicate StoredAndTrimmed<V>(t: Trace<V>, t': Trace<V>, max: nat, key: Key, e: Entry<V>, now: int) {
    var after := t'.state.entries;
    && key in after && after[key] == e && |after| <= max
    && (forall k :: k in after && k != key ==> LiveAt(t.state, k, now) && after[k] == t.state.entries[k])
    && (forall k :: LiveAt(t.state, k, now) && k !in after ==> Outlived(after, t'.log, max, k))
  }

  lemma InsertStores<V>(t: Trace<V>, max: nat, key: Key, e: Entry<V>, now: int)
    requires Good(t, max) && t.clock <= now && max > 0 && !LiveAt(t.state, key, now)
    ensures var s' := Fitted(Pushed(Cleared(t.state, key, now), key, e), max);
      StoredAndTrimmed(t, Trace(s', t.log + [Wrote(key, e, true)], now), max, key, e, now)
  {
    ClearedContents(t.state, key, now);
    InsertSound(t.state, t.log, t.clock, max, key, e, now);
    NewestStays(Cleared(t.state, key, now).entries[key := e],
      Fitted(Pushed(Cleared(t.state, key, now), key, e), max).entries,
      t.log, key, e, max);
  }

  lemma SetStores<V>(t: Trace<V>, max: nat, key: Key, value: V, ttl: int, now: int)
    requires Good(t, max) && t.clock <= now && max > 0 && ttl > 0 && !LiveAt(t.state, key, now)
    ensures var e := Entry(value, now + ttl);
      && StoredAndTrimmed(t, After(t, max, Set(key, value, ttl, now)), max, key, e, now)
      && StoredAndTrimmed(t, After(t, max, SetIfAbsent(key, value, ttl, now)), max, key, e, now)
  {
    SetCases(t, max, key, value, ttl, now);
    SetIfAbsentCases(t, max, key, value, ttl, now);
    InsertStores(t, max, key, Entry(value, now + ttl), now);
  }

  /** A set, or a set_if_absent, that finds no live entry stores its own, drops what is stale, and evicts only keys less
      recently touched than all that stay, and only down to the capacity. */
  lemma SetStoresAndTrims<V>(max: nat, start: int, ops: seq<Op<V>>, key: Key, value: V, ttl: int, now: int)
    requires Run(max, start, ops).Some? && Run(max, start, ops).value.clock <= now && max > 0 && ttl > 0
    requires !LiveAt(Run(max, start, ops).value.state, key, now)
    ensures var t, e := Run(max, start, ops).value, Entry(value, now + ttl);
      && StoredAndTrimmed(t, After(t, max, Set(key, value, ttl, now)), max, key, e, now)
      && StoredAndTrimmed(t, After(t, max, SetIfAbsent(key, value, ttl, now)), max, key, e, now)
  {
    RunsAreSound(max, start, ops);
    SetStores(Run(max, start, ops).value, max, key, value, ttl, now);
  }

  /** The key just written is the last to go. */
  lemma NewestStays<V>(before: map<Key, Entry<V>>, after: map<Key, Entry<V>>, log: seq<Event<V>>, key: Key, e: Entry<V>,
                       max: nat)
    requires key in before && max > 0 && Trimmed(before, after, log + [Wrote(key, e, true)], max)
    ensures key in after
  {
    var log' := log + [Wrote(key, e, true)];
    Appended(log, Wrote(key, e, true), key);
    if key !in after {
      assert Outlived(after, log', max, key);
      assert after.Keys != {};
      var a :| a in after;
      TouchBounds(log', a);
    }
  }
}
