/** The batched generation fill (kBatchSetIfGenerationLua in
    common/dao/data_redis.hpp) against the single-entry script it batches. */
module BatchFill {
  import opened Wrappers

  type Key = string

  /** A Redis string: a plain decimal integer; a spelling of an integer that Lua's tonumber
      reads but Redis does not take as one, such as 1e3; or not a number at all. */
  datatype Text = Number(n: int) | Loose(n: int) | Word(s: string)

  /** A key is a string with an optional time to live in seconds, or of another type. */
  datatype Value = Str(text: Text, ttl: Option<int>) | OtherType

  type Store = map<Key, Value>

  const GENERATION_TTL := 604800
  const LLONG_MAX := 0x7fff_ffff_ffff_ffff

  /** The server's clock in milliseconds, small enough for the generation key's own deadline. */
  type Clock = x: int | 0 <= x <= LLONG_MAX - 1000 * GENERATION_TTL

  /** SET ... EX takes a plain decimal number of seconds whose deadline in milliseconds fits 64 bits. */
  predicate TakenAsTtl(ttl: Text, now: Clock) {
    ttl.Number? && 0 < ttl.n && 1000 * ttl.n <= LLONG_MAX - now
  }

  function ToNumber(t: Text): Option<int> {
    if t.Word? then None else Some(t.n)
  }

  predicate IsString(db: Store, k: Key) {
    k !in db || db[k].Str?
  }

  /** GET, with '0' for a missing key. */
  function GetOrZero(db: Store, k: Key): Text
    requires IsString(db, k)
  {
    if k in db then db[k].text else Number(0)
  }

  function Set(db: Store, k: Key, v: Text, ttl: int): Store {
    db[k := Str(v, Some(ttl))]
  }

  function Expire(db: Store, k: Key, ttl: int): Store
    requires IsString(db, k)
  {
    if k in db then db[k := db[k].(ttl := Some(ttl))] else db
  }

  /** kSetIfGenerationLua: the new store and the reply; no reply is a script error, raised before any write. */
  function Single(db: Store, now: Clock, value: Key, generation: Key, expected: Text, v: Text, ttl: Text)
    : (Store, Option<nat>) {
    if !IsString(db, generation) then (db, None)
    else if ToNumber(GetOrZero(db, generation)) != ToNumber(expected) then (db, Some(0))
    else if !TakenAsTtl(ttl, now) then (db, None)
    else (Expire(Set(db, value, v, ttl.n), generation, GENERATION_TTL), Some(1))
  }

  /** The single-entry script run over the first `n` entries in order, adding up the replies. */
  function InOrder(db: Store, now: Clock, keys: seq<Key>, args: seq<Text>, n: nat): Option<(Store, nat)>
    requires 2 * n <= |keys| && 3 * n <= |args|
    decreases n
  {
    if n == 0 then Some((db, 0))
    else
      var before := InOrder(db, now, keys, args, n - 1);
      if before.None? then None
      else
        var (db', reply) := Single(before.value.0, now,
          keys[2 * n - 2], keys[2 * n - 1], args[3 * n - 3], args[3 * n - 2], args[3 * n - 1]);
        if reply.None? then None else Some((db', before.value.1 + reply.value))
  }

  predicate WellShaped(keys: seq<Key>, args: seq<Text>) {
    |keys| % 2 == 0 && |args| == |keys| / 2 * 3
  }

  /** The per-entry check of the validation loop. */
  predicate EntryValid(db: Store, keys: seq<Key>, args: seq<Text>, i: nat)
    requires WellShaped(keys, args) && i < |keys| / 2
  {
    var expected, ttl := args[3 * i], args[3 * i + 2];
    && IsString(db, keys[2 * i]) && IsString(db, keys[2 * i + 1])
    && !GetOrZero(db, keys[2 * i + 1]).Word?
    && !expected.Word? && expected.n >= 0
    && !ttl.Word? && ttl.n > 0
  }

  predicate BatchValid(db: Store, keys: seq<Key>, args: seq<Text>) {
    WellShaped(keys, args) && forall i :: 0 <= i < |keys| / 2 ==> EntryValid(db, keys, args, i)
  }

  class UserInfoStore {
    var db: Store

    method SetIfGeneration(now: Clock, value: Key, generation: Key, expected: Text, v: Text, ttl: Text)
      returns (reply: Option<nat>)
      modifies this
      ensures (db, reply) == Single(old(db), now, value, generation, expected, v, ttl)
    {
      if generation in db && db[generation].OtherType? { return None; }
      var current := GetOrZero(db, generation);
      if ToNumber(current) != ToNumber(expected) { return Some(0); }
      if !TakenAsTtl(ttl, now) { return None; }
      db := Set(db, value, v, ttl.n);
      db := Expire(db, generation, GENERATION_TTL);
      reply := Some(1);
    }

    /** A refused batch changes nothing.  A batch that completes leaves exactly the store and the count of the
        single-entry script run over the entries in order, whatever keys the entries share.  A valid batch stops
        halfway only where the single-entry script would have raised its error. */
    method BatchSetIfGeneration(now: Clock, keys: seq<Key>, args: seq<Text>) returns (reply: BatchReply)
      modifies this
      ensures reply.Refused? <==> !BatchValid(old(db), keys, args)
      ensures reply.Refused? ==> db == old(db)
      ensures reply.Written? ==> InOrder(old(db), now, keys, args, |keys| / 2) == Some((db, reply.count))
      ensures reply.Aborted? ==> AbortsWith(old(db), now, keys, args, db)
    {
      if |keys| % 2 != 0 || |args| != |keys| / 2 * 3 { return Refused; }
      var n := |keys| / 2;
      for i := 0 to n
        invariant db == old(db)
        invariant forall j :: 0 <= j < i ==> EntryValid(db, keys, args, j)
      {
        var expected, ttl := args[3 * i], args[3 * i + 2];
        if !IsString(db, keys[2 * i]) || !IsString(db, keys[2 * i + 1]) {
          assert !EntryValid(db, keys, args, i);
          return Refused;
        }
        var generation := GetOrZero(db, keys[2 * i + 1]);
        if generation.Word? || expected.Word? || expected.n < 0 || ttl.Word? || ttl.n <= 0 {
          assert !EntryValid(db, keys, args, i);
          return Refused;
        }
      }
      var count := 0;
      for i := 0 to n
        invariant InOrder(old(db), now, keys, args, i) == Some((db, count))
        invariant forall k :: IsString(old(db), k) ==> IsString(db, k)
      {
        assert EntryValid(old(db), keys, args, i);
        var generation := GetOrZero(db, keys[2 * i + 1]);
        if ToNumber(generation) == ToNumber(args[3 * i]) {
          var ttl := args[3 * i + 2];
          if !TakenAsTtl(ttl, now) {
            assert AbortsAt(old(db), now, keys, args, i, db);
            return Aborted;
          }
          db := Set(db, keys[2 * i], args[3 * i + 1], ttl.n);
          db := Expire(db, keys[2 * i + 1], GENERATION_TTL);
          count := count + 1;
        }
      }
      reply := Written(count);
    }
  }

  datatype BatchReply = Refused | Written(count: nat) | Aborted

  /** The single-entry script gets through some entries, leaving `db'`, and raises an error at the next. */
  predicate AbortsWith(db: Store, now: Clock, keys: seq<Key>, args: seq<Text>, db': Store)
    requires WellShaped(keys, args)
  {
    exists i :: 0 <= i < |keys| / 2 && AbortsAt(db, now, keys, args, i, db')
  }

  predicate AbortsAt(db: Store, now: Clock, keys: seq<Key>, args: seq<Text>, i: nat, db': Store)
    requires WellShaped(keys, args) && i < |keys| / 2
  {
    var done := InOrder(db, now, keys, args, i);
    done.Some? && done.value.0 == db' && InOrder(db, now, keys, args, i + 1).None?
  }

  /** Entry `i` would be written when its turn comes. */
  predicate Matches(db: Store, now: Clock, keys: seq<Key>, args: seq<Text>, i: nat)
    requires WellShaped(keys, args) && i < |keys| / 2
  {
    var done := InOrder(db, now, keys, args, i);
    done.Some? && IsString(done.value.0, keys[2 * i + 1]) &&
    ToNumber(GetOrZero(done.value.0, keys[2 * i + 1])) == ToNumber(args[3 * i])
  }

  /** If the turn of entry `i` comes and it is to be written, SET takes its time to live. */
  predicate TakenIfWritten(db: Store, now: Clock, keys: seq<Key>, args: seq<Text>, i: nat)
    requires WellShaped(keys, args) && i < |keys| / 2
  {
    Matches(db, now, keys, args, i) ==> TakenAsTtl(args[3 * i + 2], now)
  }

  /** A valid batch runs to its end exactly when SET takes the time to live of every entry that is to be written: a
      plain decimal number within the 64-bit deadline, as the callers' std::to_string of a few hours always is. */
  lemma {:induction false} CompletesExactly(db: Store, now: Clock, keys: seq<Key>, args: seq<Text>, n: nat)
    requires BatchValid(db, keys, args) && n <= |keys| / 2
    ensures InOrder(db, now, keys, args, n).Some? <==> forall i :: 0 <= i < n ==> TakenIfWritten(db, now, keys, args, i)
    ensures InOrder(db, now, keys, args, n).Some? ==>
      forall k :: IsString(db, k) ==> IsString(InOrder(db, now, keys, args, n).value.0, k)
  {
    if n > 0 {
      CompletesExactly(db, now, keys, args, n - 1);
      assert EntryValid(db, keys, args, n - 1);
      assert InOrder(db, now, keys, args, n - 1).Some? ==>
        (InOrder(db, now, keys, args, n).Some? <==> TakenIfWritten(db, now, keys, args, n - 1));
    }
  }

  /** So validation does prevent partial fills where all times to live are plain numbers whose deadline is in range. */
  lemma PlainBatchesComplete(db: Store, now: Clock, keys: seq<Key>, args: seq<Text>)
    requires BatchValid(db, keys, args)
    requires forall i :: 0 <= i < |keys| / 2 ==> args[3 * i + 2].Number? && 1000 * args[3 * i + 2].n + now <= LLONG_MAX
    ensures InOrder(db, now, keys, args, |keys| / 2).Some?
  {
    forall i | 0 <= i < |keys| / 2
      ensures TakenIfWritten(db, now, keys, args, i)
    {
      assert EntryValid(db, keys, args, i);
    }
    CompletesExactly(db, now, keys, args, |keys| / 2);
  }

  /** Otherwise validation does not prevent a partial fill.  Whatever positive number SET does not take as a time to
      live, validation lets it through: the first entry is written and the second raises the error. */
  lemma RefusedTtlFillsHalfway(now: Clock, a: Key, b: Key, ga: Key, gb: Key, ttl: Text)
    requires a != b && a != ga && a != gb && b != ga && b != gb
    requires !ttl.Word? && ttl.n > 0 && !TakenAsTtl(ttl, now)
    ensures var keys, args := [a, ga, b, gb], [Number(0), Word("x"), Number(60), Number(0), Word("y"), ttl];
      BatchValid(map[], keys, args) && AbortsWith(map[], now, keys, args, map[a := Str(Word("x"), Some(60))])
  {
    var keys, args := [a, ga, b, gb], [Number(0), Word("x"), Number(60), Number(0), Word("y"), ttl];
    var db: Store := map[];
    assert InOrder(db, now, keys, args, 0) == Some((db, 0));
    assert Single(db, now, a, ga, Number(0), Word("x"), Number(60)) == (map[a := Str(Word("x"), Some(60))], Some(1));
    assert InOrder(db, now, keys, args, 1) == Some((map[a := Str(Word("x"), Some(60))], 1));
    assert InOrder(db, now, keys, args, 2).None?;
    assert AbortsAt(db, now, keys, args, 1, map[a := Str(Word("x"), Some(60))]);
  }

  /** A spelling such as 6e1, and a plain number beyond the range, both do. */
  lemma LooseAndHugeTtlsAreRefused(now: Clock)
    ensures !TakenAsTtl(Loose(60), now) && !TakenAsTtl(Number(LLONG_MAX), now)
  {
  }

  /** What the first `n` entries leave in key `k`: an entry that matches puts its text there with its own lifetime, and
      gives its generation key, if there is one, a week. */
  function LeftIn(db: Store, now: Clock, keys: seq<Key>, args: seq<Text>, n: nat, k: Key): Option<Value>
    requires WellShaped(keys, args) && n <= |keys| / 2
  {
    if n == 0 then (if k in db then Some(db[k]) else None)
    else
      var before := LeftIn(db, now, keys, args, n - 1, k);
      if !Matches(db, now, keys, args, n - 1) then before
      else
        var stored := if keys[2 * n - 2] != k || args[3 * n - 1].Word? then before
                      else Some(Str(args[3 * n - 2], Some(args[3 * n - 1].n)));
        if keys[2 * n - 1] != k || stored.None? || stored.value.OtherType? then stored
        else Some(stored.value.(ttl := Some(604800)))
  }

  /** How many of the first `n` entries match. */
  function Matching(db: Store, now: Clock, keys: seq<Key>, args: seq<Text>, n: nat): nat
    requires WellShaped(keys, args) && n <= |keys| / 2
  {
    if n == 0 then 0
    else Matching(db, now, keys, args, n - 1) + (if Matches(db, now, keys, args, n - 1) then 1 else 0)
  }

  /** A batch that completes counts the entries that match, and leaves each key as the last of them that touched it. */
  lemma {:induction false} EachKeyHasLastMatch(db: Store, now: Clock, keys: seq<Key>, args: seq<Text>, n: nat, k: Key)
    requires BatchValid(db, keys, args) && n <= |keys| / 2 && InOrder(db, now, keys, args, n).Some?
    ensures var (db', count) := InOrder(db, now, keys, args, n).value;
      count == Matching(db, now, keys, args, n) &&
      LeftIn(db, now, keys, args, n, k) == if k in db' then Some(db'[k]) else None
  {
    if n > 0 {
      EachKeyHasLastMatch(db, now, keys, args, n - 1, k);
      CompletesExactly(db, now, keys, args, n - 1);
      assert EntryValid(db, keys, args, n - 1);
    }
  }
}
