/** The unacked-push ledger (UnackedPush in common/dao/data_redis.hpp): a ZSET of
    due times and a HASH of payloads kept as twin indexes by four Lua scripts,
    with a persisted HSCAN cursor for repairing the HASH.  Each script is one
    atomic step at a given time; keys past their deadline are gone before it. */
module UnackedLedger {
  import opened Wrappers

  type UserSeq = nat
  type Payload = string

  datatype Deadline = Never | At(ms: int)

  /** A Redis key that should hold a collection: missing, a non-empty collection, or of another type. */
  datatype Key<T> = Absent | Holds(items: map<UserSeq, T>, end: Deadline) | WrongType(end: Deadline)

  /** The repair key: missing, not a decimal string, or a scan position. */
  datatype Cursor = NoCursor | BadCursor(end: Deadline) | CursorAt(position: nat, end: Deadline)

  datatype Ledger = Ledger(z: Key<int>, h: Key<Payload>, cursor: Cursor)

  datatype Entry = Entry(score: int, payload: Payload)

  /** Redis has no empty collections. */
  predicate Proper(l: Ledger) {
    (l.z.Holds? ==> l.z.items != map[]) && (l.h.Holds? ==> l.h.items != map[])
  }

  const ORPHAN_CURSOR_MS := 300000

  // ----- Redis commands on one key -----

  function Items<T>(k: Key<T>): map<UserSeq, T> {
    if k.Holds? then k.items else map[]
  }

  function Make<T>(items: map<UserSeq, T>, end: Deadline): Key<T> {
    if items == map[] then Absent else Holds(items, end)
  }

  /** ZADD or HSET of one member: an existing key keeps its deadline, a new one has none. */
  function Put<T>(k: Key<T>, s: UserSeq, v: T): Key<T> {
    Holds(Items(k)[s := v], if k.Holds? then k.end else Never)
  }

  /** ZREM or HDEL: a key whose last member goes is gone. */
  function Drop<T>(k: Key<T>, gone: set<UserSeq>): Key<T> {
    if k.Holds? then Make(k.items - gone, k.end) else k
  }

  /** EXPIRE: no effect on a missing key. */
  function Expire<T>(k: Key<T>, end: Deadline): Key<T> {
    if k.Absent? then k else k.(end := end)
  }

  predicate Passed(d: Deadline, now: int) {
    d.At? && now > d.ms
  }

  function PurgeKey<T>(k: Key<T>, now: int): Key<T> {
    if !k.Absent? && Passed(k.end, now) then Absent else k
  }

  function PurgeCursor(c: Cursor, now: int): Cursor {
    if !c.NoCursor? && Passed(c.end, now) then NoCursor else c
  }

  /** What a script that starts at `now` sees. */
  function Purge(l: Ledger, now: int): Ledger {
    Ledger(PurgeKey(l.z, now), PurgeKey(l.h, now), PurgeCursor(l.cursor, now))
  }

  predicate RightTypes(l: Ledger) {
    !l.z.WrongType? && !l.h.WrongType?
  }

  // ----- The scripts -----

  /** Replies of the two commands whose choice belongs to Redis: HSCAN from the
      stored cursor (`rejected` when that cursor is refused and the scan restarts
      at 0), and ZRANGEBYSCORE, which orders equal scores as it likes. */
  datatype Scan = Scan(rejected: bool, next: nat, fields: seq<UserSeq>)

  predicate ScanOf(h: Key<Payload>, scan: Scan) {
    && (forall f :: f in scan.fields ==> f in Items(h))
    && (h.Absent? ==> scan.next == 0)
  }

  predicate DueOf(z: Key<int>, cutoff: int, limit: int, due: seq<UserSeq>) {
    && (forall i :: 0 <= i < |due| ==> due[i] in Items(z) && Items(z)[due[i]] <= cutoff)
    && (forall i, j :: 0 <= i < j < |due| ==> due[i] != due[j] && Items(z)[due[i]] <= Items(z)[due[j]])
    && |due| <= limit
    && (forall s :: s in Items(z) && Items(z)[s] <= cutoff && s !in due ==>
          |due| == limit && forall i :: 0 <= i < |due| ==> Items(z)[due[i]] <= Items(z)[s])
  }

  /** A time to live as the scripts get it: whole seconds that EXPIRE takes, or another number, such as a fraction or
      one out of range, which the scripts' own checks let through if it is positive. */
  datatype Ttl = Seconds(n: int) | Odd(positive: bool)

  predicate Positive(ttl: Ttl) {
    if ttl.Seconds? then ttl.n > 0 else ttl.positive
  }

  datatype Op =
    | Push(now: int, score: int, seqno: UserSeq, payload: Payload, ttl: Ttl)
    | Ack(now: int, seqno: UserSeq)
    | Peek(now: int, cutoff: int, limit: int, scan: Scan, due: seq<UserSeq>)
    | Bump(now: int, ttl: Ttl, score: int, seqnos: seq<UserSeq>)

  /** The argument and type checks at the head of the scripts. */
  predicate Accepted(l: Ledger, op: Op) {
    RightTypes(Purge(l, op.now)) &&
    (op.Push? ==> Positive(op.ttl)) && (op.Bump? ==> Positive(op.ttl)) && (op.Peek? ==> op.limit > 0)
  }

  /** The replies inside the operation are ones Redis can give on this ledger. */
  predicate Plausible(l: Ledger, op: Op) {
    op.Peek? && Accepted(l, op) ==>
      ScanOf(Purge(l, op.now).h, op.scan) && DueOf(Purge(l, op.now).z, op.cutoff, op.limit, op.due)
  }

  /** EXPIRE raises an error on an odd time to live, which ends the script where it stands. */
  function Pushed(l: Ledger, now: int, score: int, s: UserSeq, p: Payload, ttl: Ttl): Ledger {
    var z, h := Put(l.z, s, score), Put(l.h, s, p);
    if ttl.Odd? then Ledger(z, h, l.cursor)
    else Ledger(Expire(z, At(now + 1000 * ttl.n)), Expire(h, At(now + 1000 * ttl.n)), NoCursor)
  }

  function Acked(l: Ledger, s: UserSeq): Ledger {
    Ledger(Drop(l.z, {s}), Drop(l.h, {s}), NoCursor)
  }

  /** The position HSCAN is resumed from. */
  function CursorIn(l: Ledger, scan: Scan): nat {
    if l.cursor.CursorAt? && !scan.rejected then l.cursor.position else 0
  }

  function StoredCursor(h: Key<Payload>, now: int, next: nat): Cursor {
    if next == 0 || h.Absent? then NoCursor
    else match h.end
      case Never => CursorAt(next, At(now + ORPHAN_CURSOR_MS))
      case At(ms) => if ms > now then CursorAt(next, At(ms)) else NoCursor
  }

  function Peeked(l: Ledger, now: int, scan: Scan, due: seq<UserSeq>): Ledger {
    var z := Drop(l.z, set s | s in due && s !in Items(l.h));
    var h := Drop(l.h, set f | f in scan.fields && f !in Items(z));
    Ledger(z, h, StoredCursor(h, now, scan.next))
  }

  function PeekResult(h: map<UserSeq, Payload>, due: seq<UserSeq>): seq<(UserSeq, Payload)> {
    if due == [] then []
    else
      var s := due[|due| - 1];
      PeekResult(h, due[..|due| - 1]) + (if s in h then [(s, h[s])] else [])
  }

  /** The score index after the loop of the bump script. */
  function Rescored(z: map<UserSeq, int>, h: map<UserSeq, Payload>, score: int,
                    seqnos: seq<UserSeq>): map<UserSeq, int> {
    map s | s in z && !(s in seqnos && s !in h) :: if s in seqnos then score else z[s]
  }

  function BumpCount(l: Ledger, seqnos: seq<UserSeq>): nat {
    if seqnos == [] then 0
    else BumpCount(l, seqnos[..|seqnos| - 1]) + (if seqnos[|seqnos| - 1] in Live(l) then 1 else 0)
  }

  function Bumped(l: Ledger, now: int, ttl: Ttl, score: int, seqnos: seq<UserSeq>): Ledger {
    var z := if l.z.Holds? then Make(Rescored(l.z.items, Items(l.h), score, seqnos), l.z.end) else l.z;
    if ttl.Odd? then l.(z := z)
    else
      var end := At(now + 1000 * ttl.n);
      Ledger(Expire(z, end), Expire(l.h, end), if l.cursor.NoCursor? then NoCursor else l.cursor.(end := end))
  }

  /** The effect of one script; a refused script changes nothing. */
  function Apply(l: Ledger, op: Op): Ledger {
    var l := Purge(l, op.now);
    if !Accepted(l, op) then l
    else match op
      case Push(now, score, s, p, ttl) => Pushed(l, now, score, s, p, ttl)
      case Ack(_, s) => Acked(l, s)
      case Peek(now, _, _, scan, due) => Peeked(l, now, scan, due)
      case Bump(now, ttl, score, seqnos) => Bumped(l, now, ttl, score, seqnos)
  }

  /** The simple map the two indexes stand for: entries present in both. */
  function Live(l: Ledger): map<UserSeq, Entry> {
    map s | s in Items(l.z) && s in Items(l.h) :: Entry(Items(l.z)[s], Items(l.h)[s])
  }

  // ----- The scripts as they are written -----

  class UnackedPush {
    var z: Key<int>
    var h: Key<Payload>
    var cursor: Cursor

    ghost function View(): Ledger
      reads this
    {
      Ledger(z, h, cursor)
    }

    /** Redis drops keys past their deadline before the script looks at them. */
    method Begin(now: int)
      modifies this
      ensures View() == Purge(old(View()), now)
    {
      z, h, cursor := PurgeKey(z, now), PurgeKey(h, now), PurgeCursor(cursor, now);
    }

    method PushScript(now: int, score: int, seqno: UserSeq, payload: Payload, ttl: Ttl) returns (ok: bool)
      requires Proper(View())
      modifies this
      ensures View() == Apply(old(View()), Push(now, score, seqno, payload, ttl)) && Proper(View())
      ensures ok == (ttl.Seconds? && Accepted(old(View()), Push(now, score, seqno, payload, ttl)))
    {
      Begin(now);
      if !Positive(ttl) || z.WrongType? || h.WrongType? { return false; }
      z := Put(z, seqno, score);
      h := Put(h, seqno, payload);
      assert seqno in Items(z) && seqno in Items(h);
      if ttl.Odd? { return false; }
      z := Expire(z, At(now + 1000 * ttl.n));
      h := Expire(h, At(now + 1000 * ttl.n));
      cursor := NoCursor;
      ok := true;
    }

    method AckScript(now: int, seqno: UserSeq) returns (ok: bool, removed: nat)
      requires Proper(View())
      modifies this
      ensures View() == Apply(old(View()), Ack(now, seqno)) && Proper(View())
      ensures ok == Accepted(old(View()), Ack(now, seqno))
      ensures ok ==> removed == (if seqno in Items(Purge(old(View()), now).z) then 1 else 0)
                              + (if seqno in Items(Purge(old(View()), now).h) then 1 else 0)
    {
      Begin(now);
      removed := 0;
      if z.WrongType? || h.WrongType? { return false, 0; }
      if seqno in Items(z) { removed := removed + 1; }
      z := Drop(z, {seqno});
      if seqno in Items(h) { removed := removed + 1; }
      h := Drop(h, {seqno});
      cursor := NoCursor;
      ok := true;
    }

    /** The loop over the due members. */
    method CollectDue(due: seq<UserSeq>) returns (result: seq<(UserSeq, Payload)>)
      requires Proper(View())
      modifies this`z
      ensures result == PeekResult(Items(h), due)
      ensures z == Drop(old(z), set s | s in due && s !in Items(h))
    {
      result := [];
      assert z.Holds? ==> z.items - {} == z.items;
      for i := 0 to |due|
        invariant h == old(h) && result == PeekResult(Items(h), due[..i])
        invariant z == Drop(old(z), set s | s in due[..i] && s !in Items(h))
      {
        assert due[..i + 1][..i] == due[..i];
        DropMore(old(z), due, i, Items(h));
        if due[i] in Items(h) {
          result := result + [(due[i], Items(h)[due[i]])];
        } else {
          z := Drop(z, {due[i]});
        }
      }
      assert due[..|due|] == due;
    }

    /** The loop over the scanned fields. */
    method DropOrphans(fields: seq<UserSeq>)
      requires Proper(View())
      modifies this`h
      ensures h == Drop(old(h), set f | f in fields && f !in Items(z))
    {
      assert h.Holds? ==> h.items - {} == h.items;
      for i := 0 to |fields|
        invariant z == old(z)
        invariant h == Drop(old(h), set f | f in fields[..i] && f !in Items(z))
      {
        DropMore(old(h), fields, i, Items(z));
        if fields[i] !in Items(z) { h := Drop(h, {fields[i]}); }
      }
      assert fields[..|fields|] == fields;
    }

    method PeekScript(now: int, cutoff: int, limit: int, scan: Scan, due: seq<UserSeq>)
      returns (ok: bool, result: seq<(UserSeq, Payload)>)
      requires Proper(View()) && Plausible(View(), Peek(now, cutoff, limit, scan, due))
      modifies this
      ensures View() == Apply(old(View()), Peek(now, cutoff, limit, scan, due)) && Proper(View())
      ensures ok == Accepted(old(View()), Peek(now, cutoff, limit, scan, due))
      ensures result == if ok then PeekResult(Items(Purge(old(View()), now).h), due) else []
    {
      Begin(now);
      if limit <= 0 || z.WrongType? || h.WrongType? { return false, []; }
      if cursor.BadCursor? || scan.rejected { cursor := NoCursor; }
      result := CollectDue(due);
      DropOrphans(scan.fields);
      cursor := StoredCursor(h, now, scan.next);
      ok := true;
    }

    method BumpScript(now: int, ttl: Ttl, score: int, seqnos: seq<UserSeq>) returns (ok: bool, updated: nat)
      requires Proper(View())
      modifies this
      ensures View() == Apply(old(View()), Bump(now, ttl, score, seqnos)) && Proper(View())
      ensures ok == (ttl.Seconds? && Accepted(old(View()), Bump(now, ttl, score, seqnos)))
      ensures ok ==> updated == BumpCount(Purge(old(View()), now), seqnos)
    {
      Begin(now);
      updated := 0;
      if !Positive(ttl) || z.WrongType? || h.WrongType? { return false, 0; }
      ghost var l0 := View();
      assert l0.z.Holds? ==> Rescored(l0.z.items, Items(h), score, []) == l0.z.items;
      for i := 0 to |seqnos|
        invariant h == l0.h && cursor == l0.cursor && updated == BumpCount(l0, seqnos[..i])
        invariant z == if l0.z.Holds? then Make(Rescored(l0.z.items, Items(h), score, seqnos[..i]), l0.z.end) else l0.z
      {
        assert seqnos[..i + 1][..i] == seqnos[..i];
        if seqnos[i] in Items(h) {
          if seqnos[i] in Items(z) {
            z := Put(z, seqnos[i], score);
            updated := updated + 1;
          }
        } else {
          z := Drop(z, {seqnos[i]});
        }
        if l0.z.Holds? { RescoreMore(l0.z.items, Items(h), score, seqnos, i); }
      }
      assert seqnos[..|seqnos|] == seqnos;
      if ttl.Odd? { return false, updated; }
      z := Expire(z, At(now + 1000 * ttl.n));
      h := Expire(h, At(now + 1000 * ttl.n));
      if !cursor.NoCursor? { cursor := cursor.(end := At(now + 1000 * ttl.n)); }
      ok := true;
    }
  }

  /** Dropping one more member at a time drops them all. */
  lemma DropMore<T, U>(k: Key<T>, xs: seq<UserSeq>, i: nat, keep: map<UserSeq, U>)
    requires i < |xs|
    ensures var gone := set s | s in xs[..i] && s !in keep;
      Drop(k, set s | s in xs[..i + 1] && s !in keep)
      == if xs[i] in keep then Drop(k, gone) else Drop(Drop(k, gone), {xs[i]})
  {
    var gone := set s | s in xs[..i] && s !in keep;
    var more := set s | s in xs[..i + 1] && s !in keep;
    assert more == if xs[i] in keep then gone else gone + {xs[i]};
    if k.Holds? {
      assert k.items - (gone + {xs[i]}) == (k.items - gone) - {xs[i]};
    }
  }

  lemma RescoreMore(z: map<UserSeq, int>, h: map<UserSeq, Payload>, score: int, xs: seq<UserSeq>, i: nat)
    requires i < |xs|
    ensures var m := Rescored(z, h, score, xs[..i]);
      Rescored(z, h, score, xs[..i + 1])
      == if xs[i] !in h then m - {xs[i]} else if xs[i] in m then m[xs[i] := score] else m
  {
    assert forall s :: s in xs[..i + 1] <==> s in xs[..i] || s == xs[i];
  }

  // ----- Refinement: the two indexes behave as one map -----

  /** Either index has passed its deadline by `now`. */
  predicate Lapses(l: Ledger, now: int) {
    (!l.z.Absent? && Passed(l.z.end, now)) || (!l.h.Absent? && Passed(l.h.end, now))
  }

  /** The same operation on the simple map. */
  function MapStep(m: map<UserSeq, Entry>, op: Op): map<UserSeq, Entry> {
    match op
    case Push(_, score, s, p, _) => m[s := Entry(score, p)]
    case Ack(_, s) => m - {s}
    case Peek(_, _, _, _, _) => m
    case Bump(_, _, score, seqnos) =>
      map s | s in m :: if s in seqnos then m[s].(score := score) else m[s]
  }

  lemma PurgeRefines(l: Ledger, now: int)
    ensures Live(Purge(l, now)) == if Lapses(l, now) then map[] else Live(l)
  {
  }

  lemma BumpRefines(l: Ledger, op: Op)
    requires op.Bump? && RightTypes(l) && Proper(l)
    ensures Live(Bumped(l, op.now, op.ttl, op.score, op.seqnos)) == MapStep(Live(l), op)
  {
  }

  lemma PeekRefines(l: Ledger, op: Op)
    requires op.Peek?
    ensures Live(Peeked(l, op.now, op.scan, op.due)) == Live(l)
  {
  }

  lemma PushRefines(l: Ledger, op: Op)
    requires op.Push? && RightTypes(l)
    ensures Live(Pushed(l, op.now, op.score, op.seqno, op.payload, op.ttl)) == MapStep(Live(l), op)
  {
  }

  /** From any ledger whatever, orphans included: every script refines its map operation,
      so peek and bump neither drop nor revive an entry. */
  lemma ScriptRefines(l: Ledger, op: Op)
    requires Proper(l)
    ensures Live(Apply(l, op)) ==
      var m := if Lapses(l, op.now) then map[] else Live(l);
      if Accepted(l, op) then MapStep(m, op) else m
  {
    PurgeRefines(l, op.now);
    var q := Purge(l, op.now);
    assert Purge(q, op.now) == q;
    if Accepted(l, op) {
      match op
      case Push(_, _, _, _, _) => PushRefines(q, op);
      case Ack(_, _) =>
      case Peek(_, _, _, _, _) => PeekRefines(q, op);
      case Bump(_, _, _, _) => BumpRefines(q, op);
    }
  }

  lemma StaysProper(l: Ledger, op: Op)
    requires Proper(l)
    ensures Proper(Apply(l, op))
  {
    var q := Purge(l, op.now);
    if op.Push? {
      assert op.seqno in Items(q.z)[op.seqno := op.score] && op.seqno in Items(q.h)[op.seqno := op.payload];
    }
  }

  /** What the history says last about a sequence number. */
  datatype Word = Unspoken | Gone | Kept(payload: Payload)

  /** A run: `ls[i + 1]` is the ledger after script `i`. */
  predicate IsRun(ls: seq<Ledger>, ops: seq<Op>) {
    |ls| == |ops| + 1 && Proper(ls[0]) &&
    forall i :: 0 <= i < |ops| ==> Plausible(ls[i], ops[i]) && ls[i + 1] == Apply(ls[i], ops[i])
  }

  /** What one script says about a sequence number: accepted pushes and acks, and lapses. */
  function Said(l: Ledger, op: Op, s: UserSeq): Word {
    if Accepted(l, op) && op.Push? && op.seqno == s then Kept(op.payload)
    else if (Accepted(l, op) && op.Ack? && op.seqno == s) || Lapses(l, op.now) then Gone
    else Unspoken
  }

  /** What the history says last. */
  function LastWord(ls: seq<Ledger>, ops: seq<Op>, s: UserSeq): Word
    requires |ls| == |ops| + 1
  {
    if ops == [] then Unspoken
    else
      var n := |ops| - 1;
      if Said(ls[n], ops[n], s) != Unspoken then Said(ls[n], ops[n], s) else LastWord(ls[..n + 1], ops[..n], s)
  }

  /** A word about an entry, or how it was before if there is none. */
  predicate Means(w: Word, p: Payload, before: bool) {
    match w
    case Kept(q) => p == q
    case Gone => false
    case Unspoken => before
  }

  predicate LiveWith(l: Ledger, s: UserSeq, p: Payload) {
    s in Live(l) && Live(l)[s].payload == p
  }

  /** What one script says about an entry. */
  lemma ScriptTells(l: Ledger, op: Op, s: UserSeq, p: Payload)
    requires Proper(l)
    ensures LiveWith(Apply(l, op), s, p) <==> Means(Said(l, op, s), p, LiveWith(l, s, p))
  {
    ScriptRefines(l, op);
  }

  lemma {:induction false} RunStaysProper(ls: seq<Ledger>, ops: seq<Op>, i: nat)
    requires IsRun(ls, ops) && i < |ls|
    ensures Proper(ls[i])
  {
    if i > 0 {
      RunStaysProper(ls, ops, i - 1);
      assert ls[i - 1 + 1] == Apply(ls[i - 1], ops[i - 1]);
      StaysProper(ls[i - 1], ops[i - 1]);
    }
  }

  /** Over every run from any ledger: an entry is live exactly when it was pushed, or was
      live at the start, and has not been acked (nor lapsed) since; its payload is that of its last push. */
  lemma {:induction false} LiveIsLastWord(ls: seq<Ledger>, ops: seq<Op>, s: UserSeq, p: Payload)
    requires IsRun(ls, ops)
    ensures LiveWith(ls[|ops|], s, p) <==> Means(LastWord(ls, ops, s), p, LiveWith(ls[0], s, p))
  {
    if ops != [] {
      var n := |ops| - 1;
      LiveIsLastWord(ls[..n + 1], ops[..n], s, p);
      assert ls[n + 1] == Apply(ls[n], ops[n]);
      RunStaysProper(ls, ops, n);
      ScriptTells(ls[n], ops[n], s, p);
    }
  }

  lemma {:induction false} PeekResultIs(h: map<UserSeq, Payload>, due: seq<UserSeq>, s: UserSeq, p: Payload)
    ensures (s, p) in PeekResult(h, due) <==> s in due && s in h && h[s] == p
  {
    if due != [] { PeekResultIs(h, due[..|due| - 1], s, p); }
  }

  /** A peek returns exactly the live entries among the members Redis found due: each with its
      current payload; and it misses a live due entry only when it already returned or repaired `limit` members. */
  lemma PeekReturnsLiveDue(l: Ledger, op: Op, s: UserSeq, p: Payload)
    requires op.Peek? && Accepted(l, op) && Plausible(l, op)
    ensures var m := Live(Purge(l, op.now));
      var r := PeekResult(Items(Purge(l, op.now).h), op.due);
      && ((s, p) in r ==> s in m && m[s].payload == p && m[s].score <= op.cutoff)
      && (s in m && m[s].score <= op.cutoff && m[s].payload == p && (s, p) !in r ==>
            |op.due| == op.limit && forall t :: t in op.due ==> Items(Purge(l, op.now).z)[t] <= m[s].score)
  {
    PeekResultIs(Items(Purge(l, op.now).h), op.due, s, p);
  }

  // ----- Deadlines and orphans -----

  /** Both keys missing, or the same members under the same deadline. */
  predicate Paired(l: Ledger) {
    (l.z.Absent? && l.h.Absent?) ||
    (l.z.Holds? && l.h.Holds? && l.z.items.Keys == l.h.items.Keys && l.z.end == l.h.end)
  }

  /** The repair cursor never outlives the hash it describes. */
  predicate CursorWithin(l: Ledger) {
    l.cursor.NoCursor? ||
    (l.h.Holds? && (l.h.end.Never? || (l.cursor.end.At? && l.cursor.end.ms <= l.h.end.ms)))
  }

  lemma BumpKeepsPaired(l: Ledger, op: Op)
    requires op.Bump? && Paired(l) && Proper(l)
    ensures Paired(Bumped(l, op.now, op.ttl, op.score, op.seqnos))
  {
    if l.z.Holds? {
      assert Rescored(l.z.items, l.h.items, op.score, op.seqnos).Keys == l.z.items.Keys;
      assert Rescored(l.z.items, l.h.items, op.score, op.seqnos) != map[] by {
        var s :| s in l.z.items;
        assert s in Rescored(l.z.items, l.h.items, op.score, op.seqnos);
      }
    }
  }

  lemma PeekKeepsPaired(l: Ledger, op: Op)
    requires op.Peek? && Paired(l) && Proper(l) && ScanOf(l.h, op.scan) && DueOf(l.z, op.cutoff, op.limit, op.due)
    ensures var l' := Peeked(l, op.now, op.scan, op.due); l'.z == l.z && l'.h == l.h
  {
    if l.z.Holds? {
      assert (set s | s in op.due && s !in Items(l.h)) == {};
      assert l.z.items - {} == l.z.items;
      assert (set f | f in op.scan.fields && f !in Items(l.z)) == {};
      assert l.h.items - {} == l.h.items;
    }
  }

  lemma StepKeepsPaired(l: Ledger, op: Op)
    requires Proper(l) && Paired(l) && Plausible(l, op)
    ensures Paired(Apply(l, op))
  {
    var q := Purge(l, op.now);
    assert Purge(q, op.now) == q;
    if Accepted(l, op) {
      match op
      case Push(_, _, _, _, _) =>
      case Ack(_, s) => if q.z.Holds? { assert (q.z.items - {s}).Keys == (q.h.items - {s}).Keys; }
      case Peek(_, _, _, _, _) => PeekKeepsPaired(q, op);
      case Bump(_, _, _, _) => BumpKeepsPaired(q, op);
    }
  }

  lemma StepKeepsCursorWithin(l: Ledger, op: Op)
    requires CursorWithin(l)
    ensures CursorWithin(Apply(l, op))
  {
  }

  /** From an empty ledger, at every point of every run: no orphan in either index, equal
      deadlines, and a cursor only while its hash lasts. */
  lemma {:induction false} NoOrphansEver(ls: seq<Ledger>, ops: seq<Op>, i: nat)
    requires IsRun(ls, ops) && ls[0] == Ledger(Absent, Absent, NoCursor) && i < |ls|
    ensures Proper(ls[i]) && Paired(ls[i]) && CursorWithin(ls[i])
    ensures Items(ls[i].z).Keys == Items(ls[i].h).Keys == Live(ls[i]).Keys
    ensures ls[i].z.Holds? && ls[i].h.Holds? ==> ls[i].z.end == ls[i].h.end
  {
    if i > 0 {
      NoOrphansEver(ls, ops, i - 1);
      assert ls[i - 1 + 1] == Apply(ls[i - 1], ops[i - 1]);
      StaysProper(ls[i - 1], ops[i - 1]);
      StepKeepsPaired(ls[i - 1], ops[i - 1]);
      StepKeepsCursorWithin(ls[i - 1], ops[i - 1]);
    }
  }

  /** From an empty ledger, at every point of every run, a script is refused for its own arguments only: a push or bump
      without a positive time to live, or a peek without a positive limit. */
  lemma RefusedForArgumentsOnly(ls: seq<Ledger>, ops: seq<Op>, i: nat)
    requires IsRun(ls, ops) && ls[0] == Ledger(Absent, Absent, NoCursor) && i < |ops|
    ensures Accepted(ls[i], ops[i]) <==>
      match ops[i]
      case Push(_, _, _, _, ttl) => (ttl.Seconds? && ttl.n >= 1) || (ttl.Odd? && ttl.positive)
      case Bump(_, ttl, _, _) => (ttl.Seconds? && ttl.n >= 1) || (ttl.Odd? && ttl.positive)
      case Peek(_, _, limit, _, _) => limit >= 1
      case Ack(_, _) => true
  {
    NoOrphansEver(ls, ops, i);
  }

  /** The reply of a bump is the number of listed entries that are live. */
  lemma {:induction false} BumpCountsLive(l: Ledger, seqnos: seq<UserSeq>)
    ensures BumpCount(l, seqnos) == |set i | 0 <= i < |seqnos| && seqnos[i] in Live(l)|
  {
    var all := set i | 0 <= i < |seqnos| && seqnos[i] in Live(l);
    if seqnos == [] {
      assert all == {};
    } else {
      var n := |seqnos| - 1;
      var before := set i | 0 <= i < n && seqnos[..n][i] in Live(l);
      BumpCountsLive(l, seqnos[..n]);
      assert before == set i | 0 <= i < |seqnos[..n]| && seqnos[..n][i] in Live(l);
      assert all == if seqnos[n] in Live(l) then before + {n} else before;
    }
  }

  /** A push whose time to live EXPIRE refuses still stores its entry; on an empty ledger without any deadline. */
  lemma OddPushNeverLapses(now: int, score: int, s: UserSeq, p: Payload, later: int)
    ensures var l := Apply(Ledger(Absent, Absent, NoCursor), Push(now, score, s, p, Odd(true)));
      l.z.end == l.h.end == Never && LiveWith(l, s, p) && !Lapses(l, later)
  {
    ScriptTells(Ledger(Absent, Absent, NoCursor), Push(now, score, s, p, Odd(true)), s, p);
  }

  // ----- From an empty ledger the operations alone tell -----

  /** The deadline of both indexes, if they exist: that of the last push or bump with valid arguments. */
  function DeadlineAfter(ops: seq<Op>): Deadline {
    if ops == [] then Never
    else
      var op := ops[|ops| - 1];
      if (op.Push? || op.Bump?) && op.ttl.Seconds? && op.ttl.n > 0 then At(op.now + 1000 * op.ttl.n)
      else DeadlineAfter(ops[..|ops| - 1])
  }

  /** What one operation says about a sequence number under a common deadline `d`. */
  function SaysAlone(op: Op, d: Deadline, s: UserSeq): Word {
    if op.Push? && Positive(op.ttl) && op.seqno == s then Kept(op.payload)
    else if (op.Ack? && op.seqno == s) || Passed(d, op.now) then Gone
    else Unspoken
  }

  /** What the operations say last. */
  function ToldLast(ops: seq<Op>, s: UserSeq): Word {
    if ops == [] then Unspoken
    else
      var n := |ops| - 1;
      var word := SaysAlone(ops[n], DeadlineAfter(ops[..n]), s);
      if word != Unspoken then word else ToldLast(ops[..n], s)
  }

  /** On a paired ledger with that deadline, an operation says by itself what it says with the ledger in view. */
  lemma SaysTheSame(l: Ledger, op: Op, d: Deadline, s: UserSeq, p: Payload)
    requires Paired(l) && (l.z.Holds? ==> l.z.end == d)
    ensures Means(Said(l, op, s), p, LiveWith(l, s, p)) <==> Means(SaysAlone(op, d, s), p, LiveWith(l, s, p))
  {
  }

  lemma ScriptTellsAlone(l: Ledger, op: Op, d: Deadline, s: UserSeq, p: Payload)
    requires Proper(l) && Paired(l) && (l.z.Holds? ==> l.z.end == d)
    ensures LiveWith(Apply(l, op), s, p) <==> Means(SaysAlone(op, d, s), p, LiveWith(l, s, p))
  {
    ScriptTells(l, op, s, p);
    SaysTheSame(l, op, d, s, p);
  }

  /** The callers' times to live are whole seconds. */
  predicate WholeSeconds(op: Op) {
    op.Push? || op.Bump? ==> op.ttl.Seconds?
  }

  lemma StepMovesDeadline(l: Ledger, op: Op, d: Deadline)
    requires Proper(l) && Paired(l) && Plausible(l, op) && (l.z.Holds? ==> l.z.end == d) && WholeSeconds(op)
    ensures Apply(l, op).z.Holds? ==>
      Apply(l, op).z.end == if (op.Push? || op.Bump?) && op.ttl.n > 0 then At(op.now + 1000 * op.ttl.n) else d
  {
    var q := Purge(l, op.now);
    assert Purge(q, op.now) == q;
    if Accepted(l, op) && op.Peek? { PeekKeepsPaired(q, op); }
  }

  lemma {:induction false} DeadlineTracked(ls: seq<Ledger>, ops: seq<Op>)
    requires IsRun(ls, ops) && ls[0] == Ledger(Absent, Absent, NoCursor)
    requires forall i :: 0 <= i < |ops| ==> WholeSeconds(ops[i])
    ensures ls[|ops|].z.Holds? ==> ls[|ops|].z.end == DeadlineAfter(ops)
  {
    if ops != [] {
      var n := |ops| - 1;
      DeadlineTracked(ls[..n + 1], ops[..n]);
      NoOrphansEver(ls, ops, n);
      assert ls[n + 1] == Apply(ls[n], ops[n]);
      StepMovesDeadline(ls[n], ops[n], DeadlineAfter(ops[..n]));
    }
  }

  /** From an empty ledger: an entry is live exactly when the operations, read by themselves, last pushed it and
      neither acked it nor let the common deadline pass since; its payload is that of the push. */
  lemma {:induction false} LiveIsToldLast(ls: seq<Ledger>, ops: seq<Op>, s: UserSeq, p: Payload)
    requires IsRun(ls, ops) && ls[0] == Ledger(Absent, Absent, NoCursor)
    requires forall i :: 0 <= i < |ops| ==> WholeSeconds(ops[i])
    ensures LiveWith(ls[|ops|], s, p) <==> ToldLast(ops, s) == Kept(p)
  {
    if ops != [] {
      var n := |ops| - 1;
      LiveIsToldLast(ls[..n + 1], ops[..n], s, p);
      LastTells(ls, ops, s, p);
    }
  }

  lemma {:induction false} LastTells(ls: seq<Ledger>, ops: seq<Op>, s: UserSeq, p: Payload)
    requires IsRun(ls, ops) && ls[0] == Ledger(Absent, Absent, NoCursor) && ops != []
    requires forall i :: 0 <= i < |ops| ==> WholeSeconds(ops[i])
    ensures var n := |ops| - 1;
      LiveWith(ls[|ops|], s, p) <==>
        Means(SaysAlone(ops[n], DeadlineAfter(ops[..n]), s), p, LiveWith(ls[n], s, p))
  {
    var n := |ops| - 1;
    NoOrphansEver(ls, ops, n);
    DeadlineTracked(ls[..n + 1], ops[..n]);
    assert ls[n + 1] == Apply(ls[n], ops[n]);
    ScriptTellsAlone(ls[n], ops[n], DeadlineAfter(ops[..n]), s, p);
  }

  // ----- Repair: one full scan cycle removes every hash-only field -----

  /** Nothing but peeks, bumps and scripts that are refused. */
  predicate QuietRun(ls: seq<Ledger>, ops: seq<Op>) {
    IsRun(ls, ops) && forall i :: 0 <= i < |ops| ==> ops[i].Peek? || ops[i].Bump? || !Accepted(ls[i], ops[i])
  }

  /** Operation `i` is a peek that is accepted, and so scans the hash. */
  predicate Scans(ls: seq<Ledger>, ops: seq<Op>, i: nat)
    requires |ls| == |ops| + 1 && i < |ops|
  {
    ops[i].Peek? && Accepted(ls[i], ops[i])
  }

  /** The position peek `i` resumes from. */
  function ResumedAt(ls: seq<Ledger>, ops: seq<Op>, i: nat): nat
    requires |ls| == |ops| + 1 && i < |ops| && ops[i].Peek?
  {
    CursorIn(Purge(ls[i], ops[i].now), ops[i].scan)
  }

  /** The position returned by the last scan among the first `k` operations. */
  function LastReturned(ls: seq<Ledger>, ops: seq<Op>, k: nat): nat
    requires |ls| == |ops| + 1 && k <= |ops|
  {
    if k == 0 then 0 else if Scans(ls, ops, k - 1) then ops[k - 1].scan.next else LastReturned(ls, ops, k - 1)
  }

  /** How long a scan that is not through is remembered: as long as the hash, or five minutes if the hash is to stay. */
  function Remembered(h: Key<Payload>, now: int): Option<int> {
    match h
    case Absent => None
    case WrongType(_) => None
    case Holds(_, Never) => Some(now + 300000)
    case Holds(_, At(ms)) => if now < ms then Some(ms) else None
  }

  /** Until when the position returned last is remembered, as the first `k` operations leave it: a scan says so anew, a
      bump puts it off, a push or an ack makes it void. */
  function RememberedUntil(ls: seq<Ledger>, ops: seq<Op>, k: nat): Option<int>
    requires |ls| == |ops| + 1 && k <= |ops|
  {
    if k == 0 then None
    else
      var op, before := ops[k - 1], RememberedUntil(ls, ops, k - 1);
      var kept := if before.Some? && op.now <= before.value then before else None;
      if !Accepted(ls[k - 1], op) then kept
      else match op
        case Push(_, _, _, _, ttl) => if ttl.Seconds? then None else kept
        case Ack(_, _) => None
        case Bump(now, ttl, _, _) => if kept.Some? && ttl.Seconds? then Some(now + 1000 * ttl.n) else kept
        case Peek(now, _, _, scan, _) => if scan.next == 0 then None else Remembered(ls[k].h, now)
  }

  /** Operation `j` comes while the position returned last is remembered. */
  predicate InTime(ls: seq<Ledger>, ops: seq<Op>, j: nat)
    requires |ls| == |ops| + 1 && j < |ops|
  {
    RememberedUntil(ls, ops, j).Some? && ops[j].now <= RememberedUntil(ls, ops, j).value
  }

  lemma {:induction false} CursorTold(ls: seq<Ledger>, ops: seq<Op>, k: nat)
    requires IsRun(ls, ops) && 0 < k <= |ops| && Scans(ls, ops, 0)
    ensures ls[k].cursor == match RememberedUntil(ls, ops, k)
      case None => NoCursor
      case Some(e) => CursorAt(LastReturned(ls, ops, k), At(e))
  {
    assert ls[k - 1 + 1] == Apply(ls[k - 1], ops[k - 1]);
    if k > 1 { CursorTold(ls, ops, k - 1); }
  }

  /** In any run from a scan on, a later scan resumes where the last one stopped if that is still remembered and Redis
      takes the position, and starts over otherwise. */
  lemma ResumesWhereItStopped(ls: seq<Ledger>, ops: seq<Op>, j: nat)
    requires IsRun(ls, ops) && 0 < j < |ops| && Scans(ls, ops, 0) && Scans(ls, ops, j)
    ensures ResumedAt(ls, ops, j) ==
      if InTime(ls, ops, j) && !ops[j].scan.rejected then LastReturned(ls, ops, j) else 0
  {
    CursorTold(ls, ops, j);
  }

  /** From a scan that starts at 0 to the first that returns 0, each in time and none rejected. */
  predicate FullCycle(ls: seq<Ledger>, ops: seq<Op>)
    requires |ls| == |ops| + 1
  {
    && |ops| > 0 && Scans(ls, ops, 0) && ResumedAt(ls, ops, 0) == 0 && Scans(ls, ops, |ops| - 1)
    && (forall i :: 0 <= i < |ops| && Scans(ls, ops, i) ==> (ops[i].scan.next == 0 <==> i == |ops| - 1))
    && (forall i :: 0 < i < |ops| && Scans(ls, ops, i) ==> InTime(ls, ops, i) && !ops[i].scan.rejected)
  }

  /** Every scan resumes where the previous one stopped. */
  predicate Chained(ls: seq<Ledger>, ops: seq<Op>)
    requires |ls| == |ops| + 1
  {
    forall i :: 0 < i < |ops| && Scans(ls, ops, i) ==> ResumedAt(ls, ops, i) == LastReturned(ls, ops, i)
  }

  /** The guarantee Redis documents for HSCAN: a chain of scans from 0 back to 0 returns
      every field that was there during all of them. */
  ghost predicate HscanGuarantee(ls: seq<Ledger>, ops: seq<Op>)
    requires |ls| == |ops| + 1
  {
    Chained(ls, ops) ==> forall f :: PresentThroughout(ls, ops, f) ==> Returned(ls, ops, f)
  }

  predicate PresentThroughout(ls: seq<Ledger>, ops: seq<Op>, f: UserSeq)
    requires |ls| == |ops| + 1
  {
    forall i :: 0 <= i < |ops| && Scans(ls, ops, i) ==> f in Items(Purge(ls[i], ops[i].now).h)
  }

  predicate Returned(ls: seq<Ledger>, ops: seq<Op>, f: UserSeq)
    requires |ls| == |ops| + 1
  {
    exists i :: 0 <= i < |ops| && Scans(ls, ops, i) && f in ops[i].scan.fields
  }

  lemma CyclesAreChained(ls: seq<Ledger>, ops: seq<Op>)
    requires IsRun(ls, ops) && FullCycle(ls, ops)
    ensures Chained(ls, ops)
  {
    forall i | 0 < i < |ops| && Scans(ls, ops, i)
      ensures ResumedAt(ls, ops, i) == LastReturned(ls, ops, i)
    {
      ResumesWhereItStopped(ls, ops, i);
    }
  }

  predicate Shrinks(l: Ledger, l': Ledger) {
    Items(l'.z).Keys <= Items(l.z).Keys && Items(l'.h).Keys <= Items(l.h).Keys
  }

  /** Peeks, bumps and refused scripts only ever shrink the two indexes. */
  lemma QuietStepShrinks(l: Ledger, op: Op)
    requires op.Peek? || op.Bump? || !Accepted(l, op)
    ensures Shrinks(l, Apply(l, op))
    ensures Items(Apply(l, op).h).Keys <= Items(Purge(l, op.now).h).Keys
  {
  }

  lemma ScannedOrphanGoes(l: Ledger, op: Op, f: UserSeq)
    requires op.Peek? && Accepted(l, op) && f in op.scan.fields && f !in Items(l.z)
    ensures f !in Items(Apply(l, op).h)
  {
  }

  lemma {:induction false} ShrinksTogether(ls: seq<Ledger>, i: nat, j: nat)
    requires i <= j < |ls| && forall k :: i <= k < j ==> Shrinks(ls[k], ls[k + 1])
    ensures Shrinks(ls[i], ls[j])
    decreases j - i
  {
    if i < j { ShrinksTogether(ls, i + 1, j); }
  }

  lemma QuietRunShrinks(ls: seq<Ledger>, ops: seq<Op>, i: nat, j: nat)
    requires QuietRun(ls, ops) && i <= j <= |ops|
    ensures Shrinks(ls[i], ls[j])
  {
    forall k | i <= k < j
      ensures Shrinks(ls[k], ls[k + 1])
    {
      QuietStepShrinks(ls[k], ops[k]);
    }
    ShrinksTogether(ls, i, j);
  }

  /** From any ledger: one full cursor cycle without an accepted push or ack deletes every field that was
      in the hash only when the cycle began. */
  lemma FullCycleRepairs(ls: seq<Ledger>, ops: seq<Op>, f: UserSeq)
    requires QuietRun(ls, ops) && FullCycle(ls, ops) && HscanGuarantee(ls, ops)
    requires f in Items(ls[0].h) && f !in Items(ls[0].z)
    ensures f !in Items(ls[|ops|].h)
  {
    CyclesAreChained(ls, ops);
    var n := |ops|;
    if PresentThroughout(ls, ops, f) {
      assert Returned(ls, ops, f);
      var i :| 0 <= i < n && Scans(ls, ops, i) && f in ops[i].scan.fields;
      QuietRunShrinks(ls, ops, 0, i);
      assert ls[i + 1] == Apply(ls[i], ops[i]);
      ScannedOrphanGoes(ls[i], ops[i], f);
      QuietRunShrinks(ls, ops, i + 1, n);
    } else {
      var i :| 0 <= i < n && Scans(ls, ops, i) && f !in Items(Purge(ls[i], ops[i].now).h);
      assert ls[i + 1] == Apply(ls[i], ops[i]);
      QuietStepShrinks(ls[i], ops[i]);
      QuietRunShrinks(ls, ops, i + 1, n);
    }
  }
}
