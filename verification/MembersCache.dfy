/** The version-fenced member list of one conversation: the three scripts of
    Members (common/dao/data_redis.hpp), the read path GetMemberIds and the
    commit-then-invalidate writers of the conversation service, interleaved with
    each other and with TTL expiry in any order. */
module MembersCache {
  import opened Wrappers

  type Uid = string

  // ----- The scripts, on the Redis keys alone -----

  /** members, members_version and members_sentinel; a missing version reads as 0. */
  datatype Keys = Keys(version: nat, members: set<Uid>, sentinel: bool)

  function Warmed(k: Keys, observed: nat, uids: set<Uid>): Keys {
    if observed != k.version then k else Keys(k.version, uids, false)
  }

  function SentinelSet(k: Keys, observed: nat): Keys {
    if observed != k.version then k else Keys(k.version, {}, true)
  }

  function Invalidated(k: Keys): Keys {
    Keys(k.version + 1, {}, false)
  }

  /** The scripts as they are written. */
  class Members {
    var version: nat
    var members: set<Uid>
    var sentinel: bool

    ghost function View(): Keys
      reads this
    {
      Keys(version, members, sentinel)
    }

    /** warm_if_version: the version is None when it could not be read. */
    method WarmIfVersion(uids: seq<Uid>, observed: Option<nat>) returns (ok: bool)
      modifies this
      ensures ok == (uids != [] && observed == Some(old(version)))
      ensures View() == if uids == [] || observed.None? then old(View())
                        else Warmed(old(View()), observed.value, set u | u in uids)
    {
      if uids == [] || observed.None? { return false; }
      if version != observed.value { return false; }
      members := {};
      for i := 0 to |uids|
        invariant version == old(version) && sentinel == old(sentinel) && members == set u | u in uids[..i]
      {
        members := members + {uids[i]};
        assert uids[..i + 1] == uids[..i] + [uids[i]];
      }
      assert uids[..|uids|] == uids;
      sentinel := false;
      ok := true;
    }

    method SetSentinelIfVersion(observed: Option<nat>) returns (ok: bool)
      modifies this
      ensures ok == (observed == Some(old(version)))
      ensures View() == if observed.None? then old(View()) else SentinelSet(old(View()), observed.value)
    {
      if observed.None? || version != observed.value { return false; }
      members := {};
      sentinel := true;
      ok := true;
    }

    method Invalidate()
      modifies this
      ensures View() == Invalidated(old(View()))
    {
      version := version + 1;
      members := {};
      sentinel := false;
    }
  }

  // ----- Readers and writers -----

  /** Each actor is one call of a handler.  Indices into the commit history that an
      actor carries (`at`, `mine`, `done`) are bookkeeping: no step looks at them. */
  datatype Actor =
    // a writer: commits, then one invalidation
    | Writing(mine: set<nat>)
    | Wrote
    // GetMemberIds
    | Asked
    | SawVersion(before: Option<nat>)
    | SawMembers(before: Option<nat>, members: set<Uid>, at: nat)
    | AskingSentinel(stableEmpty: bool)
    | Missed
    | Observed(version: Option<nat>)
    | Loaded(version: Option<nat>, members: set<Uid>, at: nat)
    | Filled(members: set<Uid>)
    // answers from the cache; `done` is the set of changes whose invalidation had completed
    | Hit(members: set<Uid>, at: nat, done: set<nat>)
    | ConfirmedEmpty(at: nat, done: set<nat>)

  /** The commit history of the member table, the keys, the commit each cached value came
      from, the changes whose invalidation has completed, and the actors. */
  datatype World = World(db: seq<set<Uid>>, keys: Keys, dataAt: nat, sentinelAt: nat, done: set<nat>,
                           actors: seq<Actor>)

  datatype Step =
    | Commit(a: nat, rows: set<Uid>)
    | Invalidate(a: nat)
    | Read(a: nat, fails: bool)     // the actor's next read or write; `fails` when Redis does
    | ExpireMembers
    | ExpireSentinel

  predicate Enabled(w: World, s: Step) {
    match s
    case Commit(a, _) => a < |w.actors| && w.actors[a].Writing?
    case Invalidate(a) => a < |w.actors| && w.actors[a].Writing?
    case Read(a, _) => a < |w.actors| && Reading(w.actors[a])
    case ExpireMembers => true
    case ExpireSentinel => true
  }

  predicate Reading(a: Actor) {
    a.Asked? || a.SawVersion? || a.SawMembers? || a.AskingSentinel? || a.Missed? || a.Observed? || a.Loaded?
  }

  function VersionRead(w: World, fails: bool): Option<nat> {
    if fails then None else Some(w.keys.version)
  }

  /** One read step of GetMemberIds; only the last one writes. */
  function Advance(w: World, a: Actor, fails: bool): Actor
    requires Reading(a) && w.db != []
  {
    match a
    case Asked => SawVersion(VersionRead(w, fails))
    case SawVersion(before) => if fails then AskingSentinel(false) else SawMembers(before, w.keys.members, w.dataAt)
    case SawMembers(before, members, at) =>
      var stable := before.Some? && VersionRead(w, fails) == before;
      if stable && members != {} then Hit(members, at, w.done) else AskingSentinel(stable && members == {})
    case AskingSentinel(stableEmpty) =>
      if stableEmpty && !fails && w.keys.sentinel then ConfirmedEmpty(w.sentinelAt, w.done) else Missed
    case Missed => Observed(VersionRead(w, fails))
    case Observed(v) => Loaded(v, w.db[|w.db| - 1], |w.db| - 1)
    case Loaded(_, members, _) => Filled(members)
  }

  /** The compare-and-set write at the end of a miss. */
  function Fill(w: World, a: Actor, fails: bool): World
    requires a.Loaded?
  {
    if fails || a.version.None? || a.version.value != w.keys.version then w
    else if a.members == {} then w.(keys := SentinelSet(w.keys, a.version.value), sentinelAt := a.at)
    else w.(keys := Warmed(w.keys, a.version.value, a.members), dataAt := a.at)
  }

  function Next(w: World, s: Step): World
    requires Enabled(w, s) && w.db != []
  {
    match s
    case Commit(a, rows) =>
      w.(db := w.db + [rows], actors := w.actors[a := Writing(w.actors[a].mine + {|w.db|})])
    case Invalidate(a) =>
      w.(keys := Invalidated(w.keys), done := w.done + w.actors[a].mine, actors := w.actors[a := Wrote])
    case Read(a, fails) =>
      var w' := if w.actors[a].Loaded? then Fill(w, w.actors[a], fails) else w;
      w'.(actors := w.actors[a := Advance(w, w.actors[a], fails)])
    case ExpireMembers => w.(keys := w.keys.(members := {}))
    case ExpireSentinel => w.(keys := w.keys.(sentinel := false))
  }

  predicate Initial(w: World) {
    && |w.db| == 1 && w.keys == Keys(w.keys.version, {}, false) && w.done == {}
    && forall a :: 0 <= a < |w.actors| ==> w.actors[a] == Asked || w.actors[a] == Writing({})
  }

  // ----- Coherence -----

  /** Commit `at` produced `members`, and it is no older than any of the changes `done`. */
  predicate Reflects(db: seq<set<Uid>>, members: set<Uid>, at: nat, done: set<nat>) {
    at < |db| && db[at] == members && forall i :: i in done ==> i <= at
  }

  predicate ActorSound(w: World, a: Actor) {
    match a
    case Writing(mine) => forall i :: i in mine ==> i < |w.db|
    case SawVersion(before) => before.Some? ==> before.value <= w.keys.version
    case SawMembers(before, members, at) =>
      && (before.Some? ==> before.value <= w.keys.version)
      && (before == Some(w.keys.version) && members != {} ==> Reflects(w.db, members, at, w.done))
    case Observed(v) => v.Some? ==> v.value <= w.keys.version
    case Loaded(v, members, at) =>
      && at < |w.db| && w.db[at] == members && (v.Some? ==> v.value <= w.keys.version)
      && (v == Some(w.keys.version) ==> Reflects(w.db, members, at, w.done))
    case Hit(members, at, done) => Reflects(w.db, members, at, done)
    case ConfirmedEmpty(at, done) => Reflects(w.db, {}, at, done)
    case _ => true
  }

  predicate CacheSound(w: World) {
    && w.db != [] && (forall i :: i in w.done ==> i < |w.db|)
    && !(w.keys.members != {} && w.keys.sentinel)
    && (w.keys.members != {} ==> Reflects(w.db, w.keys.members, w.dataAt, w.done))
    && (w.keys.sentinel ==> Reflects(w.db, {}, w.sentinelAt, w.done))
  }

  predicate Inv(w: World) {
    CacheSound(w) && forall a :: 0 <= a < |w.actors| ==> ActorSound(w, w.actors[a])
  }

  lemma StepKeepsCache(w: World, s: Step)
    requires Inv(w) && Enabled(w, s)
    ensures CacheSound(Next(w, s))
  {
    if s.Invalidate? { assert ActorSound(w, w.actors[s.a]); }
    if s.Read? { assert ActorSound(w, w.actors[s.a]); }
  }

  lemma StepKeepsMover(w: World, s: Step)
    requires Inv(w) && Enabled(w, s) && (s.Commit? || s.Invalidate? || s.Read?)
    ensures ActorSound(Next(w, s), Next(w, s).actors[s.a])
  {
    assert ActorSound(w, w.actors[s.a]);
  }

  lemma StepKeepsOther(w: World, s: Step, a: Actor)
    requires Inv(w) && Enabled(w, s) && ActorSound(w, a)
    ensures ActorSound(Next(w, s), a)
  {
    if s.Read? { assert ActorSound(w, w.actors[s.a]); }
  }

  lemma StepKeepsInv(w: World, s: Step)
    requires Inv(w) && Enabled(w, s)
    ensures Inv(Next(w, s))
  {
    StepKeepsCache(w, s);
    var w' := Next(w, s);
    forall b | 0 <= b < |w'.actors|
      ensures ActorSound(w', w'.actors[b])
    {
      if (s.Commit? || s.Invalidate? || s.Read?) && b == s.a {
        StepKeepsMover(w, s);
      } else {
        StepKeepsOther(w, s, w.actors[b]);
      }
    }
  }

  /** A run: any schedule of enabled steps. */
  predicate IsRun(ws: seq<World>, steps: seq<Step>) {
    |ws| == |steps| + 1 && Initial(ws[0]) &&
    forall i :: 0 <= i < |steps| ==> ws[i].db != [] && Enabled(ws[i], steps[i]) && ws[i + 1] == Next(ws[i], steps[i])
  }

  lemma {:induction false} InvReached(ws: seq<World>, steps: seq<Step>, i: nat)
    requires IsRun(ws, steps) && i < |ws|
    ensures Inv(ws[i])
  {
    if i > 0 {
      InvReached(ws, steps, i - 1);
      StepKeepsInv(ws[i - 1], steps[i - 1]);
    }
  }

  /** Step `c` is a commit of the writer whose invalidation is step `j`. */
  predicate CommitOf(steps: seq<Step>, c: nat, j: nat)
    requires c < j < |steps|
  {
    steps[c].Commit? && steps[j].Invalidate? && steps[c].a == steps[j].a
  }

  /** Until it invalidates, a writer remembers its commits. */
  lemma {:induction false} CommitRemembered(ws: seq<World>, steps: seq<Step>, c: nat, j: nat, a: nat)
    requires IsRun(ws, steps) && c < j <= |steps| && steps[c].Commit? && steps[c].a == a && a < |ws[j].actors|
    requires ws[j].actors[a].Writing?
    ensures |ws[c].db| in ws[j].actors[a].mine
  {
    assert ws[j - 1 + 1] == Next(ws[j - 1], steps[j - 1]);
    if c < j - 1 { CommitRemembered(ws, steps, c, j - 1, a); }
  }

  lemma {:induction false} CompletedStaysDone(ws: seq<World>, steps: seq<Step>, c: nat, j: nat, i: nat)
    requires IsRun(ws, steps) && c < j < i <= |steps| && CommitOf(steps, c, j)
    ensures |ws[c].db| in ws[i].done
    decreases i
  {
    assert ws[i - 1 + 1] == Next(ws[i - 1], steps[i - 1]);
    if j < i - 1 { CompletedStaysDone(ws, steps, c, j, i - 1); } else { CommitRemembered(ws, steps, c, j, steps[j].a); }
  }

  /** Data and sentinel never coexist. */
  lemma DataExcludesSentinel(ws: seq<World>, steps: seq<Step>, i: nat)
    requires IsRun(ws, steps) && i < |ws|
    ensures !(ws[i].keys.members != {} && ws[i].keys.sentinel)
  {
    InvReached(ws, steps, i);
  }

  function Answer(a: Actor): set<Uid>
    requires a.Hit? || a.ConfirmedEmpty?
  {
    if a.Hit? then a.members else {}
  }

  /** `k` is a commit with these rows, and not older than any commit whose writer invalidated in the first `i` steps. */
  ghost predicate CurrentAt(ws: seq<World>, steps: seq<Step>, i: nat, rows: set<Uid>, k: nat)
    requires IsRun(ws, steps) && i < |steps|
  {
    && k < |ws[i].db| && ws[i].db[k] == rows
    && forall c, j :: 0 <= c < j < i && CommitOf(steps, c, j) ==> |ws[c].db| <= k
  }

  ghost predicate IsCurrent(ws: seq<World>, steps: seq<Step>, i: nat, rows: set<Uid>)
    requires IsRun(ws, steps) && i < |steps|
  {
    exists k :: CurrentAt(ws, steps, i, rows, k)
  }

  /** In every interleaving, when step `i` answers a reader from the cache, the answer is the member list of
      some commit that is no older than any membership change whose invalidation completed before that step. */
  lemma CachedAnswersAreCurrent(ws: seq<World>, steps: seq<Step>, i: nat)
    requires IsRun(ws, steps) && i < |steps| && steps[i].Read?
    requires var a := ws[i + 1].actors[steps[i].a]; a.Hit? || a.ConfirmedEmpty?
    ensures IsCurrent(ws, steps, i, Answer(ws[i + 1].actors[steps[i].a]))
  {
    InvReached(ws, steps, i + 1);
    assert ws[i + 1] == Next(ws[i], steps[i]);
    var a := ws[i + 1].actors[steps[i].a];
    assert ActorSound(ws[i + 1], a);
    assert ws[i + 1].db == ws[i].db && a.done == ws[i].done;
    forall c, j | 0 <= c < j < i && CommitOf(steps, c, j)
      ensures |ws[c].db| <= a.at
    {
      CompletedStaysDone(ws, steps, c, j, i);
    }
    assert CurrentAt(ws, steps, i, Answer(a), a.at);
  }

  // ----- Which answers come from the cache -----

  predicate ReadsWell(steps: seq<Step>, i: nat, a: nat) {
    i < |steps| && steps[i] == Read(a, false)
  }

  predicate SawVersionAt(ws: seq<World>, steps: seq<Step>, a: nat, k: nat, version: nat) {
    k < |ws| && ReadsWell(steps, k, a) && ws[k].keys.version == version
  }

  predicate SawMembersAt(ws: seq<World>, steps: seq<Step>, a: nat, m: nat, members: set<Uid>) {
    m < |ws| && ReadsWell(steps, m, a) && ws[m].keys.members == members
  }

  /** Reader `a` read the version at step `k`, these members at step `m` and the version again at step `i`, and nothing
      was invalidated in between. */
  predicate Snapshot(ws: seq<World>, steps: seq<Step>, a: nat, k: nat, m: nat, i: nat, members: set<Uid>) {
    && k < m < i && ReadsWell(steps, k, a) && SawMembersAt(ws, steps, a, m, members) && ReadsWell(steps, i, a)
    && forall j :: k <= j < i ==> !steps[j].Invalidate?
  }

  /** The reader took such a snapshot within the first `n` steps. */
  ghost predicate TookSnapshot(ws: seq<World>, steps: seq<Step>, a: nat, n: nat, members: set<Uid>) {
    exists k: nat, m: nat, i: nat :: i < n && Snapshot(ws, steps, a, k, m, i, members)
  }

  /** What the reads of reader `a` so far amount to. */
  ghost predicate ReaderKnows(ws: seq<World>, steps: seq<Step>, a: nat, n: nat, r: Actor)
    requires IsRun(ws, steps) && n <= |steps|
  {
    match r
    case SawVersion(before) =>
      before.Some? ==> exists k: nat :: k < n && SawVersionAt(ws, steps, a, k, before.value)
    case SawMembers(before, members, _) =>
      before.Some? ==> exists k: nat, m: nat ::
        k < m < n && SawVersionAt(ws, steps, a, k, before.value) && SawMembersAt(ws, steps, a, m, members)
    case AskingSentinel(stableEmpty) => stableEmpty ==> TookSnapshot(ws, steps, a, n, {})
    case Hit(members, _, _) => members != {} && TookSnapshot(ws, steps, a, n, members)
    case ConfirmedEmpty(_, _) => TookSnapshot(ws, steps, a, n, {})
    case _ => true
  }

  /** The second reading of the version completes a snapshot, if it is the same. */
  lemma SameVersionIsSnapshot(ws: seq<World>, steps: seq<Step>, a: nat, k: nat, m: nat, i: nat)
    requires IsRun(ws, steps) && k < m < i < |steps|
    requires ReadsWell(steps, k, a) && ReadsWell(steps, m, a) && ReadsWell(steps, i, a)
    requires ws[i].keys.version == ws[k].keys.version
    ensures TookSnapshot(ws, steps, a, i + 1, ws[m].keys.members)
  {
    VersionCounts(ws, steps, k, i);
    NoneInvalidated(steps, k, i);
    assert Snapshot(ws, steps, a, k, m, i, ws[m].keys.members);
  }

  lemma ReaderLearns(ws: seq<World>, steps: seq<Step>, a: nat, n: nat, fails: bool)
    requires IsRun(ws, steps) && n < |steps| && steps[n] == Read(a, fails) && a < |ws[n].actors|
    requires ReaderKnows(ws, steps, a, n, ws[n].actors[a]) && a < |ws[n + 1].actors|
    ensures ReaderKnows(ws, steps, a, n + 1, ws[n + 1].actors[a])
  {
    assert ws[n + 1] == Next(ws[n], steps[n]);
    var r := ws[n].actors[a];
    match r
    case Asked => if !fails { assert SawVersionAt(ws, steps, a, n, ws[n].keys.version); }
    case SawVersion(before) =>
      if before.Some? && !fails {
        var k: nat :| k < n && SawVersionAt(ws, steps, a, k, before.value);
        assert SawMembersAt(ws, steps, a, n, ws[n].keys.members);
      }
    case SawMembers(before, members, _) =>
      if before.Some? && !fails && ws[n].keys.version == before.value {
        var k: nat, m: nat :|
          k < m < n && SawVersionAt(ws, steps, a, k, before.value) && SawMembersAt(ws, steps, a, m, members);
        SameVersionIsSnapshot(ws, steps, a, k, m, n);
      }
    case _ =>
  }

  lemma {:induction false} ReaderKnowledge(ws: seq<World>, steps: seq<Step>, a: nat, n: nat)
    requires IsRun(ws, steps) && n <= |steps| && a < |ws[n].actors|
    ensures ReaderKnows(ws, steps, a, n, ws[n].actors[a])
  {
    if n > 0 {
      assert ws[n - 1 + 1] == Next(ws[n - 1], steps[n - 1]);
      ReaderKnowledge(ws, steps, a, n - 1);
      if steps[n - 1].Read? && steps[n - 1].a == a { ReaderLearns(ws, steps, a, n - 1, steps[n - 1].fails); }
    }
  }

  /** In every interleaving, an answer from the cache is the members, or their absence, that its reader saw between two
      readings of the version with no invalidation in between. */
  lemma CachedAnswersAreSnapshots(ws: seq<World>, steps: seq<Step>, a: nat, n: nat)
    requires IsRun(ws, steps) && n <= |steps| && a < |ws[n].actors|
    requires ws[n].actors[a].Hit? || ws[n].actors[a].ConfirmedEmpty?
    ensures TookSnapshot(ws, steps, a, n, Answer(ws[n].actors[a]))
  {
    ReaderKnowledge(ws, steps, a, n);
  }

  // ----- Misses -----

  /** How many invalidations there were from step `k` up to step `i`. */
  function Invalidations(steps: seq<Step>, k: nat, i: nat): nat
    requires k <= i <= |steps|
  {
    if k == i then 0 else Invalidations(steps, k, i - 1) + (if steps[i - 1].Invalidate? then 1 else 0)
  }

  lemma {:induction false} VersionCounts(ws: seq<World>, steps: seq<Step>, k: nat, i: nat)
    requires IsRun(ws, steps) && k <= i <= |steps|
    ensures ws[i].keys.version == ws[k].keys.version + Invalidations(steps, k, i)
  {
    if k < i {
      VersionCounts(ws, steps, k, i - 1);
      assert ws[i - 1 + 1] == Next(ws[i - 1], steps[i - 1]);
    }
  }

  lemma {:induction false} NoneInvalidated(steps: seq<Step>, k: nat, i: nat)
    requires k <= i <= |steps|
    ensures Invalidations(steps, k, i) == 0 <==> forall j :: k <= j < i ==> !steps[j].Invalidate?
  {
    if k < i { NoneInvalidated(steps, k, i - 1); }
  }

  /** What a reader that observed the version at step `k` knows at step `i`. */
  predicate Filling(ws: seq<World>, steps: seq<Step>, k: nat, i: nat, r: Actor)
    requires IsRun(ws, steps) && k < i <= |steps| && steps[k].Read?
  {
    match r
    case Observed(v) => v == VersionRead(ws[k], steps[k].fails)
    case Loaded(v, members, _) =>
      v == VersionRead(ws[k], steps[k].fails) && exists d :: k < d < i && LatestRows(ws, d) == members
    case Filled(members) => exists d :: k < d < i && LatestRows(ws, d) == members
    case _ => false
  }

  /** The member list of the latest commit at step `d`. */
  function LatestRows(ws: seq<World>, d: nat): set<Uid> {
    if d < |ws| && ws[d].db != [] then ws[d].db[|ws[d].db| - 1] else {}
  }

  lemma {:induction false} FillingStays(ws: seq<World>, steps: seq<Step>, k: nat, i: nat, a: nat)
    requires IsRun(ws, steps) && k < i <= |steps| && steps[k].Read? && steps[k].a == a && a < |ws[k].actors|
    requires ws[k].actors[a].Missed?
    ensures a < |ws[i].actors| && Filling(ws, steps, k, i, ws[i].actors[a])
  {
    var j := i - 1;
    assert ws[j + 1] == Next(ws[j], steps[j]);
    if k < j {
      FillingStays(ws, steps, k, j, a);
      assert LatestRows(ws, j) == ws[j].db[|ws[j].db| - 1];
    }
  }

  /** In every interleaving, a miss is answered with the member list of the latest commit at a moment after it observed
      the version; and the list, or the sentinel for an empty one, goes into the cache exactly if the version could be
      read, the write does not fail, and no invalidation fell in between. */
  lemma MissAnswersLatestCommit(ws: seq<World>, steps: seq<Step>, k: nat, i: nat, a: nat)
    requires IsRun(ws, steps) && k < i < |steps| && steps[k].Read? && steps[k].a == a && a < |ws[k].actors|
    requires ws[k].actors[a].Missed? && steps[i].Read? && steps[i].a == a && ws[i].actors[a].Loaded?
    ensures ws[i + 1].actors[a].Filled?
    ensures var rows := ws[i + 1].actors[a].members; var v := ws[i].keys.version;
      && (exists d :: k < d < i && LatestRows(ws, d) == rows)
      && ws[i + 1].keys ==
           if !steps[k].fails && !steps[i].fails && forall j :: k <= j < i ==> !steps[j].Invalidate?
           then Keys(v, rows, rows == {}) else ws[i].keys
  {
    assert ws[i + 1] == Next(ws[i], steps[i]);
    FillingStays(ws, steps, k, i, a);
    VersionCounts(ws, steps, k, i);
    NoneInvalidated(steps, k, i);
  }

  // ----- A reader by itself -----

  function Ahead(a: Actor): nat {
    match a
    case Asked => 7
    case SawVersion(_) => 6
    case SawMembers(_, _, _) => 5
    case AskingSentinel(_) => 4
    case Missed => 3
    case Observed(_) => 2
    case Loaded(_, _, _) => 1
    case _ => 0
  }

  /** Reader `a` alone runs to its end, and Redis does not fail. */
  function ReadAlone(w: World, a: nat): World
    requires a < |w.actors| && w.db != []
    decreases Ahead(w.actors[a])
  {
    if Reading(w.actors[a]) then ReadAlone(Next(w, Read(a, false)), a) else w
  }

  lemma MissAlone(w: World, a: nat)
    requires a < |w.actors| && w.db != [] && w.actors[a] == Missed
    ensures var w', rows := ReadAlone(w, a), w.db[|w.db| - 1];
      w'.actors == w.actors[a := Filled(rows)] && w'.keys == Keys(w.keys.version, rows, rows == {})
  {
    var w1 := Next(w, Read(a, false));
    var w2 := Next(w1, Read(a, false));
    var w3 := Next(w2, Read(a, false));
    assert ReadAlone(w, a) == ReadAlone(w2, a) == ReadAlone(w3, a);
  }

  /** GetMemberIds undisturbed: the members if any are cached, the empty list if the sentinel says so, and otherwise the
      latest commit, which is then cached. */
  lemma ReaderAlone(w: World, a: nat)
    requires a < |w.actors| && CacheSound(w) && w.actors[a] == Asked
    ensures var w', rows := ReadAlone(w, a), w.db[|w.db| - 1];
      if w.keys.members != {} then w' == w.(actors := w.actors[a := Hit(w.keys.members, w.dataAt, w.done)])
      else if w.keys.sentinel then w' == w.(actors := w.actors[a := ConfirmedEmpty(w.sentinelAt, w.done)])
      else w'.actors == w.actors[a := Filled(rows)] && w'.keys == Keys(w.keys.version, rows, rows == {})
  {
    var w1 := Next(w, Read(a, false));
    var w2 := Next(w1, Read(a, false));
    var w3 := Next(w2, Read(a, false));
    assert ReadAlone(w, a) == ReadAlone(w2, a) == ReadAlone(w3, a);
    if w.keys.members == {} {
      var w4 := Next(w3, Read(a, false));
      assert ReadAlone(w3, a) == ReadAlone(w4, a);
      if !w.keys.sentinel { MissAlone(w4, a); }
    }
  }
}
