/** The generation-fenced profile cache of one user: UserInfoCache
    (common/dao/data_redis.hpp), the double invalidation of UpdateProfile
    (identity/source/identity_server.h) and concurrent fills, in any interleaving. */
module UserInfoCache {
  import opened Wrappers

  type Profile = string

  /** The value key and the generation key; a missing generation reads as 0.
      `at` is the commit the value was read from, bookkeeping that no step looks at. */
  datatype Keys = Keys(value: Option<Profile>, at: nat, generation: Option<nat>)

  function GenerationOf(k: Keys): nat {
    if k.generation.Some? then k.generation.value else 0
  }

  /** kSetIfGenerationLua */
  function SetIfGeneration(k: Keys, expected: nat, p: Profile, at: nat): Keys {
    if GenerationOf(k) != expected then k else k.(value := Some(p), at := at)
  }

  /** kInvalidateLua */
  function Invalidated(k: Keys): Keys {
    Keys(None, k.at, Some(GenerationOf(k) + 1))
  }

  datatype Actor =
    // UpdateProfile
    | Updating
    | Fenced
    | Committed(mine: nat)
    | Updated
    // a fill
    | Missed
    | Observed(generation: nat, life: nat)
    | Loaded(generation: nat, life: nat, p: Profile, at: nat)
    | Filled

  /** `lives` counts the expiries of the generation key, and a fill keeps the count it started under: bookkeeping
      that no step looks at. */
  datatype World = World(db: seq<Profile>, keys: Keys, done: set<nat>, lives: nat, actors: seq<Actor>)

  datatype Step =
    | Act(a: nat, row: Profile, fails: bool)   // the actor's next step; `fails` when Redis does
    | ExpireValue
    | ExpireGeneration

  predicate Filling(a: Actor) {
    a.Observed? || a.Loaded?
  }

  predicate Enabled(w: World, s: Step) {
    match s
    case Act(a, _, _) => a < |w.actors| && !w.actors[a].Updated? && !w.actors[a].Filled?
    case ExpireValue => true
    case ExpireGeneration => w.keys.generation.Some?
  }

  /** The generation key does not expire while a fill is under way. */
  predicate Gentle(w: World, s: Step) {
    s.ExpireGeneration? ==> forall a :: 0 <= a < |w.actors| ==> !Filling(w.actors[a])
  }

  /** A fill is accepted although the generation key expired since it observed the generation: the counter started
      over and came to the observed value again. */
  predicate CrossesExpiry(w: World, s: Step) {
    s.Act? && s.a < |w.actors| && w.actors[s.a].Loaded? && !s.fails &&
    w.actors[s.a].generation == GenerationOf(w.keys) && w.actors[s.a].life != w.lives
  }

  function Next(w: World, s: Step): World
    requires Enabled(w, s) && w.db != []
  {
    match s
    case ExpireValue => w.(keys := w.keys.(value := None))
    case ExpireGeneration => w.(keys := w.keys.(generation := None), lives := w.lives + 1)
    case Act(a, row, fails) =>
      match w.actors[a]
      case Updating =>
        w.(keys := if fails then w.keys else Invalidated(w.keys), actors := w.actors[a := Fenced])
      case Fenced => w.(db := w.db + [row], actors := w.actors[a := Committed(|w.db|)])
      case Committed(mine) =>
        if fails then w.(actors := w.actors[a := Updated])
        else w.(keys := Invalidated(w.keys), done := w.done + {mine}, actors := w.actors[a := Updated])
      case Missed =>
        w.(actors := w.actors[a := if fails then Filled else Observed(GenerationOf(w.keys), w.lives)])
      case Observed(g, life) => w.(actors := w.actors[a := Loaded(g, life, w.db[|w.db| - 1], |w.db| - 1)])
      case Loaded(g, _, p, at) =>
        w.(keys := if fails then w.keys else SetIfGeneration(w.keys, g, p, at), actors := w.actors[a := Filled])
  }

  predicate Initial(w: World) {
    && |w.db| == 1 && w.keys.value.None? && w.done == {}
    && forall a :: 0 <= a < |w.actors| ==> w.actors[a] == Updating || w.actors[a] == Missed
  }

  predicate IsRun(ws: seq<World>, steps: seq<Step>) {
    |ws| == |steps| + 1 && Initial(ws[0]) &&
    forall i :: 0 <= i < |steps| ==> ws[i].db != [] && Enabled(ws[i], steps[i]) && ws[i + 1] == Next(ws[i], steps[i])
  }

  // ----- Coherence -----

  predicate Reflects(db: seq<Profile>, p: Profile, at: nat, done: set<nat>) {
    at < |db| && db[at] == p && forall i :: i in done ==> i <= at
  }

  predicate ActorSound(w: World, a: Actor) {
    match a
    case Committed(mine) => mine < |w.db|
    case Observed(g, life) => life <= w.lives && (life == w.lives ==> g <= GenerationOf(w.keys))
    case Loaded(g, life, p, at) =>
      && life <= w.lives && (life == w.lives ==> g <= GenerationOf(w.keys)) && at < |w.db| && w.db[at] == p
      && (life == w.lives && g == GenerationOf(w.keys) ==> Reflects(w.db, p, at, w.done))
    case _ => true
  }

  predicate CacheSound(w: World) {
    && w.db != [] && (forall i :: i in w.done ==> i < |w.db|)
    && (w.keys.value.Some? ==> Reflects(w.db, w.keys.value.value, w.keys.at, w.done))
  }

  predicate Inv(w: World) {
    CacheSound(w) && forall a :: 0 <= a < |w.actors| ==> ActorSound(w, w.actors[a])
  }

  lemma StepKeepsCache(w: World, s: Step)
    requires Inv(w) && Enabled(w, s) && !CrossesExpiry(w, s)
    ensures CacheSound(Next(w, s))
  {
    if s.Act? { assert ActorSound(w, w.actors[s.a]); }
  }

  lemma StepKeepsActor(w: World, s: Step, b: nat)
    requires Inv(w) && Enabled(w, s) && b < |w.actors|
    ensures ActorSound(Next(w, s), Next(w, s).actors[b])
  {
    assert ActorSound(w, w.actors[b]);
    if s.Act? { assert ActorSound(w, w.actors[s.a]); }
  }

  lemma {:induction false} InvReached(ws: seq<World>, steps: seq<Step>, i: nat)
    requires IsRun(ws, steps) && i < |ws|
    requires forall j :: 0 <= j < i ==> !CrossesExpiry(ws[j], steps[j])
    ensures Inv(ws[i])
  {
    if i > 0 {
      InvReached(ws, steps, i - 1);
      assert ws[i - 1 + 1] == Next(ws[i - 1], steps[i - 1]);
      StepKeepsCache(ws[i - 1], steps[i - 1]);
      forall b | 0 <= b < |ws[i].actors|
        ensures ActorSound(ws[i], ws[i].actors[b])
      {
        StepKeepsActor(ws[i - 1], steps[i - 1], b);
      }
    }
  }

  /** Step `j` is the completed post-commit invalidation of an UpdateProfile. */
  predicate Completes(ws: seq<World>, steps: seq<Step>, j: nat)
    requires IsRun(ws, steps) && j < |steps|
  {
    steps[j].Act? && ws[j].actors[steps[j].a].Committed? && !steps[j].fails
  }

  /** Step `c` is the commit of the update that step `j` completes. */
  predicate CommitOf(ws: seq<World>, steps: seq<Step>, c: nat, j: nat)
    requires IsRun(ws, steps) && c < j < |steps|
  {
    Completes(ws, steps, j) && steps[c].Act? && steps[c].a == steps[j].a && |ws[c].db| < |ws[c + 1].db|
  }

  lemma {:induction false} CommitRemembered(ws: seq<World>, steps: seq<Step>, c: nat, j: nat, a: nat)
    requires IsRun(ws, steps) && c < j <= |steps| && steps[c].Act? && steps[c].a == a && |ws[c].db| < |ws[c + 1].db|
    ensures a < |ws[j].actors| && (ws[j].actors[a] == Committed(|ws[c].db|) || ws[j].actors[a].Updated?)
  {
    assert ws[j - 1 + 1] == Next(ws[j - 1], steps[j - 1]);
    if c < j - 1 { CommitRemembered(ws, steps, c, j - 1, a); }
  }

  lemma {:induction false} CompletedStaysDone(ws: seq<World>, steps: seq<Step>, c: nat, j: nat, i: nat)
    requires IsRun(ws, steps) && c < j < i <= |steps| && CommitOf(ws, steps, c, j)
    ensures |ws[c].db| in ws[i].done
    decreases i
  {
    assert ws[i - 1 + 1] == Next(ws[i - 1], steps[i - 1]);
    if j < i - 1 { CompletedStaysDone(ws, steps, c, j, i - 1); } else { CommitRemembered(ws, steps, c, j, steps[j].a); }
  }

  /** The cached profile is that of a commit no older than any update completed in the first `i` steps. */
  ghost predicate CurrentAt(ws: seq<World>, steps: seq<Step>, i: nat, k: nat)
    requires IsRun(ws, steps) && i <= |steps|
  {
    && k < |ws[i].db| && ws[i].keys.value == Some(ws[i].db[k])
    && forall c, j :: 0 <= c < j < i && CommitOf(ws, steps, c, j) ==> |ws[c].db| <= k
  }

  ghost predicate Coherent(ws: seq<World>, steps: seq<Step>, i: nat)
    requires IsRun(ws, steps) && i <= |steps|
  {
    ws[i].keys.value.Some? ==> exists k :: CurrentAt(ws, steps, i, k)
  }

  /** Whatever fills race with an update before, between or after its two invalidations, a value left in the
      cache reflects every update whose post-commit invalidation completed, as long as no fill is accepted across an
      expiry of the generation key. */
  lemma CacheReflectsCompletedUpdates(ws: seq<World>, steps: seq<Step>, i: nat)
    requires IsRun(ws, steps) && i <= |steps|
    requires forall j :: 0 <= j < i ==> !CrossesExpiry(ws[j], steps[j])
    ensures Coherent(ws, steps, i)
  {
    InvReached(ws, steps, i);
    if ws[i].keys.value.Some? {
      forall c, j | 0 <= c < j < i && CommitOf(ws, steps, c, j)
        ensures |ws[c].db| <= ws[i].keys.at
      {
        CompletedStaysDone(ws, steps, c, j, i);
      }
      assert CurrentAt(ws, steps, i, ws[i].keys.at);
    }
  }

  /** Fills under way started under the present life of the generation key. */
  predicate Contemporary(w: World) {
    forall a :: 0 <= a < |w.actors| && Filling(w.actors[a]) ==> w.actors[a].life == w.lives
  }

  lemma {:induction false} GentleIsContemporary(ws: seq<World>, steps: seq<Step>, i: nat)
    requires IsRun(ws, steps) && i <= |steps| && forall j :: 0 <= j < i ==> Gentle(ws[j], steps[j])
    ensures Contemporary(ws[i])
  {
    if i > 0 {
      GentleIsContemporary(ws, steps, i - 1);
      assert ws[i - 1 + 1] == Next(ws[i - 1], steps[i - 1]);
    }
  }

  /** In particular if the generation key never expires during a fill. */
  lemma GentleRunsAreCoherent(ws: seq<World>, steps: seq<Step>, i: nat)
    requires IsRun(ws, steps) && i <= |steps| && forall j :: 0 <= j < i ==> Gentle(ws[j], steps[j])
    ensures Coherent(ws, steps, i)
  {
    forall j | 0 <= j < i
      ensures !CrossesExpiry(ws[j], steps[j])
    {
      GentleIsContemporary(ws, steps, j);
    }
    CacheReflectsCompletedUpdates(ws, steps, i);
  }

  // ----- Which fills are accepted -----

  /** Step `j` invalidates, before or after a commit. */
  predicate Invalidates(ws: seq<World>, steps: seq<Step>, j: nat)
    requires IsRun(ws, steps) && j < |steps|
  {
    steps[j].Act? && !steps[j].fails && (ws[j].actors[steps[j].a].Updating? || ws[j].actors[steps[j].a].Committed?)
  }

  function Invalidations(ws: seq<World>, steps: seq<Step>, k: nat, i: nat): nat
    requires IsRun(ws, steps) && k <= i <= |steps|
  {
    if k == i then 0 else Invalidations(ws, steps, k, i - 1) + (if Invalidates(ws, steps, i - 1) then 1 else 0)
  }

  /** While the generation key does not expire it counts the invalidations. */
  lemma {:induction false} GenerationCounts(ws: seq<World>, steps: seq<Step>, k: nat, i: nat)
    requires IsRun(ws, steps) && k <= i <= |steps| && forall j :: k <= j < i ==> !steps[j].ExpireGeneration?
    ensures GenerationOf(ws[i].keys) == GenerationOf(ws[k].keys) + Invalidations(ws, steps, k, i)
  {
    if k < i {
      GenerationCounts(ws, steps, k, i - 1);
      assert ws[i - 1 + 1] == Next(ws[i - 1], steps[i - 1]);
    }
  }

  lemma {:induction false} NoneInvalidated(ws: seq<World>, steps: seq<Step>, k: nat, i: nat)
    requires IsRun(ws, steps) && k <= i <= |steps|
    ensures Invalidations(ws, steps, k, i) == 0 <==> forall j :: k <= j < i ==> !Invalidates(ws, steps, j)
  {
    if k < i { NoneInvalidated(ws, steps, k, i - 1); }
  }

  /** The latest commit at step `d`. */
  function LatestRow(ws: seq<World>, d: nat): Profile {
    if d < |ws| && ws[d].db != [] then ws[d].db[|ws[d].db| - 1] else ""
  }

  /** What a fill that observed the generation at step `k` knows at step `i`. */
  predicate FillKnows(ws: seq<World>, k: nat, i: nat, a: Actor)
    requires k < i < |ws|
  {
    match a
    case Observed(g, _) => g == GenerationOf(ws[k].keys)
    case Loaded(g, _, p, _) => g == GenerationOf(ws[k].keys) && exists d :: k < d < i && LatestRow(ws, d) == p
    case Filled => true
    case _ => false
  }

  lemma {:induction false} FillRemembers(ws: seq<World>, steps: seq<Step>, k: nat, i: nat, a: nat)
    requires IsRun(ws, steps) && k < i <= |steps| && steps[k].Act? && steps[k].a == a && !steps[k].fails
    requires a < |ws[k].actors| && ws[k].actors[a].Missed?
    ensures a < |ws[i].actors| && FillKnows(ws, k, i, ws[i].actors[a])
  {
    var j := i - 1;
    assert ws[j + 1] == Next(ws[j], steps[j]);
    if k < j {
      FillRemembers(ws, steps, k, j, a);
      assert LatestRow(ws, j) == ws[j].db[|ws[j].db| - 1];
    }
  }

  /** In every interleaving in which the generation key does not expire meanwhile: a fill is accepted exactly if the
      write does not fail and no invalidation fell in between, and what it stores is the latest commit of a moment after
      it observed the generation. */
  lemma FillIsAcceptedExactly(ws: seq<World>, steps: seq<Step>, k: nat, i: nat, a: nat)
    requires IsRun(ws, steps) && k < i < |steps| && steps[k].Act? && steps[k].a == a && !steps[k].fails
    requires a < |ws[k].actors| && ws[k].actors[a].Missed?
    requires steps[i].Act? && steps[i].a == a && ws[i].actors[a].Loaded?
    requires forall j :: k <= j < i ==> !steps[j].ExpireGeneration?
    ensures var accepted := !steps[i].fails && forall j :: k <= j < i ==> !Invalidates(ws, steps, j);
      && ws[i + 1].keys.generation == ws[i].keys.generation
      && (accepted ==> exists d :: k < d < i && ws[i + 1].keys.value == Some(LatestRow(ws, d)))
      && (!accepted ==> ws[i + 1].keys == ws[i].keys)
  {
    assert ws[i + 1] == Next(ws[i], steps[i]);
    FillRemembers(ws, steps, k, i, a);
    GenerationCounts(ws, steps, k, i);
    NoneInvalidated(ws, steps, k, i);
  }

  // ----- The condition is needed -----

  lemma Extend(ws: seq<World>, steps: seq<Step>, s: Step)
    requires IsRun(ws, steps) && ws[|steps|].db != [] && Enabled(ws[|steps|], s)
    ensures IsRun(ws + [Next(ws[|steps|], s)], steps + [s])
  {
  }

  /** A fill has loaded the old profile under generation 0. */
  lemma FillLoads(before: Profile) returns (ws: seq<World>, steps: seq<Step>)
    ensures IsRun(ws, steps) && |steps| == 2
    ensures ws[2] == World([before], Keys(None, 0, None), {}, 0, [Loaded(0, 0, before, 0), Updating])
  {
    var w := World([before], Keys(None, 0, None), {}, 0, [Missed, Updating]);
    var fill := Act(0, before, false);
    ws, steps := [w], [];
    Extend(ws, steps, fill);
    ws, steps := ws + [Next(w, fill)], steps + [fill];
    w := ws[1];
    Extend(ws, steps, fill);
    ws, steps := ws + [Next(w, fill)], steps + [fill];
  }

  /** An update has passed its first invalidation and its commit. */
  lemma UpdateCommits(before: Profile, after: Profile) returns (ws: seq<World>, steps: seq<Step>)
    ensures IsRun(ws, steps) && |steps| == 4 && steps[3] == Act(1, after, false) && |ws[3].db| == 1
    ensures ws[4] == World([before, after], Keys(None, 0, Some(1)), {}, 0, [Loaded(0, 0, before, 0), Committed(1)])
  {
    ws, steps := FillLoads(before);
    var update := Act(1, after, false);
    Extend(ws, steps, update);
    ws, steps := ws + [Next(ws[2], update)], steps + [update];
    Extend(ws, steps, update);
    ws, steps := ws + [Next(ws[3], update)], steps + [update];
  }

  /** It has completed, and the generation key expires. */
  lemma UpdateCompletes(before: Profile, after: Profile) returns (ws: seq<World>, steps: seq<Step>)
    ensures IsRun(ws, steps) && |steps| == 6 && CommitOf(ws, steps, 3, 4) && |ws[3].db| == 1
    ensures ws[6] == World([before, after], Keys(None, 0, None), {1}, 1, [Loaded(0, 0, before, 0), Updated])
  {
    ws, steps := UpdateCommits(before, after);
    var update := Act(1, after, false);
    Extend(ws, steps, update);
    ws, steps := ws + [Next(ws[4], update)], steps + [update];
    Extend(ws, steps, ExpireGeneration);
    ws, steps := ws + [Next(ws[5], ExpireGeneration)], steps + [ExpireGeneration];
  }

  /** One expiry of the generation key during a fill lets a stale profile in. */
  lemma ExpiryDuringFillBreaksCoherence(before: Profile, after: Profile) returns (ws: seq<World>, steps: seq<Step>)
    requires before != after
    ensures IsRun(ws, steps) && |steps| == 7 && !Coherent(ws, steps, 7)
  {
    ws, steps := UpdateCompletes(before, after);
    var fill := Act(0, before, false);
    Extend(ws, steps, fill);
    ws, steps := ws + [Next(ws[6], fill)], steps + [fill];
    assert CommitOf(ws, steps, 3, 4);
    assert ws[7].keys.value == Some(before) && ws[7].db[1] == after;
    assert forall k :: !CurrentAt(ws, steps, 7, k);
  }
}
