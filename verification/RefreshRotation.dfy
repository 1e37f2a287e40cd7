/** Refresh-token rotation: the RefreshToken handler (identity/source/identity_server.h:233-271)
    and JwtStore (common/auth/jwt_store.hpp), with each Redis command one step and
    any number of calls interleaved.  This is refresh token rotation in the sense of
    section 5.2.2.3 of RFC 6819; tokens expire as in section 4.1.4 of RFC 7519. */
module RefreshRotation {
  import opened Wrappers

  type Jti = nat
  type Owner = (string, string)

  const CHAIN_TTL := 24 * 3600

  /** A refresh token that was signed: whose it is and when it expires. */
  datatype Token = Token(owner: Owner, exp: int)
  /** A key with its deadline; it is there up to and including that time. */
  datatype Slot = Slot(jti: Jti, deadline: int)

  datatype Stage =
    | Started
    | Verified
    | Unrevoked
    | Matched(readAt: int)                                    // the active pointer named this token at readAt
    | Claimed(readAt: int, claimedAt: int, minted: Jti)        // SET NX on the chain key succeeded
    | Rotated(claimedAt: int)                                 // the active pointer names the new token
    | Exchanged(claimedAt: int)                               // the old one is blacklisted, the new one returned
    | Rejecting
    | Clearing
    | Failed

  /** One RefreshToken call, with the id and the claims of the token presented. */
  datatype Call = Call(jti: Jti, claims: Token, stage: Stage)

  /** `stall`: no call takes longer from reading the active pointer to replacing it; `ttl`: the refresh lifetime. */
  datatype Config = Config(stall: int, ttl: int)

  datatype World = World(now: int, tokens: map<Jti, Token>, revoked: map<Jti, int>,
                         active: map<Owner, Slot>, chain: map<Jti, int>, calls: seq<Call>)

  datatype Step =
    | Tick(to: int)
    | Login(owner: Owner, minted: Jti)
    | ForgetActive(owner: Owner)                              // a logout clears the pointer
    | Revoke(jti: Jti)                                        // ... and blacklists the token it named
    | Act(c: nat, minted: Jti)                                 // the next command of call `c`

  predicate Held(s: Stage) {
    s.Claimed? || s.Rotated? || s.Exchanged?
  }

  predicate Completed(s: Stage) {
    s.Rotated? || s.Exchanged?
  }

  function ActiveOf(w: World, o: Owner): Option<Jti> {
    if o in w.active && w.now <= w.active[o].deadline then Some(w.active[o].jti) else None
  }

  predicate InChain(w: World, j: Jti) {
    j in w.chain && w.now <= w.chain[j]
  }

  predicate Revoked(w: World, j: Jti) {
    j in w.revoked && w.now <= w.revoked[j]
  }

  predicate Enabled(w: World, g: Config, s: Step) {
    match s
    case Tick(to) => to >= w.now
    case Login(_, minted) => minted !in w.tokens
    case ForgetActive(_) => true
    case Revoke(_) => true
    case Act(c, minted) =>
      c < |w.calls| &&
      match w.calls[c].stage
      case Matched(readAt) => w.now <= readAt + g.stall && minted !in w.tokens
      case Claimed(readAt, _, _) => w.now <= readAt + g.stall
      case Exchanged(_) => false
      case Failed => false
      case _ => true
  }

  function Move(w: World, c: nat, s: Stage): World
    requires c < |w.calls|
  {
    w.(calls := w.calls[c := w.calls[c].(stage := s)])
  }

  /** JwtStore::revoke: no effect without a positive lifetime. */
  function Blacklist(w: World, j: Jti, ttl: int): map<Jti, int> {
    if ttl > 0 then w.revoked[j := w.now + ttl] else w.revoked
  }

  function Next(w: World, g: Config, s: Step): World
    requires Enabled(w, g, s)
  {
    match s
    case Tick(to) => w.(now := to)
    case Login(o, minted) =>
      w.(tokens := w.tokens[minted := Token(o, w.now + g.ttl)], active := w.active[o := Slot(minted, w.now + g.ttl)])
    case ForgetActive(o) => w.(active := w.active - {o})
    case Revoke(j) => w.(revoked := Blacklist(w, j, g.ttl))
    case Act(c, minted) => Advance(w, g, c, minted)
  }

  /** One command of RefreshToken. */
  function Advance(w: World, g: Config, c: nat, minted: Jti): World
    requires Enabled(w, g, Act(c, minted))
  {
    var j, o := w.calls[c].jti, w.calls[c].claims.owner;
    match w.calls[c].stage
    case Started =>
      // verify: signed by us with these claims, and not expired
      Move(w, c, if j in w.tokens && w.tokens[j] == w.calls[c].claims && w.now < w.tokens[j].exp
        then Verified else Failed)
    case Verified => Move(w, c, if Revoked(w, j) then Failed else Unrevoked)
    case Unrevoked => Move(w, c, if ActiveOf(w, o) == Some(j) then Matched(w.now) else Rejecting)
    case Matched(readAt) =>
      if InChain(w, j) then Move(w, c, Rejecting)
      else
        Move(w, c, Claimed(readAt, w.now, minted)).(
          chain := w.chain[j := w.now + CHAIN_TTL],
          tokens := w.tokens[minted := Token(o, w.now + g.ttl)])
    case Claimed(_, claimedAt, next) =>
      Move(w, c, Rotated(claimedAt)).(active := w.active[o := Slot(next, w.now + g.ttl)])
    case Rotated(claimedAt) =>
      Move(w, c, Exchanged(claimedAt)).(revoked := Blacklist(w, j, w.calls[c].claims.exp - w.now))
    case Rejecting => Move(w, c, Clearing).(revoked := Blacklist(w, j, g.ttl))
    case Clearing => Move(w, c, Failed).(active := w.active - {o})
  }

  predicate Initial(w: World) {
    && w.tokens == map[] && w.revoked == map[] && w.active == map[] && w.chain == map[]
    && forall c :: 0 <= c < |w.calls| ==> w.calls[c].stage == Started
  }

  function Run(start: World, g: Config, steps: seq<Step>): Option<World> {
    if steps == [] then Some(start)
    else
      var before := Run(start, g, steps[..|steps| - 1]);
      if before.Some? && Enabled(before.value, g, steps[|steps| - 1])
      then Some(Next(before.value, g, steps[|steps| - 1])) else None
  }

  // ----- The invariant -----

  /** A call that can no longer reach its rotation. */
  predicate Dead(w: World, g: Config, s: Stage) {
    s.Claimed? && w.now > s.readAt + g.stall
  }

  /** The call has seen the pointer name its token. */
  predicate Past(s: Stage) {
    s.Matched? || Held(s)
  }

  /** The pointer of an owner only names a signed token of that owner. */
  predicate PointersSigned(w: World) {
    forall o :: o in w.active ==> w.active[o].jti in w.tokens && w.tokens[w.active[o].jti].owner == o
  }

  predicate CallSigned(w: World, c: Call) {
    && (c.stage.Verified? || c.stage.Unrevoked? || Past(c.stage) ==> c.jti in w.tokens && w.tokens[c.jti] == c.claims)
    && (c.stage.Claimed? ==> c.stage.minted in w.tokens && w.tokens[c.stage.minted].owner == c.claims.owner)
  }

  /** The token a call is about to install is in nobody's hands. */
  predicate MintedUnused(w: World, c: nat)
    requires c < |w.calls|
  {
    w.calls[c].stage.Claimed? ==>
      var f := w.calls[c].stage.minted;
      && (forall o :: o in w.active ==> w.active[o].jti != f)
      && (forall d :: 0 <= d < |w.calls| && Past(w.calls[d].stage) ==> w.calls[d].jti != f)
      && (forall d :: 0 <= d < |w.calls| && d != c && w.calls[d].stage.Claimed? ==> w.calls[d].stage.minted != f)
  }

  function Min(a: int, b: int): int {
    if a < b then a else b
  }

  /** How long after the call that will replace a token saw it active another call may still see it so: until that
      call rotates, and no longer than the refresh lifetime. */
  function Overlap(g: Config): int {
    Min(g.stall, g.ttl)
  }

  /** The chain key outlives whoever may still present its token; with no lifetime no token passes verification. */
  predicate ChainOutlasts(g: Config) {
    g.ttl <= 0 || Overlap(g) + g.stall <= CHAIN_TTL
  }

  predicate TimesOrdered(w: World, g: Config, s: Stage) {
    && (s.Matched? ==> s.readAt <= w.now)
    && (s.Claimed? ==> s.readAt <= s.claimedAt <= w.now && s.claimedAt <= s.readAt + g.stall)
  }

  /** The time at which a call that has not rotated yet saw its token active. */
  predicate SawActive(s: Stage) {
    s.Matched? || s.Claimed?
  }

  /** A pointer was installed before anybody read it, so nobody reads it later than a lifetime after. */
  predicate ReadWithinLifetime(w: World, g: Config, c: Call) {
    SawActive(c.stage) ==>
      && (c.claims.owner in w.active && w.active[c.claims.owner].jti == c.jti ==>
            w.active[c.claims.owner].deadline <= c.stage.readAt + g.ttl)
      && (forall d :: 0 <= d < |w.calls| && w.calls[d].jti == c.jti && SawActive(w.calls[d].stage) ==>
            w.calls[d].stage.readAt <= c.stage.readAt + g.ttl)
  }

  /** Signed tokens have at most a lifetime left. */
  predicate Fresh(w: World, g: Config) {
    forall j :: j in w.tokens ==> w.tokens[j].exp <= w.now + g.ttl
  }

  /** Tokens and pointers are valid for a lifetime from some time that is past. */
  predicate Dated(w: World, g: Config) {
    && Fresh(w, g)
    && (forall o :: o in w.active ==> w.active[o].deadline <= w.now + g.ttl)
  }

  /** Without a positive lifetime no call passes verification. */
  predicate NoneWithoutLifetime(g: Config, s: Stage) {
    g.ttl <= 0 ==> s.Started? || s.Failed?
  }

  /** While a claim counts, the chain key was set by it. */
  predicate ChainOurs(w: World, g: Config, c: Call) {
    Held(c.stage) && !Dead(w, g, c.stage) ==> c.jti in w.chain && w.chain[c.jti] == c.stage.claimedAt + CHAIN_TTL
  }

  /** A replaced token is never active again, and whoever still saw it active is too late for its chain key. */
  predicate RetiredFor(w: World, g: Config, c: Call) {
    Completed(c.stage) ==>
      && (forall o :: o in w.active ==> w.active[o].jti != c.jti)
      && (forall d :: 0 <= d < |w.calls| && w.calls[d].jti == c.jti && w.calls[d].stage.Matched? ==>
            w.calls[d].stage.readAt <= c.stage.claimedAt + Overlap(g))
  }

  /** Two calls that claimed the same token. */
  predicate Rivals(w: World, c: nat, d: nat)
    requires c < |w.calls| && d < |w.calls|
  {
    c != d && w.calls[c].jti == w.calls[d].jti && Held(w.calls[c].stage) && Held(w.calls[d].stage)
  }

  /** Of two claims on one token, one is dead. */
  predicate OneLives(w: World, g: Config) {
    forall c, d :: 0 <= c < |w.calls| && 0 <= d < |w.calls| && Rivals(w, c, d) ==>
      Dead(w, g, w.calls[c].stage) || Dead(w, g, w.calls[d].stage)
  }

  predicate CallSound(w: World, g: Config, c: nat)
    requires c < |w.calls|
  {
    CallSigned(w, w.calls[c]) && MintedUnused(w, c) && TimesOrdered(w, g, w.calls[c].stage) &&
    ChainOurs(w, g, w.calls[c]) && RetiredFor(w, g, w.calls[c]) &&
    ReadWithinLifetime(w, g, w.calls[c]) && NoneWithoutLifetime(g, w.calls[c].stage)
  }

  predicate Inv(w: World, g: Config) {
    PointersSigned(w) && Dated(w, g) && OneLives(w, g) && forall c :: 0 <= c < |w.calls| ==> CallSound(w, g, c)
  }

  // ----- The commands, by what they change -----

  /** Only call `c` moves, and only to stage `s`; the blacklist plays no part in the invariant. */
  predicate Moves(w: World, w': World, c: nat, s: Stage)
    requires c < |w.calls|
  {
    w'.now == w.now && w'.calls == w.calls[c := w.calls[c].(stage := s)]
  }

  predicate SameKeys(w: World, w': World) {
    w'.tokens == w.tokens && w'.active == w.active && w'.chain == w.chain
  }

  /** Nothing gained: pointers may only disappear, and the call does not get past its match. */
  ghost predicate Retreats(w: World, w': World, c: nat)
    requires c < |w.calls|
  {
    !w.calls[c].stage.Failed? &&
    exists s :: !Past(s) && Moves(w, w', c, s) && w'.tokens == w.tokens && w'.chain == w.chain &&
      (s.Verified? || s.Unrevoked? ==> w.calls[c].jti in w.tokens && w.tokens[w.calls[c].jti] == w.calls[c].claims) &&
      (w.calls[c].stage.Started? && !s.Failed? ==>
         w.calls[c].jti in w.tokens && w.now < w.tokens[w.calls[c].jti].exp) &&
      (forall o :: o in w'.active ==> o in w.active && w'.active[o] == w.active[o])
  }

  predicate Matches(w: World, w': World, c: nat)
    requires c < |w.calls|
  {
    w.calls[c].stage.Unrevoked? && Moves(w, w', c, Matched(w.now)) && SameKeys(w, w') &&
    ActiveOf(w, w.calls[c].claims.owner) == Some(w.calls[c].jti)
  }

  predicate Claims(w: World, w': World, g: Config, c: nat, m: Jti)
    requires c < |w.calls|
  {
    w.calls[c].stage.Matched? && !InChain(w, w.calls[c].jti) &&
    w.now <= w.calls[c].stage.readAt + g.stall && m !in w.tokens &&
    Moves(w, w', c, Claimed(w.calls[c].stage.readAt, w.now, m)) && w'.active == w.active &&
    w'.chain == w.chain[w.calls[c].jti := w.now + CHAIN_TTL] &&
    w'.tokens == w.tokens[m := Token(w.calls[c].claims.owner, w.now + g.ttl)]
  }

  predicate Rotates(w: World, w': World, g: Config, c: nat)
    requires c < |w.calls|
  {
    w.calls[c].stage.Claimed? && w.now <= w.calls[c].stage.readAt + g.stall &&
    Moves(w, w', c, Rotated(w.calls[c].stage.claimedAt)) && w'.tokens == w.tokens && w'.chain == w.chain &&
    w'.active == w.active[w.calls[c].claims.owner := Slot(w.calls[c].stage.minted, w.now + g.ttl)]
  }

  predicate Returns(w: World, w': World, c: nat)
    requires c < |w.calls|
  {
    w.calls[c].stage.Rotated? && Moves(w, w', c, Exchanged(w.calls[c].stage.claimedAt)) && SameKeys(w, w')
  }

  lemma CommandKinds(w: World, g: Config, c: nat, m: Jti)
    requires Enabled(w, g, Act(c, m)) && CallSigned(w, w.calls[c])
    ensures var w' := Advance(w, g, c, m);
      Retreats(w, w', c) || Matches(w, w', c) || Claims(w, w', g, c, m) || Rotates(w, w', g, c) || Returns(w, w', c)
  {
    var w' := Advance(w, g, c, m);
    if !Past(w'.calls[c].stage) { assert Moves(w, w', c, w'.calls[c].stage); }
  }

  /** The parts of the invariant that speak of one call, for all of them at once. */
  lemma AllCalls(w: World, g: Config)
    requires Inv(w, g)
    ensures forall x :: 0 <= x < |w.calls| ==> CallSigned(w, w.calls[x]) && TimesOrdered(w, g, w.calls[x].stage)
  {
    forall x | 0 <= x < |w.calls|
      ensures CallSigned(w, w.calls[x]) && TimesOrdered(w, g, w.calls[x].stage)
    {
      assert CallSound(w, g, x);
    }
  }

  lemma RetreatKeeps(w: World, w': World, g: Config, c: nat)
    requires Inv(w, g) && c < |w.calls| && Retreats(w, w', c)
    ensures Inv(w', g)
  {
    forall d | 0 <= d < |w'.calls|
      ensures CallSound(w', g, d)
    {
      assert CallSound(w, g, d);
    }
    assert forall d, e :: 0 <= d < |w.calls| && 0 <= e < |w.calls| && Rivals(w', d, e) ==> Rivals(w, d, e);
  }

  lemma MatchKeeps(w: World, w': World, g: Config, c: nat)
    requires Inv(w, g) && c < |w.calls| && Matches(w, w', c)
    ensures Inv(w', g)
  {
    AllCalls(w, g);
    forall d | 0 <= d < |w'.calls|
      ensures CallSound(w', g, d)
    {
      assert CallSound(w, g, d) && CallSound(w, g, c);
    }
    assert forall d, e :: 0 <= d < |w.calls| && 0 <= e < |w.calls| && Rivals(w', d, e) ==> Rivals(w, d, e);
  }

  lemma ReturnKeeps(w: World, w': World, g: Config, c: nat)
    requires Inv(w, g) && c < |w.calls| && Returns(w, w', c)
    ensures Inv(w', g)
  {
    forall d | 0 <= d < |w'.calls|
      ensures CallSound(w', g, d)
    {
      assert CallSound(w, g, d) && CallSound(w, g, c);
    }
    assert forall d, e :: 0 <= d < |w.calls| && 0 <= e < |w.calls| && Rivals(w', d, e) ==> Rivals(w, d, e);
  }

  /** The pointer moves on to a token nobody has: the old one is retired. */
  lemma RotateKeeps(w: World, w': World, g: Config, c: nat)
    requires Inv(w, g) && c < |w.calls| && Rotates(w, w', g, c)
    ensures Inv(w', g)
  {
    AllCalls(w, g);
    assert CallSound(w, g, c);
    forall d | 0 <= d < |w'.calls|
      ensures CallSound(w', g, d)
    {
      assert CallSound(w, g, d);
    }
    assert forall d, e :: 0 <= d < |w.calls| && 0 <= e < |w.calls| && Rivals(w', d, e) ==> Rivals(w, d, e);
  }

  /** With overlap and stall inside the chain lifetime, a second claim on a token finds its key unless the first is
      dead. */
  lemma ClaimNeedsDeath(w: World, g: Config, c: nat, d: nat)
    requires Inv(w, g) && ChainOutlasts(g) && c < |w.calls| && d < |w.calls| && c != d
    requires w.calls[c].jti == w.calls[d].jti && w.calls[c].stage.Matched? && Held(w.calls[d].stage)
    requires w.now <= w.calls[c].stage.readAt + g.stall && !InChain(w, w.calls[c].jti)
    ensures Dead(w, g, w.calls[d].stage)
  {
    assert CallSound(w, g, c) && CallSound(w, g, d);
  }

  lemma ClaimKeeps(w: World, w': World, g: Config, c: nat, m: Jti)
    requires Inv(w, g) && ChainOutlasts(g) && c < |w.calls| && Claims(w, w', g, c, m)
    ensures Inv(w', g)
  {
    forall d | 0 <= d < |w.calls| && d != c && w.calls[d].jti == w.calls[c].jti && Held(w.calls[d].stage)
      ensures Dead(w, g, w.calls[d].stage)
    {
      ClaimNeedsDeath(w, g, c, d);
    }
    AllCalls(w, g);
    assert CallSound(w, g, c);
    forall d | 0 <= d < |w'.calls|
      ensures CallSound(w', g, d)
    {
      assert CallSound(w, g, d);
    }
    assert forall d, e :: 0 <= d < |w.calls| && 0 <= e < |w.calls| && d != c && e != c && Rivals(w', d, e) ==>
      Rivals(w, d, e);
  }

  lemma OthersKeep(w: World, g: Config, s: Step)
    requires Inv(w, g) && Enabled(w, g, s) && !s.Act?
    ensures Inv(Next(w, g, s), g)
  {
    var w' := Next(w, g, s);
    forall d | 0 <= d < |w'.calls|
      ensures CallSound(w', g, d)
    {
      assert CallSound(w, g, d);
    }
    assert forall d, e :: 0 <= d < |w.calls| && 0 <= e < |w.calls| && Rivals(w', d, e) ==> Rivals(w, d, e);
  }

  lemma StepKeepsInv(w: World, g: Config, s: Step)
    requires Inv(w, g) && Enabled(w, g, s) && ChainOutlasts(g)
    ensures Inv(Next(w, g, s), g)
  {
    if s.Act? {
      var w' := Advance(w, g, s.c, s.minted);
      assert CallSound(w, g, s.c);
      CommandKinds(w, g, s.c, s.minted);
      if Retreats(w, w', s.c) { RetreatKeeps(w, w', g, s.c); }
      else if Matches(w, w', s.c) { MatchKeeps(w, w', g, s.c); }
      else if Claims(w, w', g, s.c, s.minted) { ClaimKeeps(w, w', g, s.c, s.minted); }
      else if Rotates(w, w', g, s.c) { RotateKeeps(w, w', g, s.c); }
      else { ReturnKeeps(w, w', g, s.c); }
    } else {
      OthersKeep(w, g, s);
    }
  }

  lemma InitialInv(w: World, g: Config)
    requires Initial(w)
    ensures Inv(w, g)
  {
  }

  lemma {:induction false} InvReached(start: World, g: Config, steps: seq<Step>)
    requires Initial(start) && Run(start, g, steps).Some? && ChainOutlasts(g)
    ensures Inv(Run(start, g, steps).value, g)
  {
    if steps == [] {
      InitialInv(start, g);
    } else {
      InvReached(start, g, steps[..|steps| - 1]);
      StepKeepsInv(Run(start, g, steps[..|steps| - 1]).value, g, steps[|steps| - 1]);
    }
  }

  /** Two calls completed the exchange of the same token. */
  predicate ExchangedTwice(w: World) {
    exists c, d :: 0 <= c < |w.calls| && 0 <= d < |w.calls| && Rivals(w, c, d) &&
      Completed(w.calls[c].stage) && Completed(w.calls[d].stage)
  }

  /** In every interleaving in which the chain key outlives whoever may still present its token, no refresh token is
      exchanged twice, however long ago the key expired. */
  lemma ExchangedAtMostOnce(start: World, g: Config, steps: seq<Step>)
    requires Initial(start) && Run(start, g, steps).Some? && ChainOutlasts(g)
    ensures !ExchangedTwice(Run(start, g, steps).value)
  {
    InvReached(start, g, steps);
  }

  // ----- The blacklist -----

  /** The call has passed verification. */
  predicate Presented(s: Stage) {
    !s.Started? && !s.Failed?
  }

  /** What verification established about a call stands. */
  predicate Genuine(w: World, g: Config, c: Call) {
    Presented(c.stage) ==>
      g.ttl > 0 && c.jti in w.tokens && w.tokens[c.jti] == c.claims && c.claims.exp <= w.now + g.ttl
  }

  /** A token that was exchanged, or about to be reported as reused, is blacklisted while it would pass verification. */
  predicate Barred(w: World, c: Call) {
    c.stage.Exchanged? || c.stage.Clearing? ==>
      w.now >= c.claims.exp || (c.jti in w.revoked && w.revoked[c.jti] >= c.claims.exp)
  }

  predicate BlacklistInv(w: World, g: Config) {
    Fresh(w, g) && forall c :: 0 <= c < |w.calls| ==> Genuine(w, g, w.calls[c]) && Barred(w, w.calls[c])
  }

  /** A blacklist entry is only ever replaced by one that lasts as long as its token. */
  lemma RevokedLasts(w: World, g: Config, s: Step, j: Jti)
    requires BlacklistInv(w, g) && Enabled(w, g, s) && j in w.tokens && j in w.revoked
    requires w.revoked[j] >= w.tokens[j].exp
    ensures var w' := Next(w, g, s); j in w'.revoked && w'.revoked[j] >= w.tokens[j].exp
  {
    if s.Act? { assert Genuine(w, g, w.calls[s.c]); }
  }

  lemma StepKeepsFresh(w: World, g: Config, s: Step)
    requires BlacklistInv(w, g) && Enabled(w, g, s)
    ensures var w' := Next(w, g, s); Fresh(w', g) && w.now <= w'.now && |w'.calls| == |w.calls|
    ensures forall j :: j in w.tokens ==> j in Next(w, g, s).tokens && Next(w, g, s).tokens[j] == w.tokens[j]
  {
  }

  lemma OwnStaysBarred(w: World, g: Config, c: nat, m: Jti)
    requires BlacklistInv(w, g) && Enabled(w, g, Act(c, m))
    ensures var w' := Advance(w, g, c, m); Genuine(w', g, w'.calls[c]) && Barred(w', w'.calls[c])
  {
    assert Genuine(w, g, w.calls[c]);
    assert w.calls[c].stage.Started? ==> w.calls[c].jti in w.tokens ==> w.tokens[w.calls[c].jti].exp <= w.now + g.ttl;
  }

  lemma StepKeepsBlacklist(w: World, g: Config, s: Step)
    requires BlacklistInv(w, g) && Enabled(w, g, s)
    ensures BlacklistInv(Next(w, g, s), g)
  {
    var w' := Next(w, g, s);
    StepKeepsFresh(w, g, s);
    forall c | 0 <= c < |w'.calls|
      ensures Genuine(w', g, w'.calls[c]) && Barred(w', w'.calls[c])
    {
      assert Genuine(w, g, w.calls[c]) && Barred(w, w.calls[c]);
      if s.Act? && s.c == c {
        OwnStaysBarred(w, g, c, s.minted);
      } else {
        assert w'.calls[c] == w.calls[c];
        var j := w.calls[c].jti;
        if j in w.tokens && j in w.revoked && w.revoked[j] >= w.tokens[j].exp { RevokedLasts(w, g, s, j); }
      }
    }
  }

  lemma {:induction false} BlacklistReached(start: World, g: Config, steps: seq<Step>)
    requires Initial(start) && Run(start, g, steps).Some?
    ensures BlacklistInv(Run(start, g, steps).value, g)
  {
    if steps != [] {
      BlacklistReached(start, g, steps[..|steps| - 1]);
      StepKeepsBlacklist(Run(start, g, steps[..|steps| - 1]).value, g, steps[|steps| - 1]);
    }
  }

  /** In every interleaving, whatever the lifetimes, a token that was exchanged is blacklisted as long as it would pass
      verification. */
  lemma ExchangedIsBlacklisted(start: World, g: Config, steps: seq<Step>, c: nat)
    requires Initial(start) && Run(start, g, steps).Some? && c < |Run(start, g, steps).value.calls|
    ensures var w := Run(start, g, steps).value;
      w.calls[c].stage.Exchanged? && w.now < w.calls[c].claims.exp ==> Revoked(w, w.calls[c].jti)
  {
    BlacklistReached(start, g, steps);
    assert Barred(Run(start, g, steps).value, Run(start, g, steps).value.calls[c]);
  }

  lemma CommandMovesOne(w: World, g: Config, c: nat, m: Jti)
    requires Enabled(w, g, Act(c, m))
    ensures var calls := Advance(w, g, c, m).calls;
      !w.calls[c].stage.Failed? && |calls| == |w.calls| && calls == w.calls[c := calls[c]]
  {
  }

  lemma StepKeepsFailed(w: World, g: Config, s: Step, c: nat)
    requires c < |w.calls| && w.calls[c].stage.Failed? && Enabled(w, g, s)
    ensures c < |Next(w, g, s).calls| && Next(w, g, s).calls[c].stage.Failed?
  {
    if s.Act? { CommandMovesOne(w, g, s.c, s.minted); }
  }

  /** What failed stays so. */
  lemma {:induction false} FailedStays(w: World, g: Config, steps: seq<Step>, c: nat)
    requires c < |w.calls| && w.calls[c].stage.Failed? && Run(w, g, steps).Some?
    ensures c < |Run(w, g, steps).value.calls| && Run(w, g, steps).value.calls[c].stage.Failed?
  {
    if steps != [] {
      FailedStays(w, g, steps[..|steps| - 1], c);
      StepKeepsFailed(Run(w, g, steps[..|steps| - 1]).value, g, steps[|steps| - 1], c);
    }
  }

  /** A call that finds its token blacklisted fails for good, and its command changes nothing else. */
  lemma BlacklistedFails(w: World, g: Config, c: nat, m: Jti, later: seq<Step>)
    requires c < |w.calls| && w.calls[c].stage == Verified && Revoked(w, w.calls[c].jti)
    requires Run(Next(w, g, Act(c, m)), g, later).Some?
    ensures Next(w, g, Act(c, m)) == w.(calls := w.calls[c := w.calls[c].(stage := Failed)])
    ensures var w' := Run(Next(w, g, Act(c, m)), g, later).value; c < |w'.calls| && w'.calls[c].stage.Failed?
  {
    FailedStays(Next(w, g, Act(c, m)), g, later, c);
  }

  /** So once a token is exchanged, no call that has yet to look at the blacklist gets past it while the token lasts. */
  lemma ReplayIsRefused(start: World, g: Config, steps: seq<Step>, c: nat, d: nat, m: Jti)
    requires Initial(start) && Run(start, g, steps).Some?
    requires var w := Run(start, g, steps).value;
      && c < |w.calls| && d < |w.calls| && w.calls[c].jti == w.calls[d].jti
      && w.calls[c].stage.Exchanged? && w.calls[d].stage.Verified? && w.now < w.calls[d].claims.exp
    ensures var w := Run(start, g, steps).value;
      Next(w, g, Act(d, m)) == w.(calls := w.calls[d := w.calls[d].(stage := Failed)])
  {
    var w := Run(start, g, steps).value;
    BlacklistReached(start, g, steps);
    assert Genuine(w, g, w.calls[c]) && Genuine(w, g, w.calls[d]);
    ExchangedIsBlacklisted(start, g, steps, c);
  }

  // ----- A call by itself -----

  /** How many commands a call has at most ahead of it. */
  function Ahead(s: Stage): nat {
    match s
    case Started => 6
    case Verified => 5
    case Unrevoked => 4
    case Matched(_) => 3
    case Claimed(_, _, _) => 2
    case Rotated(_) => 1
    case Rejecting => 2
    case Clearing => 1
    case _ => 0
  }

  /** Call `c` alone runs to its end. */
  function Finish(w: World, g: Config, c: nat, m: Jti): World
    requires c < |w.calls|
    decreases Ahead(w.calls[c].stage)
  {
    if Enabled(w, g, Act(c, m)) then Finish(Advance(w, g, c, m), g, c, m) else w
  }

  lemma RejectsAlone(w: World, g: Config, c: nat, m: Jti)
    requires c < |w.calls| && w.calls[c].stage == Rejecting && g.ttl > 0
    ensures var j, o := w.calls[c].jti, w.calls[c].claims.owner;
      Finish(w, g, c, m) ==
        Move(w, c, Failed).(revoked := w.revoked[j := w.now + g.ttl], active := w.active - {o})
  {
    var w1 := Advance(w, g, c, m);
    assert Finish(w, g, c, m) == Finish(Advance(w1, g, c, m), g, c, m);
  }

  lemma ExchangesAlone(w: World, g: Config, c: nat, m: Jti)
    requires c < |w.calls| && w.calls[c].stage == Matched(w.now) && !InChain(w, w.calls[c].jti)
    requires m !in w.tokens && g.stall >= 0 && w.now < w.calls[c].claims.exp
    ensures var j, o := w.calls[c].jti, w.calls[c].claims.owner;
      Finish(w, g, c, m) == Move(w, c, Exchanged(w.now)).(
        tokens := w.tokens[m := Token(o, w.now + g.ttl)], active := w.active[o := Slot(m, w.now + g.ttl)],
        chain := w.chain[j := w.now + 86400], revoked := w.revoked[j := w.calls[c].claims.exp])
  {
    var w1 := Advance(w, g, c, m);
    var w2 := Advance(w1, g, c, m);
    var w3 := Advance(w2, g, c, m);
    assert Finish(w, g, c, m) == Finish(w2, g, c, m) == Finish(w3, g, c, m);
  }

  /** RefreshToken undisturbed.  A token that is not genuine, expired or blacklisted changes nothing.  One that is not
      the active one, or was claimed within the last day, is blacklisted and its owner logged out.  Any other is
      exchanged: claimed for a day, blacklisted for the rest of its life, and the new one active. */
  lemma RefreshAlone(w: World, g: Config, c: nat, m: Jti)
    requires c < |w.calls| && w.calls[c].stage == Started && m !in w.tokens && g.stall >= 0 && g.ttl > 0
    ensures var j, t := w.calls[c].jti, w.calls[c].claims; var o := t.owner;
      Finish(w, g, c, m) ==
        if j !in w.tokens || w.tokens[j] != t || w.now >= t.exp || Revoked(w, j) then Move(w, c, Failed)
        else if ActiveOf(w, o) != Some(j) || InChain(w, j) then
          Move(w, c, Failed).(revoked := w.revoked[j := w.now + g.ttl], active := w.active - {o})
        else
          Move(w, c, Exchanged(w.now)).(
            tokens := w.tokens[m := Token(o, w.now + g.ttl)], active := w.active[o := Slot(m, w.now + g.ttl)],
            chain := w.chain[j := w.now + 86400], revoked := w.revoked[j := t.exp])
  {
    var j, t := w.calls[c].jti, w.calls[c].claims;
    var w1 := Advance(w, g, c, m);
    assert Finish(w, g, c, m) == Finish(w1, g, c, m);
    if w1.calls[c].stage == Verified {
      var w2 := Advance(w1, g, c, m);
      assert Finish(w1, g, c, m) == Finish(w2, g, c, m);
      if w2.calls[c].stage == Unrevoked { MatchesAlone(w2, g, c, m); }
    }
  }

  lemma MatchesAlone(w: World, g: Config, c: nat, m: Jti)
    requires c < |w.calls| && w.calls[c].stage == Unrevoked && m !in w.tokens && g.stall >= 0 && g.ttl > 0
    requires w.now < w.calls[c].claims.exp
    ensures var j, t := w.calls[c].jti, w.calls[c].claims; var o := t.owner;
      Finish(w, g, c, m) ==
        if ActiveOf(w, o) != Some(j) || InChain(w, j) then
          Move(w, c, Failed).(revoked := w.revoked[j := w.now + g.ttl], active := w.active - {o})
        else
          Move(w, c, Exchanged(w.now)).(
            tokens := w.tokens[m := Token(o, w.now + g.ttl)], active := w.active[o := Slot(m, w.now + g.ttl)],
            chain := w.chain[j := w.now + 86400], revoked := w.revoked[j := t.exp])
  {
    var w1 := Advance(w, g, c, m);
    assert Finish(w, g, c, m) == Finish(w1, g, c, m);
    if w1.calls[c].stage == Rejecting {
      RejectsAlone(w1, g, c, m);
    } else if InChain(w1, w1.calls[c].jti) {
      var w2 := Advance(w1, g, c, m);
      assert Finish(w1, g, c, m) == Finish(w2, g, c, m);
      RejectsAlone(w2, g, c, m);
    } else {
      ExchangesAlone(w1, g, c, m);
    }
  }

  // ----- The bound is exact -----

  lemma Extend(start: World, g: Config, steps: seq<Step>, w: World, s: Step, w': World)
    requires Run(start, g, steps) == Some(w) && Enabled(w, g, s) && Next(w, g, s) == w'
    ensures Run(start, g, steps + [s]) == Some(w')
  {
    assert (steps + [s])[..|steps|] == steps;
  }

  const US: Owner := ("user", "device")

  /** Two calls on token 0, nothing blacklisted, and token 2 not yet minted. */
  predicate Two(w: World, g: Config, a: Stage, b: Stage) {
    && w.calls == [Call(0, Token(US, g.ttl), a), Call(0, Token(US, g.ttl), b)]
    && w.revoked == map[] && 2 !in w.tokens
  }

  /** Token 0 is signed and active. */
  predicate InForce(w: World, g: Config) {
    && 0 in w.tokens && w.tokens[0] == Token(US, g.ttl)
    && US in w.active && w.active[US] == Slot(0, g.ttl)
  }

  predicate ChainIs(w: World, deadline: int) {
    0 in w.chain && w.chain[0] == deadline
  }

  /** Two commands take a call past verification and the blacklist. */
  lemma CallChecks(start: World, g: Config, steps: seq<Step>, w: World, c: nat, m: Jti)
    requires Run(start, g, steps) == Some(w) && c < |w.calls| && w.calls[c].stage == Started
    requires var j := w.calls[c].jti;
      j in w.tokens && w.tokens[j] == w.calls[c].claims && w.now < w.tokens[j].exp && !Revoked(w, j)
    ensures Run(start, g, steps + [Act(c, m)] + [Act(c, m)]) == Some(Move(w, c, Unrevoked))
  {
    Extend(start, g, steps, w, Act(c, m), Move(w, c, Verified));
    Extend(start, g, steps + [Act(c, m)], Move(w, c, Verified), Act(c, m), Move(w, c, Unrevoked));
  }

  /** A login, and two calls with its token past their checks. */
  lemma BothCheck(g: Config) returns (start: World, steps: seq<Step>, w: World)
    requires g.ttl > 0
    ensures Initial(start) && Run(start, g, steps) == Some(w)
    ensures w.now == 0 && Two(w, g, Unrevoked, Unrevoked) && InForce(w, g) && 0 !in w.chain && 1 !in w.tokens
  {
    var call := Call(0, Token(US, g.ttl), Started);
    start := World(0, map[], map[], map[], map[], [call, call]);
    var w1 := Next(start, g, Login(US, 0));
    Extend(start, g, [], start, Login(US, 0), w1);
    CallChecks(start, g, [] + [Login(US, 0)], w1, 0, 1);
    steps := [] + [Login(US, 0)] + [Act(0, 1)] + [Act(0, 1)];
    var w2 := Move(w1, 0, Unrevoked);
    CallChecks(start, g, steps, w2, 1, 1);
    steps, w := steps + [Act(1, 1)] + [Act(1, 1)], Move(w2, 1, Unrevoked);
  }

  /** The first call matches, claims the token and then stalls. */
  lemma FirstClaims(g: Config) returns (start: World, steps: seq<Step>, w: World)
    requires g.ttl > 0 && g.stall >= 0
    ensures Initial(start) && Run(start, g, steps) == Some(w)
    ensures w.now == 0 && Two(w, g, Claimed(0, 0, 1), Unrevoked) && InForce(w, g) && ChainIs(w, CHAIN_TTL)
  {
    start, steps, w := BothCheck(g);
    var w1 := Advance(w, g, 0, 1);
    Extend(start, g, steps, w, Act(0, 1), w1);
    var w2 := Advance(w1, g, 0, 1);
    Extend(start, g, steps + [Act(0, 1)], w1, Act(0, 1), w2);
    steps, w := steps + [Act(0, 1)] + [Act(0, 1)], w2;
  }

  lemma Wait(start: World, g: Config, steps: seq<Step>, w: World, to: int) returns (steps': seq<Step>, w': World)
    requires Run(start, g, steps) == Some(w) && w.now <= to
    ensures Run(start, g, steps') == Some(w') && w' == w.(now := to)
  {
    w' := w.(now := to);
    Extend(start, g, steps, w, Tick(to), w');
    steps' := steps + [Tick(to)];
  }

  /** At the last moment, before the first call replaces the old token or its pointer expires, the second sees it
      active; and then the first replaces it. */
  lemma SecondMatches(g: Config) returns (start: World, steps: seq<Step>, w: World)
    requires g.ttl > 0 && g.stall >= 0
    ensures Initial(start) && Run(start, g, steps) == Some(w)
    ensures w.now == Overlap(g) && Two(w, g, Rotated(0), Matched(Overlap(g))) && ChainIs(w, CHAIN_TTL)
  {
    start, steps, w := FirstClaims(g);
    steps, w := Wait(start, g, steps, w, Overlap(g));
    var w1 := Advance(w, g, 1, 2);
    Extend(start, g, steps, w, Act(1, 2), w1);
    var w2 := Advance(w1, g, 0, 2);
    Extend(start, g, steps + [Act(1, 2)], w1, Act(0, 2), w2);
    steps, w := steps + [Act(1, 2)] + [Act(0, 2)], w2;
  }

  /** The second call stalls until the chain key is gone. */
  lemma SecondClaims(g: Config) returns (start: World, steps: seq<Step>, w: World)
    requires !ChainOutlasts(g)
    ensures Initial(start) && Run(start, g, steps) == Some(w)
    ensures var m := Overlap(g);
      && w.now == m + g.stall
      && w.calls == [Call(0, Token(US, g.ttl), Rotated(0)), Call(0, Token(US, g.ttl), Claimed(m, m + g.stall, 2))]
  {
    start, steps, w := SecondMatches(g);
    steps, w := Wait(start, g, steps, w, Overlap(g) + g.stall);
    var w' := Advance(w, g, 1, 2);
    Extend(start, g, steps, w, Act(1, 2), w');
    steps, w := steps + [Act(1, 2)], w';
  }

  /** Whenever the chain key may be outlasted, and although each call stays within its own stall, a token can be
      exchanged twice. */
  lemma OutlastedChainExchangesTwice(g: Config) returns (start: World, steps: seq<Step>)
    requires !ChainOutlasts(g)
    ensures Initial(start) && Run(start, g, steps).Some? && ExchangedTwice(Run(start, g, steps).value)
  {
    var w;
    start, steps, w := SecondClaims(g);
    var w' := Advance(w, g, 1, 2);
    Extend(start, g, steps, w, Act(1, 2), w');
    steps := steps + [Act(1, 2)];
    assert Rivals(w', 0, 1);
  }

  /** The bound is exact. */
  lemma SafeExactlyIfChainOutlasts(g: Config)
    ensures ChainOutlasts(g) <==>
      forall start, steps :: Initial(start) && Run(start, g, steps).Some? ==>
        !ExchangedTwice(Run(start, g, steps).value)
  {
    if ChainOutlasts(g) {
      forall start, steps | Initial(start) && Run(start, g, steps).Some?
        ensures !ExchangedTwice(Run(start, g, steps).value)
      {
        ExchangedAtMostOnce(start, g, steps);
      }
    } else {
      var start, steps := OutlastedChainExchangesTwice(g);
    }
  }
}
