/** At-least-once push delivery (push/source/push_server.h): persist before send
    in every handler, and what acknowledging a queue message guarantees.  The
    handlers run against Redis and websocket calls that may fail at any point,
    and every persistence or send is recorded in a trace of the whole cluster. */
module PushDelivery {
  import opened Wrappers

  type Uid = string
  type Did = string
  type Instance = string
  type UserSeq = nat

  /** A notification: with the user's sequence number in it, or without. */
  datatype Payload = Plain | Sequenced(s: UserSeq)

  datatype Device = Device(did: Did, inst: Instance)

  /** The devices of a user and the push instance each is connected to. */
  type Route = seq<Device>

  /** An entry written to the unacked ledger; a payload handed by instance `at` to its connections of a device,
      some of which took it if `delivered`; or a request to put off the resend of entries. */
  datatype Event =
    | Persisted(uid: Uid, did: Did, s: UserSeq)
    | Sent(at: Instance, uid: Uid, did: Did, payload: Payload, delivered: bool)
    | Bumped(uid: Uid, did: Did, numbers: seq<UserSeq>)

  type Entry = (Uid, Did, UserSeq)

  datatype Action = Ack | NackRequeue

  /** The ledger entries written in a trace. */
  function Entries(trace: seq<Event>): set<Entry> {
    set e | e in trace && e.Persisted? :: (e.uid, e.did, e.s)
  }

  function Since(trace: seq<Event>, n: nat): set<Entry> {
    if n <= |trace| then Entries(trace[n..]) else {}
  }

  /** Every sequenced payload was sent after an entry for that user, device and number was written. */
  predicate Backed(trace: seq<Event>) {
    forall i :: 0 <= i < |trace| && trace[i].Sent? && trace[i].payload.Sequenced? ==>
      (trace[i].uid, trace[i].did, trace[i].payload.s) in Entries(trace[..i])
  }

  lemma BackedGrows(trace: seq<Event>, e: Event)
    requires Backed(trace)
    requires e.Sent? && e.payload.Sequenced? ==> (e.uid, e.did, e.payload.s) in Entries(trace)
    ensures Backed(trace + [e])
  {
    var t := trace + [e];
    forall i | 0 <= i < |t| && t[i].Sent? && t[i].payload.Sequenced?
      ensures (t[i].uid, t[i].did, t[i].payload.s) in Entries(t[..i])
    {
      assert t[..i] == trace[..i];
      if i == |trace| { assert trace[..i] == trace; }
    }
  }

  lemma SinceGrows(t: seq<Event>, t': seq<Event>, n: nat)
    requires t <= t'
    ensures Since(t, n) <= Since(t', n)
  {
    if n <= |t| {
      assert forall e :: e in t[n..] ==> e in t'[n..] by {
        forall e | e in t[n..]
          ensures e in t'[n..]
        {
          var i :| 0 <= i < |t[n..]| && t[n..][i] == e;
          assert t'[n..][i] == e;
        }
      }
    }
  }

  lemma SinceLater(t: seq<Event>, n: nat, m: nat)
    requires n <= m <= |t|
    ensures Since(t, m) <= Since(t, n) <= Entries(t)
  {
    assert t[m..] == t[n..][m - n..];
  }

  /** After the first `n` events, a connection of instance `at` took a sequenced payload for the user. */
  predicate Took(trace: seq<Event>, n: nat, at: Instance, uid: Uid) {
    exists i :: n <= i < |trace| && TookAt(trace[i], at, uid)
  }

  predicate TookAt(e: Event, at: Instance, uid: Uid) {
    e.Sent? && e.at == at && e.uid == uid && e.payload.Sequenced? && e.delivered
  }

  /** It was taken by now if it was taken before, or since. */
  lemma TookSplits(t: seq<Event>, t': seq<Event>, n: nat, at: Instance, uid: Uid)
    requires t <= t' && n <= |t|
    ensures Took(t', n, at, uid) <==> Took(t, n, at, uid) || Took(t', |t|, at, uid)
  {
    if Took(t, n, at, uid) {
      var i :| n <= i < |t| && TookAt(t[i], at, uid);
      assert TookAt(t'[i], at, uid);
    }
    if Took(t', n, at, uid) {
      var i :| n <= i < |t'| && TookAt(t'[i], at, uid);
      assert i < |t| ==> TookAt(t[i], at, uid);
    }
  }

  /** From event `n` on, everything concerns these users. */
  predicate About(t: seq<Event>, n: nat, uids: set<Uid>) {
    forall i :: n <= i < |t| ==> t[i].uid in uids
  }

  /** From event `n` on, all sends are by instance `at`. */
  predicate SentBy(t: seq<Event>, n: nat, at: Instance) {
    forall i :: n <= i < |t| && t[i].Sent? ==> t[i].at == at
  }

  predicate NotSentBy(t: seq<Event>, n: nat, at: Instance) {
    forall i :: n <= i < |t| && t[i].Sent? ==> t[i].at != at
  }

  predicate HasLocal(route: Route, self: Instance, did: Did) {
    exists k :: 0 <= k < |route| && route[k].inst == self && route[k].did == did
  }

  /** From event `n` on, entries for the user are for devices of this instance only. */
  predicate OnlyLocal(t: seq<Event>, n: nat, route: Route, self: Instance, uid: Uid) {
    forall i :: n <= i < |t| && t[i].Persisted? && t[i].uid == uid ==> HasLocal(route, self, t[i].did)
  }

  predicate DistinctDevices(route: Route) {
    forall j, k :: 0 <= j < k < |route| ==> route[j].did != route[k].did
  }

  /** None of these entries is for a device of the user on another instance. */
  predicate NoneOnPeers(es: set<Entry>, route: Route, self: Instance, uid: Uid) {
    forall k, e :: 0 <= k < |route| && OnPeer(route[k], self) && e in es && e.0 == uid ==> e.1 != route[k].did
  }

  lemma OnlyLocalMeansNoneOnPeers(t: seq<Event>, n: nat, route: Route, self: Instance, uid: Uid)
    requires n <= |t| && OnlyLocal(t, n, route, self, uid) && DistinctDevices(route)
    ensures NoneOnPeers(Since(t, n), route, self, uid)
  {
    forall k, e | 0 <= k < |route| && OnPeer(route[k], self) && e in Since(t, n) && e.0 == uid
      ensures e.1 != route[k].did
    {
      var i :| 0 <= i < |t[n..]| && t[n..][i].Persisted? && (t[n..][i].uid, t[n..][i].did, t[n..][i].s) == e;
      assert t[n..][i] == t[n + i];
      assert HasLocal(route, self, t[n + i].did);
    }
  }

  function Users(uids: seq<Uid>): set<Uid> {
    set u | u in uids
  }

  predicate Distinct(members: seq<Uid>) {
    forall i, j :: 0 <= i < j < |members| ==> members[i] != members[j]
  }

  /** Every device of the route has an entry. */
  predicate Covered(es: set<Entry>, route: Route, uid: Uid, s: UserSeq) {
    forall k :: 0 <= k < |route| ==> (uid, route[k].did, s) in es
  }

  /** Every device connected to this instance has an entry. */
  predicate CoveredHere(es: set<Entry>, route: Route, self: Instance, uid: Uid, s: UserSeq) {
    forall k :: 0 <= k < |route| && route[k].inst == self ==> (uid, route[k].did, s) in es
  }

  /** A device that some instance claims. */
  predicate Routed(d: Device, self: Instance) {
    d.inst == self || d.inst != ""
  }

  predicate OnPeer(d: Device, self: Instance) {
    d.inst != self && d.inst != ""
  }

  /** Every routed device has an entry. */
  predicate CoveredRouted(es: set<Entry>, route: Route, self: Instance, uid: Uid, s: UserSeq) {
    forall k :: 0 <= k < |route| && Routed(route[k], self) ==> (uid, route[k].did, s) in es
  }

  /** If any device is routed, some device has an entry. */
  predicate CoveredSomewhere(es: set<Entry>, route: Route, self: Instance, uid: Uid, s: UserSeq) {
    (exists k :: 0 <= k < |route| && Routed(route[k], self)) ==>
      exists k :: 0 <= k < |route| && (uid, route[k].did, s) in es
  }

  predicate OnInstance(route: Route, inst: Instance) {
    exists k :: 0 <= k < |route| && route[k].inst == inst
  }

  /** Every peer that has a device of the user is to be told about the user. */
  predicate Grouped(peers: map<Instance, set<Uid>>, route: Route, self: Instance, uid: Uid) {
    forall k :: 0 <= k < |route| && OnPeer(route[k], self) ==> route[k].inst in peers && uid in peers[route[k].inst]
  }

  /** Local entries from step 1, and a full set from any peer told in step 3, add up to the coverage of a member. */
  lemma Coverage(here: set<Entry>, there: set<Entry>, all: set<Entry>, peers: map<Instance, set<Uid>>,
                 route: Route, self: Instance, uid: Uid, s: UserSeq, served: bool)
    requires here <= all && there <= all && CoveredHere(here, route, self, uid, s)
    requires served ==> exists k :: 0 <= k < |route| && route[k].inst == self
    requires !served ==> Grouped(peers, route, self, uid)
    requires !served ==> forall p :: p in peers && uid in peers[p] ==> Covered(there, route, uid, s)
    ensures CoveredSomewhere(all, route, self, uid, s)
    ensures !served ==> CoveredRouted(all, route, self, uid, s)
  {
    if served {
      var k :| 0 <= k < |route| && route[k].inst == self;
      assert (uid, route[k].did, s) in all;
    } else {
      forall k | 0 <= k < |route| && Routed(route[k], self)
        ensures (uid, route[k].did, s) in all
      {
        if OnPeer(route[k], self) { assert Covered(there, route, uid, s); }
      }
    }
  }

  /** What step 1 has done for a member: local devices are in the ledger, no others, and unless the member is left for
      the peers a local connection took the message. */
  predicate Handled(t: seq<Event>, n: nat, self: Instance, route: Route, uid: Uid, s: UserSeq, left: bool) {
    && CoveredHere(Since(t, n), route, self, uid, s) && OnlyLocal(t, n, route, self, uid)
    && (!left ==> Took(t, n, self, uid) && exists k :: 0 <= k < |route| && route[k].inst == self)
  }

  /** Whatever comes later for local devices leaves a member handled. */
  lemma HandledStays(t: seq<Event>, t': seq<Event>, n: nat, self: Instance, route: Route, uid: Uid, s: UserSeq,
                     left: bool, left': bool)
    requires t <= t' && n <= |t| && Handled(t, n, self, route, uid, s, left) && (left ==> left')
    requires OnlyLocal(t', |t|, route, self, uid)
    ensures Handled(t', n, self, route, uid, s, left')
  {
    SinceGrows(t, t', n);
    TookSplits(t, t', n, self, uid);
  }

  /** A member handled in the last events is handled in all of them. */
  lemma HandledSince(t: seq<Event>, n: nat, m: nat, self: Instance, route: Route, uid: Uid, s: UserSeq, left: bool)
    requires n <= m <= |t| && Handled(t, m, self, route, uid, s, left) && OnlyLocal(t, n, route, self, uid)
    ensures Handled(t, n, self, route, uid, s, left)
  {
    SinceLater(t, n, m);
    TookSplits(t[..m], t, n, self, uid);
  }

  /** Events about others take nothing for the user. */
  lemma NotTookAbout(t: seq<Event>, n: nat, uids: set<Uid>, at: Instance, uid: Uid)
    requires About(t, n, uids) && uid !in uids
    ensures !Took(t, n, at, uid)
  {
  }

  /** The events of one member keep all entries on local devices. */
  lemma AllOnlyLocal(t: seq<Event>, t': seq<Event>, n: nat, self: Instance, routes: Uid -> Route, uid: Uid)
    requires t <= t' && n <= |t| && About(t', |t|, {uid}) && OnlyLocal(t', |t|, routes(uid), self, uid)
    requires forall u :: OnlyLocal(t, n, routes(u), self, u)
    ensures forall u :: OnlyLocal(t', n, routes(u), self, u)
  {
    forall u
      ensures OnlyLocal(t', n, routes(u), self, u)
    {
      assert OnlyLocal(t, n, routes(u), self, u);
    }
  }

  lemma AllHandled(t: seq<Event>, t': seq<Event>, n: nat, self: Instance, routes: Uid -> Route, members: seq<Uid>,
                   uid: Uid, uid2seq: map<Uid, UserSeq>,
                   remote: seq<Uid>, left: bool, remote': seq<Uid>)
    requires t <= t' && n <= |t| && About(t', |t|, {uid}) && (forall u :: OnlyLocal(t', n, routes(u), self, u))
    requires forall u :: u in members && u in uid2seq ==> Handled(t, n, self, routes(u), u, uid2seq[u], u in remote)
    requires uid in uid2seq ==> Handled(t', |t|, self, routes(uid), uid, uid2seq[uid], left)
    requires remote' == if left then remote + [uid] else remote
    ensures forall u :: u in members + [uid] && u in uid2seq ==>
      Handled(t', n, self, routes(u), u, uid2seq[u], u in remote')
  {
    forall u | u in members + [uid] && u in uid2seq
      ensures Handled(t', n, self, routes(u), u, uid2seq[u], u in remote')
    {
      assert OnlyLocal(t', n, routes(u), self, u);
      if u in members {
        HandledStays(t, t', n, self, routes(u), u, uid2seq[u], u in remote, u in remote');
      } else {
        HandledSince(t', n, |t|, self, routes(u), u, uid2seq[u], left);
        if !left && u in remote' { assert Handled(t', n, self, routes(u), u, uid2seq[u], false); }
      }
    }
  }

  /** A new member is left for the peers exactly if nothing was taken for it; the others are as before. */
  lemma AllTold(t: seq<Event>, t': seq<Event>, n: nat, self: Instance, members: seq<Uid>, uid: Uid,
                uid2seq: map<Uid, UserSeq>, remote: seq<Uid>, left: bool, remote': seq<Uid>)
    requires t <= t' && n <= |t| && uid !in members && About(t, n, Users(members)) && About(t', |t|, {uid})
    requires forall u :: u in members && u in uid2seq ==> (u in remote <==> !Took(t, n, self, u))
    requires forall u :: u in remote ==> u in members
    requires uid in uid2seq ==> (left <==> !Took(t', |t|, self, uid))
    requires remote' == if left then remote + [uid] else remote
    ensures forall u :: u in members + [uid] && u in uid2seq ==> (u in remote' <==> !Took(t', n, self, u))
  {
    forall u | u in members + [uid] && u in uid2seq
      ensures u in remote' <==> !Took(t', n, self, u)
    {
      TookSplits(t, t', n, self, u);
      if u == uid { NotTookAbout(t, n, Users(members), self, u); } else { NotTookAbout(t', |t|, {uid}, self, u); }
    }
  }

  /** What Ack promises a numbered member: some routed device has an entry, and all have one unless a connection of
      this instance took the message. */
  predicate Promised(t: seq<Event>, n: nat, route: Route, self: Instance, uid: Uid, s: UserSeq) {
    && CoveredSomewhere(Since(t, n), route, self, uid, s)
    && (!Took(t, n, self, uid) ==> CoveredRouted(Since(t, n), route, self, uid, s))
  }

  /** Once a connection of this instance took the message, the member's devices on peers get nothing. */
  predicate Withheld(t: seq<Event>, n: nat, route: Route, self: Instance, uid: Uid) {
    DistinctDevices(route) && Took(t, n, self, uid) ==> NoneOnPeers(Since(t, n), route, self, uid)
  }

  predicate AnyOnPeer(route: Route, self: Instance) {
    exists k :: 0 <= k < |route| && OnPeer(route[k], self)
  }

  /** So for a member with a device on a peer, all routed devices have an entry exactly if nothing was taken here. */
  lemma CoveredExactlyIfNotTaken(t: seq<Event>, n: nat, route: Route, self: Instance, uid: Uid, s: UserSeq)
    requires Promised(t, n, route, self, uid, s) && Withheld(t, n, route, self, uid) && DistinctDevices(route)
    requires AnyOnPeer(route, self)
    ensures CoveredRouted(Since(t, n), route, self, uid, s) <==> !Took(t, n, self, uid)
  {
    var k :| 0 <= k < |route| && OnPeer(route[k], self);
    assert Routed(route[k], self);
    if CoveredRouted(Since(t, n), route, self, uid, s) { assert (uid, route[k].did, s) in Since(t, n); }
  }

  lemma AllWithheld(t: seq<Event>, n: nat, routes: Uid -> Route, self: Instance)
    requires n <= |t| && forall u :: OnlyLocal(t, n, routes(u), self, u)
    ensures forall u :: Withheld(t, n, routes(u), self, u)
  {
    forall u
      ensures Withheld(t, n, routes(u), self, u)
    {
      assert OnlyLocal(t, n, routes(u), self, u);
      if DistinctDevices(routes(u)) { OnlyLocalMeansNoneOnPeers(t, n, routes(u), self, u); }
    }
  }

  /** Peers are told of other members only, and their sends are not this instance's. */
  lemma StaysWithheld(t: seq<Event>, t': seq<Event>, n: nat, route: Route, self: Instance, uid: Uid, told: set<Uid>)
    requires t <= t' && n <= |t| && OnlyLocal(t, n, route, self, uid) && (uid in told <==> !Took(t, n, self, uid))
    requires About(t', |t|, told) && NotSentBy(t', |t|, self)
    ensures Withheld(t', n, route, self, uid)
  {
    TookSplits(t, t', n, self, uid);
    if uid !in told && DistinctDevices(route) {
      assert OnlyLocal(t', n, route, self, uid);
      OnlyLocalMeansNoneOnPeers(t', n, route, self, uid);
    }
  }

  /** After the peers have done their part, every member has what Ack promises. */
  lemma PeersComplete(t: seq<Event>, t': seq<Event>, n: nat, peers: map<Instance, set<Uid>>, route: Route,
                      self: Instance, uid: Uid, s: UserSeq, left: bool)
    requires t <= t' && n <= |t| && Handled(t, n, self, route, uid, s, left)
    requires left ==> Grouped(peers, route, self, uid)
    requires forall p :: p in peers && uid in peers[p] ==> Covered(Since(t', |t|), route, uid, s)
    ensures Promised(t', n, route, self, uid, s)
  {
    SinceGrows(t, t', n);
    SinceLater(t', n, |t|);
    TookSplits(t, t', n, self, uid);
    Coverage(Since(t, n), Since(t', |t|), Since(t', n), peers, route, self, uid, s, !left);
  }

  /** From event `n` on, the payload was handed to the connections of the device. */
  predicate Handed(t: seq<Event>, n: nat, at: Instance, uid: Uid, did: Did, payload: Payload) {
    exists i :: n <= i < |t| && HandedAt(t[i], at, uid, did, payload)
  }

  predicate HandedAt(e: Event, at: Instance, uid: Uid, did: Did, payload: Payload) {
    e.Sent? && e.at == at && e.uid == uid && e.did == did && e.payload == payload
  }

  lemma StillHanded(t: seq<Event>, t': seq<Event>, n: nat, at: Instance, uid: Uid, payload: Payload)
    requires t <= t'
    ensures forall did :: Handed(t, n, at, uid, did, payload) ==> Handed(t', n, at, uid, did, payload)
  {
    forall did | Handed(t, n, at, uid, did, payload)
      ensures Handed(t', n, at, uid, did, payload)
    {
      var i :| n <= i < |t| && HandedAt(t[i], at, uid, did, payload);
      assert HandedAt(t'[i], at, uid, did, payload);
    }
  }

  /** From event `n` on, every device of the route was handed the payload. */
  predicate RouteHanded(t: seq<Event>, n: nat, at: Instance, uid: Uid, route: Route, payload: Payload) {
    forall k :: 0 <= k < |route| ==> Handed(t, n, at, uid, route[k].did, payload)
  }

  lemma OneMoreHanded(t: seq<Event>, t': seq<Event>, n: nat, at: Instance, uid: Uid, route: Route, i: nat,
                      payload: Payload)
    requires t <= t' && n <= |t| && i < |route| && RouteHanded(t, n, at, uid, route[..i], payload)
    requires Handed(t', |t|, at, uid, route[i].did, payload)
    ensures RouteHanded(t', n, at, uid, route[..i + 1], payload)
  {
    StillHanded(t, t', n, at, uid, payload);
    HandedSince(t', n, |t|, at, uid, route[i].did, payload);
    forall k | 0 <= k <= i
      ensures Handed(t', n, at, uid, route[k].did, payload)
    {
      if k < i { assert route[..i][k] == route[k]; }
    }
  }

  /** From event `n` on, every device connected to this instance was handed the payload by it. */
  predicate LocalHanded(t: seq<Event>, n: nat, self: Instance, uid: Uid, route: Route, payload: Payload) {
    forall k :: 0 <= k < |route| && route[k].inst == self ==> Handed(t, n, self, uid, route[k].did, payload)
  }

  /** The same for the first `i` devices. */
  predicate LocalHandedTo(t: seq<Event>, n: nat, self: Instance, uid: Uid, route: Route, i: nat, payload: Payload)
    requires i <= |route|
  {
    forall k :: 0 <= k < i && route[k].inst == self ==> Handed(t, n, self, uid, route[k].did, payload)
  }

  lemma OneMoreLocal(t: seq<Event>, t': seq<Event>, n: nat, self: Instance, uid: Uid, route: Route, i: nat,
                     payload: Payload)
    requires t <= t' && n <= |t| && i < |route| && LocalHandedTo(t, n, self, uid, route, i, payload)
    requires Handed(t', |t|, self, uid, route[i].did, payload)
    ensures LocalHandedTo(t', n, self, uid, route, i + 1, payload)
  {
    StillHanded(t, t', n, self, uid, payload);
    HandedSince(t', n, |t|, self, uid, route[i].did, payload);
  }

  /** What the first loop has done for the first `i` devices of a member: the local ones are in the ledger and were
      handed the message, and whether a connection took it is known. */
  ghost predicate LocalProgress(t: seq<Event>, n: nat, self: Instance, uid: Uid, route: Route, i: nat, numbered: bool,
                                s: UserSeq, delivered: bool)
    requires i <= |route|
  {
    && (numbered ==> forall k :: 0 <= k < i && route[k].inst == self ==> (uid, route[k].did, s) in Since(t, n))
    && LocalHandedTo(t, n, self, uid, route, i, if numbered then Sequenced(s) else Plain)
    && (delivered ==> exists k :: 0 <= k < |route| && route[k].inst == self)
    && (Took(t, n, self, uid) <==> delivered && numbered)
  }

  lemma SkippedProgress(t: seq<Event>, n: nat, self: Instance, uid: Uid, route: Route, i: nat, numbered: bool,
                        s: UserSeq, delivered: bool)
    requires i < |route| && route[i].inst != self
    requires LocalProgress(t, n, self, uid, route, i, numbered, s, delivered)
    ensures LocalProgress(t, n, self, uid, route, i + 1, numbered, s, delivered)
  {
  }

  lemma OneMoreProgress(t: seq<Event>, t': seq<Event>, n: nat, self: Instance, uid: Uid, route: Route, i: nat,
                        numbered: bool, s: UserSeq, delivered: bool, taken: bool)
    requires t <= t' && n <= |t| && i < |route| && route[i].inst == self
    requires LocalProgress(t, n, self, uid, route, i, numbered, s, delivered)
    requires numbered ==> (uid, route[i].did, s) in Since(t', |t|)
    requires Handed(t', |t|, self, uid, route[i].did, if numbered then Sequenced(s) else Plain)
    requires Took(t', |t|, self, uid) <==> taken && numbered
    ensures LocalProgress(t', n, self, uid, route, i + 1, numbered, s, delivered || taken)
  {
    OneMoreLocal(t, t', n, self, uid, route, i, if numbered then Sequenced(s) else Plain);
    TookSplits(t, t', n, self, uid);
    SinceLater(t', n, |t|);
    SinceGrows(t, t', n);
  }

  lemma LocalStays(t: seq<Event>, t': seq<Event>, n: nat, m: nat, self: Instance, uid: Uid, route: Route,
                   payload: Payload)
    requires t <= t' && n <= m && LocalHanded(t, m, self, uid, route, payload)
    ensures LocalHanded(t', n, self, uid, route, payload)
  {
    forall k | 0 <= k < |route| && route[k].inst == self
      ensures Handed(t', n, self, uid, route[k].did, payload)
    {
      HandedSince(t, n, m, self, uid, route[k].did, payload);
      StillHanded(t, t', n, self, uid, payload);
    }
  }

  /** Every device on a peer was handed the payload by that peer. */
  predicate PeersHanded(t: seq<Event>, n: nat, self: Instance, uid: Uid, route: Route, payload: Payload) {
    forall k :: 0 <= k < |route| && OnPeer(route[k], self) ==>
      Handed(t, n, route[k].inst, uid, route[k].did, payload)
  }

  /** Handed since later is handed since earlier. */
  lemma HandedSince(t: seq<Event>, n: nat, m: nat, at: Instance, uid: Uid, did: Did, payload: Payload)
    requires n <= m && Handed(t, m, at, uid, did, payload)
    ensures Handed(t, n, at, uid, did, payload)
  {
    var i :| m <= i < |t| && HandedAt(t[i], at, uid, did, payload);
    assert HandedAt(t[i], at, uid, did, payload);
  }

  type Ledger = map<(Uid, Did), map<UserSeq, Payload>>

  /** The numbers a peek returns for a device are those of entries. */
  predicate Peeks(ledger: Ledger, uid: Uid, did: Did, due: seq<UserSeq>) {
    forall j :: 0 <= j < |due| ==> InLedger(ledger, uid, did, due[j])
  }

  predicate InLedger(ledger: Ledger, uid: Uid, did: Did, s: UserSeq) {
    (uid, did) in ledger && s in ledger[(uid, did)]
  }

  function PayloadOf(ledger: Ledger, uid: Uid, did: Did, s: UserSeq): Payload {
    if InLedger(ledger, uid, did, s) then ledger[(uid, did)][s] else Plain
  }

  /** No entry but this one is different. */
  ghost predicate OthersKept(before: Ledger, after: Ledger, uid: Uid, did: Did, s: UserSeq) {
    forall u, d, n: UserSeq :: (u, d, n) != (uid, did, s) ==>
      (InLedger(after, u, d, n) <==> InLedger(before, u, d, n)) &&
      PayloadOf(after, u, d, n) == PayloadOf(before, u, d, n)
  }

  /** A send of a due entry, or putting off all the due ones of a device. */
  ghost predicate Resent(e: Event, self: Instance, uid: Uid, ledger: Ledger, peek: Did -> seq<UserSeq>) {
    e.uid == uid && Peeks(ledger, uid, e.did, peek(e.did)) &&
    match e
    case Sent(at, _, did, payload, _) =>
      at == self && exists j :: 0 <= j < |peek(did)| && PayloadOf(ledger, uid, did, peek(did)[j]) == payload
    case Bumped(_, did, numbers) => numbers == peek(did) != []
    case Persisted(_, _, _) => false
  }

  ghost predicate AllResent(t: seq<Event>, n: nat, self: Instance, uid: Uid, ledger: Ledger,
                            peek: Did -> seq<UserSeq>) {
    forall i :: n <= i < |t| ==> Resent(t[i], self, uid, ledger, peek)
  }

  /** The first `i` of these entries of the device were handed to its connections. */
  predicate AllHanded(t: seq<Event>, n: nat, at: Instance, uid: Uid, did: Did, ledger: Ledger, due: seq<UserSeq>,
                      i: nat)
    requires i <= |due|
  {
    forall j :: 0 <= j < i ==> Handed(t, n, at, uid, did, PayloadOf(ledger, uid, did, due[j]))
  }

  lemma HandedStays(t: seq<Event>, t': seq<Event>, n: nat, m: nat, at: Instance, uid: Uid, did: Did, ledger: Ledger,
                    due: seq<UserSeq>, i: nat)
    requires t <= t' && n <= m && i <= |due| && AllHanded(t, m, at, uid, did, ledger, due, i)
    ensures AllHanded(t', n, at, uid, did, ledger, due, i)
  {
    forall j | 0 <= j < i
      ensures Handed(t', n, at, uid, did, PayloadOf(ledger, uid, did, due[j]))
    {
      var k :| m <= k < |t| && HandedAt(t[k], at, uid, did, PayloadOf(ledger, uid, did, due[j]));
      assert HandedAt(t'[k], at, uid, did, PayloadOf(ledger, uid, did, due[j]));
    }
  }

  lemma OneMoreSent(t: seq<Event>, t': seq<Event>, n: nat, self: Instance, uid: Uid, did: Did, ledger: Ledger,
                    peek: Did -> seq<UserSeq>, i: nat)
    requires t <= t' && n <= |t| && |t'| == |t| + 1 && i < |peek(did)| && Resent(t'[|t|], self, uid, ledger, peek)
    requires AllResent(t, n, self, uid, ledger, peek) && AllHanded(t, n, self, uid, did, ledger, peek(did), i)
    requires HandedAt(t'[|t|], self, uid, did, PayloadOf(ledger, uid, did, peek(did)[i]))
    ensures AllResent(t', n, self, uid, ledger, peek) && AllHanded(t', n, self, uid, did, ledger, peek(did), i + 1)
  {
    HandedStays(t, t', n, n, self, uid, did, ledger, peek(did), i);
  }

  /** Every due entry of the device was handed to its connections, and if there were any, all were put off. */
  predicate DeviceResent(t: seq<Event>, n: nat, self: Instance, uid: Uid, did: Did, ledger: Ledger, due: seq<UserSeq>) {
    AllHanded(t, n, self, uid, did, ledger, due, |due|) && (due != [] ==> PutOffSince(t, n, uid, did, due))
  }

  /** From event `n` on, these numbers of the device were put off. */
  predicate PutOffSince(t: seq<Event>, n: nat, uid: Uid, did: Did, due: seq<UserSeq>) {
    exists i :: n <= i < |t| && t[i] == Bumped(uid, did, due)
  }

  lemma DeviceStaysResent(t: seq<Event>, t': seq<Event>, n: nat, m: nat, self: Instance, uid: Uid, did: Did,
                          ledger: Ledger, due: seq<UserSeq>)
    requires t <= t' && n <= m && DeviceResent(t, m, self, uid, did, ledger, due)
    ensures DeviceResent(t', n, self, uid, did, ledger, due)
  {
    HandedStays(t, t', n, m, self, uid, did, ledger, due, |due|);
    if due != [] {
      var i :| m <= i < |t| && t[i] == Bumped(uid, did, due);
      assert t'[i] == Bumped(uid, did, due);
    }
  }

  method Listing(uids: set<Uid>) returns (q: seq<Uid>)
    ensures forall u :: u in q <==> u in uids
  {
    q := [];
    var todo := uids;
    while todo != {}
      invariant todo <= uids && forall u :: u in q <==> u in uids - todo
      decreases todo
    {
      var u :| u in todo;
      q := q + [u];
      todo := todo - {u};
    }
  }

  class PushService {
    const self: Instance
    const routes: Uid -> Route
    /** Set if no call to Redis or to a peer fails and every connection takes what it is sent; otherwise any of them
        may fail at any time. */
    const healthy: bool
    /** The unacked ledger, shared by all instances. */
    var ledger: Ledger
    ghost var trace: seq<Event>

    ghost predicate Valid()
      reads this
    {
      && Backed(trace)
      && (forall u, d, s :: (u, d) in ledger && s in ledger[(u, d)] ==>
            (u, d, s) in Entries(trace) && (ledger[(u, d)][s].Sequenced? ==> ledger[(u, d)][s].s == s))
    }

    constructor (self: Instance, routes: Uid -> Route, healthy: bool)
      ensures Valid() && trace == [] && this.self == self && this.routes == routes && this.healthy == healthy
    {
      this.self, this.routes, this.healthy, this.ledger, this.trace := self, routes, healthy, map[], [];
    }

    /** Whether a call to something outside the process goes well. */
    method Succeeds() returns (ok: bool)
      ensures healthy ==> ok
    {
      ok := *;
      ok := ok || healthy;
    }

    /** persist_unacked_; a failing call may or may not have reached Redis. */
    method Persist(uid: Uid, did: Did, s: UserSeq, payload: Payload) returns (ok: bool)
      requires Valid() && (payload.Sequenced? ==> payload.s == s)
      modifies this
      ensures Valid() && old(trace) <= trace
      ensures ok ==> (uid, did, s) in Since(trace, |old(trace)|) && (uid, did, s) in Entries(trace)
      ensures trace == old(trace) || trace == old(trace) + [Persisted(uid, did, s)]
      ensures ok ==> InLedger(ledger, uid, did, s) && PayloadOf(ledger, uid, did, s) == payload
      ensures OthersKept(old(ledger), ledger, uid, did, s)
      ensures healthy ==> ok
    {
      ok := Succeeds();
      var reached: bool := *;
      if ok || reached {
        BackedGrows(trace, Persisted(uid, did, s));
        var entries := if (uid, did) in ledger then ledger[(uid, did)] else map[];
        ledger := ledger[(uid, did) := entries[s := payload]];
        trace := trace + [Persisted(uid, did, s)];
        assert trace[|old(trace)|..] == [Persisted(uid, did, s)];
        SinceLater(trace, |old(trace)|, |old(trace)|);
        assert Entries(old(trace)) <= Entries(trace);
      }
    }

    /** _local_send: how many connections took the payload is up to the network. */
    method LocalSend(at: Instance, uid: Uid, did: Did, payload: Payload) returns (delivered: bool)
      requires Valid() && (payload.Sequenced? ==> (uid, did, payload.s) in Entries(trace))
      modifies this`trace
      ensures Valid() && trace == old(trace) + [Sent(at, uid, did, payload, delivered)]
      ensures healthy ==> delivered
    {
      delivered := Succeeds();
      BackedGrows(trace, Sent(at, uid, did, payload, delivered));
      trace := trace + [Sent(at, uid, did, payload, delivered)];
      assert Entries(old(trace)) <= Entries(trace);
    }

    /** MSG_PUSH_ACK: a number is taken off the ledger exactly if the message is complete and comes over a connection of
        the very user and device it names; no other entry is touched. */
    method OnPushAck(conn: Option<(Uid, Did)>, uid: Uid, did: Did, s: UserSeq, messageId: int) returns (accepted: bool)
      requires Valid()
      modifies this`ledger
      ensures Valid() && accepted == (s > 0 && messageId > 0 && uid != "" && did != "" && conn == Some((uid, did)))
      ensures forall u, d, n: UserSeq :: InLedger(ledger, u, d, n) <==>
        InLedger(old(ledger), u, d, n) && !(accepted && (u, d, n) == (uid, did, s))
      ensures forall u, d, n: UserSeq :: InLedger(ledger, u, d, n) ==>
        PayloadOf(ledger, u, d, n) == PayloadOf(old(ledger), u, d, n)
    {
      if s == 0 || messageId <= 0 || uid == "" || did == "" { return false; }
      if conn != Some((uid, did)) { return false; }
      if (uid, did) in ledger { ledger := ledger[(uid, did) := ledger[(uid, did)] - {s}]; }
      accepted := true;
    }

    /** resolve_route against fixed routes; false when Redis is unavailable. */
    method ResolveRoute(uid: Uid) returns (ok: bool, route: Route)
      ensures (ok ==> route == routes(uid)) && (healthy ==> ok)
    {
      ok := Succeeds();
      route := routes(uid);
    }

    /** A chat message carries the user's number. */
    static function PayloadFor(userSeq: Option<UserSeq>, isChat: bool): Payload {
      if userSeq.Some? && isChat then Sequenced(userSeq.value) else Plain
    }

    /** The devices a PushToUser request is meant for. */
    static predicate Targeted(targets: set<Did>, did: Did) {
      targets == {} || did in targets
    }

    /** PushToUser: every entry first, then the sends. */
    method PushToUser(uid: Uid, userSeq: Option<UserSeq>, isChat: bool, targets: set<Did>) returns (ok: bool)
      requires Valid()
      modifies this
      ensures Valid() && old(trace) <= trace
      ensures ok && userSeq.Some? ==> forall k :: 0 <= k < |routes(uid)| && Targeted(targets, routes(uid)[k].did) ==>
        (uid, routes(uid)[k].did, userSeq.value) in Since(trace, |old(trace)|)
      ensures ok ==> forall k :: 0 <= k < |routes(uid)| && Targeted(targets, routes(uid)[k].did) ==>
        Handed(trace, |old(trace)|, self, uid, routes(uid)[k].did, PayloadFor(userSeq, isChat))
      ensures healthy ==> ok
    {
      var payload := PayloadFor(userSeq, isChat);
      var resolved, route := ResolveRoute(uid);
      if !resolved { return false; }
      if userSeq.Some? {
        var persisted := PersistTargets(uid, route, userSeq.value, payload, targets);
        if !persisted { return false; }
      }
      ghost var before := trace;
      SinceLater(trace, |old(trace)|, |old(trace)|);
      SendTargets(uid, route, payload, targets);
      SinceGrows(before, trace, |old(trace)|);
      forall k | 0 <= k < |route| && Targeted(targets, route[k].did)
        ensures Handed(trace, |old(trace)|, self, uid, route[k].did, payload)
      {
        HandedSince(trace, |old(trace)|, |before|, self, uid, route[k].did, payload);
      }
      ok := true;
    }

    method PersistTargets(uid: Uid, route: Route, s: UserSeq, payload: Payload, targets: set<Did>) returns (ok: bool)
      requires Valid() && (payload.Sequenced? ==> payload.s == s)
      modifies this
      ensures Valid() && old(trace) <= trace
      ensures ok ==> forall k :: 0 <= k < |route| && Targeted(targets, route[k].did) ==>
        (uid, route[k].did, s) in Since(trace, |old(trace)|)
      ensures healthy ==> ok
    {
      for i := 0 to |route|
        invariant Valid() && old(trace) <= trace
        invariant forall k :: 0 <= k < i && Targeted(targets, route[k].did) ==>
          (uid, route[k].did, s) in Since(trace, |old(trace)|)
      {
        ghost var before := trace;
        if Targeted(targets, route[i].did) {
          var persisted := Persist(uid, route[i].did, s, payload);
          if !persisted { return false; }
          SinceLater(trace, |old(trace)|, |before|);
        }
        SinceGrows(before, trace, |old(trace)|);
      }
      ok := true;
    }

    method SendTargets(uid: Uid, route: Route, payload: Payload, targets: set<Did>)
      requires Valid()
      requires payload.Sequenced? ==> forall k :: 0 <= k < |route| && Targeted(targets, route[k].did) ==>
        (uid, route[k].did, payload.s) in Entries(trace)
      modifies this`trace
      ensures Valid() && old(trace) <= trace
      ensures forall k :: 0 <= k < |route| && Targeted(targets, route[k].did) ==>
        Handed(trace, |old(trace)|, self, uid, route[k].did, payload)
    {
      for i := 0 to |route|
        invariant Valid() && old(trace) <= trace && Entries(old(trace)) <= Entries(trace)
        invariant forall k :: 0 <= k < i && Targeted(targets, route[k].did) ==>
          Handed(trace, |old(trace)|, self, uid, route[k].did, payload)
      {
        ghost var before := trace;
        if Targeted(targets, route[i].did) {
          var _ := LocalSend(self, uid, route[i].did, payload);
          assert HandedAt(trace[|before|], self, uid, route[i].did, payload);
          SinceGrows(before, trace, 0);
          assert before[0..] == before && trace[0..] == trace;
        }
        StillHanded(before, trace, |old(trace)|, self, uid, payload);
      }
    }

    /** The device loop of PushBatch for one user. */
    method BatchOne(at: Instance, uid: Uid, route: Route, numbered: bool, s: UserSeq, payload: Payload)
      returns (ok: bool)
      requires Valid() && (payload.Sequenced? ==> numbered && payload.s == s)
      modifies this
      ensures Valid() && old(trace) <= trace
      ensures ok && numbered ==> Covered(Since(trace, |old(trace)|), route, uid, s)
      ensures ok ==> RouteHanded(trace, |old(trace)|, at, uid, route, payload)
      ensures About(trace, |old(trace)|, {uid}) && SentBy(trace, |old(trace)|, at)
      ensures healthy ==> ok
    {
      for i := 0 to |route|
        invariant Valid() && old(trace) <= trace
        invariant About(trace, |old(trace)|, {uid}) && SentBy(trace, |old(trace)|, at)
        invariant numbered ==> Covered(Since(trace, |old(trace)|), route[..i], uid, s)
        invariant RouteHanded(trace, |old(trace)|, at, uid, route[..i], payload)
      {
        ghost var before := trace;
        var done := BatchDevice(at, uid, route[i].did, numbered, s, payload);
        if !done { return false; }
        OneMoreHanded(before, trace, |old(trace)|, at, uid, route, i, payload);
        SinceLater(trace, |old(trace)|, |before|);
        SinceGrows(before, trace, |old(trace)|);
      }
      assert route[..|route|] == route;
      ok := true;
    }

    method BatchDevice(at: Instance, uid: Uid, did: Did, numbered: bool, s: UserSeq, payload: Payload)
      returns (ok: bool)
      requires Valid() && (payload.Sequenced? ==> numbered && payload.s == s)
      modifies this
      ensures Valid() && old(trace) <= trace
      ensures ok && numbered ==> (uid, did, s) in Since(trace, |old(trace)|)
      ensures ok ==> Handed(trace, |old(trace)|, at, uid, did, payload)
      ensures About(trace, |old(trace)|, {uid}) && SentBy(trace, |old(trace)|, at)
      ensures healthy ==> ok
    {
      if numbered {
        ok := Persist(uid, did, s, payload);
        if !ok { return; }
      }
      ghost var before := trace;
      var _ := LocalSend(at, uid, did, payload);
      assert HandedAt(trace[|before|], at, uid, did, payload);
      SinceGrows(before, trace, |old(trace)|);
      ok := true;
    }

    /** The chat message as it is sent to a user. */
    static function MessageFor(uid2seq: map<Uid, UserSeq>, uid: Uid): Payload {
      PayloadFor(SeqOf(uid2seq, uid), true)
    }

    /** The number a user has in a message, if any. */
    static function SeqOf(uid2seq: map<Uid, UserSeq>, uid: Uid): Option<UserSeq> {
      if uid in uid2seq then Some(uid2seq[uid]) else None
    }

    /** From event `n` on, every device of the user was handed the message. */
    ghost predicate AllDevicesHanded(t: seq<Event>, n: nat, at: Instance, uid: Uid, userSeq: Option<UserSeq>,
                                     isChat: bool) {
      RouteHanded(t, n, at, uid, routes(uid), PayloadFor(userSeq, isChat))
    }

    lemma AllDevicesStay(before: seq<Event>, n: nat, at: Instance, uids: seq<Uid>, uid2seq: map<Uid, UserSeq>,
                         isChat: bool)
      requires before <= trace
      requires forall u :: u in uids ==> AllDevicesHanded(before, n, at, u, SeqOf(uid2seq, u), isChat)
      ensures forall u :: u in uids ==> AllDevicesHanded(trace, n, at, u, SeqOf(uid2seq, u), isChat)
    {
      forall u | u in uids
        ensures AllDevicesHanded(trace, n, at, u, SeqOf(uid2seq, u), isChat)
      {
        StillHanded(before, trace, n, at, u, PayloadFor(SeqOf(uid2seq, u), isChat));
      }
    }

    lemma NowHanded(n: nat, m: nat, at: Instance, uid: Uid, userSeq: Option<UserSeq>, isChat: bool)
      requires n <= m && AllDevicesHanded(trace, m, at, uid, userSeq, isChat)
      ensures AllDevicesHanded(trace, n, at, uid, userSeq, isChat)
    {
      forall k | 0 <= k < |routes(uid)|
        ensures Handed(trace, n, at, uid, routes(uid)[k].did, PayloadFor(userSeq, isChat))
      {
        HandedSince(trace, n, m, at, uid, routes(uid)[k].did, PayloadFor(userSeq, isChat));
      }
    }

    /** PushBatch, as instance `at` executes it: on success every device of every numbered user has an entry, and every
        device of every user was handed the message. */
    method PushBatch(at: Instance, uids: seq<Uid>, uid2seq: map<Uid, UserSeq>, isChat: bool) returns (ok: bool)
      requires Valid()
      modifies this
      ensures Valid() && old(trace) <= trace
      ensures ok ==> forall u :: u in uids && u in uid2seq ==>
        Covered(Since(trace, |old(trace)|), routes(u), u, uid2seq[u])
      ensures ok ==> forall u :: u in uids ==> AllDevicesHanded(trace, |old(trace)|, at, u, SeqOf(uid2seq, u), isChat)
      ensures About(trace, |old(trace)|, Users(uids)) && SentBy(trace, |old(trace)|, at)
      ensures healthy ==> ok
    {
      for i := 0 to |uids|
        invariant Valid() && old(trace) <= trace
        invariant About(trace, |old(trace)|, Users(uids)) && SentBy(trace, |old(trace)|, at)
        invariant forall u :: u in uids[..i] && u in uid2seq ==>
          Covered(Since(trace, |old(trace)|), routes(u), u, uid2seq[u])
        invariant forall u :: u in uids[..i] ==>
          AllDevicesHanded(trace, |old(trace)|, at, u, SeqOf(uid2seq, u), isChat)
      {
        var uid := uids[i];
        ghost var before := trace;
        var resolved, route := ResolveRoute(uid);
        if !resolved { return false; }
        var numbered := uid in uid2seq;
        var s := if numbered then uid2seq[uid] else 0;
        var done := BatchOne(at, uid, route, numbered, s, PayloadFor(SeqOf(uid2seq, uid), isChat));
        if !done { return false; }
        SinceGrows(before, trace, |old(trace)|);
        AllDevicesStay(before, |old(trace)|, at, uids[..i], uid2seq, isChat);
        NowHanded(|old(trace)|, |before|, at, uid, SeqOf(uid2seq, uid), isChat);
        SinceLater(trace, |old(trace)|, |before|);
        assert uids[..i + 1] == uids[..i] + [uid];
      }
      assert uids[..|uids|] == uids;
      ok := true;
    }

    /** One local device of a numbered member: the entry, then the send. */
    method PersistAndSend(uid: Uid, did: Did, s: UserSeq) returns (ok: bool, delivered: bool)
      requires Valid()
      modifies this
      ensures Valid() && old(trace) <= trace
      ensures ok ==> (uid, did, s) in Since(trace, |old(trace)|)
      ensures ok ==> Handed(trace, |old(trace)|, self, uid, did, Sequenced(s))
      ensures delivered <==> Took(trace, |old(trace)|, self, uid)
      ensures forall i :: |old(trace)| <= i < |trace| ==> trace[i].uid == uid && trace[i].did == did
      ensures healthy ==> ok && delivered
    {
      delivered := false;
      ok := Persist(uid, did, s, Sequenced(s));
      if !ok { return; }
      ghost var before := trace;
      delivered := LocalSend(self, uid, did, Sequenced(s));
      assert HandedAt(trace[|before|], self, uid, did, Sequenced(s));
      SinceGrows(before, trace, |old(trace)|);
      if delivered { assert TookAt(trace[|trace| - 1], self, uid); }
    }

    /** The first loop of onPushMessage for one member: local devices are persisted and sent to.
        `delivered` is any_local. */
    method DeliverLocally(uid: Uid, route: Route, numbered: bool, s: UserSeq) returns (ok: bool, delivered: bool)
      requires Valid()
      modifies this
      ensures Valid() && old(trace) <= trace
      ensures ok && numbered ==> CoveredHere(Since(trace, |old(trace)|), route, self, uid, s)
      ensures ok ==>
        LocalHanded(trace, |old(trace)|, self, uid, route, if numbered then Sequenced(s) else Plain)
      ensures delivered ==> exists k :: 0 <= k < |route| && route[k].inst == self
      ensures Took(trace, |old(trace)|, self, uid) <==> delivered && numbered
      ensures About(trace, |old(trace)|, {uid}) && OnlyLocal(trace, |old(trace)|, route, self, uid)
      ensures healthy ==> ok && (OnInstance(route, self) ==> delivered)
    {
      delivered := false;
      for i := 0 to |route|
        invariant Valid() && old(trace) <= trace
        invariant LocalProgress(trace, |old(trace)|, self, uid, route, i, numbered, s, delivered)
        invariant About(trace, |old(trace)|, {uid}) && OnlyLocal(trace, |old(trace)|, route, self, uid)
        invariant healthy && !delivered ==> forall k :: 0 <= k < i ==> route[k].inst != self
      {
        if route[i].inst == self {
          ghost var before, already := trace, delivered;
          var done, taken := DeliverOne(uid, route[i].did, numbered, s);
          TookSplits(before, trace, |old(trace)|, self, uid);
          assert HasLocal(route, self, route[i].did);
          delivered := delivered || taken;
          if !done { return false, delivered; }
          OneMoreProgress(before, trace, |old(trace)|, self, uid, route, i, numbered, s, already, taken);
        } else {
          SkippedProgress(trace, |old(trace)|, self, uid, route, i, numbered, s, delivered);
        }
      }
      ok := true;
    }

    /** One local device; without a number the member counts as reached whatever the network did. */
    method DeliverOne(uid: Uid, did: Did, numbered: bool, s: UserSeq) returns (ok: bool, delivered: bool)
      requires Valid()
      modifies this
      ensures Valid() && old(trace) <= trace
      ensures ok && numbered ==> (uid, did, s) in Since(trace, |old(trace)|)
      ensures ok ==> Handed(trace, |old(trace)|, self, uid, did, if numbered then Sequenced(s) else Plain)
      ensures Took(trace, |old(trace)|, self, uid) <==> delivered && numbered
      ensures forall i :: |old(trace)| <= i < |trace| ==> trace[i].uid == uid && trace[i].did == did
      ensures healthy ==> ok && delivered
    {
      if numbered {
        ok, delivered := PersistAndSend(uid, did, s);
      } else {
        var _ := LocalSend(self, uid, did, Plain);
        assert HandedAt(trace[|old(trace)|], self, uid, did, Plain);
        ok, delivered := true, true;
      }
    }

    /** Step 1 of onPushMessage for one member, who is left for the peers unless a local device was reached. */
    method DeliverMember(uid: Uid, uid2seq: map<Uid, UserSeq>) returns (ok: bool, left: bool)
      requires Valid()
      modifies this
      ensures Valid() && old(trace) <= trace
      ensures ok && uid in uid2seq ==> Handled(trace, |old(trace)|, self, routes(uid), uid, uid2seq[uid], left)
      ensures ok && uid in uid2seq ==> (left <==> !Took(trace, |old(trace)|, self, uid))
      ensures About(trace, |old(trace)|, {uid}) && OnlyLocal(trace, |old(trace)|, routes(uid), self, uid)
      ensures healthy ==> ok && (OnInstance(routes(uid), self) ==> !left)
      ensures ok ==> LocalHanded(trace, |old(trace)|, self, uid, routes(uid), MessageFor(uid2seq, uid))
    {
      var resolved, route := ResolveRoute(uid);
      if !resolved { return false, false; }
      if route == [] { return true, true; }
      var numbered := uid in uid2seq;
      var done, delivered := DeliverLocally(uid, route, numbered, if numbered then uid2seq[uid] else 0);
      ok, left := done, !delivered;
    }

    /** Every local device of these members was handed the message. */
    ghost predicate MembersHanded(t: seq<Event>, n: nat, members: seq<Uid>, uid2seq: map<Uid, UserSeq>) {
      forall u :: u in members ==> LocalHanded(t, n, self, u, routes(u), MessageFor(uid2seq, u))
    }

    lemma MembersStay(before: seq<Event>, n: nat, members: seq<Uid>, uid: Uid, uid2seq: map<Uid, UserSeq>)
      requires before <= trace && n <= |before| && MembersHanded(before, n, members, uid2seq)
      requires LocalHanded(trace, |before|, self, uid, routes(uid), MessageFor(uid2seq, uid))
      ensures MembersHanded(trace, n, members + [uid], uid2seq)
    {
      forall u | u in members + [uid]
        ensures LocalHanded(trace, n, self, u, routes(u), MessageFor(uid2seq, u))
      {
        if u in members {
          LocalStays(before, trace, n, n, self, u, routes(u), MessageFor(uid2seq, u));
        } else {
          LocalStays(trace, trace, n, |before|, self, u, routes(u), MessageFor(uid2seq, u));
        }
      }
    }

    /** Step 1 of onPushMessage.  With nobody listed twice, the members left for the peers are exactly those no
        connection of this instance took the message for. */
    method DeliverToMembers(members: seq<Uid>, uid2seq: map<Uid, UserSeq>) returns (ok: bool, remote: seq<Uid>)
      requires Valid()
      modifies this
      ensures Valid() && old(trace) <= trace
      ensures ok ==> forall u :: u in members && u in uid2seq ==>
        Handled(trace, |old(trace)|, self, routes(u), u, uid2seq[u], u in remote)
      ensures ok && Distinct(members) ==> forall u :: u in members && u in uid2seq ==>
        (u in remote <==> !Took(trace, |old(trace)|, self, u))
      ensures forall u :: OnlyLocal(trace, |old(trace)|, routes(u), self, u)
      ensures forall u :: u in remote ==> u in members
      ensures ok ==> MembersHanded(trace, |old(trace)|, members, uid2seq)
      ensures healthy ==> ok && forall u :: u in remote ==> !OnInstance(routes(u), self)
    {
      remote := [];
      for i := 0 to |members|
        invariant Valid() && old(trace) <= trace && About(trace, |old(trace)|, Users(members[..i]))
        invariant forall u :: u in members[..i] && u in uid2seq ==>
          Handled(trace, |old(trace)|, self, routes(u), u, uid2seq[u], u in remote)
        invariant Distinct(members) ==> forall u :: u in members[..i] && u in uid2seq ==>
          (u in remote <==> !Took(trace, |old(trace)|, self, u))
        invariant forall u :: OnlyLocal(trace, |old(trace)|, routes(u), self, u)
        invariant forall u :: u in remote ==> u in members[..i]
        invariant MembersHanded(trace, |old(trace)|, members[..i], uid2seq)
        invariant healthy ==> forall u :: u in remote ==> !OnInstance(routes(u), self)
      {
        ghost var before, already := trace, remote;
        assert Distinct(members) ==> members[i] !in members[..i];
        var done, left := DeliverMember(members[i], uid2seq);
        assert members[..i + 1] == members[..i] + [members[i]];
        AllOnlyLocal(before, trace, |old(trace)|, self, routes, members[i]);
        if !done { return false, remote; }
        MembersStay(before, |old(trace)|, members[..i], members[i], uid2seq);
        if left { remote := remote + [members[i]]; }
        AllHandled(before, trace, |old(trace)|, self, routes, members[..i], members[i], uid2seq, already, left, remote);
        if Distinct(members) {
          AllTold(before, trace, |old(trace)|, self, members[..i], members[i], uid2seq, already, left, remote);
        }
      }
      assert members[..|members|] == members;
      ok := true;
    }

    /** A peer is told only of remaining members with a device on it. */
    predicate ToldRightly(told: set<Uid>, peer: Instance, remote: seq<Uid>) {
      forall u :: u in told ==> u in remote && OnInstance(routes(u), peer)
    }

    /** Step 2: group the remaining members by the peers their devices are on. */
    method GroupByPeer(remote: seq<Uid>) returns (ok: bool, peers: map<Instance, set<Uid>>)
      ensures ok ==> forall u :: u in remote ==> Grouped(peers, routes(u), self, u)
      ensures forall p :: p in peers ==> p != self && ToldRightly(peers[p], p, remote)
      ensures healthy ==> ok
    {
      peers := map[];
      for i := 0 to |remote|
        invariant forall p :: p in peers ==> p != self && ToldRightly(peers[p], p, remote)
        invariant forall u :: u in remote[..i] ==> Grouped(peers, routes(u), self, u)
      {
        var uid := remote[i];
        var resolved, route := ResolveRoute(uid);
        if !resolved { return false, peers; }
        for j := 0 to |route|
          invariant forall p :: p in peers ==> p != self && ToldRightly(peers[p], p, remote)
          invariant forall u :: u in remote[..i] ==> Grouped(peers, routes(u), self, u)
          invariant Grouped(peers, route[..j], self, uid)
        {
          if OnPeer(route[j], self) {
            var peer := route[j].inst;
            peers := peers[peer := (if peer in peers then peers[peer] else {}) + {uid}];
          }
        }
        assert route[..|route|] == route;
        assert remote[..i + 1] == remote[..i] + [uid];
      }
      assert remote[..|remote|] == remote;
      ok := true;
    }

    /** Every device of these users was handed the message by instance `p`. */
    ghost predicate PeerHanded(t: seq<Event>, n: nat, p: Instance, uids: set<Uid>, uid2seq: map<Uid, UserSeq>) {
      forall u :: u in uids ==> AllDevicesHanded(t, n, p, u, SeqOf(uid2seq, u), true)
    }

    lemma PeersStay(before: seq<Event>, n: nat, peers: map<Instance, set<Uid>>, todo: set<Instance>, peer: Instance,
                    uid2seq: map<Uid, UserSeq>)
      requires before <= trace && n <= |before| && peer in peers
      requires forall p :: p in peers && p !in todo ==> PeerHanded(before, n, p, peers[p], uid2seq)
      requires PeerHanded(trace, |before|, peer, peers[peer], uid2seq)
      ensures forall p :: p in peers && p !in todo - {peer} ==> PeerHanded(trace, n, p, peers[p], uid2seq)
    {
      forall p, u | p in peers && p !in todo - {peer} && u in peers[p]
        ensures AllDevicesHanded(trace, n, p, u, SeqOf(uid2seq, u), true)
      {
        if p == peer {
          NowHanded(n, |before|, p, u, SeqOf(uid2seq, u), true);
        } else {
          StillHanded(before, trace, n, p, u, MessageFor(uid2seq, u));
        }
      }
    }

    /** Step 3: one PushBatch per peer; any failure, or a reply that is lost, stops the loop. */
    method PushToPeers(peers: map<Instance, set<Uid>>, uid2seq: map<Uid, UserSeq>, ghost told: set<Uid>)
      returns (ok: bool)
      requires Valid() && forall p :: p in peers ==> p != self && peers[p] <= told
      modifies this
      ensures Valid() && old(trace) <= trace
      ensures ok ==> forall p, u :: p in peers && u in peers[p] && u in uid2seq ==>
        Covered(Since(trace, |old(trace)|), routes(u), u, uid2seq[u])
      ensures ok ==> forall p :: p in peers ==> PeerHanded(trace, |old(trace)|, p, peers[p], uid2seq)
      ensures About(trace, |old(trace)|, told) && NotSentBy(trace, |old(trace)|, self)
      ensures healthy ==> ok
    {
      var todo := peers.Keys;
      while todo != {}
        invariant Valid() && old(trace) <= trace && todo <= peers.Keys
        invariant About(trace, |old(trace)|, told) && NotSentBy(trace, |old(trace)|, self)
        invariant forall p, u :: p in peers && p !in todo && u in peers[p] && u in uid2seq ==>
          Covered(Since(trace, |old(trace)|), routes(u), u, uid2seq[u])
        invariant forall p :: p in peers && p !in todo ==> PeerHanded(trace, |old(trace)|, p, peers[p], uid2seq)
        decreases todo
      {
        var peer :| peer in todo;
        ghost var before := trace;
        var uids := Listing(peers[peer]);
        var reachable := Succeeds();
        if !reachable { return false; }
        var done := PushBatch(peer, uids, uid2seq, true);
        var replied := Succeeds();
        if !done || !replied { return false; }
        todo := todo - {peer};
        SinceGrows(before, trace, |old(trace)|);
        SinceLater(trace, |old(trace)|, |before|);
        PeersStay(before, |old(trace)|, peers, todo + {peer}, peer, uid2seq);
      }
      ok := true;
    }

    lemma LeftIsHanded(n: nat, m: nat, peers: map<Instance, set<Uid>>, uid: Uid, uid2seq: map<Uid, UserSeq>)
      requires n <= m && Grouped(peers, routes(uid), self, uid)
      requires forall p :: p in peers ==> PeerHanded(trace, m, p, peers[p], uid2seq)
      ensures PeersHanded(trace, n, self, uid, routes(uid), MessageFor(uid2seq, uid))
    {
      forall k | 0 <= k < |routes(uid)| && OnPeer(routes(uid)[k], self)
        ensures Handed(trace, n, routes(uid)[k].inst, uid, routes(uid)[k].did, MessageFor(uid2seq, uid))
      {
        var p := routes(uid)[k].inst;
        assert PeerHanded(trace, m, p, peers[p], uid2seq);
        assert AllDevicesHanded(trace, m, p, uid, SeqOf(uid2seq, uid), true);
        HandedSince(trace, n, m, p, uid, routes(uid)[k].did, MessageFor(uid2seq, uid));
      }
    }

    /** onPushMessage: an acknowledged message has, for every numbered member with a routed device, an entry in the
        ledger written during this call; and one for every routed device of a member no connection of this instance
        took it for.  Of the others, whatever the outcome, no device on a peer has one.  If nothing fails it is
        acknowledged, and a member with devices on peers has them all covered exactly if it has none here. */
    method OnPushMessage(members: seq<Uid>, uid2seq: map<Uid, UserSeq>) returns (action: Action)
      requires Valid()
      modifies this
      ensures Valid() && old(trace) <= trace
      ensures action == Ack ==> forall u :: u in members && u in uid2seq ==>
        Promised(trace, |old(trace)|, routes(u), self, u, uid2seq[u])
      ensures action == Ack ==> MembersHanded(trace, |old(trace)|, members, uid2seq)
      ensures action == Ack ==> forall u :: u in members && u in uid2seq && !Took(trace, |old(trace)|, self, u) ==>
        PeersHanded(trace, |old(trace)|, self, u, routes(u), MessageFor(uid2seq, u))
      ensures Distinct(members) ==> forall u :: u in members && u in uid2seq ==>
        Withheld(trace, |old(trace)|, routes(u), self, u)
      ensures healthy ==> action == Ack
      ensures healthy && Distinct(members) ==> forall u :: u in members && u in uid2seq ==>
        (Took(trace, |old(trace)|, self, u) <==> OnInstance(routes(u), self))
      ensures healthy && Distinct(members) ==> forall u ::
        u in members && u in uid2seq && DistinctDevices(routes(u)) && AnyOnPeer(routes(u), self) ==>
        (CoveredRouted(Since(trace, |old(trace)|), routes(u), self, u, uid2seq[u]) <==> !OnInstance(routes(u), self))
    {
      var delivered, remote := DeliverToMembers(members, uid2seq);
      if !delivered {
        AllWithheld(trace, |old(trace)|, routes, self);
        return NackRequeue;
      }
      var grouped, peers := GroupByPeer(remote);
      ghost var before, told := trace, Users(remote);
      if !grouped {
        AllWithheld(trace, |old(trace)|, routes, self);
        return NackRequeue;
      }
      var pushed := PushToPeers(peers, uid2seq, told);
      forall u | Distinct(members) && u in members && u in uid2seq
        ensures Withheld(trace, |old(trace)|, routes(u), self, u)
      {
        assert OnlyLocal(before, |old(trace)|, routes(u), self, u);
        StaysWithheld(before, trace, |old(trace)|, routes(u), self, u, told);
        TookSplits(before, trace, |old(trace)|, self, u);
      }
      if !pushed { return NackRequeue; }
      forall u | u in members && u in uid2seq
        ensures Promised(trace, |old(trace)|, routes(u), self, u, uid2seq[u])
      {
        PeersComplete(before, trace, |old(trace)|, peers, routes(u), self, u, uid2seq[u], u in remote);
      }
      forall u | u in members
        ensures LocalHanded(trace, |old(trace)|, self, u, routes(u), MessageFor(uid2seq, u))
      {
        LocalStays(before, trace, |old(trace)|, |old(trace)|, self, u, routes(u), MessageFor(uid2seq, u));
      }
      forall u | u in members && u in uid2seq && !Took(trace, |old(trace)|, self, u)
        ensures PeersHanded(trace, |old(trace)|, self, u, routes(u), MessageFor(uid2seq, u))
      {
        TookSplits(before, trace, |old(trace)|, self, u);
        LeftIsHanded(|old(trace)|, |before|, peers, u, uid2seq);
      }
      forall u | Distinct(members) && u in members && u in uid2seq
        && DistinctDevices(routes(u)) && AnyOnPeer(routes(u), self)
        ensures CoveredRouted(Since(trace, |old(trace)|), routes(u), self, u, uid2seq[u]) <==>
          !Took(trace, |old(trace)|, self, u)
      {
        CoveredExactlyIfNotTaken(trace, |old(trace)|, routes(u), self, u, uid2seq[u]);
      }
      action := Ack;
    }

    /** The heartbeat resend: exactly the entries that peek finds due are sent, so it is backed, and where there were
        any all of the device's are put off together. */
    method HeartbeatResend(uid: Uid, peek: Did -> seq<UserSeq>) returns (ok: bool)
      requires Valid() && forall did :: Peeks(ledger, uid, did, peek(did))
      modifies this`trace
      ensures Valid() && old(trace) <= trace && AllResent(trace, |old(trace)|, self, uid, ledger, peek)
      ensures ok ==> forall k :: 0 <= k < |routes(uid)| ==>
        DeviceResent(trace, |old(trace)|, self, uid, routes(uid)[k].did, ledger, peek(routes(uid)[k].did))
    {
      var resolved, route := ResolveRoute(uid);
      if !resolved { return false; }
      for i := 0 to |route|
        invariant Valid() && old(trace) <= trace && AllResent(trace, |old(trace)|, self, uid, ledger, peek)
        invariant forall k :: 0 <= k < i ==>
          DeviceResent(trace, |old(trace)|, self, uid, route[k].did, ledger, peek(route[k].did))
      {
        ghost var before := trace;
        ResendDevice(uid, route[i].did, peek);
        forall k | 0 <= k <= i
          ensures DeviceResent(trace, |old(trace)|, self, uid, route[k].did, ledger, peek(route[k].did))
        {
          var earlier := if k < i then before else trace;
          var since := if k < i then |old(trace)| else |before|;
          DeviceStaysResent(earlier, trace, |old(trace)|, since, self, uid, route[k].did, ledger, peek(route[k].did));
        }
      }
      ok := true;
    }

    method ResendDevice(uid: Uid, did: Did, peek: Did -> seq<UserSeq>)
      requires Valid() && Peeks(ledger, uid, did, peek(did))
      modifies this`trace
      ensures Valid() && old(trace) <= trace && AllResent(trace, |old(trace)|, self, uid, ledger, peek)
      ensures DeviceResent(trace, |old(trace)|, self, uid, did, ledger, peek(did))
    {
      if peek(did) == [] { return; }
      SendAll(uid, did, peek);
      ghost var sent := trace;
      PutOff(uid, did, peek(did));
      assert trace[|sent|] == Bumped(uid, did, peek(did));
      HandedStays(sent, trace, |old(trace)|, |old(trace)|, self, uid, did, ledger, peek(did), |peek(did)|);
    }

    method SendAll(uid: Uid, did: Did, peek: Did -> seq<UserSeq>)
      requires Valid() && Peeks(ledger, uid, did, peek(did))
      modifies this`trace
      ensures Valid() && old(trace) <= trace && AllResent(trace, |old(trace)|, self, uid, ledger, peek)
      ensures AllHanded(trace, |old(trace)|, self, uid, did, ledger, peek(did), |peek(did)|)
    {
      for i := 0 to |peek(did)|
        invariant Valid() && old(trace) <= trace && AllResent(trace, |old(trace)|, self, uid, ledger, peek)
        invariant AllHanded(trace, |old(trace)|, self, uid, did, ledger, peek(did), i)
      {
        ghost var before := trace;
        SendOne(uid, did, i, peek);
        OneMoreSent(before, trace, |old(trace)|, self, uid, did, ledger, peek, i);
      }
    }

    /** One due entry goes to the device's connections. */
    method SendOne(uid: Uid, did: Did, j: nat, peek: Did -> seq<UserSeq>)
      requires Valid() && Peeks(ledger, uid, did, peek(did)) && j < |peek(did)|
      modifies this`trace
      ensures Valid() && |trace| == |old(trace)| + 1 && old(trace) <= trace
      ensures Resent(trace[|old(trace)|], self, uid, ledger, peek)
      ensures HandedAt(trace[|old(trace)|], self, uid, did, PayloadOf(ledger, uid, did, peek(did)[j]))
    {
      var _ := LocalSend(self, uid, did, PayloadOf(ledger, uid, did, peek(did)[j]));
    }

    /** bump_score, of which the model keeps that it was asked for: its failure is only logged. */
    method PutOff(uid: Uid, did: Did, numbers: seq<UserSeq>)
      requires Valid()
      modifies this`trace
      ensures Valid() && trace == old(trace) + [Bumped(uid, did, numbers)]
    {
      BackedGrows(trace, Bumped(uid, did, numbers));
      trace := trace + [Bumped(uid, did, numbers)];
      assert Entries(old(trace)) <= Entries(trace);
    }
  }

  /** A user with one device here and one on a peer: the message is acknowledged, the device here took it, and the
      device on the peer has no entry. */
  method TakenHereMissesPeers(self: Instance, peer: Instance, uid: Uid, here: Did, there: Did, s: UserSeq)
    returns (service: PushService, action: Action)
    requires peer != self && peer != "" && here != there
    ensures service.self == self && service.routes(uid) == [Device(here, self), Device(there, peer)]
    ensures service.Valid() && action == Ack
    ensures Took(service.trace, 0, self, uid) && (uid, there, s) !in Entries(service.trace)
  {
    var route := [Device(here, self), Device(there, peer)];
    service := new PushService(self, _ => route, true);
    action := service.OnPushMessage([uid], map[uid := s]);
    assert service.trace[0..] == service.trace;
    assert uid in [uid] && route[0].inst == self;
    assert Withheld(service.trace, 0, service.routes(uid), self, uid);
    assert OnPeer(route[1], self);
  }
}
