/** What every run of the gossip event loop keeps. */
module BroadcastSafety {
  import opened Common
  import opened Interner
  import opened PendingStore
  import opened BroadcastContext

  /** The interner once gave d this id. */
  ghost predicate Assigned(inserted: seq<Digest>, d: Digest, id: Id) {
    exists k: nat :: k < |inserted| && inserted[k] == d && IdOf(k) == id
  }

  lemma AssignedGrows(inserted: seq<Digest>, x: Digest, d: Digest, id: Id)
    requires Assigned(inserted, d, id)
    ensures Assigned(inserted + [x], d, id)
  {
    var k: nat :| k < |inserted| && inserted[k] == d && IdOf(k) == id;
    assert (inserted + [x])[k] == d;
  }

  lemma AssignedNow(inserted: seq<Digest>, d: Digest)
    ensures Assigned(inserted + [d], d, IdOf(|inserted|))
  {
    assert (inserted + [d])[|inserted|] == d;
  }

  /** Until the interner wraps, an id stands for one digest. */
  predicate NoWrap(inserted: seq<Digest>) {
    |inserted| <= CAPACITY
  }

  lemma AssignedWithoutWrap(inserted: seq<Digest>, d: Digest, id: Id)
    requires NoWrap(inserted) && Assigned(inserted, d, id)
    ensures id < |inserted| && inserted[id] == d
  {
  }

  // --- identity: ids, digests and messages belong together -----------------------------------

  ghost predicate GoodEntry(env: Env, inserted: seq<Digest>, d: Digest, entry: Entry) {
    && entry.id.Some?
    && Assigned(inserted, d, entry.id.value)
    && (entry.message.Some? ==> ToDigest(env, entry.message.value) == d)
  }

  ghost predicate IdentityInv(env: Env, s: Context) {
    && Holds(s.interner, s.history.inserted)
    && (forall d :: d in s.db ==> GoodEntry(env, s.history.inserted, d, s.db[d]))
    && (forall d, i :: d in s.processing && 0 <= i < |s.processing[d]| ==>
          ToDigest(env, s.processing[d][i].message) == d)
  }

  lemma InternKeepsEntries(env: Env, s: Context, x: Digest)
    requires IdentityInv(env, s)
    ensures forall d :: d in s.db ==> GoodEntry(env, s.history.inserted + [x], d, s.db[d])
    ensures Holds(Insert(s.interner, x), s.history.inserted + [x])
    ensures Assigned(s.history.inserted + [x], x, s.interner.next)
  {
    hide Holds, Insert, ToDigest;
    InsertHolds(s.interner, s.history.inserted, x);
    NextId(s.interner, s.history.inserted);
    AssignedNow(s.history.inserted, x);
    forall d | d in s.db ensures GoodEntry(env, s.history.inserted + [x], d, s.db[d]) {
      hide Assigned;
      AssignedGrows(s.history.inserted, x, d, s.db[d].id.value);
    }
  }

  lemma NextId(t: Table, inserted: seq<Digest>)
    requires Holds(t, inserted)
    ensures t.next == IdOf(|inserted|)
  {
  }

  lemma AdvrKeepsIdentity(env: Env, s: Context, sender: NodeIndex, remote: Id, d: Digest, now: nat)
    requires Ready(s) && IdentityInv(env, s)
    ensures IdentityInv(env, HandleAdvr(s, sender, remote, d, now))
  {
    hide Holds, Insert, Assigned, InsertPending, InsertRequest, ToDigest;
    InternKeepsEntries(env, s, d);
  }

  lemma SendKeepsIdentity(env: Env, s: Context, own: Message, filter: Option<set<NodeIndex>>)
    requires Ready(s) && IdentityInv(env, s)
    ensures IdentityInv(env, HandleSend(env, s, own, filter))
  {
    hide Holds, Insert, Assigned, Get;
    InternKeepsEntries(env, s, ToDigest(env, own));
  }

  lemma PropagateKeepsIdentity(env: Env, s: Context, d: Digest, filter: Option<set<NodeIndex>>)
    requires IdentityInv(env, s)
    ensures IdentityInv(env, HandlePropagate(s, d, filter))
  {
    hide Holds, Assigned, RemoveMessage;
  }

  lemma StepKeepsIdentity(env: Env, s: Context, e: Event)
    requires Ready(s) && IdentityInv(env, s)
    ensures IdentityInv(env, Step(env, s, e))
  {
    hide Holds, Insert, Assigned, HandleAdvr, HandleSend, HandlePropagate, RemoveMessage, ReceivedMessage, ApplyTick,
      RetryWants, ToShared;
    match e
    case RecvAdvr(sender, remote, digest, now) => AdvrKeepsIdentity(env, s, sender, remote, digest, now);
    case Send(own, filter) => SendKeepsIdentity(env, s, own, filter);
    case Propagate(digest, filter) => PropagateKeepsIdentity(env, s, digest, filter);
    case _ =>
  }

  // --- wants: every want we send names the peer's own id for the digest ----------------------

  ghost predicate GoodOut(h: History, o: Out) {
    match o
    case SentWant(to, remote, local) =>
      local < |h.inserted| && Advr(to, remote, h.inserted[local]) in h.advrs
    case _ => true
  }

  ghost predicate GoodMapping(h: History, peer: NodeIndex, id: Id, remote: Id) {
    id < |h.inserted| && Advr(peer, remote, h.inserted[id]) in h.advrs
  }

  ghost predicate WantInv(s: Context) {
    && (forall p, id: Id :: p in s.peers && id in s.peers[p] ==> GoodMapping(s.history, p, id, s.peers[p][id]))
    && (forall i :: 0 <= i < |s.outbox| ==> GoodOut(s.history, s.outbox[i]))
  }

  /** Whoever is pending for an id has told us its own id for it. */
  ghost predicate PendingInv(s: Context) {
    forall id: Id, p :: p in PeersFor(s.pending, id) ==> p in s.peers && id in s.peers[p]
  }

  ghost predicate HistoryGrows(h: History, h': History) {
    h.inserted <= h'.inserted && h.advrs <= h'.advrs
  }

  lemma RetryWantsAreGood(s: Context, requests: seq<(Id, NodeIndex)>)
    requires forall p, id: Id :: p in s.peers && id in s.peers[p] ==> GoodMapping(s.history, p, id, s.peers[p][id])
    ensures forall i :: 0 <= i < |RetryWants(s.peers, requests)| ==>
              GoodOut(s.history, RetryWants(s.peers, requests)[i])
  {
    if requests != [] {
      RetryWantsAreGood(s, requests[1..]);
      var (id, node) := requests[0];
      if node in s.peers && id in s.peers[node] {
        assert GoodMapping(s.history, node, id, s.peers[node][id]);
      }
    }
  }

  lemma AdvrKeepsWants(env: Env, s: Context, sender: NodeIndex, remote: Id, d: Digest, now: nat)
    requires Ready(s) && IdentityInv(env, s) && WantInv(s)
    requires NoWrap(HandleAdvr(s, sender, remote, d, now).history.inserted)
    ensures WantInv(HandleAdvr(s, sender, remote, d, now))
  {
    hide Insert, Assigned, InsertPending, InsertRequest;
    var s' := HandleAdvr(s, sender, remote, d, now);
    NextId(s.interner, s.history.inserted);
    if GetId(s.db, d).Some? {
      assert GoodEntry(env, s.history.inserted, d, s.db[d]);
      AssignedWithoutWrap(s.history.inserted, d, GetId(s.db, d).value);
    }
    assert HistoryGrows(s.history, s'.history);
    forall p, id: Id | p in s'.peers && id in s'.peers[p] ensures GoodMapping(s'.history, p, id, s'.peers[p][id]) {
      if p in s.peers && id in s.peers[p] {
        assert GoodMapping(s.history, p, id, s.peers[p][id]);
      }
    }
    forall i | 0 <= i < |s'.outbox| ensures GoodOut(s'.history, s'.outbox[i]) {
      if i < |s.outbox| {
        assert GoodOut(s.history, s.outbox[i]);
      }
    }
  }

  /** Nothing learned of peers, history only grows, and nothing sent is a want. */
  ghost predicate QuietStep(s: Context, s': Context) {
    && s'.peers == s.peers
    && HistoryGrows(s.history, s'.history)
    && s.outbox <= s'.outbox
    && forall i :: |s.outbox| <= i < |s'.outbox| ==> !s'.outbox[i].SentWant?
  }

  lemma SendIsQuiet(env: Env, s: Context, own: Message, filter: Option<set<NodeIndex>>)
    requires Ready(s)
    ensures QuietStep(s, HandleSend(env, s, own, filter))
  {
    hide Holds, Insert, Get, ToDigest;
  }

  lemma PropagateIsQuiet(s: Context, d: Digest, filter: Option<set<NodeIndex>>)
    ensures QuietStep(s, HandlePropagate(s, d, filter))
  {
    hide RemoveMessage;
  }

  lemma StepIsQuiet(env: Env, s: Context, e: Event)
    requires Ready(s) && !e.RecvAdvr? && !e.Tick?
    ensures QuietStep(s, Step(env, s, e))
  {
    hide Holds, HandleSend, HandlePropagate, Get, RemoveMessage, ReceivedMessage, ToShared, ToDigest;
    match e
    case Send(own, filter) => SendIsQuiet(env, s, own, filter);
    case Propagate(digest, filter) => PropagateIsQuiet(s, digest, filter);
    case _ =>
  }

  lemma StepKeepsWants(env: Env, s: Context, e: Event)
    requires Ready(s) && IdentityInv(env, s) && WantInv(s)
    requires NoWrap(Step(env, s, e).history.inserted)
    ensures WantInv(Step(env, s, e))
  {
    hide IdentityInv, Ready, HandleAdvr, HandleSend, HandleWant, HandleMessage, HandlePropagate, HandleCleanUp,
      HandleMarkInvalid, RetryWants, ApplyTick;
    var s' := Step(env, s, e);
    if e.RecvAdvr? {
      AdvrKeepsWants(env, s, e.sender, e.remote, e.digest, e.now);
    } else {
      if e.Tick? {
        RetryWantsAreGood(s, e.requests);
      } else {
        StepIsQuiet(env, s, e);
      }
      forall p, id: Id | p in s'.peers && id in s'.peers[p] ensures GoodMapping(s'.history, p, id, s'.peers[p][id]) {
        assert GoodMapping(s.history, p, id, s.peers[p][id]);
      }
      forall i | 0 <= i < |s'.outbox| ensures GoodOut(s'.history, s'.outbox[i]) {
        assert i < |s.outbox| ==> GoodOut(s.history, s.outbox[i]);
      }
    }
  }

  /** No peer is learned, and nobody new is pending for any message. */
  ghost predicate PendingShrinks(s: Context, s': Context) {
    s'.peers == s.peers && forall id: Id :: PeersFor(s'.pending, id) <= PeersFor(s.pending, id)
  }

  lemma RemoveShrinks(s: Store, removed: Id, id: Id)
    ensures PeersFor(RemoveMessage(s, removed), id) <= PeersFor(s, id)
  {
  }

  lemma SendShrinks(env: Env, s: Context, own: Message, filter: Option<set<NodeIndex>>)
    requires Ready(s)
    ensures PendingShrinks(s, HandleSend(env, s, own, filter))
  {
    hide Holds, Insert, Get, ToDigest;
  }

  lemma PropagateShrinks(s: Context, d: Digest, filter: Option<set<NodeIndex>>)
    ensures PendingShrinks(s, HandlePropagate(s, d, filter))
  {
    hide RemoveMessage, PeersFor;
    if GetId(s.db, d).Some? {
      forall id: Id ensures PeersFor(RemoveMessage(s.pending, GetId(s.db, d).value), id) <= PeersFor(s.pending, id) {
        RemoveShrinks(s.pending, GetId(s.db, d).value, id);
      }
    }
  }

  lemma CleanUpShrinks(s: Context, d: Digest)
    ensures PendingShrinks(s, HandleCleanUp(s, d))
  {
  }

  lemma MessageShrinks(env: Env, s: Context, sender: NodeIndex, m: Message, keys: Directory, average: real)
    ensures PendingShrinks(s, HandleMessage(env, s, sender, m, keys, average))
  {
    hide ToDigest, ToShared, WasAsked;
  }

  lemma TickShrinks(s: Context, now: nat, sel: map<Id, NodeIndex>, requests: seq<(Id, NodeIndex)>)
    ensures PendingShrinks(s, HandleTick(s, now, sel, requests))
  {
    hide RetryWants, TickRequests;
  }

  lemma PendingOnlyShrinks(env: Env, s: Context, e: Event)
    requires Ready(s) && !e.RecvAdvr?
    ensures PendingShrinks(s, Step(env, s, e))
  {
    hide Holds, HandleSend, HandlePropagate, HandleCleanUp, HandleMessage, HandleTick, Get, ToShared;
    match e
    case Send(own, filter) => SendShrinks(env, s, own, filter);
    case Propagate(d, filter) => PropagateShrinks(s, d, filter);
    case CleanUp(d) => CleanUpShrinks(s, d);
    case RecvMessage(sender, m, keys, average) => MessageShrinks(env, s, sender, m, keys, average);
    case Tick(now, sel, requests) => TickShrinks(s, now, sel, requests);
    case _ =>
  }

  lemma AdvrKeepsPending(s: Context, sender: NodeIndex, remote: Id, d: Digest, now: nat)
    requires Ready(s) && PendingInv(s)
    ensures PendingInv(HandleAdvr(s, sender, remote, d, now))
  {
    hide Holds, Insert, PushRequest;
    var s' := HandleAdvr(s, sender, remote, d, now);
    forall id: Id, p | p in PeersFor(s'.pending, id) ensures p in s'.peers && id in s'.peers[p] {
      if p in PeersFor(s.pending, id) {
        assert p in s.peers && id in s.peers[p];
      }
    }
  }

  lemma StepKeepsPending(env: Env, s: Context, e: Event)
    requires Ready(s) && PendingInv(s)
    ensures PendingInv(Step(env, s, e))
  {
    hide Ready, HandleAdvr, HandleSend, HandleWant, HandleMessage, HandlePropagate, HandleCleanUp, HandleMarkInvalid,
      HandleTick, HandleEvict;
    if e.RecvAdvr? {
      AdvrKeepsPending(s, e.sender, e.remote, e.digest, e.now);
    } else {
      PendingOnlyShrinks(env, s, e);
    }
  }
}
