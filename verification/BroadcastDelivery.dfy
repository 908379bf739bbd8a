/** Local delivery, advertisements and retries over every run of the gossip event loop. */
module BroadcastDelivery {
  import opened Common
  import opened Interner
  import opened PendingStore
  import opened BroadcastContext
  import opened BroadcastSafety

  // --- only verified messages are published ---------------------------------------------------

  ghost predicate WasAccepted(accepted: set<(Message, Directory)>, m: Message) {
    exists keys :: (m, keys) in accepted
  }

  ghost predicate FromAccepted(env: Env, accepted: set<(Message, Directory)>, p: Shared) {
    exists m, keys :: (m, keys) in accepted && p == ToShared(ToDigest(env, m), m)
  }

  /** The message would pass all checks in this state, by this directory. */
  ghost predicate Accepts(env: Env, s: Context, m: Message, keys: Directory) {
    var d := ToDigest(env, m);
    GetMessage(s.db, d).None? && GetId(s.db, d).Some? && m.origin in keys && env.verify(keys[m.origin], m.signature, d)
  }

  /** Only a message that passes all checks is recorded as accepted. */
  lemma StepAccepts(env: Env, s: Context, e: Event)
    requires Ready(s)
    ensures var after := Step(env, s, e).history.accepted;
            || after == s.history.accepted
            || (e.RecvMessage? && Accepts(env, s, e.message, e.keys)
                && after == s.history.accepted + {(e.message, e.keys)})
  {
    hide Holds, Insert, Get, RemoveMessage, ReceivedMessage, ApplyTick, RetryWants, ToShared, ToDigest, InsertPending,
      InsertRequest;
  }

  ghost predicate AcceptInv(env: Env, s: Context) {
    && (forall d, i :: d in s.processing && 0 <= i < |s.processing[d]| ==>
          WasAccepted(s.history.accepted, s.processing[d][i].message))
    && (forall i :: 0 <= i < |s.published| ==> FromAccepted(env, s.history.accepted, s.published[i]))
  }

  lemma MessageKeepsAccept(env: Env, s: Context, sender: NodeIndex, m: Message, keys: Directory, average: real)
    requires Ready(s) && IdentityInv(env, s) && AcceptInv(env, s)
    ensures AcceptInv(env, HandleMessage(env, s, sender, m, keys, average))
  {
    hide Holds, ReceivedMessage, ToShared, ToDigest;
    var s' := HandleMessage(env, s, sender, m, keys, average);
    var d := ToDigest(env, m);
    if s' != s {
      assert (m, keys) in s'.history.accepted;
      forall x, i | x in s'.processing && 0 <= i < |s'.processing[x]|
        ensures WasAccepted(s'.history.accepted, s'.processing[x][i].message)
      {
        if s'.processing[x][i].message != m {
          assert WasAccepted(s.history.accepted, s.processing[x][i].message);
        }
      }
      forall i | 0 <= i < |s'.published| ensures FromAccepted(env, s'.history.accepted, s'.published[i]) {
        if i < |s.published| {
          assert FromAccepted(env, s.history.accepted, s.published[i]);
        }
      }
    }
  }

  lemma MarkKeepsAccept(env: Env, s: Context, d: Digest)
    requires IdentityInv(env, s) && AcceptInv(env, s)
    ensures AcceptInv(env, HandleMarkInvalid(s, d))
  {
    hide ToShared, ToDigest;
    var s' := HandleMarkInvalid(s, d);
    forall x, i | x in s'.processing && 0 <= i < |s'.processing[x]|
      ensures WasAccepted(s'.history.accepted, s'.processing[x][i].message)
    {
      if x == d {
        assert WasAccepted(s.history.accepted, s.processing[d][i + 1].message);
      }
    }
    if |s'.published| > |s.published| {
      var next := s.processing[d][1].message;
      assert WasAccepted(s.history.accepted, next) && ToDigest(env, next) == d;
      assert FromAccepted(env, s.history.accepted, ToShared(d, next));
    }
  }

  lemma StepKeepsAccept(env: Env, s: Context, e: Event)
    requires Ready(s) && IdentityInv(env, s) && AcceptInv(env, s)
    ensures AcceptInv(env, Step(env, s, e))
  {
    hide Holds, IdentityInv, HandleMessage, HandleMarkInvalid, FromAccepted, WasAccepted, Insert, Get, RemoveMessage,
      ApplyTick, RetryWants, ToDigest, InsertPending, InsertRequest;
    match e
    case RecvMessage(sender, m, keys, average) => MessageKeepsAccept(env, s, sender, m, keys, average);
    case MarkInvalidSender(d) => MarkKeepsAccept(env, s, d);
    case _ =>
  }

  // --- how often a digest is published --------------------------------------------------------

  function Count(published: seq<Shared>, d: Digest): nat {
    if published == [] then 0
    else
      var n := |published| - 1;
      Count(published[..n], d) + (if published[n].digest == d then 1 else 0)
  }

  lemma CountAppend(published: seq<Shared>, p: Shared, d: Digest)
    ensures Count(published + [p], d) == Count(published, d) + (if p.digest == d then 1 else 0)
  {
    assert (published + [p])[..|published|] == published;
  }

  /** One more copy of d would be published if it arrived now. */
  predicate Open(s: Context, d: Digest) {
    GetMessage(s.db, d).None? && (d in s.processing ==> s.processing[d] == [])
  }

  ghost predicate DeliveryBound(s: Context, d: Digest) {
    d !in s.history.evicted ==>
      Count(s.published, d) + (if Open(s, d) then 1 else 0) <=
      1 + s.history.cleanUps[d] + s.history.invalidMarks[d]
  }

  lemma SendKeepsBound(env: Env, s: Context, own: Message, filter: Option<set<NodeIndex>>, d: Digest)
    requires Ready(s) && DeliveryBound(s, d)
    ensures DeliveryBound(HandleSend(env, s, own, filter), d)
  {
    hide Holds, Insert, Get, Count, ToDigest;
  }

  lemma PropagateKeepsBound(s: Context, x: Digest, filter: Option<set<NodeIndex>>, d: Digest)
    requires DeliveryBound(s, d)
    ensures DeliveryBound(HandlePropagate(s, x, filter), d)
  {
    hide RemoveMessage, Count;
  }

  lemma MessageKeepsBound(env: Env, s: Context, sender: NodeIndex, m: Message, keys: Directory, average: real,
                          d: Digest)
    requires DeliveryBound(s, d)
    ensures DeliveryBound(HandleMessage(env, s, sender, m, keys, average), d)
  {
    hide ReceivedMessage, Count, ToDigest;
    CountAppend(s.published, ToShared(ToDigest(env, m), m), d);
  }

  lemma MarkKeepsBound(s: Context, x: Digest, d: Digest)
    requires DeliveryBound(s, d)
    ensures DeliveryBound(HandleMarkInvalid(s, x), d)
  {
    hide Count;
    if x in s.processing && |s.processing[x]| > 1 {
      CountAppend(s.published, ToShared(x, s.processing[x][1].message), d);
    }
  }

  lemma StepKeepsBound(env: Env, s: Context, e: Event, d: Digest)
    requires Ready(s) && DeliveryBound(s, d)
    ensures DeliveryBound(Step(env, s, e), d)
  {
    hide Holds, Insert, RemoveMessage, ApplyTick, RetryWants, InsertPending, InsertRequest, Count, HandleSend,
      HandlePropagate, HandleMessage, HandleMarkInvalid, HandleWant;
    match e
    case RecvMessage(sender, m, keys, average) => MessageKeepsBound(env, s, sender, m, keys, average, d);
    case MarkInvalidSender(x) => MarkKeepsBound(s, x, d);
    case Send(own, filter) => SendKeepsBound(env, s, own, filter, d);
    case Propagate(x, filter) => PropagateKeepsBound(s, x, filter, d);
    case RecvWant(sender, id) => WantChangesOutboxOnly(s, sender, id);
    case _ =>
  }

  lemma WantChangesOutboxOnly(s: Context, sender: NodeIndex, id: Id)
    ensures HandleWant(s, sender, id) == s.(outbox := HandleWant(s, sender, id).outbox)
  {
  }

  // --- advertisements -------------------------------------------------------------------------

  /** What we advertise: an id the interner gave the digest, of a message we keep until it is
      evicted. */
  ghost predicate GoodAdvert(s: Context, o: Out) {
    o.Advertised? ==>
      && Assigned(s.history.inserted, o.digest, o.id)
      && (o.digest !in s.history.evicted ==> GetMessage(s.db, o.digest).Some?)
  }

  ghost predicate AdvertInv(s: Context) {
    forall i :: 0 <= i < |s.outbox| ==> GoodAdvert(s, s.outbox[i])
  }

  /** What advertisements rest on only grows: ids stay assigned, messages stay until evicted. */
  ghost predicate Keeps(s: Context, s': Context) {
    && (forall d, id :: Assigned(s.history.inserted, d, id) ==> Assigned(s'.history.inserted, d, id))
    && s.history.evicted <= s'.history.evicted
    && (forall d :: GetMessage(s.db, d).Some? && d !in s'.history.evicted ==> GetMessage(s'.db, d).Some?)
  }

  lemma StepKeepsMessages(env: Env, s: Context, e: Event)
    requires Ready(s)
    ensures Keeps(s, Step(env, s, e))
  {
    hide Holds, Insert, Assigned, RemoveMessage, ReceivedMessage, ApplyTick, RetryWants, InsertPending, InsertRequest,
      ToShared, ToDigest, Get;
    forall d, id, x | Assigned(s.history.inserted, d, id) ensures Assigned(s.history.inserted + [x], d, id) {
      AssignedGrows(s.history.inserted, x, d, id);
    }
  }

  lemma SendAdvertIsGood(env: Env, s: Context, own: Message, filter: Option<set<NodeIndex>>)
    requires Ready(s) && IdentityInv(env, s)
    ensures var s' := HandleSend(env, s, own, filter);
            s.outbox <= s'.outbox && forall i :: |s.outbox| <= i < |s'.outbox| ==> GoodAdvert(s', s'.outbox[i])
  {
    hide Holds, Insert, Get, ToDigest, Assigned;
    var d := ToDigest(env, own);
    NextId(s.interner, s.history.inserted);
    AssignedNow(s.history.inserted, d);
    if d in s.db {
      assert GoodEntry(env, s.history.inserted, d, s.db[d]);
    }
  }

  lemma PropagateAdvertIsGood(env: Env, s: Context, d: Digest, filter: Option<set<NodeIndex>>)
    requires IdentityInv(env, s)
    ensures var s' := HandlePropagate(s, d, filter);
            s.outbox <= s'.outbox && forall i :: |s.outbox| <= i < |s'.outbox| ==> GoodAdvert(s', s'.outbox[i])
  {
    hide Holds, Assigned, RemoveMessage;
    if d in s.db {
      assert GoodEntry(env, s.history.inserted, d, s.db[d]);
    }
  }

  lemma {:induction false} RetryWantsAreWants(peers: map<NodeIndex, map<Id, Id>>, requests: seq<(Id, NodeIndex)>)
    ensures forall i :: 0 <= i < |RetryWants(peers, requests)| ==> RetryWants(peers, requests)[i].SentWant?
  {
    if requests == [] {
    } else {
      RetryWantsAreWants(peers, requests[1..]);
    }
  }

  lemma NewAdvertsAreGood(env: Env, s: Context, e: Event)
    requires Ready(s) && IdentityInv(env, s)
    ensures var s' := Step(env, s, e);
            s.outbox <= s'.outbox && forall i :: |s.outbox| <= i < |s'.outbox| ==> GoodAdvert(s', s'.outbox[i])
  {
    hide Holds, IdentityInv, HandleSend, HandlePropagate, HandleMessage, Assigned, Insert, RemoveMessage, ApplyTick,
      RetryWants, InsertPending, InsertRequest, Get;
    match e
    case Send(own, filter) => SendAdvertIsGood(env, s, own, filter);
    case Propagate(d, filter) => PropagateAdvertIsGood(env, s, d, filter);
    case Tick(_, _, requests) => RetryWantsAreWants(s.peers, requests);
    case RecvMessage(sender, m, keys, average) => MessageSendsNothing(env, s, sender, m, keys, average);
    case _ =>
  }

  lemma MessageSendsNothing(env: Env, s: Context, sender: NodeIndex, m: Message, keys: Directory, average: real)
    ensures HandleMessage(env, s, sender, m, keys, average).outbox == s.outbox
  {
  }

  lemma StepKeepsAdverts(env: Env, s: Context, e: Event)
    requires Ready(s) && IdentityInv(env, s) && AdvertInv(s)
    ensures AdvertInv(Step(env, s, e))
  {
    hide Ready, IdentityInv, Step, Assigned;
    var s' := Step(env, s, e);
    StepKeepsMessages(env, s, e);
    NewAdvertsAreGood(env, s, e);
    forall i | 0 <= i < |s'.outbox| ensures GoodAdvert(s', s'.outbox[i]) {
      if i < |s.outbox| {
        assert GoodAdvert(s, s.outbox[i]);
      }
    }
  }

  // --- no retry once a message has been propagated --------------------------------------------

  ghost predicate Retired(s: Context, d: Digest) {
    && GetMessage(s.db, d).Some?
    && GetId(s.db, d).Some?
    && GetId(s.db, d).value !in s.pending.pendingMap
  }

  ghost predicate RetiredInv(s: Context) {
    forall d :: d in s.history.propagated && d !in s.history.evicted ==> Retired(s, d)
  }

  lemma AdvrKeepsRetired(env: Env, s: Context, sender: NodeIndex, remote: Id, x: Digest, now: nat, d: Digest)
    requires Ready(s) && IdentityInv(env, s) && Retired(s, d)
    requires NoWrap(HandleAdvr(s, sender, remote, x, now).history.inserted)
    ensures Retired(HandleAdvr(s, sender, remote, x, now), d)
  {
    hide Insert, Assigned, PushRequest;
    NextId(s.interner, s.history.inserted);
    assert GoodEntry(env, s.history.inserted, d, s.db[d]);
    AssignedWithoutWrap(s.history.inserted, d, GetId(s.db, d).value);
    if GetId(s.db, x).Some? {
      assert GoodEntry(env, s.history.inserted, x, s.db[x]);
      AssignedWithoutWrap(s.history.inserted, x, GetId(s.db, x).value);
    }
  }

  lemma SendKeepsRetired(env: Env, s: Context, own: Message, filter: Option<set<NodeIndex>>, d: Digest)
    requires Ready(s) && Retired(s, d)
    ensures Retired(HandleSend(env, s, own, filter), d)
  {
    hide Holds, Insert, Get, ToDigest;
  }

  lemma PropagateRetires(s: Context, x: Digest, filter: Option<set<NodeIndex>>, d: Digest)
    ensures var s' := HandlePropagate(s, x, filter);
            && (Retired(s, d) ==> Retired(s', d))
            && (d == x && s'.history.propagated != s.history.propagated ==> Retired(s', d))
  {
  }

  lemma StepKeepsRetired(env: Env, s: Context, e: Event)
    requires Ready(s) && IdentityInv(env, s) && RetiredInv(s) && Enabled(s, e)
    requires NoWrap(Step(env, s, e).history.inserted)
    ensures RetiredInv(Step(env, s, e))
  {
    hide Holds, IdentityInv, HandleAdvr, HandleSend, HandleMessage, HandlePropagate, Insert, RetryWants, Get, PushRequest;
    var s' := Step(env, s, e);
    forall d | d in s'.history.propagated && d !in s'.history.evicted ensures Retired(s', d) {
      match e
      case RecvAdvr(sender, remote, x, now) =>
        AdvrHistory(s, sender, remote, x, now);
        AdvrKeepsRetired(env, s, sender, remote, x, now, d);
      case Send(own, filter) =>
        SendHistory(env, s, own, filter);
        SendKeepsRetired(env, s, own, filter, d);
      case Propagate(x, filter) =>
        PropagateHistory(s, x, filter);
        PropagateRetires(s, x, filter, d);
      case RecvMessage(sender, m, keys, average) =>
        MessageKeepsRetired(env, s, sender, m, keys, average, d);
      case _ =>
        assert Retired(s, d);
    }
  }

  lemma AdvrHistory(s: Context, sender: NodeIndex, remote: Id, x: Digest, now: nat)
    requires Ready(s)
    ensures var h := HandleAdvr(s, sender, remote, x, now).history;
            h.propagated == s.history.propagated && h.evicted == s.history.evicted
  {
    hide Holds, Insert, InsertPending, InsertRequest;
  }

  lemma SendHistory(env: Env, s: Context, own: Message, filter: Option<set<NodeIndex>>)
    requires Ready(s)
    ensures var h := HandleSend(env, s, own, filter).history;
            h.propagated == s.history.propagated && h.evicted == s.history.evicted
  {
    hide Holds, Insert, Get, ToDigest;
  }

  lemma PropagateHistory(s: Context, x: Digest, filter: Option<set<NodeIndex>>)
    ensures var h := HandlePropagate(s, x, filter).history;
            h.propagated <= s.history.propagated + {x} && h.evicted == s.history.evicted
  {
    hide RemoveMessage;
  }

  lemma MessageKeepsRetired(env: Env, s: Context, sender: NodeIndex, m: Message, keys: Directory, average: real,
                            d: Digest)
    ensures var s' := HandleMessage(env, s, sender, m, keys, average);
            && s'.history.propagated == s.history.propagated && s'.history.evicted == s.history.evicted
            && (Retired(s, d) ==> Retired(s', d))
  {
    hide ToDigest, ToShared;
  }
}
