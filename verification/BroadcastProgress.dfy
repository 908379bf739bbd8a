/** What the gossip event loop does with each event of every run, told from the events and from what the
    database knew when they came. The safety results would also hold of a loop that does less; these
    would not. */
module BroadcastProgress {
  import opened Common
  import opened Interner
  import opened PendingStore
  import opened BroadcastContext
  import opened BroadcastSafety
  import opened BroadcastDelivery
  import opened BroadcastGuarantees
  import RetryDiscipline

  lemma RunAppend(env: Env, events: seq<Event>, e: Event)
    ensures Run(env, events + [e]) ==
            if Enabled(Run(env, events), e) then Step(env, Run(env, events), e) else Run(env, events)
  {
    hide Step, Ready, Enabled;
    assert (events + [e])[..|events|] == events;
  }

  // --- the copies in hand -------------------------------------------------------------------

  predicate Stored(db: Database, d: Digest) {
    d in db && db[d].message.Some?
  }

  /** An id is known for the digest, but no message is stored. */
  predicate Awaited(db: Database, d: Digest) {
    d in db && db[d].id.Some? && db[d].message.None?
  }

  /** The message has an awaited digest and a signature that its own origin's key verifies. */
  predicate Verified(env: Env, db: Database, m: Message, keys: Directory) {
    var d := env.hash(m.topic, m.payload);
    Awaited(db, d) && m.origin in keys && env.verify(keys[m.origin], m.signature, d)
  }

  /** The copies of a digest that wait for a verdict, oldest first, if it is being processed at all:
      verified copies are queued, a clean-up or a propagation ends the processing, and each copy marked
      invalid leaves the queue, which stays even when it is empty. */
  function CopiesAfter(env: Env, db: Database, copies: Option<seq<Received>>, d: Digest, e: Event): Option<seq<Received>> {
    match e
    case RecvMessage(sender, m, keys, _) =>
      if env.hash(m.topic, m.payload) == d && Verified(env, db, m, keys)
      then Some((if copies.Some? then copies.value else []) + [Received(m, sender)])
      else copies
    case CleanUp(x) => if x == d && d in db then None else copies
    case Propagate(x, _) => if x == d && Awaited(db, d) then None else copies
    case MarkInvalidSender(x) =>
      if x == d && copies.Some? && copies.value != [] then Some(copies.value[1..]) else copies
    case _ => copies
  }

  ghost function CopiesOf(env: Env, events: seq<Event>, d: Digest): Option<seq<Received>> {
    if events == [] then None
    else
      var n := |events| - 1;
      CopiesAfter(env, Run(env, events[..n]).db, CopiesOf(env, events[..n], d), d, events[n])
  }

  function InHand(s: Context, d: Digest): Option<seq<Received>> {
    if d in s.processing then Some(s.processing[d]) else None
  }

  lemma OthersKeepCopies(env: Env, s: Context, e: Event)
    requires Ready(s) && !e.RecvMessage? && !e.CleanUp? && !e.Propagate? && !e.MarkInvalidSender?
    ensures Step(env, s, e).processing == s.processing
  {
    hide Holds, Insert, Get, ApplyTick, RetryWants, InsertPending, InsertRequest, ToDigest;
  }

  lemma StepOnCopies(env: Env, s: Context, e: Event, d: Digest)
    requires Ready(s)
    ensures InHand(Step(env, s, e), d) == CopiesAfter(env, s.db, InHand(s, d), d, e)
  {
    hide Holds, HandleAdvr, HandleSend, HandleWant, HandleTick, RemoveMessage, ReceivedMessage, ToShared;
    match e
    case RecvMessage(sender, m, _, _) => assert [] + [Received(m, sender)] == [Received(m, sender)];
    case CleanUp(_) =>
    case Propagate(_, _) =>
    case MarkInvalidSender(_) =>
    case _ => OthersKeepCopies(env, s, e);
  }

  /** What the loop is processing is what the events say. */
  lemma {:induction false} ProcessingIsTheCopiesInHand(env: Env, events: seq<Event>, d: Digest)
    ensures InHand(Run(env, events), d) == CopiesOf(env, events, d)
  {
    hide Step, Ready, Verified, Awaited;
    if events == [] {
    } else {
      var n := |events| - 1;
      ProcessingIsTheCopiesInHand(env, events[..n], d);
      StepOnCopies(env, Run(env, events[..n]), events[n], d);
    }
  }

  // --- what is published --------------------------------------------------------------------

  /** The message, as subscribers of its topic's ring get it. */
  predicate Delivers(p: Shared, d: Digest, m: Message) {
    && p.digest == d && p.origin == m.origin && p.payload == m.payload
    && (m.topic.Consensus? ==> p.topicIndex == 0)
    && (m.topic.Resolver? ==> p.topicIndex == 1)
    && (m.topic.Debug? ==> p.topicIndex == 2)
    && (m.topic.TaskBroker? ==> p.topicIndex == 3)
    && (m.topic.Checkpoint? ==> p.topicIndex == 4)
  }

  /** The message that an event makes the next one for the subscribers: a verified first copy, or the
      copy behind one that is marked invalid. */
  function DueDelivery(env: Env, db: Database, copies: Option<seq<Received>>, e: Event): Option<Message> {
    match e
    case RecvMessage(_, m, keys, _) => if copies.None? && Verified(env, db, m, keys) then Some(m) else None
    case MarkInvalidSender(_) => if copies.Some? && |copies.value| >= 2 then Some(copies.value[1].message) else None
    case _ => None
  }

  /** The digest that an event is about. */
  function DigestOf(env: Env, e: Event): Digest {
    match e
    case RecvAdvr(_, _, d, _) => d
    case RecvMessage(_, m, _, _) => env.hash(m.topic, m.payload)
    case Send(own, _) => env.hash(own.topic, own.payload)
    case CleanUp(d) => d
    case Propagate(d, _) => d
    case MarkInvalidSender(d) => d
    case _ => 0
  }

  lemma StepDelivers(env: Env, s: Context, e: Event)
    requires Ready(s)
    ensures var s', due := Step(env, s, e), DueDelivery(env, s.db, InHand(s, DigestOf(env, e)), e);
            if due.None? then s'.published == s.published
            else
              && |s'.published| == |s.published| + 1 && s.published <= s'.published
              && Delivers(s'.published[|s.published|], DigestOf(env, e), due.value)
  {
    hide Holds, Insert, Get, RemoveMessage, ReceivedMessage, ApplyTick, RetryWants, InsertPending, InsertRequest;
  }

  /** Delivery, both ways. An event of a run publishes exactly one message, on the ring of its topic, if
      it is a verified copy of an awaited digest that is not being processed, or if it marks a copy
      invalid that another one waits behind; every other event publishes nothing. */
  lemma PublishesExactly(env: Env, events: seq<Event>, e: Event)
    ensures var s, s' := Run(env, events), Run(env, events + [e]);
            var d := DigestOf(env, e);
            var due := DueDelivery(env, s.db, CopiesOf(env, events, d), e);
            if due.None? then s'.published == s.published
            else
              && |s'.published| == |s.published| + 1 && s.published <= s'.published
              && Delivers(s'.published[|s.published|], d, due.value)
  {
    hide Run, Step, Ready, Enabled, Delivers;
    RunAppend(env, events, e);
    ProcessingIsTheCopiesInHand(env, events, DigestOf(env, e));
    StepDelivers(env, Run(env, events), e);
    TicksDeliverNothing(env, Run(env, events), CopiesOf(env, events, DigestOf(env, e)), e);
  }

  lemma TicksDeliverNothing(env: Env, s: Context, copies: Option<seq<Received>>, e: Event)
    ensures !Enabled(s, e) ==> DueDelivery(env, s.db, copies, e).None?
  {
    hide IsSelection, Lists;
  }

  // --- what is asked for, stored and advertised ---------------------------------------------

  /** The id under which a peer last offered a digest that then had the local id, and whose message was
      not stored. */
  ghost function OfferOf(env: Env, events: seq<Event>, peer: NodeIndex, id: Id): Option<Id> {
    if events == [] then None
    else
      var n := |events| - 1;
      var s := Run(env, events[..n]);
      match events[n]
      case RecvAdvr(sender, remote, d, _) =>
        if sender == peer && !Stored(s.db, d) && LocalId(s, d) == id then Some(remote)
        else OfferOf(env, events[..n], peer, id)
      case _ => OfferOf(env, events[..n], peer, id)
  }

  /** The id a digest has, or gets next. */
  function LocalId(s: Context, d: Digest): Id {
    if d in s.db && s.db[d].id.Some? then s.db[d].id.value else IdOf(|s.history.inserted|)
  }

  function MappingOf(s: Context, peer: NodeIndex, id: Id): Option<Id> {
    if peer in s.peers && id in s.peers[peer] then Some(s.peers[peer][id]) else None
  }

  lemma OthersKeepMappings(env: Env, s: Context, e: Event)
    requires Ready(s) && !e.RecvAdvr?
    ensures Step(env, s, e).peers == s.peers
  {
    hide Holds, Insert, Get, RemoveMessage, ReceivedMessage, ApplyTick, RetryWants, ToDigest, ToShared;
  }

  lemma StepOnMapping(env: Env, s: Context, e: Event, peer: NodeIndex, id: Id)
    requires Ready(s)
    ensures MappingOf(Step(env, s, e), peer, id) ==
            if e.RecvAdvr? && e.sender == peer && !Stored(s.db, e.digest) && LocalId(s, e.digest) == id
            then Some(e.remote) else MappingOf(s, peer, id)
  {
    hide Holds, Insert, InsertPending, InsertRequest, HandleWant, HandleMessage, HandleSend, HandleCleanUp,
      HandlePropagate, HandleMarkInvalid, HandleTick, HandleEvict;
    NextId(s.interner, s.history.inserted);
    if !e.RecvAdvr? {
      OthersKeepMappings(env, s, e);
    }
  }

  /** The peer mappings are exactly the offers of the run. */
  lemma {:induction false} MappingsAreTheOffers(env: Env, events: seq<Event>, peer: NodeIndex, id: Id)
    ensures MappingOf(Run(env, events), peer, id) == OfferOf(env, events, peer, id)
  {
    hide Step, Ready, Stored, LocalId;
    if events == [] {
    } else {
      var n := |events| - 1;
      MappingsAreTheOffers(env, events[..n], peer, id);
      StepOnMapping(env, Run(env, events[..n]), events[n], peer, id);
    }
  }

  /** The first advertisement of a digest, and only it, is answered: the advertising peer is asked at once,
      by its own id. */
  lemma FirstAdvertisementIsAnswered(env: Env, events: seq<Event>, sender: NodeIndex, remote: Id, d: Digest, now: nat)
    ensures var s, s' := Run(env, events), Run(env, events + [RecvAdvr(sender, remote, d, now)]);
            && s'.outbox == s.outbox + (if d in s.db then [] else [SentWant(sender, remote, LocalId(s, d))])
            && s'.db == (if d in s.db then s.db else s.db[d := Entry(Some(LocalId(s, d)), None)])
  {
    hide Run, Holds, Insert, InsertPending, InsertRequest;
    RunAppend(env, events, RecvAdvr(sender, remote, d, now));
    NextId(Run(env, events).interner, Run(env, events).history.inserted);
  }

  /** The peers an advertisement reaches: those of the filter, or else all but the ones that have offered
      the message themselves. */
  ghost predicate Reaches(env: Env, events: seq<Event>, id: Id, filter: Option<set<NodeIndex>>, to: Recipients) {
    if filter.Some? then to == Only(filter.value)
    else to.AllBut? && forall p :: p in to.nodes <==> OfferOf(env, events, p, id).Some?
  }

  /** One advertisement of the digest has been added to what was sent before. */
  ghost predicate AdvertisedLast(env: Env, events: seq<Event>, before: seq<Out>, s': Context, d: Digest,
                                 filter: Option<set<NodeIndex>>)
  {
    && |s'.outbox| == |before| + 1 && before <= s'.outbox
    && var a := s'.outbox[|before|];
       && a.Advertised? && a.digest == d && d in s'.db && s'.db[d].id == Some(a.id)
       && Reaches(env, events, a.id, filter, a.recipients)
  }

  lemma AdvertiseReaches(env: Env, events: seq<Event>, s: Context, id: Id, d: Digest, filter: Option<set<NodeIndex>>)
    requires s.peers == Run(env, events).peers && d in s.db && s.db[d].id == Some(id)
    ensures AdvertisedLast(env, events, s.outbox, Advertise(s, id, d, filter), d, filter)
  {
    hide Run, OfferOf;
    forall p ensures (p in s.peers && id in s.peers[p]) <==> OfferOf(env, events, p, id).Some? {
      MappingsAreTheOffers(env, events, p, id);
    }
  }

  /** A message of our own is stored and advertised, unless one with its digest is stored already. The
      id that goes out is one the interner finds the digest by. */
  lemma OwnMessageIsAdvertised(env: Env, events: seq<Event>, own: Message, filter: Option<set<NodeIndex>>)
    ensures var s, s' := Run(env, events), Run(env, events + [Send(own, filter)]);
            var d := env.hash(own.topic, own.payload);
            if Stored(s.db, d) then s' == s
            else
              && s'.db == s.db[d := Entry(Some(s'.db[d].id.value), Some(own))]
              && Get(s'.interner, s'.db[d].id.value) == Some(d)
              && AdvertisedLast(env, events, s.outbox, s', d, filter)
  {
    hide Run, Holds, Insert, Get, Advertise, AdvertisedLast;
    var s, d := Run(env, events), env.hash(own.topic, own.payload);
    RunAppend(env, events, Send(own, filter));
    if !Stored(s.db, d) {
      var known := GetId(s.db, d);
      var reuse := known.Some? && Get(s.interner, known.value) == Some(d);
      var id := if reuse then known.value else s.interner.next;
      var s1 := if reuse then s else Intern(s, d);
      var s2 := s1.(db := s.db[d := Entry(Some(id), Some(own))]);
      assert s2.db == InsertMessage(if known.None? then InsertId(s.db, id, d) else UpdateId(s.db, id, d), d, own);
      NewIdFindsDigest(s.interner, s.history.inserted, d);
      AdvertiseReaches(env, events, s2, id, d, filter);
      AdvertiseFrame(s2, id, d, filter);
      assert HandleSend(env, s, own, filter) == Advertise(s2, id, d, filter);
    }
  }

  lemma AdvertiseFrame(s: Context, id: Id, d: Digest, filter: Option<set<NodeIndex>>)
    ensures var s' := Advertise(s, id, d, filter); s' == s.(outbox := s'.outbox)
  {
  }

  lemma NewIdFindsDigest(t: Table, inserted: seq<Digest>, d: Digest)
    requires Holds(t, inserted)
    ensures Get(Insert(t, d), t.next) == Some(d)
  {
    InsertHolds(t, inserted, d);
    LookupIsExact(Insert(t, d), inserted + [d], |inserted|);
  }

  /** Propagating stores the oldest copy in hand, unless a message is stored already, and advertises it;
      it does nothing for a digest without an id or without a copy. */
  lemma PropagatedMessageIsAdvertised(env: Env, events: seq<Event>, d: Digest, filter: Option<set<NodeIndex>>)
    ensures var s, s' := Run(env, events), Run(env, events + [Propagate(d, filter)]);
            var copies := CopiesOf(env, events, d);
            if Stored(s.db, d) then s'.db == s.db && AdvertisedLast(env, events, s.outbox, s', d, filter)
            else if d in s.db && copies.Some? && copies.value != [] then
              && s'.db == s.db[d := s.db[d].(message := Some(copies.value[0].message))]
              && AdvertisedLast(env, events, s.outbox, s', d, filter)
            else s'.db == s.db && s'.outbox == s.outbox
  {
    hide Run, Holds, RemoveMessage, Advertise, AdvertisedLast;
    var s, copies := Run(env, events), CopiesOf(env, events, d);
    RunAppend(env, events, Propagate(d, filter));
    ProcessingIsTheCopiesInHand(env, events, d);
    if Stored(s.db, d) || (d in s.db && copies.Some? && copies.value != []) {
      var s1 := if Stored(s.db, d) then s
                else s.(processing := s.processing - {d}, db := InsertMessage(s.db, d, copies.value[0].message));
      var id := s.db[d].id.value;
      var s2 := s1.(pending := RemoveMessage(s.pending, id),
                    history := s.history.(propagated := s.history.propagated + {d}));
      AdvertiseReaches(env, events, s2, id, d, filter);
      AdvertiseFrame(s2, id, d, filter);
      assert HandlePropagate(s, d, filter) == Advertise(s2, id, d, filter);
    }
  }

  /** Nothing else changes the database, but for the cache's own evictions. */
  lemma DatabaseChangesOnlySo(env: Env, events: seq<Event>, e: Event)
    requires !e.RecvAdvr? && !e.Send? && !e.Propagate?
    ensures var s, s' := Run(env, events), Run(env, events + [e]);
            s'.db == if e.Evict? then s.db - e.digests else s.db
  {
    hide Run, Holds, RemoveMessage, ReceivedMessage, ApplyTick, RetryWants, ToShared, IsSelection, Lists;
    RunAppend(env, events, e);
  }

  lemma {:induction false} RetryWantAt(env: Env, events: seq<Event>, requests: seq<(Id, NodeIndex)>, i: nat)
    requires i < |requests|
    requires forall k :: 0 <= k < |requests| ==> OfferOf(env, events, requests[k].1, requests[k].0).Some?
    ensures var wants := RetryWants(Run(env, events).peers, requests);
            && |wants| == |requests|
            && wants[i] == SentWant(requests[i].1, OfferOf(env, events, requests[i].1, requests[i].0).value, requests[i].0)
    decreases |requests|
  {
    hide Run, OfferOf;
    MappingsAreTheOffers(env, events, requests[0].1, requests[0].0);
    if |requests| > 1 {
      RetryWantAt(env, events, requests[1..], if i > 0 then i - 1 else 0);
    }
  }

  /** Every request of a tick goes out, as a want by the id under which the peer offered the message. */
  lemma TickSendsItsRequests(env: Env, events: seq<Event>, now: nat, sel: map<Id, NodeIndex>,
                             requests: seq<(Id, NodeIndex)>)
    requires Enabled(Run(env, events), Tick(now, sel, requests))
    ensures var s, s' := Run(env, events), Run(env, events + [Tick(now, sel, requests)]);
            && |s'.outbox| == |s.outbox| + |requests| && s.outbox <= s'.outbox
            && forall i :: 0 <= i < |requests| ==>
                 var (id, node) := requests[i];
                 && OfferOf(env, events, node, id).Some?
                 && s'.outbox[|s.outbox|..][i] == SentWant(node, OfferOf(env, events, node, id).value, id)
  {
    hide Run, OfferOf, RetryWants, ApplyTick, IsSelection, Holds;
    var s, s' := Run(env, events), Run(env, events + [Tick(now, sel, requests)]);
    RunAppend(env, events, Tick(now, sel, requests));
    RetryLookupNeverMisses(env, events, now, sel, requests);
    assert s'.outbox[|s.outbox|..] == RetryWants(s.peers, requests);
    forall k | 0 <= k < |requests| ensures OfferOf(env, events, requests[k].1, requests[k].0).Some? {
      SelectedIsMapped(env, events, now, sel, requests[k].0);
      MappingsAreTheOffers(env, events, requests[k].1, requests[k].0);
    }
    forall i | 0 <= i < |requests|
      ensures RetryWants(s.peers, requests)[i] ==
              SentWant(requests[i].1, OfferOf(env, events, requests[i].1, requests[i].0).value, requests[i].0)
    {
      RetryWantAt(env, events, requests, i);
    }
  }

  // --- the pending store of a run -----------------------------------------------------------

  /** What an event means for the pending store. */
  function StoreEvents(env: Env, s: Context, e: Event): seq<RetryDiscipline.Event> {
    match e
    case RecvAdvr(sender, _, d, now) =>
      if Stored(s.db, d) then []
      else
        (if d in s.db then [] else [RetryDiscipline.FirstRequest(sender, LocalId(s, d), now)]) +
        [RetryDiscipline.NodeAdvertised(sender, LocalId(s, d))]
    case RecvMessage(sender, m, keys, average) =>
      var d := DigestOf(env, e);
      if Verified(env, s.db, m, keys) && InHand(s, d).None?
      then [RetryDiscipline.MessageArrived(sender, LocalId(s, d), average)] else []
    case CleanUp(d) => if d in s.db then [RetryDiscipline.MessageRemoved(LocalId(s, d))] else []
    case Propagate(d, _) =>
      if d in s.db && (Stored(s.db, d) || (InHand(s, d).Some? && InHand(s, d).value != []))
      then [RetryDiscipline.MessageRemoved(LocalId(s, d))] else []
    case Tick(now, sel, _) => [RetryDiscipline.TickRound(now, sel)]
    case _ => []
  }

  ghost function StoreEventsOf(env: Env, events: seq<Event>): seq<RetryDiscipline.Event> {
    if events == [] then []
    else
      var n := |events| - 1;
      var s := Run(env, events[..n]);
      StoreEventsOf(env, events[..n]) + if Enabled(s, events[n]) then StoreEvents(env, s, events[n]) else []
  }

  function StepAll(store: Store, events: seq<RetryDiscipline.Event>): Store {
    if events == [] then store
    else RetryDiscipline.Step(StepAll(store, events[..|events| - 1]), events[|events| - 1])
  }

  lemma StepAllFew(store: Store, a: RetryDiscipline.Event, b: RetryDiscipline.Event)
    ensures StepAll(store, [b]) == RetryDiscipline.Step(store, b)
    ensures StepAll(store, [a] + [b]) == RetryDiscipline.Step(RetryDiscipline.Step(store, a), b)
  {
    hide RetryDiscipline.Step;
    assert [a][..0] == [] && [b][..0] == [] && ([a] + [b])[..1] == [a];
    assert StepAll(store, [a]) == RetryDiscipline.Step(store, a);
  }

  lemma AdvrOnStore(env: Env, s: Context, e: Event)
    requires Ready(s) && e.RecvAdvr?
    ensures Step(env, s, e).pending == StepAll(s.pending, StoreEvents(env, s, e))
  {
    hide Holds, Insert, InsertPending, InsertRequest, StepAll;
    NextId(s.interner, s.history.inserted);
    var id := LocalId(s, e.digest);
    var offered := RetryDiscipline.NodeAdvertised(e.sender, id);
    StepAllFew(s.pending, RetryDiscipline.FirstRequest(e.sender, id, e.now), offered);
    StepAllNone(s.pending);
    assert [] + [offered] == [offered];
  }

  lemma StepAllNone(store: Store)
    ensures StepAll(store, []) == store
  {
  }

  lemma StepOnStore(env: Env, s: Context, e: Event)
    requires Ready(s)
    ensures Step(env, s, e).pending == StepAll(s.pending, StoreEvents(env, s, e))
  {
    hide Holds, Insert, Get, HandleAdvr, InsertPending, InsertRequest, RemoveMessage, ReceivedMessage, ApplyTick,
      RetryWants, ToShared;
    if e.RecvAdvr? {
      AdvrOnStore(env, s, e);
    }
  }

  lemma {:induction false} StoreAfterMore(past: seq<RetryDiscipline.Event>, more: seq<RetryDiscipline.Event>)
    ensures RetryDiscipline.StoreAfter(past + more) == StepAll(RetryDiscipline.StoreAfter(past), more)
    decreases |more|
  {
    hide RetryDiscipline.Step;
    if more == [] {
      assert past + more == past;
    } else {
      StoreAfterMore(past, more[..|more| - 1]);
      assert (past + more)[..|past + more| - 1] == past + more[..|more| - 1];
    }
  }

  /** The loop drives its pending store through a run of the retry discipline: so in every run of the loop
      requests wait for the timeout, rotate among the peers that offer the message, and stop with a
      clean-up or a propagation, as RetryDiscipline states it for the events listed here. */
  lemma {:induction false} StoreFollowsTheRun(env: Env, events: seq<Event>)
    ensures Run(env, events).pending == RetryDiscipline.StoreAfter(StoreEventsOf(env, events))
    ensures RetryDiscipline.IsRun(StoreEventsOf(env, events))
  {
    hide Step, Ready, RetryDiscipline.Step, StoreEvents, Lists, IsSelection;
    if events == [] {
    } else {
      var n := |events| - 1;
      var s, e, past := Run(env, events[..n]), events[n], StoreEventsOf(env, events[..n]);
      StoreFollowsTheRun(env, events[..n]);
      if Enabled(s, e) {
        StepOnStore(env, s, e);
        StoreAfterMore(past, StoreEvents(env, s, e));
        MoreIsRun(env, s, e, past);
      } else {
        assert past + [] == past;
      }
    }
  }

  lemma MoreIsRun(env: Env, s: Context, e: Event, past: seq<RetryDiscipline.Event>)
    requires Enabled(s, e) && RetryDiscipline.IsRun(past) && s.pending == RetryDiscipline.StoreAfter(past)
    ensures RetryDiscipline.IsRun(past + StoreEvents(env, s, e))
  {
    hide RetryDiscipline.StoreAfter, IsSelection, Lists;
    var more := StoreEvents(env, s, e);
    var all := past + more;
    forall k | 0 <= k < |all| && all[k].TickRound?
      ensures IsSelection(RetryDiscipline.StoreAfter(all[..k]), all[k].now, all[k].sel)
    {
      if k < |past| {
        assert all[..k] == past[..k];
      } else {
        assert all[k] == more[k - |past|];
        assert all[..k] == past;
      }
    }
  }

  // --- a rejected digest --------------------------------------------------------------------

  lemma CopiesAppend(env: Env, events: seq<Event>, e: Event, d: Digest)
    ensures CopiesOf(env, events + [e], d) == CopiesAfter(env, Run(env, events).db, CopiesOf(env, events, d), d, e)
  {
    assert (events + [e])[..|events|] == events;
  }

  /** A verdict of the subscribers on the digest. */
  predicate IsVerdict(e: Event, d: Digest) {
    match e
    case CleanUp(x) => x == d
    case Propagate(x, _) => x == d
    case MarkInvalidSender(x) => x == d
    case _ => false
  }

  /** While a digest is being processed, no copy of it is published before the subscribers' next verdict. */
  lemma {:induction false} ProcessedDigestAwaitsVerdict(env: Env, events: seq<Event>, more: seq<Event>, d: Digest)
    requires CopiesOf(env, events, d).Some?
    requires forall i :: 0 <= i < |more| ==> !IsVerdict(more[i], d)
    ensures CopiesOf(env, events + more, d).Some?
    ensures Count(Run(env, events + more).published, d) == Count(Run(env, events).published, d)
    decreases |more|
  {
    hide Run, CopiesOf, Verified, Count;
    if more == [] {
      assert events + more == events;
    } else {
      var n := |more| - 1;
      var past, e := events + more[..n], more[n];
      ProcessedDigestAwaitsVerdict(env, events, more[..n], d);
      assert events + more == past + [e];
      CopiesAppend(env, past, e, d);
      PublishesExactly(env, past, e);
      OtherDigestsCount(Run(env, past).published, Run(env, past + [e]).published, d, e, env);
    }
  }

  lemma OtherDigestsCount(published: seq<Shared>, published': seq<Shared>, d: Digest, e: Event, env: Env)
    requires published' == published ||
             (|published'| == |published| + 1 && published <= published' && DigestOf(env, e) != d
              && published'[|published|].digest == DigestOf(env, e))
    ensures Count(published', d) == Count(published, d)
  {
    if published' != published {
      assert published'[..|published|] == published;
    }
  }

  /** A second copy that comes after the first one was marked invalid is not delivered: the emptied queue
      holds it back, although it waits behind nothing. Had it come before the mark, it would have been
      published by it. */
  lemma CopyAfterRejectionIsHeldBack(env: Env, first: Message, second: Message, keys: Directory, a: NodeIndex,
                                     b: NodeIndex, now: nat, average: real)
    requires env.hash(first.topic, first.payload) == env.hash(second.topic, second.payload)
    requires forall m :: m in {first, second} ==>
               m.origin in keys && env.verify(keys[m.origin], m.signature, env.hash(m.topic, m.payload))
    ensures var d := env.hash(first.topic, first.payload);
            var advr, copy1, copy2, mark := RecvAdvr(a, 0, d, now), RecvMessage(a, first, keys, average),
                                            RecvMessage(b, second, keys, average), MarkInvalidSender(d);
            && |Run(env, [advr] + [copy1] + [mark] + [copy2]).published| == 1
            && CopiesOf(env, [advr] + [copy1] + [mark] + [copy2], d) == Some([Received(second, b)])
            && |Run(env, [advr] + [copy1] + [copy2] + [mark]).published| == 2
  {
    hide Run, CopiesOf, Delivers;
    var d := env.hash(first.topic, first.payload);
    var advr, copy1, copy2, mark := RecvAdvr(a, 0, d, now), RecvMessage(a, first, keys, average),
                                    RecvMessage(b, second, keys, average), MarkInvalidSender(d);
    NothingYet(env, d);
    assert [] + [advr] == [advr];
    FirstAdvertisementIsAnswered(env, [], a, 0, d, now);
    Follow(env, [], advr, d);
    Follow(env, [advr], copy1, d);
    Follow(env, [advr] + [copy1], mark, d);
    var queue := [] + [Received(first, a)];
    assert CopiesOf(env, [advr] + [copy1], d) == Some(queue) && queue[1..] == [];
    assert [] + [Received(second, b)] == [Received(second, b)];
    Follow(env, [advr] + [copy1] + [mark], copy2, d);
    Follow(env, [advr] + [copy1], copy2, d);
    Follow(env, [advr] + [copy1] + [copy2], mark, d);
  }

  lemma NothingYet(env: Env, d: Digest)
    ensures Run(env, []) == INITIAL && CopiesOf(env, [], d) == None
  {
  }

  /** One more event about the digest. */
  lemma Follow(env: Env, events: seq<Event>, e: Event, d: Digest)
    requires DigestOf(env, e) == d && (e.RecvAdvr? || e.RecvMessage? || e.MarkInvalidSender?)
    ensures var s, s', copies := Run(env, events), Run(env, events + [e]), CopiesOf(env, events, d);
            && CopiesOf(env, events + [e], d) == CopiesAfter(env, s.db, copies, d, e)
            && (!e.RecvAdvr? ==> s'.db == s.db)
            && |s'.published| == |s.published| + (if DueDelivery(env, s.db, copies, e).Some? then 1 else 0)
  {
    hide Run, CopiesOf, Delivers, CopiesAfter, DueDelivery;
    CopiesAppend(env, events, e, d);
    PublishesExactly(env, events, e);
    if !e.RecvAdvr? {
      DatabaseChangesOnlySo(env, events, e);
    }
  }

  // --- what the bounds count ----------------------------------------------------------------

  function Occurrences(events: seq<Event>, e: Event): nat {
    if events == [] then 0
    else Occurrences(events[..|events| - 1], e) + if events[|events| - 1] == e then 1 else 0
  }

  predicate WasEvicted(events: seq<Event>, d: Digest) {
    exists i :: 0 <= i < |events| && events[i].Evict? && d in events[i].digests
  }

  /** The three counts are kept. */
  ghost predicate SameCounts(h: History, h': History) {
    h'.cleanUps == h.cleanUps && h'.invalidMarks == h.invalidMarks && h'.evicted == h.evicted
  }

  lemma AdvrCounts(s: Context, sender: NodeIndex, remote: Id, x: Digest, now: nat)
    requires Ready(s)
    ensures SameCounts(s.history, HandleAdvr(s, sender, remote, x, now).history)
  {
    hide Holds, Insert, InsertPending, InsertRequest;
  }

  lemma SendCounts(env: Env, s: Context, own: Message, filter: Option<set<NodeIndex>>)
    requires Ready(s)
    ensures SameCounts(s.history, HandleSend(env, s, own, filter).history)
  {
    hide Holds, Insert, Get, ToDigest;
  }

  lemma PropagateCounts(s: Context, x: Digest, filter: Option<set<NodeIndex>>)
    ensures SameCounts(s.history, HandlePropagate(s, x, filter).history)
  {
    hide RemoveMessage;
  }

  lemma StepCounts(env: Env, s: Context, e: Event, d: Digest)
    requires Ready(s)
    ensures var h, h' := s.history, Step(env, s, e).history;
            && h'.cleanUps[d] == h.cleanUps[d] + (if e == CleanUp(d) then 1 else 0)
            && h'.invalidMarks[d] == h.invalidMarks[d] + (if e == MarkInvalidSender(d) then 1 else 0)
            && (d in h'.evicted <==> d in h.evicted || (e.Evict? && d in e.digests))
  {
    hide Holds, Insert, Get, InsertPending, InsertRequest, RemoveMessage, ReceivedMessage, ApplyTick, RetryWants,
      ToShared, ToDigest, HandleAdvr, HandleSend, HandlePropagate;
    match e
    case RecvAdvr(sender, remote, x, now) => AdvrCounts(s, sender, remote, x, now);
    case Send(own, filter) => SendCounts(env, s, own, filter);
    case Propagate(x, filter) => PropagateCounts(s, x, filter);
    case _ =>
  }

  /** The clean-ups, invalid marks and evictions that the history counts are those of the events. */
  lemma {:induction false} HistoryCountsTheEvents(env: Env, events: seq<Event>, d: Digest)
    ensures Run(env, events).history.cleanUps[d] == Occurrences(events, CleanUp(d))
    ensures Run(env, events).history.invalidMarks[d] == Occurrences(events, MarkInvalidSender(d))
    ensures d in Run(env, events).history.evicted <==> WasEvicted(events, d)
  {
    hide Step, Ready, IsSelection, Lists;
    if events == [] {
    } else {
      var n := |events| - 1;
      HistoryCountsTheEvents(env, events[..n], d);
      StepCounts(env, Run(env, events[..n]), events[n], d);
    }
  }

  /** Bounded local delivery, counted in events: a digest the cache never evicts is published at most once,
      plus once for every clean-up and every invalid mark of it. */
  lemma DeliveriesAreBounded(env: Env, events: seq<Event>, d: Digest)
    requires !WasEvicted(events, d)
    ensures Count(Run(env, events).published, d) <=
            1 + Occurrences(events, CleanUp(d)) + Occurrences(events, MarkInvalidSender(d))
  {
    hide Run, Count, Occurrences, WasEvicted;
    HistoryCountsTheEvents(env, events, d);
    BoundedLocalDelivery(env, events, d);
  }
}
