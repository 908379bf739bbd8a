/** The gossip event loop as an object over its interner and pending store. It knows which run it is
    in: every handler is one event of that run, so the guarantees of the runs are guarantees of the
    object. */
module BroadcastObject {
  import opened Common
  import opened Interner
  import opened PendingStore
  import opened BroadcastContext
  import opened BroadcastDelivery
  import opened BroadcastProgress
  import BroadcastGuarantees
  import PendingObject
  import RetryDiscipline

  class Gossip {
    const env: Env
    const interner: DigestInterner
    const pendingStore: PendingObject.PendingRequests
    var db: Database
    var peers: map<NodeIndex, map<Id, Id>>
    var processing: map<Digest, seq<Received>>
    ghost var outbox: seq<Out>
    ghost var published: seq<Shared>
    ghost var history: History
    ghost var events: seq<Event>

    ghost function View(): Context
      reads this, interner, pendingStore
    {
      Context(db, Table(interner.next, interner.data), peers, pendingStore.View(), processing, outbox, published, history)
    }

    /** The parts fit together. */
    ghost predicate Linked()
      reads this, interner, pendingStore
    {
      interner.Valid() && pendingStore.Valid() && history.inserted == interner.inserted && Ready(View())
    }

    /** The state is that of the run so far. */
    ghost predicate Valid()
      reads this, interner, pendingStore
    {
      Linked() && View() == Run(env, events)
    }

    constructor (env: Env)
      ensures this.env == env && events == [] && Valid() && fresh(interner) && fresh(pendingStore)
    {
      this.env := env;
      interner := new DigestInterner();
      pendingStore := new PendingObject.PendingRequests();
      db, peers, processing := map[], map[], map[];
      outbox, published, events := [], [], [];
      history := History([], {}, {}, multiset{}, multiset{}, {}, {});
      new;
      assert interner.data == [];
    }

    /** Adds an event whose effect is done. */
    ghost method Record(e: Event, before: Context)
      requires Linked() && before == Run(env, events) && Enabled(before, e) && View() == Step(env, before, e)
      modifies this`events
      ensures Valid() && events == old(events) + [e]
    {
      hide Step, Ready, Enabled;
      RunAppend(env, events, e);
      events := events + [e];
    }

    method InternDigest(d: Digest) returns (id: Id)
      requires Linked()
      modifies interner, this`history
      ensures interner.Valid() && pendingStore.Valid() && history.inserted == interner.inserted
      ensures id == old(View()).interner.next && View() == Intern(old(View()), d)
    {
      id := interner.InsertDigest(d);
      history := history.(inserted := history.inserted + [d]);
    }

    /** Only the first advertisement of a digest is answered, with a want to the peer that sent it. */
    method HandleAdvertisement(sender: NodeIndex, remote: Id, d: Digest, now: nat)
      requires Valid()
      modifies this, interner, pendingStore
      ensures Valid() && events == old(events) + [RecvAdvr(sender, remote, d, now)]
      ensures d in old(db) ==> db == old(db) && outbox == old(outbox)
      ensures d !in old(db) ==>
                var id := IdOf(|old(history).inserted|);
                db == old(db)[d := Entry(Some(id), None)] && outbox == old(outbox) + [SentWant(sender, remote, id)]
      ensures !Stored(old(db), d) ==> sender in peers && db[d].id.Some? && db[d].id.value in peers[sender]
                                      && peers[sender][db[d].id.value] == remote
    {
      hide Run;
      ghost var before := View();
      FirstAdvertisementIsAnswered(env, events, sender, remote, d, now);
      RunAppend(env, events, RecvAdvr(sender, remote, d, now));
      StepOnMapping(env, before, RecvAdvr(sender, remote, d, now), sender, LocalId(before, d));
      ApplyAdvertisement(sender, remote, d, now);
      Record(RecvAdvr(sender, remote, d, now), before);
    }

    method ApplyAdvertisement(sender: NodeIndex, remote: Id, d: Digest, now: nat)
      requires Linked()
      modifies this`db, this`peers, this`outbox, this`history, interner, pendingStore
      ensures View() == HandleAdvr(old(View()), sender, remote, d, now)
      ensures Linked()
    {
      hide Holds, Insert, InsertPending, InsertRequest, RetryDiscipline.IsRun, RetryDiscipline.StoreAfter, Learn;
      StepReady(env, View(), RecvAdvr(sender, remote, d, now));
      history := history.(advrs := history.advrs + {Advr(sender, remote, d)});
      if d in db && db[d].message.Some? {
        return;
      }
      var id;
      if d in db {
        id := db[d].id.value;
      } else {
        id := InternDigest(d);
        db := InsertId(db, id, d);
        outbox := outbox + [SentWant(sender, remote, id)];
        pendingStore.AddRequest(sender, id, now);
      }
      LearnMapping(sender, remote, id);
    }

    method LearnMapping(sender: NodeIndex, remote: Id, id: Id)
      requires pendingStore.Valid()
      modifies this`peers, pendingStore
      ensures View() == Learn(old(View()), sender, remote, id)
      ensures pendingStore.Valid()
    {
      hide InsertPending, RetryDiscipline.IsRun, RetryDiscipline.StoreAfter;
      var mapping := if sender in peers then peers[sender] else map[];
      peers := peers[sender := mapping[id := remote]];
      pendingStore.AddPending(sender, id);
    }

    /** A want for the id a recently interned digest got is answered with a message of that digest, if
        one is stored. */
    method HandleWantRequest(sender: NodeIndex, id: Id)
      requires Valid()
      modifies this`outbox, this`events
      ensures Valid() && events == old(events) + [RecvWant(sender, id)]
      ensures forall k: nat :: Recent(history.inserted, k) && IdOf(k) == id && GetMessage(db, history.inserted[k]).Some? ==>
                exists m :: ToDigest(env, m) == history.inserted[k] && outbox == old(outbox) + [SentMessage(sender, id, m)]
    {
      hide Run, Holds;
      ghost var before := View();
      forall k: nat | Recent(history.inserted, k) && IdOf(k) == id && GetMessage(db, history.inserted[k]).Some?
        ensures ToDigest(env, GetMessage(db, history.inserted[k]).value) == history.inserted[k]
        ensures HandleWant(before, sender, id).outbox ==
                outbox + [SentMessage(sender, id, GetMessage(db, history.inserted[k]).value)]
      {
        BroadcastGuarantees.IncomingWantsAnsweredRight(env, events, sender, k);
      }
      ApplyWant(sender, id);
      Record(RecvWant(sender, id), before);
    }

    method ApplyWant(sender: NodeIndex, id: Id)
      requires Linked()
      modifies this`outbox
      ensures View() == HandleWant(old(View()), sender, id)
      ensures Linked()
    {
      hide Holds;
      var d := interner.Lookup(id);
      if d.None? {
        return;
      }
      if d.value !in db || db[d.value].message.None? {
        return;
      }
      outbox := outbox + [SentMessage(sender, id, db[d.value].message.value)];
    }

    /** A message is published if and only if its digest is awaited and not being processed and the key of
        its own origin verifies its signature. */
    method HandleIncomingMessage(sender: NodeIndex, m: Message, keys: Directory, average: real)
      requires Valid()
      modifies this, pendingStore
      ensures Valid() && events == old(events) + [RecvMessage(sender, m, keys, average)]
      ensures var d := env.hash(m.topic, m.payload);
              if d in old(db) && old(db)[d].id.Some? && old(db)[d].message.None? && d !in old(processing)
                 && m.origin in keys && env.verify(keys[m.origin], m.signature, d)
              then
                && |published| == |old(published)| + 1 && old(published) <= published
                && Delivers(published[|old(published)|], d, m)
              else published == old(published)
    {
      hide Run, Holds, ReceivedMessage, ToDigest, ToShared, Delivers, CopiesOf;
      ghost var before := View();
      RunAppend(env, events, RecvMessage(sender, m, keys, average));
      PublishesExactly(env, events, RecvMessage(sender, m, keys, average));
      ProcessingIsTheCopiesInHand(env, events, env.hash(m.topic, m.payload));
      ApplyMessage(sender, m, keys, average);
      Record(RecvMessage(sender, m, keys, average), before);
    }

    method ApplyMessage(sender: NodeIndex, m: Message, keys: Directory, average: real)
      requires Linked()
      modifies this`processing, this`published, this`history, pendingStore
      ensures View() == HandleMessage(env, old(View()), sender, m, keys, average)
      ensures Linked()
    {
      hide Holds, ReceivedMessage, ToDigest, ToShared, RetryDiscipline.IsRun, RetryDiscipline.StoreAfter;
      var d := ToDigest(env, m);
      if d in db && db[d].message.Some? {
        return;
      }
      if m.origin !in keys {
        return;
      }
      if d !in db || db[d].id.None? {
        return;
      }
      if !env.verify(keys[m.origin], m.signature, d) {
        return;
      }
      history := history.(accepted := history.accepted + {(m, keys)});
      if d in processing {
        processing := processing[d := processing[d] + [Received(m, sender)]];
        return;
      }
      processing := processing[d := [Received(m, sender)]];
      published := published + [ToShared(d, m)];
      pendingStore.MessageReceived(sender, db[d].id.value, average);
    }

    method AdvertiseMessage(id: Id, d: Digest, filter: Option<set<NodeIndex>>)
      requires Linked()
      modifies this`outbox
      ensures View() == Advertise(old(View()), id, d, filter)
      ensures Linked()
    {
      hide Holds;
      ghost var recipients := if filter.Some? then Only(filter.value)
                              else AllBut(set p | p in peers && id in peers[p]);
      outbox := outbox + [Advertised(id, d, recipients)];
    }

    /** The message is stored and advertised, under an id by which the interner finds it. */
    method HandleSendCommand(own: Message, filter: Option<set<NodeIndex>>)
      requires Valid()
      modifies this, interner
      ensures Valid() && events == old(events) + [Send(own, filter)]
      ensures var d := env.hash(own.topic, own.payload);
              if Stored(old(db), d) then db == old(db) && outbox == old(outbox)
              else
                && d in db && db == old(db)[d := Entry(db[d].id, Some(own))] && db[d].id.Some?
                && Get(View().interner, db[d].id.value) == Some(d)
                && AdvertisedLast(env, old(events), old(outbox), View(), d, filter)
    {
      hide Run, Get, AdvertisedLast;
      ghost var before := View();
      RunAppend(env, events, Send(own, filter));
      OwnMessageIsAdvertised(env, events, own, filter);
      ApplySend(own, filter);
      Record(Send(own, filter), before);
    }

    method ApplySend(own: Message, filter: Option<set<NodeIndex>>)
      requires Linked()
      modifies this`db, this`outbox, this`history, interner
      ensures View() == HandleSend(env, old(View()), own, filter)
      ensures Linked()
    {
      hide Holds, Insert, ToDigest, Advertise, RetryDiscipline.IsRun, RetryDiscipline.StoreAfter;
      StepReady(env, View(), Send(own, filter));
      var d := ToDigest(env, own);
      if d in db && db[d].message.Some? {
        return;
      }
      var id;
      if d in db && db[d].id.Some? {
        id := db[d].id.value;
        var existing := interner.Lookup(id);
        if existing != Some(d) {
          id := InternDigest(d);
          db := UpdateId(db, id, d);
        }
      } else {
        id := InternDigest(d);
        db := InsertId(db, id, d);
      }
      db := InsertMessage(db, d, own);
      AdvertiseMessage(id, d, filter);
    }

    /** A digest with an id is no longer processed, and no longer asked for. */
    method HandleCleanUpCommand(d: Digest)
      requires Valid()
      modifies this, pendingStore
      ensures Valid() && events == old(events) + [CleanUp(d)]
      ensures db == old(db) && outbox == old(outbox) && published == old(published)
      ensures d in db ==> d !in processing && db[d].id.value !in pendingStore.View().pendingMap
    {
      hide Run, Holds, RetryDiscipline.IsRun, RetryDiscipline.StoreAfter;
      ghost var before := View();
      history := history.(cleanUps := history.cleanUps + multiset{d});
      if d in db && db[d].id.Some? {
        processing := processing - {d};
        pendingStore.Remove(db[d].id.value);
      }
      assert View() == HandleCleanUp(before, d);
      Record(CleanUp(d), before);
    }

    /** The oldest copy in hand is stored, unless a message already is, and advertised. */
    method HandlePropagateCommand(d: Digest, filter: Option<set<NodeIndex>>)
      requires Valid()
      modifies this, pendingStore
      ensures Valid() && events == old(events) + [Propagate(d, filter)]
      ensures if Stored(old(db), d) then db == old(db) && AdvertisedLast(env, old(events), old(outbox), View(), d, filter)
              else if d in old(db) && d in old(processing) && old(processing)[d] != [] then
                && db == old(db)[d := old(db)[d].(message := Some(old(processing)[d][0].message))]
                && AdvertisedLast(env, old(events), old(outbox), View(), d, filter)
              else db == old(db) && outbox == old(outbox)
    {
      hide Run, AdvertisedLast, CopiesOf;
      ghost var before := View();
      RunAppend(env, events, Propagate(d, filter));
      PropagatedMessageIsAdvertised(env, events, d, filter);
      ProcessingIsTheCopiesInHand(env, events, d);
      ApplyPropagate(d, filter);
      Record(Propagate(d, filter), before);
    }

    method ApplyPropagate(d: Digest, filter: Option<set<NodeIndex>>)
      requires Linked()
      modifies this`db, this`processing, this`outbox, this`history, pendingStore
      ensures View() == HandlePropagate(old(View()), d, filter)
      ensures Linked()
    {
      hide Holds, RemoveMessage, Advertise, RetryDiscipline.IsRun, RetryDiscipline.StoreAfter;
      if d !in db || db[d].id.None? {
        return;
      }
      var id := db[d].id.value;
      if db[d].message.None? {
        if d !in processing {
          return;
        }
        var q := processing[d];
        processing := processing - {d};
        if q == [] {
          return;
        }
        db := InsertMessage(db, d, q[0].message);
      }
      pendingStore.Remove(id);
      history := history.(propagated := history.propagated + {d});
      AdvertiseMessage(id, d, filter);
    }

    /** The copy behind the one marked invalid is published, if there is one. */
    method HandleMarkInvalidCommand(d: Digest)
      requires Valid()
      modifies this
      ensures Valid() && events == old(events) + [MarkInvalidSender(d)]
      ensures if d in old(processing) && |old(processing)[d]| >= 2
              then
                && |published| == |old(published)| + 1 && old(published) <= published
                && Delivers(published[|old(published)|], d, old(processing)[d][1].message)
              else published == old(published)
    {
      hide Run, Holds, ToShared, Delivers, CopiesOf;
      ghost var before := View();
      RunAppend(env, events, MarkInvalidSender(d));
      PublishesExactly(env, events, MarkInvalidSender(d));
      ProcessingIsTheCopiesInHand(env, events, d);
      history := history.(invalidMarks := history.invalidMarks + multiset{d});
      if d in processing {
        var q := processing[d];
        if q != [] {
          q := q[1..];
        }
        processing := processing[d := q];
        if q != [] {
          published := published + [ToShared(d, q[0].message)];
        }
      }
      assert View() == HandleMarkInvalid(before, d);
      Record(MarkInvalidSender(d), before);
    }

    /** The cache drops entries on its own. */
    method EvictFromCache(digests: set<Digest>)
      requires Valid()
      modifies this`db, this`history, this`events
      ensures Valid() && events == old(events) + [Evict(digests)]
    {
      hide Run, Holds;
      ghost var before := View();
      db := db - digests;
      history := history.(evicted := history.evicted + digests);
      assert View() == HandleEvict(before, digests);
      Record(Evict(digests), before);
    }

    /** Sends a want for every selected id whose peer has a mapping for it, in any order. */
    method SendWants(sel: map<Id, NodeIndex>) returns (ghost requests: seq<(Id, NodeIndex)>)
      modifies this`outbox
      ensures Lists(requests, sel) && outbox == old(outbox) + RetryWants(peers, requests)
    {
      requests := [];
      var todo := sel.Keys;
      while todo != {}
        invariant todo <= sel.Keys
        invariant forall i :: 0 <= i < |requests| ==> requests[i].0 in sel && sel[requests[i].0] == requests[i].1
        invariant forall id :: id in sel && id !in todo ==> (id, sel[id]) in requests
        invariant outbox == old(outbox) + RetryWants(peers, requests)
        decreases |todo|
      {
        var id :| id in todo;
        todo := todo - {id};
        var node := sel[id];
        RetryWantsAppend(peers, requests, (id, node));
        if node in peers && id in peers[node] {
          outbox := outbox + [SentWant(node, peers[node][id], id)];
        }
        requests := requests + [(id, node)];
      }
    }

    /** A tick of the pending store, turned into wants: one to the peer selected for each id. */
    method HandlePendingTick(now: nat) returns (sel: map<Id, NodeIndex>, ghost requests: seq<(Id, NodeIndex)>)
      requires Valid()
      modifies this`outbox, this`events, pendingStore
      ensures Valid() && events == old(events) + [Tick(now, sel, requests)]
      ensures Lists(requests, sel) && |outbox| == |old(outbox)| + |requests|
      ensures forall i :: 0 <= i < |requests| ==>
                var w := outbox[|old(outbox)| + i]; w.SentWant? && w.to == requests[i].1 && w.local == requests[i].0
    {
      hide Run, Holds, IsSelection, ApplyTick, RetryWants, RetryDiscipline.IsRun, RetryDiscipline.StoreAfter;
      ghost var before := View();
      sel := pendingStore.TickOnce(now);
      requests := SendWants(sel);
      BroadcastGuarantees.RetryLookupNeverMisses(env, events, now, sel, requests);
      Record(Tick(now, sel, requests), before);
    }
  }

  lemma {:induction false} RetryWantsAppend(peers: map<NodeIndex, map<Id, Id>>, requests: seq<(Id, NodeIndex)>,
                                           r: (Id, NodeIndex))
    ensures RetryWants(peers, requests + [r]) == RetryWants(peers, requests) + RetryWants(peers, [r])
    decreases |requests|
  {
    if requests == [] {
      assert requests + [r] == [r];
    } else {
      assert (requests + [r])[1..] == requests[1..] + [r];
      RetryWantsAppend(peers, requests[1..], r);
    }
  }
}
