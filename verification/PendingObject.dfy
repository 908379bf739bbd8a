/** The pending store as an object that knows which run it is in: what it holds is what the run's
    events say, and its ticks ask for exactly what they should. */
module PendingObject {
  import opened Interner
  import opened PendingStore
  import RetryDiscipline

  type Event = RetryDiscipline.Event

  class PendingRequests {
    var pendingMap: map<Id, set<NodeIndex>>
    var requestMap: map<Id, seq<Request>>
    var rttMap: map<NodeIndex, real>
    ghost var events: seq<Event>

    ghost function View(): Store
      reads this
    {
      Store(pendingMap, requestMap, rttMap)
    }

    ghost predicate Valid()
      reads this
    {
      RetryDiscipline.IsRun(events) && View() == RetryDiscipline.StoreAfter(events)
    }

    constructor ()
      ensures Valid() && events == [] && View() == EMPTY_STORE
    {
      pendingMap, requestMap, rttMap, events := map[], map[], map[], [];
    }

    /** Adds an event whose effect on the maps is done. */
    ghost method Record(e: Event, before: Store)
      requires RetryDiscipline.IsRun(events) && before == RetryDiscipline.StoreAfter(events)
      requires View() == RetryDiscipline.Step(before, e)
      requires e.TickRound? ==> IsSelection(before, e.now, e.sel)
      modifies this`events
      ensures Valid() && events == old(events) + [e]
    {
      ExtendRun(events, e);
      events := events + [e];
    }

    /** Whoever offers the message is now among the peers that may be asked for it. */
    method AddPending(node: NodeIndex, id: Id)
      requires Valid()
      modifies this`pendingMap, this`events
      ensures Valid() && events == old(events) + [RetryDiscipline.NodeAdvertised(node, id)]
      ensures View() == InsertPending(old(View()), node, id)
    {
      ghost var before := View();
      var nodes := if id in pendingMap then pendingMap[id] else {};
      pendingMap := pendingMap[id := nodes + {node}];
      Record(RetryDiscipline.NodeAdvertised(node, id), before);
    }

    method PushRequestFor(node: NodeIndex, id: Id, now: nat)
      modifies this`requestMap
      ensures View() == InsertRequest(old(View()), node, id, now)
    {
      var requests := if id in requestMap then requestMap[id] else [];
      if |requests| >= BUFFER_SIZE {
        requests := requests[1..];
      }
      requestMap := requestMap[id := requests + [Request(node, now)]];
    }

    method AddRequest(node: NodeIndex, id: Id, now: nat)
      requires Valid()
      modifies this`requestMap, this`events
      ensures Valid() && events == old(events) + [RetryDiscipline.FirstRequest(node, id, now)]
      ensures View() == InsertRequest(old(View()), node, id, now)
    {
      hide InsertRequest;
      ghost var before := View();
      PushRequestFor(node, id, now);
      Record(RetryDiscipline.FirstRequest(node, id, now), before);
    }

    method Remove(id: Id)
      requires Valid()
      modifies this`pendingMap, this`requestMap, this`events
      ensures Valid() && events == old(events) + [RetryDiscipline.MessageRemoved(id)]
      ensures View() == RemoveMessage(old(View()), id)
    {
      ghost var before := View();
      pendingMap := pendingMap - {id};
      requestMap := requestMap - {id};
      Record(RetryDiscipline.MessageRemoved(id), before);
    }

    method MessageReceived(node: NodeIndex, id: Id, average: real)
      requires Valid()
      modifies this`rttMap, this`events
      ensures Valid() && events == old(events) + [RetryDiscipline.MessageArrived(node, id, average)]
      ensures View() == ReceivedMessage(old(View()), node, id, average)
    {
      ghost var before := View();
      if id in requestMap && WasAsked(requestMap[id], node) {
        rttMap := rttMap[node := average];
      }
      Record(RetryDiscipline.MessageArrived(node, id, average), before);
    }

    method AskPeer(id: Id, node: NodeIndex, now: nat)
      modifies this`pendingMap, this`requestMap
      ensures View() == Ask(old(View()), id, node, now)
    {
      PushRequestFor(node, id, now);
      var nodes := if id in pendingMap then pendingMap[id] else {};
      pendingMap := pendingMap[id := nodes - {node}];
    }

    /** Marks the selected messages as requested and takes the receivers off the pending map. */
    method RecordRequests(now: nat, sel: map<Id, NodeIndex>)
      modifies this`pendingMap, this`requestMap
      ensures View() == ApplyTick(old(View()), now, sel)
    {
      hide ApplyTick, Ask;
      ghost var start := View();
      var todo := sel.Keys;
      ghost var done: map<Id, NodeIndex> := map[];
      ApplyNothing(start, now);
      while todo != {}
        invariant todo == sel.Keys - done.Keys && Agrees(done, sel)
        invariant View() == ApplyTick(start, now, done)
        decreases |todo|
      {
        var id :| id in todo;
        ApplyOneMore(start, now, done, id, sel[id]);
        AskPeer(id, sel[id], now);
        todo, done := todo - {id}, done[id := sel[id]];
      }
      AgreesOnAll(done, sel);
    }

    /** One round of the tick loop. It asks for exactly the messages somebody offers whose last request
        has timed out, each from a peer that offers it, as the events so far say. */
    method TickOnce(now: nat) returns (sel: map<Id, NodeIndex>)
      requires Valid()
      modifies this`pendingMap, this`requestMap, this`events
      ensures Valid() && events == old(events) + [RetryDiscipline.TickRound(now, sel)]
      ensures IsSelection(old(View()), now, sel) && View() == ApplyTick(old(View()), now, sel)
      ensures forall id: Id :: id in sel <==> RetryDiscipline.ShouldAsk(old(events), id, now)
      ensures forall id: Id :: id in sel ==> sel[id] in RetryDiscipline.OffersOf(old(events), id)
    {
      hide IsSelection, ApplyTick, RetryDiscipline.ShouldAsk, RetryDiscipline.OffersOf, RetryDiscipline.IsRun,
        RetryDiscipline.StoreAfter;
      ghost var before, k := View(), |events|;
      sel := SelectReceivers(now);
      RecordRequests(now, sel);
      Record(RetryDiscipline.TickRound(now, sel), before);
      assert events[..k] == old(events);
      forall id: Id
        ensures id in sel <==> RetryDiscipline.ShouldAsk(old(events), id, now)
        ensures id in sel ==> sel[id] in RetryDiscipline.OffersOf(old(events), id)
      {
        RetryDiscipline.TicksAskExactly(events, k, id);
      }
    }

    method SelectReceivers(now: nat) returns (sel: map<Id, NodeIndex>)
      ensures IsSelection(View(), now, sel)
    {
      sel := map[];
      var todo := pendingMap.Keys;
      while todo != {}
        invariant todo <= pendingMap.Keys
        invariant forall id: Id :: id in sel <==> id !in todo && Due(View(), id, now) && PeersFor(View(), id) != {}
        invariant forall id: Id :: id in sel ==> sel[id] in Candidates(View(), id)
        decreases |todo|
      {
        var id :| id in todo;
        todo := todo - {id};
        if pendingMap[id] != {} {
          var requests := if id in requestMap then requestMap[id] else [];
          var due := requests == [] || (
            var last := requests[|requests| - 1];
            Elapsed(last.timestamp, now) >=
            if last.node in rttMap then (rttMap[last.node] * 2.0).Floor else DEFAULT_REQUEST_TIMEOUT);
          if due {
            var keys := pendingMap[id];
            if |keys| > 1 && requests != [] {
              keys := keys - {requests[|requests| - 1].node};
            }
            assert keys == Candidates(View(), id);
            var peer :| peer in keys;
            sel := sel[id := peer];
          }
        }
      }
    }
  }

  ghost predicate Agrees(part: map<Id, NodeIndex>, sel: map<Id, NodeIndex>) {
    forall id :: id in part ==> id in sel && part[id] == sel[id]
  }

  lemma AgreesOnAll(done: map<Id, NodeIndex>, sel: map<Id, NodeIndex>)
    requires Agrees(done, sel) && sel.Keys - done.Keys == {}
    ensures done == sel
  {
    forall id: Id | id in sel ensures id in done {
      assert id !in sel.Keys - done.Keys;
    }
  }

  lemma ExtendRun(events: seq<Event>, e: Event)
    requires RetryDiscipline.IsRun(events)
    requires e.TickRound? ==> IsSelection(RetryDiscipline.StoreAfter(events), e.now, e.sel)
    ensures RetryDiscipline.IsRun(events + [e])
    ensures RetryDiscipline.StoreAfter(events + [e]) == RetryDiscipline.Step(RetryDiscipline.StoreAfter(events), e)
  {
    hide IsSelection, RetryDiscipline.Step;
    var more := events + [e];
    assert more[..|events|] == events;
    forall k | 0 <= k < |more| && more[k].TickRound?
      ensures IsSelection(RetryDiscipline.StoreAfter(more[..k]), more[k].now, more[k].sel)
    {
      assert more[..k] == events[..k];
    }
  }
}
