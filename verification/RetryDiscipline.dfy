/** What the pending store guarantees over every run of advertisements, requests and ticks. What a run
    has asked for and been offered is read off its events alone; the store is proved to remember
    exactly that. */
module RetryDiscipline {
  import opened Common
  import opened Interner
  import opened PendingStore

  datatype Event =
    | NodeAdvertised(node: NodeIndex, id: Id)
    | FirstRequest(node: NodeIndex, id: Id, now: nat)
    | TickRound(now: nat, sel: map<Id, NodeIndex>)
    | MessageArrived(node: NodeIndex, id: Id, average: real)
    | MessageRemoved(id: Id)

  function Step(s: Store, e: Event): Store {
    match e
    case NodeAdvertised(node, id) => InsertPending(s, node, id)
    case FirstRequest(node, id, now) => InsertRequest(s, node, id, now)
    case TickRound(now, sel) => ApplyTick(s, now, sel)
    case MessageArrived(node, id, average) => ReceivedMessage(s, node, id, average)
    case MessageRemoved(id) => RemoveMessage(s, id)
  }

  function StoreAfter(events: seq<Event>): Store {
    if events == [] then EMPTY_STORE else Step(StoreAfter(events[..|events| - 1]), events[|events| - 1])
  }

  /** A run: whatever happens, every tick selects as the store at that time lets it. */
  ghost predicate IsRun(events: seq<Event>) {
    forall k :: 0 <= k < |events| && events[k].TickRound? ==>
      IsSelection(StoreAfter(events[..k]), events[k].now, events[k].sel)
  }

  // --- the events themselves ------------------------------------------------------------------

  /** The request an event makes for an id. */
  function RequestOf(e: Event, id: Id): Option<Request> {
    match e
    case FirstRequest(node, other, now) => if other == id then Some(Request(node, now)) else None
    case TickRound(now, sel) => if id in sel then Some(Request(sel[id], now)) else None
    case _ => None
  }

  /** All requests for an id since it was last removed. */
  function AskedOf(events: seq<Event>, id: Id): seq<Request> {
    if events == [] then []
    else
      var asked, e := AskedOf(events[..|events| - 1], id), events[|events| - 1];
      if e == MessageRemoved(id) then []
      else if RequestOf(e, id).Some? then asked + [RequestOf(e, id).value]
      else asked
  }

  /** The peers that have offered an id since the last tick that asked them, or since its removal. */
  function OffersOf(events: seq<Event>, id: Id): set<NodeIndex> {
    if events == [] then {}
    else
      var offers := OffersOf(events[..|events| - 1], id);
      match events[|events| - 1]
      case NodeAdvertised(node, other) => if other == id then offers + {node} else offers
      case TickRound(_, sel) => if id in sel then offers - {sel[id]} else offers
      case MessageRemoved(other) => if other == id then {} else offers
      case _ => offers
  }

  /** The newest requests that are kept. */
  function Kept(asked: seq<Request>): seq<Request> {
    if |asked| <= BUFFER_SIZE then asked else asked[|asked| - BUFFER_SIZE..]
  }

  /** The averages: an arrival counts if its sender is among the requests kept for the id. */
  function AveragesOf(events: seq<Event>): map<NodeIndex, real> {
    if events == [] then map[]
    else
      var front, e := events[..|events| - 1], events[|events| - 1];
      var averages := AveragesOf(front);
      if e.MessageArrived? && WasAsked(Kept(AskedOf(front, e.id)), e.node) then averages[e.node := e.average]
      else averages
  }

  /** How long a peer is given: twice its average, or the default. */
  function TimeoutOf(events: seq<Event>, node: NodeIndex): int {
    var averages := AveragesOf(events);
    if node in averages then (averages[node] * 2.0).Floor else DEFAULT_REQUEST_TIMEOUT
  }

  function LastOf(asked: seq<Request>): Option<Request> {
    if asked == [] then None else Some(asked[|asked| - 1])
  }

  // --- the store remembers them ---------------------------------------------------------------

  ghost predicate Remembers(s: Store, events: seq<Event>) {
    && (forall id: Id :: RequestsFor(s, id) == Kept(AskedOf(events, id)))
    && (forall id: Id :: PeersFor(s, id) == OffersOf(events, id))
    && s.rtt == AveragesOf(events)
  }

  lemma KeptPush(asked: seq<Request>, r: Request)
    ensures PushRequest(Kept(asked), r) == Kept(asked + [r])
  {
  }

  /** What one event does to the stored requests of an id. */
  lemma StepOnRequests(s: Store, e: Event, id: Id)
    ensures RequestsFor(Step(s, e), id) ==
            if e == MessageRemoved(id) then []
            else if RequestOf(e, id).Some? then PushRequest(RequestsFor(s, id), RequestOf(e, id).value)
            else RequestsFor(s, id)
  {
    hide PushRequest, TickPending;
  }

  lemma StepRemembersRequests(s: Store, events: seq<Event>, id: Id)
    requires events != [] && RequestsFor(s, id) == Kept(AskedOf(events[..|events| - 1], id))
    ensures RequestsFor(Step(s, events[|events| - 1]), id) == Kept(AskedOf(events, id))
  {
    hide Kept, PushRequest, Step, RequestsFor;
    var asked, e := AskedOf(events[..|events| - 1], id), events[|events| - 1];
    StepOnRequests(s, e, id);
    if e == MessageRemoved(id) {
      NothingKept();
    } else if RequestOf(e, id).Some? {
      KeptPush(asked, RequestOf(e, id).value);
    }
  }

  lemma NothingKept()
    ensures Kept([]) == []
  {
  }

  lemma StepRemembersOffers(s: Store, events: seq<Event>, id: Id)
    requires events != [] && PeersFor(s, id) == OffersOf(events[..|events| - 1], id)
    ensures PeersFor(Step(s, events[|events| - 1]), id) == OffersOf(events, id)
  {
    hide PushRequest, TickRequests;
  }

  /** After any events the store holds the newest requests of each id, who offers it, and the
      averages. */
  lemma {:induction false} StoreRemembers(events: seq<Event>)
    ensures Remembers(StoreAfter(events), events)
    decreases |events|
  {
    hide Step;
    if events == [] {
    } else {
      var front, e := events[..|events| - 1], events[|events| - 1];
      var s := StoreAfter(front);
      StoreRemembers(front);
      forall id: Id
        ensures RequestsFor(StoreAfter(events), id) == Kept(AskedOf(events, id))
        ensures PeersFor(StoreAfter(events), id) == OffersOf(events, id)
      {
        StepRemembersRequests(s, events, id);
        StepRemembersOffers(s, events, id);
      }
      StepRemembersAverages(s, events);
    }
  }

  lemma StepRemembersAverages(s: Store, events: seq<Event>)
    requires events != [] && Remembers(s, events[..|events| - 1])
    ensures Step(s, events[|events| - 1]).rtt == AveragesOf(events)
  {
    hide OffersOf, PushRequest, Kept;
  }

  // --- guarantees -----------------------------------------------------------------------------

  /** Whether a tick at this point of the events asks for an id: somebody offers it, and the last
      request for it, if any, has timed out. */
  predicate ShouldAsk(events: seq<Event>, id: Id, now: nat) {
    && OffersOf(events, id) != {}
    && var last := LastOf(AskedOf(events, id));
       last.Some? ==> Elapsed(last.value.timestamp, now) >= TimeoutOf(events, last.value.node)
  }

  lemma LastIsKept(asked: seq<Request>)
    ensures Kept(asked) == [] <==> asked == []
    ensures asked != [] ==> Kept(asked)[|Kept(asked)| - 1] == asked[|asked| - 1]
  {
  }

  /** Every tick of every run asks for exactly the ids it should, each from a peer that offers it, and
      from the peer asked last only if nobody else does. */
  lemma TicksAskExactly(events: seq<Event>, k: nat, id: Id)
    requires IsRun(events) && k < |events| && events[k].TickRound?
    ensures var past, e := events[..k], events[k];
            && (id in e.sel <==> ShouldAsk(past, id, e.now))
            && (id in e.sel ==> e.sel[id] in OffersOf(past, id))
            && (id in e.sel && AskedOf(past, id) != [] && e.sel[id] == LastOf(AskedOf(past, id)).value.node ==>
                  OffersOf(past, id) == {e.sel[id]})
  {
    hide StoreAfter, AskedOf, OffersOf, Kept, AveragesOf;
    var past, e := events[..k], events[k];
    var s := StoreAfter(past);
    StoreRemembers(past);
    LastIsKept(AskedOf(past, id));
    assert RequestsFor(s, id) == Kept(AskedOf(past, id)) && PeersFor(s, id) == OffersOf(past, id);
    assert IsSelection(s, e.now, e.sel);
    assert PeersFor(s, id) != {} ==> id in s.pendingMap;
    if id in e.sel {
      assert e.sel[id] in Candidates(s, id);
      if AskedOf(past, id) != [] && e.sel[id] == LastOf(AskedOf(past, id)).value.node {
        OnlyPeer(PeersFor(s, id), e.sel[id]);
      }
    }
  }

  lemma OnlyPeer(peers: set<NodeIndex>, x: NodeIndex)
    requires |peers| <= 1 && x in peers
    ensures peers == {x}
  {
    assert |peers - {x}| == 0;
  }

  /** Event j asks for the id and nothing between j and k asks again or removes it. */
  ghost predicate LastAskedAt(events: seq<Event>, id: Id, j: nat, k: nat) {
    && j < k <= |events| && RequestOf(events[j], id).Some?
    && forall i :: j < i < k ==> RequestOf(events[i], id).None? && events[i] != MessageRemoved(id)
  }

  lemma {:induction false} LastAskedIsLast(events: seq<Event>, id: Id, j: nat, k: nat)
    requires LastAskedAt(events, id, j, k)
    ensures LastOf(AskedOf(events[..k], id)) == RequestOf(events[j], id)
    decreases k
  {
    assert events[..k][..k - 1] == events[..k - 1];
    if k == j + 1 {
    } else {
      LastAskedIsLast(events, id, j, k - 1);
    }
  }

  /** Two consecutive requests of a run for one id: the second, made by a tick, comes no sooner than
      the timeout of the first one's peer, and goes to that same peer only if it is the only one
      that has offered the message since. */
  lemma RetriesWaitAndRotate(events: seq<Event>, id: Id, j: nat, k: nat)
    requires IsRun(events) && LastAskedAt(events, id, j, k) && k < |events|
    ensures events[k].TickRound? && id in events[k].sel ==>
              var first, second := RequestOf(events[j], id).value, RequestOf(events[k], id).value;
              && Elapsed(first.timestamp, second.timestamp) >= TimeoutOf(events[..k], first.node)
              && second.node in OffersOf(events[..k], id)
              && (second.node == first.node ==> OffersOf(events[..k], id) == {second.node})
  {
    hide IsRun, AskedOf, OffersOf, TimeoutOf;
    if events[k].TickRound? && id in events[k].sel {
      LastAskedIsLast(events, id, j, k);
      TicksAskExactly(events, k, id);
    }
  }

  function Adverts(events: seq<Event>, id: Id, node: NodeIndex): nat {
    if events == [] then 0
    else
      Adverts(events[..|events| - 1], id, node) + if events[|events| - 1] == NodeAdvertised(node, id) then 1 else 0
  }

  function TickAsks(events: seq<Event>, id: Id, node: NodeIndex): nat {
    if events == [] then 0
    else
      var e := events[|events| - 1];
      TickAsks(events[..|events| - 1], id, node) + if e.TickRound? && id in e.sel && e.sel[id] == node then 1 else 0
  }

  lemma {:induction false} AsksUseUpAdverts(events: seq<Event>, id: Id, node: NodeIndex)
    requires IsRun(events)
    ensures TickAsks(events, id, node) + (if node in OffersOf(events, id) then 1 else 0) <= Adverts(events, id, node)
    decreases |events|
  {
    hide AskedOf;
    if events == [] {
    } else {
      var k := |events| - 1;
      PrefixIsRun(events, k);
      AsksUseUpAdverts(events[..k], id, node);
      if events[k].TickRound? {
        TicksAskExactly(events, k, id);
      }
    }
  }

  lemma PrefixIsRun(events: seq<Event>, k: nat)
    requires IsRun(events) && k <= |events|
    ensures IsRun(events[..k])
  {
    hide IsSelection, StoreAfter;
    forall i | 0 <= i < k && events[..k][i].TickRound?
      ensures IsSelection(StoreAfter(events[..k][..i]), events[..k][i].now, events[..k][i].sel)
    {
      assert events[..k][..i] == events[..i];
    }
  }

  /** In every run ticks ask a peer for an id at most as often as it advertised it, and no request
      list grows beyond its bound. */
  lemma RetriesNeverExceedAdvertisements(events: seq<Event>, id: Id, node: NodeIndex)
    requires IsRun(events)
    ensures TickAsks(events, id, node) <= Adverts(events, id, node)
    ensures |RequestsFor(StoreAfter(events), id)| <= BUFFER_SIZE
  {
    AsksUseUpAdverts(events, id, node);
    StoreRemembers(events);
  }
}
