/** The want requests a node has out: who can serve a digest, whom it asked and when to ask again. */
module PendingStore {
  import opened Common
  import opened Interner

  type NodeIndex = nat

  const DEFAULT_REQUEST_TIMEOUT: nat := 1000
  const BUFFER_SIZE: nat := 1000

  datatype Request = Request(node: NodeIndex, timestamp: nat)

  /** `rtt` holds the moving average of the round trip time of the peers that have one. */
  datatype Store = Store(
    pendingMap: map<Id, set<NodeIndex>>,
    requestMap: map<Id, seq<Request>>,
    rtt: map<NodeIndex, real>)

  const EMPTY_STORE := Store(map[], map[], map[])

  function PeersFor(s: Store, id: Id): set<NodeIndex> {
    if id in s.pendingMap then s.pendingMap[id] else {}
  }

  function RequestsFor(s: Store, id: Id): seq<Request> {
    if id in s.requestMap then s.requestMap[id] else []
  }

  function PushRequest(rs: seq<Request>, r: Request): seq<Request> {
    (if |rs| >= BUFFER_SIZE then rs[1..] else rs) + [r]
  }

  function InsertPending(s: Store, node: NodeIndex, id: Id): Store {
    s.(pendingMap := s.pendingMap[id := PeersFor(s, id) + {node}])
  }

  function InsertRequest(s: Store, node: NodeIndex, id: Id, now: nat): Store {
    s.(requestMap := s.requestMap[id := PushRequest(RequestsFor(s, id), Request(node, now))])
  }

  function RemoveMessage(s: Store, id: Id): Store {
    s.(pendingMap := s.pendingMap - {id}, requestMap := s.requestMap - {id})
  }

  function WasAsked(rs: seq<Request>, node: NodeIndex): bool {
    exists i :: 0 <= i < |rs| && rs[i].node == node
  }

  /** A message came in; the sender's average moves if we had asked it. */
  function ReceivedMessage(s: Store, node: NodeIndex, id: Id, average: real): Store {
    if WasAsked(RequestsFor(s, id), node) then s.(rtt := s.rtt[node := average]) else s
  }

  // --- when to ask again, and whom ----------------------------------------------------------

  function Elapsed(since: nat, now: nat): nat {
    if since <= now then now - since else 0
  }

  /** Twice the peer's average round trip, in whole milliseconds, or the default. */
  function TimeoutFor(s: Store, node: NodeIndex): int {
    if node in s.rtt then (s.rtt[node] * 2.0).Floor else DEFAULT_REQUEST_TIMEOUT
  }

  function LastRequest(s: Store, id: Id): Option<Request> {
    var rs := RequestsFor(s, id);
    if rs == [] then None else Some(rs[|rs| - 1])
  }

  predicate Due(s: Store, id: Id, now: nat) {
    && id in s.pendingMap
    && var last := LastRequest(s, id);
       last.Some? ==> Elapsed(last.value.timestamp, now) >= TimeoutFor(s, last.value.node)
  }

  /** The peers that may be asked: all that have the message, minus the one asked last unless it
      is the only one. */
  function Candidates(s: Store, id: Id): (r: set<NodeIndex>)
    ensures r <= PeersFor(s, id)
    ensures PeersFor(s, id) != {} ==> r != {}
  {
    var peers := PeersFor(s, id);
    var last := LastRequest(s, id);
    if |peers| > 1 && last.Some? then
      if peers - {last.value.node} == {} then
        assert peers <= {last.value.node};
        SubsetOfOne(peers, last.value.node);
        {}
      else peers - {last.value.node}
    else peers
  }

  lemma SubsetOfOne(peers: set<NodeIndex>, x: NodeIndex)
    requires peers <= {x}
    ensures |peers| <= 1
  {
    assert peers == {} || peers == {x};
  }

  /** A tick's requests: one for every due digest somebody has, to one of its candidates. The
      weighted draw among the candidates may come out any way. */
  ghost predicate IsSelection(s: Store, now: nat, sel: map<Id, NodeIndex>) {
    && (forall id: Id :: id in sel <==> Due(s, id, now) && PeersFor(s, id) != {})
    && (forall id: Id :: id in sel ==> sel[id] in Candidates(s, id))
  }

  function Ask(s: Store, id: Id, node: NodeIndex, now: nat): Store {
    InsertRequest(s, node, id, now).(pendingMap := s.pendingMap[id := PeersFor(s, id) - {node}])
  }

  function TickPending(s: Store, sel: map<Id, NodeIndex>): map<Id, set<NodeIndex>> {
    map id | id in s.pendingMap.Keys + sel.Keys ::
      if id in sel then PeersFor(s, id) - {sel[id]} else s.pendingMap[id]
  }

  function TickRequests(s: Store, now: nat, sel: map<Id, NodeIndex>): map<Id, seq<Request>> {
    map id | id in s.requestMap.Keys + sel.Keys ::
      if id in sel then PushRequest(RequestsFor(s, id), Request(sel[id], now)) else s.requestMap[id]
  }

  function ApplyTick(s: Store, now: nat, sel: map<Id, NodeIndex>): Store {
    Store(TickPending(s, sel), TickRequests(s, now, sel), s.rtt)
  }

  // --- sampling weights ---------------------------------------------------------------------

  function MaxOf(averages: seq<real>): real {
    if averages == [] then 0.0
    else
      var m := MaxOf(averages[..|averages| - 1]);
      var e := averages[|averages| - 1];
      if m < e then e else m
  }

  function Weights(averages: seq<real>): seq<real> {
    seq(|averages|, i requires 0 <= i < |averages| => MaxOf(averages) - averages[i] + 1.0)
  }

  lemma {:induction false} MaxOfIsMax(averages: seq<real>, i: nat)
    requires i < |averages|
    ensures averages[i] <= MaxOf(averages)
  {
    var n := |averages| - 1;
    if i < n {
      MaxOfIsMax(averages[..n], i);
    }
  }

  /** Every candidate can be drawn, and a faster peer never has the smaller weight. */
  lemma WeightsFavourFastPeers(averages: seq<real>, i: nat, j: nat)
    requires i < |averages| && j < |averages|
    ensures Weights(averages)[i] >= 1.0
    ensures averages[i] <= averages[j] <==> Weights(averages)[i] >= Weights(averages)[j]
  {
    MaxOfIsMax(averages, i);
  }

  // --- a tick, one request at a time ---------------------------------------------------------

  lemma ApplyNothing(s: Store, now: nat)
    ensures ApplyTick(s, now, map[]) == s
  {
    assert ApplyTick(s, now, map[]).pendingMap == s.pendingMap;
    assert ApplyTick(s, now, map[]).requestMap == s.requestMap;
  }

  lemma ApplyOneMore(s: Store, now: nat, done: map<Id, NodeIndex>, id: Id, node: NodeIndex)
    requires id !in done
    ensures ApplyTick(s, now, done[id := node]) == Ask(ApplyTick(s, now, done), id, node, now)
  {
    ApplyOneMorePending(s, now, done, id, node);
    ApplyOneMoreRequests(s, now, done, id, node);
  }

  lemma ApplyOneMorePending(s: Store, now: nat, done: map<Id, NodeIndex>, id: Id, node: NodeIndex)
    requires id !in done
    ensures ApplyTick(s, now, done[id := node]).pendingMap == Ask(ApplyTick(s, now, done), id, node, now).pendingMap
  {
    hide PushRequest, InsertRequest, RequestsFor, TickRequests;
    var t := ApplyTick(s, now, done);
    assert PeersFor(t, id) == PeersFor(s, id);
  }

  lemma ApplyOneMoreRequests(s: Store, now: nat, done: map<Id, NodeIndex>, id: Id, node: NodeIndex)
    requires id !in done
    ensures ApplyTick(s, now, done[id := node]).requestMap == Ask(ApplyTick(s, now, done), id, node, now).requestMap
  {
    hide PushRequest, PeersFor, TickPending;
    var t := ApplyTick(s, now, done);
    assert RequestsFor(t, id) == RequestsFor(s, id);
  }
}
