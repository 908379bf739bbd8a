/** The gossip protocol's event loop: advertise, want, message. Value-level state machine; the
    guarantees are proved in BroadcastSafety.dfy. */
module BroadcastContext {
  import opened Common
  import opened Interner
  import opened PendingStore

  type Payload = seq<nat>
  type Signature = nat
  type PublicKey = nat

  /** The public keys of the nodes that are known at some moment. */
  type Directory = map<NodeIndex, PublicKey>

  datatype Topic = Consensus | Resolver | Debug | TaskBroker | Checkpoint

  datatype Message = Message(origin: NodeIndex, signature: Signature, topic: Topic, timestamp: nat, payload: Payload)

  /** The parts of the node the loop relies on: the digest hash, which covers topic and payload
      only, and signature verification. Both are arbitrary functions here. */
  datatype Env = Env(hash: (Topic, Payload) -> Digest, verify: (PublicKey, Signature, Digest) -> bool)

  function ToDigest(env: Env, m: Message): Digest {
    env.hash(m.topic, m.payload)
  }

  function TopicIndex(t: Topic): nat {
    match t
    case Consensus => 0
    case Resolver => 1
    case Debug => 2
    case TaskBroker => 3
    case Checkpoint => 4
  }

  // --- the database -------------------------------------------------------------------------

  datatype Entry = Entry(id: Option<Id>, message: Option<Message>)

  type Database = map<Digest, Entry>

  function GetId(db: Database, d: Digest): Option<Id> {
    if d in db then db[d].id else None
  }

  function GetMessage(db: Database, d: Digest): Option<Message> {
    if d in db then db[d].message else None
  }

  /** The preconditions of the three writers are the panics of the original. */
  function InsertId(db: Database, id: Id, d: Digest): Database
    requires d !in db
  {
    db[d := Entry(Some(id), None)]
  }

  function UpdateId(db: Database, id: Id, d: Digest): Database
    requires d in db
  {
    db[d := db[d].(id := Some(id))]
  }

  function InsertMessage(db: Database, d: Digest, m: Message): Database
    requires d in db
  {
    db[d := db[d].(message := Some(m))]
  }

  // --- the context --------------------------------------------------------------------------

  /** A received copy of a message, waiting for the subscribers' verdict. */
  datatype Received = Received(message: Message, sender: NodeIndex)

  datatype Shared = Shared(topicIndex: nat, digest: Digest, origin: NodeIndex, payload: Payload)

  datatype Recipients = Only(nodes: set<NodeIndex>) | AllBut(nodes: set<NodeIndex>)

  /** What the node has sent. A want also records the local id it is about. */
  datatype Out =
    | SentWant(to: NodeIndex, remote: Id, local: Id)
    | SentMessage(to: NodeIndex, id: Id, message: Message)
    | Advertised(id: Id, digest: Digest, recipients: Recipients)

  datatype Advr = Advr(sender: NodeIndex, remote: Id, digest: Digest)

  /** Everything that has happened that the guarantees speak of. */
  datatype History = History(
    inserted: seq<Digest>,
    advrs: set<Advr>,
    accepted: set<(Message, Directory)>,
    cleanUps: multiset<Digest>,
    invalidMarks: multiset<Digest>,
    propagated: set<Digest>,
    evicted: set<Digest>)

  datatype Context = Context(
    db: Database,
    interner: Table,
    peers: map<NodeIndex, map<Id, Id>>,
    pending: Store,
    processing: map<Digest, seq<Received>>,
    outbox: seq<Out>,
    published: seq<Shared>,
    history: History)

  const INITIAL := Context(
    map[], Interner.EMPTY, map[], EMPTY_STORE, map[], [], [],
    History([], {}, {}, multiset{}, multiset{}, {}, {}))

  datatype Event =
    | RecvAdvr(sender: NodeIndex, remote: Id, digest: Digest, now: nat)
    | RecvWant(sender: NodeIndex, id: Id)
    | RecvMessage(sender: NodeIndex, message: Message, keys: Directory, average: real)
    | Send(own: Message, filter: Option<set<NodeIndex>>)
    | CleanUp(digest: Digest)
    | Propagate(digest: Digest, filter: Option<set<NodeIndex>>)
    | MarkInvalidSender(digest: Digest)
    | Tick(now: nat, sel: map<Id, NodeIndex>, requests: seq<(Id, NodeIndex)>)
    | Evict(digests: set<Digest>)

  /** The interner is consistent and every database entry has an id: what the handlers rely on. */
  ghost predicate Ready(s: Context) {
    && Holds(s.interner, s.history.inserted)
    && forall d :: d in s.db ==> s.db[d].id.Some?
  }

  function PeerIds(s: Context, peer: NodeIndex): map<Id, Id> {
    if peer in s.peers then s.peers[peer] else map[]
  }

  /** Gives a digest the next interned id. */
  function Intern(s: Context, d: Digest): Context
    requires Holds(s.interner, s.history.inserted)
  {
    s.(interner := Insert(s.interner, d), history := s.history.(inserted := s.history.inserted + [d]))
  }

  function Learn(s: Context, sender: NodeIndex, remote: Id, id: Id): Context {
    s.(peers := s.peers[sender := PeerIds(s, sender)[id := remote]],
       pending := InsertPending(s.pending, sender, id))
  }

  function HandleAdvr(s: Context, sender: NodeIndex, remote: Id, d: Digest, now: nat): Context
    requires Ready(s)
  {
    var s1 := s.(history := s.history.(advrs := s.history.advrs + {Advr(sender, remote, d)}));
    if GetMessage(s.db, d).Some? then s1
    else if GetId(s.db, d).Some? then Learn(s1, sender, remote, GetId(s.db, d).value)
    else
      var id := s.interner.next;
      var s2 := Intern(s1, d).(db := InsertId(s.db, id, d));
      Learn(s2.(outbox := s.outbox + [SentWant(sender, remote, id)],
                pending := InsertRequest(s.pending, sender, id, now)),
            sender, remote, id)
  }

  function HandleWant(s: Context, sender: NodeIndex, id: Id): Context {
    var d := Get(s.interner, id);
    if d.None? || GetMessage(s.db, d.value).None? then s
    else s.(outbox := s.outbox + [SentMessage(sender, id, GetMessage(s.db, d.value).value)])
  }

  function ToShared(d: Digest, m: Message): Shared {
    Shared(TopicIndex(m.topic), d, m.origin, m.payload)
  }

  /** The key that must have signed is the origin's, whoever sends the message. */
  function HandleMessage(env: Env, s: Context, sender: NodeIndex, m: Message, keys: Directory, average: real): Context {
    var d := ToDigest(env, m);
    if GetMessage(s.db, d).Some? || m.origin !in keys || GetId(s.db, d).None? then s
    else if !env.verify(keys[m.origin], m.signature, d) then s
    else
      var s1 := s.(history := s.history.(accepted := s.history.accepted + {(m, keys)}));
      if d in s.processing then
        s1.(processing := s.processing[d := s.processing[d] + [Received(m, sender)]])
      else
        s1.(processing := s.processing[d := [Received(m, sender)]],
            published := s.published + [ToShared(d, m)],
            pending := ReceivedMessage(s.pending, sender, GetId(s.db, d).value, average))
  }

  function Advertise(s: Context, id: Id, d: Digest, filter: Option<set<NodeIndex>>): Context {
    var to := if filter.Some? then Only(filter.value)
              else AllBut(set p | p in s.peers && id in s.peers[p]);
    s.(outbox := s.outbox + [Advertised(id, d, to)])
  }

  /** A message of our own. Its database id is reused only while the interner still knows it. */
  function HandleSend(env: Env, s: Context, m: Message, filter: Option<set<NodeIndex>>): Context
    requires Ready(s)
  {
    var d := ToDigest(env, m);
    if GetMessage(s.db, d).Some? then s
    else
      var known := GetId(s.db, d);
      var id := if known.Some? && Get(s.interner, known.value) == Some(d) then known.value else s.interner.next;
      var s1 :=
        if known.Some? && Get(s.interner, known.value) == Some(d) then s
        else if known.Some? then Intern(s, d).(db := UpdateId(s.db, id, d))
        else Intern(s, d).(db := InsertId(s.db, id, d));
      Advertise(s1.(db := InsertMessage(s1.db, d, m)), id, d, filter)
  }

  function HandleCleanUp(s: Context, d: Digest): Context {
    var s1 := s.(history := s.history.(cleanUps := s.history.cleanUps + multiset{d}));
    if GetId(s.db, d).None? then s1
    else s1.(processing := s.processing - {d}, pending := RemoveMessage(s.pending, GetId(s.db, d).value))
  }

  function HandlePropagate(s: Context, d: Digest, filter: Option<set<NodeIndex>>): Context {
    if GetId(s.db, d).None? then s
    else
      var id := GetId(s.db, d).value;
      if GetMessage(s.db, d).Some? then FinishPropagate(s, id, d, filter)
      else if d !in s.processing then s
      else if s.processing[d] == [] then s.(processing := s.processing - {d})
      else
        FinishPropagate(
          s.(processing := s.processing - {d}, db := InsertMessage(s.db, d, s.processing[d][0].message)),
          id, d, filter)
  }

  function FinishPropagate(s: Context, id: Id, d: Digest, filter: Option<set<NodeIndex>>): Context {
    Advertise(
      s.(pending := RemoveMessage(s.pending, id),
         history := s.history.(propagated := s.history.propagated + {d})),
      id, d, filter)
  }

  function HandleMarkInvalid(s: Context, d: Digest): Context {
    var s1 := s.(history := s.history.(invalidMarks := s.history.invalidMarks + multiset{d}));
    if d !in s.processing then s1
    else
      var rest := if s.processing[d] == [] then [] else s.processing[d][1..];
      var s2 := s1.(processing := s.processing[d := rest]);
      if rest == [] then s2 else s2.(published := s.published + [ToShared(d, rest[0].message)])
  }

  /** The wants of one tick; a peer without a mapping for the id is passed over. */
  function RetryWants(peers: map<NodeIndex, map<Id, Id>>, requests: seq<(Id, NodeIndex)>): seq<Out> {
    if requests == [] then []
    else
      var (id, node) := requests[0];
      (if node in peers && id in peers[node] then [SentWant(node, peers[node][id], id)] else []) +
      RetryWants(peers, requests[1..])
  }

  ghost predicate Lists(requests: seq<(Id, NodeIndex)>, sel: map<Id, NodeIndex>) {
    && (forall i :: 0 <= i < |requests| ==> requests[i].0 in sel && sel[requests[i].0] == requests[i].1)
    && (forall id :: id in sel ==> (id, sel[id]) in requests)
  }

  function HandleTick(s: Context, now: nat, sel: map<Id, NodeIndex>, requests: seq<(Id, NodeIndex)>): Context {
    s.(pending := ApplyTick(s.pending, now, sel), outbox := s.outbox + RetryWants(s.peers, requests))
  }

  /** The cache may drop entries between any two events. */
  function HandleEvict(s: Context, digests: set<Digest>): Context {
    s.(db := s.db - digests, history := s.history.(evicted := s.history.evicted + digests))
  }

  ghost predicate Enabled(s: Context, e: Event) {
    e.Tick? ==> IsSelection(s.pending, e.now, e.sel) && Lists(e.requests, e.sel)
  }

  function Step(env: Env, s: Context, e: Event): Context
    requires Ready(s)
  {
    match e
    case RecvAdvr(sender, remote, digest, now) => HandleAdvr(s, sender, remote, digest, now)
    case RecvWant(sender, id) => HandleWant(s, sender, id)
    case RecvMessage(sender, message, keys, average) => HandleMessage(env, s, sender, message, keys, average)
    case Send(own, filter) => HandleSend(env, s, own, filter)
    case CleanUp(digest) => HandleCleanUp(s, digest)
    case Propagate(digest, filter) => HandlePropagate(s, digest, filter)
    case MarkInvalidSender(digest) => HandleMarkInvalid(s, digest)
    case Tick(now, sel, requests) => HandleTick(s, now, sel, requests)
    case Evict(digests) => HandleEvict(s, digests)
  }

  /** No event breaks what the handlers rely on, so the panics of the database are unreachable. */
  lemma StepReady(env: Env, s: Context, e: Event)
    requires Ready(s)
    ensures Ready(Step(env, s, e))
  {
    hide Holds, Insert, InsertPending, InsertRequest, RemoveMessage, ReceivedMessage, ApplyTick;
    match e
    case RecvAdvr(_, _, digest, _) => InsertHolds(s.interner, s.history.inserted, digest);
    case Send(own, _) => InsertHolds(s.interner, s.history.inserted, ToDigest(env, own));
    case _ =>
  }

  /** The state after a run from the start. A tick is skipped if its selection is not one the
      pending store can make. */
  ghost function Run(env: Env, events: seq<Event>): (s: Context)
    ensures Ready(s)
  {
    if events == [] then INITIAL
    else
      var s := Run(env, events[..|events| - 1]);
      var e := events[|events| - 1];
      StepReady(env, s, e);
      if Enabled(s, e) then Step(env, s, e) else s
  }
}
