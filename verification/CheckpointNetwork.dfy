/** A network of checkpointing nodes: each signs the state root of an epoch once, gossips it, and
    aggregates what it has stored. Correct nodes may crash at any point and keep only their
    database; faulty nodes may send anything but the signatures of correct ones. */
module CheckpointNetwork {
  import opened Common
  import opened Quorum
  import opened AggregateBuilder

  /** Who takes part. The eligible set is fixed. */
  datatype Config = Config(eligible: set<NodeIndex>, correct: set<NodeIndex>)

  /** A node's database, which survives crashes. */
  datatype Db = Db(attestations: map<Epoch, Headers>, aggregates: map<Epoch, Aggregate>)

  /** Where the epoch change listener of a node is between its database accesses. */
  datatype Pc = Idle | Prepared(att: Attestation) | Persisted(att: Attestation)

  /** What the aggregation read; it may be used after the database has moved on. */
  datatype Snapshot = Snapshot(epoch: Epoch, headers: Headers)

  datatype Node = Node(db: Db, pc: Pc, snapshots: set<Snapshot>)

  datatype Network = Network(nodes: map<NodeIndex, Node>, sent: set<Attestation>)

  datatype Event =
    | EpochChanged(i: NodeIndex, epoch: Epoch, previousRoot: Root, nextRoot: Root, stateDigest: nat)
    | Persist(i: NodeIndex)
    | Broadcast(i: NodeIndex)
    | Deliver(i: NodeIndex, att: Attestation)
    | ReadAttestations(i: NodeIndex, epoch: Epoch)
    | SaveAggregate(i: NodeIndex, snapshot: Snapshot, agg: Aggregate)
    | Crash(i: NodeIndex)

  const EMPTY_NODE := Node(Db(map[], map[]), Idle, {})

  function Initial(c: Config): Network {
    Network(map i | i in c.correct :: EMPTY_NODE, {})
  }

  // --- database -----------------------------------------------------------------------------

  function GetAttestations(db: Db, epoch: Epoch): Headers {
    if epoch in db.attestations then db.attestations[epoch] else map[]
  }

  function GetNodeAttestation(db: Db, epoch: Epoch, node: NodeIndex): Option<Attestation> {
    var headers := GetAttestations(db, epoch);
    if node in headers then Some(headers[node]) else None
  }

  function SetNodeAttestation(db: Db, epoch: Epoch, att: Attestation): Db {
    db.(attestations := db.attestations[epoch := GetAttestations(db, epoch)[att.content.node := att]])
  }

  // --- the listeners ------------------------------------------------------------------------

  predicate ValidSignature(att: Attestation) {
    att.signature == Signed(att.content.node, att.content)
  }

  /** handle_epoch_changed, up to the signature: only an eligible node that has no attestation of
      its own for the epoch goes on. */
  function Prepare(c: Config, n: Node, i: NodeIndex, content: Content): Node {
    if i !in c.eligible || GetNodeAttestation(n.db, content.epoch, i).Some? then n
    else n.(pc := Prepared(Attestation(content, Signed(i, content))))
  }

  /** handle_incoming_checkpoint_attestation, up to the aggregation. */
  function Accept(c: Config, db: Db, att: Attestation): Db {
    if att.content.node !in c.eligible || !ValidSignature(att) then db
    else SetNodeAttestation(db, att.content.epoch, att)
  }

  function StepNode(c: Config, n: Node, e: Event): Node {
    match e
    case EpochChanged(i, epoch, previousRoot, nextRoot, stateDigest) =>
      if n.pc.Idle? then Prepare(c, n, i, Content(epoch, i, previousRoot, nextRoot, stateDigest)) else n
    case Persist(_) =>
      if n.pc.Prepared?
      then n.(db := SetNodeAttestation(n.db, n.pc.att.content.epoch, n.pc.att), pc := Persisted(n.pc.att))
      else n
    case Broadcast(_) => if n.pc.Persisted? then n.(pc := Idle) else n
    case Deliver(_, att) => n.(db := Accept(c, n.db, att))
    case ReadAttestations(_, epoch) =>
      n.(snapshots := n.snapshots + {Snapshot(epoch, GetAttestations(n.db, epoch))})
    case SaveAggregate(_, snapshot, agg) =>
      n.(db := n.db.(aggregates := n.db.aggregates[snapshot.epoch := agg]))
    case Crash(_) => n.(pc := Idle, snapshots := {})
  }

  /** What the environment may do: deliver a correct node's valid signature only after that node
      broadcast it, and let the aggregation produce only what BuildAggregate can. */
  ghost predicate Enabled(c: Config, net: Network, e: Event) {
    && e.i in net.nodes
    && (e.Deliver? && e.att.content.node in c.correct && ValidSignature(e.att) ==> e.att in net.sent)
    && (e.SaveAggregate? ==>
          && e.snapshot in net.nodes[e.i].snapshots
          && IsAggregate(e.agg, e.snapshot.epoch, e.snapshot.headers, |c.eligible|))
  }

  function Step(c: Config, net: Network, e: Event): Network
    requires e.i in net.nodes
  {
    var n := net.nodes[e.i];
    Network(net.nodes[e.i := StepNode(c, n, e)],
            if e.Broadcast? && n.pc.Persisted? then net.sent + {n.pc.att} else net.sent)
  }

  ghost predicate IsRun(c: Config, trace: seq<Network>, events: seq<Event>) {
    && |trace| == |events| + 1
    && trace[0] == Initial(c)
    && forall k :: 0 <= k < |events| ==> Enabled(c, trace[k], events[k]) && trace[k + 1] == Step(c, trace[k], events[k])
  }

  // --- invariant ----------------------------------------------------------------------------

  /** The attestation a node has made for an epoch: the one in its own database. */
  ghost function Own(net: Network, i: NodeIndex, epoch: Epoch): Option<Attestation> {
    if i in net.nodes then GetNodeAttestation(net.nodes[i].db, epoch, i) else None
  }

  /** An attestation as it may be stored: by an eligible node, and if that node is correct, the
      one that node made. */
  ghost predicate Vouched(c: Config, net: Network, epoch: Epoch, k: NodeIndex, att: Attestation) {
    && k in c.eligible
    && att.content.node == k && att.content.epoch == epoch
    && (k in c.correct ==> Own(net, k, epoch) == Some(att))
  }

  ghost predicate GoodHeaders(c: Config, net: Network, epoch: Epoch, headers: Headers) {
    forall k :: k in headers ==> Vouched(c, net, epoch, k, headers[k])
  }

  ghost predicate GoodAggregate(c: Config, net: Network, epoch: Epoch, agg: Aggregate) {
    && agg.nodes <= c.eligible
    && |agg.nodes| == QuorumSize(|c.eligible|)
    && forall k :: k in agg.nodes && k in c.correct ==>
         Own(net, k, epoch).Some? && Own(net, k, epoch).value.content.nextRoot == agg.root
  }

  ghost predicate GoodPc(net: Network, i: NodeIndex, pc: Pc, eligible: set<NodeIndex>) {
    match pc
    case Idle => true
    case Prepared(att) =>
      i in eligible && att.content.node == i && Own(net, i, att.content.epoch).None?
    case Persisted(att) => att.content.node == i && Own(net, i, att.content.epoch) == Some(att)
  }

  ghost predicate GoodNode(c: Config, net: Network, i: NodeIndex)
    requires i in net.nodes
  {
    var n := net.nodes[i];
    && (forall e :: e in n.db.attestations ==> GoodHeaders(c, net, e, n.db.attestations[e]))
    && (forall s :: s in n.snapshots ==> GoodHeaders(c, net, s.epoch, s.headers))
    && (forall e :: e in n.db.aggregates ==> GoodAggregate(c, net, e, n.db.aggregates[e]))
    && GoodPc(net, i, n.pc, c.eligible)
  }

  ghost predicate Inv(c: Config, net: Network) {
    && net.nodes.Keys == c.correct
    && (forall i :: i in net.nodes ==> GoodNode(c, net, i))
    && (forall att :: att in net.sent ==> Own(net, att.content.node, att.content.epoch) == Some(att))
  }

  /** Attestations of correct nodes are never replaced: what was vouched for stays vouched for. */
  ghost predicate OwnIsKept(net: Network, net': Network) {
    forall i, epoch :: Own(net, i, epoch).Some? ==> Own(net', i, epoch) == Own(net, i, epoch)
  }

  lemma GoodHeadersKept(c: Config, net: Network, net': Network, epoch: Epoch, headers: Headers)
    requires OwnIsKept(net, net') && GoodHeaders(c, net, epoch, headers)
    ensures GoodHeaders(c, net', epoch, headers)
  {
    forall k | k in headers ensures Vouched(c, net', epoch, k, headers[k]) {
      assert Vouched(c, net, epoch, k, headers[k]);
    }
  }

  lemma GoodAggregateKept(c: Config, net: Network, net': Network, epoch: Epoch, agg: Aggregate)
    requires OwnIsKept(net, net') && GoodAggregate(c, net, epoch, agg)
    ensures GoodAggregate(c, net', epoch, agg)
  {
  }

  /** Every event leaves what correct nodes have attested to in place. */
  lemma StepKeepsOwn(c: Config, net: Network, e: Event)
    requires Inv(c, net) && Enabled(c, net, e)
    ensures OwnIsKept(net, Step(c, net, e))
  {
    var net' := Step(c, net, e);
    assert GoodNode(c, net, e.i);
    forall i, epoch | Own(net, i, epoch).Some? ensures Own(net', i, epoch) == Own(net, i, epoch) {
      if i == e.i && e.Deliver? && e.att.content.node == i {
        assert e.att in net.sent || !ValidSignature(e.att);
      }
    }
  }

  /** The databases after the event: every attestation in them is still vouched for. */
  lemma StepKeepsHeaders(c: Config, net: Network, e: Event, epoch: Epoch)
    requires Inv(c, net) && Enabled(c, net, e) && OwnIsKept(net, Step(c, net, e))
    requires epoch in Step(c, net, e).nodes[e.i].db.attestations
    ensures GoodHeaders(c, Step(c, net, e), epoch, Step(c, net, e).nodes[e.i].db.attestations[epoch])
  {
    var net' := Step(c, net, e);
    var n, n' := net.nodes[e.i], net'.nodes[e.i];
    assert GoodNode(c, net, e.i);
    var before, after := GetAttestations(n.db, epoch), n'.db.attestations[epoch];
    GoodHeadersKept(c, net, net', epoch, before);
    forall k | k in after ensures Vouched(c, net', epoch, k, after[k]) {
      if k in before && after[k] == before[k] {
        assert Vouched(c, net', epoch, k, before[k]);
      } else if e.Deliver? {
        assert after[k] == e.att;
      } else {
        assert after[k] == n.pc.att;
      }
    }
  }

  lemma StepKeepsNode(c: Config, net: Network, e: Event)
    requires Inv(c, net) && Enabled(c, net, e) && OwnIsKept(net, Step(c, net, e))
    ensures GoodNode(c, Step(c, net, e), e.i)
  {
    var net' := Step(c, net, e);
    var n, n' := net.nodes[e.i], net'.nodes[e.i];
    assert GoodNode(c, net, e.i);
    forall epoch | epoch in n'.db.attestations
      ensures GoodHeaders(c, net', epoch, n'.db.attestations[epoch])
    {
      StepKeepsHeaders(c, net, e, epoch);
    }
    forall s | s in n'.snapshots ensures GoodHeaders(c, net', s.epoch, s.headers) {
      assert GoodHeaders(c, net, s.epoch, s.headers);
      GoodHeadersKept(c, net, net', s.epoch, s.headers);
    }
    forall epoch | epoch in n'.db.aggregates ensures GoodAggregate(c, net', epoch, n'.db.aggregates[epoch]) {
      if e.SaveAggregate? && epoch == e.snapshot.epoch {
        AggregateIsGood(c, net, e.snapshot, e.agg);
      }
      GoodAggregateKept(c, net, net', epoch, n'.db.aggregates[epoch]);
    }
    PcKept(c, net, e);
  }

  lemma AggregateIsGood(c: Config, net: Network, s: Snapshot, agg: Aggregate)
    requires GoodHeaders(c, net, s.epoch, s.headers)
    requires IsAggregate(agg, s.epoch, s.headers, |c.eligible|)
    ensures GoodAggregate(c, net, s.epoch, agg)
  {
    forall k | k in agg.nodes
      ensures k in c.eligible
      ensures k in c.correct ==>
                Own(net, k, s.epoch).Some? && Own(net, k, s.epoch).value.content.nextRoot == agg.root
    {
      assert Vouched(c, net, s.epoch, k, s.headers[k]);
    }
  }

  lemma PcKept(c: Config, net: Network, e: Event)
    requires Inv(c, net) && Enabled(c, net, e) && OwnIsKept(net, Step(c, net, e))
    ensures GoodPc(Step(c, net, e), e.i, Step(c, net, e).nodes[e.i].pc, c.eligible)
  {
    assert GoodNode(c, net, e.i);
    if e.Deliver? && e.att.content.node == e.i {
      assert e.att in net.sent || !ValidSignature(e.att);
    }
  }

  lemma StepKeepsInv(c: Config, net: Network, e: Event)
    requires Inv(c, net) && Enabled(c, net, e)
    ensures Inv(c, Step(c, net, e)) && OwnIsKept(net, Step(c, net, e))
  {
    var net' := Step(c, net, e);
    StepKeepsOwn(c, net, e);
    forall i | i in net'.nodes ensures GoodNode(c, net', i) {
      if i == e.i {
        StepKeepsNode(c, net, e);
      } else {
        OtherNodeKept(c, net, e, i);
      }
    }
    assert GoodNode(c, net, e.i);
  }

  lemma OtherNodeKept(c: Config, net: Network, e: Event, i: NodeIndex)
    requires Inv(c, net) && Enabled(c, net, e) && OwnIsKept(net, Step(c, net, e))
    requires i in net.nodes && i != e.i
    ensures GoodNode(c, Step(c, net, e), i)
  {
    var net' := Step(c, net, e);
    var n := net.nodes[i];
    assert GoodNode(c, net, i);
    forall epoch | epoch in n.db.attestations ensures GoodHeaders(c, net', epoch, n.db.attestations[epoch]) {
      GoodHeadersKept(c, net, net', epoch, n.db.attestations[epoch]);
    }
    forall s | s in n.snapshots ensures GoodHeaders(c, net', s.epoch, s.headers) {
      GoodHeadersKept(c, net, net', s.epoch, s.headers);
    }
    forall epoch | epoch in n.db.aggregates ensures GoodAggregate(c, net', epoch, n.db.aggregates[epoch]) {
      GoodAggregateKept(c, net, net', epoch, n.db.aggregates[epoch]);
    }
  }

  lemma {:induction false} RunKeepsInv(c: Config, trace: seq<Network>, events: seq<Event>, k: nat)
    requires IsRun(c, trace, events) && k < |trace|
    ensures Inv(c, trace[k])
    decreases k
  {
    if k == 0 {
    } else {
      RunKeepsInv(c, trace, events, k - 1);
      StepKeepsInv(c, trace[k - 1], events[k - 1]);
    }
  }

  // --- guarantees ---------------------------------------------------------------------------

  /** What correct nodes have attested to is still there later in the run. */
  lemma {:induction false} OwnIsKeptAlong(c: Config, trace: seq<Network>, events: seq<Event>, j: nat, k: nat)
    requires IsRun(c, trace, events) && j <= k < |trace|
    ensures OwnIsKept(trace[j], trace[k])
    decreases k
  {
    hide Inv, Step, Enabled;
    if j < k {
      OwnIsKeptAlong(c, trace, events, j, k - 1);
      RunKeepsInv(c, trace, events, k - 1);
      StepKeepsInv(c, trace[k - 1], events[k - 1]);
    }
  }

  /** A correct node broadcasts at most one attestation per epoch, whatever it is notified of and
      however often it crashes. */
  lemma CorrectNodeAttestsOnce(c: Config, trace: seq<Network>, events: seq<Event>, k: nat,
                               a: Attestation, b: Attestation)
    requires IsRun(c, trace, events) && k < |trace|
    requires a in trace[k].sent && b in trace[k].sent
    requires a.content.node == b.content.node && a.content.epoch == b.content.epoch
    ensures a == b
  {
    RunKeepsInv(c, trace, events, k);
  }

  /** Agreement. In every run, whichever crashes and stale reads it contains, the aggregates any
      two correct nodes ever hold for one epoch carry the same state root. The faulty eligible
      nodes must be fewer than two quorums share; fewer than a third is enough (ThirdIsEnough),
      and the bound is exact (AgreesExactly). */
  lemma Agreement(c: Config, trace: seq<Network>, events: seq<Event>, j: nat, k: nat,
                  x: NodeIndex, y: NodeIndex, epoch: Epoch)
    requires IsRun(c, trace, events) && j <= k < |trace|
    requires |c.eligible - c.correct| < Overlap(|c.eligible|)
    requires x in trace[j].nodes && epoch in trace[j].nodes[x].db.aggregates
    requires y in trace[k].nodes && epoch in trace[k].nodes[y].db.aggregates
    ensures trace[j].nodes[x].db.aggregates[epoch].root == trace[k].nodes[y].db.aggregates[epoch].root
  {
    hide IsRun, OwnIsKept, GoodHeaders, GoodPc, Own, Overlap;
    RunKeepsInv(c, trace, events, j);
    RunKeepsInv(c, trace, events, k);
    OwnIsKeptAlong(c, trace, events, j, k);
    var a := trace[j].nodes[x].db.aggregates[epoch];
    var b := trace[k].nodes[y].db.aggregates[epoch];
    assert GoodNode(c, trace[j], x) && GoodNode(c, trace[k], y);
    GoodAggregateKept(c, trace[j], trace[k], epoch, a);
    var w := QuorumsShareCorrectNode(a.nodes, b.nodes, c.eligible, c.eligible - c.correct);
  }
}
