/** The agreement bound is exact: with as many faulty eligible nodes as two quorums must share, the
    network has a run in which a correct node holds aggregates with different roots. */
module CheckpointDisagreement {
  import opened Common
  import opened Quorum
  import opened AggregateBuilder
  import opened CheckpointNetwork

  /** Two correct nodes, or one at two times, hold aggregates of one epoch with different roots. */
  ghost predicate Disagree(c: Config, trace: seq<Network>, events: seq<Event>, j: int, k: int,
                           x: NodeIndex, y: NodeIndex, epoch: Epoch)
  {
    && IsRun(c, trace, events) && 0 <= j <= k < |trace|
    && x in trace[j].nodes && epoch in trace[j].nodes[x].db.aggregates
    && y in trace[k].nodes && epoch in trace[k].nodes[y].db.aggregates
    && trace[j].nodes[x].db.aggregates[epoch].root != trace[k].nodes[y].db.aggregates[epoch].root
  }

  ghost predicate AlwaysAgrees(c: Config) {
    forall trace, events, j, k, x, y, epoch :: !Disagree(c, trace, events, j, k, x, y, epoch)
  }

  /** The attestation of a node for a root. */
  function Vote(k: NodeIndex, epoch: Epoch, root: Root): Attestation {
    var content := Content(epoch, k, 0, root, 0);
    Attestation(content, Signed(k, content))
  }

  function Votes(nodes: set<NodeIndex>, epoch: Epoch, root: Root): set<Attestation> {
    set k | k in nodes :: Vote(k, epoch, root)
  }

  /** A run under construction, and where it stands. */
  datatype Path = Path(trace: seq<Network>, events: seq<Event>)

  ghost predicate IsPath(c: Config, p: Path) {
    p.trace != [] && IsRun(c, p.trace, p.events)
  }

  function End(p: Path): Network {
    if p.trace == [] then Network(map[], {}) else p.trace[|p.trace| - 1]
  }

  /** The path goes on from another. */
  ghost predicate Continues(c: Config, p: Path, q: Path) {
    IsPath(c, q) && p.trace <= q.trace
  }

  lemma Extend(c: Config, p: Path, e: Event) returns (q: Path)
    requires IsPath(c, p) && Enabled(c, End(p), e)
    ensures Continues(c, p, q) && End(q) == Step(c, End(p), e)
  {
    q := Path(p.trace + [Step(c, End(p), e)], p.events + [e]);
    forall k | 0 <= k < |q.events|
      ensures Enabled(c, q.trace[k], q.events[k]) && q.trace[k + 1] == Step(c, q.trace[k], q.events[k])
    {
      if k < |p.events| {
        assert Enabled(c, p.trace[k], p.events[k]) && p.trace[k + 1] == Step(c, p.trace[k], p.events[k]);
      }
    }
  }

  /** A correct, eligible node that has done nothing yet votes. */
  lemma CastVote(c: Config, p: Path, k: NodeIndex, epoch: Epoch, root: Root) returns (q: Path)
    requires IsPath(c, p) && k in c.eligible && k in End(p).nodes && End(p).nodes[k] == EMPTY_NODE
    ensures Continues(c, p, q) && End(q).sent == End(p).sent + {Vote(k, epoch, root)}
    ensures End(q).nodes.Keys == End(p).nodes.Keys
    ensures forall i :: i in End(p).nodes && i != k ==> End(q).nodes[i] == End(p).nodes[i]
  {
    hide IsPath, End;
    var q1 := Extend(c, p, EpochChanged(k, epoch, 0, root, 0));
    assert End(q1).nodes[k].pc == Prepared(Vote(k, epoch, root));
    var q2 := Extend(c, q1, Persist(k));
    assert End(q2).nodes[k].pc == Persisted(Vote(k, epoch, root));
    q := Extend(c, q2, Broadcast(k));
  }

  lemma {:induction false} CastVotes(c: Config, p: Path, voters: set<NodeIndex>, epoch: Epoch, root: Root) returns (q: Path)
    requires IsPath(c, p) && voters <= c.eligible
    requires forall k :: k in voters ==> k in End(p).nodes && End(p).nodes[k] == EMPTY_NODE
    ensures Continues(c, p, q) && End(q).sent == End(p).sent + Votes(voters, epoch, root)
    ensures End(q).nodes.Keys == End(p).nodes.Keys
    ensures forall i :: i in End(p).nodes && i !in voters ==> End(q).nodes[i] == End(p).nodes[i]
    decreases |voters|
  {
    hide IsPath, End, Votes;
    if voters == {} {
      q := p;
      NoVotes(epoch, root);
    } else {
      var k :| k in voters;
      var q1 := CastVote(c, p, k, epoch, root);
      q := CastVotes(c, q1, voters - {k}, epoch, root);
      VotesAdd(voters - {k}, k, epoch, root);
      assert voters - {k} + {k} == voters;
    }
  }

  lemma NoVotes(epoch: Epoch, root: Root)
    ensures Votes({}, epoch, root) == {}
  {
  }

  lemma VotesAdd(nodes: set<NodeIndex>, k: NodeIndex, epoch: Epoch, root: Root)
    ensures Votes(nodes + {k}, epoch, root) == Votes(nodes, epoch, root) + {Vote(k, epoch, root)}
  {
  }

  /** The votes a node has in its database for an epoch. */
  function VotesAt(net: Network, x: NodeIndex, epoch: Epoch): Headers {
    if x in net.nodes then GetAttestations(net.nodes[x].db, epoch) else map[]
  }

  ghost predicate Stored(headers: Headers, voters: set<NodeIndex>, epoch: Epoch, root: Root) {
    forall k :: k in voters ==> k in headers && headers[k] == Vote(k, epoch, root)
  }

  lemma DeliverVote(c: Config, p: Path, x: NodeIndex, k: NodeIndex, epoch: Epoch, root: Root) returns (q: Path)
    requires IsPath(c, p) && k in c.eligible && x in End(p).nodes
    requires k in c.correct ==> Vote(k, epoch, root) in End(p).sent
    ensures Continues(c, p, q) && End(q).sent == End(p).sent && x in End(q).nodes
    ensures VotesAt(End(q), x, epoch) == VotesAt(End(p), x, epoch)[k := Vote(k, epoch, root)]
  {
    hide IsPath, End;
    q := Extend(c, p, Deliver(x, Vote(k, epoch, root)));
  }

  /** Votes of eligible nodes reach a node: those of correct nodes once they have been sent, those of
      faulty nodes at any time. */
  lemma {:induction false} DeliverVotes(c: Config, p: Path, x: NodeIndex, voters: set<NodeIndex>, epoch: Epoch, root: Root)
    returns (q: Path)
    requires IsPath(c, p) && voters <= c.eligible && x in End(p).nodes
    requires forall k :: k in voters && k in c.correct ==> Vote(k, epoch, root) in End(p).sent
    ensures Continues(c, p, q) && End(q).sent == End(p).sent && x in End(q).nodes
    ensures Stored(VotesAt(End(q), x, epoch), voters, epoch, root)
    ensures forall k :: k in VotesAt(End(p), x, epoch) && k !in voters ==>
              k in VotesAt(End(q), x, epoch) && VotesAt(End(q), x, epoch)[k] == VotesAt(End(p), x, epoch)[k]
    decreases |voters|
  {
    hide IsPath, End, VotesAt, Vote;
    if voters == {} {
      q := p;
    } else {
      var k :| k in voters;
      var q1 := DeliverVote(c, p, x, k, epoch, root);
      q := DeliverVotes(c, q1, x, voters - {k}, epoch, root);
    }
  }

  /** A node with the votes of a quorum saves their aggregate. */
  lemma SaveVotes(c: Config, p: Path, x: NodeIndex, voters: set<NodeIndex>, epoch: Epoch, root: Root) returns (q: Path)
    requires IsPath(c, p) && |voters| == QuorumSize(|c.eligible|) && x in End(p).nodes
    requires Stored(VotesAt(End(p), x, epoch), voters, epoch, root)
    ensures Continues(c, p, q) && End(q).sent == End(p).sent && Holds(End(q), x, epoch, root)
  {
    hide IsPath, End, QuorumSize;
    var headers := VotesAt(End(p), x, epoch);
    var snapshot := Snapshot(epoch, headers);
    var agg := Aggregate(epoch, root, set k | k in voters && k in headers :: headers[k].signature, voters);
    var q1 := Extend(c, p, ReadAttestations(x, epoch));
    assert snapshot in End(q1).nodes[x].snapshots;
    assert IsAggregate(agg, epoch, headers, |c.eligible|);
    q := Extend(c, q1, SaveAggregate(x, snapshot, agg));
  }

  ghost predicate Holds(net: Network, x: NodeIndex, epoch: Epoch, root: Root) {
    x in net.nodes && epoch in net.nodes[x].db.aggregates && net.nodes[x].db.aggregates[epoch].root == root
  }

  /** All votes of two quorums are cast. */
  lemma CastBoth(c: Config, a: set<NodeIndex>, b: set<NodeIndex>, epoch: Epoch, r1: Root, r2: Root) returns (p: Path)
    requires a <= c.eligible && b <= c.eligible && a * b <= c.eligible - c.correct
    ensures IsPath(c, p) && End(p).nodes.Keys == c.correct
    ensures forall k :: k in a && k in c.correct ==> Vote(k, epoch, r1) in End(p).sent
    ensures forall k :: k in b && k in c.correct ==> Vote(k, epoch, r2) in End(p).sent
  {
    hide IsRun, Votes;
    var p0 := Path([Initial(c)], []);
    InitialIsRun(c);
    var p1 := CastVotes(c, p0, a * c.correct, epoch, r1);
    p := CastVotes(c, p1, b * c.correct, epoch, r2);
    VotesWereSent(c, a, epoch, r1, End(p).sent);
    VotesWereSent(c, b, epoch, r2, End(p).sent);
  }

  lemma InitialIsRun(c: Config)
    ensures IsRun(c, [Initial(c)], [])
  {
  }

  lemma VotesWereSent(c: Config, voters: set<NodeIndex>, epoch: Epoch, root: Root, sent: set<Attestation>)
    requires Votes(voters * c.correct, epoch, root) <= sent
    ensures forall k :: k in voters && k in c.correct ==> Vote(k, epoch, root) in sent
  {
    forall k | k in voters && k in c.correct ensures Vote(k, epoch, root) in sent {
      assert k in voters * c.correct;
      assert Vote(k, epoch, root) in Votes(voters * c.correct, epoch, root);
    }
  }

  /** For every configuration with a correct node and too many faulty ones, every epoch and any two
      roots, there is a run in which that node holds one aggregate and later the other. */
  lemma DisagreementRun(c: Config, x: NodeIndex, epoch: Epoch, r1: Root, r2: Root) returns (p: Path, j: nat)
    requires x in c.correct && r1 != r2 && |c.eligible - c.correct| >= Overlap(|c.eligible|)
    ensures j < |p.trace| && Disagree(c, p.trace, p.events, j, |p.trace| - 1, x, x, epoch)
  {
    hide IsRun, Overlap, QuorumSize, Stored, VotesAt, Vote;
    var a, b := QuorumsMayShareOnlyFaulty(c.eligible, c.eligible - c.correct);
    var p0 := CastBoth(c, a, b, epoch, r1, r2);
    var p1 := DeliverVotes(c, p0, x, a, epoch, r1);
    var p2 := SaveVotes(c, p1, x, a, epoch, r1);
    var p3 := DeliverVotes(c, p2, x, b, epoch, r2);
    p := SaveVotes(c, p3, x, b, epoch, r2);
    j := |p2.trace| - 1;
    assert p.trace[j] == p3.trace[j] == End(p2);
  }

  /** A network with at least one correct node always agrees if and only if it has fewer faulty eligible
      nodes than two quorums must share. */
  lemma AgreesExactly(c: Config)
    requires c.correct != {}
    ensures AlwaysAgrees(c) <==> |c.eligible - c.correct| < Overlap(|c.eligible|)
  {
    hide IsRun, Overlap;
    if |c.eligible - c.correct| < Overlap(|c.eligible|) {
      forall trace, events, j, k, x, y, epoch ensures !Disagree(c, trace, events, j, k, x, y, epoch) {
        if Disagree(c, trace, events, j, k, x, y, epoch) {
          Agreement(c, trace, events, j, k, x, y, epoch);
          assert false;
        }
      }
    } else {
      var x :| x in c.correct;
      var p, j := DisagreementRun(c, x, 0, 0, 1);
      assert Disagree(c, p.trace, p.events, j, |p.trace| - 1, x, x, 0);
    }
  }
}
