/** Building an aggregate checkpoint from the attestations a node has stored. */
module AggregateBuilder {
  import opened Common
  import opened Quorum

  type NodeIndex = nat
  type Epoch = nat
  type Root = nat

  /** What an attestation signs: everything but the signature itself. */
  datatype Content = Content(epoch: Epoch, node: NodeIndex, previousRoot: Root, nextRoot: Root, stateDigest: nat)

  /** An ideal signature: it names its signer and what was signed. */
  datatype Signature = Unsigned | Signed(signer: NodeIndex, content: Content)

  datatype Attestation = Attestation(content: Content, signature: Signature)

  /** The aggregate signature is modelled by the set of signatures it aggregates. */
  datatype Aggregate = Aggregate(epoch: Epoch, root: Root, signatures: set<Signature>, nodes: set<NodeIndex>)

  type Headers = map<NodeIndex, Attestation>

  function Attesters(headers: Headers, root: Root): set<NodeIndex> {
    set k | k in headers && headers[k].content.nextRoot == root
  }

  ghost predicate HasSupermajority(headers: Headers, root: Root, nodesCount: nat) {
    |Attesters(headers, root)| > 2 * nodesCount / 3
  }

  /** What may be saved: the smallest supermajority of attesters for one root, whichever the
      iteration order happened to meet first. */
  ghost predicate IsAggregate(agg: Aggregate, epoch: Epoch, headers: Headers, nodesCount: nat) {
    && agg.epoch == epoch
    && agg.nodes <= Attesters(headers, agg.root)
    && |agg.nodes| == QuorumSize(nodesCount)
    && agg.signatures == set k | k in agg.nodes && k in headers :: headers[k].signature
  }

  /** The database keys attestations by the node that made them. */
  ghost predicate KeyedByNode(headers: Headers) {
    forall k :: k in headers ==> headers[k].content.node == k
  }

  lemma {:induction false} SameSize(atts: set<Attestation>, nodes: set<NodeIndex>)
    requires nodes == set a | a in atts :: a.content.node
    requires forall a, b :: a in atts && b in atts && a.content.node == b.content.node ==> a == b
    ensures |nodes| == |atts|
    decreases |atts|
  {
    if atts != {} {
      var a :| a in atts;
      var rest := nodes - {a.content.node};
      assert rest == set b | b in atts - {a} :: b.content.node;
      SameSize(atts - {a}, rest);
    } else {
      assert nodes == {};
    }
  }

  /** The attestations among the keys seen so far that agree on one root. */
  ghost function Seen(headers: Headers, keys: set<NodeIndex>, root: Root): set<Attestation> {
    set k | k in keys && k in headers && headers[k].content.nextRoot == root :: headers[k]
  }

  lemma SeenSize(headers: Headers, keys: set<NodeIndex>, root: Root)
    requires KeyedByNode(headers) && keys <= headers.Keys
    ensures |Seen(headers, keys, root)| == |keys * Attesters(headers, root)|
  {
    var atts, nodes := Seen(headers, keys, root), keys * Attesters(headers, root);
    assert nodes == set a | a in atts :: a.content.node by {
      forall k | k in nodes ensures k in set a | a in atts :: a.content.node {
        assert headers[k] in atts;
      }
    }
    SameSize(atts, nodes);
  }

  function GroupOf(groups: map<Root, set<Attestation>>, root: Root): set<Attestation> {
    if root in groups then groups[root] else {}
  }

  /** The groups built so far hold the attestations seen so far, and none is above the threshold. */
  ghost predicate Grouped(groups: map<Root, set<Attestation>>, headers: Headers, seen: set<NodeIndex>) {
    forall root :: GroupOf(groups, root) == Seen(headers, seen, root)
  }

  ghost predicate AllBelow(headers: Headers, seen: set<NodeIndex>, nodesCount: nat) {
    forall root :: |Seen(headers, seen, root)| <= 2 * nodesCount / 3
  }

  /** Scans the attestations in an arbitrary order and stops at the first root above the
      threshold. Whatever the order, an aggregate comes out exactly when some root has a
      supermajority, and it carries the fewest attesters that make one. */
  method BuildAggregate(epoch: Epoch, headers: Headers, nodesCount: nat) returns (agg: Option<Aggregate>)
    requires KeyedByNode(headers)
    ensures agg.None? <==> forall root :: !HasSupermajority(headers, root, nodesCount)
    ensures agg.Some? ==> IsAggregate(agg.value, epoch, headers, nodesCount)
  {
    hide Seen, Grouped, AllBelow, Attesters, HasSupermajority, IsAggregate, KeyedByNode;
    var headersByStateRoot: map<Root, set<Attestation>> := map[];
    var remaining := headers.Keys;
    ghost var seen: set<NodeIndex> := {};
    SeenNothing(headers, nodesCount);
    while remaining != {}
      invariant remaining !! seen && remaining + seen == headers.Keys
      invariant Grouped(headersByStateRoot, headers, seen) && AllBelow(headers, seen, nodesCount)
      decreases |remaining|
    {
      var k :| k in remaining;
      var root := headers[k].content.nextRoot;
      var group := GroupOf(headersByStateRoot, root) + {headers[k]};
      GroupGrows(headersByStateRoot, headers, seen, k, nodesCount);
      headersByStateRoot := headersByStateRoot[root := group];
      remaining, seen := remaining - {k}, seen + {k};
      if |group| > 2 * nodesCount / 3 {
        var nodes := set a | a in group :: a.content.node;
        var signatures := set a | a in group :: a.signature;
        GroupIsAggregate(epoch, headers, seen, root, nodesCount, nodes, signatures);
        return Some(Aggregate(epoch, root, signatures, nodes));
      }
    }
    assert seen == headers.Keys;
    SeenAllBelow(headers, nodesCount);
    agg := None;
  }

  lemma SeenNothing(headers: Headers, nodesCount: nat)
    ensures Grouped(map[], headers, {}) && AllBelow(headers, {}, nodesCount)
  {
    assert forall root :: Seen(headers, {}, root) == {};
  }

  lemma SeenAllBelow(headers: Headers, nodesCount: nat)
    requires KeyedByNode(headers) && AllBelow(headers, headers.Keys, nodesCount)
    ensures forall root :: !HasSupermajority(headers, root, nodesCount)
  {
    forall root ensures !HasSupermajority(headers, root, nodesCount) {
      SeenSize(headers, headers.Keys, root);
      assert headers.Keys * Attesters(headers, root) == Attesters(headers, root);
    }
  }

  lemma GroupGrows(groups: map<Root, set<Attestation>>, headers: Headers, seen: set<NodeIndex>, k: NodeIndex,
                   nodesCount: nat)
    requires KeyedByNode(headers) && seen <= headers.Keys && k in headers && k !in seen
    requires Grouped(groups, headers, seen) && AllBelow(headers, seen, nodesCount)
    ensures var root := headers[k].content.nextRoot;
            var group := GroupOf(groups, root) + {headers[k]};
            && Grouped(groups[root := group], headers, seen + {k})
            && group == Seen(headers, seen + {k}, root)
            && |group| <= QuorumSize(nodesCount)
            && (|group| <= 2 * nodesCount / 3 ==> AllBelow(headers, seen + {k}, nodesCount))
  {
    hide Seen, KeyedByNode;
    SeenGrows(headers, seen, k);
  }

  lemma SeenGrows(headers: Headers, keys: set<NodeIndex>, k: NodeIndex)
    requires KeyedByNode(headers) && keys <= headers.Keys && k in headers && k !in keys
    ensures forall root :: Seen(headers, keys + {k}, root) ==
                           if root == headers[k].content.nextRoot then Seen(headers, keys, root) + {headers[k]}
                           else Seen(headers, keys, root)
    ensures headers[k] !in Seen(headers, keys, headers[k].content.nextRoot)
  {
  }

  lemma GroupIsAggregate(epoch: Epoch, headers: Headers, keys: set<NodeIndex>, root: Root, nodesCount: nat,
                         nodes: set<NodeIndex>, signatures: set<Signature>)
    requires KeyedByNode(headers) && keys <= headers.Keys
    requires |Seen(headers, keys, root)| == QuorumSize(nodesCount)
    requires nodes == set a | a in Seen(headers, keys, root) :: a.content.node
    requires signatures == set a | a in Seen(headers, keys, root) :: a.signature
    ensures IsAggregate(Aggregate(epoch, root, signatures, nodes), epoch, headers, nodesCount)
    ensures HasSupermajority(headers, root, nodesCount)
  {
    SeenSize(headers, keys, root);
    assert nodes == keys * Attesters(headers, root) by {
      forall k | k in keys * Attesters(headers, root) ensures k in nodes {
        assert headers[k] in Seen(headers, keys, root);
      }
    }
    SubsetSize(nodes, Attesters(headers, root));
    forall sig | sig in signatures ensures exists k :: k in nodes && headers[k].signature == sig {
      var a :| a in Seen(headers, keys, root) && a.signature == sig;
      assert headers[a.content.node] == a && a.content.node in nodes;
    }
    forall k | k in nodes ensures headers[k].signature in signatures {
      assert headers[k] in Seen(headers, keys, root);
    }
  }

  /** When only eligible nodes have attested, no second root can have a supermajority, so the
      aggregate does not depend on the iteration order for its root. */
  lemma SupermajorityRootIsUnique(headers: Headers, eligible: set<NodeIndex>, r1: Root, r2: Root)
    requires headers.Keys <= eligible
    requires HasSupermajority(headers, r1, |eligible|) && HasSupermajority(headers, r2, |eligible|)
    ensures r1 == r2
  {
    var a, b := Attesters(headers, r1), Attesters(headers, r2);
    InclusionExclusion(a, b, eligible);
    assert |a * b| > 0;
    var k :| k in a * b;
  }
}
