/** One checkpointing node as an object over its database, each handler proved against the
    network model's functions. */
module CheckpointerObject {
  import opened Common
  import opened AggregateBuilder
  import opened CheckpointNetwork

  /** What one aggregation does to a database: it saves an aggregate for the epoch exactly when
      some root has a supermajority, and touches nothing else. */
  ghost predicate Aggregated(db: Db, epoch: Epoch, nodesCount: nat, db': Db) {
    var headers := GetAttestations(db, epoch);
    && db'.attestations == db.attestations
    && if exists root :: HasSupermajority(headers, root, nodesCount) then
         && epoch in db'.aggregates
         && IsAggregate(db'.aggregates[epoch], epoch, headers, nodesCount)
         && db'.aggregates == db.aggregates[epoch := db'.aggregates[epoch]]
       else db' == db
  }

  class Checkpointer {
    const nodeId: NodeIndex
    var attestations: map<Epoch, Headers>
    var aggregates: map<Epoch, Aggregate>

    ghost function View(): Db
      reads this
    {
      Db(attestations, aggregates)
    }

    ghost predicate Valid()
      reads this
    {
      forall e :: e in attestations ==> KeyedByNode(attestations[e])
    }

    constructor (nodeId: NodeIndex)
      ensures View() == EMPTY_NODE.db && this.nodeId == nodeId
      ensures Valid()
    {
      this.nodeId := nodeId;
      attestations, aggregates := map[], map[];
    }

    method SetAttestation(epoch: Epoch, att: Attestation)
      requires Valid()
      modifies this`attestations
      ensures View() == SetNodeAttestation(old(View()), epoch, att)
      ensures Valid()
    {
      var headers := if epoch in attestations then attestations[epoch] else map[];
      headers := headers[att.content.node := att];
      attestations := attestations[epoch := headers];
    }

    method BuildAndSaveAggregateIfSupermajority(epoch: Epoch, nodesCount: nat)
      requires Valid()
      modifies this`aggregates
      ensures Valid() && Aggregated(old(View()), epoch, nodesCount, View())
    {
      var headers := if epoch in attestations then attestations[epoch] else map[];
      var agg := BuildAggregate(epoch, headers, nodesCount);
      if agg.Some? {
        aggregates := aggregates[epoch := agg.value];
      }
    }

    /** Signs and broadcasts at most once: nothing happens for an ineligible node, or if the
        database already holds this node's attestation for the epoch. */
    method HandleEpochChanged(epoch: Epoch, previousRoot: Root, nextRoot: Root, stateDigest: nat,
                              eligible: set<NodeIndex>) returns (sent: Option<Attestation>)
      requires Valid()
      modifies this`attestations, this`aggregates
      ensures Valid()
      ensures var content := Content(epoch, nodeId, previousRoot, nextRoot, stateDigest);
              var att := Attestation(content, Signed(nodeId, content));
              if nodeId !in eligible || GetNodeAttestation(old(View()), epoch, nodeId).Some? then
                sent.None? && View() == old(View())
              else
                && sent == Some(att)
                && epoch in attestations && nodeId in attestations[epoch] && attestations[epoch][nodeId] == att
                && Aggregated(SetNodeAttestation(old(View()), epoch, att), epoch, |eligible|, View())
    {
      if nodeId !in eligible {
        return None;
      }
      if epoch in attestations && nodeId in attestations[epoch] {
        return None;
      }
      var att := Attestation(Content(epoch, nodeId, previousRoot, nextRoot, stateDigest), Unsigned);
      att := att.(signature := Signed(nodeId, att.content));
      SetAttestation(epoch, att);
      sent := Some(att);
      BuildAndSaveAggregateIfSupermajority(epoch, |eligible|);
    }

    /** Stores an attestation only from an eligible node with a valid signature. */
    method HandleIncoming(att: Attestation, eligible: set<NodeIndex>)
      requires Valid()
      modifies this`attestations, this`aggregates
      ensures Valid()
      ensures var stored := Accept(Config(eligible, {}), old(View()), att);
              if att.content.node in eligible && att.signature == Signed(att.content.node, att.content)
              then
                && att.content.epoch in attestations && att.content.node in attestations[att.content.epoch]
                && attestations[att.content.epoch][att.content.node] == att
                && Aggregated(stored, att.content.epoch, |eligible|, View())
              else View() == old(View())
    {
      if att.content.node !in eligible {
        return;
      }
      if !ValidSignature(att) {
        return;
      }
      SetAttestation(att.content.epoch, att);
      BuildAndSaveAggregateIfSupermajority(att.content.epoch, |eligible|);
    }
  }
}
