/** The application's execution of a block, as far as the archive sees it: the response with its
    receipts, and the tip the next block builds on. */
module BlockExecution {
  import opened Common
  import opened BlockCodec

  datatype Outcome = Success(epochChange: bool) | Revert(error: nat)

  datatype TxReceipt = TxReceipt(
    blockHash: Digest, number: nat, index: nat, hash: Digest, outcome: Outcome, event: Option<nat>)

  datatype Response = Response(
    number: nat, blockHash: Digest, parent: Digest, changeEpoch: bool, registryChanges: seq<nat>,
    receipts: seq<TxReceipt>, previousRoot: Digest, newRoot: Digest)

  /** The state after the last executed block, as far as it is recorded in the metadata. */
  datatype Tip = Tip(hash: Digest, number: nat, subDagIndex: nat, subDagRound: nat, epochEra: nat)

  /** The transactions' hashes, results and events, the committee and the state tree are the
      executor's business: arbitrary functions of the tip and the block. */
  datatype Executor = Executor(
    hash: Request -> Digest,
    outcome: (Tip, Block, nat) -> Outcome,
    event: Request -> Option<nat>,
    registryChanges: (Tip, Block) -> Option<seq<nat>>,
    membersChange: (Tip, Block) -> bool,
    rootBefore: Tip -> Digest,
    rootAfter: (Tip, Block) -> Digest)

  function ReceiptOf(x: Executor, tip: Tip, b: Block, i: nat): TxReceipt
    requires i < |b.transactions|
  {
    var outcome := x.outcome(tip, b, i);
    TxReceipt(b.digest, tip.number + 1, i, x.hash(b.transactions[i]), outcome,
              if outcome.Success? then x.event(b.transactions[i]) else None)
  }

  ghost predicate ChangesEpoch(x: Executor, tip: Tip, b: Block) {
    exists i: nat :: i < |b.transactions| && x.outcome(tip, b, i) == Success(true)
  }

  /** What executing a block on a tip responds. */
  ghost predicate Responds(x: Executor, tip: Tip, b: Block, r: Response) {
    && r.number == tip.number + 1 && r.blockHash == b.digest && r.parent == tip.hash
    && r.previousRoot == x.rootBefore(tip) && r.newRoot == x.rootAfter(tip, b)
    && (r.changeEpoch <==> ChangesEpoch(x, tip, b))
    && r.registryChanges == (var changes := x.registryChanges(tip, b); if changes.Some? then changes.value else [])
    && |r.receipts| == |b.transactions|
    && forall i: nat :: i < |r.receipts| ==> r.receipts[i] == ReceiptOf(x, tip, b, i)
  }

  /** The sub-dag position starts over with a new committee, and a changed committee is a new era. */
  ghost predicate Advances(x: Executor, tip: Tip, b: Block, next: Tip) {
    && next.hash == b.digest && next.number == tip.number + 1
    && (if ChangesEpoch(x, tip, b) || x.membersChange(tip, b)
        then next.subDagIndex == 0 && next.subDagRound == 0
        else next.subDagIndex == b.subDagIndex && next.subDagRound == b.subDagRound)
    && next.epochEra == tip.epochEra + if x.membersChange(tip, b) then 1 else 0
  }

  method RunBlock(x: Executor, tip: Tip, b: Block) returns (r: Response, next: Tip)
    ensures Responds(x, tip, b, r) && Advances(x, tip, b, next)
  {
    var number := tip.number + 1;
    var changeEpoch := false;
    var receipts: seq<TxReceipt> := [];
    var i := 0;
    while i < |b.transactions|
      invariant i <= |b.transactions| && |receipts| == i
      invariant forall k: nat :: k < i ==> receipts[k] == ReceiptOf(x, tip, b, k)
      invariant changeEpoch <==> exists k: nat :: k < i && x.outcome(tip, b, k) == Success(true)
    {
      var outcome := x.outcome(tip, b, i);
      if outcome == Success(true) {
        changeEpoch := true;
      }
      var event := None;
      if outcome.Success? {
        event := x.event(b.transactions[i]);
      }
      receipts := receipts + [TxReceipt(b.digest, number, i, x.hash(b.transactions[i]), outcome, event)];
      i := i + 1;
    }
    var registryChanges := [];
    if x.registryChanges(tip, b).Some? {
      registryChanges := x.registryChanges(tip, b).value;
    }
    var era := tip.epochEra;
    if x.membersChange(tip, b) {
      era := era + 1;
    }
    var index, round := b.subDagIndex, b.subDagRound;
    if changeEpoch || x.membersChange(tip, b) {
      index, round := 0, 0;
    }
    next := Tip(b.digest, number, index, round, era);
    r := Response(number, b.digest, tip.hash, changeEpoch, registryChanges, receipts, x.rootBefore(tip),
                  x.rootAfter(tip, b));
  }

  datatype Executed = Executed(block: Block, response: Response)

  ghost predicate WasExecuted(x: Executor, e: Executed) {
    exists tip :: Responds(x, tip, e.block, e.response)
  }

  /** The receipts of an executed block carry its digest and the hashes of its transactions. */
  lemma ReceiptsMatch(x: Executor, e: Executed, k: nat)
    requires WasExecuted(x, e)
    ensures e.response.blockHash == e.block.digest
    ensures |e.response.receipts| == |e.block.transactions|
    ensures k < |e.block.transactions| ==>
              var r := e.response.receipts[k];
              r.hash == x.hash(e.block.transactions[k]) && r.index == k && r.blockHash == e.block.digest
  {
    var tip :| Responds(x, tip, e.block, e.response);
  }

  /** Blocks executed one after another, with the tips between them. */
  ghost predicate IsChain(x: Executor, tips: seq<Tip>, es: seq<Executed>) {
    && |tips| == |es| + 1
    && forall i :: 0 <= i < |es| ==>
         Responds(x, tips[i], es[i].block, es[i].response) && Advances(x, tips[i], es[i].block, tips[i + 1])
  }

  /** Block numbers are consecutive, so no two are equal, and every block names its predecessor. */
  lemma {:induction false} NumbersAreConsecutive(x: Executor, tips: seq<Tip>, es: seq<Executed>, i: nat)
    requires IsChain(x, tips, es) && i < |es|
    ensures es[i].response.number == tips[0].number + 1 + i
    ensures es[i].response.parent == if i == 0 then tips[0].hash else es[i - 1].block.digest
    decreases i
  {
    hide ReceiptOf, ChangesEpoch;
    assert Responds(x, tips[i], es[i].block, es[i].response);
    if i == 0 {
    } else {
      assert Responds(x, tips[i - 1], es[i - 1].block, es[i - 1].response);
      assert Advances(x, tips[i - 1], es[i - 1].block, tips[i]);
      NumbersAreConsecutive(x, tips, es, i - 1);
    }
  }
}
