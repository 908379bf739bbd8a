/** The archive's key-value indexes over the blocks the application has executed, against a scan of
    the plain list of those blocks. */
module Archive {
  import opened Common
  import opened BlockCodec
  import opened BlockExecution

  // --- the store ------------------------------------------------------------------------------

  datatype Store = Store(
    blocks: map<Bytes, Bytes>,
    hashes: map<Digest, Bytes>,
    earliest: Option<Bytes>,
    latest: Option<Bytes>,
    receipts: map<Digest, TxReceipt>)

  const EMPTY := Store(map[], map[], None, None, map[])

  function Hashes(rs: seq<TxReceipt>): seq<Digest> {
    seq(|rs|, i requires 0 <= i < |rs| => rs[i].hash)
  }

  function InfoOf(e: Executed): BlockInfo {
    var r := e.response;
    BlockInfo(e.block, BlockReceipt(r.number, r.blockHash, r.parent, r.changeEpoch, r.registryChanges, Hashes(r.receipts)))
  }

  function PutReceipts(m: map<Digest, TxReceipt>, rs: seq<TxReceipt>): map<Digest, TxReceipt> {
    if rs == [] then m
    else PutReceipts(m, rs[..|rs| - 1])[rs[|rs| - 1].hash := rs[|rs| - 1]]
  }

  function HandleBlock(c: Codec, s: Store, e: Executed): Store {
    var key := Le64(e.response.number);
    Store(s.blocks[key := PutInfo(c, InfoOf(e))],
          s.hashes[e.response.blockHash := key],
          if s.earliest.None? then Some(key) else s.earliest,
          Some(key),
          PutReceipts(s.receipts, e.response.receipts))
  }

  function StoreOf(c: Codec, es: seq<Executed>): Store {
    if es == [] then EMPTY else HandleBlock(c, StoreOf(c, es[..|es| - 1]), es[|es| - 1])
  }

  // --- lookups --------------------------------------------------------------------------------

  datatype BlockTag = Latest | Finalized | Safe | Earliest | Number(number: nat) | Pending

  function ByKey(c: Codec, s: Store, key: Bytes): Option<BlockInfo> {
    if key !in s.blocks then None
    else
      var info := GetInfo(c, s.blocks[key]);
      if info.Ok? then Some(info.value) else None
  }

  function ByHash(c: Codec, s: Store, hash: Digest): Option<BlockInfo> {
    if hash in s.hashes then ByKey(c, s, s.hashes[hash]) else None
  }

  function ByTag(c: Codec, s: Store, tag: BlockTag): Option<BlockInfo> {
    match tag
    case Latest => if s.latest.Some? then ByKey(c, s, s.latest.value) else None
    case Finalized => if s.latest.Some? then ByKey(c, s, s.latest.value) else None
    case Safe => if s.latest.Some? then ByKey(c, s, s.latest.value) else None
    case Earliest => if s.earliest.Some? then ByKey(c, s, s.earliest.value) else None
    case Number(n) => ByKey(c, s, Le64(n))
    case Pending => None
  }

  function GetTransaction(c: Codec, s: Store, hash: Digest): Option<Request> {
    if hash !in s.receipts then None
    else
      var receipt := s.receipts[hash];
      var info := ByHash(c, s, receipt.blockHash);
      if info.None? || receipt.index >= |info.value.block.transactions| then None
      else Some(info.value.block.transactions[receipt.index])
  }

  // --- the plain list -------------------------------------------------------------------------

  /** Where a transaction hash occurs last in a list of receipts. */
  function LastIn(rs: seq<TxReceipt>, hash: Digest): (k: Option<nat>)
    ensures k.Some? ==> k.value < |rs| && rs[k.value].hash == hash
  {
    if rs == [] then None
    else if rs[|rs| - 1].hash == hash then Some(|rs| - 1)
    else LastIn(rs[..|rs| - 1], hash)
  }

  /** The block and index where a transaction hash occurs last. */
  function LastTx(es: seq<Executed>, hash: Digest): (p: Option<(nat, nat)>)
    ensures p.Some? ==> p.value.0 < |es| && p.value.1 < |es[p.value.0].response.receipts|
                        && es[p.value.0].response.receipts[p.value.1].hash == hash
  {
    if es == [] then None
    else
      var k := LastIn(es[|es| - 1].response.receipts, hash);
      if k.Some? then Some((|es| - 1, k.value)) else LastTx(es[..|es| - 1], hash)
  }

  /** The transaction at a position is the hash's, by the executor's hash function. */
  ghost predicate HasTx(x: Executor, es: seq<Executed>, hash: Digest, i: nat, k: nat) {
    i < |es| && k < |es[i].block.transactions| && x.hash(es[i].block.transactions[k]) == hash
  }

  ghost predicate Distinct(es: seq<Executed>) {
    forall i, j :: 0 <= i < j < |es| ==>
      es[i].block.digest != es[j].block.digest && es[i].response.number != es[j].response.number
  }

  ghost predicate Storable(c: Codec, x: Executor, e: Executed) {
    WasExecuted(x, e) && e.response.number < U64_RANGE && HoldableInfo(c, InfoOf(e))
  }

  /** Executed blocks with distinct numbers and hashes, in any order and with any gaps: blocks may
      have been missed. */
  ghost predicate Readable(c: Codec, x: Executor, es: seq<Executed>) {
    Sound(c) && Distinct(es) && forall i :: 0 <= i < |es| ==> Storable(c, x, es[i])
  }

  lemma {:induction false} LastInIsLast(rs: seq<TxReceipt>, hash: Digest)
    ensures LastIn(rs, hash).None? ==> forall k :: 0 <= k < |rs| ==> rs[k].hash != hash
    ensures LastIn(rs, hash).Some? ==> forall k :: LastIn(rs, hash).value < k < |rs| ==> rs[k].hash != hash
    decreases |rs|
  {
    if rs == [] {
    } else {
      LastInIsLast(rs[..|rs| - 1], hash);
    }
  }

  lemma {:induction false} PutReceiptsKeepsLast(m: map<Digest, TxReceipt>, rs: seq<TxReceipt>, hash: Digest)
    ensures var after, k := PutReceipts(m, rs), LastIn(rs, hash);
            && (hash in after <==> k.Some? || hash in m)
            && (k.Some? ==> after[hash] == rs[k.value])
            && (k.None? && hash in m ==> after[hash] == m[hash])
    decreases |rs|
  {
    if rs == [] {
    } else {
      PutReceiptsKeepsLast(m, rs[..|rs| - 1], hash);
    }
  }

  // --- refinement -----------------------------------------------------------------------------

  ghost predicate Indexes(c: Codec, s: Store, es: seq<Executed>) {
    && (forall i :: 0 <= i < |es| ==> HasBlock(c, s, es[i]))
    && (forall key :: key in s.blocks ==> exists i :: 0 <= i < |es| && Le64(es[i].response.number) == key)
    && (forall d :: d in s.hashes ==> exists i :: 0 <= i < |es| && es[i].response.blockHash == d)
    && s.earliest == (if es == [] then None else Some(Le64(es[0].response.number)))
    && s.latest == (if es == [] then None else Some(Le64(es[|es| - 1].response.number)))
    && (forall h :: ReceiptIsLast(s, es, h))
  }

  ghost predicate HasBlock(c: Codec, s: Store, e: Executed) {
    var key := Le64(e.response.number);
    && key in s.blocks && s.blocks[key] == PutInfo(c, InfoOf(e))
    && e.response.blockHash in s.hashes && s.hashes[e.response.blockHash] == key
  }

  ghost predicate ReceiptIsLast(s: Store, es: seq<Executed>, hash: Digest) {
    var p := LastTx(es, hash);
    && (hash in s.receipts <==> p.Some?)
    && (p.Some? ==> s.receipts[hash] == es[p.value.0].response.receipts[p.value.1])
  }

  lemma KeysDiffer(m: nat, n: nat)
    requires m < U64_RANGE && n < U64_RANGE && m != n
    ensures Le64(m) != Le64(n)
  {
    Le64RoundTrip(m);
    Le64RoundTrip(n);
  }

  lemma PrefixReadable(c: Codec, x: Executor, es: seq<Executed>)
    requires Readable(c, x, es) && es != []
    ensures Readable(c, x, es[..|es| - 1])
  {
    hide Storable, Sound;
    assert forall i :: 0 <= i < |es| - 1 ==> es[..|es| - 1][i] == es[i];
  }

  lemma OlderBlocksStay(c: Codec, x: Executor, es: seq<Executed>, s: Store, i: nat)
    requires Readable(c, x, es) && i < |es| - 1 && HasBlock(c, s, es[i])
    ensures HasBlock(c, HandleBlock(c, s, es[|es| - 1]), es[i])
  {
    hide HoldableInfo, Le64, PutInfo, Sound, WasExecuted, InfoOf, PutReceipts;
    var n := |es| - 1;
    assert Storable(c, x, es[i]) && Storable(c, x, es[n]);
    ReceiptsMatch(x, es[i], 0);
    ReceiptsMatch(x, es[n], 0);
    KeysDiffer(es[i].response.number, es[n].response.number);
  }

  lemma {:induction false} StoreIndexes(c: Codec, x: Executor, es: seq<Executed>)
    requires Readable(c, x, es)
    ensures Indexes(c, StoreOf(c, es), es)
    decreases |es|
  {
    hide Readable, HasBlock, ReceiptIsLast, Le64, PutInfo, PutReceipts, LastTx;
    if es == [] {
      EmptyIndexes(c);
    } else {
      var n := |es| - 1;
      var front, e := es[..n], es[n];
      PrefixReadable(c, x, es);
      StoreIndexes(c, x, front);
      var s, s' := StoreOf(c, front), StoreOf(c, es);
      forall i | 0 <= i < |es| ensures HasBlock(c, s', es[i]) {
        if i < n {
          assert HasBlock(c, s, front[i]);
          OlderBlocksStay(c, x, es, s, i);
        } else {
          NewBlockIsThere(c, s, e);
        }
      }
      forall key | key in s'.blocks ensures exists i :: 0 <= i < |es| && Le64(es[i].response.number) == key {
        if key == Le64(e.response.number) {
          assert Le64(es[n].response.number) == key;
        } else {
          var i :| 0 <= i < n && Le64(front[i].response.number) == key;
          assert Le64(es[i].response.number) == key;
        }
      }
      forall d | d in s'.hashes ensures exists i :: 0 <= i < |es| && es[i].response.blockHash == d {
        if d == e.response.blockHash {
          assert es[n].response.blockHash == d;
        } else {
          var i :| 0 <= i < n && front[i].response.blockHash == d;
          assert es[i].response.blockHash == d;
        }
      }
      forall h ensures ReceiptIsLast(s', es, h) {
        ReceiptsStayLast(c, es, s, h);
      }
    }
  }

  lemma EmptyIndexes(c: Codec)
    ensures Indexes(c, EMPTY, [])
  {
  }

  lemma NewBlockIsThere(c: Codec, s: Store, e: Executed)
    ensures HasBlock(c, HandleBlock(c, s, e), e)
  {
  }

  lemma ReceiptsStayLast(c: Codec, es: seq<Executed>, s: Store, hash: Digest)
    requires es != [] && ReceiptIsLast(s, es[..|es| - 1], hash)
    ensures ReceiptIsLast(HandleBlock(c, s, es[|es| - 1]), es, hash)
  {
    hide PutInfo, Le64, PutReceipts, LastIn;
    PutReceiptsKeepsLast(s.receipts, es[|es| - 1].response.receipts, hash);
  }

  /** What the block at a position of the list looks like through the archive. */
  lemma BlockIsRead(c: Codec, x: Executor, es: seq<Executed>, i: nat)
    requires Readable(c, x, es) && i < |es|
    ensures ByKey(c, StoreOf(c, es), Le64(es[i].response.number)) == Some(InfoOf(es[i]))
    ensures ByHash(c, StoreOf(c, es), es[i].block.digest) == Some(InfoOf(es[i]))
  {
    hide StoreOf, Le64, PutInfo, GetInfo, Sound, HoldableInfo, WasExecuted, ReceiptIsLast, InfoOf;
    StoreIndexes(c, x, es);
    assert Storable(c, x, es[i]);
    assert HasBlock(c, StoreOf(c, es), es[i]);
    ReceiptsMatch(x, es[i], 0);
    var info := InfoOf(es[i]);
    InfoRoundTrip(c, info, []);
    assert PutInfo(c, info) + [] == PutInfo(c, info);
  }

  /** The entry a scan of the list by number or by hash finds. */
  ghost predicate HasNumber(es: seq<Executed>, n: nat, i: int) {
    0 <= i < |es| && es[i].response.number == n
  }

  ghost predicate HasHash(es: seq<Executed>, hash: Digest, i: int) {
    0 <= i < |es| && es[i].block.digest == hash
  }

  /** Lookups by number, hash and tag agree with a scan of the list, whatever blocks it holds. */
  lemma LookupsAgreeWithList(c: Codec, x: Executor, es: seq<Executed>, n: nat, hash: Digest)
    requires Readable(c, x, es) && n < U64_RANGE
    ensures var s := StoreOf(c, es);
            && (forall i :: HasNumber(es, n, i) ==> ByTag(c, s, Number(n)) == Some(InfoOf(es[i])))
            && ((forall i :: !HasNumber(es, n, i)) ==> ByTag(c, s, Number(n)) == None)
            && (forall i :: HasHash(es, hash, i) ==> ByHash(c, s, hash) == Some(InfoOf(es[i])))
            && ((forall i :: !HasHash(es, hash, i)) ==> ByHash(c, s, hash) == None)
            && ByTag(c, s, Earliest) == (if es == [] then None else Some(InfoOf(es[0])))
            && ByTag(c, s, Latest) == (if es == [] then None else Some(InfoOf(es[|es| - 1])))
            && ByTag(c, s, Finalized) == ByTag(c, s, Safe) == ByTag(c, s, Latest)
            && ByTag(c, s, Pending) == None
  {
    hide StoreOf, ByKey, ByHash, Readable, ReceiptIsLast, HasBlock, Le64, InfoOf, HasNumber, HasHash;
    var s := StoreOf(c, es);
    StoreIndexes(c, x, es);
    if es != [] {
      BlockIsRead(c, x, es, 0);
      BlockIsRead(c, x, es, |es| - 1);
    }
    NumberIsFound(c, x, es, n);
    HashIsFound(c, x, es, hash);
  }

  lemma NumberIsFound(c: Codec, x: Executor, es: seq<Executed>, n: nat)
    requires Readable(c, x, es) && n < U64_RANGE
    ensures forall i :: HasNumber(es, n, i) ==> ByKey(c, StoreOf(c, es), Le64(n)) == Some(InfoOf(es[i]))
    ensures (forall i :: !HasNumber(es, n, i)) ==> ByKey(c, StoreOf(c, es), Le64(n)) == None
  {
    hide StoreOf, GetInfo, Le64, InfoOf, HasBlock, ReceiptIsLast, Sound, Storable, Distinct;
    StoreIndexes(c, x, es);
    forall i | HasNumber(es, n, i) ensures ByKey(c, StoreOf(c, es), Le64(n)) == Some(InfoOf(es[i])) {
      BlockIsRead(c, x, es, i);
    }
    if forall i :: !HasNumber(es, n, i) {
      forall i | 0 <= i < |es| ensures Le64(es[i].response.number) != Le64(n) {
        assert !HasNumber(es, n, i);
        StorableNumber(c, x, es[i]);
        KeysDiffer(es[i].response.number, n);
      }
    }
  }

  lemma StorableNumber(c: Codec, x: Executor, e: Executed)
    requires Storable(c, x, e)
    ensures e.response.number < U64_RANGE && e.response.blockHash == e.block.digest
  {
    hide HoldableInfo, WasExecuted;
    ReceiptsMatch(x, e, 0);
  }

  lemma HashIsFound(c: Codec, x: Executor, es: seq<Executed>, hash: Digest)
    requires Readable(c, x, es)
    ensures forall i :: HasHash(es, hash, i) ==> ByHash(c, StoreOf(c, es), hash) == Some(InfoOf(es[i]))
    ensures (forall i :: !HasHash(es, hash, i)) ==> ByHash(c, StoreOf(c, es), hash) == None
  {
    hide StoreOf, ByKey, Le64, InfoOf, HasBlock, ReceiptIsLast, Sound, Storable;
    StoreIndexes(c, x, es);
    forall i | HasHash(es, hash, i) ensures ByHash(c, StoreOf(c, es), hash) == Some(InfoOf(es[i])) {
      BlockIsRead(c, x, es, i);
    }
    if hash in StoreOf(c, es).hashes {
      var i :| 0 <= i < |es| && es[i].response.blockHash == hash;
      StorableNumber(c, x, es[i]);
      assert HasHash(es, hash, i);
    }
  }

  /** A chain without gaps, with distinct hashes, is such a list, and its blocks are found by counting
      from its first tip. */
  lemma ChainIsReadable(c: Codec, x: Executor, tips: seq<Tip>, es: seq<Executed>, n: nat)
    requires Sound(c) && IsChain(x, tips, es) && tips[0].number + |es| < U64_RANGE && n < U64_RANGE
    requires forall i :: 0 <= i < |es| ==> HoldableInfo(c, InfoOf(es[i]))
    requires forall i, j :: 0 <= i < j < |es| ==> es[i].block.digest != es[j].block.digest
    ensures Readable(c, x, es)
    ensures ByTag(c, StoreOf(c, es), Number(n)) ==
            if tips[0].number < n <= tips[0].number + |es| then Some(InfoOf(es[n - tips[0].number - 1])) else None
  {
    hide Sound, HoldableInfo, Responds, Advances, StoreOf, ByKey, InfoOf, Le64;
    forall i: nat | i < |es| ensures es[i].response.number == tips[0].number + 1 + i && Storable(c, x, es[i]) {
      NumbersAreConsecutive(x, tips, es, i);
    }
    NumberIsFound(c, x, es, n);
    assert forall i :: HasNumber(es, n, i) ==> i == n - tips[0].number - 1;
    if tips[0].number < n <= tips[0].number + |es| {
      assert HasNumber(es, n, n - tips[0].number - 1);
    }
  }

  lemma {:induction false} LastTxIsLast(es: seq<Executed>, hash: Digest, i: nat, k: nat)
    requires i < |es| && k < |es[i].response.receipts| && es[i].response.receipts[k].hash == hash
    ensures var p := LastTx(es, hash);
            p.Some? && (p.value.0 > i || (p.value.0 == i && p.value.1 >= k))
    decreases |es|
  {
    var n := |es| - 1;
    LastInIsLast(es[n].response.receipts, hash);
    if LastIn(es[n].response.receipts, hash).None? {
      assert i < n;
      LastTxIsLast(es[..n], hash, i, k);
    }
  }

  /** What the archive returns for a hash is the transaction at its last position. */
  lemma FoundIsLast(c: Codec, x: Executor, es: seq<Executed>, hash: Digest)
    requires Readable(c, x, es)
    ensures var found, p := GetTransaction(c, StoreOf(c, es), hash), LastTx(es, hash);
            && (found.Some? <==> p.Some?)
            && (p.Some? ==> HasTx(x, es, hash, p.value.0, p.value.1)
                            && found == Some(es[p.value.0].block.transactions[p.value.1]))
  {
    hide StoreOf, ByHash, Sound, Storable, LastTx, HasBlock;
    var s, p := StoreOf(c, es), LastTx(es, hash);
    StoreIndexes(c, x, es);
    assert ReceiptIsLast(s, es, hash);
    if p.Some? {
      StorableWasExecuted(c, x, es[p.value.0]);
      ReceiptsMatch(x, es[p.value.0], p.value.1);
      BlockIsRead(c, x, es, p.value.0);
    }
  }

  ghost predicate IsLastTx(x: Executor, es: seq<Executed>, hash: Digest, i: nat, k: nat) {
    && HasTx(x, es, hash, i, k)
    && forall j: nat, m: nat :: HasTx(x, es, hash, j, m) ==> j < i || (j == i && m <= k)
  }

  /** A transaction is found exactly if some executed block holds one with the hash, and what is
      found is the last such transaction of the chain. */
  lemma TransactionIsFoundExactly(c: Codec, x: Executor, es: seq<Executed>, hash: Digest)
    requires Readable(c, x, es)
    ensures var found := GetTransaction(c, StoreOf(c, es), hash);
            && (found.Some? <==> exists i: nat, k: nat :: HasTx(x, es, hash, i, k))
            && (found.Some? ==> x.hash(found.value) == hash)
            && (forall i: nat, k: nat :: IsLastTx(x, es, hash, i, k) ==> found == Some(es[i].block.transactions[k]))
  {
    hide StoreOf, GetTransaction, LastTx, Sound, Distinct, Storable;
    var p := LastTx(es, hash);
    FoundIsLast(c, x, es, hash);
    forall j: nat, m: nat | HasTx(x, es, hash, j, m)
      ensures p.Some? && (j < p.value.0 || (j == p.value.0 && m <= p.value.1))
    {
      LastTxIsBound(c, x, es, hash, j, m);
    }
  }

  lemma StorableWasExecuted(c: Codec, x: Executor, e: Executed)
    requires Storable(c, x, e)
    ensures WasExecuted(x, e)
  {
  }

  lemma LastTxIsBound(c: Codec, x: Executor, es: seq<Executed>, hash: Digest, i: nat, k: nat)
    requires Readable(c, x, es) && HasTx(x, es, hash, i, k)
    ensures var p := LastTx(es, hash); p.Some? && (i < p.value.0 || (i == p.value.0 && k <= p.value.1))
  {
    hide LastTx, WasExecuted, Sound, HoldableInfo;
    assert Storable(c, x, es[i]);
    ReceiptsMatch(x, es[i], k);
    LastTxIsLast(es, hash, i, k);
  }

  // --- the archive as an object ---------------------------------------------------------------

  class ArchiveIndex {
    const codec: Codec
    var blocks: map<Bytes, Bytes>
    var hashes: map<Digest, Bytes>
    var earliest: Option<Bytes>
    var latest: Option<Bytes>
    var receipts: map<Digest, TxReceipt>
    ghost var archived: seq<Executed>

    function View(): Store
      reads this
    {
      Store(blocks, hashes, earliest, latest, receipts)
    }

    /** The indexes are what the blocks archived so far make of them. */
    ghost predicate Valid()
      reads this
    {
      View() == StoreOf(codec, archived)
    }

    constructor (codec: Codec)
      ensures this.codec == codec && archived == [] && Valid()
    {
      this.codec := codec;
      blocks, hashes, earliest, latest, receipts := map[], map[], None, None, map[];
      archived := [];
    }

    method OnBlock(e: Executed)
      requires Valid()
      modifies this
      ensures archived == old(archived) + [e] && Valid()
    {
      hide PutInfo, Le64;
      var key := Le64(e.response.number);
      blocks := blocks[key := PutInfo(codec, InfoOf(e))];
      if earliest.None? {
        earliest := Some(key);
      }
      latest := Some(key);
      hashes := hashes[e.response.blockHash := key];
      StoreReceipts(e.response.receipts);
      archived := archived + [e];
      assert archived[..|archived| - 1] == old(archived);
    }

    method StoreReceipts(rs: seq<TxReceipt>)
      modifies this`receipts
      ensures receipts == PutReceipts(old(receipts), rs)
    {
      assert rs[..0] == [];
      for i := 0 to |rs|
        invariant receipts == PutReceipts(old(receipts), rs[..i])
      {
        receipts := receipts[rs[i].hash := rs[i]];
        assert rs[..i + 1][..i] == rs[..i];
      }
      assert rs[..|rs|] == rs;
    }

    /** The stored block under a key, if there is one and it decodes. */
    method BlockByKey(key: Bytes) returns (r: Option<BlockInfo>)
      ensures r == ByKey(codec, View(), key)
    {
      hide GetInfo;
      if key !in blocks {
        return None;
      }
      var info := GetInfo(codec, blocks[key]);
      if info.Ok? {
        return Some(info.value);
      }
      r := None;
    }

    method BlockByHash(hash: Digest, ghost x: Executor) returns (r: Option<BlockInfo>)
      requires Valid()
      ensures Readable(codec, x, archived) ==>
                && (forall i :: HasHash(archived, hash, i) ==> r == Some(InfoOf(archived[i])))
                && ((forall i :: !HasHash(archived, hash, i)) ==> r == None)
    {
      hide GetInfo, StoreOf, Readable, InfoOf;
      if Readable(codec, x, archived) {
        HashIsFound(codec, x, archived, hash);
      }
      if hash !in hashes {
        return None;
      }
      r := BlockByKey(hashes[hash]);
    }

    method TransactionByHash(hash: Digest, ghost x: Executor) returns (r: Option<Request>)
      requires Valid()
      ensures Readable(codec, x, archived) ==>
                && (r.Some? <==> exists i: nat, k: nat :: HasTx(x, archived, hash, i, k))
                && (r.Some? ==> x.hash(r.value) == hash)
    {
      hide GetInfo, StoreOf, Readable, ByKey, HasTx;
      if Readable(codec, x, archived) {
        TransactionIsFoundExactly(codec, x, archived, hash);
      }
      if hash !in receipts {
        return None;
      }
      var receipt := receipts[hash];
      if receipt.blockHash !in hashes {
        return None;
      }
      var info := BlockByKey(hashes[receipt.blockHash]);
      if info.None? || receipt.index >= |info.value.block.transactions| {
        return None;
      }
      r := Some(info.value.block.transactions[receipt.index]);
    }
  }
}
