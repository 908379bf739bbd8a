/** The byte format in which the archive stores a block and its receipt: little-endian 64-bit lengths
    before every variable part. Additions of lengths are unbounded here; in the original a sum that
    wraps ends below its start, and both slices are out of bounds. */
module BlockCodec {
  import opened Common

  type Bytes = seq<byte>
  type Digest = d: Bytes | |d| == 32 witness seq(32, _ => 0)

  const U64_RANGE := 0x1_0000_0000_0000_0000

  datatype Error = OutOfBounds | BadMagic | BadPayload

  /** Decoding an empty transaction reads before its start: the original panics. */
  datatype Result<T> = Ok(value: T) | Err(error: Error) | Panic

  datatype Request = Update(body: nat) | Ethereum(body: nat)

  datatype Block = Block(digest: Digest, subDagIndex: nat, subDagRound: nat, transactions: seq<Request>)

  datatype BlockReceipt = BlockReceipt(
    number: nat, hash: Digest, parent: Digest, changeEpoch: bool, registryChanges: seq<nat>, txHashes: seq<Digest>)

  datatype BlockInfo = BlockInfo(block: Block, receipt: BlockReceipt)

  /** The library formats of the parts, which are not modelled further. */
  datatype Codec = Codec(
    putUpdate: nat -> Bytes, getUpdate: Bytes -> Option<nat>,
    putEthereum: nat -> Bytes, getEthereum: Bytes -> Option<nat>,
    putReceipt: BlockReceipt -> Bytes, getReceipt: Bytes -> Option<BlockReceipt>)

  ghost predicate Sound(c: Codec) {
    && (forall x: nat :: c.getUpdate(c.putUpdate(x)) == Some(x))
    && (forall x: nat :: c.getEthereum(c.putEthereum(x)) == Some(x))
    && (forall r :: c.getReceipt(c.putReceipt(r)) == Some(r))
  }

  // --- numbers --------------------------------------------------------------------------------

  function Pow256(k: nat): (p: nat)
    ensures p > 0
  {
    if k == 0 then 1 else 256 * Pow256(k - 1)
  }

  function ToLe(n: nat, k: nat): (b: Bytes)
    ensures |b| == k
    decreases k
  {
    if k == 0 then [] else [n % 256] + ToLe(n / 256, k - 1)
  }

  function FromLe(b: Bytes): nat {
    if b == [] then 0 else b[0] + 256 * FromLe(b[1..])
  }

  lemma {:induction false} LeRoundTrip(n: nat, k: nat)
    requires n < Pow256(k)
    ensures FromLe(ToLe(n, k)) == n
    decreases k
  {
    if k == 0 {
    } else {
      LeRoundTrip(n / 256, k - 1);
      assert ToLe(n, k)[1..] == ToLe(n / 256, k - 1);
    }
  }

  lemma U64Range()
    ensures Pow256(8) == U64_RANGE
  {
    assert Pow256(4) == 0x1_0000_0000;
  }

  function Le64(n: nat): (b: Bytes)
    ensures |b| == 8
  {
    ToLe(n, 8)
  }

  lemma Le64RoundTrip(n: nat)
    requires n < U64_RANGE
    ensures FromLe(Le64(n)) == n
  {
    U64Range();
    LeRoundTrip(n, 8);
  }

  // --- reading --------------------------------------------------------------------------------

  function Get(b: Bytes, from: nat, to: nat): Result<Bytes> {
    if from <= to <= |b| then Ok(b[from..to]) else Err(OutOfBounds)
  }

  function GetU64(b: Bytes, at: nat): Result<nat> {
    if at + 8 <= |b| then Ok(FromLe(b[at..at + 8])) else Err(OutOfBounds)
  }

  /** A part with its length before it, and where it ends. */
  function GetPart(b: Bytes, at: nat): Result<Bytes> {
    var len := GetU64(b, at);
    if len.Ok? then Get(b, at + 8, at + 8 + len.value) else Err(OutOfBounds)
  }

  function PutPart(part: Bytes): Bytes {
    Le64(|part|) + part
  }

  /** A part is read back wherever it stands, and is out of bounds wherever it is cut short. */
  lemma PartRoundTrip(before: Bytes, part: Bytes, after: Bytes)
    requires |part| < U64_RANGE
    ensures GetPart(before + PutPart(part) + after, |before|) == Ok(part)
  {
    hide FromLe, Le64;
    var all, at := before + PutPart(part) + after, |before|;
    assert all[at..at + 8] == Le64(|part|);
    Le64RoundTrip(|part|);
    assert all[at + 8..at + 8 + |part|] == part;
  }

  lemma PartCutShort(before: Bytes, part: Bytes, after: Bytes, n: nat)
    requires |part| < U64_RANGE && |before| <= n < |before| + |PutPart(part)|
    ensures GetPart((before + PutPart(part) + after)[..n], |before|) == Err(OutOfBounds)
  {
    hide FromLe, Le64;
    var all, at := before + PutPart(part) + after, |before|;
    if at + 8 <= n {
      assert all[..n][at..at + 8] == Le64(|part|);
      Le64RoundTrip(|part|);
    }
  }

  // --- transactions ---------------------------------------------------------------------------

  function PutRequest(c: Codec, t: Request): (b: Bytes)
    ensures b != []
  {
    match t
    case Update(x) => c.putUpdate(x) + [0x00]
    case Ethereum(x) => c.putEthereum(x) + [0x01]
  }

  function GetRequest(c: Codec, b: Bytes): Result<Request> {
    if b == [] then Panic
    else
      var body, magic := b[..|b| - 1], b[|b| - 1];
      if magic == 0x00 then
        (var x := c.getUpdate(body); if x.Some? then Ok(Update(x.value)) else Err(BadPayload))
      else if magic == 0x01 then
        (var x := c.getEthereum(body); if x.Some? then Ok(Ethereum(x.value)) else Err(BadPayload))
      else Err(BadMagic)
  }

  lemma RequestRoundTrip(c: Codec, t: Request)
    requires Sound(c)
    ensures GetRequest(c, PutRequest(c, t)) == Ok(t)
  {
    var b := PutRequest(c, t);
    match t
    case Update(x) => assert b[..|b| - 1] == c.putUpdate(x);
    case Ethereum(x) => assert b[..|b| - 1] == c.putEthereum(x);
  }

  function PutRequests(c: Codec, ts: seq<Request>): Bytes {
    if ts == [] then [] else PutPart(PutRequest(c, ts[0])) + PutRequests(c, ts[1..])
  }

  function GetRequests(c: Codec, b: Bytes, at: nat, count: nat): Result<seq<Request>>
    decreases count
  {
    if count == 0 then Ok([])
    else
      match GetPart(b, at)
      case Err(e) => Err(e)
      case Panic => Panic
      case Ok(part) =>
        match GetRequest(c, part)
        case Err(e) => Err(e)
        case Panic => Panic
        case Ok(t) => Prepend(t, GetRequests(c, b, at + 8 + |part|, count - 1))
  }

  function Prepend(t: Request, r: Result<seq<Request>>): Result<seq<Request>> {
    match r
    case Ok(ts) => Ok([t] + ts)
    case Err(e) => Err(e)
    case Panic => Panic
  }

  /** The transactions a machine can hold: every length is a 64-bit number. */
  ghost predicate Holdable(c: Codec, ts: seq<Request>) {
    |ts| < U64_RANGE && forall i :: 0 <= i < |ts| ==> |PutRequest(c, ts[i])| < U64_RANGE
  }

  lemma {:induction false} RequestsRoundTrip(c: Codec, before: Bytes, ts: seq<Request>, after: Bytes)
    requires Sound(c) && Holdable(c, ts)
    ensures GetRequests(c, before + PutRequests(c, ts) + after, |before|, |ts|) == Ok(ts)
    decreases |ts|
  {
    hide PutRequest, GetRequest, GetPart, PutPart, Sound;
    if ts == [] {
    } else {
      var part, rest := PutRequest(c, ts[0]), PutRequests(c, ts[1..]);
      var all, next := before + PutRequests(c, ts) + after, before + PutPart(part);
      assert |part| < U64_RANGE;
      assert all == next + rest + after by {
        Regroup(before, PutPart(part), rest, after);
      }
      assert all == next + (rest + after) by {
        Regroup(next, rest, after, []);
      }
      PartRoundTrip(before, part, rest + after);
      RequestRoundTrip(c, ts[0]);
      PartLength(part);
      RequestsRoundTrip(c, next, ts[1..], after);
      assert ts == [ts[0]] + ts[1..];
    }
  }

  lemma Regroup(a: Bytes, b: Bytes, c: Bytes, d: Bytes)
    ensures a + (b + c) + d == (a + b) + c + d
    ensures a + b + c == a + (b + c)
  {
  }

  lemma PartLength(part: Bytes)
    ensures |PutPart(part)| == 8 + |part|
  {
  }

  lemma {:induction false} RequestsCutShort(c: Codec, before: Bytes, ts: seq<Request>, n: nat)
    requires Sound(c) && Holdable(c, ts) && |before| <= n < |before| + |PutRequests(c, ts)|
    ensures GetRequests(c, (before + PutRequests(c, ts))[..n], |before|, |ts|) == Err(OutOfBounds)
    decreases |ts|
  {
    hide PutRequest, GetRequest, GetPart, PutPart;
    var part := PutRequest(c, ts[0]);
    var rest := PutRequests(c, ts[1..]);
    var all := before + PutRequests(c, ts);
    assert |part| < U64_RANGE;
    assert all == before + PutPart(part) + rest;
    PartLength(part);
    if n < |before| + |PutPart(part)| {
      PartCutShort(before, part, rest, n);
    } else {
      var kept := all[..n];
      assert kept == before + PutPart(part) + kept[|before| + |PutPart(part)|..];
      PartRoundTrip(before, part, kept[|before| + |PutPart(part)|..]);
      RequestRoundTrip(c, ts[0]);
      assert all == (before + PutPart(part)) + rest;
      RequestsCutShort(c, before + PutPart(part), ts[1..], n);
    }
  }

  // --- blocks ---------------------------------------------------------------------------------

  function Header(b: Block): (h: Bytes)
    ensures |h| == 56
  {
    b.digest + Le64(b.subDagIndex) + Le64(b.subDagRound) + Le64(|b.transactions|)
  }

  function PutBlock(c: Codec, b: Block): Bytes {
    Header(b) + PutRequests(c, b.transactions)
  }

  function GetBlock(c: Codec, bytes: Bytes): Result<Block> {
    if |bytes| < 56 then Err(OutOfBounds)
    else
      var digest: Digest := bytes[0..32];
      match GetRequests(c, bytes, 56, FromLe(bytes[48..56]))
      case Ok(ts) => Ok(Block(digest, FromLe(bytes[32..40]), FromLe(bytes[40..48]), ts))
      case Err(e) => Err(e)
      case Panic => Panic
  }

  ghost predicate HoldableBlock(c: Codec, b: Block) {
    && b.subDagIndex < U64_RANGE && b.subDagRound < U64_RANGE
    && Holdable(c, b.transactions) && |PutBlock(c, b)| < U64_RANGE
  }

  lemma HeaderParts(b: Block, rest: Bytes, bytes: Bytes)
    requires bytes == Header(b) + rest
    requires b.subDagIndex < U64_RANGE && b.subDagRound < U64_RANGE && |b.transactions| < U64_RANGE
    ensures bytes[0..32] == b.digest
    ensures FromLe(bytes[32..40]) == b.subDagIndex && FromLe(bytes[40..48]) == b.subDagRound
    ensures FromLe(bytes[48..56]) == |b.transactions|
  {
    hide FromLe, Le64;
    assert bytes[32..40] == Le64(b.subDagIndex);
    assert bytes[40..48] == Le64(b.subDagRound);
    assert bytes[48..56] == Le64(|b.transactions|);
    Le64RoundTrip(b.subDagIndex);
    Le64RoundTrip(b.subDagRound);
    Le64RoundTrip(|b.transactions|);
  }

  /** Every block is read back; bytes behind it are ignored. */
  lemma BlockRoundTrip(c: Codec, b: Block, after: Bytes)
    requires Sound(c) && HoldableBlock(c, b)
    ensures GetBlock(c, PutBlock(c, b) + after) == Ok(b)
  {
    hide FromLe, Le64, GetRequests, PutRequests, Header;
    var bytes := PutBlock(c, b) + after;
    assert bytes == Header(b) + (PutRequests(c, b.transactions) + after);
    HeaderParts(b, PutRequests(c, b.transactions) + after, bytes);
    assert bytes == Header(b) + PutRequests(c, b.transactions) + after;
    RequestsRoundTrip(c, Header(b), b.transactions, after);
  }

  /** No block is read from fewer bytes than it was written to. */
  lemma BlockCutShort(c: Codec, b: Block, n: nat)
    requires Sound(c) && HoldableBlock(c, b) && n < |PutBlock(c, b)|
    ensures GetBlock(c, PutBlock(c, b)[..n]) == Err(OutOfBounds)
  {
    hide FromLe, Le64, GetRequests, PutRequests, Header;
    if n >= 56 {
      var bytes := PutBlock(c, b)[..n];
      assert bytes == Header(b) + bytes[56..];
      HeaderParts(b, bytes[56..], bytes);
      RequestsCutShort(c, Header(b), b.transactions, n);
    }
  }

  // --- block and receipt ----------------------------------------------------------------------

  function PutInfo(c: Codec, info: BlockInfo): Bytes {
    PutPart(PutBlock(c, info.block)) + PutPart(c.putReceipt(info.receipt))
  }

  function GetInfo(c: Codec, bytes: Bytes): Result<BlockInfo> {
    match GetPart(bytes, 0)
    case Err(e) => Err(e)
    case Panic => Panic
    case Ok(blockBytes) =>
      match GetBlock(c, blockBytes)
      case Err(e) => Err(e)
      case Panic => Panic
      case Ok(block) =>
        match GetPart(bytes, |blockBytes| + 8)
        case Err(e) => Err(e)
        case Panic => Panic
        case Ok(receiptBytes) =>
          var receipt := c.getReceipt(receiptBytes);
          if receipt.Some? then Ok(BlockInfo(block, receipt.value)) else Err(BadPayload)
  }

  ghost predicate HoldableInfo(c: Codec, info: BlockInfo) {
    HoldableBlock(c, info.block) && |c.putReceipt(info.receipt)| < U64_RANGE
  }

  lemma InfoRoundTrip(c: Codec, info: BlockInfo, after: Bytes)
    requires Sound(c) && HoldableInfo(c, info)
    ensures GetInfo(c, PutInfo(c, info) + after) == Ok(info)
  {
    hide PutBlock, GetBlock, GetPart, PutPart;
    var block, receipt := PutBlock(c, info.block), c.putReceipt(info.receipt);
    var bytes := PutInfo(c, info) + after;
    assert |block| < U64_RANGE;
    assert bytes == [] + PutPart(block) + (PutPart(receipt) + after);
    PartRoundTrip([], block, PutPart(receipt) + after);
    assert block == block + [];
    BlockRoundTrip(c, info.block, []);
    PartLength(block);
    PartRoundTrip(PutPart(block), receipt, after);
  }

  lemma InfoCutShort(c: Codec, info: BlockInfo, n: nat)
    requires Sound(c) && HoldableInfo(c, info) && n < |PutInfo(c, info)|
    ensures GetInfo(c, PutInfo(c, info)[..n]) == Err(OutOfBounds)
  {
    hide PutBlock, GetBlock, GetPart, PutPart;
    var block, receipt := PutBlock(c, info.block), c.putReceipt(info.receipt);
    var all := PutInfo(c, info);
    assert |block| < U64_RANGE;
    assert all == [] + PutPart(block) + PutPart(receipt);
    PartLength(block);
    PartLength(receipt);
    if n < |PutPart(block)| {
      PartCutShort([], block, PutPart(receipt), n);
    } else {
      var kept := all[..n];
      assert kept == [] + PutPart(block) + kept[|PutPart(block)|..];
      PartRoundTrip([], block, kept[|PutPart(block)|..]);
      assert block == block + [];
      BlockRoundTrip(c, info.block, []);
      assert all == PutPart(block) + PutPart(receipt) + [];
      PartCutShort(PutPart(block), receipt, [], n);
    }
  }

  // --- the decoder's loop ---------------------------------------------------------------------

  method DecodeRequests(c: Codec, bytes: Bytes, count: nat) returns (r: Result<seq<Request>>)
    ensures r == GetRequests(c, bytes, 56, count)
  {
    hide GetPart, GetRequest;
    var pointer: nat, done: nat := 56, 0;
    var transactions: seq<Request> := [];
    PrependNone(GetRequests(c, bytes, 56, count));
    while done < count
      invariant done <= count && pointer >= 0
      invariant GetRequests(c, bytes, 56, count) == PrependAll(transactions, GetRequests(c, bytes, pointer, count - done))
    {
      var part := GetPart(bytes, pointer);
      if !part.Ok? {
        return if part.Err? then Err(part.error) else Panic;
      }
      var t := GetRequest(c, part.value);
      if !t.Ok? {
        return if t.Err? then Err(t.error) else Panic;
      }
      PrependMore(transactions, t.value, GetRequests(c, bytes, pointer + 8 + |part.value|, count - done - 1));
      transactions := transactions + [t.value];
      pointer := pointer + 8 + |part.value|;
      done := done + 1;
    }
    assert transactions + [] == transactions;
    r := Ok(transactions);
  }

  function PrependAll(ts: seq<Request>, r: Result<seq<Request>>): Result<seq<Request>> {
    match r
    case Ok(more) => Ok(ts + more)
    case Err(e) => Err(e)
    case Panic => Panic
  }

  lemma PrependNone(r: Result<seq<Request>>)
    ensures PrependAll([], r) == r
  {
    if r.Ok? {
      assert [] + r.value == r.value;
    }
  }

  lemma PrependMore(ts: seq<Request>, t: Request, r: Result<seq<Request>>)
    ensures PrependAll(ts, Prepend(t, r)) == PrependAll(ts + [t], r)
  {
    if r.Ok? {
      assert ts + ([t] + r.value) == (ts + [t]) + r.value;
    }
  }
}
