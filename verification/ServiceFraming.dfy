/** The length-delimited byte stream between the proxy and a service: every payload is a
    four byte big-endian length followed by that many bytes. */
module ServiceFraming {
  import opened Common

  const U32_MODULUS: int := 0x1_0000_0000

  datatype Payload = Payload(len: nat, body: seq<byte>)

  /** Big-endian value of a byte string. */
  function FromBe(b: seq<byte>): nat {
    if b == [] then 0 else FromBe(b[..|b| - 1]) * 256 + b[|b| - 1] as int
  }

  function U32ToBe(n: nat): (b: seq<byte>)
    requires n < U32_MODULUS
    ensures |b| == 4 && FromBe(b) == n
  {
    var b := [n / 0x100_0000, n / 0x1_0000 % 256, n / 256 % 256, n % 256];
    FromBeFour(b[0], b[1], b[2], b[3]);
    b
  }

  lemma FromBeFour(b0: byte, b1: byte, b2: byte, b3: byte)
    ensures FromBe([b0, b1, b2, b3]) == ((b0 as int * 256 + b1 as int) * 256 + b2 as int) * 256 + b3 as int
  {
    assert FromBe([b0]) == b0 as int by { assert [b0][..0] == []; }
    assert FromBe([b0, b1]) == FromBe([b0]) * 256 + b1 as int by { assert [b0, b1][..1] == [b0]; }
    assert [b0, b1, b2][..2] == [b0, b1];
    assert FromBe([b0, b1, b2]) == FromBe([b0, b1]) * 256 + b2 as int;
    assert [b0, b1, b2, b3][..3] == [b0, b1, b2];
  }

  /** Reference parse of a stream: its payloads (the last one possibly still in progress), the
      number of bytes the last one waits for, and whether the stream stops outside a header. */
  datatype Parsed = Parsed(payloads: seq<Payload>, missing: nat, aligned: bool)

  function Scan(bytes: seq<byte>): Parsed
    decreases |bytes|
  {
    if |bytes| < 4 then Parsed([], 0, bytes == [])
    else
      var len := FromBe(bytes[..4]);
      if |bytes| - 4 < len then Parsed([Payload(len, bytes[4..])], len - (|bytes| - 4), true)
      else
        var rest := Scan(bytes[4 + len..]);
        rest.(payloads := [Payload(len, bytes[4..4 + len])] + rest.payloads)
  }

  function Parse(bytes: seq<byte>): seq<Payload> { Scan(bytes).payloads }

  function Missing(bytes: seq<byte>): nat { Scan(bytes).missing }

  predicate Aligned(bytes: seq<byte>) { Scan(bytes).aligned }

  /** A payload list with more bytes of the last payload. */
  function GrowLast(ps: seq<Payload>, more: seq<byte>): (r: seq<Payload>)
    requires ps != []
  {
    ps[..|ps| - 1] + [Payload(ps[|ps| - 1].len, ps[|ps| - 1].body + more)]
  }

  /** One complete payload in front of a stream can be peeled off all three views of it. */
  lemma PeelPayload(head: seq<byte>, rest: seq<byte>)
    requires |head| >= 4 && |head| == 4 + FromBe(head[..4])
    ensures Parse(head + rest) == [Payload(|head| - 4, head[4..])] + Parse(rest)
    ensures Missing(head + rest) == Missing(rest) && Aligned(head + rest) == Aligned(rest)
  {
    var s := head + rest;
    assert s[..4] == head[..4];
    assert s[4..|head|] == head[4..];
    assert s[|head|..] == rest;
  }

  lemma {:induction false} HeaderOpensPayload(c: seq<byte>, h: seq<byte>)
    requires Aligned(c) && Missing(c) == 0 && |h| == 4
    ensures Parse(c + h) == Parse(c) + [Payload(FromBe(h), [])]
    ensures Aligned(c + h) && Missing(c + h) == FromBe(h)
    decreases |c|
  {
    if |c| < 4 {
      assert c + h == h;
      assert h[..4] == h;
      assert h[4..] == [];
    } else {
      var n := 4 + FromBe(c[..4]);
      var head, tail := c[..n], c[n..];
      assert c == head + tail && head[..4] == c[..4];
      PeelPayload(head, tail);
      HeaderOpensPayload(tail, h);
      assert c + h == head + (tail + h);
      PeelPayload(head, tail + h);
    }
  }

  lemma {:induction false} BodyGrowsPayload(c: seq<byte>, b: seq<byte>)
    requires Aligned(c) && 0 < |b| <= Missing(c)
    ensures Parse(c) != [] && Parse(c + b) == GrowLast(Parse(c), b)
    ensures Aligned(c + b) && Missing(c + b) == Missing(c) - |b|
    decreases |c|
  {
    var n := 4 + FromBe(c[..4]);
    if |c| < n {
      BodyGrowsOnlyPayload(c, b);
    } else {
      var head, tail := c[..n], c[n..];
      assert c == head + tail && head[..4] == c[..4];
      PeelPayload(head, tail);
      BodyGrowsPayload(tail, b);
      assert c + b == head + (tail + b);
      PeelPayload(head, tail + b);
    }
  }

  lemma BodyGrowsOnlyPayload(c: seq<byte>, b: seq<byte>)
    requires |c| >= 4 && |c| + |b| <= 4 + FromBe(c[..4]) && b != []
    ensures Parse(c) == [Payload(FromBe(c[..4]), c[4..])]
    ensures Parse(c + b) == [Payload(FromBe(c[..4]), c[4..] + b)]
    ensures Aligned(c + b) && Missing(c + b) == 4 + FromBe(c[..4]) - |c| - |b|
  {
    var s := c + b;
    assert s[..4] == c[..4] && s[4..] == c[4..] + b;
    if |s| == 4 + FromBe(c[..4]) {
      assert s + [] == s;
      PeelPayload(s, []);
    }
  }

  /** The reading side of the proxy: the bytes read, split into those consumed and those buffered,
      the bytes the payload in progress waits for, and the payloads seen so far. */
  datatype Stream = Stream(
    read: seq<byte>,
    consumed: seq<byte>,
    buffer: seq<byte>,
    currentWrite: nat,
    frames: seq<Payload>)

  const EMPTY_STREAM := Stream([], [], [], 0, [])

  function Received(st: Stream, bytes: seq<byte>): Stream {
    st.(read := st.read + bytes, buffer := st.buffer + bytes)
  }

  function NextLen(st: Stream): nat
    requires |st.buffer| >= 4
  {
    FromBe(st.buffer[..4])
  }

  function TakeHeader(st: Stream): Stream
    requires |st.buffer| >= 4
  {
    Stream(st.read, st.consumed + st.buffer[..4], st.buffer[4..], NextLen(st),
           st.frames + [Payload(NextLen(st), [])])
  }

  /** The bytes of the payload in progress that the buffer holds. */
  function Chunk(st: Stream): (b: seq<byte>)
    ensures |b| <= st.currentWrite && b <= st.buffer
    ensures st.currentWrite > 0 && st.buffer != [] ==> b != []
  {
    if st.currentWrite <= |st.buffer| then st.buffer[..st.currentWrite] else st.buffer
  }

  function TakeBody(st: Stream): Stream {
    var b := Chunk(st);
    Stream(st.read, st.consumed + b, st.buffer[|b|..], st.currentWrite - |b|,
           if st.frames == [] then [] else GrowLast(st.frames, b))
  }

  /** Bytes consumed and buffered are the bytes read, and the reading side is where the reference
      parse of the consumed bytes says it is. */
  ghost predicate InSync(st: Stream) {
    && st.read == st.consumed + st.buffer
    && Scan(st.consumed) == Parsed(st.frames, st.currentWrite, true)
  }

  lemma ReceivedSyncs(st: Stream, bytes: seq<byte>)
    requires InSync(st)
    ensures InSync(Received(st, bytes))
  {
    assert st.consumed + (st.buffer + bytes) == st.read + bytes;
  }

  lemma HeaderSyncs(st: Stream)
    requires InSync(st) && st.currentWrite == 0 && |st.buffer| >= 4
    ensures InSync(TakeHeader(st))
  {
    HeaderOpensPayload(st.consumed, st.buffer[..4]);
    assert st.consumed + st.buffer[..4] + st.buffer[4..] == st.consumed + st.buffer;
  }

  lemma BodySyncs(st: Stream)
    requires InSync(st) && st.currentWrite > 0 && st.buffer != []
    ensures InSync(TakeBody(st))
  {
    var b := Chunk(st);
    BodyGrowsPayload(st.consumed, b);
    assert st.consumed + b + st.buffer[|b|..] == st.consumed + st.buffer;
  }

  /** A payload in progress is never empty-handed: bytes are missing iff the last payload is short. */
  lemma {:induction false} MissingIsLastShortfall(c: seq<byte>)
    ensures Parse(c) == [] ==> Missing(c) == 0
    ensures Parse(c) != [] ==>
              var p := Parse(c)[|Parse(c)| - 1]; Missing(c) == p.len - |p.body|
    ensures forall i :: 0 <= i < |Parse(c)| - 1 ==> |Parse(c)[i].body| == Parse(c)[i].len
    decreases |c|
  {
    if |c| >= 4 {
      var len := FromBe(c[..4]);
      if |c| - 4 >= len {
        MissingIsLastShortfall(c[4 + len..]);
      }
    }
  }

  /** What a client payload becomes on the service socket; the length is cast to 32 bits. */
  function Encode(body: seq<byte>): seq<byte> {
    U32ToBe(|body| % U32_MODULUS) + body
  }

  function EncodeAll(bodies: seq<seq<byte>>): seq<byte> {
    if bodies == [] then [] else Encode(bodies[0]) + EncodeAll(bodies[1..])
  }

  lemma {:induction false} EncodeAllAppend(bodies: seq<seq<byte>>, body: seq<byte>)
    ensures EncodeAll(bodies + [body]) == EncodeAll(bodies) + Encode(body)
  {
    if bodies == [] {
      assert [body][1..] == [];
      assert bodies + [body] == [body];
    } else {
      assert (bodies + [body])[1..] == bodies[1..] + [body];
      EncodeAllAppend(bodies[1..], body);
    }
  }

  ghost predicate IsParsedBack(bodies: seq<seq<byte>>, ps: seq<Payload>) {
    |ps| == |bodies| && forall i :: 0 <= i < |bodies| ==> ps[i] == Payload(|bodies[i]|, bodies[i])
  }

  lemma PeelEncoded(body: seq<byte>, rest: seq<byte>)
    requires |body| < U32_MODULUS
    ensures Scan(Encode(body) + rest) ==
              Scan(rest).(payloads := [Payload(|body|, body)] + Parse(rest))
  {
    var head := Encode(body);
    assert head[..4] == U32ToBe(|body|) && head[4..] == body;
    PeelPayload(head, rest);
  }

  /** The service recovers exactly the client payloads, provided each length fits the header. */
  lemma {:induction false} EncodeParseRoundTrip(bodies: seq<seq<byte>>)
    requires forall i :: 0 <= i < |bodies| ==> |bodies[i]| < U32_MODULUS
    ensures IsParsedBack(bodies, Parse(EncodeAll(bodies)))
    ensures Aligned(EncodeAll(bodies)) && Missing(EncodeAll(bodies)) == 0
  {
    if bodies == [] {
    } else {
      PeelEncoded(bodies[0], EncodeAll(bodies[1..]));
      EncodeParseRoundTrip(bodies[1..]);
    }
  }

  predicate FitAll(bodies: seq<seq<byte>>) {
    forall i :: 0 <= i < |bodies| ==> |bodies[i]| < U32_MODULUS
  }

  lemma HeaderIsU32(h: seq<byte>)
    requires |h| == 4
    ensures FromBe(h) < U32_MODULUS
  {
    FromBeFour(h[0], h[1], h[2], h[3]);
    assert h == [h[0], h[1], h[2], h[3]];
  }

  /** No parse reports a length of 2^32 or more. */
  lemma {:induction false} ParsedLengthsAreU32(bytes: seq<byte>)
    ensures forall i :: 0 <= i < |Parse(bytes)| ==> Parse(bytes)[i].len < U32_MODULUS
    decreases |bytes|
  {
    hide FromBe;
    if |bytes| < 4 {
    } else {
      HeaderIsU32(bytes[..4]);
      var len := FromBe(bytes[..4]);
      if |bytes| - 4 >= len {
        var rest := bytes[4 + len..];
        ParsedLengthsAreU32(rest);
        assert Parse(bytes) == [Payload(len, bytes[4..4 + len])] + Parse(rest);
      }
    }
  }

  /** A payload of 2^32 bytes or more is announced short, so the service loses sync: any list of
      payloads is parsed back exactly if all are below that size. */
  lemma EncodeParseExact(bodies: seq<seq<byte>>)
    ensures IsParsedBack(bodies, Parse(EncodeAll(bodies))) <==> FitAll(bodies)
  {
    if FitAll(bodies) {
      EncodeParseRoundTrip(bodies);
    } else {
      ParsedLengthsAreU32(EncodeAll(bodies));
    }
  }
}
