/** What every run of the handshake proxy keeps, whatever the order of reads, client requests,
    connects, drops, replacements and write failures. */
module ProxySafety {
  import opened Common
  import opened ServiceFraming
  import opened HandshakeProxy

  // --- what a transport should have seen ----------------------------------------------------

  /** The payloads that were opened on transport t, in stream order. */
  function Select(ps: seq<Payload>, route: seq<nat>, t: nat): seq<Payload>
    requires |ps| == |route|
  {
    if ps == [] then []
    else
      var n := |ps| - 1;
      Select(ps[..n], route[..n], t) + (if route[n] == t then [ps[n]] else [])
  }

  /** `got` is `sent`, except that its last payload may be cut short. */
  ghost predicate CutShort(got: seq<Payload>, sent: seq<Payload>) {
    && |got| == |sent|
    && forall i :: 0 <= i < |got| ==>
         if i < |got| - 1 then got[i] == sent[i]
         else got[i].len == sent[i].len && got[i].body <= sent[i].body
  }

  function InOrder(queue: seq<Token>): seq<Token> {
    if queue == [] then [] else [queue[|queue| - 1]] + InOrder(queue[..|queue| - 1])
  }

  /** Flushing between payloads keeps the stream intact and delivers the queue in order. */
  lemma {:induction false} SendAllInOrder(c: Client, queue: seq<Token>)
    requires c.status == Open(0)
    ensures SendAll(c, queue) == c.(tokens := c.tokens + InOrder(queue))
    decreases |queue|
  {
    if queue == [] {
    } else {
      var token, rest := queue[|queue| - 1], queue[..|queue| - 1];
      var next := StepClient(c, SendToken(token));
      assert next == c.(tokens := c.tokens + [token]);
      SendAllInOrder(next, rest);
      assert (c.tokens + [token]) + InOrder(rest) == c.tokens + ([token] + InOrder(rest));
    }
  }

  lemma {:induction false} InOrderPush(token: Token, queue: seq<Token>)
    ensures InOrder([token] + queue) == InOrder(queue) + [token]
    decreases |queue|
  {
    var q := [token] + queue;
    if queue != [] {
      assert q[..|q| - 1] == [token] + queue[..|queue| - 1];
      InOrderPush(token, queue[..|queue| - 1]);
    } else {
      assert q == [token];
    }
  }

  lemma SelectAppend(ps: seq<Payload>, route: seq<nat>, p: Payload, owner: nat, t: nat)
    requires |ps| == |route|
    ensures Select(ps + [p], route + [owner], t) == Select(ps, route, t) + (if owner == t then [p] else [])
  {
    assert (ps + [p])[..|ps|] == ps && (route + [owner])[..|route|] == route;
  }

  lemma SelectGrow(ps: seq<Payload>, route: seq<nat>, b: seq<byte>, t: nat)
    requires |ps| == |route| && ps != []
    ensures route[|route| - 1] == t ==>
              Select(ps, route, t) != [] && Select(GrowLast(ps, b), route, t) == GrowLast(Select(ps, route, t), b)
    ensures route[|route| - 1] != t ==> Select(GrowLast(ps, b), route, t) == Select(ps, route, t)
  {
    assert GrowLast(ps, b)[..|ps| - 1] == ps[..|ps| - 1];
  }

  lemma {:induction false} SelectNone(ps: seq<Payload>, route: seq<nat>, t: nat)
    requires |ps| == |route| && t !in route
    ensures Select(ps, route, t) == []
    decreases |ps|
  {
    if ps == [] {
    } else {
      SelectNone(ps[..|ps| - 1], route[..|ps| - 1], t);
    }
  }

  // --- the invariant ------------------------------------------------------------------------

  ghost predicate Routes(s: State) {
    && |s.route| == |s.stream.frames|
    && (s.stream.currentWrite > 0 ==> s.route != [])
    && (forall i :: 0 <= i < |s.route| ==> s.route[i] < |s.clients|)
  }

  /** The bytes transport t is owed of the payload in progress. */
  ghost function Owed(s: State, t: nat): nat {
    if s.stream.currentWrite > 0 && s.route != [] && s.route[|s.route| - 1] == t then s.stream.currentWrite else 0
  }

  /** What transport t may have seen: `mine` are the payloads opened on it, `asked` the tokens it
      asked for, `queued` the ones still queued. A transport that is still attached has every
      byte consumed so far; one that is gone may have its last payload cut short. */
  ghost predicate GoodClient(v: Client, mine: seq<Payload>, asked: seq<Token>, attached: bool, owed: nat)
  {
    && v.status != Broken
    && CutShort(v.payloads, mine)
    && v.tokens <= asked
    && (attached ==> v.payloads == mine && v.status == Open(owed))
  }

  lemma CloseClient(v: Client, mine: seq<Payload>, asked: seq<Token>, owed: nat, reason: Reason)
    requires GoodClient(v, mine, asked, true, owed)
    ensures GoodClient(StepClient(v, Terminate(reason)), mine, asked, false, 0)
    ensures StepClient(v, Terminate(reason)).tokens == v.tokens
  {
  }

  lemma WriteClient(v: Client, mine: seq<Payload>, asked: seq<Token>, owed: nat, b: seq<byte>)
    requires GoodClient(v, mine, asked, true, owed) && mine != [] && 0 < |b| <= owed
    ensures GoodClient(StepClient(v, Write(b)), GrowLast(mine, b), asked, true, owed - |b|)
    ensures StepClient(v, Write(b)).tokens == v.tokens
  {
  }

  lemma CutClient(v: Client, mine: seq<Payload>, asked: seq<Token>, owed: nat, b: seq<byte>, n: nat)
    requires GoodClient(v, mine, asked, true, owed) && mine != [] && 0 < |b| <= owed && n <= |b|
    ensures GoodClient(StepClient(v, Write(b[..n])), GrowLast(mine, b), asked, false, 0)
  {
    var last := mine[|mine| - 1].body;
    assert last + b[..n] <= last + b;
  }

  ghost predicate GoodLog(s: State, t: nat)
    requires t < |s.clients| == |s.requested| && |s.route| == |s.stream.frames|
  {
    && GoodClient(s.clients[t], Select(s.stream.frames, s.route, t), s.requested[t],
                Attached(s.conn, t), Owed(s, t))
    && (PrimaryOf(s.conn) == Some(t) ==>
          s.requested[t] == s.clients[t].tokens + InOrder(s.queue))
  }

  /** The payload in progress is discarded exactly when the transport it was opened on is gone. */
  ghost predicate GoodOwner(s: State) {
    s.stream.currentWrite > 0 && s.route != [] && !s.conn.Terminated? ==>
      var owner := s.route[|s.route| - 1];
      && (s.discardBytes <==> !Attached(s.conn, owner))
      && (!s.discardBytes ==> SenderOf(s) == Some(owner))
  }

  ghost predicate Inv(s: State) {
    && WellFormed(s)
    && Routes(s)
    && GoodOwner(s)
    && (forall t :: 0 <= t < |s.clients| ==> GoodLog(s, t))
    && (PrimaryOf(s.conn).None? && !s.conn.Terminated? ==> s.queue == [])
  }

  // --- each step keeps it -------------------------------------------------------------------

  lemma FlushKeeps(s: State, onlyPrimary: bool, p: nat)
    requires Inv(s) && PrimaryOf(s.conn) == Some(p) && onlyPrimary == s.conn.OnlyPrimary?
    ensures Inv(MaybeFlush(s, onlyPrimary, p))
  {
    hide GoodLog;
    var s' := MaybeFlush(s, onlyPrimary, p);
    if s' != s {
      forall t | 0 <= t < |s'.clients| ensures GoodLog(s', t) {
        FlushLog(s, onlyPrimary, p, t);
      }
    }
  }

  lemma FlushLog(s: State, onlyPrimary: bool, p: nat, t: nat)
    requires Inv(s) && PrimaryOf(s.conn) == Some(p) && onlyPrimary == s.conn.OnlyPrimary?
    requires t < |s.clients| && MaybeFlush(s, onlyPrimary, p) != s
    ensures GoodLog(MaybeFlush(s, onlyPrimary, p), t)
  {
    assert GoodLog(s, t);
    if t == p {
      assert Owed(s, p) == 0;
      SendAllInOrder(s.clients[p], s.queue);
    }
  }

  /** Resetting the flags between two payloads. */
  lemma ResetKeeps(s: State)
    requires Inv(s) && s.stream.currentWrite == 0
    ensures Inv(Reset(s))
  {
    forall t | 0 <= t < |s.clients| ensures GoodLog(Reset(s), t) {
      assert GoodLog(s, t);
    }
  }

  lemma OpenKeeps(s: State)
    requires Inv(s) && s.stream.currentWrite == 0 && !s.discardBytes
    requires SenderOf(s).Some? && |s.stream.buffer| >= 4
    ensures Inv(OpenPayload(s))
  {
    var s' := OpenPayload(s);
    forall t | 0 <= t < |s'.clients| ensures GoodLog(s', t) {
      assert GoodLog(s, t);
      SelectAppend(s.stream.frames, s.route, Payload(NextLen(s.stream), []), SenderOf(s).value, t);
    }
  }

  lemma HeaderKeeps(s: State)
    requires Inv(s) && SenderOf(s).Some? && s.stream.currentWrite == 0 && |s.stream.buffer| >= 4
    ensures Inv(OpenPayload(FlushPrimary(Reset(s))))
  {
    ResetKeeps(s);
    if PrimaryOf(s.conn).Some? {
      FlushKeeps(Reset(s), s.conn.OnlyPrimary?, PrimaryOf(s.conn).value);
    }
    OpenKeeps(FlushPrimary(Reset(s)));
  }

  lemma SkipKeeps(s: State)
    requires Inv(s) && SenderOf(s).Some? && s.stream.currentWrite > 0 && s.stream.buffer != [] && s.discardBytes
    ensures Inv(SkipBody(s))
  {
    hide GoodLog;
    forall t | 0 <= t < |s.clients| ensures GoodLog(SkipBody(s), t) {
      SkipLog(s, t);
    }
  }

  lemma SkipLog(s: State, t: nat)
    requires Inv(s) && SenderOf(s).Some? && s.stream.currentWrite > 0 && s.stream.buffer != [] && s.discardBytes
    requires t < |s.clients|
    ensures GoodLog(SkipBody(s), t)
  {
    assert GoodLog(s, t);
    SelectGrow(s.stream.frames, s.route, Chunk(s.stream), t);
  }

  lemma WriteKeeps(s: State)
    requires Inv(s) && SenderOf(s).Some? && s.stream.currentWrite > 0 && s.stream.buffer != [] && !s.discardBytes
    ensures Inv(WriteBody(s))
  {
    hide GoodLog;
    forall t | 0 <= t < |s.clients| ensures GoodLog(WriteBody(s), t) {
      WriteLog(s, t);
    }
  }

  lemma WriteLog(s: State, t: nat)
    requires Inv(s) && SenderOf(s).Some? && s.stream.currentWrite > 0 && s.stream.buffer != [] && !s.discardBytes
    requires t < |s.clients|
    ensures GoodLog(WriteBody(s), t)
  {
    hide GoodClient, StepClient, Select, GrowLast;
    assert GoodLog(s, t);
    SelectGrow(s.stream.frames, s.route, Chunk(s.stream), t);
    if SenderOf(s) == Some(t) {
      WriteClient(s.clients[t], Select(s.stream.frames, s.route, t), s.requested[t], Owed(s, t), Chunk(s.stream));
    }
  }

  lemma FailKeeps(s: State, partial: nat)
    requires Inv(s) && SenderOf(s).Some? && s.stream.currentWrite > 0 && s.stream.buffer != [] && !s.discardBytes
    ensures Inv(FailWrite(s, partial))
  {
    hide GoodLog;
    forall t | 0 <= t < |s.clients| ensures GoodLog(FailWrite(s, partial), t) {
      FailLog(s, partial, t);
    }
  }

  lemma FailLog(s: State, partial: nat, t: nat)
    requires Inv(s) && SenderOf(s).Some? && s.stream.currentWrite > 0 && s.stream.buffer != [] && !s.discardBytes
    requires t < |s.clients|
    ensures GoodLog(FailWrite(s, partial), t)
  {
    hide CutShort, StepClient, Select, GrowLast;
    assert GoodLog(s, t);
    var b := Chunk(s.stream);
    SelectGrow(s.stream.frames, s.route, b, t);
    if SenderOf(s) == Some(t) {
      var n := if partial < |b| then partial else |b|;
      assert b[..|b|] == b;
      CutClient(s.clients[t], Select(s.stream.frames, s.route, t), s.requested[t], Owed(s, t), b, n);
    }
  }

  lemma {:induction false} DrainKeeps(s: State, failAt: nat, partial: nat)
    requires Inv(s) && SenderOf(s).Some?
    ensures Inv(Drain(s, failAt, partial))
    decreases |s.stream.buffer|
  {
    hide GoodLog, GoodOwner, Routes, OpenPayload, FlushPrimary, WriteBody, FailWrite, NextLen, FromBe, Attached;
    if s.stream.buffer == [] {
    } else if s.stream.currentWrite == 0 {
      if |s.stream.buffer| >= 4 {
        HeaderKeeps(s);
        DrainKeeps(OpenPayload(FlushPrimary(Reset(s))), failAt, partial);
      }
    } else if s.discardBytes {
      SkipKeeps(s);
      DrainKeeps(SkipBody(s), failAt, partial);
    } else if failAt == 0 {
      FailKeeps(s, partial);
    } else {
      WriteKeeps(s);
      DrainKeeps(WriteBody(s), failAt - 1, partial);
    }
  }

  lemma {:induction false} DrainSyncs(s: State, failAt: nat, partial: nat)
    requires WellFormed(s) && InSync(s.stream) && SenderOf(s).Some?
    ensures InSync(Drain(s, failAt, partial).stream)
    decreases |s.stream.buffer|
  {
    hide InSync, OpenPayload, FlushPrimary, WriteBody, FailWrite, NextLen, FromBe, Attached;
    if s.stream.buffer == [] {
    } else if s.stream.currentWrite == 0 {
      if |s.stream.buffer| >= 4 {
        HeaderSyncs(s.stream);
        DrainSyncs(OpenPayload(FlushPrimary(Reset(s))), failAt, partial);
      }
    } else {
      BodySyncs(s.stream);
      if s.discardBytes {
        DrainSyncs(SkipBody(s), failAt, partial);
      } else if failAt > 0 {
        DrainSyncs(WriteBody(s), failAt - 1, partial);
      }
    }
  }

  lemma EndKeeps(s: State, reason: Reason)
    requires Inv(s)
    ensures Inv(End(s, reason))
  {
    hide GoodLog;
    forall t | 0 <= t < |s.clients| ensures GoodLog(End(s, reason), t) {
      EndLog(s, reason, t);
    }
  }

  lemma EndLog(s: State, reason: Reason, t: nat)
    requires Inv(s) && t < |s.clients|
    ensures GoodLog(End(s, reason), t)
  {
    hide CutShort, StepClient, Select, GrowLast;
    assert GoodLog(s, t);
    if Attached(s.conn, t) {
      CloseClient(s.clients[t], Select(s.stream.frames, s.route, t), s.requested[t], Owed(s, t), reason);
    }
  }

  lemma ConnectKeeps(s: State, isPrimary: bool)
    requires Inv(s)
    ensures Inv(Connect(s, isPrimary))
  {
    hide GoodLog;
    if !s.conn.Terminated? {
      var s' := Connect(s, isPrimary);
      ConnectRoutes(s, isPrimary);
      forall t | 0 <= t < |s'.clients| ensures GoodLog(s', t) {
        if t < |s.clients| {
          ConnectLog(s, isPrimary, t);
        } else {
          NewLog(s, isPrimary, t);
        }
      }
    }
  }

  lemma ConnectRoutes(s: State, isPrimary: bool)
    requires Inv(s) && !s.conn.Terminated?
    ensures var s' := Connect(s, isPrimary);
            && WellFormed(s') && Routes(s') && GoodOwner(s')
            && (PrimaryOf(s'.conn).None? ==> s'.queue == [])
  {
  }

  lemma NewLog(s: State, isPrimary: bool, t: nat)
    requires Inv(s) && !s.conn.Terminated? && t == |s.clients|
    ensures GoodLog(Connect(s, isPrimary), t)
  {
    hide StepClient;
    SelectNone(s.stream.frames, s.route, t);
  }

  lemma ConnectLog(s: State, isPrimary: bool, t: nat)
    requires Inv(s) && !s.conn.Terminated? && t < |s.clients|
    ensures GoodLog(Connect(s, isPrimary), t)
  {
    hide CutShort, StepClient, Select, GrowLast;
    assert GoodLog(s, t);
    if Connect(s, isPrimary).clients[t] != s.clients[t] {
      CloseClient(s.clients[t], Select(s.stream.frames, s.route, t), s.requested[t], Owed(s, t), ConnectionInUse);
    }
  }

  lemma DisconnectKeeps(s: State, isPrimary: bool)
    requires Inv(s) && SenderOf(s).Some?
    ensures Inv(Disconnect(s, isPrimary))
  {
    var s' := Disconnect(s, isPrimary);
    forall t | 0 <= t < |s'.clients| ensures GoodLog(s', t) {
      assert GoodLog(s, t);
    }
  }

  lemma IncomingKeeps(s: State, isPrimary: bool, r: Request, brokenAt: Option<nat>)
    requires Inv(s) && SenderOf(s).Some? && (isPrimary ==> PrimaryOf(s.conn).Some?)
    ensures Inv(HandleIncoming(s, isPrimary, r, brokenAt).0)
  {
    hide CutShort, Select, Encode;
    var s' := HandleIncoming(s, isPrimary, r, brokenAt).0;
    forall t | 0 <= t < |s'.clients| ensures GoodLog(s', t) {
      assert GoodLog(s, t);
      if r.AccessToken? && PrimaryOf(s.conn) == Some(t) && s' != s {
        InOrderPush(r.token, s.queue);
        assert s.clients[t].tokens + InOrder(s.queue) + [r.token] == s.clients[t].tokens + InOrder(s'.queue);
      }
    }
  }

  lemma ReceiveKeeps(s: State, isPrimary: bool, request: Option<Request>, brokenAt: Option<nat>)
    requires Inv(s) && SenderOf(s).Some? && (isPrimary ==> PrimaryOf(s.conn).Some?)
    ensures Inv(Receive(s, isPrimary, request, brokenAt))
  {
    if request.None? {
      DisconnectKeeps(s, isPrimary);
    } else {
      IncomingKeeps(s, isPrimary, request.value, brokenAt);
      var (s1, handled) := HandleIncoming(s, isPrimary, request.value, brokenAt);
      match handled
      case DropTransport => DisconnectKeeps(s1, isPrimary);
      case TerminateConnection => EndKeeps(s1, InternalError);
      case Ok =>
        if isPrimary {
          FlushKeeps(s1, s.conn.OnlyPrimary?, PrimaryOf(s.conn).value);
        }
    }
  }

  lemma ReceivedKeeps(s: State, bytes: seq<byte>)
    requires Inv(s)
    ensures Inv(s.(stream := Received(s.stream, bytes)))
  {
    var s' := s.(stream := Received(s.stream, bytes));
    forall t | 0 <= t < |s'.clients| ensures GoodLog(s', t) {
      assert GoodLog(s, t);
    }
  }

  lemma ReadKeeps(s: State, bytes: seq<byte>, failAt: nat, partial: nat)
    requires Inv(s) && SenderOf(s).Some?
    ensures Inv(ReadBytes(s, bytes, failAt, partial))
  {
    if bytes == [] {
      EndKeeps(s, if s.stream.currentWrite == 0 then ServiceTerminated else InternalError);
    } else {
      ReceivedKeeps(s, bytes);
      DrainKeeps(s.(stream := Received(s.stream, bytes)), failAt, partial);
    }
  }

  lemma TimeoutKeeps(s: State)
    requires Inv(s) && s.conn.NoConnection?
    ensures Inv(s.(conn := Terminated))
  {
    forall t | 0 <= t < |s.clients| ensures GoodLog(s.(conn := Terminated), t) {
      assert GoodLog(s, t);
    }
  }

  lemma StepKeeps(s: State, e: Event)
    requires Inv(s)
    ensures Inv(Step(s, e))
  {
    hide GoodLog, GoodOwner, Connect, End, Receive, ReadBytes;
    match e
    case NewConnection(isPrimary) => ConnectKeeps(s, isPrimary);
    case ConnectionsClosed => EndKeeps(s, InternalError);
    case Timeout => if s.conn.NoConnection? { TimeoutKeeps(s); }
    case Recv(isPrimary, request, brokenAt) =>
      if (if isPrimary then PrimaryOf(s.conn).Some? else s.conn.OnlySecondary? || s.conn.Both?) {
        ReceiveKeeps(s, isPrimary, request, brokenAt);
      }
    case Read(bytes, failAt, partial) =>
      if SenderOf(s).Some? { ReadKeeps(s, bytes, failAt, partial); }
    case ReadError => EndKeeps(s, InternalError);
  }

  /** The service got the accepted payloads, whole and in order; what a failed write left behind comes
      after them, and then the proxy has ended. */
  ghost predicate ServiceInSync(s: State) {
    && s.leftover <= |s.toService|
    && s.toService[..|s.toService| - s.leftover] == EncodeAll(s.accepted)
    && (s.leftover > 0 ==> s.conn.Terminated?)
  }

  /** Only reads touch the stream, and only accepted payloads go to the service. */
  lemma StepSyncs(s: State, e: Event)
    requires WellFormed(s) && InSync(s.stream) && ServiceInSync(s)
    ensures InSync(Step(s, e).stream)
    ensures ServiceInSync(Step(s, e))
  {
    hide InSync, EncodeAll, Encode, StepClient, Drain;
    match e
    case Read(bytes, failAt, partial) =>
      if SenderOf(s).Some? && bytes != [] {
        ReceivedSyncs(s.stream, bytes);
        DrainSyncs(s.(stream := Received(s.stream, bytes)), failAt, partial);
        DrainFrame(s.(stream := Received(s.stream, bytes)), failAt, partial);
      }
    case Recv(isPrimary, request, brokenAt) =>
      if (if isPrimary then PrimaryOf(s.conn).Some? else s.conn.OnlySecondary? || s.conn.Both?) {
        ReceiveSyncs(s, isPrimary, request, brokenAt);
      }
    case _ =>
  }

  lemma IncomingSyncs(s: State, isPrimary: bool, request: Request, brokenAt: Option<nat>)
    requires WellFormed(s) && (isPrimary ==> PrimaryOf(s.conn).Some?) && ServiceInSync(s) && s.leftover == 0
    ensures var (s', handled) := HandleIncoming(s, isPrimary, request, brokenAt);
            && s'.stream == s.stream
            && (handled.TerminateConnection? || s'.leftover == 0)
            && ServiceInSync(s'.(conn := Terminated))
  {
    hide EncodeAll, Encode;
    assert s.toService[..|s.toService|] == s.toService;
    if request.ServicePayload? {
      EncodeAllAppend(s.accepted, request.bytes);
      var all := s.toService + Encode(request.bytes);
      assert all[..|all|] == all;
    }
  }

  lemma ReceiveSyncs(s: State, isPrimary: bool, request: Option<Request>, brokenAt: Option<nat>)
    requires WellFormed(s) && (isPrimary ==> PrimaryOf(s.conn).Some?) && ServiceInSync(s) && !s.conn.Terminated?
    ensures var s' := Receive(s, isPrimary, request, brokenAt); s'.stream == s.stream && ServiceInSync(s')
  {
    hide EncodeAll, StepClient, HandleIncoming;
    if request.Some? {
      IncomingSyncs(s, isPrimary, request.value, brokenAt);
    }
  }

  lemma {:induction false} DrainFrame(s: State, failAt: nat, partial: nat)
    requires WellFormed(s) && SenderOf(s).Some?
    ensures var s' := Drain(s, failAt, partial);
            s'.toService == s.toService && s'.accepted == s.accepted && s'.leftover == s.leftover && !s'.conn.Terminated?
    decreases |s.stream.buffer|
  {
    hide StepClient;
    if s.stream.buffer == [] {
    } else if s.stream.currentWrite == 0 {
      if |s.stream.buffer| >= 4 {
        DrainFrame(OpenPayload(FlushPrimary(Reset(s))), failAt, partial);
      }
    } else if s.discardBytes {
      DrainFrame(SkipBody(s), failAt, partial);
    } else if failAt > 0 {
      DrainFrame(WriteBody(s), failAt - 1, partial);
    }
  }

  lemma {:induction false} RunKeeps(events: seq<Event>)
    ensures Inv(Run(events)) && InSync(Run(events).stream)
    ensures ServiceInSync(Run(events))
  {
    hide GoodLog, Step;
    if events == [] {
    } else {
      RunKeeps(events[..|events| - 1]);
      StepKeeps(Run(events[..|events| - 1]), events[|events| - 1]);
      StepSyncs(Run(events[..|events| - 1]), events[|events| - 1]);
    }
  }
}
