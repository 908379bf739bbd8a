/** What the handshake proxy does with each event, told from the events and from which transports are
    attached when they come. The safety results of ProxyGuarantees would also hold of a proxy that does
    less; these would not. */
module ProxyProgress {
  import opened Common
  import opened ServiceFraming
  import opened HandshakeProxy
  import opened ProxySafety
  import opened ProxyGuarantees

  lemma RunAppend(events: seq<Event>, e: Event)
    ensures Run(events + [e]) == Step(Run(events), e)
  {
    assert (events + [e])[..|events|] == events;
  }

  // --- where payloads are opened --------------------------------------------------------------

  /** New payloads go to the secondary while there is one, and otherwise to the only transport. */
  predicate TakesNewPayloads(c: Conn, t: nat) {
    match c
    case Both(_, q) => t == q
    case OnlyPrimary(p) => t == p
    case OnlySecondary(q) => t == q
    case _ => false
  }

  /** Payloads keep the transport they were opened on; the new ones are opened as `c` says. */
  ghost predicate OpensOn(c: Conn, route: seq<nat>, route': seq<nat>) {
    && route <= route'
    && forall i :: |route| <= i < |route'| ==> TakesNewPayloads(c, route'[i])
  }

  lemma HeaderOpens(s: State)
    requires WellFormed(s) && SenderOf(s).Some? && |s.stream.buffer| >= 4
    ensures var s' := OpenPayload(FlushPrimary(Reset(s))); s'.conn == s.conn && OpensOn(s.conn, s.route, s'.route)
  {
    hide StepClient, SendAll, TakeHeader, NextLen;
  }

  lemma {:induction false} DrainOpens(s: State, failAt: nat, partial: nat)
    requires WellFormed(s) && SenderOf(s).Some?
    ensures OpensOn(s.conn, s.route, Drain(s, failAt, partial).route)
    decreases |s.stream.buffer|
  {
    hide OpenPayload, FlushPrimary, NextLen, FromBe, StepClient, Attached, TakesNewPayloads;
    if s.stream.buffer == [] {
    } else if s.stream.currentWrite == 0 {
      if |s.stream.buffer| >= 4 {
        HeaderOpens(s);
        DrainOpens(OpenPayload(FlushPrimary(Reset(s))), failAt, partial);
      }
    } else if s.discardBytes {
      DrainOpens(SkipBody(s), failAt, partial);
    } else if failAt > 0 {
      DrainOpens(WriteBody(s), failAt - 1, partial);
    }
  }

  lemma StepOpens(s: State, e: Event)
    requires WellFormed(s)
    ensures OpensOn(s.conn, s.route, Step(s, e).route)
    ensures !e.Read? ==> Step(s, e).route == s.route
  {
    hide StepClient, SendAll, Drain, Encode;
    if e.Read? && SenderOf(s).Some? && e.bytes != [] {
      DrainOpens(s.(stream := Received(s.stream, e.bytes)), e.failAt, e.partial);
    }
  }

  /** In every run a payload is opened on the secondary if one is attached when its header is read, and
      otherwise on the only transport, whatever the previous payload was doing; nothing but a read opens
      one. */
  lemma PayloadsAreOpenedOnSecondary(events: seq<Event>, e: Event)
    ensures OpensOn(Run(events).conn, Run(events).route, Run(events + [e]).route)
    ensures !e.Read? ==> Run(events + [e]).route == Run(events).route
  {
    hide Run, Step;
    RunAppend(events, e);
    StepOpens(Run(events), e);
  }

  // --- what comes in --------------------------------------------------------------------------

  /** The transport in the primary or in the secondary place. */
  function Slot(c: Conn, isPrimary: bool): Option<nat> {
    match c
    case OnlyPrimary(p) => if isPrimary then Some(p) else None
    case OnlySecondary(q) => if isPrimary then None else Some(q)
    case Both(p, q) => Some(if isPrimary then p else q)
    case _ => None
  }

  /** The bytes that were read from the service: every read that some transport was there for. */
  ghost function ReadsOf(events: seq<Event>): seq<byte> {
    if events == [] then []
    else
      var n := |events| - 1;
      var c := Run(events[..n]).conn;
      ReadsOf(events[..n]) +
      if events[n].Read? && (Slot(c, true).Some? || Slot(c, false).Some?) then events[n].bytes else []
  }

  /** The service payload in a frame that came in on an attached transport and could be passed on whole. */
  function PayloadIn(c: Conn, e: Event): seq<seq<byte>> {
    match e
    case Recv(isPrimary, Some(ServicePayload(body)), None) => if Slot(c, isPrimary).Some? then [body] else []
    case _ => []
  }

  /** The access token that transport t asks for as the primary. */
  function TokenIn(c: Conn, e: Event, t: nat): seq<Token> {
    match e
    case Recv(true, Some(AccessToken(token)), _) => if Slot(c, true) == Some(t) then [token] else []
    case _ => []
  }

  ghost function PayloadsOf(events: seq<Event>): seq<seq<byte>> {
    if events == [] then []
    else
      var n := |events| - 1;
      PayloadsOf(events[..n]) + PayloadIn(Run(events[..n]).conn, events[n])
  }

  ghost function TokensOf(events: seq<Event>, t: nat): seq<Token> {
    if events == [] then []
    else
      var n := |events| - 1;
      TokensOf(events[..n], t) + TokenIn(Run(events[..n]).conn, events[n], t)
  }

  lemma {:induction false} DrainReads(s: State, failAt: nat, partial: nat)
    requires WellFormed(s) && SenderOf(s).Some?
    ensures Drain(s, failAt, partial).stream.read == s.stream.read
    ensures Drain(s, failAt, partial).requested == s.requested
    decreases |s.stream.buffer|
  {
    hide FlushPrimary, NextLen, FromBe, StepClient, Attached;
    if s.stream.buffer == [] {
    } else if s.stream.currentWrite == 0 {
      if |s.stream.buffer| >= 4 {
        DrainReads(OpenPayload(FlushPrimary(Reset(s))), failAt, partial);
      }
    } else if s.discardBytes {
      DrainReads(SkipBody(s), failAt, partial);
    } else if failAt > 0 {
      DrainReads(WriteBody(s), failAt - 1, partial);
    }
  }

  lemma FrameTakesIn(s: State, e: Event)
    requires WellFormed(s) && e.Recv? && e.request.Some? && Slot(s.conn, e.isPrimary).Some?
    ensures var s' := HandleIncoming(s, e.isPrimary, e.request.value, e.brokenAt).0;
            && s'.stream == s.stream && s'.accepted == s.accepted + PayloadIn(s.conn, e)
            && |s'.requested| == |s.requested|
            && forall t :: 0 <= t < |s.requested| ==> s'.requested[t] == s.requested[t] + TokenIn(s.conn, e, t)
  {
    hide Encode, First;
  }

  lemma ReceiveTakesIn(s: State, e: Event)
    requires WellFormed(s) && e.Recv? && Slot(s.conn, e.isPrimary).Some?
    ensures var s' := Receive(s, e.isPrimary, e.request, e.brokenAt);
            && s'.stream == s.stream && s'.accepted == s.accepted + PayloadIn(s.conn, e)
            && |s'.requested| == |s.requested|
            && forall t :: 0 <= t < |s.requested| ==> s'.requested[t] == s.requested[t] + TokenIn(s.conn, e, t)
  {
    hide StepClient, SendAll, HandleIncoming;
    if e.request.Some? {
      FrameTakesIn(s, e);
    }
  }

  lemma StepTakesIn(s: State, e: Event)
    requires WellFormed(s)
    ensures var s' := Step(s, e);
            && s'.stream.read == s.stream.read +
                 (if e.Read? && (Slot(s.conn, true).Some? || Slot(s.conn, false).Some?) then e.bytes else [])
            && s'.accepted == s.accepted + PayloadIn(s.conn, e)
  {
    hide StepClient, Drain, Receive;
    match e
    case Read(bytes, failAt, partial) =>
      if SenderOf(s).Some? && bytes != [] {
        var s1 := s.(stream := Received(s.stream, bytes));
        DrainReads(s1, failAt, partial);
        DrainFrame(s1, failAt, partial);
      }
    case Recv(isPrimary, _, _) =>
      if Slot(s.conn, isPrimary).Some? {
        ReceiveTakesIn(s, e);
      }
    case _ =>
  }

  lemma StepAsks(s: State, e: Event, t: nat)
    requires WellFormed(s)
    ensures var s' := Step(s, e);
            && |s.requested| <= |s'.requested|
            && (t < |s'.requested| ==>
                  s'.requested[t] == (if t < |s.requested| then s.requested[t] else []) + TokenIn(s.conn, e, t))
  {
    hide StepClient, Drain, Receive;
    match e
    case Read(bytes, failAt, partial) =>
      if SenderOf(s).Some? && bytes != [] {
        DrainReads(s.(stream := Received(s.stream, bytes)), failAt, partial);
      }
    case Recv(isPrimary, _, _) =>
      if Slot(s.conn, isPrimary).Some? {
        ReceiveTakesIn(s, e);
      }
    case _ =>
  }

  /** In every run the bytes the proxy parses are the bytes of its reads, and what it passes on to the
      service are the payloads its clients sent: no read and no unbroken client payload is lost, repeated
      or reordered, on either transport. */
  lemma {:induction false} NothingIncomingIsLost(events: seq<Event>)
    ensures Run(events).stream.read == ReadsOf(events)
    ensures Run(events).accepted == PayloadsOf(events)
  {
    hide Step;
    if events == [] {
    } else {
      var n := |events| - 1;
      NothingIncomingIsLost(events[..n]);
      StepTakesIn(Run(events[..n]), events[n]);
    }
  }

  lemma {:induction false} RequestsAreRecorded(events: seq<Event>, t: nat)
    ensures t < |Run(events).requested| ==> Run(events).requested[t] == TokensOf(events, t)
    ensures t >= |Run(events).requested| ==> TokensOf(events, t) == []
  {
    hide Step;
    if events == [] {
    } else {
      var n := |events| - 1;
      RequestsAreRecorded(events[..n], t);
      StepAsks(Run(events[..n]), events[n], t);
    }
  }

  /** So what the service parses back are the clients' payloads, in the order they came in, if and only
      if every length fits its header. */
  lemma ServiceGetsTheClientsPayloads(events: seq<Event>)
    ensures var s := Run(events);
            && s.leftover <= |s.toService|
            && (IsParsedBack(PayloadsOf(events), Parse(s.toService[..|s.toService| - s.leftover])) <==>
                FitAll(PayloadsOf(events)))
  {
    hide Run, Scan, PayloadsOf;
    NothingIncomingIsLost(events);
    ServiceReceivesClientPayloads(events);
  }

  // --- when token responses go out ------------------------------------------------------------

  /** A payload is unfinished that was opened on transport t. */
  predicate Busy(s: State, t: nat) {
    Missing(s.stream.consumed) > 0 && s.route != [] && s.route[|s.route| - 1] == t
  }

  lemma HeaderAnswers(s: State, p: nat)
    requires Inv(s) && PrimaryOf(s.conn) == Some(p) && s.stream.currentWrite == 0 && |s.stream.buffer| >= 4
    ensures var s' := OpenPayload(FlushPrimary(Reset(s)));
            Inv(s') && s'.requested == s.requested && s'.clients[p].tokens == s.requested[p]
  {
    hide SendAll, NextLen, FromBe, CutShort, Select, GoodOwner;
    HeaderKeeps(s);
    var s' := OpenPayload(FlushPrimary(Reset(s)));
    assert s'.queue == [];
    assert GoodLog(s', p);
  }

  /** A payload opened in the loop finds every response to the primary sent. */
  lemma {:induction false} DrainAnswers(s: State, failAt: nat, partial: nat, p: nat)
    requires Inv(s) && PrimaryOf(s.conn) == Some(p)
    ensures var s' := Drain(s, failAt, partial);
            && s.route <= s'.route && |s'.clients| == |s.clients|
            && (s.clients[p].tokens == s.requested[p] || s'.route != s.route ==> s'.clients[p].tokens == s.requested[p])
    decreases |s.stream.buffer|
  {
    hide GoodLog, GoodOwner, Routes, SendAll, FlushPrimary, NextLen, FromBe, Attached;
    if s.stream.buffer == [] {
    } else if s.stream.currentWrite == 0 {
      if |s.stream.buffer| >= 4 {
        HeaderAnswers(s, p);
        DrainAnswers(OpenPayload(FlushPrimary(Reset(s))), failAt, partial, p);
      }
    } else if s.discardBytes {
      SkipKeeps(s);
      DrainAnswers(SkipBody(s), failAt, partial, p);
    } else if failAt > 0 {
      WriteKeeps(s);
      DrainAnswers(WriteBody(s), failAt - 1, partial, p);
    }
  }

  lemma ReceiveAnswers(s: State, request: Option<Request>, brokenAt: Option<nat>, p: nat)
    requires Inv(s) && s.stream.currentWrite == Missing(s.stream.consumed) && PrimaryOf(s.conn) == Some(p)
    ensures var s' := Receive(s, true, request, brokenAt);
            PrimaryOf(s'.conn) == Some(p) ==>
              s'.clients[p].tokens == if Busy(s, p) then s.clients[p].tokens else s'.requested[p]
  {
    hide Scan, SendAll, CutShort, Select, Encode;
    ReceiveKeeps(s, true, request, brokenAt);
    var s' := Receive(s, true, request, brokenAt);
    if PrimaryOf(s'.conn) == Some(p) {
      assert GoodLog(s, p) && GoodLog(s', p);
    }
  }

  /** No response is held back longer than it must be. A request that the attached primary makes is
      answered at once, with all that is due to it, unless a payload opened on that very primary is
      unfinished; and before a read opens a payload, everything the primary is due is sent. */
  lemma ResponsesGoOutBetweenPayloads(events: seq<Event>, e: Event, p: nat)
    requires Slot(Run(events).conn, true) == Some(p)
    ensures var s, s' := Run(events), Run(events + [e]);
            && p < |s.clients| <= |s'.clients|
            && (e.Recv? && e.isPrimary && Slot(s'.conn, true) == Some(p) ==>
                  s'.clients[p].tokens == if Busy(s, p) then s.clients[p].tokens else TokensOf(events + [e], p))
            && (e.Read? && s'.route != s.route ==> s'.clients[p].tokens == TokensOf(events, p))
  {
    hide Run, Drain, Receive, Scan, TokensOf, GoodLog, GoodOwner, Routes;
    var s := Run(events);
    RunAppend(events, e);
    RunKeeps(events);
    RequestsAreRecorded(events, p);
    RequestsAreRecorded(events + [e], p);
    DroppedTransportStaysSilent(events, [e]);
    if e.Read? && e.bytes != [] {
      ReceivedKeeps(s, e.bytes);
      DrainAnswers(s.(stream := Received(s.stream, e.bytes)), e.failAt, e.partial, p);
    } else if e.Recv? && e.isPrimary {
      ReceiveAnswers(s, e.request, e.brokenAt, p);
    }
  }

  // --- who is attached, and how a client learns that it no longer is --------------------------

  /** A client that joins takes its place and leaves the other alone. Whoever held the place is gone; it
      is told so if and only if it was the only one. */
  lemma NewTransportTakesItsPlace(events: seq<Event>, isPrimary: bool)
    ensures var s, s' := Run(events), Run(events + [NewConnection(isPrimary)]);
            && (s.conn.Terminated? ==> s' == s)
            && (!s.conn.Terminated? ==>
                  && Slot(s'.conn, isPrimary) == Some(|s.clients|) && |s'.clients| == |s.clients| + 1
                  && Slot(s'.conn, !isPrimary) == Slot(s.conn, !isPrimary)
                  && s'.clients[|s.clients|] == NEW_CLIENT)
            && forall t :: 0 <= t < |s.clients| && Slot(s.conn, isPrimary) == Some(t) ==>
                 && s.clients[t].status.Open?
                 && s'.clients[t].status ==
                      if Slot(s.conn, !isPrimary).None? then Closed(s.clients[t].status.owed, ConnectionInUse)
                      else s.clients[t].status
  {
    hide Run, Scan, Select, CutShort, InOrder;
    RunAppend(events, NewConnection(isPrimary));
    RunKeeps(events);
    var held := Slot(Run(events).conn, isPrimary);
    if held.Some? {
      assert GoodLog(Run(events), held.value);
    }
  }

  /** Frames that close the transport they came on: all that only the primary may send if it is the
      secondary, and a delivery acknowledgment from either. */
  predicate Refused(isPrimary: bool, request: Request) {
    match request
    case ServicePayload(_) => false
    case AccessToken(_) => !isPrimary
    case ExtendAccessToken => !isPrimary
    case DeliveryAcknowledgment => true
  }

  /** What a client sends, or its silence, costs exactly its own place; only a payload that the service
      does not take ends the proxy. */
  lemma ClientFramesAndPlaces(events: seq<Event>, isPrimary: bool, request: Option<Request>, brokenAt: Option<nat>)
    requires Slot(Run(events).conn, isPrimary).Some?
    ensures var s, s' := Run(events), Run(events + [Recv(isPrimary, request, brokenAt)]);
            && (s'.conn.Terminated? <==> request.Some? && request.value.ServicePayload? && brokenAt.Some?)
            && (!s'.conn.Terminated? ==>
                  && Slot(s'.conn, !isPrimary) == Slot(s.conn, !isPrimary)
                  && Slot(s'.conn, isPrimary) ==
                       if request.None? || Refused(isPrimary, request.value) then None else Slot(s.conn, isPrimary))
  {
    hide Run, StepClient, SendAll, Encode;
    RunAppend(events, Recv(isPrimary, request, brokenAt));
  }

  /** The place of transport t is given up, the other kept. */
  predicate Leaves(c: Conn, c': Conn, t: nat) {
    && !c'.Terminated?
    && (forall isPrimary :: Slot(c', isPrimary) == if Slot(c, isPrimary) == Some(t) then None else Slot(c, isPrimary))
  }

  /** At most the transport that the last payload was opened on has left. */
  predicate OwnerLeaves(c: Conn, s': State): (r: bool)
    ensures s'.conn == c ==> r
  {
    s'.conn != c ==> s'.route != [] && Leaves(c, s'.conn, s'.route[|s'.route| - 1])
  }

  lemma FailLeaves(s: State, partial: nat)
    requires Inv(s) && SenderOf(s).Some? && s.stream.currentWrite > 0 && !s.discardBytes
    ensures OwnerLeaves(s.conn, FailWrite(s, partial))
  {
    hide GoodLog, StepClient, TakeBody, Chunk;
  }

  lemma {:induction false} DrainLeaves(s: State, failAt: nat, partial: nat)
    requires Inv(s) && SenderOf(s).Some?
    ensures OwnerLeaves(s.conn, Drain(s, failAt, partial))
    decreases |s.stream.buffer|
  {
    hide GoodLog, GoodOwner, Routes, OpenPayload, FlushPrimary, WriteBody, FailWrite, NextLen, FromBe, Attached, OwnerLeaves;
    if s.stream.buffer == [] {
    } else if s.stream.currentWrite == 0 {
      if |s.stream.buffer| >= 4 {
        HeaderKeeps(s);
        DrainLeaves(OpenPayload(FlushPrimary(Reset(s))), failAt, partial);
      }
    } else if s.discardBytes {
      SkipKeeps(s);
      DrainLeaves(SkipBody(s), failAt, partial);
    } else if failAt == 0 {
      FailLeaves(s, partial);
    } else {
      WriteKeeps(s);
      DrainLeaves(WriteBody(s), failAt - 1, partial);
    }
  }

  /** A read costs at most one transport its place: the one the last payload was opened on. It does when
      the rest of an unfinished payload cannot be written. */
  lemma FailedWriteCostsItsOwner(events: seq<Event>, bytes: seq<byte>, failAt: nat, partial: nat)
    requires bytes != []
    ensures var s, s' := Run(events), Run(events + [Read(bytes, failAt, partial)]);
            && OwnerLeaves(s.conn, s')
            && forall t :: Attached(s.conn, t) && Busy(s, t) && failAt == 0 ==> !Attached(s'.conn, t)
  {
    hide Run, Scan, GoodLog, OwnerLeaves, StepClient, FlushPrimary, OpenPayload, NextLen, FromBe;
    var s := Run(events);
    RunAppend(events, Read(bytes, failAt, partial));
    RunKeeps(events);
    if SenderOf(s).Some? {
      ReceivedKeeps(s, bytes);
      DrainLeaves(s.(stream := Received(s.stream, bytes)), failAt, partial);
    }
  }

  /** The reason every attached client is given when an event ends the proxy: the service's own end only
      if its stream stops between two payloads. */
  function EndReason(s: State, e: Event): Reason {
    if e.Read? && Missing(s.stream.consumed) == 0 then ServiceTerminated else InternalError
  }

  /** The events that end a proxy with clients. */
  predicate Ends(c: Conn, e: Event) {
    match e
    case ConnectionsClosed => true
    case ReadError => true
    case Read(bytes, _, _) => bytes == []
    case Recv(isPrimary, Some(ServicePayload(_)), Some(_)) => Slot(c, isPrimary).Some?
    case _ => false
  }

  /** When a proxy with clients ends, each of them is told, and told why. */
  lemma EveryClientLearnsTheReason(events: seq<Event>, e: Event, t: nat)
    requires Attached(Run(events).conn, t)
    requires Ends(Run(events).conn, e)
    ensures var s, s' := Run(events), Run(events + [e]);
            && s'.conn.Terminated? && t < |s.clients| == |s'.clients|
            && s.clients[t].status.Open?
            && s'.clients[t].status == Closed(s.clients[t].status.owed, EndReason(s, e))
  {
    hide Run, Scan, Select, CutShort, Encode;
    RunAppend(events, e);
    RunKeeps(events);
    assert GoodLog(Run(events), t);
  }
}
