/** What the handshake proxy promises, stated over every run. */
module ProxyGuarantees {
  import opened Common
  import opened ServiceFraming
  import opened HandshakeProxy
  import opened ProxySafety

  /** Whole-payload ownership. In every run each service payload is opened on one transport, and
      no client's stream is ever broken: nothing starts inside an unfinished payload. What a
      client reassembles is exactly the payloads opened on its transport, in stream order and
      byte for byte, except that a transport that is gone may have its last payload cut short. So
      once a byte of a payload is dropped, no later byte of it reaches anybody. */
  lemma PayloadOwnership(events: seq<Event>, t: nat)
    requires t < |Run(events).clients|
    ensures var s := Run(events);
            && |s.route| == |Parse(s.stream.consumed)|
            && s.clients[t].status != Broken
            && CutShort(s.clients[t].payloads, Select(Parse(s.stream.consumed), s.route, t))
            && (Attached(s.conn, t) ==>
                  s.clients[t].payloads == Select(Parse(s.stream.consumed), s.route, t))
  {
    hide Run, Scan, Select, CutShort;
    RunKeeps(events);
    assert GoodLog(Run(events), t);
  }

  /** Frame sync. For every split of the stream into reads and every connection churn, the bytes
      consumed and the bytes buffered are the bytes read, the proxy never stops inside a header,
      and it waits for exactly the bytes the reference parse says are missing. */
  lemma FrameSync(events: seq<Event>)
    ensures var st := Run(events).stream;
            && st.read == st.consumed + st.buffer
            && Aligned(st.consumed)
            && st.frames == Parse(st.consumed)
            && st.currentWrite == Missing(st.consumed)
  {
    hide Run, Scan;
    RunKeeps(events);
  }

  /** A read that does not switch the connection state leaves nothing it could still use. */
  lemma {:induction false} DrainLeavesShortHeader(s: State, failAt: nat, partial: nat)
    requires WellFormed(s) && SenderOf(s).Some?
    ensures var s' := Drain(s, failAt, partial);
            s'.conn == s.conn ==>
              s'.stream.buffer == [] || (s'.stream.currentWrite == 0 && |s'.stream.buffer| < 4)
    decreases |s.stream.buffer|
  {
    hide OpenPayload, FlushPrimary, WriteBody, FailWrite, NextLen, FromBe, Attached;
    if s.stream.buffer == [] {
    } else if s.stream.currentWrite == 0 {
      if |s.stream.buffer| >= 4 {
        DrainLeavesShortHeader(OpenPayload(FlushPrimary(Reset(s))), failAt, partial);
      }
    } else if s.discardBytes {
      DrainLeavesShortHeader(SkipBody(s), failAt, partial);
    } else if failAt > 0 {
      DrainLeavesShortHeader(WriteBody(s), failAt - 1, partial);
    }
  }

  /** Token responses. A client only ever gets responses it asked for itself, in the order it
      asked; the attached primary is still owed exactly the queue; without a primary a live proxy
      has nothing queued. That they never land inside a payload is part of PayloadOwnership. */
  lemma TokenResponses(events: seq<Event>, t: nat)
    requires t < |Run(events).clients|
    ensures var s := Run(events);
            && |s.requested| == |s.clients|
            && s.clients[t].tokens <= s.requested[t]
            && (PrimaryOf(s.conn) == Some(t) ==>
                  s.requested[t] == s.clients[t].tokens + InOrder(s.queue))
            && (PrimaryOf(s.conn).None? && !s.conn.Terminated? ==> s.queue == [])
  {
    hide Run, Scan, Select, CutShort;
    RunKeeps(events);
    assert GoodLog(Run(events), t);
  }

  /** The other direction. In every run the service parses back the accepted payloads if and only if
      each length fits the header. What a failed write leaves behind comes after them, and only a
      proxy that has ended has any. */
  lemma ServiceReceivesClientPayloads(events: seq<Event>)
    ensures var s := Run(events);
            && s.leftover <= |s.toService|
            && (IsParsedBack(s.accepted, Parse(s.toService[..|s.toService| - s.leftover])) <==> FitAll(s.accepted))
            && (s.leftover > 0 ==> s.conn.Terminated?)
  {
    hide Run, Scan;
    RunKeeps(events);
    EncodeParseExact(Run(events).accepted);
  }

  // --- dropped transports -------------------------------------------------------------------

  /** Payloads keep the transport they were opened on, and only attached transports are written. */
  ghost predicate Extends(s: State, s': State) {
    && |s.clients| <= |s'.clients|
    && s.route <= s'.route
    && (forall t :: 0 <= t < |s.clients| && !Attached(s.conn, t) ==>
          s'.clients[t] == s.clients[t] && !Attached(s'.conn, t))
  }

  lemma HeaderExtends(s: State)
    requires WellFormed(s) && SenderOf(s).Some? && |s.stream.buffer| >= 4
    ensures Extends(s, OpenPayload(FlushPrimary(Reset(s))))
  {
    hide StepClient, SendAll, TakeHeader;
  }

  lemma FailExtends(s: State, partial: nat)
    requires WellFormed(s) && SenderOf(s).Some?
    ensures Extends(s, FailWrite(s, partial))
  {
    hide StepClient, TakeBody;
  }

  lemma WriteExtends(s: State)
    requires WellFormed(s) && SenderOf(s).Some?
    ensures Extends(s, WriteBody(s))
  {
    hide StepClient, TakeBody;
  }

  lemma {:induction false} DrainExtends(s: State, failAt: nat, partial: nat)
    requires WellFormed(s) && SenderOf(s).Some?
    ensures Extends(s, Drain(s, failAt, partial))
    decreases |s.stream.buffer|
  {
    hide OpenPayload, FlushPrimary, WriteBody, FailWrite, NextLen, FromBe;
    if s.stream.buffer == [] {
    } else if s.stream.currentWrite == 0 {
      if |s.stream.buffer| >= 4 {
        HeaderExtends(s);
        DrainExtends(OpenPayload(FlushPrimary(Reset(s))), failAt, partial);
      }
    } else if s.discardBytes {
      DrainExtends(SkipBody(s), failAt, partial);
    } else if failAt == 0 {
      FailExtends(s, partial);
    } else {
      WriteExtends(s);
      DrainExtends(WriteBody(s), failAt - 1, partial);
    }
  }

  lemma StepExtends(s: State, e: Event)
    requires WellFormed(s)
    ensures Extends(s, Step(s, e))
  {
    hide StepClient, SendAll, Drain, Encode;
    match e
    case Read(bytes, failAt, partial) =>
      if SenderOf(s).Some? && bytes != [] {
        DrainExtends(s.(stream := Received(s.stream, bytes)), failAt, partial);
      }
    case Recv(isPrimary, request, brokenAt) =>
      if (if isPrimary then PrimaryOf(s.conn).Some? else s.conn.OnlySecondary? || s.conn.Both?) {
        ReceiveExtends(s, isPrimary, request, brokenAt);
      }
    case _ =>
  }

  lemma DisconnectExtends(s: State, isPrimary: bool)
    requires WellFormed(s)
    ensures Extends(s, Disconnect(s, isPrimary))
  {
  }

  lemma EndExtends(s: State)
    requires WellFormed(s)
    ensures Extends(s, End(s, InternalError))
  {
    hide StepClient;
  }

  lemma FlushExtends(s: State, onlyPrimary: bool, p: nat)
    requires WellFormed(s) && PrimaryOf(s.conn) == Some(p)
    ensures Extends(s, MaybeFlush(s, onlyPrimary, p))
  {
    hide StepClient, SendAll;
  }

  lemma HandleIncomingExtends(s: State, isPrimary: bool, request: Request, brokenAt: Option<nat>)
    requires WellFormed(s) && (isPrimary ==> PrimaryOf(s.conn).Some?)
    ensures HandleIncoming(s, isPrimary, request, brokenAt).0.clients == s.clients
    ensures HandleIncoming(s, isPrimary, request, brokenAt).0.route == s.route
  {
    hide Encode;
  }

  lemma ReceiveExtends(s: State, isPrimary: bool, request: Option<Request>, brokenAt: Option<nat>)
    requires WellFormed(s) && (isPrimary ==> PrimaryOf(s.conn).Some?)
    requires isPrimary || s.conn.OnlySecondary? || s.conn.Both?
    ensures Extends(s, Receive(s, isPrimary, request, brokenAt))
  {
    hide StepClient, SendAll, Encode, HandleIncoming, Disconnect, End, MaybeFlush;
    if request.None? {
      DisconnectExtends(s, isPrimary);
    } else {
      HandleIncomingExtends(s, isPrimary, request.value, brokenAt);
      var (s1, handled) := HandleIncoming(s, isPrimary, request.value, brokenAt);
      match handled
      case DropTransport => DisconnectExtends(s1, isPrimary);
      case TerminateConnection => EndExtends(s1);
      case Ok =>
        if isPrimary {
          FlushExtends(s1, s.conn.OnlyPrimary?, PrimaryOf(s.conn).value);
        }
    }
  }

  /** A transport that has been dropped is never heard of again, in any continuation of the run:
      a truncated payload is the last thing its client sees. */
  lemma {:induction false} DroppedTransportStaysSilent(events: seq<Event>, more: seq<Event>)
    ensures Extends(Run(events), Run(events + more))
    decreases |more|
  {
    hide Step;
    if more == [] {
      assert events + more == events;
    } else {
      var n := |more| - 1;
      DroppedTransportStaysSilent(events, more[..n]);
      assert (events + more)[..|events + more| - 1] == events + more[..n];
      StepExtends(Run(events + more[..n]), more[n]);
    }
  }
}
