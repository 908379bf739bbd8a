/** The handshake proxy as the object it is: fields updated in place by one method per event. It knows
    which run it is in, so what is guaranteed of runs is guaranteed of its fields. */
module ProxyObject {
  import opened Common
  import opened ServiceFraming
  import opened HandshakeProxy
  import opened ProxySafety
  import opened ProxyGuarantees
  import opened ProxyProgress

  class Proxy {
    var conn: Conn
    var buffer: seq<byte>
    var currentWrite: nat
    var discardBytes: bool
    var isPrimaryTheCurrentSender: bool
    var queuedPrimaryResponse: seq<Token>

    // What the proxy has written, and its history.
    ghost var clients: seq<Client>
    ghost var route: seq<nat>
    ghost var requested: seq<seq<Token>>
    ghost var accepted: seq<seq<byte>>
    ghost var toService: seq<byte>
    ghost var read: seq<byte>
    ghost var consumed: seq<byte>
    ghost var frames: seq<Payload>
    ghost var leftover: nat
    ghost var events: seq<Event>

    ghost function View(): State
      reads this
    {
      State(conn, discardBytes, isPrimaryTheCurrentSender, queuedPrimaryResponse,
            Stream(read, consumed, buffer, currentWrite, frames),
            clients, route, requested, accepted, toService, leftover)
    }

    /** The transports in use exist. */
    ghost predicate Fits()
      reads this
    {
      WellFormed(View())
    }

    /** The state is that of the run so far. */
    ghost predicate Valid()
      reads this
    {
      View() == Run(events)
    }

    /** What each client has got: exactly the payloads opened on its transport, the last one cut short at
        most if the transport is gone; and no token response that is not its own. */
    ghost predicate ClientsAreWhole()
      reads this
    {
      && |route| == |Parse(consumed)| && |requested| == |clients|
      && forall t :: 0 <= t < |clients| ==>
           && clients[t].status != Broken && clients[t].tokens <= requested[t]
           && CutShort(clients[t].payloads, Select(Parse(consumed), route, t))
           && (Attached(conn, t) ==> clients[t].payloads == Select(Parse(consumed), route, t))
    }

    /** Where the proxy stands in the service's stream. */
    ghost predicate FramesAreInSync()
      reads this
    {
      && read == consumed + buffer && Aligned(consumed)
      && frames == Parse(consumed) && currentWrite == Missing(consumed)
    }

    /** Nothing that came in is lost: the bytes read, the payloads for the service and each transport's
        token requests are those of the events. */
    ghost predicate NothingIsLost()
      reads this
    {
      && read == ReadsOf(events) && accepted == PayloadsOf(events)
      && forall t :: 0 <= t < |requested| ==> requested[t] == TokensOf(events, t)
    }

    constructor ()
      ensures events == [] && Valid()
    {
      conn, buffer, currentWrite := NoConnection, [], 0;
      discardBytes, isPrimaryTheCurrentSender, queuedPrimaryResponse := false, false, [];
      clients, route, requested, accepted, toService := [], [], [], [], [];
      read, consumed, frames, leftover, events := [], [], [], 0, [];
    }

    /** A call on the sender of transport t. */
    ghost method Call(t: nat, o: Out)
      requires Fits() && t < |clients|
      modifies this`clients
      ensures View() == Emit(old(View()), t, o)
      ensures Fits()
    {
      clients := clients[t := StepClient(clients[t], o)];
    }

    method MaybeFlushPrimaryQueue(onlyPrimary: bool, p: nat)
      requires Fits() && p < |clients|
      modifies this`queuedPrimaryResponse, this`clients
      ensures View() == MaybeFlush(old(View()), onlyPrimary, p)
      ensures Fits()
    {
      hide StepClient;
      if queuedPrimaryResponse == [] {
        return;
      }
      var isPrimaryCurrentWriter := onlyPrimary || isPrimaryTheCurrentSender;
      if !isPrimaryCurrentWriter || currentWrite == 0 || discardBytes {
        while queuedPrimaryResponse != []
          invariant Fits() && p < |clients|
          invariant Flush(View(), p) == Flush(old(View()), p)
          decreases |queuedPrimaryResponse|
        {
          var n := |queuedPrimaryResponse| - 1;
          Call(p, SendToken(queuedPrimaryResponse[n]));
          queuedPrimaryResponse := queuedPrimaryResponse[..n];
        }
      }
    }

    /** Reads a header and opens its payload; the caller has seen at least four bytes. */
    method ReadHeader()
      requires Fits() && SenderOf(View()).Some? && |buffer| >= 4
      modifies this`conn, this`buffer, this`currentWrite, this`discardBytes, this`isPrimaryTheCurrentSender,
        this`queuedPrimaryResponse, this`clients, this`route, this`requested, this`accepted, this`toService, this`read,
        this`consumed, this`frames, this`leftover
      ensures View() == OpenPayload(FlushPrimary(Reset(old(View()))))
      ensures conn == old(conn) && !discardBytes && !isPrimaryTheCurrentSender
      ensures route == old(route) + [if conn.OnlyPrimary? then conn.p else conn.s]
      ensures old(currentWrite) == 0 && PrimaryOf(conn).Some? ==> queuedPrimaryResponse == []
      ensures Fits()
    {
      hide StepClient, SendAll, FromBe;
      isPrimaryTheCurrentSender := false;
      discardBytes := false;
      if conn.OnlyPrimary? || conn.Both? {
        MaybeFlushPrimaryQueue(conn.OnlyPrimary?, conn.p);
      }
      OpenNext();
    }

    /** Takes the next header off the buffer. */
    method SplitHeader()
      requires Fits() && |buffer| >= 4
      modifies this`buffer, this`currentWrite, this`consumed, this`frames
      ensures View() == old(View()).(stream := TakeHeader(old(View()).stream))
      ensures Fits()
    {
      hide FromBe;
      var len := FromBe(buffer[..4]);
      frames := frames + [Payload(len, [])];
      consumed := consumed + buffer[..4];
      buffer := buffer[4..];
      currentWrite := len;
    }

    /** Starts the next payload on the sender: the only transport, or else the secondary. */
    method OpenNext()
      requires Fits() && SenderOf(View()).Some? && |buffer| >= 4 && !isPrimaryTheCurrentSender
      modifies this`buffer, this`currentWrite, this`consumed, this`frames, this`clients, this`route
      ensures View() == OpenPayload(old(View()))
      ensures Fits()
    {
      hide StepClient, TakeHeader, NextLen;
      ghost var t := if conn.OnlyPrimary? then conn.p else conn.s;
      Call(t, StartWrite(NextLen(View().stream)));
      route := route + [t];
      SplitHeader();
    }

    /** Splits off the bytes of the current payload that are in the buffer. */
    method SplitBody() returns (bytes: seq<byte>)
      requires Fits()
      modifies this`buffer, this`currentWrite, this`consumed, this`frames
      ensures Fits() && bytes == Chunk(old(View()).stream)
      ensures View() == SkipBody(old(View()))
    {
      var take := if currentWrite < |buffer| then currentWrite else |buffer|;
      bytes := buffer[..take];
      frames := if frames == [] then [] else GrowLast(frames, bytes);
      consumed := consumed + bytes;
      buffer := buffer[take..];
      currentWrite := currentWrite - take;
    }

    method WriteChunk()
      requires Fits() && SenderOf(View()).Some?
      modifies this`buffer, this`currentWrite, this`consumed, this`frames, this`clients
      ensures View() == WriteBody(old(View()))
      ensures Fits()
    {
      hide StepClient, GrowLast, Attached, Chunk;
      ghost var sender := SenderOf(View()).value;
      var bytes := SplitBody();
      Call(sender, Write(bytes));
    }

    /** A write that fails: the transport the current payload was going to is lost. */
    method FailChunk(partial: nat)
      requires Fits() && SenderOf(View()).Some?
      modifies this`conn, this`buffer, this`currentWrite, this`discardBytes, this`isPrimaryTheCurrentSender,
        this`queuedPrimaryResponse, this`clients, this`route, this`requested, this`accepted, this`toService, this`read,
        this`consumed, this`frames, this`leftover
      ensures View() == FailWrite(old(View()), partial)
      ensures Fits()
    {
      hide StepClient, GrowLast;
      ghost var sender := SenderOf(View()).value;
      var bytes := SplitBody();
      Call(sender, Write(if partial < |bytes| then bytes[..partial] else bytes));
      discardBytes := true;
      if conn.Both? {
        if isPrimaryTheCurrentSender {
          queuedPrimaryResponse := [];
          conn := OnlySecondary(conn.s);
        } else {
          conn := OnlyPrimary(conn.p);
        }
      } else {
        queuedPrimaryResponse := [];
        conn := NoConnection;
      }
    }

    method Append(bytes: seq<byte>)
      requires Fits()
      modifies this`buffer, this`read
      ensures View() == old(View()).(stream := Received(old(View()).stream, bytes))
      ensures Fits()
    {
      buffer, read := buffer + bytes, read + bytes;
    }

    /** The read arm of both connection loops. */
    method DoRead(bytes: seq<byte>, failAt: nat, partial: nat)
      requires Fits() && SenderOf(View()).Some?
      modifies this`conn, this`buffer, this`currentWrite, this`discardBytes, this`isPrimaryTheCurrentSender,
        this`queuedPrimaryResponse, this`clients, this`route, this`requested, this`accepted, this`toService, this`read,
        this`consumed, this`frames, this`leftover
      ensures View() == ReadBytes(old(View()), bytes, failAt, partial)
      ensures Fits()
    {
      hide WellFormed, OpenPayload, FlushPrimary, WriteBody, FailWrite, End, Chunk, GrowLast, NextLen, Attached;
      if bytes == [] {
        Terminate(if currentWrite == 0 then ServiceTerminated else InternalError);
        return;
      }
      Append(bytes);
      ghost var start := View();
      var writes := failAt;
      while buffer != []
        invariant Fits() && SenderOf(View()).Some?
        invariant Drain(View(), writes, partial) == Drain(start, failAt, partial)
        decreases |buffer|
      {
        if currentWrite == 0 {
          if |buffer| < 4 {
            return;
          }
          ReadHeader();
        } else if discardBytes {
          var _ := SplitBody();
        } else if writes == 0 {
          FailChunk(partial);
          return;
        } else {
          WriteChunk();
          writes := writes - 1;
        }
      }
    }

    method Terminate(reason: Reason)
      requires Fits()
      modifies this`conn, this`clients
      ensures View() == End(old(View()), reason)
      ensures Fits()
    {
      if conn.OnlySecondary? || conn.Both? {
        Call(conn.s, Out.Terminate(reason));
      }
      if conn.OnlyPrimary? || conn.Both? {
        Call(conn.p, Out.Terminate(reason));
      }
      conn := Terminated;
    }

    /** What a client's frame asks for. */
    method HandleFrame(isPrimary: bool, request: Request, brokenAt: Option<nat>) returns (handled: Handled)
      requires Fits() && (isPrimary ==> PrimaryOf(conn).Some?)
      modifies this`queuedPrimaryResponse, this`requested, this`toService, this`accepted, this`leftover
      ensures (View(), handled) == HandleIncoming(old(View()), isPrimary, request, brokenAt)
      ensures request.ServicePayload? && brokenAt.None? ==>
                && handled == Ok && accepted == old(accepted) + [request.bytes]
                && toService == old(toService) + U32ToBe(|request.bytes| % U32_MODULUS) + request.bytes
      ensures request.ServicePayload? && brokenAt.Some? ==> handled == TerminateConnection && accepted == old(accepted)
      ensures request.AccessToken? && isPrimary ==>
                && handled == Ok && queuedPrimaryResponse == [request.token] + old(queuedPrimaryResponse)
                && requested == old(requested)[conn.p := old(requested)[conn.p] + [request.token]]
      ensures !request.ServicePayload? ==>
                (handled == DropTransport <==> !isPrimary || request.DeliveryAcknowledgment?)
      ensures Fits()
    {
      handled := Ok;
      match request
      case ServicePayload(bytes) =>
        if brokenAt.Some? {
          ghost var cut := First(Encode(bytes), brokenAt.value);
          toService, leftover := toService + cut, |cut|;
          handled := TerminateConnection;
        } else {
          toService, accepted := toService + Encode(bytes), accepted + [bytes];
        }
      case AccessToken(token) =>
        if !isPrimary {
          handled := DropTransport;
        } else {
          queuedPrimaryResponse := [token] + queuedPrimaryResponse;
          requested := requested[conn.p := requested[conn.p] + [token]];
        }
      case ExtendAccessToken =>
        if !isPrimary {
          handled := DropTransport;
        }
      case DeliveryAcknowledgment => handled := DropTransport;
    }

    /** A client frame, or the end of a client's transport. */
    method DoRecv(isPrimary: bool, request: Option<Request>, brokenAt: Option<nat>)
      requires Fits() && (if isPrimary then PrimaryOf(conn).Some? else conn.OnlySecondary? || conn.Both?)
      modifies this`conn, this`buffer, this`currentWrite, this`discardBytes, this`isPrimaryTheCurrentSender,
        this`queuedPrimaryResponse, this`clients, this`route, this`requested, this`accepted, this`toService, this`read,
        this`consumed, this`frames, this`leftover
      ensures View() == Receive(old(View()), isPrimary, request, brokenAt)
      ensures Fits()
    {
      hide MaybeFlush, Disconnect, End, HandleIncoming, StepClient;
      if request.None? {
        OnTransportLost(isPrimary);
        return;
      }
      var handled := HandleFrame(isPrimary, request.value, brokenAt);
      match handled
      case DropTransport => OnTransportLost(isPrimary);
      case TerminateConnection => Terminate(InternalError);
      case Ok =>
        if isPrimary {
          MaybeFlushPrimaryQueue(conn.OnlyPrimary?, conn.p);
        }
    }

    method OnTransportLost(isPrimary: bool)
      requires Fits()
      modifies this`discardBytes, this`queuedPrimaryResponse, this`conn
      ensures View() == Disconnect(old(View()), isPrimary)
      ensures Fits()
    {
      if conn.Both? && isPrimary {
        if isPrimaryTheCurrentSender {
          discardBytes := true;
        }
        queuedPrimaryResponse := [];
        conn := OnlySecondary(conn.s);
      } else if conn.Both? {
        if !isPrimaryTheCurrentSender {
          discardBytes := true;
        }
        conn := OnlyPrimary(conn.p);
      } else {
        discardBytes := true;
        queuedPrimaryResponse := [];
        conn := NoConnection;
      }
    }

    /** A new client transport, numbered n, joins or replaces one of the same kind. */
    method DoConnect(isPrimary: bool, n: nat)
      requires Fits() && !conn.Terminated? && n == |clients|
      modifies this`conn, this`buffer, this`currentWrite, this`discardBytes, this`isPrimaryTheCurrentSender,
        this`queuedPrimaryResponse, this`clients, this`route, this`requested, this`accepted, this`toService, this`read,
        this`consumed, this`frames, this`leftover
      ensures View() == Connect(old(View()), isPrimary)
      ensures Fits()
    {
      hide StepClient;
      clients, requested := clients + [NEW_CLIENT], requested + [[]];
      match conn
      case NoConnection =>
        conn := if isPrimary then OnlyPrimary(n) else OnlySecondary(n);
      case OnlyPrimary(p) =>
        if isPrimary {
          Call(p, Out.Terminate(ConnectionInUse));
          discardBytes := true;
          queuedPrimaryResponse := [];
          conn := OnlyPrimary(n);
        } else {
          isPrimaryTheCurrentSender := true;
          conn := Both(p, n);
        }
      case OnlySecondary(q) =>
        if !isPrimary {
          Call(q, Out.Terminate(ConnectionInUse));
          discardBytes := true;
          conn := OnlySecondary(n);
        } else {
          isPrimaryTheCurrentSender := false;
          conn := Both(n, q);
        }
      case Both(p, q) =>
        if isPrimary {
          if isPrimaryTheCurrentSender {
            discardBytes := true;
          }
          queuedPrimaryResponse := [];
          conn := Both(n, q);
        } else {
          if !isPrimaryTheCurrentSender {
            discardBytes := true;
          }
          conn := Both(p, n);
        }
    }

    // --- the events -----------------------------------------------------------------------------

    /** Adds an event whose effect is done. Every guarantee about runs now holds of the fields. */
    ghost method Record(e: Event, before: State)
      requires before == Run(events) && View() == Step(before, e)
      modifies this`events
      ensures Valid() && events == old(events) + [e]
      ensures FramesAreInSync() && ClientsAreWhole() && NothingIsLost()
    {
      hide Step, Select, CutShort, Scan, ReadsOf, PayloadsOf, TokensOf;
      assert (events + [e])[..|events|] == events;
      events := events + [e];
      assert View() == Run(events);
      FrameSync(events);
      forall t | 0 <= t < |clients|
        ensures |route| == |Parse(consumed)| && |requested| == |clients|
        ensures clients[t].status != Broken && clients[t].tokens <= requested[t]
        ensures CutShort(clients[t].payloads, Select(Parse(consumed), route, t))
        ensures Attached(conn, t) ==> clients[t].payloads == Select(Parse(consumed), route, t)
      {
        hide Run;
        PayloadOwnership(events, t);
        TokenResponses(events, t);
      }
      RoutesOf(events);
      NothingIncomingIsLost(events);
      forall t | 0 <= t < |requested| ensures requested[t] == TokensOf(events, t) {
        RequestsAreRecorded(events, t);
      }
    }

    /** A read that switches no state leaves nothing it could still use, and one that opens a payload opens
        it on the secondary if there is one. At the end of the stream each client is told why. */
    method OnRead(bytes: seq<byte>, failAt: nat, partial: nat)
      requires Valid() && SenderOf(View()).Some?
      modifies this
      ensures Valid() && events == old(events) + [Read(bytes, failAt, partial)]
      ensures FramesAreInSync() && ClientsAreWhole() && NothingIsLost()
      ensures OpensOn(old(conn), old(route), route)
      ensures forall t: nat :: bytes == [] && Attached(old(conn), t) ==>
                && t < |clients| == |old(clients)|
                && clients[t].status.Closed?
                && clients[t].status.reason == if old(currentWrite) == 0 then ServiceTerminated else InternalError
      ensures bytes != [] && conn == old(conn) ==> buffer == [] || (currentWrite == 0 && |buffer| < 4)
    {
      hide Run, Drain, End, Scan, OpensOn, ReadsOf, PayloadsOf, TokensOf;
      ghost var before := View();
      ghost var e := Read(bytes, failAt, partial);
      DoRead(bytes, failAt, partial);
      PayloadsAreOpenedOnSecondary(events, e);
      RunAppend(events, e);
      FrameSync(events);
      forall t: nat | bytes == [] && Attached(before.conn, t)
        ensures t < |clients| == |before.clients|
        ensures clients[t].status.Closed?
        ensures clients[t].status.reason == if before.stream.currentWrite == 0 then ServiceTerminated else InternalError
      {
        EveryClientLearnsTheReason(events, e, t);
      }
      if bytes != [] {
        DrainLeavesShortHeader(before.(stream := Received(before.stream, bytes)), failAt, partial);
      }
      Record(e, before);
    }

    /** The primary is owed exactly the responses in the queue, and none unless a payload opened on it is
        unfinished. A frame costs at most the transport it came on, or ends the proxy. */
    method OnRecv(isPrimary: bool, request: Option<Request>, brokenAt: Option<nat>)
      requires Valid() && (if isPrimary then PrimaryOf(conn).Some? else conn.OnlySecondary? || conn.Both?)
      modifies this
      ensures Valid() && events == old(events) + [Recv(isPrimary, request, brokenAt)]
      ensures FramesAreInSync() && ClientsAreWhole() && NothingIsLost()
      ensures PrimaryOf(conn).Some? ==>
                var p := PrimaryOf(conn).value;
                && p < |clients| == |requested| && requested[p] == clients[p].tokens + InOrder(queuedPrimaryResponse)
                && (isPrimary && !old(Busy(View(), p)) ==> clients[p].tokens == TokensOf(events, p))
      ensures conn.Terminated? <==> request.Some? && request.value.ServicePayload? && brokenAt.Some?
      ensures !conn.Terminated? ==>
                && Slot(conn, !isPrimary) == Slot(old(conn), !isPrimary)
                && Slot(conn, isPrimary) ==
                     if request.None? || Refused(isPrimary, request.value) then None else Slot(old(conn), isPrimary)
    {
      hide Run, Receive, Scan, ReadsOf, PayloadsOf, TokensOf;
      ghost var before := View();
      ghost var e := Recv(isPrimary, request, brokenAt);
      RunAppend(events, e);
      ClientFramesAndPlaces(events, isPrimary, request, brokenAt);
      DoRecv(isPrimary, request, brokenAt);
      ghost var earlier := events;
      Record(e, before);
      if PrimaryOf(conn).Some? {
        TokenResponses(events, PrimaryOf(conn).value);
        if isPrimary {
          ResponsesGoOutBetweenPayloads(earlier, e, PrimaryOf(conn).value);
        }
      }
    }

    /** No transport loses or gains a byte of a payload that is not its own when another joins. */
    method OnConnect(isPrimary: bool, n: nat)
      requires Valid() && !conn.Terminated? && n == |clients|
      modifies this
      ensures Valid() && events == old(events) + [NewConnection(isPrimary)]
      ensures FramesAreInSync() && ClientsAreWhole() && NothingIsLost()
      ensures Slot(conn, isPrimary) == Some(n) && Slot(conn, !isPrimary) == Slot(old(conn), !isPrimary)
    {
      hide Run, Scan, ReadsOf, PayloadsOf, TokensOf;
      ghost var before := View();
      RunAppend(events, NewConnection(isPrimary));
      NewTransportTakesItsPlace(events, isPrimary);
      DoConnect(isPrimary, n);
      Record(NewConnection(isPrimary), before);
    }

    /** The listener is gone, or reading from the service failed. */
    method OnFailure(readError: bool)
      requires Valid() && !conn.Terminated? && (readError ==> SenderOf(View()).Some?)
      modifies this
      ensures Valid() && events == old(events) + [if readError then ReadError else ConnectionsClosed]
      ensures conn.Terminated? && FramesAreInSync() && ClientsAreWhole() && NothingIsLost()
      ensures forall t: nat :: Attached(old(conn), t) ==>
                t < |clients| && clients[t].status.Closed? && clients[t].status.reason == InternalError
    {
      hide Run, StepClient, Scan, ReadsOf, PayloadsOf, TokensOf;
      ghost var before := View();
      ghost var e := if readError then ReadError else ConnectionsClosed;
      RunAppend(events, e);
      forall t: nat | Attached(before.conn, t)
        ensures var c := Step(before, e).clients; t < |c| && c[t].status.Closed? && c[t].status.reason == InternalError
      {
        EveryClientLearnsTheReason(events, e, t);
      }
      Terminate(InternalError);
      Record(e, before);
    }
  }

  lemma RoutesOf(events: seq<Event>)
    ensures |Run(events).route| == |Parse(Run(events).stream.consumed)|
    ensures |Run(events).requested| == |Run(events).clients|
  {
    hide Run, Scan;
    RunKeeps(events);
  }
}
