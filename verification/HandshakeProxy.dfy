/** The handshake proxy: forwards the payloads of one service connection to a primary or a
    secondary client transport, either of which may come, go or be replaced at any moment.
    This file is the state machine; ProxySafety.dfy proves what every run of it keeps. */
module HandshakeProxy {
  import opened Common
  import opened ServiceFraming

  datatype Reason = ConnectionInUse | ServiceTerminated | InternalError

  datatype Token = Token(ttl: nat, accessToken: nat)

  /** The calls the proxy makes on a transport's sender. */
  datatype Out =
    | StartWrite(len: nat)
    | Write(bytes: seq<byte>)
    | SendToken(token: Token)
    | Terminate(reason: Reason)

  /** The receiving end's view of its stream: the bytes still owed of the open payload. A payload
      or a token that starts inside an open payload, a write that overruns it, and any call after
      a termination all break the stream. */
  datatype Status = Broken | Open(owed: nat) | Closed(owed: nat, reason: Reason)

  /** The client behind one transport: the state of its stream, the payloads it has reassembled
      (the last one possibly incomplete) and the token responses it has been given. */
  datatype Client = Client(status: Status, payloads: seq<Payload>, tokens: seq<Token>)

  const NEW_CLIENT := Client(Open(0), [], [])

  function StepStatus(st: Status, o: Out): Status {
    if !st.Open? then Broken
    else match o
      case StartWrite(len) => if st.owed == 0 then Open(len) else Broken
      case Write(b) => if st.owed > 0 && |b| <= st.owed then Open(st.owed - |b|) else Broken
      case SendToken(_) => if st.owed == 0 then st else Broken
      case Terminate(reason) => Closed(st.owed, reason)
  }

  function StepPayloads(ps: seq<Payload>, o: Out): seq<Payload> {
    match o
    case StartWrite(len) => ps + [Payload(len, [])]
    case Write(b) => if ps == [] then [] else GrowLast(ps, b)
    case _ => ps
  }

  function StepClient(c: Client, o: Out): Client {
    Client(StepStatus(c.status, o), StepPayloads(c.payloads, o),
           if o.SendToken? then c.tokens + [o.token] else c.tokens)
  }

  /** Transports are numbered in the order in which they arrive. */
  datatype Conn =
    | NoConnection
    | OnlyPrimary(p: nat)
    | OnlySecondary(s: nat)
    | Both(p: nat, s: nat)
    | Terminated

  /** The proxy's fields (its read buffer and `current_write` are in `stream`), the clients behind
      its transports, and its history: the transport each service payload was opened on, the
      token responses each transport asked for, the client payloads accepted for the service, the
      bytes written to it, and how many of these are left over from a write that failed. */
  datatype State = State(
    conn: Conn,
    discardBytes: bool,
    primaryIsSender: bool,
    queue: seq<Token>,
    stream: Stream,
    clients: seq<Client>,
    route: seq<nat>,
    requested: seq<seq<Token>>,
    accepted: seq<seq<byte>>,
    toService: seq<byte>,
    leftover: nat)

  datatype Request =
    | ServicePayload(bytes: seq<byte>)
    | AccessToken(token: Token)
    | ExtendAccessToken
    | DeliveryAcknowledgment

  /** `Recv` carries whether writing to the service fails, and after how many bytes; `Read` carries
      which of its transport writes fails (counting from zero) and how many bytes that one still
      delivers. */
  datatype Event =
    | NewConnection(isPrimary: bool)
    | ConnectionsClosed
    | Timeout
    | Recv(isPrimary: bool, request: Option<Request>, brokenAt: Option<nat>)
    | Read(bytes: seq<byte>, failAt: nat, partial: nat)
    | ReadError

  const INITIAL := State(NoConnection, false, false, [], EMPTY_STREAM, [], [], [], [], [], 0)

  predicate Attached(c: Conn, t: nat) {
    match c
    case OnlyPrimary(p) => t == p
    case OnlySecondary(s) => t == s
    case Both(p, s) => t == p || t == s
    case _ => false
  }

  function PrimaryOf(c: Conn): Option<nat> {
    match c
    case OnlyPrimary(p) => Some(p)
    case Both(p, _) => Some(p)
    case _ => None
  }

  /** Where the bytes of the current payload go. */
  function SenderOf(s: State): Option<nat> {
    match s.conn
    case OnlyPrimary(p) => Some(p)
    case OnlySecondary(t) => Some(t)
    case Both(p, t) => Some(if s.primaryIsSender then p else t)
    case _ => None
  }

  predicate WellFormed(s: State) {
    && (s.conn.OnlyPrimary? || s.conn.Both? ==> s.conn.p < |s.clients|)
    && (s.conn.OnlySecondary? || s.conn.Both? ==> s.conn.s < |s.clients|)
    && (s.conn.Both? ==> s.conn.p != s.conn.s)
    && |s.requested| == |s.clients|
  }

  function Emit(s: State, t: nat, o: Out): State
    requires t < |s.clients|
  {
    s.(clients := s.clients[t := StepClient(s.clients[t], o)])
  }

  // --- maybe_flush_primary_queue ------------------------------------------------------------

  /** The queue is filled at its front and popped from its back. */
  function SendAll(c: Client, queue: seq<Token>): Client
    decreases |queue|
  {
    if queue == [] then c
    else SendAll(StepClient(c, SendToken(queue[|queue| - 1])), queue[..|queue| - 1])
  }

  function Flush(s: State, p: nat): State
    requires p < |s.clients|
  {
    s.(queue := [], clients := s.clients[p := SendAll(s.clients[p], s.queue)])
  }

  function MaybeFlush(s: State, onlyPrimary: bool, p: nat): State
    requires p < |s.clients|
  {
    if !(onlyPrimary || s.primaryIsSender) || s.stream.currentWrite == 0 || s.discardBytes
    then Flush(s, p)
    else s
  }

  // --- reading from the service -------------------------------------------------------------

  /** A new header: forget what is known of the previous payload. */
  function Reset(s: State): State {
    s.(primaryIsSender := false, discardBytes := false)
  }

  function FlushPrimary(s: State): (r: State)
    requires WellFormed(s)
    ensures WellFormed(r) && r == s.(queue := r.queue, clients := r.clients)
  {
    match PrimaryOf(s.conn)
    case Some(p) => MaybeFlush(s, s.conn.OnlyPrimary?, p)
    case None => s
  }

  /** Opens the next payload on the current sender. */
  function OpenPayload(s: State): (r: State)
    requires WellFormed(s) && SenderOf(s).Some? && |s.stream.buffer| >= 4
    ensures WellFormed(r) && r.conn == s.conn && r.stream == TakeHeader(s.stream)
  {
    var t := SenderOf(s).value;
    Emit(s, t, StartWrite(NextLen(s.stream))).(stream := TakeHeader(s.stream), route := s.route + [t])
  }

  function SkipBody(s: State): State {
    s.(stream := TakeBody(s.stream))
  }

  function WriteBody(s: State): (r: State)
    requires WellFormed(s) && SenderOf(s).Some?
    ensures WellFormed(r) && r.conn == s.conn && r.stream == TakeBody(s.stream)
  {
    Emit(s, SenderOf(s).value, Write(Chunk(s.stream))).(stream := TakeBody(s.stream))
  }

  /** A failed write may still have delivered some bytes; its transport is dropped. */
  function FailWrite(s: State, partial: nat): (r: State)
    requires WellFormed(s) && SenderOf(s).Some?
    ensures WellFormed(r) && r.stream == TakeBody(s.stream) && r.conn != s.conn
  {
    var b := Chunk(s.stream);
    var delivered := if partial < |b| then b[..partial] else b;
    var s1 := Emit(s, SenderOf(s).value, Write(delivered)).(stream := TakeBody(s.stream), discardBytes := true);
    match s.conn
    case Both(p, q) =>
      if s.primaryIsSender then s1.(queue := [], conn := OnlySecondary(q))
      else s1.(conn := OnlyPrimary(p))
    case _ => s1.(queue := [], conn := NoConnection)
  }

  /** The inner read loop. */
  function Drain(s: State, failAt: nat, partial: nat): (r: State)
    requires WellFormed(s) && SenderOf(s).Some?
    ensures WellFormed(r)
    decreases |s.stream.buffer|
  {
    if s.stream.buffer == [] then s
    else if s.stream.currentWrite == 0 then
      if |s.stream.buffer| < 4 then s else Drain(OpenPayload(FlushPrimary(Reset(s))), failAt, partial)
    else if s.discardBytes then Drain(SkipBody(s), failAt, partial)
    else if failAt == 0 then FailWrite(s, partial)
    else Drain(WriteBody(s), failAt - 1, partial)
  }

  // --- the other events ---------------------------------------------------------------------

  /** Ends the proxy, the secondary being told first. */
  function End(s: State, reason: Reason): (r: State)
    requires WellFormed(s)
    ensures r == s.(conn := Terminated, clients := r.clients) && |r.clients| == |s.clients|
    ensures forall t :: 0 <= t < |s.clients| ==>
              r.clients[t] == if Attached(s.conn, t) then StepClient(s.clients[t], Terminate(reason)) else s.clients[t]
  {
    var s1 := if s.conn.OnlySecondary? || s.conn.Both? then Emit(s, s.conn.s, Terminate(reason)) else s;
    var s2 := if s.conn.OnlyPrimary? || s.conn.Both? then Emit(s1, s.conn.p, Terminate(reason)) else s1;
    s2.(conn := Terminated)
  }

  function Connect(s: State, isPrimary: bool): (r: State)
    requires WellFormed(s)
    ensures WellFormed(r)
  {
    var n := |s.clients|;
    var s1 := s.(clients := s.clients + [NEW_CLIENT], requested := s.requested + [[]]);
    match s.conn
    case Terminated => s
    case NoConnection => s1.(conn := if isPrimary then OnlyPrimary(n) else OnlySecondary(n))
    case OnlyPrimary(p) =>
      if isPrimary then
        Emit(s1, p, Terminate(ConnectionInUse)).(discardBytes := true, queue := [], conn := OnlyPrimary(n))
      else s1.(primaryIsSender := true, conn := Both(p, n))
    case OnlySecondary(q) =>
      if !isPrimary then
        Emit(s1, q, Terminate(ConnectionInUse)).(discardBytes := true, conn := OnlySecondary(n))
      else s1.(primaryIsSender := false, conn := Both(n, q))
    case Both(p, q) =>
      if isPrimary then
        s1.(discardBytes := s.discardBytes || s.primaryIsSender, queue := [], conn := Both(n, q))
      else
        s1.(discardBytes := s.discardBytes || !s.primaryIsSender, conn := Both(p, n))
  }

  /** A transport is lost, or misbehaves: the payload going its way is discarded. */
  function Disconnect(s: State, isPrimary: bool): (r: State)
    requires WellFormed(s)
    ensures WellFormed(r)
  {
    match s.conn
    case Both(p, q) =>
      if isPrimary then
        s.(discardBytes := s.discardBytes || s.primaryIsSender, queue := [], conn := OnlySecondary(q))
      else s.(discardBytes := s.discardBytes || !s.primaryIsSender, conn := OnlyPrimary(p))
    case _ => s.(discardBytes := true, queue := [], conn := NoConnection)
  }

  function First(bytes: seq<byte>, n: nat): (r: seq<byte>)
    ensures r <= bytes
  {
    if n < |bytes| then bytes[..n] else bytes
  }

  datatype Handled = Ok | DropTransport | TerminateConnection

  function HandleIncoming(s: State, isPrimary: bool, request: Request, brokenAt: Option<nat>): (r: (State, Handled))
    requires WellFormed(s) && (isPrimary ==> PrimaryOf(s.conn).Some?)
    ensures WellFormed(r.0) && r.0.conn == s.conn
  {
    match request
    case ServicePayload(bytes) =>
      if brokenAt.Some? then
        var cut := First(Encode(bytes), brokenAt.value);
        (s.(toService := s.toService + cut, leftover := |cut|), TerminateConnection)
      else (s.(toService := s.toService + Encode(bytes), accepted := s.accepted + [bytes]), Ok)
    case AccessToken(token) =>
      if !isPrimary then (s, DropTransport)
      else
        var p := PrimaryOf(s.conn).value;
        (s.(queue := [token] + s.queue, requested := s.requested[p := s.requested[p] + [token]]), Ok)
    case ExtendAccessToken => (s, if isPrimary then Ok else DropTransport)
    case DeliveryAcknowledgment => (s, DropTransport)
  }

  function Receive(s: State, isPrimary: bool, request: Option<Request>, brokenAt: Option<nat>): (r: State)
    requires WellFormed(s) && (isPrimary ==> PrimaryOf(s.conn).Some?)
    ensures WellFormed(r)
  {
    if request.None? then Disconnect(s, isPrimary)
    else
      var (s1, handled) := HandleIncoming(s, isPrimary, request.value, brokenAt);
      match handled
      case DropTransport => Disconnect(s1, isPrimary)
      case TerminateConnection => End(s1, InternalError)
      case Ok =>
        if isPrimary then MaybeFlush(s1, s.conn.OnlyPrimary?, PrimaryOf(s.conn).value) else s1
  }

  function ReadBytes(s: State, bytes: seq<byte>, failAt: nat, partial: nat): (r: State)
    requires WellFormed(s) && SenderOf(s).Some?
    ensures WellFormed(r)
  {
    if bytes == [] then End(s, if s.stream.currentWrite == 0 then ServiceTerminated else InternalError)
    else Drain(s.(stream := Received(s.stream, bytes)), failAt, partial)
  }

  /** An event that the current connection state does not listen to changes nothing. */
  function Step(s: State, e: Event): (r: State)
    requires WellFormed(s)
    ensures WellFormed(r)
  {
    match e
    case NewConnection(isPrimary) => Connect(s, isPrimary)
    case ConnectionsClosed => if s.conn.Terminated? then s else End(s, InternalError)
    case Timeout => if s.conn.NoConnection? then s.(conn := Terminated) else s
    case Recv(isPrimary, request, brokenAt) =>
      if (if isPrimary then PrimaryOf(s.conn).Some? else s.conn.OnlySecondary? || s.conn.Both?)
      then Receive(s, isPrimary, request, brokenAt)
      else s
    case Read(bytes, failAt, partial) =>
      if SenderOf(s).Some? then ReadBytes(s, bytes, failAt, partial) else s
    case ReadError => if SenderOf(s).Some? then End(s, InternalError) else s
  }

  /** The state after a run from the start. */
  function Run(events: seq<Event>): (s: State)
    ensures WellFormed(s)
  {
    if events == [] then INITIAL
    else Step(Run(events[..|events| - 1]), events[|events| - 1])
  }
}
