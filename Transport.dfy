/** The state of a RemoteIPC object as a value, and one function per RemoteIPC operation
    giving the state after it (and its result).  These functions are the specification the
    methods of class RemoteIPC are proved against; the properties the source promises are
    stated in their contracts and in the lemmas of module Traces.

    The EtherIPC base class is not part of this model.  What RemoteIPC asks of it appears
    as an oracle argument (the base close result, the local read, write and writable results,
    the base geth arguments, the local socket's error string), and each call into it other
    than the two queries buildGethArgs and endpointWritable is appended to the log `base`.
    Each call RemoteIPC makes on its websocket is appended to the log `socket`. */
module Transport {
  import opened Requests
  import opened Encoding

  datatype Option<T> = None | Some(value: T)

  /** The websocket's connection state (QAbstractSocket::SocketState, as far as RemoteIPC
      looks at it). */
  datatype WsState = Unconnected | Connecting | Connected | Closing

  /** A call RemoteIPC makes on its websocket. */
  datatype WsOp = Open(url: string) | Close | SendBinary(payload: seq<byte>)

  /** A call RemoteIPC makes into its EtherIPC base class. */
  datatype BaseCall =
    | BaseInit
    | BaseConnectedToServer
    | BaseCloseApp
    | BaseGetLogs(addresses: seq<string>, topics: seq<string>, fromBlock: nat)
    | BaseSocketReadyRead
    | BaseRead
    | BaseWrite(data: seq<byte>)
    | SetError(message: string)
    | Bail

  /** The discovery service's reply, after JSON parsing: `endpoint` is None when the field
      is absent or not a string. */
  datatype Reply = Reply(success: bool, endpoint: Option<string>, error: string)

  datatype State = State(
    isThin: bool,             // fIsThinClient
    endpoint: string,         // fEndpoint
    received: seq<byte>,      // fReceivedMessage, the single-slot inbound buffer
    ws: WsState,              // fWebSocket.state()
    localConnected: bool,     // fSocket.state() == ConnectedState (base class)
    closingApp: bool,         // fClosingApp (base class)
    activeType: RequestType,  // fActiveRequest.getType() (base class)
    interval: int,            // fTimer's interval in milliseconds (base class)
    base: seq<BaseCall>,      // calls made into EtherIPC, oldest first
    socket: seq<WsOp>         // calls made on fWebSocket, oldest first
  )

  const THIN_INTERVAL_MS := 10000
  const THIN_GETH_FLAGS: seq<string> := ["--maxpeers=0", "--nodiscover", "--nat=none"]
  const INVALID_ENDPOINT := "invalid"
  const DISCONNECTED_ERROR := "WS: Disconnected from websocket"
  const ERROR_PREFIX := "WS: "

  /** Whether the request in flight goes over the websocket. */
  predicate Remote(s: State) {
    IsRemoteRequest(s.isThin, s.activeType)
  }

  /** The guard of connectWebsocket. */
  predicate CanOpen(s: State) {
    s.isThin && s.ws == Unconnected && s.endpoint != ""
  }

  /** A freshly constructed RemoteIPC: no endpoint yet, an empty buffer, an unconnected
      websocket, nothing called yet.  The mode is the persisted setting. */
  function Created(isThin: bool, interval: int): (r: State)
    ensures r.isThin == isThin && r.endpoint == "" && r.received == [] && r.ws == Unconnected
    ensures !r.localConnected && !r.closingApp && r.base == [] && r.socket == []
  {
    State(isThin, "", [], Unconnected, false, false, NoRequest, interval, [], [])
  }

  /** QWebSocket::open: the socket starts connecting to `url`. */
  function OpenSocket(s: State, url: string): State {
    s.(ws := Connecting, socket := s.socket + [Open(url)])
  }

  /** connectWebsocket: the websocket is opened, with the stored endpoint, exactly when the
      mode is thin, the socket is unconnected and the endpoint is non-empty; otherwise
      nothing changes. */
  function ConnectWebsocket(s: State): (r: State)
    ensures r.socket != s.socket <==> CanOpen(s)
    ensures CanOpen(s) ==> r.ws == Connecting && r.socket == s.socket + [Open(s.endpoint)]
    ensures CanOpen(s) ==> r == s.(ws := r.ws, socket := r.socket)
    ensures !CanOpen(s) ==> r == s
  {
    if CanOpen(s) then OpenSocket(s, s.endpoint) else s
  }

  /** init: re-reads the mode, tries to connect the websocket, then runs the base init. */
  function Init(s: State, isThin: bool): (r: State)
    ensures r.isThin == isThin && r.endpoint == s.endpoint && r.received == s.received
    ensures r.base == s.base + [BaseInit]
    ensures r.socket != s.socket <==> isThin && s.ws == Unconnected && s.endpoint != ""
    ensures r.socket != s.socket ==> r.socket == s.socket + [Open(s.endpoint)] && r.ws == Connecting
    ensures r.socket == s.socket ==> r.ws == s.ws
    ensures r == s.(isThin := isThin, ws := r.ws, socket := r.socket, base := r.base)
  {
    var t := ConnectWebsocket(s.(isThin := isThin));
    t.(base := t.base + [BaseInit])
  }

  /** getLogs: delegated to the base class in full-node mode, ignored in thin mode. */
  function GetLogs(s: State, addresses: seq<string>, topics: seq<string>, fromBlock: nat): (r: State)
    ensures s.isThin ==> r == s
    ensures !s.isThin ==> r == s.(base := s.base + [BaseGetLogs(addresses, topics, fromBlock)])
  {
    if !s.isThin then s.(base := s.base + [BaseGetLogs(addresses, topics, fromBlock)]) else s
  }

  /** closeApp, given the base close's verdict `baseDone` (the base close also raises the
      closing flag).  Done only when the base is done and the websocket is unconnected; when the
      base is done but the websocket is not, the websocket is asked to close and the answer is
      "not yet"; while the base is not done the websocket is left alone. */
  function CloseApp(s: State, baseDone: bool): (r: (State, bool))
    ensures r.1 <==> baseDone && s.ws == Unconnected
    ensures r.0.closingApp && r.0.base == s.base + [BaseCloseApp]
    ensures baseDone && s.ws != Unconnected ==> r.0.ws == Closing && r.0.socket == s.socket + [Close]
    ensures !(baseDone && s.ws != Unconnected) ==> r.0.ws == s.ws && r.0.socket == s.socket
    ensures r.0 == s.(closingApp := true, ws := r.0.ws, base := r.0.base, socket := r.0.socket)
  {
    var t := s.(closingApp := true, base := s.base + [BaseCloseApp]);
    if baseDone && t.ws != Unconnected then (t.(ws := Closing, socket := t.socket + [Close]), false)
    else (t, baseDone)
  }

  /** setInterval: the requested interval is ignored and the timer runs every 10 s. */
  function SetInterval(s: State, requested: int): (r: State)
    ensures r.interval == THIN_INTERVAL_MS
    ensures r == s.(interval := THIN_INTERVAL_MS)
  {
    s.(interval := THIN_INTERVAL_MS)
  }

  /** connectedToServer, called when the local side is ready: forwarded to the base class in
      full-node mode, and in thin mode only if the websocket is already connected. */
  function ConnectedToServer(s: State): (r: State)
    ensures r.base != s.base <==> !s.isThin || s.ws == Connected
    ensures r.base != s.base ==> r == s.(base := s.base + [BaseConnectedToServer])
    ensures r.base == s.base ==> r == s
  {
    if !s.isThin || s.ws == Connected then s.(base := s.base + [BaseConnectedToServer]) else s
  }

  /** onConnectedWS: the websocket is now connected; the base "connected" notification is
      forwarded only if the local socket is connected too. */
  function OnConnectedWS(s: State): (r: State)
    ensures r.ws == Connected
    ensures r.base != s.base <==> s.localConnected
    ensures r.base != s.base ==> r.base == s.base + [BaseConnectedToServer]
    ensures r == s.(ws := Connected, base := r.base)
  {
    var t := s.(ws := Connected);
    if t.localConnected then t.(base := t.base + [BaseConnectedToServer]) else t
  }

  /** Recording an error and taking the shared abort path. */
  function Fail(s: State, message: string): State {
    s.(base := s.base + [SetError(message), Bail])
  }

  /** onDisconnectedWS: the websocket is now unconnected; unless the app is closing this is
      an error followed by the abort path. */
  function OnDisconnectedWS(s: State): (r: State)
    ensures r.ws == Unconnected
    ensures !s.closingApp ==> r.base == s.base + [SetError(DISCONNECTED_ERROR), Bail]
    ensures s.closingApp ==> r.base == s.base
    ensures r == s.(ws := Unconnected, base := r.base)
  {
    var t := s.(ws := Unconnected);
    if !t.closingApp then Fail(t, DISCONNECTED_ERROR) else t
  }

  /** onErrorWS: always an error followed by the abort path, whatever the closing flag.  The
      message is built from the LOCAL socket's error string `localSocketError`. */
  function OnErrorWS(s: State, localSocketError: string): (r: State)
    ensures r.base == s.base + [SetError(ERROR_PREFIX + localSocketError), Bail]
    ensures r == s.(base := r.base)
  {
    Fail(s, ERROR_PREFIX + localSocketError)
  }

  /** onTextMessageReceivedWS: the message's UTF-8 bytes replace whatever was buffered, and
      the base class is told that data is ready. */
  function OnTextMessage(s: State, msg: string): (r: State)
    ensures r.received == Utf8(msg)
    ensures r == s.(received := Utf8(msg), base := s.base + [BaseSocketReadyRead])
  {
    s.(received := Utf8(msg), base := s.base + [BaseSocketReadyRead])
  }

  /** endpointRead, given what a local read would return: a remote request takes the buffer
      and leaves it empty; a local request reads from the base class and leaves the buffer. */
  function EndpointRead(s: State, localData: seq<byte>): (r: (State, seq<byte>))
    ensures Remote(s) ==> r.1 == s.received && r.0 == s.(received := [])
    ensures !Remote(s) ==> r.1 == localData && r.0 == s.(base := s.base + [BaseRead])
  {
    if Remote(s) then (s.(received := []), s.received)
    else (s.(base := s.base + [BaseRead]), localData)
  }

  /** endpointWrite, given how many bytes the websocket accepted (`sent`, at most the
      payload) and what a local write would return: a remote request goes out as one binary
      websocket message and reports `sent`; a local request goes to the base class. */
  function EndpointWrite(s: State, data: seq<byte>, sent: nat, localWritten: int): (r: (State, int))
    requires sent <= |data|
    ensures Remote(s) ==> r.1 == sent && 0 <= r.1 <= |data| && r.0 == s.(socket := s.socket + [SendBinary(data)])
    ensures !Remote(s) ==> r.1 == localWritten && r.0 == s.(base := s.base + [BaseWrite(data)])
  {
    if Remote(s) then (s.(socket := s.socket + [SendBinary(data)]), sent)
    else (s.(base := s.base + [BaseWrite(data)]), localWritten)
  }

  /** endpointWritable, given the local channel's answer: always writable for a remote
      request, otherwise whatever the local channel says. */
  function EndpointWritable(s: State, localWritable: bool): (w: bool)
    ensures Remote(s) ==> w
    ensures !Remote(s) ==> w == localWritable
  {
    Remote(s) || localWritable
  }

  /** The endpoint a successful reply names, "invalid" when the field is missing. */
  function EndpointOf(reply: Reply): (e: string)
    ensures reply.endpoint.Some? ==> e == reply.endpoint.value
    ensures reply.endpoint.None? ==> e == INVALID_ENDPOINT
    ensures e != "" || (reply.endpoint.Some? && reply.endpoint.value == "")
  {
    match reply.endpoint
    case Some(e) => e
    case None => INVALID_ENDPOINT
  }

  /** httpRequestDone: a failed reply changes nothing (it is only logged); a successful one
      stores the endpoint and tries to connect the websocket. */
  function HttpRequestDone(s: State, reply: Reply): (r: State)
    ensures !reply.success ==> r == s
    ensures reply.success ==> r.endpoint == EndpointOf(reply)
    ensures reply.success && reply.endpoint.None? ==> r.endpoint == INVALID_ENDPOINT
    ensures reply.success ==> r == ConnectWebsocket(s.(endpoint := EndpointOf(reply)))
  {
    if !reply.success then s
    else ConnectWebsocket(s.(endpoint := EndpointOf(reply)))
  }

  /** buildGethArgs, given the base argument list: in thin mode the three flags that turn
      off peering, discovery and NAT traversal are appended, in full-node mode nothing. */
  function BuildGethArgs(s: State, baseArgs: seq<string>): (args: seq<string>)
    ensures |args| >= |baseArgs| && args[..|baseArgs|] == baseArgs
    ensures s.isThin ==> args[|baseArgs|..] == THIN_GETH_FLAGS
    ensures !s.isThin ==> args == baseArgs
  {
    if s.isThin then baseArgs + THIN_GETH_FLAGS else baseArgs
  }
}
