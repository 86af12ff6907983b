/** Runs of a RemoteIPC object: the single-threaded event loop delivers one event at a time
    (a call from the engine, a websocket signal, the discovery reply, or a change the base
    class makes), and each event is one function of module Transport.  The lemmas whose name
    starts with Run, and ClosingIsSticky, NoBailWhileClosing, FullModeStaysLocal,
    UnconnectedStaysUnconnected and DoneStaysDone, hold over runs of any length; the others
    are about one to three steps. */
module Traces {
  import opened Requests
  import opened Encoding
  import opened Transport

  datatype Event =
    | Reinit(thin: bool)                                   // init()
    | LocalConnected                                       // the local socket connects: connectedToServer()
    | WsConnected                                          // QWebSocket::connected
    | WsDisconnected                                       // QWebSocket::disconnected
    | WsError(localSocketError: string)                    // QWebSocket::error
    | WsText(msg: string)                                  // QWebSocket::textMessageReceived
    | Discovered(reply: Reply)                             // the discovery reply arrives
    | ClosePoll(baseDone: bool)                            // closeApp()
    | Read(localData: seq<byte>)                           // endpointRead()
    | Write(data: seq<byte>, sent: nat, localWritten: int) // endpointWrite(data)
    | IntervalRequest(requested: int)                      // setInterval(requested)
    | LogsRequest(addresses: seq<string>, topics: seq<string>, fromBlock: nat) // getLogs(...)
    | LocalDisconnected                                    // the base class's local socket drops
    | Activate(t: RequestType)                             // the engine puts a request in flight

  /** The websocket never reports more bytes sent than the payload has. */
  predicate Admissible(e: Event) {
    e.Write? ==> e.sent <= |e.data|
  }

  predicate AllAdmissible(evs: seq<Event>) {
    forall i :: 0 <= i < |evs| ==> Admissible(evs[i])
  }

  function Step(s: State, e: Event): State
    requires Admissible(e)
  {
    match e
    case Reinit(thin) => Init(s, thin)
    case LocalConnected => ConnectedToServer(s.(localConnected := true))
    case WsConnected => OnConnectedWS(s)
    case WsDisconnected => OnDisconnectedWS(s)
    case WsError(err) => OnErrorWS(s, err)
    case WsText(msg) => OnTextMessage(s, msg)
    case Discovered(reply) => HttpRequestDone(s, reply)
    case ClosePoll(baseDone) => CloseApp(s, baseDone).0
    case Read(localData) => EndpointRead(s, localData).0
    case Write(data, sent, localWritten) => EndpointWrite(s, data, sent, localWritten).0
    case IntervalRequest(requested) => SetInterval(s, requested)
    case LogsRequest(addresses, topics, fromBlock) => Transport.GetLogs(s, addresses, topics, fromBlock)
    case LocalDisconnected => s.(localConnected := false)
    case Activate(t) => s.(activeType := t)
  }

  /** The state after delivering `evs` in order. */
  function Run(s: State, evs: seq<Event>): State
    requires AllAdmissible(evs)
    decreases |evs|
  {
    if evs == [] then s else Run(Step(s, evs[0]), evs[1..])
  }

  /** The calls added to the logs since `s`. */
  function NewBaseCalls(s: State, r: State): seq<BaseCall>
    requires |s.base| <= |r.base|
  {
    r.base[|s.base|..]
  }

  /** One event only appends to the logs. */
  lemma StepExtendsLogs(s: State, e: Event)
    requires Admissible(e)
    ensures s.base <= Step(s, e).base && s.socket <= Step(s, e).socket
  {
  }

  /** Both logs only grow: a run never forgets a call that was made. */
  lemma {:induction false} RunExtendsLogs(s: State, evs: seq<Event>)
    requires AllAdmissible(evs)
    ensures s.base <= Run(s, evs).base
    ensures s.socket <= Run(s, evs).socket
    decreases |evs|
  {
    if evs != [] {
      StepExtendsLogs(s, evs[0]);
      RunExtendsLogs(Step(s, evs[0]), evs[1..]);
    }
  }

  /** Every websocket open names a non-empty endpoint. */
  predicate OpensNamedEndpoints(s: State) {
    forall i :: 0 <= i < |s.socket| ==> s.socket[i].Open? ==> s.socket[i].url != ""
  }

  /** An event appends at most an open of the endpoint it checked to be non-empty. */
  lemma StepOpensNamedEndpoints(s: State, e: Event)
    requires Admissible(e) && OpensNamedEndpoints(s)
    ensures OpensNamedEndpoints(Step(s, e))
  {
    StepExtendsLogs(s, e);
    var t := Step(s, e);
    match e
    case Reinit(thin) =>
    case Discovered(reply) =>
    case ClosePoll(baseDone) =>
    case Write(data, sent, localWritten) =>
    case _ =>
      assert t.socket == s.socket;
  }

  /** The websocket is only ever opened with a non-empty endpoint, over any run. */
  lemma {:induction false} RunOpensNamedEndpoints(s: State, evs: seq<Event>)
    requires AllAdmissible(evs)
    requires OpensNamedEndpoints(s)
    ensures OpensNamedEndpoints(Run(s, evs))
    decreases |evs|
  {
    if evs != [] {
      StepOpensNamedEndpoints(s, evs[0]);
      RunOpensNamedEndpoints(Step(s, evs[0]), evs[1..]);
    }
  }

  /** Once the app is closing it stays closing. */
  lemma {:induction false} ClosingIsSticky(s: State, evs: seq<Event>)
    requires AllAdmissible(evs)
    requires s.closingApp
    ensures Run(s, evs).closingApp
    decreases |evs|
  {
    if evs != [] {
      ClosingIsSticky(Step(s, evs[0]), evs[1..]);
    }
  }

  predicate NoWsError(evs: seq<Event>) {
    forall i :: 0 <= i < |evs| ==> !evs[i].WsError?
  }

  /** One event other than an error, delivered while the app is closing, adds no Bail. */
  lemma StepNoBailWhileClosing(s: State, e: Event)
    requires Admissible(e) && s.closingApp && !e.WsError?
    ensures Step(s, e).closingApp
    ensures s.base <= Step(s, e).base
    ensures Bail !in Step(s, e).base[|s.base|..]
  {
    var t := Step(s, e);
    assert t.base == s.base || t.base == s.base + [t.base[|s.base|]];
  }

  /** A websocket error always reaches the abort path; a disconnect reaches it exactly when
      the app is not closing. */
  lemma FaultHandling(s: State, localSocketError: string)
    ensures Bail in NewBaseCalls(s, OnErrorWS(s, localSocketError))
    ensures Bail in NewBaseCalls(s, OnDisconnectedWS(s)) <==> !s.closingApp
  {
    assert NewBaseCalls(s, OnErrorWS(s, localSocketError))[1] == Bail;
    if !s.closingApp {
      assert NewBaseCalls(s, OnDisconnectedWS(s))[1] == Bail;
    }
  }

  /** While the app is closing, only a websocket error reaches the abort path: a run with no
      error signal adds no Bail, however many disconnects it delivers. */
  lemma {:induction false} NoBailWhileClosing(s: State, evs: seq<Event>)
    requires AllAdmissible(evs)
    requires s.closingApp && NoWsError(evs)
    ensures s.base <= Run(s, evs).base
    ensures Bail !in NewBaseCalls(s, Run(s, evs))
    decreases |evs|
  {
    if evs != [] {
      var t := Step(s, evs[0]);
      StepNoBailWhileClosing(s, evs[0]);
      NoBailWhileClosing(t, evs[1..]);
      var r := Run(s, evs);
      assert NewBaseCalls(s, r) == t.base[|s.base|..] + NewBaseCalls(t, r);
    }
  }

  predicate NoThinReinit(evs: seq<Event>) {
    forall i :: 0 <= i < |evs| ==> evs[i] != Reinit(true)
  }

  /** In full-node mode (and as long as no init switches to thin mode) the websocket is never
      opened and never carries a request: every websocket call of such a run is a close. */
  lemma {:induction false} FullModeStaysLocal(s: State, evs: seq<Event>)
    requires AllAdmissible(evs)
    requires !s.isThin && NoThinReinit(evs)
    ensures s.socket <= Run(s, evs).socket
    ensures !Run(s, evs).isThin
    ensures forall i :: |s.socket| <= i < |Run(s, evs).socket| ==> Run(s, evs).socket[i] == Close
    decreases |evs|
  {
    if evs != [] {
      var t := Step(s, evs[0]);
      assert !t.isThin;
      assert t.socket == s.socket || t.socket == s.socket + [Close];
      FullModeStaysLocal(t, evs[1..]);
    }
  }

  /** A closeApp that reported done reports done again on the next poll, as long as the base
      class stays done: the empty run of DoneStaysDone, also stated on its own. */
  lemma DoneIsStable(s: State)
    requires CloseApp(s, true).1
    ensures CloseApp(CloseApp(s, true).0, true).1
  {
  }

  /** The events that can move the websocket out of Unconnected: an init or a discovery reply
      (both run the connect guard, which does not look at the closing flag) and the connected
      signal. */
  predicate Reopens(e: Event) {
    e.Reinit? || e.Discovered? || e.WsConnected?
  }

  predicate NoReopening(evs: seq<Event>) {
    forall i :: 0 <= i < |evs| ==> !Reopens(evs[i])
  }

  /** An unconnected websocket stays unconnected over any run without such an event. */
  lemma {:induction false} UnconnectedStaysUnconnected(s: State, evs: seq<Event>)
    requires AllAdmissible(evs)
    requires s.ws == Unconnected && NoReopening(evs)
    ensures Run(s, evs).ws == Unconnected
    decreases |evs|
  {
    if evs != [] {
      UnconnectedStaysUnconnected(Step(s, evs[0]), evs[1..]);
    }
  }

  /** Once closeApp has answered done, it answers done at every later poll after any run that
      neither re-inits, nor delivers a discovery reply, nor connects the websocket, as long as
      the base class stays done. */
  lemma DoneStaysDone(s: State, evs: seq<Event>)
    requires AllAdmissible(evs) && NoReopening(evs)
    requires CloseApp(s, true).1
    ensures CloseApp(Run(CloseApp(s, true).0, evs), true).1
  {
    UnconnectedStaysUnconnected(CloseApp(s, true).0, evs);
  }

  /** The connect guard does not look at the closing flag: in thin mode a successful discovery
      reply that arrives after closeApp answered done opens the websocket again, and the next
      poll answers "not yet". */
  lemma LateDiscoveryReopens(s: State, e: string)
    requires s.isThin && e != "" && CloseApp(s, true).1
    ensures var s1 := HttpRequestDone(CloseApp(s, true).0, Reply(true, Some(e), ""));
            s1.closingApp && s1.ws == Connecting && s1.socket[|s1.socket| - 1] == Open(e)
            && !CloseApp(s1, true).1
  {
  }

  /** A deliberate shutdown with a connected websocket: the first poll closes the websocket
      and answers "not yet", the disconnect that follows is not reported as an error, and the
      next poll answers "done". */
  lemma DeliberateCloseDrains(s: State)
    requires s.ws == Connected
    ensures var (s1, done1) := CloseApp(s, true);
            var s2 := OnDisconnectedWS(s1);
            var (s3, done2) := CloseApp(s2, true);
            && !done1 && s1.ws == Closing
            && s2.base == s1.base
            && done2
            && Bail !in s3.base[|s.base|..]
  {
    var (s1, done1) := CloseApp(s, true);
    var s2 := OnDisconnectedWS(s1);
    var (s3, done2) := CloseApp(s2, true);
    assert s3.base[|s.base|..] == [BaseCloseApp, BaseCloseApp];
  }

  /** For a remote request, a delivered message is read exactly once: the first read returns
      its bytes and the second returns nothing.  A second message replaces the first. */
  lemma ReadConsumesMessage(s: State, msg: string, local1: seq<byte>, local2: seq<byte>)
    requires Remote(s)
    ensures var (s1, first) := EndpointRead(OnTextMessage(s, msg), local1);
            var (_, second) := EndpointRead(s1, local2);
            first == Utf8(msg) && second == []
  {
  }

  lemma MessageReplacesMessage(s: State, m1: string, m2: string)
    ensures OnTextMessage(OnTextMessage(s, m1), m2).received == Utf8(m2)
  {
  }

  /** In thin mode the base "connected" notification is forwarded exactly once whichever
      side connects first: the websocket, or the local socket (whose connection makes the base
      class call connectedToServer). */
  lemma ReadyAfterBothSides(s: State)
    requires s.isThin && s.ws == Connecting && !s.localConnected
    ensures Run(s, [WsConnected, LocalConnected]).base == s.base + [BaseConnectedToServer]
    ensures Run(s, [LocalConnected, WsConnected]).base == s.base + [BaseConnectedToServer]
  {
    var w := [WsConnected, LocalConnected];
    assert w[1..][1..] == [];
    var l := [LocalConnected, WsConnected];
    assert l[1..][1..] == [];
  }
}
