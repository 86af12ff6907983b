# RemoteIPC: transport routing for Etherwall's thin client

Etherwall talks JSON-RPC to an Ethereum node. Its `RemoteIPC` class sits between the request
engine (the `EtherIPC` base class) and two transports: the local geth IPC socket and a
websocket to a hosted relay. For every read, write and writability check, `RemoteIPC` asks
which transport the request in flight belongs to. In thin-client mode, a fixed table of
request types goes to the relay: chain queries, filters, calls and raw transaction
submission. Everything else, and every request in full-node mode, stays local. Around that websocket, `RemoteIPC` also runs:

- endpoint discovery: one reply from a bootstrap service names the relay;
- a connect guard;
- a readiness hand-off: the engine is told "connected" only once both transports are up;
- a two-phase shutdown;
- fault handling: set an error, then take the shared abort path.

The project has six modules:

- `Requests`: the request types and the classifier (`isRemoteRequest`). It is a pure function of the mode flag and the request type, so classifying changes no state.
- `Encoding`: bytes, and a UTF-8 encoder that stands in for `QString::toUtf8`. Inbound websocket text is stored as UTF-8 bytes.
- `Transport`: the object's state as a value (`State`) and one function per `RemoteIPC` operation, giving the new state and the result. The `EtherIPC` base class is not part of this model. Each answer `RemoteIPC` takes from it is an oracle argument: the base close verdict, the local read, write and writable results, the base geth arguments, and the local socket's error string. Each call into the base class is appended to a log `base`, except the two queries `buildGethArgs` and `endpointWritable`, which change nothing there. Each call on the websocket is appended to a log `socket`.
- `RemoteIpc`: class `RemoteIPC`, with the fields its methods read and update in place. `RemoteIPC` itself writes the mode, the endpoint, the single-slot inbound buffer, the websocket state (through calls on the websocket) and the timer interval. The local connection, the closing flag and the request in flight belong to the `EtherIPC` base class, which writes them; `RemoteIPC` only reads them. The two logs are ghost fields. Every method is proved to leave the object in the state the matching `Transport` function gives, so every `Transport` lemma holds of the object. Two extra methods, `SetLocalConnected` and `SetActiveRequest`, stand for changes the base class and the engine make. They are not `RemoteIPC` code.
- `Traces`: runs of events. The event loop delivers one event at a time (`Step`, `Run`). `RunExtendsLogs`, `RunOpensNamedEndpoints`, `FullModeStaysLocal`, `ClosingIsSticky`, `NoBailWhileClosing`, `UnconnectedStaysUnconnected` and `DoneStaysDone` hold over runs of any length. The other lemmas there cover fixed sequences of one to three steps. The local socket connecting is one event (`LocalConnected`): the base class calls `connectedToServer` when its socket connects.
- `Scenarios`: concrete runs. Discovery succeeds with an endpoint, or fails. Classification of a balance lookup and of transaction signing. A `"ping"` message read twice.

Two quirks of the code are reproduced on purpose:

- `onErrorWS` builds its message from the local socket's error string, not the websocket's (src/remoteipc.cpp:149).
- A successful discovery reply with no `endpoint` field stores the non-empty string `"invalid"`, so a connection to it is still attempted (src/remoteipc.cpp:169).

Three behaviours of the code are easy to misread:

- `setInterval` forces 10000 ms in both modes. The code has no mode check (src/remoteipc.cpp:68-72).
- The websocket states are Qt's: Unconnected, Connecting, Connected, Closing. There is no separate "disconnected with error" state. An error signal does not change the websocket state; the disconnected signal that Qt emits makes it Unconnected.
- `EtherIPC::closeApp` is not part of this model. It is taken to raise the base class's closing flag and to return the oracle verdict `baseDone`. `RemoteIPC::onDisconnectedWS` reads that flag.

There is one websocket, one endpoint string and one buffer (src/remoteipc.h:40-44). The model has exactly one of each. Nothing in it holds a pool, a failover list or a queue; a new message replaces the buffered one (`Traces.MessageReplacesMessage`). `connectWebsocket` is called only from `Init` and `HttpRequestDone`, as in src/remoteipc.cpp:41 and src/remoteipc.cpp:170.

## Model

| member | source | states |
|---|---|---|
| `Requests.IsRemoteRequest` | src/remoteipc.cpp:173-210 | A request is remote only in thin mode, and in thin mode exactly when its type is one of the 14 listed remote types. |
| `Requests.FullModeIsLocal` | src/remoteipc.cpp:175-177 | In full-node mode no request type is remote. |
| `Requests.ThinModeRemoteTypes` | src/remoteipc.cpp:179-194 | In thin mode a request is remote if and only if its type is one of the 14 listed remote types, GetBlockNumber through Call. |
| `Requests.ThinModeLocalTypes` | src/remoteipc.cpp:195-209 | In thin mode the 11 listed local types, and every type the switch does not list, are local. |
| `Requests.TableCoversAllTypes` | src/remoteipc.cpp:179-209 | Every request type is on the remote list, on the local list, or unlisted. |
| `Requests.TableSizes` | src/remoteipc.cpp:180-206 | The switch has 14 remote and 11 local cases, 25 distinct types in all, and no type is both. |
| `Encoding.EncodeChar` | src/remoteipc.cpp:155 | A character encodes to 1 to 4 UTF-8 bytes. It is one byte, equal to the character, exactly for ASCII. Every later byte is a continuation byte. |
| `Encoding.Utf8` | src/remoteipc.cpp:155 | A message of n characters encodes to between n and 4n bytes. It encodes to no bytes only if the message is empty. |
| `Encoding.Utf8OfAscii` | src/remoteipc.cpp:155 | An ASCII message encodes to one byte per character, with the same values. |
| `Transport.Created` | src/remoteipc.cpp:7-29 | A new object has the persisted mode, an empty endpoint, an empty buffer and an unconnected websocket. It has made no calls yet. |
| `Transport.ConnectWebsocket` | src/remoteipc.cpp:212-218 | The websocket is opened with the stored endpoint if and only if the mode is thin, the socket is Unconnected and the endpoint is non-empty. It then becomes Connecting. Otherwise the state is unchanged. |
| `Transport.Init` | src/remoteipc.cpp:36-44 | The mode becomes the setting. The websocket is opened exactly when the connect guard holds with the new mode. Then the base init runs. Nothing else changes. |
| `Transport.GetLogs` | src/remoteipc.cpp:46-53 | In thin mode nothing happens. In full-node mode the call is delegated to the base class with the same arguments. |
| `Transport.CloseApp` | src/remoteipc.cpp:55-66 | Done if and only if the base close is done and the websocket is Unconnected. Base done but websocket not Unconnected: the websocket is closed and the answer is "not yet". Base not done: the websocket is left alone. |
| `Transport.SetInterval` | src/remoteipc.cpp:68-72 | The timer interval becomes 10000 ms whatever is requested. Nothing else changes. |
| `Transport.ConnectedToServer` | src/remoteipc.cpp:74-86 | Forwarded to the base class if and only if the mode is full-node or the websocket is Connected. Otherwise nothing changes. |
| `Transport.OnConnectedWS` | src/remoteipc.cpp:130-136 | The websocket becomes Connected. The base "connected" notification is forwarded if and only if the local socket is connected. |
| `Transport.OnDisconnectedWS` | src/remoteipc.cpp:138-144 | The websocket becomes Unconnected. If the app is not closing, the disconnect error is set and the abort path runs. If it is closing, no base call is made. |
| `Transport.OnErrorWS` | src/remoteipc.cpp:146-151 | The error "WS: " followed by the local socket's error string is set, and the abort path runs, whatever the closing flag. Nothing else changes. |
| `Transport.OnTextMessage` | src/remoteipc.cpp:153-157 | The buffer becomes the UTF-8 bytes of the message, replacing what was there. Then the base class is told data is ready. |
| `Transport.EndpointRead` | src/remoteipc.cpp:107-116 | A remote request returns the buffer and leaves it empty, with no other change. A local request returns the local read and leaves the buffer as it was. |
| `Transport.EndpointWrite` | src/remoteipc.cpp:97-105 | A remote request sends the payload as one binary websocket message. It returns the byte count the websocket reports, between 0 and the payload length. A local request writes to the base class and returns its count. |
| `Transport.EndpointWritable` | src/remoteipc.cpp:88-95 | Always writable for a remote request. Otherwise the local channel's answer. |
| `Transport.EndpointOf` | src/remoteipc.cpp:168-169 | A named endpoint is returned as given; a missing one gives "invalid". The result is empty only if the reply names the empty string. |
| `Transport.HttpRequestDone` | src/remoteipc.cpp:159-171 | A failed reply changes nothing: the endpoint stays and no connection is attempted. A successful reply stores the named endpoint, or "invalid" if it is missing, and then runs the connect guard. |
| `Transport.BuildGethArgs` | src/remoteipc.cpp:118-128 | The base arguments are kept as a prefix. In thin mode exactly `--maxpeers=0`, `--nodiscover` and `--nat=none` follow. In full-node mode nothing is added. |
| `RemoteIpc.RemoteIPC.constructor` | src/remoteipc.cpp:7-29 | The fields are those of `Transport.Created`. |
| `RemoteIpc.RemoteIPC.IsThinClient` | src/remoteipc.cpp:220-223 | Returns the mode flag unchanged, and changes nothing. |
| `RemoteIpc.RemoteIPC.ConnectWebsocket` | src/remoteipc.cpp:212-218 | The new fields are those of `Transport.ConnectWebsocket`. |
| `RemoteIpc.RemoteIPC.Init` | src/remoteipc.cpp:36-44 | The new fields are those of `Transport.Init`. |
| `RemoteIpc.RemoteIPC.GetLogs` | src/remoteipc.cpp:46-53 | The new fields are those of `Transport.GetLogs`. |
| `RemoteIpc.RemoteIPC.CloseApp` | src/remoteipc.cpp:55-66 | The new fields and the verdict are those of `Transport.CloseApp`. |
| `RemoteIpc.RemoteIPC.SetInterval` | src/remoteipc.cpp:68-72 | The new fields are those of `Transport.SetInterval`. |
| `RemoteIpc.RemoteIPC.ConnectedToServer` | src/remoteipc.cpp:74-86 | The new fields are those of `Transport.ConnectedToServer`. |
| `RemoteIpc.RemoteIPC.EndpointWritable` | src/remoteipc.cpp:88-95 | Changes nothing. True for a remote request, otherwise the local channel's answer. |
| `RemoteIpc.RemoteIPC.EndpointWrite` | src/remoteipc.cpp:97-105 | The new fields and the count are those of `Transport.EndpointWrite`. |
| `RemoteIpc.RemoteIPC.EndpointRead` | src/remoteipc.cpp:107-116 | The new fields and the bytes are those of `Transport.EndpointRead`. |
| `RemoteIpc.RemoteIPC.BuildGethArgs` | src/remoteipc.cpp:118-128 | Changes nothing. The base arguments are a prefix of the result, followed in thin mode by exactly the three flags, and by nothing in full-node mode. |
| `RemoteIpc.RemoteIPC.OnConnectedWS` | src/remoteipc.cpp:130-136 | The new fields are those of `Transport.OnConnectedWS`. |
| `RemoteIpc.RemoteIPC.OnDisconnectedWS` | src/remoteipc.cpp:138-144 | The new fields are those of `Transport.OnDisconnectedWS`. |
| `RemoteIpc.RemoteIPC.OnErrorWS` | src/remoteipc.cpp:146-151 | The new fields are those of `Transport.OnErrorWS`. |
| `RemoteIpc.RemoteIPC.OnTextMessageReceivedWS` | src/remoteipc.cpp:153-157 | The new fields are those of `Transport.OnTextMessage`. |
| `RemoteIpc.RemoteIPC.HttpRequestDone` | src/remoteipc.cpp:159-171 | The new fields are those of `Transport.HttpRequestDone`. |
| `Traces.RunOpensNamedEndpoints` | src/remoteipc.cpp:212-218 | Over any run, every websocket open names a non-empty endpoint. |
| `Traces.FullModeStaysLocal` | src/remoteipc.cpp:173-177 | Over any run in full-node mode with no init that switches to thin mode, the mode stays full-node. The websocket is never opened and never sends a request; its only calls are closes. |
| `Traces.ClosingIsSticky` | src/remoteipc.cpp:55-58 | Once the app is closing, it stays closing over any run. |
| `Traces.NoBailWhileClosing` | src/remoteipc.cpp:138-144 | Over any run that starts while the app is closing and has no websocket error signal, no abort happens, however many disconnects arrive. |
| `Traces.FaultHandling` | src/remoteipc.cpp:138-151 | An error signal always aborts. A disconnect aborts if and only if the app is not closing. |
| `Traces.DoneIsStable` | src/remoteipc.cpp:55-66 | Once closeApp answers done, the next poll answers done too, while the base stays done. |
| `Traces.UnconnectedStaysUnconnected` | src/remoteipc.cpp:55-66 | Over any run with no init, no discovery reply and no connected signal, an Unconnected websocket stays Unconnected. |
| `Traces.DoneStaysDone` | src/remoteipc.cpp:55-66 | Once closeApp answers done, it answers done at every later poll after any run with no init, no discovery reply and no connected signal, while the base stays done. |
| `Traces.LateDiscoveryReopens` | src/remoteipc.cpp:212-216 | The connect guard ignores the closing flag. In thin mode, a successful discovery reply arriving after closeApp answered done reopens the websocket, and the next poll answers "not yet". |
| `Traces.DeliberateCloseDrains` | src/remoteipc.cpp:55-66 | With a connected websocket, the deliberate shutdown runs as follows. The first poll closes the websocket and answers "not yet". The disconnect that follows makes no base call. The next poll answers done, and no abort happened. |
| `Traces.ReadConsumesMessage` | src/remoteipc.cpp:107-116 | During a remote request, after a message arrives, the first read returns its UTF-8 bytes. A second read returns nothing. |
| `Traces.MessageReplacesMessage` | src/remoteipc.cpp:153-157 | A second message replaces the first in the buffer; nothing is appended or queued. |
| `Traces.ReadyAfterBothSides` | src/remoteipc.cpp:74-86 | In thin mode, the base "connected" notification fires exactly once whichever side connects first: the websocket, or the local socket. |
| `Scenarios.DiscoveryThenConnect` | src/remoteipc.cpp:159-171 | Discovery with endpoint E opens the websocket with E. When it connects, nothing is forwarded until the local side is ready; then the notification fires once. |
| `Scenarios.DiscoveryFails` | src/remoteipc.cpp:159-167 | A failed reply leaves the endpoint empty, and a later init opens nothing. |
| `Scenarios.MissingEndpointStillConnects` | src/remoteipc.cpp:168-170 | A reply with no endpoint stores "invalid" and opens the websocket with it. A reply with an empty endpoint stores it and opens nothing. |
| `Scenarios.BalanceRemoteSigningLocal` | src/remoteipc.cpp:179-206 | In thin mode a balance lookup is remote and signing is local. In full-node mode a balance lookup is local. |
| `Scenarios.PingReadTwice` | src/remoteipc.cpp:107-116 | After "ping" arrives during a balance lookup, the first read returns bytes 70 69 6E 67 (hex) and the second returns none. |

## Left out

- The bootstrap HTTP POST and its network wiring (src/remoteipc.cpp:16-25) are network I/O. The reply enters as a `Reply` record: success, an optional endpoint string and an error string.
- JSON parsing of the reply (`Helpers::parseHTTPReply`, `toBool`, `toString`) is not part of this model. A reply whose `success` is missing or not a boolean is represented with success false. An endpoint that is missing or not a string is represented as `None`.
- The `QSettings` reads (src/remoteipc.cpp:27-28, 38-39) are persistence. The mode enters as an argument of the constructor and of `Init`.
- Logging (`EtherLog::logMsg`, `qDebug`) is left out. This includes the failed-reply message and its "unknown error" default; the reply's error string is carried but unused.
- Signal and slot connections (src/remoteipc.cpp:11-16) are event wiring. Each signal is an event of `Traces.Run`.
- The destructor's websocket close (src/remoteipc.cpp:33) concerns object lifetime, which the model does not have.
- Real websocket behaviour is left out. `open` and `close` are state transitions: Connecting and Closing. The byte count of `sendBinaryMessage` is an oracle, at most the payload length. The connected and disconnected signals set the states Qt reports with them.
- The `EtherIPC` base class (`closeApp`, `endpointRead`, `endpointWrite`, `endpointWritable`, `getLogs`, `buildGethArgs`, `init`, `connectedToServer`, `onSocketReadyRead`, `setError`, `bail`) is not part of this model. Its answers are oracle arguments and its calls are logged entries. The constructor's initial local state, closing flag, request in flight and timer interval are taken as "not connected", "not closing", `NoRequest` and an argument.
- `QTimer` only appears as the interval field that `setInterval` sets.
- C++ access control (`private`, `const`) has no counterpart. `isRemoteRequest` is a function, so it cannot change state. `connectWebsocket` runs only inside `Init` and `HttpRequestDone`.
