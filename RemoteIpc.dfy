/** Class RemoteIPC: the fields RemoteIPC's methods update in place, and those methods.  Each
    method's new state (and result) is the one the corresponding function of module Transport
    gives, so everything proved there holds of the object. */
module RemoteIpc {
  import opened Requests
  import opened Encoding
  import opened Transport

  class RemoteIPC {
    var isThin: bool              // fIsThinClient
    var endpoint: string          // fEndpoint
    var received: seq<byte>       // fReceivedMessage
    var ws: WsState               // fWebSocket.state()
    var localConnected: bool      // fSocket.state() == ConnectedState (base class)
    var closingApp: bool          // fClosingApp (base class)
    var activeType: RequestType   // fActiveRequest.getType() (base class)
    var interval: int             // fTimer's interval in milliseconds (base class)
    ghost var base: seq<BaseCall> // calls made into EtherIPC, oldest first
    ghost var socket: seq<WsOp>   // calls made on fWebSocket, oldest first

    /** The object's state as a value. */
    ghost function Snapshot(): State
      reads this
    {
      State(isThin, endpoint, received, ws, localConnected, closingApp, activeType, interval, base, socket)
    }

    /** The constructor, with the persisted mode setting and the base timer's interval. */
    constructor (thinSetting: bool, baseInterval: int)
      ensures Snapshot() == Created(thinSetting, baseInterval)
    {
      isThin := thinSetting;
      endpoint := "";
      received := [];
      ws := Unconnected;
      localConnected := false;
      closingApp := false;
      activeType := NoRequest;
      interval := baseInterval;
      base := [];
      socket := [];
    }

    /** isThinClient: the mode flag, unchanged. */
    method IsThinClient() returns (thin: bool)
      ensures thin == isThin
    {
      thin := isThin;
    }

    method ConnectWebsocket()
      modifies this
      ensures Snapshot() == Transport.ConnectWebsocket(old(Snapshot()))
    {
      if isThin && ws == Unconnected && endpoint != "" {
        ws := Connecting;
        socket := socket + [Open(endpoint)];
      }
    }

    method Init(thinSetting: bool)
      modifies this
      ensures Snapshot() == Transport.Init(old(Snapshot()), thinSetting)
    {
      isThin := thinSetting;
      ConnectWebsocket();
      base := base + [BaseInit];
    }

    method GetLogs(addresses: seq<string>, topics: seq<string>, fromBlock: nat)
      modifies this
      ensures Snapshot() == Transport.GetLogs(old(Snapshot()), addresses, topics, fromBlock)
    {
      if !isThin {
        base := base + [BaseGetLogs(addresses, topics, fromBlock)];
      }
    }

    method CloseApp(baseDone: bool) returns (done: bool)
      modifies this
      ensures (Snapshot(), done) == Transport.CloseApp(old(Snapshot()), baseDone)
    {
      closingApp := true;
      base := base + [BaseCloseApp];
      done := baseDone;
      if done && ws != Unconnected {
        ws := Closing;
        socket := socket + [Close];
        return false;
      }
    }

    method SetInterval(requested: int)
      modifies this
      ensures Snapshot() == Transport.SetInterval(old(Snapshot()), requested)
    {
      interval := THIN_INTERVAL_MS;
    }

    method ConnectedToServer()
      modifies this
      ensures Snapshot() == Transport.ConnectedToServer(old(Snapshot()))
    {
      if !isThin {
        base := base + [BaseConnectedToServer];
        return;
      }
      if ws == Connected {
        base := base + [BaseConnectedToServer];
      }
    }

    /** endpointWritable changes nothing: always writable for a remote request, otherwise
        the local channel's answer. */
    method EndpointWritable(localWritable: bool) returns (writable: bool)
      ensures IsRemoteRequest(isThin, activeType) ==> writable
      ensures !IsRemoteRequest(isThin, activeType) ==> writable == localWritable
    {
      if IsRemoteRequest(isThin, activeType) {
        return true;
      }
      writable := localWritable;
    }

    method EndpointWrite(data: seq<byte>, sent: nat, localWritten: int) returns (written: int)
      requires sent <= |data|
      modifies this
      ensures (Snapshot(), written) == Transport.EndpointWrite(old(Snapshot()), data, sent, localWritten)
    {
      if IsRemoteRequest(isThin, activeType) {
        socket := socket + [SendBinary(data)];
        return sent;
      }
      base := base + [BaseWrite(data)];
      written := localWritten;
    }

    method EndpointRead(localData: seq<byte>) returns (data: seq<byte>)
      modifies this
      ensures (Snapshot(), data) == Transport.EndpointRead(old(Snapshot()), localData)
    {
      if IsRemoteRequest(isThin, activeType) {
        data := received;
        received := [];
        return;
      }
      base := base + [BaseRead];
      data := localData;
    }

    /** buildGethArgs changes nothing: the base arguments, followed in thin mode by the three
        flags that switch off peering, discovery and NAT traversal. */
    method BuildGethArgs(baseArgs: seq<string>) returns (args: seq<string>)
      ensures |args| >= |baseArgs| && args[..|baseArgs|] == baseArgs
      ensures isThin ==> args[|baseArgs|..] == THIN_GETH_FLAGS
      ensures !isThin ==> args == baseArgs
    {
      args := baseArgs;
      if isThin {
        args := args + ["--maxpeers=0"];
        args := args + ["--nodiscover"];
        args := args + ["--nat=none"];
      }
    }

    method OnConnectedWS()
      modifies this
      ensures Snapshot() == Transport.OnConnectedWS(old(Snapshot()))
    {
      ws := Connected;
      if localConnected {
        base := base + [BaseConnectedToServer];
      }
    }

    method OnDisconnectedWS()
      modifies this
      ensures Snapshot() == Transport.OnDisconnectedWS(old(Snapshot()))
    {
      ws := Unconnected;
      if !closingApp {
        base := base + [SetError(DISCONNECTED_ERROR)];
        base := base + [Bail];
      }
    }

    method OnErrorWS(localSocketError: string)
      modifies this
      ensures Snapshot() == Transport.OnErrorWS(old(Snapshot()), localSocketError)
    {
      base := base + [SetError(ERROR_PREFIX + localSocketError)];
      base := base + [Bail];
    }

    method OnTextMessageReceivedWS(msg: string)
      modifies this
      ensures Snapshot() == Transport.OnTextMessage(old(Snapshot()), msg)
    {
      received := Utf8(msg);
      base := base + [BaseSocketReadyRead];
    }

    method HttpRequestDone(reply: Reply)
      modifies this
      ensures Snapshot() == Transport.HttpRequestDone(old(Snapshot()), reply)
    {
      if !reply.success {
        return;
      }
      endpoint := EndpointOf(reply);
      ConnectWebsocket();
    }

    /** The base class's local socket changing state (not RemoteIPC code). */
    method SetLocalConnected(connected: bool)
      modifies this
      ensures Snapshot() == old(Snapshot()).(localConnected := connected)
    {
      localConnected := connected;
    }

    /** The engine putting a request of type `t` in flight (not RemoteIPC code). */
    method SetActiveRequest(t: RequestType)
      modifies this
      ensures Snapshot() == old(Snapshot()).(activeType := t)
    {
      activeType := t;
    }
  }
}
