/** Concrete runs of a thin client: discovery succeeding or failing, classification of two
    request types, and a "ping" message read twice. */
module Scenarios {
  import opened Requests
  import opened Encoding
  import opened Transport

  /** Discovery succeeds with endpoint `e`: the websocket is opened with `e`; once it connects
      nothing is forwarded until the local side is ready, and then the base "connected"
      notification fires once. */
  lemma DiscoveryThenConnect(interval: int, e: string)
    requires e != ""
    ensures var s0 := Created(true, interval);
            var s1 := HttpRequestDone(s0, Reply(true, Some(e), ""));
            var s2 := OnConnectedWS(s1);
            var s3 := ConnectedToServer(s2.(localConnected := true));
            && s1.endpoint == e && s1.ws == Connecting && s1.socket == [Open(e)]
            && s2.ws == Connected && s2.base == []
            && s3.base == [BaseConnectedToServer]
  {
  }

  /** Discovery fails: the endpoint stays empty and neither the reply nor a later init opens
      the websocket. */
  lemma DiscoveryFails(interval: int)
    ensures var s0 := Created(true, interval);
            var s1 := HttpRequestDone(s0, Reply(false, None, "no nodes"));
            var s2 := Init(s1, true);
            && s1 == s0 && s1.endpoint == ""
            && s2.socket == [] && s2.ws == Unconnected
  {
  }

  /** A successful reply without an endpoint field stores "invalid", which is non-empty, so a
      connection to it is attempted; an empty endpoint string is stored but opens nothing. */
  lemma MissingEndpointStillConnects(interval: int)
    ensures var s1 := HttpRequestDone(Created(true, interval), Reply(true, None, ""));
            s1.endpoint == "invalid" && s1.socket == [Open("invalid")]
    ensures var s1 := HttpRequestDone(Created(true, interval), Reply(true, Some(""), ""));
            s1.endpoint == "" && s1.socket == []
  {
  }

  /** In thin mode a balance lookup is remote and transaction signing is local. */
  lemma BalanceRemoteSigningLocal()
    ensures IsRemoteRequest(true, GetBalance)
    ensures !IsRemoteRequest(true, SignTransaction)
    ensures !IsRemoteRequest(false, GetBalance)
  {
  }

  /** The websocket delivers "ping" during a remote request; the first read returns its four
      bytes and the second returns none. */
  lemma PingReadTwice(s: State, local1: seq<byte>, local2: seq<byte>)
    requires s.isThin && s.activeType == GetBalance
    ensures var (s1, first) := EndpointRead(OnTextMessage(s, "ping"), local1);
            var (_, second) := EndpointRead(s1, local2);
            first == [0x70, 0x69, 0x6E, 0x67] && second == []
  {
    assert Utf8("ping") == [0x70, 0x69, 0x6E, 0x67] by {
      assert Utf8("g") == [0x67];
      assert Utf8("ng") == [0x6E] + Utf8("g");
      assert Utf8("ing") == [0x69] + Utf8("ng");
      assert Utf8("ping") == [0x70] + Utf8("ing");
    }
  }
}
