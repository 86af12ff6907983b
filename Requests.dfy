/** Request types of the JSON-RPC engine and the transport classifier of RemoteIPC
    (RemoteIPC::isRemoteRequest). */
module Requests {

  /** The request types named by the classifier's switch.  `Other` stands for any
      further value of the engine's request enumeration that the switch has no case for. */
  datatype RequestType =
    | NoRequest
    | NewAccount
    | UnlockAccount
    | SignTransaction
    | GetAccountRefs
    | SendTransaction
    | GetClientVersion
    | GetNetVersion
    | GetSyncing
    | GetPeerCount
    | GetLogs
    | GetBlockNumber
    | GetBalance
    | GetTransactionCount
    | SendRawTransaction
    | GetGasPrice
    | EstimateGas
    | NewBlockFilter
    | NewEventFilter
    | GetFilterChanges
    | UninstallFilter
    | GetTransactionByHash
    | GetBlock
    | GetTransactionReceipt
    | Call
    | Other(tag: nat)

  /** The request types a thin client sends over the websocket, in the switch's order. */
  const REMOTE_LIST: seq<RequestType> :=
    [GetBlockNumber, GetBalance, GetTransactionCount, SendRawTransaction, GetGasPrice,
     EstimateGas, NewBlockFilter, NewEventFilter, GetFilterChanges, UninstallFilter,
     GetTransactionByHash, GetBlock, GetTransactionReceipt, Call]

  /** The request types the switch lists explicitly as local, in the switch's order. */
  const LOCAL_LIST: seq<RequestType> :=
    [NoRequest, NewAccount, UnlockAccount, SignTransaction, GetAccountRefs, SendTransaction,
     GetClientVersion, GetNetVersion, GetSyncing, GetPeerCount, GetLogs]

  const REMOTE_TYPES: set<RequestType> := set t | t in REMOTE_LIST
  const LOCAL_TYPES: set<RequestType> := set t | t in LOCAL_LIST

  /** No element occurs twice in `s`. */
  predicate Distinct<T(==)>(s: seq<T>) {
    forall i, j :: 0 <= i < j < |s| ==> s[i] != s[j]
  }

  /** A duplicate-free sequence has as many elements as the set of its elements. */
  lemma {:induction false} DistinctCardinality<T>(s: seq<T>)
    requires Distinct(s)
    ensures |set x | x in s| == |s|
  {
    if s != [] {
      DistinctCardinality(s[1..]);
      assert (set x | x in s) == (set x | x in s[1..]) + {s[0]};
      assert s[0] !in (set x | x in s[1..]);
    }
  }

  /** Whether the in-flight request of type `t` goes over the websocket.  A function of
      its two arguments only: classifying changes no state. */
  function IsRemoteRequest(isThin: bool, t: RequestType): (r: bool)
    ensures r ==> isThin
    ensures isThin ==> (r <==> t in REMOTE_LIST)
  {
    if !isThin then false // every request is local in full-node mode
    else
      match t
      case GetBlockNumber => true
      case GetBalance => true
      case GetTransactionCount => true
      case SendRawTransaction => true
      case GetGasPrice => true
      case EstimateGas => true
      case NewBlockFilter => true
      case NewEventFilter => true
      case GetFilterChanges => true
      case UninstallFilter => true
      case GetTransactionByHash => true
      case GetBlock => true
      case GetTransactionReceipt => true
      case Call => true
      case NoRequest => false
      case NewAccount => false
      case UnlockAccount => false
      case SignTransaction => false
      case GetAccountRefs => false
      case SendTransaction => false
      case GetClientVersion => false
      case GetNetVersion => false
      case GetSyncing => false
      case GetPeerCount => false
      case GetLogs => false
      case Other(_) => false // fail safe: unknown types stay local
  }

  /** The switch lists 14 remote and 11 local types, and no type is both. */
  lemma TableSizes()
    ensures |REMOTE_TYPES| == 14 && |LOCAL_TYPES| == 11
    ensures REMOTE_TYPES !! LOCAL_TYPES
  {
    assert Distinct(REMOTE_LIST);
    assert Distinct(LOCAL_LIST);
    DistinctCardinality(REMOTE_LIST);
    DistinctCardinality(LOCAL_LIST);
    forall t | t in REMOTE_TYPES
      ensures t !in LOCAL_TYPES
    {
      assert t in REMOTE_LIST;
    }
  }

  /** In full-node mode no request is remote (a corollary of the classifier's contract). */
  lemma FullModeIsLocal(t: RequestType)
    ensures !IsRemoteRequest(false, t)
  {
  }

  /** In thin mode exactly the listed remote types are remote (a corollary of the classifier's
      contract). */
  lemma ThinModeRemoteTypes(t: RequestType)
    ensures IsRemoteRequest(true, t) <==> t in REMOTE_LIST
  {
  }

  /** In thin mode the listed local types and the unlisted ones are local. */
  lemma ThinModeLocalTypes(t: RequestType)
    ensures t in LOCAL_LIST || t.Other? ==> !IsRemoteRequest(true, t)
  {
  }

  /** The switch's two lists and the unlisted types cover every request type. */
  lemma TableCoversAllTypes(t: RequestType)
    ensures t in REMOTE_LIST || t in LOCAL_LIST || t.Other?
  {
  }
}
