/**
 * The message and IPFS RPC commands: the checks each makes, in order, before
 * it reads the caches or calls out, and what it returns.
 */
module Rpc {
  import opened Ordering
  import opened Bytes
  import opened Wrappers
  import opened Messages
  import opened Channels

  /** The asset kinds `IsAssetNameValid` reports; only two matter here. */
  datatype AssetType = Owner | MsgChannel | OtherAssetType(tag: nat)

  /** `IPFS_STATE`; only `DAEMON_CLIENT_CONNECTED` is named by these commands. */
  datatype IpfsState = DaemonClientConnected | OtherIpfsState(tag: nat)

  /** The verdict of `CheckIPFSHash`, with its error text on rejection. */
  datatype HashCheck = HashOk | HashRejected(error: Bytes)

  datatype ErrorCode = InvalidRequest | InvalidParameter | DatabaseError | InternalError

  datatype Reason =
    | MessagingDisabled
    | ChannelDatabaseNotSetup
    | ChannelNameNotValid
    | ChannelNameNotOwnerOrChannel
    | IpfsTurnedOff
    | IpfsNotRunning
    | DataTooLarge
    | AddFailed
    | PinFailed
    | HashNotValid(detail: Bytes)

  /**
   * What a command throws: its help text (a `std::runtime_error`), the error
   * `get_str` raises on a parameter that is not a string, or a `JSONRPCError`.
   */
  datatype RpcError = HelpText | NotAString | JsonRpcError(code: ErrorCode, reason: Reason)

  datatype Result<T> = Ok(value: T) | Err(error: RpcError)

  datatype Param = StrParam(str: Bytes) | OtherParam

  datatype Request = Request(help: bool, params: seq<Param>)

  /** A request that asks for no help and carries `arity` parameters. */
  predicate Callable(request: Request, arity: nat) {
    !request.help && |request.params| == arity
  }

  /** What `viewallmessages` returns: one of two notices, or the messages. */
  datatype MessagesView = MessagingOff | MessageStoreProblem | MessageList(messages: seq<Message>)

  /** What `viewallmessagechannels` returns: one of two notices, or the names. */
  datatype ChannelsView = ChannelMessagingOff | ChannelStoreProblem | ChannelList(names: seq<Bytes>)

  /** A call out of these commands into code that is not part of this model. */
  datatype ExternalCall =
    | AddChannelCall(name: Bytes)
    | RemoveChannelCall(name: Bytes)
    | AddIpfsDataCall(data: Bytes)
    | PinIpfsFileCall(hash: Bytes)

  predicate IsOwnerOrChannel(t: Option<AssetType>) {
    t == Some(Owner) || t == Some(MsgChannel)
  }

  /** The process-wide state the commands read. */
  class Node {
    /** `AreMessagingDeployed()` */
    var messagingDeployed: bool
    /** `fMessaging` */
    var messaging: bool
    /** `pMessagesCache` and `pmessagedb` are both set up */
    var messageStoreReady: bool
    /** `pMessageSubscribedChannelsCache` and `pmessagechanneldb` are both set up */
    var channelStoreReady: bool
    /** `fIPFS` */
    var ipfsEnabled: bool
    /** `globalIpfsState` */
    var ipfsState: IpfsState
    /** `MAX_IPFS_DATA_SIZE` */
    const maxIpfsDataSize: nat
    /** What `LoadMessages` reads from the message database */
    var messageDb: MessageMap
    /** What `LoadMyMessageChannels` reads from the channel database */
    var channelDb: set<Bytes>
    var pendingMessages: PendingMessages
    var pendingChannels: PendingChannels
    /** The external calls made so far, oldest first */
    var calls: seq<ExternalCall>

    ghost predicate Valid()
      reads this`messageDb, this`pendingMessages
    {
      Keyed(messageDb) && pendingMessages.Valid()
    }

    /** A node whose caches hold no pending change and that has called nothing yet. */
    constructor (maxIpfsDataSize: nat, messagingDeployed: bool, messaging: bool,
                 messageStoreReady: bool, channelStoreReady: bool,
                 ipfsEnabled: bool, ipfsState: IpfsState,
                 messageDb: MessageMap, channelDb: set<Bytes>)
      requires Keyed(messageDb)
      ensures Valid()
      ensures this.maxIpfsDataSize == maxIpfsDataSize
      ensures this.messagingDeployed == messagingDeployed && this.messaging == messaging
      ensures this.messageStoreReady == messageStoreReady && this.channelStoreReady == channelStoreReady
      ensures this.ipfsEnabled == ipfsEnabled && this.ipfsState == ipfsState
      ensures this.messageDb == messageDb && this.channelDb == channelDb
      ensures pendingMessages == NoPendingMessages && pendingChannels == NoPendingChannels
      ensures calls == []
    {
      this.maxIpfsDataSize := maxIpfsDataSize;
      this.messagingDeployed := messagingDeployed;
      this.messaging := messaging;
      this.messageStoreReady := messageStoreReady;
      this.channelStoreReady := channelStoreReady;
      this.ipfsEnabled := ipfsEnabled;
      this.ipfsState := ipfsState;
      this.messageDb := messageDb;
      this.channelDb := channelDb;
      pendingMessages := NoPendingMessages;
      pendingChannels := NoPendingChannels;
      calls := [];
    }

    /** A messaging request that the usage check lets through. */
    predicate MessagingCallable(request: Request, arity: nat)
      reads this`messagingDeployed
    {
      messagingDeployed && Callable(request, arity)
    }

    /**
     * `viewallmessages`: the database's messages under the dirty cache,
     * in output order, unless messaging is off or its store is missing.
     */
    method ViewAllMessages(request: Request) returns (r: Result<MessagesView>)
      requires Valid()
      ensures r.Err? <==> !MessagingCallable(request, 0)
      ensures r.Err? ==> r.error == HelpText
      ensures r.Ok? && !messaging ==> r.value == MessagingOff
      ensures r.Ok? && messaging && !messageStoreReady ==> r.value == MessageStoreProblem
      ensures r.Ok? && messaging && messageStoreReady ==>
        r.value.MessageList? && ListsInOrder(r.value.messages, Overlay(messageDb, pendingMessages))
    {
      if !MessagingCallable(request, 0) {
        return Err(HelpText);
      }
      if !messaging {
        return Ok(MessagingOff);
      }
      if !messageStoreReady {
        return Ok(MessageStoreProblem);
      }
      var merged := MergeDirtyMessages(messageDb, pendingMessages);
      var listed := ListInOrder(merged);
      r := Ok(MessageList(listed));
    }

    /**
     * `viewallmessagechannels`: the subscribed channels under the dirty
     * cache, ascending and each once, unless messaging is off or its store
     * is missing.
     */
    method ViewAllMessageChannels(request: Request) returns (r: Result<ChannelsView>)
      ensures r.Err? <==> !MessagingCallable(request, 0)
      ensures r.Err? ==> r.error == HelpText
      ensures r.Ok? && !messaging ==> r.value == ChannelMessagingOff
      ensures r.Ok? && messaging && !channelStoreReady ==> r.value == ChannelStoreProblem
      ensures r.Ok? && messaging && channelStoreReady ==>
        && r.value.ChannelList?
        && Ascending(r.value.names, LexLess)
        && (forall name :: name in r.value.names <==> name in ChannelOverlay(channelDb, pendingChannels))
        && |r.value.names| == |ChannelOverlay(channelDb, pendingChannels)|
    {
      if !MessagingCallable(request, 0) {
        return Err(HelpText);
      }
      if !messaging {
        return Ok(ChannelMessagingOff);
      }
      if !channelStoreReady {
        return Ok(ChannelStoreProblem);
      }
      var merged := MergeDirtyChannels(channelDb, pendingChannels);
      LexLessIsStrictTotalOrder();
      var names := InOrder(merged, LexLess);
      r := Ok(ChannelList(names));
    }

    /**
     * The checks `subscribetochannel` and `unsubscribefromchannel` make, in
     * this order, before they touch a channel; `classify` answers for
     * `IsAssetNameValid`. On success, the channel name.
     */
    function ChannelGate(request: Request, classify: Bytes -> Option<AssetType>): (r: Result<Bytes>)
      reads this`messagingDeployed, this`messaging, this`channelStoreReady
      ensures r.Ok? <==>
        && MessagingCallable(request, 1) && messaging && channelStoreReady
        && request.params[0].StrParam? && IsOwnerOrChannel(classify(request.params[0].str))
      ensures r.Ok? ==> r.value == request.params[0].str
      ensures !MessagingCallable(request, 1) ==> r == Err(HelpText)
      ensures MessagingCallable(request, 1) && !messaging ==>
        r == Err(JsonRpcError(DatabaseError, MessagingDisabled))
      ensures MessagingCallable(request, 1) && messaging && !channelStoreReady ==>
        r == Err(JsonRpcError(DatabaseError, ChannelDatabaseNotSetup))
      ensures MessagingCallable(request, 1) && messaging && channelStoreReady ==>
        match request.params[0]
        case OtherParam => r == Err(NotAString)
        case StrParam(name) =>
          && (classify(name).None? ==> r == Err(JsonRpcError(InvalidParameter, ChannelNameNotValid)))
          && (classify(name).Some? && !IsOwnerOrChannel(classify(name)) ==>
                r == Err(JsonRpcError(InvalidParameter, ChannelNameNotOwnerOrChannel)))
    {
      if !MessagingCallable(request, 1) then Err(HelpText)
      else if !messaging then Err(JsonRpcError(DatabaseError, MessagingDisabled))
      else if !channelStoreReady then Err(JsonRpcError(DatabaseError, ChannelDatabaseNotSetup))
      else match request.params[0]
        case OtherParam => Err(NotAString)
        case StrParam(name) =>
          var t := classify(name);
          if t.None? then Err(JsonRpcError(InvalidParameter, ChannelNameNotValid))
          else if !IsOwnerOrChannel(t) then Err(JsonRpcError(InvalidParameter, ChannelNameNotOwnerOrChannel))
          else Ok(name)
    }

    /**
     * `subscribetochannel`: calls `AddChannel` exactly when the gate passes.
     * What `AddChannel` does to the dirty channel cache is not part of this model,
     * so after a passing gate the cache is left unspecified.
     */
    method SubscribeToChannel(request: Request, classify: Bytes -> Option<AssetType>) returns (r: Result<()>)
      modifies this`calls, this`pendingChannels
      ensures ChannelGate(request, classify).Err? ==>
        && r == Err(ChannelGate(request, classify).error)
        && calls == old(calls)
        && pendingChannels == old(pendingChannels)
      ensures ChannelGate(request, classify).Ok? ==>
        r == Ok(()) && calls == old(calls) + [AddChannelCall(ChannelGate(request, classify).value)]
    {
      var gate := ChannelGate(request, classify);
      if gate.Err? {
        return Err(gate.error);
      }
      calls := calls + [AddChannelCall(gate.value)];
      pendingChannels := *;
      r := Ok(());
    }

    /**
     * `unsubscribefromchannel`: calls `RemoveChannel` exactly when the gate passes.
     * What `RemoveChannel` does to the dirty channel cache is not part of this model,
     * so after a passing gate the cache is left unspecified.
     */
    method UnsubscribeFromChannel(request: Request, classify: Bytes -> Option<AssetType>) returns (r: Result<()>)
      modifies this`calls, this`pendingChannels
      ensures ChannelGate(request, classify).Err? ==>
        && r == Err(ChannelGate(request, classify).error)
        && calls == old(calls)
        && pendingChannels == old(pendingChannels)
      ensures ChannelGate(request, classify).Ok? ==>
        r == Ok(()) && calls == old(calls) + [RemoveChannelCall(ChannelGate(request, classify).value)]
    {
      var gate := ChannelGate(request, classify);
      if gate.Err? {
        return Err(gate.error);
      }
      calls := calls + [RemoveChannelCall(gate.value)];
      pendingChannels := *;
      r := Ok(());
    }

    /** `getipfsnodestatus`: the daemon state, read once. */
    method GetIpfsNodeStatus(request: Request) returns (r: Result<IpfsState>)
      ensures r.Ok? <==> Callable(request, 0)
      ensures r.Ok? ==> r.value == ipfsState
      ensures r.Err? ==> r.error == HelpText
    {
      if !Callable(request, 0) {
        return Err(HelpText);
      }
      r := Ok(ipfsState);
    }

    /**
     * The checks `addipfsdata` and `pinipfshash` make after their usage
     * check: IPFS is turned on, then the daemon is connected.
     */
    function IpfsGate(): (r: Result<()>)
      reads this`ipfsEnabled, this`ipfsState
      ensures r.Ok? <==> ipfsEnabled && ipfsState == DaemonClientConnected
      ensures !ipfsEnabled ==> r == Err(JsonRpcError(InvalidRequest, IpfsTurnedOff))
      ensures ipfsEnabled && ipfsState != DaemonClientConnected ==>
        r == Err(JsonRpcError(InvalidRequest, IpfsNotRunning))
    {
      if !ipfsEnabled then Err(JsonRpcError(InvalidRequest, IpfsTurnedOff))
      else if ipfsState != DaemonClientConnected then Err(JsonRpcError(InvalidRequest, IpfsNotRunning))
      else Ok(())
    }

    /**
     * `addipfsdata`: after the usage check and the gate, data longer than
     * `MAX_IPFS_DATA_SIZE` bytes is refused; otherwise `AddIpfsData` is called
     * and `reply` is its answer (the hash, or `None` on failure).
     */
    method AddIpfsData(request: Request, reply: Option<Bytes>) returns (r: Result<Bytes>)
      modifies this`calls
      ensures ipfsState == old(ipfsState)
      ensures !Callable(request, 1) ==> r == Err(HelpText) && calls == old(calls)
      ensures Callable(request, 1) && IpfsGate().Err? ==> r == Err(IpfsGate().error) && calls == old(calls)
      ensures Callable(request, 1) && IpfsGate().Ok? ==>
        match request.params[0]
        case OtherParam => r == Err(NotAString) && calls == old(calls)
        case StrParam(data) =>
          if |data| > maxIpfsDataSize then
            r == Err(JsonRpcError(InvalidRequest, DataTooLarge)) && calls == old(calls)
          else
            && calls == old(calls) + [AddIpfsDataCall(data)]
            && r == (if reply.Some? then Ok(reply.value) else Err(JsonRpcError(InternalError, AddFailed)))
    {
      if !Callable(request, 1) {
        return Err(HelpText);
      }
      var gate := IpfsGate();
      if gate.Err? {
        return Err(gate.error);
      }
      if request.params[0].OtherParam? {
        return Err(NotAString);
      }
      var data := request.params[0].str;
      if |data| > maxIpfsDataSize {
        return Err(JsonRpcError(InvalidRequest, DataTooLarge));
      }
      calls := calls + [AddIpfsDataCall(data)];
      if reply.None? {
        return Err(JsonRpcError(InternalError, AddFailed));
      }
      r := Ok(reply.value);
    }

    /**
     * `pinipfshash`: after the usage check and the gate, a hash that
     * `CheckIPFSHash` (answered by `checkHash`) rejects is refused; otherwise
     * `PinIpfsFile` is called and `pinned` is its answer.
     */
    method PinIpfsHash(request: Request, checkHash: Bytes -> HashCheck, pinned: bool) returns (r: Result<()>)
      modifies this`calls
      ensures ipfsState == old(ipfsState)
      ensures !Callable(request, 1) ==> r == Err(HelpText) && calls == old(calls)
      ensures Callable(request, 1) && IpfsGate().Err? ==> r == Err(IpfsGate().error) && calls == old(calls)
      ensures Callable(request, 1) && IpfsGate().Ok? ==>
        match request.params[0]
        case OtherParam => r == Err(NotAString) && calls == old(calls)
        case StrParam(hash) =>
          match checkHash(hash)
          case HashRejected(error) =>
            r == Err(JsonRpcError(InvalidParameter, HashNotValid(error))) && calls == old(calls)
          case HashOk =>
            && calls == old(calls) + [PinIpfsFileCall(hash)]
            && r == (if pinned then Ok(()) else Err(JsonRpcError(InternalError, PinFailed)))
    {
      if !Callable(request, 1) {
        return Err(HelpText);
      }
      var gate := IpfsGate();
      if gate.Err? {
        return Err(gate.error);
      }
      if request.params[0].OtherParam? {
        return Err(NotAString);
      }
      var hash := request.params[0].str;
      var check := checkHash(hash);
      if check.HashRejected? {
        return Err(JsonRpcError(InvalidParameter, HashNotValid(check.error)));
      }
      calls := calls + [PinIpfsFileCall(hash)];
      if !pinned {
        return Err(JsonRpcError(InternalError, PinFailed));
      }
      r := Ok(());
    }
  }
}
