/**
 * Callers of the model that work through concrete situations: what the
 * specifications above let a caller conclude without looking inside.
 */
module Scenarios {
  import opened Bytes
  import opened Wrappers
  import opened Messages
  import opened Channels
  import opened Rpc

  const Out1 := OutPoint(seq(32, _ => 1), 0)

  const Unread1 := Message(Out1, [67, 72, 65, 78, 33], [1, 2], 100, 10, Unread, 0)

  /** An add overrides the stored copy; a removal overrides an orphaning. */
  method MessageOverlays() {
    var read1 := Unread1.(status := Read);
    var merged := MergeDirtyMessages(map[Out1 := Unread1], PendingMessages(map[], {}, map[Out1 := read1]));
    assert merged == map[Out1 := read1];

    merged := MergeDirtyMessages(map[Out1 := Unread1], PendingMessages(map[Out1 := Unread1], {Out1}, map[]));
    assert merged == map[];

    merged := MergeDirtyMessages(map[Out1 := Unread1], PendingMessages(map[Out1 := Unread1], {}, map[]));
    assert merged[Out1].status == Orphan;
  }

  /** A channel both removed and added stays subscribed. */
  method ChannelOverlays() {
    var a: Bytes := [65, 33];
    var b: Bytes := [66, 126, 49];
    var merged := MergeDirtyChannels({a, b}, PendingChannels({a}, {a}));
    assert merged == {a, b};
  }

  /** The size gate of `addipfsdata`, behind the daemon-state gate. */
  method AddDataGates() {
    var hash: Bytes := [81, 109];
    var request := Request(false, [StrParam([1, 2, 3, 4])]);

    var idle := new Node(4, true, true, true, true, true, OtherIpfsState(0), map[], {});
    var r := idle.AddIpfsData(request, Some(hash));
    assert r == Err(JsonRpcError(InvalidRequest, IpfsNotRunning)) && idle.calls == [];

    var node := new Node(4, true, true, true, true, true, DaemonClientConnected, map[], {});
    r := node.AddIpfsData(Request(false, [StrParam([1, 2, 3, 4, 5])]), Some(hash));
    assert r == Err(JsonRpcError(InvalidRequest, DataTooLarge)) && node.calls == [];
    r := node.AddIpfsData(request, Some(hash));
    assert r == Ok(hash) && node.calls == [AddIpfsDataCall([1, 2, 3, 4])];
    assert node.ipfsState == DaemonClientConnected;
  }

  /** A hash that fails its format check is never pinned. */
  method PinRejectsBadHash() {
    var node := new Node(4, true, true, true, true, true, DaemonClientConnected, map[], {});
    var bad: Bytes := [120];
    var r := node.PinIpfsHash(Request(false, [StrParam(bad)]), _ => HashRejected([63]), true);
    assert r == Err(JsonRpcError(InvalidParameter, HashNotValid([63]))) && node.calls == [];
  }

  /** Only owner and message-channel names reach `AddChannel`. */
  method SubscribeGates() {
    var node := new Node(4, true, true, true, true, true, DaemonClientConnected, map[], {});
    var name: Bytes := [65, 33];
    var request := Request(false, [StrParam(name)]);
    var r := node.SubscribeToChannel(request, _ => Some(OtherAssetType(0)));
    assert r == Err(JsonRpcError(InvalidParameter, ChannelNameNotOwnerOrChannel)) && node.calls == [];
    r := node.SubscribeToChannel(request, _ => Some(Owner));
    assert r == Ok(()) && node.calls == [AddChannelCall(name)];
  }
}
