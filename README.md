# Ravencoin message RPCs: dirty-cache overlay and command gates

This project is a Dafny model of the message and IPFS RPC commands in
`src/rpc/messages.cpp` of Ravencoin.

The wallet keeps its messages and channel subscriptions in two databases. Changes
that are not yet flushed sit in a dirty cache:

- orphaned messages;
- messages to remove;
- messages to add;
- channels to remove;
- channels to add.

`viewallmessages` and `viewallmessagechannels` load the database contents into
a `std::set`. They apply the dirty cache in a fixed order and list the result
in set order. A message's identity is its output (`COutPoint`) only, so the
per-output precedence is add > remove > orphan > stored. For channels it is
add > remove > stored.

The model also covers the checks that run in front of the channel and IPFS
commands, in the order the source makes them.

- `subscribetochannel` and `unsubscribefromchannel` check, in this order:
  - the usage check;
  - the messaging flag;
  - the channel database;
  - that the parameter is a string;
  - name validity;
  - that the asset type is owner or message channel.

  Only after all of these do they call `AddChannel` or `RemoveChannel`.
- `addipfsdata` and `pinipfshash` check, in this order:
  - the usage check;
  - `fIPFS`;
  - that the daemon is connected;
  - that the parameter is a string;
  - the data size or the hash format.

  Only after all of these do they call out.

Layout:

- `Ordering.dfy`: the order a `std::set` iterates in, for any strict total order. `InOrder` picks least elements until the set is empty.
- `Bytes.dfy`: `std::string` as bytes. Its lexicographic order is proved a strict total order.
- `Messages.dfy`: `COutPoint`, `CMessage` and the dirty message cache.
  - The specification function `Overlay` applies the three stages as set operations.
  - A reference function `Resolve` states the precedence law per output. Lemmas relate the two.
  - `MergeDirtyMessages` runs the three loops of the source and is proved to compute `Overlay`.
- `Channels.dfy`: the same for channel names, with `MergeDirtyChannels`.
- `Rpc.dfy`: the class `Node` holds the process-wide state: flags, database contents, dirty caches and the daemon state.
  - The RPC commands are its methods.
  - Calls to `AddChannel`, `RemoveChannel`, `AddIpfsData` and `PinIpfsFile` are appended to the log `calls`. So "none of these is called when a check fails" is part of each method's postcondition.
- `Scenarios.dfy`: callers that work through concrete cases using only the specifications.

## Model

| member | source | states |
|---|---|---|
| `Ordering.InOrder` | src/rpc/messages.cpp:159-161 | Iterating a `std::set` yields each element exactly once, in strictly ascending order of its comparator. |
| `Bytes.LexLessIsStrictTotalOrder` | src/rpc/messages.cpp:143 | The byte-wise order of `std::string` is irreflexive, transitive and total. A `std::set<std::string>` is therefore well ordered, and its iteration order is unique. |
| `Messages.OutLessIsStrictTotalOrder` | src/rpc/messages.cpp:74 | Ordering by output (hash, then index) is a strict total order. This is the order in which the message set is kept and listed. |
| `Messages.OrphanedCopies` | src/rpc/messages.cpp:78-80 | Every orphaned record is copied with status `Orphan`. Every other field is unchanged, and the same outputs are covered. |
| `Messages.OverlayFollowsPrecedence` | src/rpc/messages.cpp:78-95 | For every output, the staged merge (orphan, then remove, then add) agrees with the precedence law add > remove > orphan > stored. |
| `Messages.AddedRecordWins` | src/rpc/messages.cpp:92-95 | A record in the pending-add map appears exactly as added. This holds whatever the stored, orphaned or removal entries for its output say. |
| `Messages.RemovedRecordAbsent` | src/rpc/messages.cpp:86-90 | An output in the pending-remove set and not in the pending-add map is absent. This holds even when it is stored or orphaned. |
| `Messages.OrphanedRecordMarked` | src/rpc/messages.cpp:78-84 | An orphaned record that is neither removed nor re-added appears once, as the orphaned copy with status `Orphan`, whatever the stored copy's status. |
| `Messages.UntouchedRecordKept` | src/rpc/messages.cpp:74-76 | An output that no dirty collection mentions keeps its stored record, or stays absent. |
| `Messages.EmptyOverlayIsIdentity` | src/rpc/messages.cpp:74-95 | With all three dirty collections empty, the result is the loaded set. |
| `Messages.OverlayKeyedAndSourced` | src/rpc/messages.cpp:81-94 | No two result records share an output. Every result record is the stored record, the orphaned copy or the added record for its output. |
| `Messages.OverlayIsIdempotent` | src/rpc/messages.cpp:78-95 | Applying the same dirty cache to a view it already produced changes nothing. |
| `Messages.ListedOnce` | src/rpc/messages.cpp:99-111 | In the rendered list, every output of the merged set occurs at exactly one position. |
| `Messages.ListInOrder` | src/rpc/messages.cpp:99-111 | Lists every record of the merged set once, in ascending output order, and nothing else. |
| `Messages.MergeDirtyMessages` | src/rpc/messages.cpp:74-95 | The three merge loops compute `Overlay` of the loaded set, and the result stays keyed by output. |
| `Messages.ApplyOrphans` | src/rpc/messages.cpp:78-84 | The orphan loop (erase if present, then insert with status `Orphan`) replaces each orphaned output's entry with its orphaned copy. |
| `Messages.ApplyRemovals` | src/rpc/messages.cpp:86-90 | Erasing by an output-only key removes exactly the removed outputs. |
| `Messages.ApplyAdds` | src/rpc/messages.cpp:92-95 | Erase-then-insert puts each added record in place of whatever its output held. |
| `Channels.ChannelListed` | src/rpc/messages.cpp:149-155 | A name is listed iff it is added, or it is stored and not removed. |
| `Channels.ChannelAddBeatsRemove` | src/rpc/messages.cpp:149-155 | A name in both the remove and the add set is listed. |
| `Channels.ChannelEmptyOverlayIsIdentity` | src/rpc/messages.cpp:143-145 | With both dirty sets empty, the result is the loaded channel set. |
| `Channels.ChannelOverlayIsIdempotent` | src/rpc/messages.cpp:149-155 | Applying the same dirty channel cache twice gives the same set as applying it once. |
| `Channels.MergeDirtyChannels` | src/rpc/messages.cpp:143-155 | The erase loop, then the insert loop, computes (stored − remove) ∪ add. |
| `Rpc.Node.ViewAllMessages` | src/rpc/messages.cpp:42-114 | The outcome depends on the first check that fails. A usage failure gives the help error. Messaging off gives its notice. A missing cache or database gives its notice. Otherwise the result is the merged set in output order, each output once. |
| `Rpc.Node.ViewAllMessageChannels` | src/rpc/messages.cpp:116-164 | The same checks apply, in the same order. Otherwise the result is (stored − remove) ∪ add, in ascending byte order, with no duplicates. |
| `Rpc.Node.ChannelGate` | src/rpc/messages.cpp:183-200 | The checks run in order: usage, messaging flag, channel database, string parameter, name validity, owner or message-channel type. It passes iff every check passes. The first failing check picks the error and its code. |
| `Rpc.Node.SubscribeToChannel` | src/rpc/messages.cpp:166-205 | `AddChannel` is called with the name iff the gate passes. Otherwise the gate's error is returned, nothing is called and the dirty channel cache is unchanged. |
| `Rpc.Node.UnsubscribeFromChannel` | src/rpc/messages.cpp:208-247 | `RemoveChannel` is called with the name iff the gate passes. Otherwise the gate's error is returned, nothing is called and the dirty channel cache is unchanged. |
| `Rpc.Node.GetIpfsNodeStatus` | src/rpc/messages.cpp:292-313 | Reports the current daemon state, unless the usage check fails. |
| `Rpc.Node.IpfsGate` | src/rpc/messages.cpp:332-341 | It passes iff `fIPFS` is on and the state is `DAEMON_CLIENT_CONNECTED`. The turned-off error comes before the not-running error. |
| `Rpc.Node.AddIpfsData` | src/rpc/messages.cpp:315-357 | The checks run in order: usage, gate, string parameter. Data longer than `MAX_IPFS_DATA_SIZE` is rejected, and data exactly that long is accepted. `AddIpfsData` is called only when every check passes, and its failure gives an internal error. The daemon state is never changed. |
| `Rpc.Node.PinIpfsHash` | src/rpc/messages.cpp:359-397 | The checks run in order: usage, gate, string parameter. A hash that `CheckIPFSHash` rejects gives an invalid-parameter error carrying the checker's text, and no pin call is made. Otherwise `PinIpfsFile` is called once. The daemon state is never changed. |

## Left out

- `src/qt/overviewpage.cpp` is not part of this model. It is presentation code.
- `startipfsnode` and `stopipfsnode`: `StartUpLocalIpfsNode` and `StopLocalIpfsNode` are not part of this model. The transitions they make of the daemon state cannot be seen, so the state is a value the commands only read. Apart from `DAEMON_CLIENT_CONNECTED`, the values of `IPFS_STATE` are represented by an opaque tag.
- Outside code becomes a parameter: `IsAssetNameValid`, `CheckIPFSHash`, and the replies of `AddIpfsData` and `PinIpfsFile`. `LoadMessages` and `LoadMyMessageChannels` become the node's database fields.
- `Rpc.Node.SubscribeToChannel`: the body of `AddChannel` is not part of this model. So after a passing gate the dirty channel cache may change in any way, and the model does not promise that the name is then listed by `viewallmessagechannels`.
- `Rpc.Node.UnsubscribeFromChannel`: likewise for `RemoveChannel`. The model does not promise that the name is no longer listed afterwards.
- `MAX_IPFS_DATA_SIZE` is defined in a header that is not part of this model, so its value is a constructor parameter of `Node`.
- JSON rendering is not modelled: help texts, `MessageActivationWarning`, `EncodeIPFS`, `DateTimeStrFormat`, the optional "Expire Time" field and `IPFSStateToString`. The message list is modelled as the records themselves, and the node status as the state value.
- The log line of `viewallmessagechannels` (line 147) and the RPC table registration (lines 399-417) are not modelled.
- Locking (`cs_ipfs`) and concurrent producers of the dirty caches are not modelled. Each check reads the state once, atomically.
- `Messages.MergeDirtyMessages`, `Messages.ApplyOrphans`, `Messages.ApplyAdds` and `Rpc.Node.ViewAllMessages` (through `Valid()`) require that each pending map stores every record under its own output. The producers that fill those maps are not part of this model. If that did not hold, the result would depend on the iteration order of `std::map`.
- The ordering and equality of `CMessage` come from a header that is not part of this model. The model takes them to compare `out` only, which is what the erase at lines 87-89 relies on. `COutPoint` is ordered by hash bytes (as `memcmp` does), then by index.
- The error that `get_str` raises on a parameter that is not a string is modelled as `NotAString`. How the RPC server reports that error is not modelled.
- Three behaviours of the code a reader might not expect, which the model follows:
  - When messaging is off or their store is missing, the two view commands return a notice string, not an error.
  - A hash that fails `CheckIPFSHash` is reported with `RPC_INVALID_PARAMETER` and the checker's own text.
  - The channel add loop only inserts, with no erase first. On a `std::set<std::string>` this gives the same result.
