/**
 * Messages held by the wallet and the dirty cache overlaid on the message
 * database: the records that `viewallmessages` lists.
 */
module Messages {
  import opened Ordering
  import opened Bytes
  import opened Wrappers

  newtype uint32 = x: int | 0 <= x < 0x1_0000_0000

  /** A `uint256`: 32 bytes, compared with `memcmp`. */
  type Hash256 = h: Bytes | |h| == 32 witness seq(32, _ => 0)

  /** A `COutPoint`: the transaction hash and the output index. */
  datatype OutPoint = OutPoint(hash: Hash256, n: uint32)

  /** `COutPoint`'s ordering: by hash, then by index. */
  predicate OutLess(a: OutPoint, b: OutPoint) {
    LexLess(a.hash, b.hash) || (a.hash == b.hash && a.n < b.n)
  }

  /** So a set of messages ordered by their outputs is iterated in `OutLess` order. */
  lemma OutLessIsStrictTotalOrder()
    ensures StrictTotalOrder(OutLess)
  {
    forall a: OutPoint
      ensures !OutLess(a, a)
    {
      LexIrreflexive(a.hash);
    }
    forall a: OutPoint, b: OutPoint, c: OutPoint | OutLess(a, b) && OutLess(b, c)
      ensures OutLess(a, c)
    {
      if LexLess(a.hash, b.hash) && LexLess(b.hash, c.hash) {
        LexTransitive(a.hash, b.hash, c.hash);
      }
    }
    forall a: OutPoint, b: OutPoint | a != b
      ensures OutLess(a, b) || OutLess(b, a)
    {
      if a.hash != b.hash {
        LexConnected(a.hash, b.hash);
      }
    }
  }

  datatype Status = Read | Unread | Orphan | Expired | Spam | Hidden | Error

  /** A `CMessage`. Two messages are the same record when their `out` agree. */
  datatype Message = Message(
    out: OutPoint,
    channel: Bytes,
    ipfsHash: Bytes,
    time: int,
    blockHeight: int,
    status: Status,
    expiredTime: int)

  /** A set of messages keyed by output, as a `std::set<CMessage>` is. */
  type MessageMap = map<OutPoint, Message>

  /** Every record is stored under its own output. */
  ghost predicate Keyed(m: MessageMap) {
    forall k :: k in m ==> m[k].out == k
  }

  /**
   * The dirty message cache: `mapDirtyMessagesOrphaned`,
   * `setDirtyMessagesRemove` and `mapDirtyMessagesAdd`.
   */
  datatype PendingMessages = PendingMessages(
    orphaned: MessageMap,
    remove: set<OutPoint>,
    add: MessageMap)
  {
    ghost predicate Valid() {
      Keyed(orphaned) && Keyed(add)
    }
  }

  const NoPendingMessages := PendingMessages(map[], {}, map[])

  /** The orphaned records with their status forced to `Orphan`. */
  function OrphanedCopies(orphaned: MessageMap): (r: MessageMap)
    ensures r.Keys == orphaned.Keys
    ensures forall k :: k in r ==> r[k].status == Orphan && r[k].(status := orphaned[k].status) == orphaned[k]
  {
    map k | k in orphaned :: orphaned[k].(status := Orphan)
  }

  /**
   * The database contents with the three dirty collections applied in the
   * order `viewallmessages` applies them: orphan, then remove, then add.
   */
  function Overlay(stored: MessageMap, p: PendingMessages): (r: MessageMap) {
    ((stored + OrphanedCopies(p.orphaned)) - p.remove) + p.add
  }

  /**
   * The record a single output resolves to, by the precedence
   * add > remove > orphan > stored.
   */
  function Resolve(stored: MessageMap, p: PendingMessages, k: OutPoint): (r: Option<Message>) {
    if k in p.add then Some(p.add[k])
    else if k in p.remove then None
    else if k in p.orphaned then Some(p.orphaned[k].(status := Orphan))
    else if k in stored then Some(stored[k])
    else None
  }

  function Lookup(m: MessageMap, k: OutPoint): (r: Option<Message>) {
    if k in m then Some(m[k]) else None
  }

  /** Staging the collections in order yields exactly the precedence law, key by key. */
  lemma OverlayFollowsPrecedence(stored: MessageMap, p: PendingMessages)
    ensures forall k :: Lookup(Overlay(stored, p), k) == Resolve(stored, p, k)
  {
  }

  /** A pending add appears as added, whatever the other collections say of its output. */
  lemma AddedRecordWins(stored: MessageMap, p: PendingMessages, k: OutPoint)
    requires k in p.add
    ensures k in Overlay(stored, p) && Overlay(stored, p)[k] == p.add[k]
  {
    OverlayFollowsPrecedence(stored, p);
    assert Lookup(Overlay(stored, p), k) == Some(p.add[k]);
  }

  /** A pending removal not re-added is absent, even when it is also orphaned or stored. */
  lemma RemovedRecordAbsent(stored: MessageMap, p: PendingMessages, k: OutPoint)
    requires k in p.remove && k !in p.add
    ensures k !in Overlay(stored, p)
  {
    OverlayFollowsPrecedence(stored, p);
    assert Lookup(Overlay(stored, p), k) == None;
  }

  /** An orphaned record neither removed nor re-added appears with status `Orphan`. */
  lemma OrphanedRecordMarked(stored: MessageMap, p: PendingMessages, k: OutPoint)
    requires k in p.orphaned && k !in p.remove && k !in p.add
    ensures k in Overlay(stored, p)
    ensures Overlay(stored, p)[k] == p.orphaned[k].(status := Orphan)
    ensures Overlay(stored, p)[k].status == Orphan
  {
    OverlayFollowsPrecedence(stored, p);
    assert Lookup(Overlay(stored, p), k) == Some(p.orphaned[k].(status := Orphan));
  }

  /** An output no dirty collection mentions keeps its stored record, or stays absent. */
  lemma UntouchedRecordKept(stored: MessageMap, p: PendingMessages, k: OutPoint)
    requires k !in p.orphaned && k !in p.remove && k !in p.add
    ensures k in Overlay(stored, p) <==> k in stored
    ensures k in stored ==> Overlay(stored, p)[k] == stored[k]
  {
    OverlayFollowsPrecedence(stored, p);
    assert Lookup(Overlay(stored, p), k) == Lookup(stored, k);
  }

  /** With an empty dirty cache the view is the database contents. */
  lemma EmptyOverlayIsIdentity(stored: MessageMap)
    ensures Overlay(stored, NoPendingMessages) == stored
  {
  }

  /**
   * Each listed record is stored under its own output, and comes from the
   * database, the orphaned collection (as an orphan) or the added collection.
   */
  lemma OverlayKeyedAndSourced(stored: MessageMap, p: PendingMessages)
    requires Keyed(stored) && p.Valid()
    ensures Keyed(Overlay(stored, p))
    ensures forall k :: k in Overlay(stored, p) ==>
      || (k in p.add && Overlay(stored, p)[k] == p.add[k])
      || (k in p.orphaned && Overlay(stored, p)[k] == p.orphaned[k].(status := Orphan))
      || (k in stored && Overlay(stored, p)[k] == stored[k])
  {
  }

  /** Applying the same dirty cache to a view it already produced changes nothing. */
  lemma OverlayIsIdempotent(stored: MessageMap, p: PendingMessages)
    ensures Overlay(Overlay(stored, p), p) == Overlay(stored, p)
  {
  }

  /** `s` lists the records of `m` in the order their set iterates them. */
  ghost predicate ListsInOrder(s: seq<Message>, m: MessageMap) {
    && (forall i, j :: 0 <= i < j < |s| ==> OutLess(s[i].out, s[j].out))
    && (forall i :: 0 <= i < |s| ==> s[i].out in m && m[s[i].out] == s[i])
    && (forall k :: k in m ==> exists i :: 0 <= i < |s| && s[i].out == k)
  }

  /** In such a listing each output of `m` occurs at exactly one position. */
  lemma ListedOnce(s: seq<Message>, m: MessageMap, k: OutPoint)
    requires ListsInOrder(s, m) && k in m
    ensures exists i :: 0 <= i < |s| && s[i].out == k
    ensures forall i, j :: 0 <= i < |s| && 0 <= j < |s| && s[i].out == k && s[j].out == k ==> i == j
  {
    OutLessIsStrictTotalOrder();
  }

  /** The records of a keyed set, in the order `viewallmessages` renders them. */
  method ListInOrder(m: MessageMap) returns (s: seq<Message>)
    requires Keyed(m)
    ensures ListsInOrder(s, m)
  {
    OutLessIsStrictTotalOrder();
    var outs := InOrder(m.Keys, OutLess);
    s := seq(|outs|, i requires 0 <= i < |outs| => m[outs[i]]);
    forall k | k in m
      ensures exists i :: 0 <= i < |s| && s[i].out == k
    {
      var i :| 0 <= i < |outs| && outs[i] == k;
      assert s[i].out == k;
    }
  }

  /**
   * The merge loops of `viewallmessages`: start from the loaded set, then
   * re-insert every orphaned record with status `Orphan`, erase every removed
   * output, and erase-then-insert every added record.
   */
  method MergeDirtyMessages(stored: MessageMap, p: PendingMessages) returns (merged: MessageMap)
    requires Keyed(stored) && p.Valid()
    ensures merged == Overlay(stored, p)
    ensures Keyed(merged)
  {
    merged := ApplyOrphans(stored, p.orphaned);
    merged := ApplyRemovals(merged, p.remove);
    merged := ApplyAdds(merged, p.add);
    OverlayKeyedAndSourced(stored, p);
  }

  /** The first loop: every orphaned record replaces its output's entry, marked `Orphan`. */
  method ApplyOrphans(working: MessageMap, orphaned: MessageMap) returns (merged: MessageMap)
    requires Keyed(orphaned)
    ensures merged == working + OrphanedCopies(orphaned)
  {
    merged := working;
    var todo := orphaned.Keys;
    while todo != {}
      invariant todo <= orphaned.Keys
      invariant merged.Keys == working.Keys + (orphaned.Keys - todo)
      invariant forall k :: k in merged ==>
        merged[k] == if k in orphaned && k !in todo then orphaned[k].(status := Orphan) else working[k]
      decreases todo
    {
      var k :| k in todo;
      var message := orphaned[k].(status := Orphan);
      if message.out in merged {
        merged := merged - {message.out};
      }
      merged := merged[message.out := message];
      todo := todo - {k};
    }
  }

  /** The second loop: every removed output is erased. */
  method ApplyRemovals(working: MessageMap, remove: set<OutPoint>) returns (merged: MessageMap)
    ensures merged == working - remove
  {
    merged := working;
    var outs := remove;
    while outs != {}
      invariant outs <= remove
      invariant merged == working - (remove - outs)
      decreases outs
    {
      var out :| out in outs;
      merged := merged - {out};
      outs := outs - {out};
    }
  }

  /** The third loop: every added record is erased, then inserted. */
  method ApplyAdds(working: MessageMap, add: MessageMap) returns (merged: MessageMap)
    requires Keyed(add)
    ensures merged == working + add
  {
    merged := working;
    var todo := add.Keys;
    while todo != {}
      invariant todo <= add.Keys
      invariant merged.Keys == working.Keys + (add.Keys - todo)
      invariant forall k :: k in merged ==>
        merged[k] == if k in add && k !in todo then add[k] else working[k]
      decreases todo
    {
      var k :| k in todo;
      var message := add[k];
      merged := merged - {message.out};
      merged := merged[message.out := message];
      todo := todo - {k};
    }
  }
}
