/**
 * Subscribed message channels and the dirty cache overlaid on the channel
 * database: the names that `viewallmessagechannels` lists.
 */
module Channels {
  import opened Bytes

  /** The dirty channel cache: `setDirtyChannelsRemove` and `setDirtyChannelsAdd`. */
  datatype PendingChannels = PendingChannels(remove: set<Bytes>, add: set<Bytes>)

  const NoPendingChannels := PendingChannels({}, {})

  /** The database's channels with the removals, then the additions, applied. */
  function ChannelOverlay(stored: set<Bytes>, p: PendingChannels): (r: set<Bytes>) {
    (stored - p.remove) + p.add
  }

  /** A name is listed exactly when it is added, or stored and not removed. */
  lemma ChannelListed(stored: set<Bytes>, p: PendingChannels, name: Bytes)
    ensures name in ChannelOverlay(stored, p) <==> name in p.add || (name in stored && name !in p.remove)
  {
  }

  /** A name both removed and added is listed: the additions run last. */
  lemma ChannelAddBeatsRemove(stored: set<Bytes>, p: PendingChannels, name: Bytes)
    requires name in p.remove && name in p.add
    ensures name in ChannelOverlay(stored, p)
  {
  }

  /** With an empty dirty cache the view is the database contents. */
  lemma ChannelEmptyOverlayIsIdentity(stored: set<Bytes>)
    ensures ChannelOverlay(stored, NoPendingChannels) == stored
  {
  }

  /** Applying the same dirty cache to a view it already produced changes nothing. */
  lemma ChannelOverlayIsIdempotent(stored: set<Bytes>, p: PendingChannels)
    ensures ChannelOverlay(ChannelOverlay(stored, p), p) == ChannelOverlay(stored, p)
  {
  }

  /**
   * The merge loops of `viewallmessagechannels`: start from the loaded set,
   * erase every removed name, then insert every added name.
   */
  method MergeDirtyChannels(stored: set<Bytes>, p: PendingChannels) returns (merged: set<Bytes>)
    ensures merged == ChannelOverlay(stored, p)
  {
    merged := stored;

    var names := p.remove;
    while names != {}
      invariant names <= p.remove
      invariant merged == stored - (p.remove - names)
      decreases names
    {
      var name :| name in names;
      merged := merged - {name};
      names := names - {name};
    }

    names := p.add;
    while names != {}
      invariant names <= p.add
      invariant merged == (stored - p.remove) + (p.add - names)
      decreases names
    {
      var name :| name in names;
      merged := merged + {name};
      names := names - {name};
    }
  }
}
