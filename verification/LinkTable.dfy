/** The table itself: one lock's worth of fields, the queue of unacknowledged messages, and the counters. */
module LinkTableClass {
  import opened Wrappers
  import opened Links

  /** What `Send` may raise: there was a row for the peer when the way was chosen, and now there is none. */
  datatype SendError = RowGone

  datatype Change = NewRows(pipeline: string, peers: seq<Neighbour>) | NoRows(pipeline: string)

  function Changed(t: Table, changes: seq<Change>): Table {
    if changes == [] then t
    else
      var before := Changed(t, changes[..|changes| - 1]);
      match changes[|changes| - 1]
      case NewRows(pipeline, peers) => Redirected(before, pipeline, peers)
      case NoRows(pipeline) => Forgotten(before, pipeline)
  }

  class LinkTable {
    var neighbours: map<Key, Neighbour>
    var blockedUntil: map<PeerId, real>
    var seenDirect: map<PeerId, bool>
    var worth: map<PeerId, Measure>
    var chosen: map<PeerId, bool>
    var selfReachable: bool
    var hasDirect: bool
    var pending: seq<Entry>
    var direct: nat
    var relay: nat
    var fallbacks: nat
    var relayed: seq<Message>  // what the caller's relay was given

    constructor ()
      ensures View() == Post(NEW_TABLE, [], 0, 0, 0, [])
    {
      neighbours, blockedUntil, seenDirect, worth, chosen := map[], map[], map[], map[], map[];
      selfReachable, hasDirect, pending, direct, relay, fallbacks, relayed := false, false, [], 0, 0, 0, [];
    }

    function Directory(): Table
      reads this
    {
      Table(neighbours, blockedUntil, seenDirect, worth, chosen, selfReachable, hasDirect)
    }

    function View(): Post
      reads this
    {
      Post(Directory(), pending, direct, relay, fallbacks, relayed)
    }

    /** Replace one pipeline's rows and forget what no row speaks of any more. */
    method SetNeighbours(pipeline: string, peers: seq<Neighbour>)
      modifies this`neighbours, this`blockedUntil, this`chosen, this`worth
      ensures View() == old(View()).(table := Redirected(old(Directory()), pipeline, peers))
    {
      var rows: map<Key, Neighbour> := map[];
      for k := 0 to |peers|
        invariant rows == Rows(pipeline, peers[..k])
      {
        assert peers[..k + 1][..k] == peers[..k];
        rows := rows[(pipeline, peers[k].stageIndex) := peers[k]];
      }
      assert peers[..|peers|] == peers;
      neighbours := Without(neighbours, pipeline) + rows;
      blockedUntil := map[];
      var live := LivePeers(neighbours);
      chosen := Only(chosen, live);
      worth := Only(worth, live);
    }

    method Forget(pipeline: string)
      modifies this`neighbours
      ensures View() == old(View()).(table := Forgotten(old(Directory()), pipeline))
    {
      neighbours := Without(neighbours, pipeline);
    }

    /** Is there a real connection, and is it the shorter one? With a measurement the answer is remembered. */
    method IsWorthUsing(peer: Neighbour) returns (yes: bool)
      modifies this`chosen
      ensures (yes, Directory()) == WorthUsing(old(Directory()), peer)
    {
      if peer.peerId in seenDirect && !seenDirect[peer.peerId] { return false; }
      if !(peer.peerId in seenDirect || peer.reachable || selfReachable) { return false; }
      if peer.peerId !in worth { return true; }
      var m := worth[peer.peerId];
      if m.direct == 0.0 || m.near == 0.0 || peer.relayRtt == 0.0 { return true; }
      var there := m.near + peer.relayRtt;
      var before := if peer.peerId in chosen then chosen[peer.peerId] else true;
      if before {
        yes := m.direct <= there * (1.0 + PATH_MARGIN);
      } else {
        yes := m.direct < there * (1.0 - PATH_MARGIN);
      }
      chosen := chosen[peer.peerId := yes];
    }

    /** Would a message to this stage go directly, right now? */
    method DirectAvailable(key: Key, now: real) returns (yes: bool)
      modifies this`chosen
      ensures (yes, Directory()) == Asked(old(Directory()), key, now)
    {
      if key !in neighbours || !neighbours[key].Dialable() || !hasDirect { return false; }
      var peer := neighbours[key];
      if now < (if peer.peerId in blockedUntil then blockedUntil[peer.peerId] else 0.0) { return false; }
      yes := IsWorthUsing(peer);
    }

    method Block(peer: PeerId, now: real)
      modifies this`blockedUntil, this`fallbacks
      ensures View() == Blocked(old(View()), peer, now)
    {
      blockedUntil := blockedUntil[peer := now + DIRECT_COOLDOWN_S];
      fallbacks := fallbacks + 1;
    }

    /** Wait for one acknowledgement and repair the damage if it does not come in time. */
    method Settle(e: Entry, fate: Fate, now: real)
      modifies this`blockedUntil, this`fallbacks, this`relayed, this`direct, this`relay
      ensures View() == Settled(old(View()), e, fate, now)
    {
      if !fate.Acknowledged? {
        Block(e.peer, now);
        relayed := relayed + [e.message];
        direct := if direct < 1 then 0 else direct - 1;
        relay := relay + 1;
      }
    }

    /** Queue a handed-over message for the watcher; a full queue makes the sender wait itself. */
    method Watch(e: Entry, fate: Fate, now: real)
      modifies this`pending, this`blockedUntil, this`fallbacks, this`relayed, this`direct, this`relay
      ensures View() == if |old(pending)| < PENDING_ACKS then old(View()).(pending := old(pending) + [e])
                        else Settled(old(View()), e, fate, now)
    {
      if |pending| < PENDING_ACKS {
        pending := pending + [e];
      } else {
        Settle(e, fate, now);
      }
    }

    /** What other threads do to the directory while a sender does not hold the lock. */
    method Meanwhile(changes: seq<Change>)
      modifies this`neighbours, this`blockedUntil, this`chosen, this`worth
      ensures View() == old(View()).(table := Changed(old(Directory()), changes))
    {
      for k := 0 to |changes|
        invariant View() == old(View()).(table := Changed(old(Directory()), changes[..k]))
      {
        assert changes[..k + 1][..k] == changes[..k];
        match changes[k]
        case NewRows(pipeline, peers) => SetNeighbours(pipeline, peers);
        case NoRows(pipeline) => Forget(pipeline);
      }
      assert changes[..|changes|] == changes;
    }

    /**
     Deliver one message; true when it went directly. The lock is taken twice, once to choose and once to
     look the peer up, with changes to the directory in between. If the row is gone by then, this raises
     and nobody relays the message. With nothing else in between, the sender waits until `later`.
     */
    method Send(key: Key, m: Message, changes: seq<Change>, handing: Handing, fate: Fate, now: real, later: real)
      returns (went: Result<bool, SendError>)
      modifies this
      ensures var (yes, table) := Asked(old(Directory()), key, now);
              var post := old(View()).(table := if yes then Changed(table, changes) else table);
              && (went.Err? <==> yes && key !in post.table.neighbours)
              && (went.Ok? ==> went.value == (yes && !handing.Raises?))
              && View() == (if !yes then Relayed(post, m)
                            else if key !in post.table.neighbours then post
                            else
                              var peer := post.table.neighbours[key].peerId;
                              match handing
                              case Raises => Relayed(Blocked(post, peer, now), m)
                              case Unacknowledged => Counted(post)
                              case Promised =>
                                if |post.pending| < PENDING_ACKS
                                then Counted(post.(pending := post.pending + [Entry(peer, m)]))
                                else Counted(Settled(post, Entry(peer, m), fate, later)))
    {
      hide Asked, Changed, Settled, Blocked;
      var yes := DirectAvailable(key, now);
      if yes {
        Meanwhile(changes);
        if key !in neighbours { return Err(RowGone); }
        var peer := neighbours[key];
        match handing
        case Unacknowledged =>
          direct := direct + 1;
          return Ok(true);
        case Promised =>
          Watch(Entry(peer.peerId, m), fate, later);
          direct := direct + 1;
          return Ok(true);
        case Raises =>
          Block(peer.peerId, now);
      }
      relayed := relayed + [m];
      relay := relay + 1;
      went := Ok(false);
    }

    /** The watcher's turn: the oldest unacknowledged message is settled. */
    method WatchOne(fate: Fate, now: real)
      requires pending != []
      modifies this`pending, this`blockedUntil, this`fallbacks, this`relayed, this`direct, this`relay
      ensures View() == Settled(old(View()).(pending := old(pending)[1..]), old(pending)[0], fate, now)
    {
      var e := pending[0];
      pending := pending[1..];
      Settle(e, fate, now);
    }
  }
}
