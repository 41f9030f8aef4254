/** Which way a message goes to a neighbour, and what becomes of it, as values. */
module Links {
  import opened Wrappers

  type PeerId = string
  type Key = (string, nat)
  type Message = string

  /** A round trip in milliseconds. */
  type Rtt = t: real | 0.0 <= t

  const DIRECT_COOLDOWN_S: real := 30.0
  const PENDING_ACKS := 64
  const PATH_MARGIN: real := 0.2

  /** A peer this node may send to; `relayRtt` is its own trip to the relay, zero when unknown. */
  datatype Neighbour = Neighbour(
    stageIndex: nat, nodeId: string, peerId: PeerId, addrs: seq<string>, relayRtt: Rtt, reachable: bool)
  {
    predicate Dialable() {
      peerId != "" && addrs != []
    }
  }

  /** Two round trips, zero when unknown: straight to the peer, and from this node to the relay. */
  datatype Measure = Measure(direct: Rtt, near: Rtt)

  datatype Table = Table(
    neighbours: map<Key, Neighbour>,
    blockedUntil: map<PeerId, real>,
    seenDirect: map<PeerId, bool>,
    worth: map<PeerId, Measure>,
    chosen: map<PeerId, bool>,
    selfReachable: bool,
    hasDirect: bool)

  const NEW_TABLE := Table(map[], map[], map[], map[], map[], false, false)

  // ---------------------------------------------------------------- the directory

  function Rows(pipeline: string, peers: seq<Neighbour>): map<Key, Neighbour> {
    if peers == [] then map[]
    else
      var last := peers[|peers| - 1];
      Rows(pipeline, peers[..|peers| - 1])[(pipeline, last.stageIndex) := last]
  }

  function Without(neighbours: map<Key, Neighbour>, pipeline: string): map<Key, Neighbour> {
    map key | key in neighbours && key.0 != pipeline :: neighbours[key]
  }

  function LivePeers(neighbours: map<Key, Neighbour>): set<PeerId> {
    set key | key in neighbours :: neighbours[key].peerId
  }

  function Only<V>(m: map<PeerId, V>, live: set<PeerId>): map<PeerId, V> {
    map peer | peer in m && peer in live :: m[peer]
  }

  /** This pipeline's rows are replaced; measurements and choices stay for peers still talked to. */
  function Redirected(t: Table, pipeline: string, peers: seq<Neighbour>): Table {
    var neighbours := Without(t.neighbours, pipeline) + Rows(pipeline, peers);
    var live := LivePeers(neighbours);
    t.(neighbours := neighbours, blockedUntil := map[], chosen := Only(t.chosen, live), worth := Only(t.worth, live))
  }

  function Forgotten(t: Table, pipeline: string): Table {
    t.(neighbours := Without(t.neighbours, pipeline))
  }

  // ---------------------------------------------------------------- the choice

  /** Either end accepts connections, or the connection was seen to be direct, and not seen to be a circuit. */
  predicate RealLink(t: Table, peer: Neighbour) {
    && (peer.peerId in t.seenDirect ==> t.seenDirect[peer.peerId])
    && (peer.peerId in t.seenDirect || peer.reachable || t.selfReachable)
  }

  /** Both trips, when all three halves are known. */
  function Measured(t: Table, peer: Neighbour): Option<(Rtt, Rtt)> {
    if peer.peerId !in t.worth then None
    else
      var m := t.worth[peer.peerId];
      if m.direct == 0.0 || m.near == 0.0 || peer.relayRtt == 0.0 then None
      else Some((m.direct, m.near + peer.relayRtt))
  }

  /** The path taken before is kept unless the other wins by the margin. */
  predicate Kept(before: bool, direct: Rtt, relayed: Rtt) {
    if before then direct <= relayed * (1.0 + PATH_MARGIN) else direct < relayed * (1.0 - PATH_MARGIN)
  }

  function Before(t: Table, peer: PeerId): bool {
    if peer in t.chosen then t.chosen[peer] else true
  }

  /** Is there a real connection, and is it the shorter one? The answer is remembered when it was measured. */
  function WorthUsing(t: Table, peer: Neighbour): (bool, Table) {
    if !RealLink(t, peer) then (false, t)
    else
      var measured := Measured(t, peer);
      if measured.None? then (true, t)
      else
        var after := Kept(Before(t, peer.peerId), measured.value.0, measured.value.1);
        (after, t.(chosen := t.chosen[peer.peerId := after]))
  }

  predicate Quarantined(t: Table, peer: PeerId, now: real) {
    now < (if peer in t.blockedUntil then t.blockedUntil[peer] else 0.0)
  }

  /** Would a message to this stage go directly, right now? Asking may change the choice. */
  function Asked(t: Table, key: Key, now: real): (bool, Table) {
    if key !in t.neighbours || !t.neighbours[key].Dialable() || !t.hasDirect then (false, t)
    else if Quarantined(t, t.neighbours[key].peerId, now) then (false, t)
    else WorthUsing(t, t.neighbours[key])
  }

  // ---------------------------------------------------------------- sending

  /** A message handed over and not yet acknowledged. */
  datatype Entry = Entry(peer: PeerId, message: Message)

  /** The table with its queue and counters; `relayed` is everything handed to the relay, in order. */
  datatype Post = Post(
    table: Table, pending: seq<Entry>, direct: nat, relay: nat, fallbacks: nat, relayed: seq<Message>)

  /** What the transport does with a message: refuse it, take it for good, or promise an acknowledgement. */
  datatype Handing = Raises | Unacknowledged | Promised

  function Blocked(p: Post, peer: PeerId, now: real): Post {
    p.(table := p.table.(blockedUntil := p.table.blockedUntil[peer := now + DIRECT_COOLDOWN_S]),
       fallbacks := p.fallbacks + 1)
  }

  function Relayed(p: Post, m: Message): Post {
    p.(relayed := p.relayed + [m], relay := p.relay + 1)
  }

  function Uncounted(p: Post): Post {
    p.(direct := if p.direct == 0 then 0 else p.direct - 1)
  }

  function Counted(p: Post): Post {
    p.(direct := p.direct + 1)
  }

  /**
   What becomes of a message handed over: it arrives and the acknowledgement comes in time, it arrives
   and the acknowledgement is late or never comes, or it does not arrive.
   */
  datatype Fate = Acknowledged | Late | Vanished

  /** What settling one handed-over message does; nobody here can tell a late one from a vanished one. */
  function Settled(p: Post, e: Entry, fate: Fate, now: real): Post {
    if fate.Acknowledged? then p else Relayed(Uncounted(Blocked(p, e.peer, now)), e.message)
  }

  // ---------------------------------------------------------------- what the choice guarantees

  /** A circuit through the relay is never taken, nor a peer in quarantine, nor a row of another pipeline. */
  lemma DirectMeansDirect(t: Table, key: Key, now: real)
    requires Asked(t, key, now).0
    ensures key in t.neighbours && t.neighbours[key].Dialable() && t.hasDirect
    ensures RealLink(t, t.neighbours[key]) && !Quarantined(t, t.neighbours[key].peerId, now)
    ensures Measured(t, t.neighbours[key]).Some? ==>
              var (direct, relayed) := Measured(t, t.neighbours[key]).value;
              direct <= relayed * (1.0 + PATH_MARGIN)
  {
    var m := Measured(t, t.neighbours[key]);
    if m.Some? { assert t.neighbours[key].peerId in t.worth; }
  }

  /** One measurement after another decides the path; `choices[k]` is the path before the k-th. */
  ghost predicate Decisions(samples: seq<(Rtt, Rtt)>, choices: seq<bool>) {
    && |choices| == |samples| + 1
    && forall k | 0 <= k < |samples| :: choices[k + 1] == Kept(choices[k], samples[k].0, samples[k].1)
  }

  predicate InTheBand(sample: (Rtt, Rtt)) {
    sample.1 * (1.0 - PATH_MARGIN) <= sample.0 <= sample.1 * (1.0 + PATH_MARGIN)
  }

  /** As long as the two trips stay within a fifth of each other, the path never changes, whichever it is. */
  lemma {:induction false} JitterDecidesNothing(samples: seq<(Rtt, Rtt)>, choices: seq<bool>, i: nat, j: nat)
    requires Decisions(samples, choices) && i <= j <= |samples|
    requires forall k | i <= k < j :: InTheBand(samples[k])
    ensures choices[i] == choices[j]
  {
    if i < j {
      JitterDecidesNothing(samples, choices, i, j - 1);
      assert InTheBand(samples[j - 1]);
      assert choices[j - 1 + 1] == Kept(choices[j - 1], samples[j - 1].0, samples[j - 1].1);
    }
  }

  /**
   A path that is given up and taken back needs both: once to measure longer than the other by the
   margin, and later to measure shorter by it.
   */
  lemma ChangingBackCrossesTheBand(samples: seq<(Rtt, Rtt)>, choices: seq<bool>, i: nat, j: nat)
    requires Decisions(samples, choices) && i < j < |samples|
    requires choices[i] != choices[i + 1] && choices[j] == choices[i + 1] && choices[j] != choices[j + 1]
    ensures var (away, back) := if choices[i] then (samples[i], samples[j]) else (samples[j], samples[i]);
            away.0 > away.1 * (1.0 + PATH_MARGIN) && back.0 < back.1 * (1.0 - PATH_MARGIN)
  {
    assert choices[i + 1] == Kept(choices[i], samples[i].0, samples[i].1);
    assert choices[j + 1] == Kept(choices[j], samples[j].0, samples[j].1);
  }

  // ---------------------------------------------------------------- what a new directory leaves alone

  lemma {:induction false} RowsAreOwn(pipeline: string, peers: seq<Neighbour>)
    ensures forall key | key in Rows(pipeline, peers) ::
              && key.0 == pipeline
              && (exists k ::
                    0 <= k < |peers| && peers[k].stageIndex == key.1 && Rows(pipeline, peers)[key] == peers[k])
    ensures forall k | 0 <= k < |peers| :: (pipeline, peers[k].stageIndex) in Rows(pipeline, peers)
  {
    if peers != [] {
      var front := peers[..|peers| - 1];
      RowsAreOwn(pipeline, front);
      forall key | key in Rows(pipeline, peers)
        ensures exists k :: 0 <= k < |peers| && peers[k].stageIndex == key.1 && Rows(pipeline, peers)[key] == peers[k]
      {
        if key == (pipeline, peers[|peers| - 1].stageIndex) {
          assert peers[|peers| - 1].stageIndex == key.1;
        } else {
          var k :| 0 <= k < |front| && front[k].stageIndex == key.1 && Rows(pipeline, front)[key] == front[k];
          assert peers[k] == front[k];
        }
      }
    }
  }

  /**
   Redeploying one pipeline replaces its rows and no other's, and keeps what was measured and chosen for
   every peer some row still names.
   */
  lemma RedirectedElsewhere(t: Table, pipeline: string, peers: seq<Neighbour>, key: Key)
    requires key.0 != pipeline
    ensures var after := Redirected(t, pipeline, peers);
            && (key in after.neighbours <==> key in t.neighbours)
            && (key in t.neighbours ==> after.neighbours[key] == t.neighbours[key])
            && (key in t.neighbours ==>
                  var peer := t.neighbours[key].peerId;
                  && Before(after, peer) == Before(t, peer)
                  && (peer in after.worth <==> peer in t.worth)
                  && (peer in t.worth ==> after.worth[peer] == t.worth[peer]))
  {
    RowsAreOwn(pipeline, peers);
    var after := Redirected(t, pipeline, peers);
    if key in t.neighbours {
      assert key in after.neighbours && after.neighbours[key].peerId in LivePeers(after.neighbours);
    }
  }

  /** Its own rows are exactly the new ones, and nobody stays in quarantine. */
  lemma RedirectedHere(t: Table, pipeline: string, peers: seq<Neighbour>, stage: nat)
    ensures var after := Redirected(t, pipeline, peers);
            (pipeline, stage) in after.neighbours <==> exists k :: 0 <= k < |peers| && peers[k].stageIndex == stage
    ensures forall peer, now | now >= 0.0 :: !Quarantined(Redirected(t, pipeline, peers), peer, now)
  {
    RowsAreOwn(pipeline, peers);
    if exists k :: 0 <= k < |peers| && peers[k].stageIndex == stage {
      var k :| 0 <= k < |peers| && peers[k].stageIndex == stage;
      assert (pipeline, peers[k].stageIndex) in Rows(pipeline, peers);
    }
  }
}
