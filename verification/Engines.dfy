/** What one stage remembers of each request, and what one step over a batch does to it. */
module Engines {
  import opened Wrappers
  import opened FiniteSets
  import opened Transformer
  import opened Sequences
  import opened BatchWire

  /** One request's caches on a stage; `created` orders the slots by age. */
  datatype Slot = Slot(caches: seq<Cache>, seen: nat, created: nat)

  datatype Engine = Engine(slots: map<Id, Slot>, clock: nat)

  /** Layers `lo..hi` of the model, and how many requests the stage keeps at once. */
  datatype Shard = Shard(model: Model, lo: nat, hi: nat, isFirst: bool, isLast: bool, capacity: nat) {
    ghost predicate Valid() {
      WellFormed(model) && lo <= hi <= |model.layers| && capacity > 0
    }

    function Layers(): seq<Layer>
      requires lo <= hi <= |model.layers|
    {
      model.layers[lo..hi]
    }
  }

  /** Every slot has a cache per layer. */
  ghost predicate Fitted(shard: Shard, e: Engine) {
    && shard.Valid()
    && (forall id | id in e.slots :: |e.slots[id].caches| == shard.hi - shard.lo)
  }

  ghost predicate IsOldest(slots: map<Id, Slot>, id: Id) {
    id in slots && forall other | other in slots :: slots[id].created <= slots[other].created
  }

  lemma {:induction false} OldestExists(slots: map<Id, Slot>, among: set<Id>)
    requires among != {} && among <= slots.Keys
    ensures exists id | id in among :: forall other | other in among :: slots[id].created <= slots[other].created
  {
    var some :| some in among;
    var rest := among - {some};
    if rest == {} {
      assert among == {some};
    } else {
      OldestExists(slots, rest);
      var least :| least in rest && forall other | other in rest :: slots[least].created <= slots[other].created;
      assert among == rest + {some};
      if slots[some].created < slots[least].created {
        assert forall other | other in among :: slots[some].created <= slots[other].created;
      } else {
        assert forall other | other in among :: slots[least].created <= slots[other].created;
      }
    }
  }

  ghost function Oldest(slots: map<Id, Slot>): (id: Id)
    requires slots != map[]
    ensures IsOldest(slots, id)
  {
    assert slots.Keys != {} by { var some :| some in slots; }
    OldestExists(slots, slots.Keys);
    assert exists id :: IsOldest(slots, id) by {
      var id :| id in slots.Keys && forall other | other in slots.Keys :: slots[id].created <= slots[other].created;
      assert IsOldest(slots, id);
    }
    var id :| IsOldest(slots, id);
    id
  }

  /** Every slot was made before now. */
  predicate Aged(e: Engine) {
    forall id | id in e.slots :: e.slots[id].created < e.clock
  }

  /** The slot of a request, made if it is not there: a full stage evicts its oldest for it. */
  ghost function Touched(shard: Shard, e: Engine, id: Id): Engine
    requires shard.Valid()
  {
    if id in e.slots then e
    else
      var kept := if |e.slots| >= shard.capacity then e.slots - {Oldest(e.slots)} else e.slots;
      Engine(kept[id := Slot(Fresh(shard.Layers()), 0, e.clock)], e.clock + 1)
  }

  function Freed(e: Engine, id: Id): Engine {
    e.(slots := e.slots - {id})
  }

  ghost function Forwarded(shard: Shard, e: Engine, id: Id, at: seq<nat>, rows: seq<Row>): (r: (Engine, seq<Row>))
    requires Fitted(shard, e)
    ensures Fitted(shard, r.0) && |r.1| == |rows|
  {
    var touched := Touched(shard, e, id);
    assert Fitted(shard, touched);
    var slot := touched.slots[id];
    var p := RunLayers(shard.Layers(), slot.caches, at, rows);
    RunLayersKeepsLength(shard.Layers(), slot.caches, at, rows);
    (touched.(slots := touched.slots[id := Slot(p.caches, slot.seen + |at|, slot.created)]), p.rows)
  }

  /** Which positions and which tokens a member computes on this step. */
  function Where(r: Request, first: bool): (w: (seq<nat>, seq<Token>))
    ensures |w.0| == |w.1| == Width(r, first)
  {
    if first then (Positions(0, |r.prompt|), r.prompt)
    else
      ([r.Computed()],
       [if r.output != [] then r.output[|r.output| - 1]
        else if r.prompt != [] then r.prompt[|r.prompt| - 1] else 0])
  }

  /** On the step a request is due for, those are the positions and tokens of the reference run. */
  lemma WhereFollowsAlone(r: Request)
    ensures Where(r, r.output == []) == (StepPositions(r.prompt, r.output), StepTokens(r.prompt, r.output))
  {
  }

  /** The rows a first stage feeds its layers. */
  function Embedded(m: Model, batch: seq<Request>, first: bool): (pieces: seq<seq<Row>>)
    ensures |pieces| == |batch|
    ensures Lengths(pieces) == Widths(batch, first)
  {
    seq(|batch|, k requires 0 <= k < |batch| => Embed(m, Where(batch[k], first).1))
  }

  /** The first `count` members, one after another; the pieces come out in batch order. */
  ghost function BatchForwarded(shard: Shard, e: Engine, batch: seq<Request>, pieces: seq<seq<Row>>, first: bool,
                                count: nat)
      : (r: (Engine, seq<seq<Row>>))
    requires Fitted(shard, e) && count <= |batch| == |pieces|
    ensures Fitted(shard, r.0) && |r.1| == count
    ensures forall k | 0 <= k < count :: |r.1[k]| == |pieces[k]|
  {
    if count == 0 then (e, [])
    else
      var before := BatchForwarded(shard, e, batch, pieces, first, count - 1);
      var r := batch[count - 1];
      var (after, rows) := Forwarded(shard, before.0, r.id, Where(r, first).0, pieces[count - 1]);
      (after, before.1 + [rows])
  }

  /** What leaves a stage: rows for the next one, or on the last stage one row of logits per member. */
  datatype Output = Hidden(rows: seq<Row>) | Logits(lastRows: seq<Row>)

  datatype StepError = NoTensors | Apart(mismatch: Mismatch)

  function LastRows(pieces: seq<seq<Row>>): (rows: seq<Row>)
    requires forall k | 0 <= k < |pieces| :: pieces[k] != []
    ensures |rows| == |pieces|
  {
    seq(|pieces|, k requires 0 <= k < |pieces| => pieces[k][|pieces[k]| - 1])
  }

  /** What a stage feeds its layers: its own embeddings, or the incoming rows cut at the members' widths. */
  function Incoming(shard: Shard, batch: seq<Request>, incoming: Option<seq<Row>>, first: bool)
      : (r: Result<seq<seq<Row>>, StepError>)
    ensures r.Ok? ==> |r.value| == |batch|
  {
    if shard.isFirst then Ok(Embedded(shard.model, batch, first))
    else if incoming.None? || incoming.value == [] then Err(NoTensors)
    else
      var checked := CheckTokens(batch, |incoming.value|, first);
      if checked.Err? then Err(Apart(checked.error))
      else Ok(Cut(incoming.value, Widths(batch, first)))
  }

  lemma IncomingWidths(shard: Shard, batch: seq<Request>, incoming: Option<seq<Row>>, first: bool)
    requires Incoming(shard, batch, incoming, first).Ok?
    ensures Lengths(Incoming(shard, batch, incoming, first).value) == Widths(batch, first)
  {
    if !shard.isFirst {
      var w := Widths(batch, first);
      forall k | 0 <= k < |w| ensures |Cut(incoming.value, w)[k]| == w[k] {
        TotalGrows(w, k);
      }
    }
  }

  /** Everybody in the batch has a row to compute; the front end refuses an empty prompt. */
  predicate HasRows(batch: seq<Request>, first: bool) {
    first ==> forall r | r in batch :: r.prompt != []
  }

  /** With rows everywhere, the last stage has a row of logits for everybody. */
  lemma NobodyIsEmpty(pieces: seq<seq<Row>>, out: seq<seq<Row>>, batch: seq<Request>, first: bool)
    requires |pieces| == |batch| == |out| && Lengths(pieces) == Widths(batch, first) && HasRows(batch, first)
    requires forall k | 0 <= k < |out| :: |out[k]| == |pieces[k]|
    ensures forall k | 0 <= k < |out| :: out[k] != []
  {
    forall k | 0 <= k < |out| ensures out[k] != [] {
      assert |out[k]| == Lengths(pieces)[k] == Width(batch[k], first);
      assert batch[k] in batch;
    }
  }

  ghost function Stepped(shard: Shard, e: Engine, batch: seq<Request>, incoming: Option<seq<Row>>, first: bool)
      : (r: (Engine, Result<Output, StepError>))
    requires Fitted(shard, e) && HasRows(batch, first)
    ensures Fitted(shard, r.0)
    ensures r.1.Ok? && r.1.value.Logits? ==> |r.1.value.lastRows| == |batch|
  {
    var fed := Incoming(shard, batch, incoming, first);
    if fed.Err? then (e, Err(fed.error))
    else
      var (after, pieces) := BatchForwarded(shard, e, batch, fed.value, first, |batch|);
      IncomingWidths(shard, batch, incoming, first);
      NobodyIsEmpty(fed.value, pieces, batch, first);
      (after, Ok(if shard.isLast then Logits(LastRows(pieces)) else Hidden(Glue(pieces))))
  }

  lemma SteppedRefuses(shard: Shard, e: Engine, batch: seq<Request>, incoming: Option<seq<Row>>, first: bool)
    requires Fitted(shard, e) && HasRows(batch, first) && Incoming(shard, batch, incoming, first).Err?
    ensures Stepped(shard, e, batch, incoming, first) == (e, Err(Incoming(shard, batch, incoming, first).error))
  {
  }

  lemma SteppedPieces(shard: Shard, e: Engine, batch: seq<Request>, incoming: Option<seq<Row>>, first: bool,
                      pieces: seq<seq<Row>>, after: Engine, out: seq<seq<Row>>)
    requires Fitted(shard, e) && HasRows(batch, first)
    requires Incoming(shard, batch, incoming, first) == Ok(pieces)
    requires BatchForwarded(shard, e, batch, pieces, first, |batch|) == (after, out)
    ensures forall k | 0 <= k < |out| :: out[k] != []
    ensures Stepped(shard, e, batch, incoming, first)
         == (after, Ok(if shard.isLast then Logits(LastRows(out)) else Hidden(Glue(out))))
  {
    IncomingWidths(shard, batch, incoming, first);
    NobodyIsEmpty(pieces, out, batch, first);
  }

  /** The i-th row is sampled with the i-th member's parameters. */
  function SampledBatch(m: Model, rows: seq<Row>, batch: seq<Request>, draws: seq<Draw>): (tokens: seq<Token>)
    requires |rows| == |batch| == |draws|
    ensures |tokens| == |batch|
  {
    seq(|batch|, k requires 0 <= k < |batch| => Sampled(m, rows[k], batch[k].sampling, draws[k]))
  }

  // ---------------------------------------------------------------- members do not disturb one another

  /** A place for everybody in the batch without evicting anyone. */
  ghost predicate HasRoom(shard: Shard, e: Engine, ids: set<Id>) {
    |e.slots.Keys + ids| <= shard.capacity
  }

  /** Who loses a slot while the first `count` members are forwarded, whether or not it is made anew later. */
  ghost function Lost(shard: Shard, e: Engine, batch: seq<Request>, pieces: seq<seq<Row>>, first: bool, count: nat)
      : set<Id>
    requires Fitted(shard, e) && count <= |batch| == |pieces|
  {
    if count == 0 then {}
    else
      var before := BatchForwarded(shard, e, batch, pieces, first, count - 1).0;
      var after := BatchForwarded(shard, e, batch, pieces, first, count).0;
      Lost(shard, e, batch, pieces, first, count - 1) + (before.slots.Keys - after.slots.Keys)
  }

  lemma NobodyForwarded(shard: Shard, e: Engine, batch: seq<Request>, pieces: seq<seq<Row>>, first: bool)
    requires Fitted(shard, e) && |pieces| == |batch|
    ensures BatchForwarded(shard, e, batch, pieces, first, 0) == (e, [])
    ensures Lost(shard, e, batch, pieces, first, 0) == {}
  {
  }

  /** Whoever had a slot before and has none afterwards has lost it. */
  lemma {:induction false} TheGoneAreLost(shard: Shard, e: Engine, batch: seq<Request>, pieces: seq<seq<Row>>,
                                          first: bool, count: nat)
    requires Fitted(shard, e) && count <= |batch| == |pieces|
    ensures e.slots.Keys - BatchForwarded(shard, e, batch, pieces, first, count).0.slots.Keys
         <= Lost(shard, e, batch, pieces, first, count)
  {
    if count > 0 {
      TheGoneAreLost(shard, e, batch, pieces, first, count - 1);
      hide BatchForwarded, Forwarded;
    }
  }

  /** What a request's own slot alone says about the next step. */
  function OwnCaches(shard: Shard, e: Engine, id: Id): seq<Cache>
    requires shard.lo <= shard.hi <= |shard.model.layers|
  {
    if id in e.slots then e.slots[id].caches else Fresh(shard.Layers())
  }

  function OwnSeen(e: Engine, id: Id): nat {
    if id in e.slots then e.slots[id].seen else 0
  }

  /** Whoever else loses its slot for it, a request gets what its own slot makes of its own rows. */
  lemma ForwardedAlone(shard: Shard, e: Engine, id: Id, at: seq<nat>, rows: seq<Row>)
    requires Fitted(shard, e)
    ensures var (after, out) := Forwarded(shard, e, id, at, rows);
            var p := RunLayers(shard.Layers(), OwnCaches(shard, e, id), at, rows);
            && id in after.slots && after.slots.Keys <= e.slots.Keys + {id}
            && (forall other | other in after.slots && other != id :: after.slots[other] == e.slots[other])
            && after.slots[id].caches == p.caches && after.slots[id].seen == OwnSeen(e, id) + |at|
            && out == p.rows
    ensures HasRoom(shard, e, {id}) ==> Forwarded(shard, e, id, at, rows).0.slots.Keys == e.slots.Keys + {id}
  {
    hide RunLayers;
    if id !in e.slots {
      assert |e.slots.Keys + {id}| == |e.slots| + 1;
    }
  }

  /** A member got what its own slot makes of its own piece. */
  ghost predicate MemberAlone(shard: Shard, e: Engine, r: Request, piece: seq<Row>, first: bool,
                              after: Engine, rows: seq<Row>)
    requires Fitted(shard, e)
  {
    var p := RunLayers(shard.Layers(), OwnCaches(shard, e, r.id), Where(r, first).0, piece);
    && r.id in after.slots
    && after.slots[r.id].caches == p.caches
    && after.slots[r.id].seen == OwnSeen(e, r.id) + Width(r, first)
    && rows == p.rows
  }

  /** Those of the first members that lost no slot got that. */
  ghost predicate MembersAlone(shard: Shard, e: Engine, batch: seq<Request>, pieces: seq<seq<Row>>, first: bool,
                               after: Engine, out: seq<seq<Row>>, lost: set<Id>)
    requires Fitted(shard, e) && |out| <= |batch| == |pieces|
  {
    forall k {:trigger out[k]} | 0 <= k < |out| && batch[k].id !in lost ::
      MemberAlone(shard, e, batch[k], pieces[k], first, after, out[k])
  }

  /**
   Nobody but these and the lost was touched, only these may have a new slot, and all of these but the
   lost have one.
   */
  ghost predicate OnlyTouched(e: Engine, after: Engine, names: set<Id>, lost: set<Id>) {
    && after.slots.Keys <= e.slots.Keys + names
    && (forall id | id in names && id !in lost :: id in after.slots)
    && (forall id | id in e.slots && id !in names && id !in lost :: id in after.slots && after.slots[id] == e.slots[id])
  }

  lemma LastMemberAlone(shard: Shard, e: Engine, middle: Engine, r: Request, piece: seq<Row>, first: bool)
    requires Fitted(shard, e) && Fitted(shard, middle)
    requires r.id in middle.slots <==> r.id in e.slots
    requires r.id in e.slots ==> middle.slots[r.id] == e.slots[r.id]
    ensures var (after, rows) := Forwarded(shard, middle, r.id, Where(r, first).0, piece);
            MemberAlone(shard, e, r, piece, first, after, rows)
  {
    ForwardedAlone(shard, middle, r.id, Where(r, first).0, piece);
  }

  /** One more forward touches its own request and takes nothing but what is lost. */
  lemma ForwardedTouches(shard: Shard, e: Engine, id: Id, at: seq<nat>, rows: seq<Row>)
    requires Fitted(shard, e)
    ensures var after := Forwarded(shard, e, id, at, rows).0;
            OnlyTouched(e, after, {id}, e.slots.Keys - after.slots.Keys)
  {
    ForwardedAlone(shard, e, id, at, rows);
    hide Forwarded;
  }

  /** The names of the first members, one by one. */
  lemma IdsUpTo(batch: seq<Request>, count: nat)
    requires count < |batch| && DistinctIds(batch)
    ensures Ids(batch[..count + 1]) == Ids(batch[..count]) + {batch[count].id}
    ensures Ids(batch[..count + 1]) <= Ids(batch)
    ensures batch[count].id !in Ids(batch[..count])
    ensures forall k | 0 <= k < count :: batch[k].id in Ids(batch[..count]) && batch[k].id != batch[count].id
  {
    hide DistinctIds;
    assert batch[..count + 1] == batch[..count] + [batch[count]];
    IdsOfSnoc(batch[..count], batch[count]);
    assert batch == batch[..count + 1] + batch[count + 1..];
    IdsOfConcat(batch[..count + 1], batch[count + 1..]);
    DistinctApart(batch[..count + 1], batch[count + 1..]);
    DistinctApart(batch[..count], [batch[count]]);
    forall k | 0 <= k < count ensures batch[k].id in Ids(batch[..count]) {
      assert batch[k] in batch[..count];
    }
    assert batch[count] in [batch[count]];
  }

  lemma MemberStaysAlone(shard: Shard, e: Engine, r: Request, piece: seq<Row>, first: bool,
                         middle: Engine, after: Engine, rows: seq<Row>)
    requires Fitted(shard, e) && MemberAlone(shard, e, r, piece, first, middle, rows)
    requires r.id in after.slots && after.slots[r.id] == middle.slots[r.id]
    ensures MemberAlone(shard, e, r, piece, first, after, rows)
  {
  }

  /** Forwarding one more member leaves the earlier ones as they were, but for those that lose their slot for it. */
  lemma OneMoreMember(shard: Shard, e: Engine, batch: seq<Request>, pieces: seq<seq<Row>>, first: bool,
                      middle: Engine, out: seq<seq<Row>>, after: Engine, rows: seq<Row>, lost: set<Id>, more: set<Id>)
    requires Fitted(shard, e) && |out| < |batch| == |pieces|
    requires MembersAlone(shard, e, batch, pieces, first, middle, out, lost)
    requires batch[|out|].id !in lost ==> MemberAlone(shard, e, batch[|out|], pieces[|out|], first, after, rows)
    requires forall k | 0 <= k < |out| :: batch[k].id != batch[|out|].id
    requires OnlyTouched(middle, after, {batch[|out|].id}, more)
    ensures MembersAlone(shard, e, batch, pieces, first, after, out + [rows], lost + more)
  {
    var all := out + [rows];
    hide MemberAlone;
    forall k {:trigger all[k]} | 0 <= k < |all| && batch[k].id !in lost + more
      ensures MemberAlone(shard, e, batch[k], pieces[k], first, after, all[k])
    {
      if k < |out| {
        assert all[k] == out[k];
        assert batch[k].id in middle.slots by { MemberHasSlot(shard, e, batch[k], pieces[k], first, middle, out[k]); }
        MemberStaysAlone(shard, e, batch[k], pieces[k], first, middle, after, out[k]);
      }
    }
  }

  lemma MemberHasSlot(shard: Shard, e: Engine, r: Request, piece: seq<Row>, first: bool, after: Engine, rows: seq<Row>)
    requires Fitted(shard, e) && MemberAlone(shard, e, r, piece, first, after, rows)
    ensures r.id in after.slots
  {
  }

  lemma TouchedAlso(e: Engine, middle: Engine, after: Engine, names: set<Id>, id: Id, lost: set<Id>, more: set<Id>)
    requires OnlyTouched(e, middle, names, lost) && OnlyTouched(middle, after, {id}, more)
    ensures OnlyTouched(e, after, names + {id}, lost + more)
  {
  }

  lemma BatchForwardedStep(shard: Shard, e: Engine, batch: seq<Request>, pieces: seq<seq<Row>>, first: bool, last: nat,
                           middle: Engine, out: seq<seq<Row>>, after: Engine, rows: seq<Row>)
    requires Fitted(shard, e) && last < |batch| == |pieces|
    requires BatchForwarded(shard, e, batch, pieces, first, last) == (middle, out)
    requires Forwarded(shard, middle, batch[last].id, Where(batch[last], first).0, pieces[last]) == (after, rows)
    ensures BatchForwarded(shard, e, batch, pieces, first, last + 1) == (after, out + [rows])
    ensures Lost(shard, e, batch, pieces, first, last + 1)
         == Lost(shard, e, batch, pieces, first, last) + (middle.slots.Keys - after.slots.Keys)
  {
    hide Forwarded;
  }

  lemma BatchGoesOn(shard: Shard, e: Engine, batch: seq<Request>, pieces: seq<seq<Row>>, first: bool, last: nat,
                    middle: Engine, out: seq<seq<Row>>, after: Engine, rows: seq<Row>)
    requires Fitted(shard, e) && last < |batch| == |pieces|
    requires (middle, out) == BatchForwarded(shard, e, batch, pieces, first, last)
    requires (after, rows) == Forwarded(shard, middle, batch[last].id, Where(batch[last], first).0, pieces[last])
    ensures (after, out + [rows]) == BatchForwarded(shard, e, batch, pieces, first, last + 1)
  {
    BatchForwardedStep(shard, e, batch, pieces, first, last, middle, out, after, rows);
  }

  lemma {:induction false} PrefixStaysApart(shard: Shard, e: Engine, batch: seq<Request>,
                                            pieces: seq<seq<Row>>, first: bool, count: nat)
    requires Fitted(shard, e) && count <= |batch| == |pieces| && DistinctIds(batch)
    ensures var (after, out) := BatchForwarded(shard, e, batch, pieces, first, count);
            var lost := Lost(shard, e, batch, pieces, first, count);
            && MembersAlone(shard, e, batch, pieces, first, after, out, lost)
            && OnlyTouched(e, after, Ids(batch[..count]), lost)
  {
    if count > 0 {
      var last := count - 1;
      var r := batch[last];
      IdsUpTo(batch, last);
      PrefixStaysApart(shard, e, batch, pieces, first, last);
      hide DistinctIds, Ids, BatchForwarded, Forwarded, Lost, MemberAlone, MembersAlone;
      var (middle, out) := BatchForwarded(shard, e, batch, pieces, first, last);
      var lost := Lost(shard, e, batch, pieces, first, last);
      var (after, rows) := Forwarded(shard, middle, r.id, Where(r, first).0, pieces[last]);
      BatchForwardedStep(shard, e, batch, pieces, first, last, middle, out, after, rows);
      if r.id !in lost { SparedAlone(shard, e, middle, r, pieces[last], first, Ids(batch[..last]), lost); }
      ForwardedTouches(shard, middle, r.id, Where(r, first).0, pieces[last]);
      hide OnlyTouched;
      var more := middle.slots.Keys - after.slots.Keys;
      OneMoreMember(shard, e, batch, pieces, first, middle, out, after, rows, lost, more);
      TouchedAlso(e, middle, after, Ids(batch[..last]), r.id, lost, more);
    }
  }

  /** Whoever has not been forwarded yet and lost no slot is forwarded as if it were alone. */
  lemma SparedAlone(shard: Shard, e: Engine, middle: Engine, r: Request, piece: seq<Row>, first: bool, names: set<Id>,
                    lost: set<Id>)
    requires Fitted(shard, e) && Fitted(shard, middle) && OnlyTouched(e, middle, names, lost)
    requires r.id !in names && r.id !in lost
    ensures var (after, rows) := Forwarded(shard, middle, r.id, Where(r, first).0, piece);
            MemberAlone(shard, e, r, piece, first, after, rows)
  {
    hide Forwarded, MemberAlone;
    LastMemberAlone(shard, e, middle, r, piece, first);
  }

  /**
   Batching is a mere loop: every member that loses no slot gets the rows and caches it would get if it
   were alone on the stage, and nobody outside the batch is touched but by losing its slot.
   */
  lemma MembersStayApart(shard: Shard, e: Engine, batch: seq<Request>, pieces: seq<seq<Row>>, first: bool)
    requires Fitted(shard, e) && |pieces| == |batch| && DistinctIds(batch)
    ensures var (after, out) := BatchForwarded(shard, e, batch, pieces, first, |batch|);
            var lost := Lost(shard, e, batch, pieces, first, |batch|);
            && MembersAlone(shard, e, batch, pieces, first, after, out, lost)
            && OnlyTouched(e, after, Ids(batch), lost)
  {
    PrefixStaysApart(shard, e, batch, pieces, first, |batch|);
    assert batch[..|batch|] == batch;
  }

  // ---------------------------------------------------------------- with room nobody loses a slot

  lemma RoomForOneMore(shard: Shard, e: Engine, middle: Engine, batch: seq<Request>, last: nat)
    requires last < |batch| && DistinctIds(batch)
    requires HasRoom(shard, e, Ids(batch)) && middle.slots.Keys <= e.slots.Keys + Ids(batch[..last])
    ensures HasRoom(shard, middle, {batch[last].id})
  {
    IdsUpTo(batch, last);
    SubsetIsSmaller(middle.slots.Keys + {batch[last].id}, e.slots.Keys + Ids(batch));
  }

  lemma {:induction false} RoomLosesNobody(shard: Shard, e: Engine, batch: seq<Request>, pieces: seq<seq<Row>>,
                                           first: bool, count: nat)
    requires Fitted(shard, e) && count <= |batch| == |pieces| && DistinctIds(batch)
    requires HasRoom(shard, e, Ids(batch))
    ensures Lost(shard, e, batch, pieces, first, count) == {}
  {
    if count > 0 {
      hide Forwarded, BatchForwarded, Lost, HasRoom, MembersAlone;
      var last := count - 1;
      var r := batch[last];
      RoomLosesNobody(shard, e, batch, pieces, first, last);
      PrefixStaysApart(shard, e, batch, pieces, first, last);
      hide DistinctIds, Ids;
      var (middle, out) := BatchForwarded(shard, e, batch, pieces, first, last);
      RoomForOneMore(shard, e, middle, batch, last);
      var (after, rows) := Forwarded(shard, middle, r.id, Where(r, first).0, pieces[last]);
      ForwardedAlone(shard, middle, r.id, Where(r, first).0, pieces[last]);
      BatchForwardedStep(shard, e, batch, pieces, first, last, middle, out, after, rows);
    } else {
      assert Lost(shard, e, batch, pieces, first, 0) == {};
    }
  }

  /** With nobody lost, the slots afterwards are those before and one for everybody in the batch. */
  lemma NobodyLost(e: Engine, after: Engine, names: set<Id>)
    requires OnlyTouched(e, after, names, {})
    ensures after.slots.Keys == e.slots.Keys + names
  {
  }
}
