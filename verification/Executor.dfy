/** The executor of one stage: a slot per request, and a loop that runs a batch one sequence at a time. */
module ExecutorClass {
  import opened Wrappers
  import opened Transformer
  import opened Sequences
  import opened BatchWire
  import opened Engines

  class ShardExecutor {
    const shard: Shard
    var slots: map<Id, Slot>
    var clock: nat
    ghost var births: map<nat, Id>  // whose slot was made at which moment

    constructor (shard: Shard)
      requires shard.Valid()
      ensures Valid() && this.shard == shard && View() == Engine(map[], 0)
    {
      this.shard := shard;
      slots, clock, births := map[], 0, map[];
    }

    function View(): Engine
      reads this
    {
      Engine(slots, clock)
    }

    ghost predicate Valid()
      reads this
    {
      && Fitted(shard, View())
      && (forall id | id in slots :: slots[id].created in births && births[slots[id].created] == id)
      && (forall t | t in births :: t < clock)
    }

    /** The slot of this request; a full stage makes room by dropping its oldest. */
    method State(id: Id) returns (slot: Slot)
      requires Valid()
      modifies this
      ensures Valid() && View() == Touched(shard, old(View()), id)
      ensures id in slots && slot == slots[id]
    {
      if id !in slots {
        if |slots| >= shard.capacity {
          ghost var oldest := Oldest(slots);
          var evicted :| evicted in slots
                         && forall other | other in slots :: slots[evicted].created <= slots[other].created;
          assert evicted == oldest;
          slots := slots - {evicted};
        }
        slots := slots[id := Slot(Fresh(shard.Layers()), 0, clock)];
        births := births[clock := id];
        clock := clock + 1;
      }
      slot := slots[id];
    }

    method Free(id: Id)
      requires Valid()
      modifies this
      ensures Valid() && View() == Freed(old(View()), id)
    {
      slots := slots - {id};
    }

    /** Run this stage's layers over one request's rows. */
    method Forward(id: Id, positions: seq<nat>, rows: seq<Row>) returns (out: seq<Row>)
      requires Valid()
      modifies this
      ensures Valid() && (View(), out) == Forwarded(shard, old(View()), id, positions, rows)
    {
      var slot := State(id);
      var p := RunLayers(shard.Layers(), slot.caches, positions, rows);
      slots := slots[id := Slot(p.caches, slot.seen + |positions|, slot.created)];
      out := p.rows;
    }

    /** The glued rows taken apart at the members' widths. */
    method SliceIncoming(incoming: Option<seq<Row>>, batch: seq<Sequence>, first: bool)
      returns (r: Result<seq<seq<Row>>, StepError>)
      requires !shard.isFirst
      ensures r == Incoming(shard, Values(batch), incoming, first)
    {
      if incoming.None? || incoming.value == [] {
        return Err(NoTensors);
      }
      var flat := incoming.value;
      var checked := CheckTokens(Values(batch), |flat|, first);
      if checked.Err? {
        return Err(Apart(checked.error));
      }
      var widths := Widths(Values(batch), first);
      var pieces: seq<seq<Row>> := [];
      var at := 0;
      assert widths[..|widths|] == widths;
      for k := 0 to |widths|
        invariant at == Total(widths[..k]) <= |flat|
        invariant pieces == Cut(flat, widths)[..k]
      {
        TotalGrows(widths, k);
        pieces := pieces + [flat[at..at + widths[k]]];
        at := at + widths[k];
      }
      assert pieces == Cut(flat, widths);
      r := Ok(pieces);
    }

    /** One step over a batch: cut what came in, run the members one by one, glue what goes out. */
    method StepBatch(batch: seq<Sequence>, incoming: Option<seq<Row>>, first: bool)
      returns (r: Result<Output, StepError>)
      requires Valid() && HasRows(Values(batch), first)
      modifies this
      ensures Valid() && (View(), r) == Stepped(shard, old(View()), Values(batch), incoming, first)
    {
      ghost var before, values := View(), Values(batch);
      hide BatchForwarded, Stepped, LastRows, Glue, HasRows;
      var pieces := Embedded(shard.model, Values(batch), first);
      if !shard.isFirst {
        var sliced := SliceIncoming(incoming, batch, first);
        if sliced.Err? {
          SteppedRefuses(shard, before, values, incoming, first);
          return Err(sliced.error);
        }
        pieces := sliced.value;
      }
      assert Incoming(shard, values, incoming, first) == Ok(pieces);
      var out := RunMembers(batch, pieces, first);
      SteppedPieces(shard, before, values, incoming, first, pieces, View(), out);
      if shard.isLast {
        r := Ok(Logits(LastRows(out)));
      } else {
        r := Ok(Hidden(Glue(out)));
      }
    }

    /** The members' rows through this stage's layers, one member after another. */
    method RunMembers(batch: seq<Sequence>, pieces: seq<seq<Row>>, first: bool) returns (out: seq<seq<Row>>)
      requires Valid() && |pieces| == |batch|
      modifies this
      ensures Valid() && (View(), out) == BatchForwarded(shard, old(View()), Values(batch), pieces, first, |batch|)
    {
      ghost var before, values := View(), Values(batch);
      NobodyForwarded(shard, before, values, pieces, first);
      assert Fitted(shard, before);
      hide BatchForwarded, Forwarded, Lost, Where, Fitted, Valid, Values;
      out := [];
      for k := 0 to |batch|
        invariant Valid() && Values(batch) == values
        invariant (View(), out) == BatchForwarded(shard, before, values, pieces, first, k)
      {
        ghost var middle := View();
        var (positions, _) := Where(batch[k].Value(), first);
        var rows := Forward(batch[k].requestId, positions, pieces[k]);
        BatchGoesOn(shard, before, values, pieces, first, k, middle, out, View(), rows);
        out := out + [rows];
      }
    }

    /** One token per member, in batch order. */
    method SampleBatch(rows: seq<Row>, batch: seq<Sequence>, draws: seq<Draw>) returns (r: Result<seq<Token>, Mismatch>)
      requires |draws| == |batch|
      ensures r.Ok? <==> |rows| == |batch|
      ensures r.Ok? ==> r.value == SampledBatch(shard.model, rows, Values(batch), draws)
    {
      if |rows| != |batch| {
        return Err(WrongRows(|rows|, |batch|));
      }
      var tokens: seq<Token> := [];
      for k := 0 to |batch|
        invariant tokens == SampledBatch(shard.model, rows, Values(batch), draws)[..k]
      {
        tokens := tokens + [Sampled(shard.model, rows[k], batch[k].sampling, draws[k])];
      }
      r := Ok(tokens);
    }
  }
}
