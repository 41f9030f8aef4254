/** A stage behind the head: it computes what it is sent and passes it on, choosing nothing itself. */
module StageClass {
  import opened Wrappers
  import opened Transformer
  import opened Sequences
  import opened BatchWire
  import opened Engines
  import opened ExecutorClass
  import opened Pipeline

  class Stage {
    const engine: ShardExecutor
    const stageIndex: nat
    var sent: seq<Result<Activations, Answer>>

    constructor (engine: ShardExecutor, stageIndex: nat)
      requires engine.Valid() && !engine.shard.isFirst
      ensures Valid() && sent == [] && this.engine == engine && this.stageIndex == stageIndex
    {
      this.engine, this.stageIndex, this.sent := engine, stageIndex, [];
    }

    ghost predicate Valid()
      reads this, engine
    {
      engine.Valid() && !engine.shard.isFirst
    }

    /** The stage of the pipeline this object is. */
    ghost predicate Serves(c: Config)
      reads this
    {
      c.Valid() && 0 < stageIndex < c.Stages() && engine.shard == c.ShardOf(stageIndex)
    }

    /** Compute on a batch and send on one message: the rows, the tokens, or that something went wrong. */
    method OnActivations(ghost c: Config, m: Activations, draws: seq<Draw>)
      requires Valid() && Serves(c) && m.target == stageIndex && |draws| == |m.members|
      requires Unpacked(m.members).Ok? ==> HasRows(Unpacked(m.members).value, m.first)
      modifies this`sent, engine
      ensures Valid() && Serves(c)
      ensures var (after, outcome) := StageOutcome(c, old(engine.View()), m, draws);
              engine.View() == after && sent == old(sent) + [outcome]
    {
      var outcome := Handle(c, m, draws);
      sent := sent + [outcome];
    }

    method Handle(ghost c: Config, m: Activations, draws: seq<Draw>) returns (outcome: Result<Activations, Answer>)
      requires Valid() && Serves(c) && m.target == stageIndex && |draws| == |m.members|
      requires Unpacked(m.members).Ok? ==> HasRows(Unpacked(m.members).value, m.first)
      modifies engine
      ensures Valid() && Serves(c)
      ensures (engine.View(), outcome) == StageOutcome(c, old(engine.View()), m, draws)
    {
      hide Stepped, HasRows, Fitted;
      ghost var before := engine.View();
      var unpacked := Unpack(m.members);
      if unpacked.Err? { return Err(Trouble(m.batchId)); }
      var batch := unpacked.value;
      ghost var values := Values(batch);
      var checked := CheckTokens(Values(batch), |m.rows|, m.first);
      if checked.Err? {
        MismatchIsTrouble(engine.shard, before, values, m.rows, m.first);
        return Err(Trouble(m.batchId));
      }
      var out := engine.StepBatch(batch, Some(m.rows), m.first);
      if out.Err? { return Err(Trouble(m.batchId)); }
      match out.value
      case Hidden(rows) =>
        outcome := Ok(m.(target := stageIndex + 1, rows := rows));
      case Logits(lastRows) =>
        var tokens := engine.SampleBatch(lastRows, batch, draws);
        outcome := Err(Tokens(m.batchId, tokens.value));
    }

    method OnFree(id: Id)
      requires Valid()
      modifies engine
      ensures Valid() && engine.View() == Freed(old(engine.View()), id) && sent == old(sent)
    {
      engine.Free(id);
    }
  }

  /** A batch that came apart is noticed before anything is computed. */
  lemma MismatchIsTrouble(shard: Shard, e: Engine, batch: seq<Request>, rows: seq<Row>, first: bool)
    requires Fitted(shard, e) && HasRows(batch, first) && !shard.isFirst
    requires CheckTokens(batch, |rows|, first).Err?
    ensures Stepped(shard, e, batch, Some(rows), first).0 == e && Stepped(shard, e, batch, Some(rows), first).1.Err?
  {
  }
}
