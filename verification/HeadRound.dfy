/** One round of the head as a value: what is released, chosen, computed, answered and told. */
module HeadRound {
  import opened Wrappers
  import opened Transformer
  import opened Sequences
  import opened BatchWire
  import opened Scheduling
  import opened Engines
  import opened Heads
  import opened Pipeline

  /** What the head hands to the network; a `free` goes to every other stage. */
  datatype Sent = SentBatch(activations: Activations) | SentFree(id: Id)

  function Frees(ids: seq<Id>): seq<Sent> {
    seq(|ids|, k requires 0 <= k < |ids| => SentFree(ids[k]))
  }

  /** An engine with all these requests forgotten, one after another. */
  function FreedAll(e: Engine, ids: seq<Id>): Engine
    decreases |ids|
  {
    if ids == [] then e else FreedAll(Freed(e, ids[0]), ids[1..])
  }

  /** The first answer under the batch's own name decides; `None` is an error, a wrong count or no answer in time. */
  function Decided(arriving: seq<Answer>, batchId: BatchId, members: nat): (answer: Option<seq<Token>>)
    ensures answer.Some? ==> |answer.value| == members && Tokens(batchId, answer.value) in arriving
  {
    if arriving == [] then None
    else if arriving[0].batchId != batchId then Decided(arriving[1..], batchId, members)
    else if arriving[0].Tokens? && |arriving[0].tokens| == members then Some(arriving[0].tokens)
    else None
  }

  function DeliveredAll(h: HeadState, eos: set<Token>, batch: seq<Request>, tokens: seq<Token>, count: nat): HeadState
    requires count <= |batch| == |tokens|
  {
    if count == 0 then h
    else Delivered(DeliveredAll(h, eos, batch, tokens, count - 1), eos, batch[count - 1], tokens[count - 1])
  }

  function FailedAll(h: HeadState, batch: seq<Request>, count: nat): HeadState
    requires count <= |batch|
  {
    if count == 0 then h else Failed(FailedAll(h, batch, count - 1), batch[count - 1].id)
  }

  /** How a round ends for everybody in it. */
  function Settled(h: HeadState, eos: set<Token>, batch: seq<Request>, answer: Option<seq<Token>>): HeadState
    requires answer.Some? ==> |answer.value| == |batch|
  {
    if answer.Some? then DeliveredAll(h, eos, batch, answer.value, |batch|) else FailedAll(h, batch, |batch|)
  }

  /** What a round gets from outside: the name of its batch, the answers in order of arrival, the draws. */
  datatype Outside = Outside(batchId: BatchId, arriving: seq<Answer>, draw: nat -> Draw) {
    function Draws(count: nat): (draws: seq<Draw>)
      ensures |draws| == count
    {
      seq<nat>(count, k requires 0 <= k < count => draw(k))
    }
  }

  /** The tokens of a step: sampled at the head if it is the last stage, else those that came back. */
  function AnswerOf(shard: Shard, out: Output, batch: seq<Request>, outside: Outside): (answer: Option<seq<Token>>)
    ensures answer.Some? ==> |answer.value| == |batch|
  {
    match out
    case Logits(rows) =>
      if |rows| == |batch| then Some(SampledBatch(shard.model, rows, batch, outside.Draws(|batch|))) else None
    case Hidden(_) => Decided(outside.arriving, outside.batchId, |batch|)
  }

  /** What a step sends on. */
  function MailOf(out: Output, batch: seq<Request>, first: bool, outside: Outside): seq<Sent> {
    match out
    case Logits(_) => []
    case Hidden(rows) => [SentBatch(Activations(outside.batchId, 1, first, Packed(batch, first), rows))]
  }

  /** A round is taken: the head's layers compute the batch, and its members are settled in batch order. */
  ghost predicate RoundTaken(shard: Shard, eos: set<Token>, h: HeadState, e: Engine, batch: seq<Request>, first: bool,
                             outside: Outside, h': HeadState, e': Engine, mail: seq<Sent>)
    requires Fitted(shard, e) && HasRows(batch, first)
  {
    var (after, out) := Stepped(shard, e, batch, None, first);
    && out.Ok? && e' == after
    && mail == MailOf(out.value, batch, first, outside)
    && h' == Settled(h, eos, batch, AnswerOf(shard, out.value, batch, outside))
  }

  lemma HeadAlwaysSteps(shard: Shard, e: Engine, batch: seq<Request>, first: bool)
    requires Fitted(shard, e) && HasRows(batch, first) && shard.isFirst
    ensures Stepped(shard, e, batch, None, first).1.Ok?
  {
  }

  lemma FreedAllNext(e: Engine, ids: seq<Id>)
    requires ids != []
    ensures FreedAll(e, ids) == FreedAll(Freed(e, ids[0]), ids[1..])
  {
  }

  lemma FreesSnoc(ids: seq<Id>, id: Id)
    ensures Frees(ids + [id]) == Frees(ids) + [SentFree(id)]
  {
  }

  lemma FreedNone(e: Engine)
    ensures FreedAll(e, []) == e && Frees([]) == []
  {
  }

  // ---------------------------------------------------------------- everybody queued has a prompt

  ghost predicate Prompted(q: Queue) {
    forall r {:trigger IsLive(q, r)} | IsLive(q, r) :: r.prompt != []
  }

  lemma ChosenArePrompted(q: Queue, limits: Limits)
    requires Sound(q, limits) && Prompted(q)
    ensures var (choice, after) := NextBatch(q, limits);
            && Prompted(after) && (!choice.Nothing? ==> HasRows(choice.batch, choice.Prefill?))
            && (choice.Nothing? ==> after == q)
  {
    ChosenLive(q, limits);
    var (choice, after) := NextBatch(q, limits);
    forall r {:trigger IsLive(after, r)} | IsLive(after, r) ensures r.prompt != [] { assert IsLive(q, r); }
    if choice.Prefill? {
      forall r | r in choice.batch ensures r.prompt != [] { assert IsLive(q, r); }
    }
  }

  lemma AddedArePrompted(q: Queue, limits: Limits, r: Request)
    requires Prompted(q) && r.prompt != [] && Added(q, limits, r).Ok?
    ensures Prompted(Added(q, limits, r).value)
  {
    AddedLive(q, limits, r);
    var after := Added(q, limits, r).value;
    forall x {:trigger IsLive(after, x)} | IsLive(after, x) ensures x.prompt != [] { assert IsLive(q, x) || x == r; }
  }

  lemma FinishedArePrompted(q: Queue, id: Id)
    requires Prompted(q)
    ensures Prompted(Finished(q, id))
  {
    FinishedLive(q, id);
    forall r {:trigger IsLive(Finished(q, id), r)} | IsLive(Finished(q, id), r) ensures r.prompt != [] {
      assert IsLive(q, r);
    }
  }

  lemma AcceptedArePrompted(q: Queue, token: Token, id: Id)
    requires Prompted(q)
    ensures Prompted(Accepted(q, token, id))
  {
    var after := Accepted(q, token, id);
    forall r {:trigger IsLive(after, r)} | IsLive(after, r) ensures r.prompt != [] {
      if r in q.waiting {
        assert IsLive(q, r);
      } else {
        var k :| 0 <= k < |after.running| && after.running[k] == r;
        assert q.running[k] in q.running && IsLive(q, q.running[k]);
      }
    }
  }

  // ---------------------------------------------------------------- the batch is distinct

  lemma {:induction false} AliveDistinct(batch: seq<Request>)
    requires DistinctIds(batch)
    ensures DistinctIds(Alive(batch)) && Ids(Alive(batch)) <= Ids(batch)
  {
    if batch != [] {
      var front, last := batch[..|batch| - 1], batch[|batch| - 1];
      AliveDistinct(front);
      IdsOfSnoc(front, last);
      var alive := Alive(front);
      IdsOfSnoc(alive, last);
      assert last.id !in Ids(front) && batch == front + [last];
      assert Alive(batch) == if last.Done() then alive else alive + [last];
      hide DistinctIds, Ids, Alive;
      DistinctSnoc(alive, last);
    }
  }

  lemma ChosenDistinct(q: Queue, limits: Limits)
    requires Sound(q, limits)
    ensures var (choice, _) := NextBatch(q, limits); !choice.Nothing? ==> DistinctIds(choice.batch)
  {
    hide DistinctIds, Ids, Alive, FreshCount;
    var (choice, after) := NextBatch(q, limits);
    DistinctApart(q.waiting, q.running);
    if choice.Prefill? {
      assert q.waiting == choice.batch + after.waiting;
      DistinctApart(choice.batch, after.waiting);
    } else if choice.Decode? {
      var alive := Alive(q.running);
      AliveDistinct(q.running);
      assert alive == choice.batch + alive[|choice.batch|..];
      DistinctApart(choice.batch, alive[|choice.batch|..]);
    }
  }
}
