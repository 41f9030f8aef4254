/** Who is computed on the next step: the queue as a value, and what choosing from it guarantees. */
module Scheduling {
  import opened Wrappers
  import opened Transformer
  import opened Sequences

  /** `running` is the dictionary of running requests in insertion order. */
  datatype Queue = Queue(waiting: seq<Request>, running: seq<Request>) {
    function Live(): set<Id> {
      Ids(waiting) + Ids(running)
    }
  }

  datatype Limits = Limits(maxSequences: nat, maxBatchTokens: nat)

  datatype Refusal = PromptTooLong | NoPlaces

  datatype Choice = Prefill(batch: seq<Request>) | Decode(batch: seq<Request>) | Nothing

  function Added(q: Queue, limits: Limits, r: Request): Result<Queue, Refusal> {
    if |r.prompt| > limits.maxBatchTokens then Err(PromptTooLong)
    else if |q.waiting| + |q.running| >= limits.maxSequences then Err(NoPlaces)
    else Ok(q.(waiting := q.waiting + [r]))
  }

  function Without(batch: seq<Request>, id: Id): (rest: seq<Request>) {
    if batch == [] then []
    else Without(batch[..|batch| - 1], id) + if batch[|batch| - 1].id == id then [] else [batch[|batch| - 1]]
  }

  function Finished(q: Queue, id: Id): Queue {
    Queue(Without(q.waiting, id), Without(q.running, id))
  }

  function Appended(batch: seq<Request>, id: Id, token: Token): (after: seq<Request>)
    ensures |after| == |batch|
    ensures forall k | 0 <= k < |batch| :: after[k] == if batch[k].id == id then batch[k].With(token) else batch[k]
  {
    seq(|batch|, k requires 0 <= k < |batch| => if batch[k].id == id then batch[k].With(token) else batch[k])
  }

  function Accepted(q: Queue, token: Token, id: Id): Queue {
    q.(running := Appended(q.running, id, token))
  }

  function PromptTokens(batch: seq<Request>): nat {
    if batch == [] then 0 else PromptTokens(batch[..|batch| - 1]) + |batch[|batch| - 1].prompt|
  }

  /** How many waiting prompts one step takes, once `taken` of them with `tokens` tokens are in. */
  function FreshCount(waiting: seq<Request>, taken: nat, tokens: nat, running: nat, limits: Limits): (count: nat)
    requires taken <= |waiting|
    ensures taken <= count <= |waiting|
    decreases |waiting| - taken
  {
    if taken == |waiting| then taken
    else if taken > 0 && tokens + |waiting[taken].prompt| > limits.maxBatchTokens then taken
    else if running + taken >= limits.maxSequences then taken
    else FreshCount(waiting, taken + 1, tokens + |waiting[taken].prompt|, running, limits)
  }

  function Alive(batch: seq<Request>): seq<Request> {
    if batch == [] then []
    else Alive(batch[..|batch| - 1]) + if batch[|batch| - 1].Done() then [] else [batch[|batch| - 1]]
  }

  function Capped(batch: seq<Request>, limit: nat): seq<Request> {
    if |batch| <= limit then batch else batch[..limit]
  }

  function NextBatch(q: Queue, limits: Limits): (Choice, Queue) {
    var count := FreshCount(q.waiting, 0, 0, |q.running|, limits);
    if count > 0 then
      (Prefill(q.waiting[..count]), Queue(q.waiting[count..], q.running + q.waiting[..count]))
    else
      var alive := Alive(q.running);
      (if alive == [] then Nothing else Decode(Capped(alive, limits.maxSequences)), q)
  }

  /** What every operation keeps, as long as request names are not reused. */
  ghost predicate Sound(q: Queue, limits: Limits) {
    && DistinctIds(q.waiting + q.running)
    && |q.waiting| + |q.running| <= limits.maxSequences
    && (forall r | r in q.waiting :: |r.prompt| <= limits.maxBatchTokens)
  }

  // ---------------------------------------------------------------- what choosing guarantees

  /** A prefix of the queue that one step may take: it has a place for each, and the budget for all. */
  predicate Fits(q: Queue, limits: Limits, count: nat) {
    && count <= |q.waiting|
    && |q.running| + count <= limits.maxSequences
    && (count <= 1 || PromptTokens(q.waiting[..count]) <= limits.maxBatchTokens)
  }

  lemma {:induction false} PromptTokensGrow(batch: seq<Request>, j: nat, k: nat)
    requires j <= k <= |batch|
    ensures PromptTokens(batch[..j]) <= PromptTokens(batch[..k])
    decreases k - j
  {
    if j < k {
      assert batch[..k][..k - 1] == batch[..k - 1];
      PromptTokensGrow(batch, j, k - 1);
    }
  }

  lemma {:induction false} FreshCountIsLongest(q: Queue, limits: Limits, taken: nat, longer: nat)
    requires |q.running| <= limits.maxSequences && Fits(q, limits, taken)
    ensures var count := FreshCount(q.waiting, taken, PromptTokens(q.waiting[..taken]), |q.running|, limits);
            Fits(q, limits, count) && (Fits(q, limits, longer) ==> longer <= count)
    decreases |q.waiting| - taken
  {
    if taken < |q.waiting| {
      assert q.waiting[..taken + 1][..taken] == q.waiting[..taken];
      if taken > 0 && PromptTokens(q.waiting[..taken]) + |q.waiting[taken].prompt| > limits.maxBatchTokens {
        if Fits(q, limits, longer) && longer > taken {
          PromptTokensGrow(q.waiting, taken + 1, longer);
        }
      } else if |q.running| + taken < limits.maxSequences {
        FreshCountIsLongest(q, limits, taken + 1, longer);
      }
    }
  }

  /** A prefill batch is exactly the longest first-come prefix that fits. */
  lemma PrefillIsLongestPrefix(q: Queue, limits: Limits, longer: nat)
    requires Sound(q, limits)
    ensures var (choice, after) := NextBatch(q, limits);
            && (choice.Prefill? ==>
                  && Fits(q, limits, |choice.batch|)
                  && choice.batch == q.waiting[..|choice.batch|]
                  && after == Queue(q.waiting[|choice.batch|..], q.running + choice.batch)
                  && (Fits(q, limits, longer) ==> longer <= |choice.batch|))
            && (!choice.Prefill? ==> after == q && (Fits(q, limits, longer) ==> longer == 0))
  {
    FreshCountIsLongest(q, limits, 0, longer);
    assert q.waiting[..0] == [];
  }

  lemma {:induction false} AliveIsSome(batch: seq<Request>)
    ensures forall r | r in Alive(batch) :: r in batch
  {
    if batch != [] { AliveIsSome(batch[..|batch| - 1]); }
  }

  lemma {:induction false} AliveKeepsUnfinished(batch: seq<Request>)
    requires forall r | r in batch :: !r.Done()
    ensures Alive(batch) == batch
  {
    if batch != [] {
      var front := batch[..|batch| - 1];
      forall r | r in front ensures !r.Done() { assert r in batch; }
      AliveKeepsUnfinished(front);
      assert batch[|batch| - 1] in batch;
      assert batch == front + [batch[|batch| - 1]];
    }
  }

  /**
   If nobody running is finished, a decode batch is everybody who runs, nothing is chosen only when
   nobody is left, and new prompts always go first.
   */
  lemma ChoiceLeavesNobodyOut(q: Queue, limits: Limits)
    requires Sound(q, limits) && forall r | r in q.running :: !r.Done()
    ensures var (choice, _) := NextBatch(q, limits);
            && (choice.Decode? ==> q.waiting == [] && choice.batch == q.running)
            && (choice.Nothing? <==> q.waiting == [] && q.running == [])
            && (choice.Prefill? <==> q.waiting != [])
            && (!choice.Nothing? ==> 0 < |choice.batch| <= limits.maxSequences)
  {
    PrefillIsLongestPrefix(q, limits, 1);
    AliveKeepsUnfinished(q.running);
  }

  lemma {:induction false} WithoutMembers(batch: seq<Request>, id: Id)
    ensures forall r :: r in Without(batch, id) <==> r in batch && r.id != id
    ensures Ids(Without(batch, id)) == Ids(batch) - {id}
    ensures |Without(batch, id)| <= |batch|
    ensures id in Ids(batch) ==> |Without(batch, id)| < |batch|
  {
    if batch != [] {
      var front, last := batch[..|batch| - 1], batch[|batch| - 1];
      WithoutMembers(front, id);
      assert batch == front + [last];
      IdsOfConcat(front, [last]);
    }
  }

  lemma {:induction false} WithoutKeepsDistinct(batch: seq<Request>, id: Id)
    requires DistinctIds(batch)
    ensures DistinctIds(Without(batch, id))
  {
    if batch != [] {
      var front, last := batch[..|batch| - 1], batch[|batch| - 1];
      WithoutKeepsDistinct(front, id);
      WithoutMembers(front, id);
      var rest := Without(front, id);
      if last.id != id {
        DistinctSnoc(rest, last);
        assert Without(batch, id) == rest + [last];
      } else {
        assert Without(batch, id) == rest;
      }
    }
  }

  lemma {:induction false} AppendedIds(batch: seq<Request>, id: Id, token: Token)
    ensures Ids(Appended(batch, id, token)) == Ids(batch)
    ensures DistinctIds(Appended(batch, id, token)) == DistinctIds(batch)
  {
    if batch != [] {
      var front, last := batch[..|batch| - 1], batch[|batch| - 1];
      var after := Appended(batch, id, token);
      AppendedIds(front, id, token);
      assert after[..|after| - 1] == Appended(front, id, token);
      assert batch == front + [last] && after == Appended(front, id, token) + [after[|after| - 1]];
      IdsOfConcat(front, [last]);
      IdsOfConcat(Appended(front, id, token), [after[|after| - 1]]);
    }
  }

  lemma AddKeepsSound(q: Queue, limits: Limits, r: Request)
    requires Sound(q, limits) && r.id !in q.Live()
    ensures Added(q, limits, r).Ok? ==> Sound(Added(q, limits, r).value, limits)
  {
    DistinctApart(q.waiting, q.running);
    DistinctApart(q.waiting, [r]);
    DistinctApart(q.waiting + [r], q.running);
  }

  lemma FinishKeepsSound(q: Queue, limits: Limits, id: Id)
    requires Sound(q, limits)
    ensures Sound(Finished(q, id), limits)
    ensures Finished(q, id).Live() == q.Live() - {id}
  {
    hide DistinctIds, Ids, Without;
    DistinctApart(q.waiting, q.running);
    WithoutKeepsDistinct(q.waiting, id);
    WithoutKeepsDistinct(q.running, id);
    WithoutMembers(q.waiting, id);
    WithoutMembers(q.running, id);
    DistinctApart(Without(q.waiting, id), Without(q.running, id));
  }

  lemma AcceptKeepsSound(q: Queue, limits: Limits, token: Token, id: Id)
    requires Sound(q, limits)
    ensures Sound(Accepted(q, token, id), limits)
    ensures Ids(Accepted(q, token, id).running) == Ids(q.running)
  {
    DistinctApart(q.waiting, q.running);
    AppendedIds(q.running, id, token);
    DistinctApart(q.waiting, Accepted(q, token, id).running);
  }

  lemma NextBatchKeepsSound(q: Queue, limits: Limits)
    requires Sound(q, limits)
    ensures Sound(NextBatch(q, limits).1, limits)
    ensures NextBatch(q, limits).1.Live() == q.Live()
  {
    hide DistinctIds, Ids;
    var (choice, after) := NextBatch(q, limits);
    if choice.Prefill? {
      var count := |choice.batch|;
      var taken, rest := q.waiting[..count], q.waiting[count..];
      assert q.waiting == taken + rest;
      DistinctApart(q.waiting, q.running);
      DistinctApart(taken, rest);
      IdsOfConcat(taken, rest);
      DistinctApart(q.running, taken);
      IdsOfConcat(q.running, taken);
      DistinctApart(rest, q.running + taken);
    }
  }

  lemma PrefillAdds(q: Queue, limits: Limits)
    requires Sound(q, limits) && NextBatch(q, limits).0.Prefill?
    ensures |q.running| < |NextBatch(q, limits).1.running| <= limits.maxSequences
  {
    PrefillIsLongestPrefix(q, limits, 0);
    NextBatchKeepsSound(q, limits);
  }

  /** Consecutive choices with nobody leaving in between: new requests may still arrive. */
  ghost predicate PrefillStreak(before: seq<Queue>, limits: Limits) {
    && (forall k | 0 <= k < |before| :: Sound(before[k], limits) && NextBatch(before[k], limits).0.Prefill?)
    && (forall k | 0 < k < |before| :: |before[k].running| >= |NextBatch(before[k - 1], limits).1.running|)
  }

  /** However many requests arrive, a decode step is at most as many prefill steps away as there are free places. */
  lemma {:induction false} DecodeIsNotStarved(before: seq<Queue>, limits: Limits)
    requires before != [] && PrefillStreak(before, limits)
    ensures |before[0].running| + |before| <= |NextBatch(before[|before| - 1], limits).1.running| <= limits.maxSequences
  {
    hide Sound, NextBatch;
    var last := |before| - 1;
    PrefillAdds(before[last], limits);
    if last > 0 {
      DecodeIsNotStarved(before[..last], limits);
    }
  }
}
