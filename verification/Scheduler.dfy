/** The scheduler itself: a deque, an insertion-ordered dictionary, and sequences that grow in place. */
module SchedulerClass {
  import opened Wrappers
  import opened Transformer
  import opened Sequences
  import opened Scheduling

  function Max(a: int, b: int): int {
    if a < b then b else a
  }

  class Scheduler {
    const limits: Limits
    var waiting: seq<Sequence>
    var running: seq<Sequence>

    constructor (maxSequences: int, maxBatchTokens: int)
      ensures Valid() && View() == Queue([], [])
      ensures limits == Limits(Max(1, maxSequences), Max(1, maxBatchTokens))
    {
      limits := Limits(Max(1, maxSequences), Max(1, maxBatchTokens));
      waiting, running := [], [];
    }

    function View(): Queue
      reads this, waiting, running
    {
      Queue(Values(waiting), Values(running))
    }

    /** The objects that may grow: a step's members, and whoever may become one. */
    function Members(): set<Sequence>
      reads this
    {
      set s | s in running
    }

    function Everyone(): set<Sequence>
      reads this
    {
      Members() + set s | s in waiting
    }

    ghost predicate Valid()
      reads this, waiting, running
    {
      Sound(View(), limits)
    }

    /** Take a request on, or refuse it. The queue stays sound as long as nobody in it has the same name. */
    method Add(request: Sequence) returns (r: Result<(), Refusal>)
      requires Valid()
      modifies this
      ensures request.requestId !in old(View().Live()) || r.Err? ==> Valid()
      ensures r.Err? ==> View() == old(View()) && Added(old(View()), limits, request.Value()) == Err(r.error)
      ensures r.Ok? ==> Added(old(View()), limits, request.Value()) == Ok(View())
    {
      if request.requestId !in View().Live() { AddKeepsSound(View(), limits, request.Value()); }
      if |request.promptIds| > limits.maxBatchTokens {
        return Err(PromptTooLong);
      }
      if |waiting| + |running| >= limits.maxSequences {
        return Err(NoPlaces);
      }
      waiting := waiting + [request];
      assert Values(waiting) == old(Values(waiting)) + [request.Value()];
      r := Ok(());
    }

    /** Drop a request that ended or was abandoned. */
    method Finish(id: Id)
      requires Valid()
      modifies this
      ensures Valid() && View() == Finished(old(View()), id)
      ensures waiting == Dropped(old(waiting), id) && running == Dropped(old(running), id)
    {
      hide Sound, Without, Dropped, DistinctIds;
      ghost var before := View();
      FinishKeepsSound(before, limits, id);
      var kept, going := Dropped(waiting, id), Dropped(running, id);
      DroppedValues(waiting, id);
      DroppedValues(running, id);
      waiting, running := kept, going;
      assert View() == Finished(before, id);
    }

    /** Record a produced token on a request that is still running. */
    method Accept(token: Token, id: Id)
      requires Valid()
      modifies Members()
      ensures Valid() && View() == Accepted(old(View()), token, id)
      ensures forall s | s in running ::
                s.Value() == if s.requestId == id then old(s.Value()).With(token) else old(s.Value())
    {
      ghost var before := View();
      var k := Position(running, id);
      if k < |running| {
        var request := running[k];
        SequencesApart(k);
        request.outputIds := request.outputIds + [token];
        assert forall i | 0 <= i < |waiting| :: waiting[i].Value() == before.waiting[i];
        assert forall i | 0 <= i < |running| && i != k :: running[i].Value() == before.running[i];
      } else {
        assert forall i | 0 <= i < |running| :: before.running[i].id != id;
      }
      assert View().waiting == before.waiting;
      assert View().running == Accepted(before, token, id).running;
      AcceptKeepsSound(before, limits, token, id);
    }

    /** One object per name. */
    lemma SequencesApart(k: nat)
      requires Valid() && k < |running|
      ensures forall i | 0 <= i < |running| && i != k :: running[i].requestId != running[k].requestId
      ensures forall i | 0 <= i < |waiting| :: waiting[i].requestId != running[k].requestId
    {
      var q := View();
      DistinctApart(q.waiting, q.running);
      forall i | 0 <= i < |running| && i != k ensures running[i].requestId != running[k].requestId {
        DistinctPair(q.running, i, k);
      }
      forall i | 0 <= i < |waiting| ensures waiting[i].requestId != running[k].requestId {
        assert q.waiting[i] in q.waiting && q.running[k] in q.running;
        assert q.waiting[i].id in Ids(q.waiting) && q.running[k].id in Ids(q.running);
      }
    }

    /** The next step's batch: new prompts first, else one token for everybody unfinished. */
    method Next() returns (first: bool, batch: seq<Sequence>)
      requires Valid()
      modifies this
      ensures Valid()
      ensures forall s | s in batch :: s in running
      ensures forall s | s in running :: s in old(waiting) || s in old(running)
      ensures var (choice, after) := NextBatch(old(View()), limits);
              && View() == after
              && (choice.Nothing? <==> batch == [])
              && (batch != [] ==> choice == if first then Prefill(Values(batch)) else Decode(Values(batch)))
    {
      ghost var before := View();
      first := true;
      batch := TakeFresh();
      if batch == [] {
        assert before.waiting[0..] == before.waiting && View() == before;
        first := false;
        batch := Unfinished(running);
        if |batch| > limits.maxSequences {
          batch := batch[..limits.maxSequences];
        }
        assert Values(batch) == Capped(Alive(before.running), limits.maxSequences);
      }
      NextBatchKeepsSound(before, limits);
    }

    /** Move as many new prompts into the running set as one step takes by tokens and by places. */
    method TakeFresh() returns (taken: seq<Sequence>)
      requires Valid()
      modifies this
      ensures var before := old(View());
              var count := FreshCount(before.waiting, 0, 0, |before.running|, limits);
              && View() == Queue(before.waiting[count..], before.running + before.waiting[..count])
              && Values(taken) == before.waiting[..count]
      ensures forall s | s in taken :: s in running
      ensures forall s | s in running :: s in old(waiting) || s in old(running)
    {
      hide Sound;
      ghost var before := View();
      taken := [];
      var tokens: nat := 0;
      while waiting != []
        invariant |taken| <= |old(waiting)| == |before.waiting|
        invariant taken == old(waiting)[..|taken|] && waiting == old(waiting)[|taken|..]
        invariant running == old(running) + taken
        invariant FreshCount(before.waiting, 0, 0, |before.running|, limits)
               == FreshCount(before.waiting, |taken|, tokens, |before.running|, limits)
        decreases |waiting|
      {
        var candidate := waiting[0];
        assert candidate.Value() == before.waiting[|taken|];
        var length := |candidate.promptIds|;
        if taken != [] && tokens + length > limits.maxBatchTokens {
          break;
        }
        if |running| >= limits.maxSequences {
          break;
        }
        waiting := waiting[1..];
        running := running + [candidate];
        taken := taken + [candidate];
        tokens := tokens + length;
      }
      ValuesConcat(old(running), taken);
      ValuesSlices(old(waiting), |taken|);
    }
  }

  /** Those that may still produce a token. */
  method Unfinished(batch: seq<Sequence>) returns (alive: seq<Sequence>)
    ensures Values(alive) == Alive(Values(batch))
    ensures forall s | s in alive :: s in batch
  {
    alive := [];
    for k := 0 to |batch|
      invariant Values(alive) == Alive(Values(batch)[..k])
      invariant forall s | s in alive :: s in batch
    {
      assert Values(batch)[..k + 1][..k] == Values(batch)[..k];
      if |batch[k].outputIds| < batch[k].maxTokens {
        assert Values(alive + [batch[k]]) == Values(alive) + [batch[k].Value()];
        alive := alive + [batch[k]];
      }
    }
    assert Values(batch)[..|batch|] == Values(batch);
  }

  lemma NamedIsQueued(batch: seq<Sequence>, s: Sequence)
    requires s in batch
    ensures s.requestId in Ids(Values(batch))
  {
    var k :| 0 <= k < |batch| && batch[k] == s;
    assert Values(batch)[k] in Values(batch);
  }

  /** Where the dictionary holds this name; its length when it does not. */
  function Position(batch: seq<Sequence>, id: Id): (k: nat)
    ensures k <= |batch|
    ensures k < |batch| ==> batch[k].requestId == id
    ensures k == |batch| ==> forall i | 0 <= i < |batch| :: batch[i].requestId != id
  {
    if batch == [] then 0
    else if batch[0].requestId == id then 0
    else 1 + Position(batch[1..], id)
  }

  /** The sequences that do not bear this name. */
  function Dropped(batch: seq<Sequence>, id: Id): (rest: seq<Sequence>)
    ensures forall s | s in rest :: s in batch
    ensures forall s | s in batch && s.requestId != id :: s in rest
  {
    if batch == [] then []
    else
      Dropped(batch[..|batch| - 1], id)
      + if batch[|batch| - 1].requestId == id then [] else [batch[|batch| - 1]]
  }

  lemma {:induction false} DroppedValues(batch: seq<Sequence>, id: Id)
    ensures Values(Dropped(batch, id)) == Without(Values(batch), id)
  {
    if batch != [] {
      var front, last := batch[..|batch| - 1], batch[|batch| - 1];
      DroppedValues(front, id);
      assert Values(front) == Values(batch)[..|batch| - 1];
      ValuesConcat(Dropped(front, id), if last.requestId == id then [] else [last]);
    }
  }
}
