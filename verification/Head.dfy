/** The head itself: one computing thread that serves every client, round after round. */
module HeadClass {
  import opened Wrappers
  import opened Transformer
  import opened Sequences
  import opened BatchWire
  import opened Scheduling
  import opened Engines
  import opened Heads
  import opened SchedulerClass
  import opened ExecutorClass
  import opened Pipeline
  import opened HeadRound

  class Head {
    const scheduler: Scheduler
    const engine: ShardExecutor
    const eosIds: set<Token>
    var tickets: set<Id>
    var streams: map<Id, seq<Event>>
    var toRelease: seq<Id>
    var sent: seq<Sent>

    constructor (scheduler: Scheduler, engine: ShardExecutor, eosIds: set<Token>)
      requires scheduler.Valid() && scheduler.View() == Queue([], [])
      requires engine.Valid() && engine.shard.isFirst
      ensures Valid() && View() == NEW_HEAD && sent == []
      ensures this.scheduler == scheduler && this.engine == engine
    {
      this.scheduler, this.engine, this.eosIds := scheduler, engine, eosIds;
      tickets, streams, toRelease, sent := {}, map[], [], [];
    }

    function View(): HeadState
      reads this, scheduler, scheduler.waiting, scheduler.running
    {
      HeadState(scheduler.View(), tickets, toRelease, streams)
    }

    /** A front end refuses an empty prompt, so whoever is queued has one. */
    ghost predicate Valid()
      reads this, scheduler, scheduler.waiting, scheduler.running, engine
    {
      scheduler.Valid() && engine.Valid() && engine.shard.isFirst && Prompted(scheduler.View())
    }

    /** A front end gives every request a name of its own and a prompt; then the head stays as it should be. */
    method Submit(sequence: Sequence) returns (r: Result<(), Refusal>)
      requires Valid()
      modifies this, scheduler
      ensures (sequence.requestId !in old(scheduler.View().Live()) && sequence.promptIds != []) || r.Err? ==> Valid()
      ensures engine.View() == old(engine.View()) && sent == old(sent)
      ensures r.Err? ==> View() == old(View())
                         && Submitted(old(View()), scheduler.limits, sequence.Value()) == Err(r.error)
      ensures r.Ok? ==> Submitted(old(View()), scheduler.limits, sequence.Value()) == Ok(View())
    {
      hide Sound, Prompted, DistinctIds, Ids, Fitted;
      if Added(scheduler.View(), scheduler.limits, sequence.Value()).Ok? && sequence.promptIds != [] {
        AddedArePrompted(scheduler.View(), scheduler.limits, sequence.Value());
      }
      r := scheduler.Add(sequence);
      if r.Ok? {
        tickets := tickets + {sequence.requestId};
        streams := streams[sequence.requestId := []];
      }
    }

    /** The client left, or read to the end and cleans up. */
    method Cancel(id: Id)
      requires Valid()
      modifies this, scheduler
      ensures Valid() && engine.View() == old(engine.View()) && sent == old(sent)
      ensures View() == if Known(old(View()), id) then Released(Unqueued(Forgotten(old(View()), id), id), id)
                        else old(View())
    {
      hide Sound, Prompted, Finished, Fitted;
      var known := id in tickets;
      tickets := tickets - {id};
      known := known || id in Ids(scheduler.View().running);
      if known {
        Drop(id);
      }
    }

    /** Take the request off the queue and have its state released. */
    method Drop(id: Id)
      requires Valid()
      modifies this`toRelease, scheduler
      ensures Valid() && View() == Released(Unqueued(old(View()), id), id)
      ensures scheduler.running == Dropped(old(scheduler.running), id)
    {
      hide Sound, Prompted, Finished, Fitted, Dropped;
      FinishedArePrompted(scheduler.View(), id);
      scheduler.Finish(id);
      toRelease := toRelease + [id];
    }

    /** Forget whoever left; only the computing thread does this, between steps. */
    method DrainReleases()
      requires Valid()
      modifies this`toRelease, this`sent, engine
      ensures Valid() && View() == old(View()).(toRelease := [])
      ensures engine.View() == FreedAll(old(engine.View()), old(toRelease))
      ensures sent == old(sent) + if engine.shard.isLast then [] else Frees(old(toRelease))
    {
      hide Sound, Prompted, Fitted, FreedAll, Freed, Frees;
      ghost var before := toRelease;
      ghost var done: seq<Id> := [];
      FreedNone(engine.View());
      while toRelease != []
        invariant engine.Valid() && scheduler.View() == old(scheduler.View()) && done + toRelease == before
        invariant FreedAll(old(engine.View()), before) == FreedAll(engine.View(), toRelease)
        invariant sent == old(sent) + if engine.shard.isLast then [] else Frees(done)
        decreases |toRelease|
      {
        FreedAllNext(engine.View(), toRelease);
        FreesSnoc(done, toRelease[0]);
        var id := toRelease[0];
        toRelease := toRelease[1..];
        done := done + [id];
        engine.Free(id);
        if !engine.shard.isLast {
          sent := sent + [SentFree(id)];
        }
      }
      assert done == before;
      FreedNone(engine.View());
    }

    /** One step for everybody who is due; false when there is nobody. */
    method RunOnce(outside: Outside) returns (more: bool)
      requires Valid()
      modifies this, scheduler, engine, scheduler.Everyone()
      ensures Valid()
      ensures var h, e := old(View()).(toRelease := []), FreedAll(old(engine.View()), old(toRelease));
              var frees := if engine.shard.isLast then [] else Frees(old(toRelease));
              var (choice, queue) := NextBatch(h.queue, scheduler.limits);
              && more == !choice.Nothing?
              && (choice.Nothing? ==> View() == h && engine.View() == e && sent == old(sent) + frees)
              && (!choice.Nothing? ==>
                    && Fitted(engine.shard, e) && HasRows(choice.batch, choice.Prefill?)
                    && old(sent) + frees <= sent
                    && RoundTaken(engine.shard, eosIds, h.(queue := queue), e, choice.batch, choice.Prefill?, outside,
                                  View(), engine.View(), sent[|old(sent) + frees|..]))
    {
      hide Sound, Prompted, Fitted, FreedAll, Stepped, NextBatch, HasRows, DistinctIds, AnswerOf, MailOf, Frees,
           Delivered, Failed, DeliveredAll, FailedAll;
      DrainReleases();
      ghost var q, e, mail := scheduler.View(), engine.View(), sent;
      ChosenArePrompted(q, scheduler.limits);
      ChosenDistinct(q, scheduler.limits);
      var first, batch := scheduler.Next();
      if batch == [] { return false; }
      ghost var h, values := View(), Values(batch);
      var answer := Step(batch, first, outside);
      if answer.None? {
        FailAll(batch);
      } else {
        DeliverAll(batch, answer.value);
      }
      more := true;
      assert RoundTaken(engine.shard, eosIds, h, e, values, first, outside, View(), engine.View(), sent[|mail|..]);
    }

    /** The tokens of one step, or none if it failed. */
    method Step(batch: seq<Sequence>, first: bool, outside: Outside) returns (answer: Option<seq<Token>>)
      requires Valid() && batch != [] && HasRows(Values(batch), first)
      modifies this`sent, engine
      ensures Valid() && View() == old(View()) && Values(batch) == old(Values(batch))
      ensures var (after, out) := Stepped(engine.shard, old(engine.View()), old(Values(batch)), None, first);
              && out.Ok? && engine.View() == after
              && sent == old(sent) + MailOf(out.value, Values(batch), first, outside)
              && answer == AnswerOf(engine.shard, out.value, Values(batch), outside)
    {
      hide Sound, Prompted, Fitted, Stepped, HasRows;
      HeadAlwaysSteps(engine.shard, engine.View(), Values(batch), first);
      var out := engine.StepBatch(batch, None, first);
      match out.value
      case Logits(rows) =>
        var tokens := engine.SampleBatch(rows, batch, outside.Draws(|batch|));
        answer := if tokens.Ok? then Some(tokens.value) else None;
      case Hidden(rows) =>
        answer := RoundTrip(batch, rows, first, outside);
    }

    /** Send the rows on and wait for the tokens of this very batch. */
    method RoundTrip(batch: seq<Sequence>, hidden: seq<Row>, first: bool, outside: Outside)
      returns (answer: Option<seq<Token>>)
      modifies this`sent
      ensures sent == old(sent) + MailOf(Hidden(hidden), Values(batch), first, outside)
      ensures answer == Decided(outside.arriving, outside.batchId, |batch|)
    {
      var members := Pack(batch, first);
      sent := sent + [SentBatch(Activations(outside.batchId, 1, first, members, hidden))];
      var arriving, k := outside.arriving, 0;
      while k < |arriving|
        invariant k <= |arriving|
        invariant Decided(arriving, outside.batchId, |batch|) == Decided(arriving[k..], outside.batchId, |batch|)
      {
        var returned := arriving[k];
        k := k + 1;
        if returned.batchId == outside.batchId {
          if returned.Trouble? { return None; }
          var checked := CheckRows(Values(batch), |returned.tokens|);
          return if checked.Ok? then Some(returned.tokens) else None;
        }
      }
      answer := None;
    }

    /** One token for one member: told to whoever still listens, and the end if it is the end. */
    method Deliver(sequence: Sequence, token: Token)
      requires Valid()
      requires sequence in scheduler.running || sequence.requestId !in Ids(scheduler.View().running)
      modifies this, scheduler, scheduler.Members()
      ensures Valid() && View() == Delivered(old(View()), eosIds, old(sequence.Value()), token)
      ensures engine.View() == old(engine.View()) && sent == old(sent)
      ensures OthersAsBefore(sequence)
    {
      hide Sound, Prompted, Fitted, Dropped, Finished, Accepted, Told, Ids, Values;
      if sequence in scheduler.running { NamedIsQueued(scheduler.running, sequence); }
      AcceptedArePrompted(scheduler.View(), token, sequence.requestId);
      scheduler.Accept(token, sequence.requestId);
      Tell(sequence, token);
    }

    /** The client hears of the token, and of the end if this is it; without a client there is an end at once. */
    method Tell(sequence: Sequence, token: Token)
      requires Valid()
      modifies this, scheduler
      ensures Valid() && View() == Told(old(View()), eosIds, sequence.Value(), token)
      ensures engine.View() == old(engine.View()) && sent == old(sent)
      ensures scheduler.running == old(scheduler.running)
           || scheduler.running == Dropped(old(scheduler.running), sequence.requestId)
    {
      hide Sound, Prompted, Fitted, Dropped, Finished;
      if sequence.requestId !in tickets {
        Finish(sequence.requestId);
      } else {
        Put(sequence.requestId, TokenEvent(token));
        if token in eosIds {
          End(sequence.requestId, Stop);
        } else if sequence.Value().Done() {
          End(sequence.requestId, Length);
        }
      }
    }

    /** Whoever else runs is the same object, and as it was. */
    twostate predicate OthersAsBefore(sequence: Sequence)
      reads this, scheduler, scheduler.running
    {
      && (forall s | s in scheduler.running :: s in old(scheduler.running))
      && (forall s | s in old(scheduler.running) && s.requestId != sequence.requestId ::
            s in scheduler.running && s.Value() == old(s.Value()))
    }

    method Put(id: Id, event: Event)
      modifies this`streams
      ensures streams == old(streams)[id := (if id in old(streams) then old(streams)[id] else []) + [event]]
    {
      streams := streams[id := (if id in streams then streams[id] else []) + [event]];
    }

    method End(id: Id, reason: Reason)
      requires Valid()
      modifies this, scheduler
      ensures Valid() && View() == Ended(Heads.Put(old(View()), id, DoneEvent(reason)), id)
      ensures engine.View() == old(engine.View()) && sent == old(sent)
      ensures scheduler.running == Dropped(old(scheduler.running), id)
    {
      hide Sound, Prompted, Fitted, Dropped, Finished;
      Put(id, DoneEvent(reason));
      Finish(id);
    }

    method Fail(id: Id)
      requires Valid()
      modifies this, scheduler
      ensures Valid() && View() == Failed(old(View()), id)
      ensures engine.View() == old(engine.View()) && sent == old(sent)
    {
      hide Sound, Prompted, Fitted, Dropped, Finished;
      if id in tickets { Put(id, ErrorEvent); }
      Finish(id);
    }

    method Finish(id: Id)
      requires Valid()
      modifies this`tickets, this`toRelease, scheduler
      ensures Valid() && View() == Ended(old(View()), id)
      ensures scheduler.running == Dropped(old(scheduler.running), id)
    {
      hide Sound, Prompted, Fitted, Dropped, Finished;
      tickets := tickets - {id};
      Drop(id);
    }

    method DeliverAll(batch: seq<Sequence>, tokens: seq<Token>)
      requires Valid() && |batch| == |tokens| && DistinctIds(Values(batch))
      requires forall s | s in batch :: s in scheduler.running
      modifies this, scheduler, scheduler.Members()
      ensures Valid() && engine.View() == old(engine.View()) && sent == old(sent)
      ensures View() == DeliveredAll(old(View()), eosIds, old(Values(batch)), tokens, |batch|)
    {
      hide Sound, Prompted, Fitted, Delivered, Failed;
      ghost var values := Values(batch);
      for k := 0 to |batch|
        invariant Valid() && engine.View() == old(engine.View()) && sent == old(sent)
        invariant View() == DeliveredAll(old(View()), eosIds, values, tokens, k)
        invariant forall i | k <= i < |batch| :: batch[i] in scheduler.running && batch[i].Value() == values[i]
        invariant forall s | s in scheduler.running :: s in old(scheduler.running)
      {
        forall i | k < i < |batch| ensures batch[i].requestId != batch[k].requestId {
          DistinctPair(values, i, k);
        }
        Deliver(batch[k], tokens[k]);
      }
    }

    method FailAll(batch: seq<Sequence>)
      requires Valid()
      modifies this, scheduler
      ensures Valid() && engine.View() == old(engine.View()) && sent == old(sent)
      ensures View() == FailedAll(old(View()), old(Values(batch)), |batch|)
    {
      hide Sound, Prompted, Fitted, Delivered, Failed, Values;
      ghost var values := Values(batch);
      for k := 0 to |batch|
        invariant Valid() && engine.View() == old(engine.View()) && sent == old(sent)
        invariant View() == FailedAll(old(View()), values, k)
      {
        Fail(batch[k].requestId);
      }
    }
  }
}
