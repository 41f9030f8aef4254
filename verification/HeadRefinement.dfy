/**
 The head's methods and the state machine describe the same thing: what `RunOnce` is proved to do is a
 path of the machine on which nobody else happens to act.
 */
module HeadRefinement {
  import opened Wrappers
  import opened Transformer
  import opened Sequences
  import opened BatchWire
  import opened Scheduling
  import opened Engines
  import opened Heads
  import opened Pipeline
  import opened HeadRound

  ghost predicate LeadsIn(c: Config, s: System, s': System, steps: nat)
    decreases steps
  {
    if steps == 0 then s == s' else exists mid, a :: LeadsIn(c, s, mid, steps - 1) && Next(c, mid, a, s')
  }

  /** Some steps of the machine lead from one state to the other. */
  ghost predicate Leads(c: Config, s: System, s': System) {
    exists steps: nat :: LeadsIn(c, s, s', steps)
  }

  lemma LeadsNowhere(c: Config, s: System)
    ensures Leads(c, s, s)
  {
    assert LeadsIn(c, s, s, 0);
  }

  lemma LeadsFurther(c: Config, s: System, mid: System, a: Action, s': System)
    requires Leads(c, s, mid) && Shaped(c, mid) && HeadStep(c, mid, a, s')
    ensures Leads(c, s, s')
  {
    var steps: nat :| LeadsIn(c, s, mid, steps);
    hide HeadStep, ClientStep, StageStep;
    assert Next(c, mid, a, s');
    assert LeadsIn(c, s, s', steps + 1);
  }

  // ---------------------------------------------------------------- releasing

  /** The messages that ask every later stage to free these requests. */
  function FreesOf(c: Config, ids: seq<Id>): set<(nat, Id)>
    requires |c.cuts| >= 2
  {
    set stage, id | 0 < stage < c.Stages() && id in ids :: (stage, id)
  }

  function Released(c: Config, s: System): System
    requires |c.cuts| >= 2 && s.engines != []
  {
    s.(head := s.head.(toRelease := []),
       engines := s.engines[0 := FreedAll(s.engines[0], s.head.toRelease)],
       frees := s.frees + FreesOf(c, s.head.toRelease))
  }

  lemma {:induction false} DrainingIsAPath(c: Config, start: System, s: System)
    requires Leads(c, start, s) && Shaped(c, s) && s.phase.Idle?
    ensures Shaped(c, Released(c, s)) && Leads(c, start, Released(c, s).(phase := Drained))
    decreases |s.head.toRelease|
  {
    if s.head.toRelease == [] {
      FreedNone(s.engines[0]);
      assert Released(c, s) == s by { assert s.engines[0 := s.engines[0]] == s.engines && FreesOf(c, []) == {}; }
      LeadsFurther(c, start, s, DrainedAll, s.(phase := Drained));
    } else {
      var id := s.head.toRelease[0];
      var next := s.(head := s.head.(toRelease := s.head.toRelease[1..]),
                     engines := s.engines[0 := Freed(s.engines[0], id)],
                     frees := s.frees + set stage | 0 < stage < c.Stages() :: (stage, id));
      LeadsFurther(c, start, s, Drain, next);
      DrainingIsAPath(c, start, next);
      DrainedFirst(c, s, next);
    }
  }

  lemma DrainedFirst(c: Config, s: System, next: System)
    requires Shaped(c, s) && s.head.toRelease != []
    requires next == s.(head := s.head.(toRelease := s.head.toRelease[1..]),
                        engines := s.engines[0 := Freed(s.engines[0], s.head.toRelease[0])],
                        frees := s.frees + set stage | 0 < stage < c.Stages() :: (stage, s.head.toRelease[0]))
    ensures Released(c, next) == Released(c, s)
  {
    var ids := s.head.toRelease;
    FreedAllNext(s.engines[0], ids);
    assert ids == [ids[0]] + ids[1..];
    assert FreesOf(c, ids) == (set stage | 0 < stage < c.Stages() :: (stage, ids[0])) + FreesOf(c, ids[1..]);
    assert next.engines[0 := FreedAll(next.engines[0], ids[1..])] == s.engines[0 := FreedAll(s.engines[0], ids)];
  }

  // ---------------------------------------------------------------- settling

  lemma {:induction false} DeliveringIsAPath(c: Config, start: System, s: System, count: nat)
    requires Leads(c, start, s) && Shaped(c, s) && s.phase.Delivering? && s.phase.at == 0
    requires |s.phase.tokens| == |s.phase.batch| && count <= |s.phase.batch|
    ensures var p := s.phase;
            Leads(c, start, s.(head := DeliveredAll(s.head, c.eos, p.batch, p.tokens, count),
                               phase := Delivering(p.batch, p.tokens, count)))
  {
    hide Delivered;
    var p := s.phase;
    if count == 0 {
      assert s == s.(head := DeliveredAll(s.head, c.eos, p.batch, p.tokens, 0),
                      phase := Delivering(p.batch, p.tokens, 0));
    } else {
      DeliveringIsAPath(c, start, s, count - 1);
      var before := s.(head := DeliveredAll(s.head, c.eos, p.batch, p.tokens, count - 1),
                       phase := Delivering(p.batch, p.tokens, count - 1));
      var after := s.(head := DeliveredAll(s.head, c.eos, p.batch, p.tokens, count),
                      phase := Delivering(p.batch, p.tokens, count));
      assert after.head == Delivered(before.head, c.eos, p.batch[count - 1], p.tokens[count - 1]);
      hide DeliveredAll;
      LeadsFurther(c, start, before, Deliver, after);
    }
  }

  lemma {:induction false} FailingIsAPath(c: Config, start: System, s: System, count: nat)
    requires Leads(c, start, s) && Shaped(c, s) && s.phase.Failing? && s.phase.at == 0 && count <= |s.phase.batch|
    ensures var p := s.phase;
            Leads(c, start, s.(head := FailedAll(s.head, p.batch, count), phase := Failing(p.batch, count)))
  {
    hide Failed;
    var p := s.phase;
    if count == 0 {
      assert s == s.(head := FailedAll(s.head, p.batch, 0), phase := Failing(p.batch, 0));
    } else {
      FailingIsAPath(c, start, s, count - 1);
      var before := s.(head := FailedAll(s.head, p.batch, count - 1), phase := Failing(p.batch, count - 1));
      var after := s.(head := FailedAll(s.head, p.batch, count), phase := Failing(p.batch, count));
      assert after.head == Failed(before.head, p.batch[count - 1].id);
      hide FailedAll;
      LeadsFurther(c, start, before, Action.Fail, after);
    }
  }

  /** Tokens for everybody: delivered one by one, and the round is over. */
  lemma AnsweredRoundIsAPath(c: Config, start: System, s: System)
    requires Leads(c, start, s) && Shaped(c, s) && s.phase.Delivering? && s.phase.at == 0
    requires |s.phase.tokens| == |s.phase.batch|
    ensures Leads(c, start, s.(head := Settled(s.head, c.eos, s.phase.batch, Some(s.phase.tokens)), phase := Idle))
  {
    var p, n := s.phase, |s.phase.batch|;
    DeliveringIsAPath(c, start, s, n);
    var done := s.(head := DeliveredAll(s.head, c.eos, p.batch, p.tokens, n),
                   phase := Delivering(p.batch, p.tokens, n));
    hide DeliveredAll;
    LeadsFurther(c, start, done, FinishRound, done.(phase := Idle));
  }

  lemma FailedRoundIsAPath(c: Config, start: System, s: System)
    requires Leads(c, start, s) && Shaped(c, s) && s.phase.Failing? && s.phase.at == 0
    ensures Leads(c, start, s.(head := Settled(s.head, c.eos, s.phase.batch, None), phase := Idle))
  {
    var p, n := s.phase, |s.phase.batch|;
    FailingIsAPath(c, start, s, n);
    var done := s.(head := FailedAll(s.head, p.batch, n), phase := Failing(p.batch, n));
    hide FailedAll;
    LeadsFurther(c, start, done, FinishRound, done.(phase := Idle));
  }

  /** What the head decided from the answers that arrived, it may decide in the machine. */
  lemma WaitingIsAPath(c: Config, start: System, s: System, outside: Outside)
    requires Leads(c, start, s) && Shaped(c, s) && s.phase.Waiting? && s.phase.batchId == outside.batchId
    requires forall a | a in outside.arriving :: a in s.answers
    ensures var answer := Decided(outside.arriving, outside.batchId, |s.phase.batch|);
            Leads(c, start, s.(head := Settled(s.head, c.eos, s.phase.batch, answer), phase := Idle))
  {
    var answer := Decided(outside.arriving, outside.batchId, |s.phase.batch|);
    if answer.Some? {
      var next := s.(phase := Delivering(s.phase.batch, answer.value, 0));
      LeadsFurther(c, start, s, Take(Tokens(outside.batchId, answer.value)), next);
      AnsweredRoundIsAPath(c, start, next);
    } else {
      var next := s.(phase := Failing(s.phase.batch, 0));
      LeadsFurther(c, start, s, GiveUp, next);
      FailedRoundIsAPath(c, start, next);
    }
  }

  // ---------------------------------------------------------------- a round

  /** The state in which the head starts computing, after it released and selected. */
  function Selected(c: Config, s: System): System
    requires |c.cuts| >= 2 && s.engines != []
  {
    var released := Released(c, s);
    var (choice, queue) := NextBatch(released.head.queue, c.limits);
    released.(head := released.head.(queue := queue),
              phase := if choice.Nothing? then Idle else Computing(choice.batch, choice.Prefill?))
  }

  lemma SelectingIsAPath(c: Config, s: System)
    requires Shaped(c, s) && s.phase.Idle?
    ensures Shaped(c, Selected(c, s)) && Leads(c, s, Selected(c, s))
  {
    LeadsNowhere(c, s);
    DrainingIsAPath(c, s, s);
    var drained := Released(c, s).(phase := Drained);
    hide NextBatch, FreedAll, FreesOf;
    LeadsFurther(c, s, drained, Select, Selected(c, s));
  }

  /** The head starts computing a batch in this state, and the method's round agrees with what it is given. */
  ghost predicate RoundFrom(c: Config, t: System, outside: Outside, h: HeadState, e: Engine, mail: seq<Sent>) {
    && Shaped(c, t) && t.phase.Computing? && HasRows(t.phase.batch, t.phase.first) && outside.batchId !in t.batches
    && RoundTaken(c.ShardOf(0), c.eos, t.head, t.engines[0], t.phase.batch, t.phase.first, outside, h, e, mail)
  }

  lemma OutcomeOfRound(c: Config, t: System, outside: Outside, h: HeadState, e: Engine, mail: seq<Sent>)
    requires RoundFrom(c, t, outside, h, e, mail)
    ensures HeadOutcome(c, t, t.phase.batch, t.phase.first).0 == e
    ensures var out := HeadOutcome(c, t, t.phase.batch, t.phase.first).1;
            && mail == MailOf(out, t.phase.batch, t.phase.first, outside)
            && h == Settled(t.head, c.eos, t.phase.batch, AnswerOf(c.ShardOf(0), out, t.phase.batch, outside))
    ensures Shaped(c, t.(engines := t.engines[0 := e]))
  {
    hide Stepped, Settled;
  }

  lemma ComputesAtOnce(c: Config, t: System, batchId: BatchId, draws: seq<Draw>) returns (next: System)
    requires Shaped(c, t) && t.phase.Computing? && HasRows(t.phase.batch, t.phase.first) && c.Stages() == 1
    requires batchId !in t.batches && |draws| == |t.phase.batch|
    ensures HeadStep(c, t, Compute(batchId, draws), next)
    ensures var (after, out) := HeadOutcome(c, t, t.phase.batch, t.phase.first);
            next == t.(engines := t.engines[0 := after],
                       evicted := t.evicted + HeadLost(c, t, t.phase.batch, t.phase.first),
                       phase := Delivering(t.phase.batch, SampledBatch(c.model, out.lastRows, t.phase.batch, draws), 0))
  {
    hide HeadOutcome, HeadLost, HasRows, Fitted, SampledBatch;
    var (after, out) := HeadOutcome(c, t, t.phase.batch, t.phase.first);
    next := t.(engines := t.engines[0 := after],
               evicted := t.evicted + HeadLost(c, t, t.phase.batch, t.phase.first),
               phase := Delivering(t.phase.batch, SampledBatch(c.model, out.lastRows, t.phase.batch, draws), 0));
  }

  lemma ComputesAndSends(c: Config, t: System, batchId: BatchId, draws: seq<Draw>) returns (next: System)
    requires Shaped(c, t) && t.phase.Computing? && HasRows(t.phase.batch, t.phase.first) && c.Stages() > 1
    requires batchId !in t.batches && |draws| == |t.phase.batch|
    ensures HeadStep(c, t, Compute(batchId, draws), next)
    ensures var (batch, first) := (t.phase.batch, t.phase.first);
            var (after, out) := HeadOutcome(c, t, batch, first);
            next == t.(engines := t.engines[0 := after], evicted := t.evicted + HeadLost(c, t, batch, first),
                       phase := Waiting(batch, first, batchId), batches := t.batches + {batchId},
                       activations := t.activations + {Activations(batchId, 1, first, Packed(batch, first), out.rows)})
  {
    hide HeadOutcome, HeadLost, HasRows, Fitted, Packed;
    var (batch, first) := (t.phase.batch, t.phase.first);
    var (after, out) := HeadOutcome(c, t, batch, first);
    next := t.(engines := t.engines[0 := after], evicted := t.evicted + HeadLost(c, t, batch, first),
               phase := Waiting(batch, first, batchId), batches := t.batches + {batchId},
               activations := t.activations + {Activations(batchId, 1, first, Packed(batch, first), out.rows)});
  }

  lemma SameEngines(c: Config, s: System, t: System)
    requires Shaped(c, s) && t.engines == s.engines
    ensures Shaped(c, t)
  {
  }

  lemma ComputingOnOneStageIsAPath(c: Config, s: System, t: System, outside: Outside, h: HeadState, e: Engine,
                                   mail: seq<Sent>)
    requires Leads(c, s, t) && RoundFrom(c, t, outside, h, e, mail) && c.Stages() == 1
    ensures Leads(c, s, t.(head := h, engines := t.engines[0 := e], phase := Idle,
                           evicted := t.evicted + HeadLost(c, t, t.phase.batch, t.phase.first)))
    ensures mail == []
  {
    OutcomeOfRound(c, t, outside, h, e, mail);
    hide HeadOutcome, HeadLost, HasRows, RoundTaken, Settled, Leads, Fitted;
    var (batch, first) := (t.phase.batch, t.phase.first);
    var (after, out) := HeadOutcome(c, t, batch, first);
    var draws := outside.Draws(|batch|);
    var next := ComputesAtOnce(c, t, outside.batchId, draws);
    hide SampledBatch, HeadStep;
    LeadsFurther(c, s, t, Compute(outside.batchId, draws), next);
    assert Shaped(c, next) by { SameEngines(c, t.(engines := t.engines[0 := e]), next); }
    AnsweredRoundIsAPath(c, s, next);
  }

  /** A pipeline of one stage: `RunOnce` takes the machine from one idle state to the next. */
  lemma RoundOnOneStageIsAPath(c: Config, s: System, outside: Outside, h: HeadState, e: Engine, mail: seq<Sent>)
    requires Shaped(c, s) && s.phase.Idle? && c.Stages() == 1
    requires RoundFrom(c, Selected(c, s), outside, h, e, mail)
    ensures var t := Selected(c, s);
            Leads(c, s, t.(head := h, engines := t.engines[0 := e], phase := Idle,
                           evicted := t.evicted + HeadLost(c, t, t.phase.batch, t.phase.first)))
    ensures mail == []
  {
    hide Selected, HeadLost;
    SelectingIsAPath(c, s);
    ComputingOnOneStageIsAPath(c, s, Selected(c, s), outside, h, e, mail);
  }

  lemma ComputingAndSendingIsAPath(c: Config, s: System, t: System, outside: Outside, h: HeadState, e: Engine,
                                   mail: seq<Sent>)
    requires Leads(c, s, t) && RoundFrom(c, t, outside, h, e, mail) && c.Stages() > 1
    ensures |mail| == 1 && mail[0].SentBatch?
    ensures && Leads(c, s, t.(engines := t.engines[0 := e],
                              evicted := t.evicted + HeadLost(c, t, t.phase.batch, t.phase.first),
                              phase := Waiting(t.phase.batch, t.phase.first, outside.batchId),
                              batches := t.batches + {outside.batchId},
                              activations := t.activations + {mail[0].activations}))
            && h == Settled(t.head, c.eos, t.phase.batch, Decided(outside.arriving, outside.batchId, |t.phase.batch|))
  {
    OutcomeOfRound(c, t, outside, h, e, mail);
    hide HeadOutcome, HeadLost, HasRows, RoundTaken, Settled, Leads, Fitted, Packed;
    var draws := outside.Draws(|t.phase.batch|);
    var next := ComputesAndSends(c, t, outside.batchId, draws);
    hide HeadStep, Decided;
    LeadsFurther(c, s, t, Compute(outside.batchId, draws), next);
  }

  /** With later stages: it sends the batch exactly as the machine does, and goes on to wait. */
  lemma SendingIsAPath(c: Config, s: System, outside: Outside, h: HeadState, e: Engine, mail: seq<Sent>)
    requires Shaped(c, s) && s.phase.Idle? && c.Stages() > 1
    requires RoundFrom(c, Selected(c, s), outside, h, e, mail)
    ensures |mail| == 1 && mail[0].SentBatch?
    ensures var t := Selected(c, s);
            && Leads(c, s, t.(engines := t.engines[0 := e],
                              evicted := t.evicted + HeadLost(c, t, t.phase.batch, t.phase.first),
                              phase := Waiting(t.phase.batch, t.phase.first, outside.batchId),
                              batches := t.batches + {outside.batchId},
                              activations := t.activations + {mail[0].activations}))
            && h == Settled(t.head, c.eos, t.phase.batch, Decided(outside.arriving, outside.batchId, |t.phase.batch|))
  {
    hide Selected, HeadLost;
    SelectingIsAPath(c, s);
    ComputingAndSendingIsAPath(c, s, Selected(c, s), outside, h, e, mail);
  }
}
