/**
 When a later stage leaks a slot: exactly when it handles a message after everybody has let go of one of
 its members. That member then has a slot that nobody ever frees.
 */
module PipelineLeaks {
  import opened Transformer
  import opened Sequences
  import opened BatchWire
  import opened Scheduling
  import opened Engines
  import opened Heads
  import opened Pipeline
  import opened PipelineInvariant
  import opened PipelineDelivery
  import opened PipelineStages
  import opened PipelineLedger
  import opened PipelinePlaces
  import opened PipelineTheorems
  import opened PipelineSlots

  /** The request has left, and nobody but perhaps a `free` on its way has anything to do with it any more. */
  ghost predicate LetGo(s: System, id: Id) {
    && id in s.asked && id !in s.head.queue.Live() && id !in s.head.tickets
    && id !in s.leaving && id !in s.parting && id !in s.head.toRelease
    && !Awaits(s.phase, id)
  }

  /** Nor is a `free` for this stage on its way: nothing that is still to come will free its slot there. */
  ghost predicate Stranded(s: System, stage: nat, id: Id) {
    LetGo(s, id) && (stage, id) !in s.frees
  }

  /** No stage is asked anew to free this request. */
  ghost predicate NoNewFrees(s: System, s': System, id: Id) {
    forall stage :: (stage, id) in s'.frees ==> (stage, id) in s.frees
  }

  lemma SameAwaits(p: Phase, p': Phase, id: Id)
    requires Batch(p') == Batch(p) && Through(p') >= Through(p) && !Awaits(p, id)
    ensures !Awaits(p', id)
  {
    assert forall k {:trigger Batch(p')[k]} | Through(p') <= k < |Batch(p')| :: Batch(p')[k] == Batch(p)[k];
  }

  lemma MemberIsAwaited(p: Phase)
    requires (p.Delivering? || p.Failing?) && p.at < |p.batch|
    ensures Awaits(p, p.batch[p.at].id)
  {
    assert Batch(p)[p.at] == p.batch[p.at];
  }

  lemma ChosenAreLive(q: Queue, limits: Limits, id: Id)
    requires Sound(q, limits) && id !in q.Live()
    ensures var (choice, after) := NextBatch(q, limits);
            && id !in after.Live()
            && (choice.Nothing? || !Awaits(Computing(choice.batch, choice.Prefill?), id))
  {
    ChosenLive(q, limits);
    var (choice, after) := NextBatch(q, limits);
    if !choice.Nothing? {
      forall r | r in choice.batch ensures IsLive(q, r) {
        if choice.Decode? { AliveIsSome(q.running); }
      }
      hide NextBatch;
      forall k | 0 <= k < |choice.batch| ensures choice.batch[k].id != id {
        assert choice.batch[k] in choice.batch;
        LiveIsNamed(q, choice.batch[k]);
      }
    }
  }

  lemma ClientStrands(c: Config, s: System, a: Action, s': System, id: Id)
    requires Ledger(c, s) && ClientStep(c, s, a, s') && LetGo(s, id)
    ensures LetGo(s', id) && NoNewFrees(s, s', id)
  {
    hide Awaits, Queued, Rounds, Heard, Accounts, LeftForGood, Endings, Ids;
    match a
    case Submit(r) =>
      if s' != s {
        AddedLive(s.head.queue, c.limits, r);
        hide Added;
      }
    case Leave(other) =>
      FinishedLive(s.head.queue, other);
      hide Finished;
    case _ =>
  }

  /** A member that is settled is another, and only that one is put up for release. */
  lemma SettlingStrands(s: System, head: HeadState, p: Phase, id: Id)
    requires LetGo(s, id) && (s.phase.Delivering? || s.phase.Failing?) && s.phase.at < |s.phase.batch|
    requires p == Further(s.phase)
    requires var other := s.phase.batch[s.phase.at].id;
             && head.queue.Live() <= s.head.queue.Live() && head.tickets <= s.head.tickets
             && (head.toRelease == s.head.toRelease || head.toRelease == s.head.toRelease + [other])
    ensures LetGo(s.(head := head, phase := p), id)
  {
    MemberIsAwaited(s.phase);
    SameAwaits(s.phase, p, id);
    hide Awaits;
  }

  lemma DeliverStrands(c: Config, s: System, s': System, id: Id)
    requires Ledger(c, s) && Shaped(c, s) && HeadStep(c, s, Deliver, s') && LetGo(s, id)
    ensures LetGo(s', id) && NoNewFrees(s, s', id)
  {
    hide Ledger, Delivered, LetGo;
    var r, token := s.phase.batch[s.phase.at], s.phase.tokens[s.phase.at];
    DeliveredHead(s.head, c.eos, r, token);
    FinishedLive(s.head.queue, r.id);
    AppendedIds(s.head.queue.running, r.id, token);
    SettlingStrands(s, s'.head, s'.phase, id);
  }

  lemma FailStrands(c: Config, s: System, s': System, id: Id)
    requires Ledger(c, s) && Shaped(c, s) && HeadStep(c, s, Action.Fail, s') && LetGo(s, id)
    ensures LetGo(s', id) && NoNewFrees(s, s', id)
  {
    hide Ledger, Failed, LetGo;
    var other := s.phase.batch[s.phase.at].id;
    FailedHead(s.head, other);
    FinishedLive(s.head.queue, other);
    SettlingStrands(s, s'.head, s'.phase, id);
  }

  lemma SelectStrands(c: Config, s: System, s': System, id: Id)
    requires Ledger(c, s) && Shaped(c, s) && HeadStep(c, s, Select, s') && LetGo(s, id)
    ensures LetGo(s', id) && NoNewFrees(s, s', id)
  {
    ChosenAreLive(s.head.queue, c.limits, id);
    hide NextBatch, Ledger, Fitted, Ids, Awaits;
  }

  lemma PhaseStrands(c: Config, s: System, a: Action, s': System, id: Id)
    requires Shaped(c, s) && HeadStep(c, s, a, s') && LetGo(s, id)
    requires !a.Select? && !a.Deliver? && !a.Fail?
    ensures LetGo(s', id) && NoNewFrees(s, s', id)
  {
    hide HeadOutcome, HeadLost, Ousted, Spoilt, Awaits, HasRows, Packed, SampledBatch, Fitted, Ids;
    if a.FinishRound? || a.DrainedAll? { NobodyAwaited(s'.phase); }
    else { SameAwaits(s.phase, s'.phase, id); }
  }

  lemma HeadStrands(c: Config, s: System, a: Action, s': System, id: Id)
    requires Ledger(c, s) && Shaped(c, s) && HeadStep(c, s, a, s') && LetGo(s, id)
    ensures LetGo(s', id) && NoNewFrees(s, s', id)
  {
    hide Ledger, HeadStep, LetGo, NoNewFrees, Shaped;
    match a
    case Deliver => DeliverStrands(c, s, s', id);
    case Fail => FailStrands(c, s, s', id);
    case Select => SelectStrands(c, s, s', id);
    case _ => PhaseStrands(c, s, a, s', id);
  }

  /** What a later stage does leaves the head to itself, and it asks nobody to free anything. */
  lemma StageStrands(c: Config, s: System, a: Action, s': System, id: Id)
    requires Shaped(c, s) && StageStep(c, s, a, s') && LetGo(s, id)
    ensures LetGo(s', id) && NoNewFrees(s, s', id)
    ensures forall stage: nat | id in FreedBy(s, a, stage) :: (stage, id) in s.frees
  {
    hide Awaits, StageOutcome, StageLost, Spoilt, Ousted, HasRows, Unpacked, Fitted;
  }

  lemma OthersFreeNothing(c: Config, s: System, a: Action, s': System, stage: nat)
    requires (Shaped(c, s) && HeadStep(c, s, a, s')) || ClientStep(c, s, a, s')
    requires stage > 0
    ensures FreedBy(s, a, stage) == {} && WorkedOn(s, a, stage) == {}
  {
    hide HeadOutcome, HeadLost, Spoilt, Ousted, HasRows, NextBatch, Delivered, Failed, Added, Finished, Fitted;
  }

  /** Once let go of, always let go of; nobody is asked anew to free it, and only who was asked frees it. */
  lemma LetGoStays(c: Config, s: System, a: Action, s': System, stage: nat, id: Id)
    requires Ledger(c, s) && Next(c, s, a, s') && LetGo(s, id) && stage > 0
    ensures LetGo(s', id) && NoNewFrees(s, s', id) && (id in FreedBy(s, a, stage) ==> (stage, id) in s.frees)
  {
    hide Ledger, ClientStep, HeadStep, StageStep, LetGo, NoNewFrees, FreedBy, WorkedOn, Fitted;
    if ClientStep(c, s, a, s') {
      ClientStrands(c, s, a, s', id);
      OthersFreeNothing(c, s, a, s', stage);
    } else if HeadStep(c, s, a, s') {
      HeadStrands(c, s, a, s', id);
      OthersFreeNothing(c, s, a, s', stage);
    } else {
      StageStrands(c, s, a, s', id);
    }
  }

  /** Once stranded, always stranded, and nobody frees the slot. */
  lemma StrandedStays(c: Config, s: System, a: Action, s': System, stage: nat, id: Id)
    requires Ledger(c, s) && Next(c, s, a, s') && Stranded(s, stage, id) && stage > 0
    ensures Stranded(s', stage, id) && id !in FreedBy(s, a, stage)
  {
    hide Ledger, Next, LetGo, FreedBy;
    LetGoStays(c, s, a, s', stage, id);
  }

  // ---------------------------------------------------------------- how a request comes to be stranded

  lemma ClientWasStranded(c: Config, s: System, a: Action, s': System, stage: nat, id: Id)
    requires Ledger(c, s) && ClientStep(c, s, a, s') && Stranded(s', stage, id) && id in s.asked
    ensures Stranded(s, stage, id)
  {
    hide Awaits, Queued, Rounds, Heard, Accounts, LeftForGood, Endings, Ids;
    match a
    case Submit(r) =>
      if s' != s {
        AddedLive(s.head.queue, c.limits, r);
        hide Added;
      }
    case Leave(other) =>
      FinishedLive(s.head.queue, other);
      hide Finished;
    case _ =>
  }

  /** A member that is settled is put up for release, or still has its ticket. */
  lemma SettledWasStranded(s: System, head: HeadState, p: Phase, stage: nat, id: Id)
    requires (s.phase.Delivering? || s.phase.Failing?) && s.phase.at < |s.phase.batch| && p == Further(s.phase)
    requires var other := s.phase.batch[s.phase.at].id;
             || (other in head.tickets && head.queue.Live() == s.head.queue.Live() && head.tickets == s.head.tickets
                 && head.toRelease == s.head.toRelease)
             || (head.queue.Live() == s.head.queue.Live() - {other} && head.tickets == s.head.tickets - {other}
                 && head.toRelease == s.head.toRelease + [other])
    requires Stranded(s.(head := head, phase := p), stage, id)
    ensures Stranded(s, stage, id)
  {
    var other := s.phase.batch[s.phase.at].id;
    assert id != other by { assert other in s.head.toRelease + [other]; }
    StillAwaited(s.phase, id);
    hide Awaits;
  }

  lemma DeliverWasStranded(c: Config, s: System, s': System, stage: nat, id: Id)
    requires Shaped(c, s) && HeadStep(c, s, Deliver, s') && Stranded(s', stage, id)
    ensures Stranded(s, stage, id)
  {
    hide Delivered, Stranded, Finished, Accepted;
    var r, token := s.phase.batch[s.phase.at], s.phase.tokens[s.phase.at];
    DeliveredHead(s.head, c.eos, r, token);
    FinishedIsLess(s.head.queue, r.id);
    AcceptedIsAsLive(s.head.queue, r.id, token);
    SettledWasStranded(s, s'.head, s'.phase, stage, id);
  }

  lemma FinishedIsLess(q: Queue, id: Id)
    ensures Finished(q, id).Live() == q.Live() - {id}
  {
    FinishedLive(q, id);
  }

  lemma AcceptedIsAsLive(q: Queue, id: Id, token: Token)
    ensures Accepted(q, token, id).Live() == q.Live()
  {
    AppendedIds(q.running, id, token);
  }

  lemma FailWasStranded(c: Config, s: System, s': System, stage: nat, id: Id)
    requires Shaped(c, s) && HeadStep(c, s, Action.Fail, s') && Stranded(s', stage, id)
    ensures Stranded(s, stage, id)
  {
    hide Failed, Stranded, Finished;
    var other := s.phase.batch[s.phase.at].id;
    FailedHead(s.head, other);
    FinishedIsLess(s.head.queue, other);
    SettledWasStranded(s, s'.head, s'.phase, stage, id);
  }

  lemma SelectWasStranded(c: Config, s: System, s': System, stage: nat, id: Id)
    requires Ledger(c, s) && Shaped(c, s) && HeadStep(c, s, Select, s') && Stranded(s', stage, id)
    ensures Stranded(s, stage, id)
  {
    NextBatchKeepsSound(s.head.queue, c.limits);
    hide NextBatch, Queued, Rounds, Heard, Accounts, LeftForGood, Ids;
    NobodyAwaited(s.phase);
  }

  lemma DrainWasStranded(c: Config, s: System, s': System, stage: nat, id: Id)
    requires Shaped(c, s) && HeadStep(c, s, Drain, s') && Stranded(s', stage, id) && 0 < stage < c.Stages()
    ensures Stranded(s, stage, id)
  {
    hide Fitted;
    assert s.head.toRelease == [s.head.toRelease[0]] + s.head.toRelease[1..];
    assert (stage, s.head.toRelease[0]) in s'.frees;
  }

  lemma PhaseWasStranded(c: Config, s: System, a: Action, s': System, stage: nat, id: Id)
    requires Shaped(c, s) && HeadStep(c, s, a, s') && Stranded(s', stage, id)
    requires !a.Select? && !a.Deliver? && !a.Fail? && !a.Drain?
    ensures Stranded(s, stage, id)
  {
    hide HeadOutcome, HeadLost, Spoilt, Ousted, Awaits, HasRows, Packed, SampledBatch, Fitted;
    if a.FinishRound? || a.DrainedAll? { NobodyAwaited(s.phase); }
    else { SameAwaits(s'.phase, s.phase, id); }
  }

  lemma HeadWasStranded(c: Config, s: System, a: Action, s': System, stage: nat, id: Id)
    requires Ledger(c, s) && Shaped(c, s) && HeadStep(c, s, a, s') && Stranded(s', stage, id) && 0 < stage < c.Stages()
    ensures Stranded(s, stage, id)
  {
    hide Ledger, HeadStep, Stranded, Fitted;
    match a
    case Deliver => DeliverWasStranded(c, s, s', stage, id);
    case Fail => FailWasStranded(c, s, s', stage, id);
    case Select => SelectWasStranded(c, s, s', stage, id);
    case Drain => DrainWasStranded(c, s, s', stage, id);
    case _ => PhaseWasStranded(c, s, a, s', stage, id);
  }

  /** The last to let go of a request on a stage is the stage itself, which frees the slot then. */
  lemma StageWasStranded(c: Config, s: System, a: Action, s': System, stage: nat, id: Id)
    requires Shaped(c, s) && StageStep(c, s, a, s') && Stranded(s', stage, id) && stage < c.Stages()
    requires id in s'.engines[stage].slots
    ensures Stranded(s, stage, id)
  {
    hide Awaits, StageOutcome, StageLost, Spoilt, Ousted, HasRows, Unpacked, Fitted;
  }

  /** Somebody with a slot on a later stage is stranded only if it was already. */
  lemma WasStranded(c: Config, s: System, a: Action, s': System, stage: nat, id: Id)
    requires Ledger(c, s) && Next(c, s, a, s') && id in s.asked && 0 < stage < c.Stages() == |s'.engines|
    requires Stranded(s', stage, id) && id in s'.engines[stage].slots
    ensures Stranded(s, stage, id)
  {
    hide Ledger, ClientStep, HeadStep, StageStep, Stranded, Fitted;
    if ClientStep(c, s, a, s') {
      ClientWasStranded(c, s, a, s', stage, id);
    } else if HeadStep(c, s, a, s') {
      HeadWasStranded(c, s, a, s', stage, id);
    } else {
      StageWasStranded(c, s, a, s', stage, id);
    }
  }

  // ---------------------------------------------------------------- the results

  /** This stage works on a message of which it has already been let go of this member. */
  ghost predicate TooLate(s: System, a: Action, stage: nat, id: Id) {
    Stranded(s, stage, id) && id in WorkedOn(s, a, stage)
  }

  lemma NamedWasAsked(c: Config, s: System, a: Action, s': System, stage: nat, id: Id)
    requires Inv(c, s) && Next(c, s, a, s') && 0 < stage < |s.engines|
    requires id in WorkedOn(s, a, stage) + s.engines[stage].slots.Keys
    ensures id in s.asked
  {
  }

  /** A slot of somebody stranded was there before, or is made too late in this step. */
  lemma StrandedSlotStep(c: Config, s: System, a: Action, s': System, stage: nat, id: Id)
    requires Inv(c, s) && Next(c, s, a, s') && 0 < stage < c.Stages() == |s'.engines|
    requires Stranded(s', stage, id) && id in s'.engines[stage].slots
    ensures stage < |s.engines| && Stranded(s, stage, id)
    ensures id in s.engines[stage].slots || TooLate(s, a, stage, id)
  {
    hide Ledger, Right, Next, Stranded, WorkedOn, FreedBy;
    StepMoves(c, s, a, s', stage);
    NamedWasAsked(c, s, a, s', stage, id);
    WasStranded(c, s, a, s', stage, id);
  }

  lemma InvSpeaksOfAllStages(c: Config, s: System)
    requires Inv(c, s)
    ensures c.Valid() && |s.engines| == c.Stages()
  {
    hide Ledger;
  }

  /**
   In any run, whatever is evicted: a slot on a later stage of somebody whom everybody has let go of was
   made by that stage on a message that came after that.
   */
  lemma {:induction false} LeaksComeLate(c: Config, states: seq<System>, actions: seq<Action>, k: nat, stage: nat,
                                         id: Id)
    returns (j: nat)
    requires Run(c, states, actions) && k < |states| && 0 < stage < |states[k].engines|
    requires Stranded(states[k], stage, id) && id in states[k].engines[stage].slots
    ensures j < k && TooLate(states[j], actions[j], stage, id)
    ensures stage < |states[j + 1].engines| && id in states[j + 1].engines[stage].slots
  {
    hide Inv, Next, Stranded, TooLate;
    assert k > 0;
    hide Init;
    InvariantHolds(c, states, actions, k);
    InvariantHolds(c, states, actions, k - 1);
    InvSpeaksOfAllStages(c, states[k]);
    InvSpeaksOfAllStages(c, states[k - 1]);
    assert Next(c, states[k - 1], actions[k - 1], states[k - 1 + 1]);
    StrandedSlotStep(c, states[k - 1], actions[k - 1], states[k], stage, id);
    if id in states[k - 1].engines[stage].slots {
      j := LeaksComeLate(c, states, actions, k - 1, stage, id);
    } else {
      j := k - 1;
    }
  }

  lemma EvictedGrows(c: Config, s: System, a: Action, s': System)
    requires Next(c, s, a, s')
    ensures s.evicted <= s'.evicted
  {
    hide Next, EvictedBy;
    StepCounts(c, s, a, s');
  }

  /** A slot of somebody stranded who is never evicted stays. */
  lemma {:induction false} StrandedSlotsStay(c: Config, states: seq<System>, actions: seq<Action>, j: nat, k: nat,
                                             stage: nat, id: Id)
    requires Run(c, states, actions) && j <= k < |states| && 0 < stage < |states[j].engines|
    requires Stranded(states[j], stage, id) && id in states[j].engines[stage].slots && id !in states[k].evicted
    ensures Stranded(states[k], stage, id)
    ensures stage < |states[k].engines| && id in states[k].engines[stage].slots
  {
    hide Inv, Next, Stranded, Init, Ledger, FreedBy, WorkedOn;
    if j < k {
      InvariantHolds(c, states, actions, k - 1);
      InvSpeaksOfAllStages(c, states[k - 1]);
      LedgerHolds(c, states, actions, k - 1);
      assert Next(c, states[k - 1], actions[k - 1], states[k - 1 + 1]);
      EvictedGrows(c, states[k - 1], actions[k - 1], states[k]);
      StrandedSlotsStay(c, states, actions, j, k - 1, stage, id);
      StepMoves(c, states[k - 1], actions[k - 1], states[k], stage);
      StrandedStays(c, states[k - 1], actions[k - 1], states[k], stage, id);
    }
  }

  /** Somebody may have made a slot for it too late: for sure if the stage computed on the message and did not fail. */
  ghost predicate MadeTooLate(states: seq<System>, actions: seq<Action>, j: nat, stage: nat, id: Id)
    requires j < |actions| < |states|
  {
    && TooLate(states[j], actions[j], stage, id)
    && (actions[j].StageComputes? ||
        (stage < |states[j + 1].engines| && id in states[j + 1].engines[stage].slots))
  }

  /** Computing too late makes a slot. */
  lemma LateMessageMakesASlot(c: Config, states: seq<System>, actions: seq<Action>, j: nat, stage: nat, id: Id)
    requires Run(c, states, actions) && j < |actions| && 0 < stage < |states[j].engines|
    requires MadeTooLate(states, actions, j, stage, id) && id !in states[j + 1].evicted
    ensures Stranded(states[j + 1], stage, id)
    ensures stage < |states[j + 1].engines| && id in states[j + 1].engines[stage].slots
  {
    InvariantHolds(c, states, actions, j);
    LedgerHolds(c, states, actions, j);
    assert Next(c, states[j], actions[j], states[j + 1]);
    hide Inv, Ledger, Next, Stranded, Views, Ids;
    InvSpeaksOfAllStages(c, states[j]);
    StrandedStays(c, states[j], actions[j], states[j + 1], stage, id);
    if actions[j].StageComputes? {
      StagesNeverSeeAMismatch(c, states, actions, j);
      hide Run, Incoming;
      OnlyStagesCompute(c, states[j], actions[j], states[j + 1]);
      StageComputesMoves(c, states[j], actions[j].message, actions[j].draws, states[j + 1]);
    }
  }

  lemma OnlyStagesCompute(c: Config, s: System, a: Action, s': System)
    requires Next(c, s, a, s') && a.StageComputes?
    ensures Shaped(c, s) && StageStep(c, s, a, s')
  {
    hide StageOutcome, StageLost, HasRows, Unpacked, Fitted;
  }

  /**
   A later stage leaks if and only if it works too late: in any run, somebody whom everybody has let go
   of, and who was not evicted, has a slot there exactly if the stage computed on a message that names it
   after that, or failed on one and left it a slot.
   */
  lemma LateMessagesLeak(c: Config, states: seq<System>, actions: seq<Action>, k: nat, stage: nat, id: Id)
    requires Run(c, states, actions) && k < |states| && 0 < stage < |states[k].engines|
    requires Stranded(states[k], stage, id) && id !in states[k].evicted
    ensures id in states[k].engines[stage].slots <==>
              exists j | 0 <= j < k :: MadeTooLate(states, actions, j, stage, id)
  {
    hide Inv, Next, Stranded, Init, TooLate;
    if id in states[k].engines[stage].slots {
      var j := LeaksComeLate(c, states, actions, k, stage, id);
      assert MadeTooLate(states, actions, j, stage, id);
    }
    if j :| 0 <= j < k && MadeTooLate(states, actions, j, stage, id) {
      EnginesStayMany(c, states, actions, j, k);
      EvictedStays(c, states, actions, j + 1, k, id);
      LateMessageMakesASlot(c, states, actions, j, stage, id);
      StrandedSlotsStay(c, states, actions, j + 1, k, stage, id);
    }
  }

  lemma EnginesStayMany(c: Config, states: seq<System>, actions: seq<Action>, j: nat, k: nat)
    requires Run(c, states, actions) && j < |states| && k < |states|
    ensures |states[j].engines| == |states[k].engines|
  {
    hide Inv, Run;
    InvariantHolds(c, states, actions, j);
    InvariantHolds(c, states, actions, k);
    InvSpeaksOfAllStages(c, states[j]);
    InvSpeaksOfAllStages(c, states[k]);
  }

  lemma {:induction false} EvictedStays(c: Config, states: seq<System>, actions: seq<Action>, j: nat, k: nat, id: Id)
    requires Run(c, states, actions) && j <= k < |states| && id !in states[k].evicted
    ensures id !in states[j].evicted
  {
    hide Next, Init;
    if j < k {
      assert Next(c, states[k - 1], actions[k - 1], states[k - 1 + 1]);
      EvictedGrows(c, states[k - 1], actions[k - 1], states[k]);
      EvictedStays(c, states, actions, j, k - 1, id);
    }
  }

  // ---------------------------------------------------------------- frees that do not arrive

  /**
   A `free` that is never delivered leaks as well: whoever was let go of and had a slot on a later stage
   has it until that stage handles the `free`, unless it is evicted there.
   */
  lemma {:induction false} UndeliveredFreesLeak(c: Config, states: seq<System>, actions: seq<Action>, j: nat, k: nat,
                                                stage: nat, id: Id)
    requires Run(c, states, actions) && j <= k < |states| && 0 < stage < |states[j].engines|
    requires LetGo(states[j], id) && id in states[j].engines[stage].slots && id !in states[k].evicted
    requires forall i | j <= i < k :: actions[i] != StageFrees(stage, id)
    ensures LetGo(states[k], id)
    ensures stage < |states[k].engines| && id in states[k].engines[stage].slots
  {
    hide Inv, Next, LetGo, Init, Ledger, WorkedOn, FreedBy;
    if j < k {
      InvariantHolds(c, states, actions, k - 1);
      InvSpeaksOfAllStages(c, states[k - 1]);
      LedgerHolds(c, states, actions, k - 1);
      assert Next(c, states[k - 1], actions[k - 1], states[k - 1 + 1]);
      EvictedGrows(c, states[k - 1], actions[k - 1], states[k]);
      UndeliveredFreesLeak(c, states, actions, j, k - 1, stage, id);
      StepMoves(c, states[k - 1], actions[k - 1], states[k], stage);
      LetGoStays(c, states[k - 1], actions[k - 1], states[k], stage, id);
      OnlyFreeingFrees(states[k - 1], actions[k - 1], stage, id);
    }
  }

  lemma OnlyFreeingFrees(s: System, a: Action, stage: nat, id: Id)
    requires stage > 0 && a != StageFrees(stage, id)
    ensures id !in FreedBy(s, a, stage)
  {
  }
}
