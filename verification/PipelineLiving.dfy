/**
 How many places are enough for the living: with few cancels half-way, the exact number from which on
 the head costs nobody who waits or runs a slot, whichever stale slots have to go.
 */
module PipelineLiving {
  import opened Sequences
  import opened BatchWire
  import opened Scheduling
  import opened Engines
  import opened Heads
  import opened Pipeline
  import opened PipelineInvariant
  import opened PipelineDelivery
  import opened PipelineTheorems
  import opened PipelinePlaces
  import opened PipelineSlots
  import opened PipelineHeadRoom

  /** For so many places no living request has to go. */
  predicate Enough(c: Config, spare: nat) {
    c.limits.maxSequences == 1 || PlacesBeside(c, spare, 1)
  }

  /** This batch fits, or the head holds slots of the dead only. */
  ghost predicate Suits(c: Config, e: Engine, batch: seq<Request>, living: set<Id>)
    requires c.Valid()
  {
    HasRoom(c.ShardOf(0), e, Ids(batch)) || e.slots.Keys !! living
  }

  lemma FreshSuits(c: Config, spare: nat, e: Engine, q: Queue, batch: seq<Request>)
    requires c.Valid() && PlacesBeside(c, spare, 1) && 0 < |batch| <= FreshBeside(c, |q.running|)
    requires |e.slots.Keys| <= c.limits.maxSequences + spare && e.slots.Keys !! Ids(q.waiting)
    ensures Suits(c, e, batch, q.Live())
  {
    hide Ids, HasRoom;
    if q.running == [] {
      assert Ids(q.running) == {} by { NobodyIsChosen(); }
    } else {
      FewerBeside(c, spare, 1, |q.running|);
      FreshHasRoom(c, spare, e, |q.running|, batch);
    }
  }

  /** A queue of one has nobody running beside a fresh batch. */
  lemma OnlySuits(c: Config, e: Engine, q: Queue, batch: seq<Request>)
    requires c.Valid() && c.limits.maxSequences == 1 && 0 < |batch| <= FreshBeside(c, |q.running|)
    requires e.slots.Keys !! Ids(q.waiting)
    ensures Suits(c, e, batch, q.Live())
  {
    hide Ids, HasRoom;
    assert Ids(q.running) == {} by { NobodyIsChosen(); }
  }

  /** What is chosen fits, with enough places. */
  lemma ChosenSuits(c: Config, s: System, spare: nat)
    requires Ledger(c, s) && InAccount(s) && Shaped(c, s) && Spares(c, s, spare) && Enough(c, spare)
    requires s.phase.Drained? && |s.engines[0].slots| <= c.capacity
    ensures var (choice, after) := NextBatch(s.head.queue, c.limits);
            after.Live() == s.head.queue.Live()
            && (choice.Nothing? || Suits(c, s.engines[0], choice.batch, s.head.queue.Live()))
  {
    ChoiceOf(c, s);
    RunnersHold(s);
    WaitingHoldNothing(c, s);
    hide Ledger, InAccount, NextBatch, Fitted, Ids, Awaits, HasRoom, Aged, Holds, FreshBeside, PlacesBeside;
    var (choice, after) := NextBatch(s.head.queue, c.limits);
    match choice
    case Prefill(batch) =>
      if c.limits.maxSequences == 1 {
        OnlySuits(c, s.engines[0], s.head.queue, batch);
      } else {
        FreshSuits(c, spare, s.engines[0], s.head.queue, batch);
      }
    case Decode(batch) => RunningHaveRoom(c, s.engines[0], batch);
    case Nothing =>
  }

  lemma ChosenFits(c: Config, s: System, spare: nat, s': System)
    requires Ledger(c, s) && InAccount(s) && Shaped(c, s) && Spares(c, s, spare) && Enough(c, spare)
    requires HeadStep(c, s, Select, s') && |s.engines[0].slots| <= c.capacity && Shaped(c, s')
    ensures s'.phase.Computing? ==> Fitting(c, s')
  {
    hide Ledger, InAccount, NextBatch, Fitted, Ids, Spares, HasRoom, Enough;
    ChosenSuits(c, s, spare);
  }

  lemma EnoughIsShort(c: Config, s: System, spare: nat)
    requires Shaped(c, s) && Enough(c, spare)
    ensures Short(c, s)
  {
    hide RoomAtHead, Fitted;
  }

  lemma EnoughFits(c: Config, s: System, spare: nat, a: Action, s': System)
    requires Inv(c, s) && Shaped(c, s) && Shaped(c, s') && InAccount(s) && Spares(c, s, spare) && Enough(c, spare)
    requires Next(c, s, a, s') && |s.engines[0].slots| <= c.capacity && a.Select?
    ensures s'.phase.Computing? ==> Fitting(c, s')
  {
    hide Ledger, Right, Fitted, Spares, InAccount, Fitting, Enough, Next, HeadStep;
    OnlyHeadSelects(c, s, a, s');
    ChosenFits(c, s, spare, s');
  }

  lemma EnoughStep(c: Config, s: System, spare: nat, a: Action, s': System)
    requires Inv(c, s) && Shaped(c, s) && Shaped(c, s') && InAccount(s) && Spares(c, s, spare)
    requires Enough(c, spare) && Next(c, s, a, s') && |s.parting| <= spare && |s.engines[0].slots| <= c.capacity
    ensures Spares(c, s', spare) && SparesLiving(c, s, a)
  {
    hide Inv, Shaped, Spares, InAccount, Next, Fitting, Short, Enough, HasRoom, SparesLiving;
    EnoughIsShort(c, s, spare);
    if a.Select? { EnoughFits(c, s, spare, a, s'); }
    StepSpares(c, s, spare, a, s');
  }

  lemma OnlyHeadSelects(c: Config, s: System, a: Action, s': System)
    requires Next(c, s, a, s') && a.Select?
    ensures HeadStep(c, s, a, s')
  {
    hide NextBatch;
  }

  lemma {:induction false} SuchRunsSpare(c: Config, spare: nat, states: seq<System>, actions: seq<Action>, k: nat)
    requires Run(c, states, actions) && FewHalfWay(states, spare) && Enough(c, spare) && k < |states|
    ensures Shaped(c, states[k]) && Spares(c, states[k], spare)
    ensures k < |actions| ==> SparesLiving(c, states[k], actions[k])
  {
    hide Inv, Next, Init, Spares, Shaped, InAccount, SparesLiving, Enough;
    StateOfRun(c, states, actions, k);
    if k == 0 {
      InitSpares(c, states[0], spare);
    } else {
      SuchRunsSpare(c, spare, states, actions, k - 1);
      StateOfRun(c, states, actions, k - 1);
      assert Next(c, states[k - 1], actions[k - 1], states[k - 1 + 1]);
      EnoughStep(c, states[k - 1], spare, actions[k - 1], states[k]);
    }
    if k < |actions| {
      StateOfRun(c, states, actions, k + 1);
      assert Next(c, states[k], actions[k], states[k + 1]);
      EnoughStep(c, states[k], spare, actions[k], states[k + 1]);
    }
  }

  /**
   So many places spare the living: with any number of later stages, as long as no more than `spare`
   cancels are half-way, no step of the head costs anybody who waits or runs a slot.
   */
  lemma LivingAreSpared(c: Config, spare: nat, states: seq<System>, actions: seq<Action>, k: nat)
    requires Run(c, states, actions) && FewHalfWay(states, spare) && Enough(c, spare) && k < |actions|
    ensures Shaped(c, states[k]) && SparesLiving(c, states[k], actions[k])
  {
    SuchRunsSpare(c, spare, states, actions, k);
  }

  // ---------------------------------------------------------------- one machine

  /** Who lives after a step lived before or has a new name. */
  lemma LiveOnlyGrowsByNewNames(c: Config, s: System, a: Action, s': System)
    requires Next(c, s, a, s') && Inv(c, s)
    ensures s'.head.queue.Live() <= s.head.queue.Live() + if a.Submit? && s' != s then {a.request.id} else {}
    ensures a.Submit? && s' != s ==> a.request.id !in s.asked
  {
    assert Sound(s.head.queue, c.limits);
    hide Inv, Sound;
    if ClientStep(c, s, a, s') {
      hide HeadStep, StageStep, Fitted, Ids;
      if a.Submit? && s' != s { AddedLive(s.head.queue, c.limits, a.request); }
      if a.Leave? { FinishedIsLess(s.head.queue, a.id); }
      hide Added, Finished;
    } else if HeadStep(c, s, a, s') {
      hide ClientStep, StageStep;
      HeadAddsNobody(c, s, a, s');
    } else {
      hide ClientStep, HeadStep, Fitted, StageOutcome, StageLost, Spoilt, Ousted, HasRows, Unpacked;
    }
  }

  lemma HeadAddsNobody(c: Config, s: System, a: Action, s': System)
    requires Shaped(c, s) && HeadStep(c, s, a, s') && Sound(s.head.queue, c.limits)
    ensures s'.head.queue.Live() <= s.head.queue.Live() && !a.Submit?
  {
    match a
    case Select => NextBatchKeepsSound(s.head.queue, c.limits); hide NextBatch, Fitted;
    case Deliver =>
      var r, token := s.phase.batch[s.phase.at], s.phase.tokens[s.phase.at];
      DeliveredHead(s.head, c.eos, r, token);
      FinishedIsLess(s.head.queue, r.id);
      AppendedIds(s.head.queue.running, r.id, token);
      hide Delivered, Finished, Fitted, Ids;
    case Fail =>
      FailedHead(s.head, s.phase.batch[s.phase.at].id);
      FinishedIsLess(s.head.queue, s.phase.batch[s.phase.at].id);
      hide Failed, Finished, Fitted, Ids;
    case _ => hide HeadOutcome, HeadLost, Spoilt, Ousted, HasRows, Fitted, Ids, CheckRows;
  }

  lemma OneMachineStep(c: Config, s: System, a: Action, s': System)
    requires Next(c, s, a, s') && c.Stages() == 1 && SparesLiving(c, s, a) && Inv(c, s)
    requires s.head.queue.Live() !! s.evicted && s.evicted <= s.asked.Keys
    ensures s'.head.queue.Live() !! s'.evicted
  {
    LiveOnlyGrowsByNewNames(c, s, a, s');
    hide Inv, Next;
    StepCounts(c, s, a, s');
  }

  /** Nobody who waits or runs has ever lost a slot. */
  ghost predicate LivingSpared(s: System) {
    s.head.queue.Live() !! s.evicted
  }

  /** On one machine with so many places, nobody who waits or runs has ever lost a slot. */
  lemma {:induction false} OneMachineSpares(c: Config, spare: nat, states: seq<System>, actions: seq<Action>, k: nat)
    requires Run(c, states, actions) && FewHalfWay(states, spare) && Enough(c, spare) && c.Stages() == 1
    requires k < |states|
    ensures LivingSpared(states[k])
  {
    hide Inv, Next, SparesLiving, Enough;
    if k > 0 {
      hide Init;
      OneMachineSpares(c, spare, states, actions, k - 1);
      InvariantHolds(c, states, actions, k - 1);
      EvictedWereAsked(c, states, actions, k - 1);
      LivingAreSpared(c, spare, states, actions, k - 1);
      assert Next(c, states[k - 1], actions[k - 1], states[k - 1 + 1]);
      OneMachineStep(c, states[k - 1], actions[k - 1], states[k]);
    }
  }
}
