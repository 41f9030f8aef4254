/**
 When no stage ever runs out of places: a condition on runs, step by step, under which the eviction
 branch is taken on no later stage either.
 */
module PipelineRoom {
  import opened FiniteSets
  import opened Sequences
  import opened BatchWire
  import opened Scheduling
  import opened Engines
  import opened Heads
  import opened Pipeline
  import opened PipelineInvariant
  import opened PipelineStages
  import opened PipelineTheorems
  import opened PipelineSlots
  import opened PipelineHeadRoom

  /** What a later stage holds the head holds too, or has asked it to free. */
  ghost predicate Mirrored(engines: seq<Engine>, frees: set<(nat, Id)>) {
    forall stage, id | 0 < stage < |engines| && id in engines[stage].slots ::
      id in engines[0].slots || (stage, id) in frees
  }

  /** The head is within its places, and holds slots of the batch on its way. */
  ghost predicate Roomy(c: Config, p: Phase, e: Engine) {
    |e.slots.Keys| <= c.capacity && (p.Waiting? ==> Ids(p.batch) <= e.slots.Keys)
  }

  ghost predicate Kept(c: Config, s: System)
    requires Shaped(c, s)
  {
    s.evicted == {} && Mirrored(s.engines, s.frees) && Roomy(c, s.phase, s.engines[0])
  }

  /**
   A tidy step: the head is tidy, and a later stage handles no message of a batch the head has given up,
   and has handled what it was asked to free before.
   */
  ghost predicate TidyStep(c: Config, s: System, a: Action, spare: nat) {
    && HeadTidyStep(c, s, a, spare)
    && (a.StageComputes? || a.StageFails? ==>
          Current(s.phase, a.message.batchId) && forall f | f in s.frees :: f.0 != a.message.target)
  }

  ghost predicate Tidy(c: Config, states: seq<System>, actions: seq<Action>, spare: nat) {
    && |states| == |actions| + 1
    && forall k | 0 <= k < |actions| :: TidyStep(c, states[k], actions[k], spare)
  }

  // ---------------------------------------------------------------- a tidy step has room

  /** The members of the current message have slots at the head. */
  lemma CurrentAtHead(c: Config, s: System, m: Activations)
    requires Inv(c, s) && Shaped(c, s) && Kept(c, s) && m in s.activations && 0 < m.target < c.Stages()
    requires Current(s.phase, m.batchId)
    ensures Ids(Views(m)) <= s.engines[0].slots.Keys && Unpacked(m.members).Ok?
  {
    hide Queued, Ticketed, LeftForGood, Heard, Accounts, Endings, Speech, Records, Remembered, Landing, Caches,
         Returning, Addressed, Harmless, Mirrored;
    CurrentViews(c, s, m);
  }

  lemma StageHasRoom(c: Config, s: System, m: Activations)
    requires Inv(c, s) && Shaped(c, s) && Kept(c, s) && m in s.activations && 0 < m.target < c.Stages()
    requires Current(s.phase, m.batchId) && forall f | f in s.frees :: f.0 != m.target
    ensures RoomFor(c, s, m)
  {
    CurrentAtHead(c, s, m);
    hide Inv, Fitted, Ids;
    forall id | id in s.engines[m.target].slots ensures id in s.engines[0].slots {
      var f := (m.target, id);
      assert f.0 == m.target && f !in s.frees;
    }
    SubsetIsSmaller(s.engines[m.target].slots.Keys + Ids(Views(m)), s.engines[0].slots.Keys);
  }

  lemma TidyHasPlaces(c: Config, s: System, spare: nat, a: Action, s': System)
    requires Inv(c, s) && Shaped(c, s) && Kept(c, s) && TidyStep(c, s, a, spare) && Next(c, s, a, s')
    requires RoomAtHead(c, s)
    ensures HasPlaces(c, s, a)
  {
    hide Inv, RoomFor, Mirrored, Next, HeadTidyStep, RoomAtHead;
    match a
    case StageComputes(m, _) =>
      OnlyStagesHandle(c, s, a, s');
      StageHasRoom(c, s, m);
    case StageFails(m, _) =>
      OnlyStagesHandle(c, s, a, s');
      StageHasRoom(c, s, m);
    case _ =>
  }

  lemma OnlyStagesHandle(c: Config, s: System, a: Action, s': System)
    requires Next(c, s, a, s') && (a.StageComputes? || a.StageFails?)
    ensures StageStep(c, s, a, s') && a.message in s.activations && 0 < a.message.target < c.Stages()
  {
    hide StageOutcome, HeadOutcome, NextBatch, Delivered, Failed, Spoilt, Unpacked, HasRows, HeadLost, StageLost,
         Ousted, Fitted;
  }

  // ---------------------------------------------------------------- every step keeps the room

  lemma DrainedIsMirrored(engines: seq<Engine>, frees: set<(nat, Id)>, id: Id, more: set<(nat, Id)>)
    requires engines != [] && Mirrored(engines, frees)
    requires forall stage: nat | 0 < stage < |engines| :: (stage, id) in more
    ensures Mirrored(engines[0 := Freed(engines[0], id)], frees + more)
  {
    var after := engines[0 := Freed(engines[0], id)];
    forall stage, other | 0 < stage < |after| && other in after[stage].slots
      ensures other in after[0].slots || (stage, other) in frees + more
    {
      assert after[stage] == engines[stage];
    }
  }

  lemma DrainKeepsRoom(c: Config, s: System, s': System)
    requires Shaped(c, s) && Kept(c, s) && HeadStep(c, s, Drain, s')
    ensures Shaped(c, s') && Kept(c, s')
  {
    hide Mirrored;
    var id := s.head.toRelease[0];
    DrainedIsMirrored(s.engines, s.frees, id, set stage | 0 < stage < c.Stages() :: (stage, id));
    assert s'.engines[0].slots.Keys == s.engines[0].slots.Keys - {id};
    SubsetIsSmaller(s'.engines[0].slots.Keys, s.engines[0].slots.Keys);
  }

  /** The head's slots come for its batch, and none of them goes. */
  lemma HeadEngineKeepsRoom(c: Config, s: System, s': System)
    requires Shaped(c, s) && Kept(c, s) && s.phase.Computing? && s'.evicted == {} && RoomAtHead(c, s)
    requires Shaped(c, s') && s'.engines == s.engines[0 := s'.engines[0]]
    requires Moved(s.engines[0], s'.engines[0], Ids(s.phase.batch), {})
    requires s'.phase.Waiting? ==> Ids(s.phase.batch) <= s'.engines[0].slots.Keys && s'.phase.batch == s.phase.batch
    requires s'.frees == s.frees && (s'.phase.Waiting? || s'.phase.Delivering? || s'.phase.Failing?)
    ensures Kept(c, s')
  {
    SubsetIsSmaller(s'.engines[0].slots.Keys, s.engines[0].slots.Keys + Ids(s.phase.batch));
    forall stage, other | 0 < stage < |s'.engines| && other in s'.engines[stage].slots
      ensures other in s'.engines[0].slots || (stage, other) in s'.frees
    {
      assert s'.engines[stage] == s.engines[stage];
    }
  }

  lemma ComputeKeepsRoom(c: Config, s: System, a: Action, s': System)
    requires Inv(c, s) && Shaped(c, s) && Kept(c, s) && HeadStep(c, s, a, s') && (a.Compute? || a.ComputeFails?)
    requires Shaped(c, s') && s'.evicted == {} && RoomAtHead(c, s)
    ensures Kept(c, s')
  {
    hide Inv, Kept, HeadOutcome, HeadLost, Moved, Spoilt, Ousted, HasRows, Fitted, Ids, Packed, SampledBatch;
    if a.Compute? {
      HeadComputesMoves(c, s, a.batchId, a.draws, s');
    } else {
      HeadFailureMoves(c, s, a.engine, s');
    }
    HeadEngineKeepsRoom(c, s, s');
  }

  /** The head does not work on its slots, and sends nothing. */
  lemma RoundKeepsRoom(c: Config, s: System, a: Action, s': System)
    requires Shaped(c, s) && Kept(c, s) && HeadStep(c, s, a, s')
    requires !a.Drain? && !a.Compute? && !a.ComputeFails?
    ensures Kept(c, s')
  {
    HeadRests(c, s, a, s');
    hide Mirrored, Delivered, Failed, Fitted, Ids, NextBatch, CheckRows;
  }

  lemma HeadStepKeepsRoom(c: Config, s: System, a: Action, s': System)
    requires Inv(c, s) && Shaped(c, s) && Kept(c, s) && RoomAtHead(c, s)
    requires HeadStep(c, s, a, s') && Shaped(c, s') && s'.evicted == {}
    ensures Kept(c, s')
  {
    hide Inv, Kept, NextBatch, HeadOutcome, HeadLost, Spoilt, Ousted, Delivered, Failed, HasRows, Fitted, RoomAtHead;
    match a
    case Drain => DrainKeepsRoom(c, s, s');
    case Compute(_, _) => ComputeKeepsRoom(c, s, a, s');
    case ComputeFails(_) => ComputeKeepsRoom(c, s, a, s');
    case _ => RoundKeepsRoom(c, s, a, s');
  }

  lemma ClientStepKeepsRoom(c: Config, s: System, a: Action, s': System)
    requires Shaped(c, s) && Kept(c, s) && ClientStep(c, s, a, s')
    ensures Kept(c, s')
  {
    hide Mirrored, Roomy, Added, Finished, Fitted;
  }

  /** A later stage's slots come for members of the current batch only. */
  lemma StageKeepsRoom(c: Config, s: System, at: nat, ids: set<Id>, s': System)
    requires Shaped(c, s) && Shaped(c, s') && Kept(c, s) && 0 < at < c.Stages() && s'.evicted == {}
    requires s'.engines == s.engines[at := s'.engines[at]]
    requires s'.engines[at].slots.Keys <= s.engines[at].slots.Keys + ids && ids <= s.engines[0].slots.Keys
    requires s'.frees == s.frees && s'.phase == s.phase
    ensures Kept(c, s')
  {
    hide Roomy;
    assert s'.engines[0] == s.engines[0];
    forall stage, other | 0 < stage < |s'.engines| && other in s'.engines[stage].slots
      ensures other in s'.engines[0].slots || (stage, other) in s'.frees
    {
      if stage != at { assert s'.engines[stage] == s.engines[stage]; }
    }
  }

  lemma StageFreesKeepsRoom(c: Config, s: System, at: nat, id: Id, s': System)
    requires Shaped(c, s) && Kept(c, s) && StageStep(c, s, StageFrees(at, id), s')
    ensures Shaped(c, s') && Kept(c, s')
  {
    hide Roomy;
    assert s'.engines[0] == s.engines[0];
    forall stage, other | 0 < stage < |s'.engines| && other in s'.engines[stage].slots
      ensures other in s'.engines[0].slots || (stage, other) in s'.frees
    {
      if stage != at { assert s'.engines[stage] == s.engines[stage]; }
      assert other in s.engines[stage].slots;
    }
  }

  /** What handling a message leaves alone. */
  lemma HandlingLeaves(c: Config, s: System, a: Action, s': System)
    requires Shaped(c, s) && StageStep(c, s, a, s') && (a.StageComputes? || a.StageFails?)
    ensures a.message in s.activations && s'.frees == s.frees && s'.phase == s.phase
  {
    hide StageOutcome, StageLost, Spoilt, Ousted, HasRows, Unpacked, Fitted;
  }

  lemma StageStepKeepsRoom(c: Config, s: System, spare: nat, a: Action, s': System)
    requires Inv(c, s) && Shaped(c, s) && Kept(c, s) && TidyStep(c, s, a, spare)
    requires StageStep(c, s, a, s') && Shaped(c, s') && s'.evicted == {}
    ensures Kept(c, s')
  {
    hide Inv, Kept, StageStep, Fitted, Views, Ids;
    match a
    case StageComputes(m, draws) =>
      HandlingLeaves(c, s, a, s');
      StageComputesMoves(c, s, m, draws, s');
      CurrentAtHead(c, s, m);
      StageKeepsRoom(c, s, m.target, Ids(Views(m)), s');
    case StageFails(m, engine) =>
      HandlingLeaves(c, s, a, s');
      StageFailsMoves(c, s, m, engine, s');
      CurrentAtHead(c, s, m);
      StageKeepsRoom(c, s, m.target, Ids(Views(m)), s');
    case StageFrees(stage, id) => StageFreesKeepsRoom(c, s, stage, id, s');
    case _ => assert false by { OnlyStageActions(c, s, a, s'); }
  }

  lemma TidyStepKeeps(c: Config, s: System, spare: nat, a: Action, s': System)
    requires Inv(c, s) && Shaped(c, s) && Kept(c, s) && RoomAtHead(c, s) && TidyStep(c, s, a, spare)
    requires Next(c, s, a, s') && Shaped(c, s')
    ensures HasPlaces(c, s, a) && Kept(c, s')
  {
    hide Inv, Kept, RoomAtHead, TidyStep, HasPlaces, ClientStep, HeadStep, StageStep, Fitted;
    TidyHasPlaces(c, s, spare, a, s');
    RoomEvictsNobody(c, s, a, s');
    assert s'.evicted == {} by { KeptEvictsNobody(c, s); }
    if ClientStep(c, s, a, s') {
      ClientStepKeepsRoom(c, s, a, s');
    } else if HeadStep(c, s, a, s') {
      HeadStepKeepsRoom(c, s, a, s');
    } else {
      StageStepKeepsRoom(c, s, spare, a, s');
    }
  }

  lemma KeptEvictsNobody(c: Config, s: System)
    requires Shaped(c, s) && Kept(c, s)
    ensures s.evicted == {}
  {
  }

  // ---------------------------------------------------------------- tidy runs

  lemma InitIsKept(c: Config, s: System)
    requires Init(c, s)
    ensures Shaped(c, s) && Kept(c, s)
  {
  }

  lemma TidyIsHeadTidy(c: Config, states: seq<System>, actions: seq<Action>, spare: nat)
    requires Tidy(c, states, actions, spare)
    ensures HeadTidy(c, states, actions, spare)
  {
    hide HeadTidyStep;
    forall k | 0 <= k < |actions| ensures HeadTidyStep(c, states[k], actions[k], spare) {
      assert TidyStep(c, states[k], actions[k], spare);
    }
  }

  lemma {:induction false} TidyRunsAreKept(c: Config, states: seq<System>, actions: seq<Action>, spare: nat, k: nat)
    requires Run(c, states, actions) && Tidy(c, states, actions, spare) && k < |states|
    ensures Shaped(c, states[k]) && Inv(c, states[k]) && Kept(c, states[k])
    ensures k < |actions| ==> HasPlaces(c, states[k], actions[k])
  {
    hide Inv, Kept, Next, TidyStep, HasPlaces, Init, Shaped, HeadTidy, RoomAtHead;
    InvariantHolds(c, states, actions, k);
    InvIsShaped(c, states[k]);
    TidyIsHeadTidy(c, states, actions, spare);
    if k == 0 {
      InitIsKept(c, states[0]);
    } else {
      TidyRunsAreKept(c, states, actions, spare, k - 1);
      TidyHeadNeverEvicts(c, states, actions, spare, k - 1);
      assert Next(c, states[k - 1], actions[k - 1], states[k - 1 + 1]);
      assert TidyStep(c, states[k - 1], actions[k - 1], spare);
      TidyStepKeeps(c, states[k - 1], spare, actions[k - 1], states[k]);
    }
    if k < |actions| {
      TidyHeadNeverEvicts(c, states, actions, spare, k);
      assert Next(c, states[k], actions[k], states[k + 1]);
      assert TidyStep(c, states[k], actions[k], spare);
      TidyHasPlaces(c, states[k], spare, actions[k], states[k + 1]);
    }
  }

  /** Tidy runs never take the eviction branch, on any stage. */
  lemma TidyRunsNeverEvict(c: Config, states: seq<System>, actions: seq<Action>, spare: nat)
    requires Run(c, states, actions) && Tidy(c, states, actions, spare)
    ensures NoEviction(c, states, actions)
    ensures forall k | 0 <= k < |states| :: states[k].evicted == {}
  {
    hide Next, TidyStep, HasPlaces, Init, Kept, Inv, Shaped;
    forall k | 0 <= k < |states|
      ensures states[k].evicted == {}
      ensures k < |actions| ==> Shaped(c, states[k]) && HasPlaces(c, states[k], actions[k])
    {
      TidyRunsAreKept(c, states, actions, spare, k);
      KeptEvictsNobody(c, states[k]);
    }
  }

  /** So in a tidy run everybody is told exactly what a run of its own could have told it. */
  lemma TidyRunsAreInvisible(c: Config, states: seq<System>, actions: seq<Action>, spare: nat, k: nat, id: Id)
    requires Run(c, states, actions) && Tidy(c, states, actions, spare)
    requires k < |states| && id in states[k].asked
    ensures id in states[k].head.streams
    ensures Transcript(c, states[k].asked[id], states[k].head.streams[id])
    ensures id in states[k].head.tickets || id in states[k].cancelled || Closed(states[k].head.streams[id])
  {
    TidyRunsNeverEvict(c, states, actions, spare);
    hide Run, Tidy, NoEviction, Transcript, Closed;
    BatchingIsInvisible(c, states, actions, k, id);
  }

  /** A tidy run leaks nothing on later stages either: they hold what the head holds, and what they are to free. */
  lemma TidyRunsLeakNothing(c: Config, states: seq<System>, actions: seq<Action>, spare: nat, k: nat, stage: nat,
                            id: Id)
    requires Run(c, states, actions) && Tidy(c, states, actions, spare) && k < |states|
    requires 0 < stage < |states[k].engines| && id in states[k].engines[stage].slots
    ensures id in states[k].engines[0].slots || (stage, id) in states[k].frees
    ensures || id in Ids(states[k].head.queue.running)
            || id in states[k].parting
            || id in states[k].head.toRelease
            || (stage, id) in states[k].frees
  {
    TidyRunsAreKept(c, states, actions, spare, k);
    hide Inv, Run;
    if id in states[k].engines[0].slots { HeadLeaksNothing(c, states, actions, k, id); }
  }
}
