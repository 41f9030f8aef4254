/**
 Where slots come from and where they go, on every stage and in every run, and that the head leaks none:
 between any two steps, whoever holds a slot there runs or is on the way to be released.
 */
module PipelineSlots {
  import opened Wrappers
  import opened Transformer
  import opened Sequences
  import opened BatchWire
  import opened Scheduling
  import opened Engines
  import opened Heads
  import opened Pipeline
  import opened PipelineInvariant
  import opened PipelineCompute
  import opened PipelineStages
  import opened PipelineDelivery
  import opened PipelineTheorems

  /** Whom this stage works on in a step. */
  ghost function WorkedOn(s: System, a: Action, stage: nat): set<Id> {
    match a
    case Compute(_, _) => if stage == 0 then Ids(Batch(s.phase)) else {}
    case ComputeFails(_) => if stage == 0 then Ids(Batch(s.phase)) else {}
    case StageComputes(m, _) => if stage == m.target then Ids(Views(m)) else {}
    case StageFails(m, _) => if stage == m.target then Ids(Views(m)) else {}
    case _ => {}
  }

  /** Whose slot this stage frees in a step. */
  function FreedBy(s: System, a: Action, stage: nat): set<Id> {
    match a
    case Drain => if stage == 0 && s.head.toRelease != [] then {s.head.toRelease[0]} else {}
    case StageFrees(at, id) => if at == stage then {id} else {}
    case _ => {}
  }

  /** Slots have come only for these, and gone only from those. */
  ghost predicate Moved(before: Engine, after: Engine, come: set<Id>, gone: set<Id>) {
    && after.slots.Keys <= before.slots.Keys + come
    && before.slots.Keys <= after.slots.Keys + gone
  }

  lemma SpoiltMoved(shard: Shard, e: Engine, after: Engine, ids: set<Id>, evicted: set<Id>)
    requires Spoilt(shard, e, after, ids) && Ousted(e, after) <= evicted
    ensures Moved(e, after, ids, evicted)
  {
  }

  lemma TouchedMoved(e: Engine, after: Engine, ids: set<Id>, lost: set<Id>, evicted: set<Id>)
    requires OnlyTouched(e, after, ids, lost) && lost <= evicted
    ensures Moved(e, after, ids, evicted) && ids <= after.slots.Keys + evicted
  {
  }

  /** The head steps that touch no slot. */
  lemma HeadRests(c: Config, s: System, a: Action, s': System)
    requires Shaped(c, s) && HeadStep(c, s, a, s') && !a.Drain? && !a.Compute? && !a.ComputeFails?
    ensures s'.engines == s.engines && s'.frees == s.frees
  {
    hide NextBatch, Delivered, Failed, CheckRows;
  }

  lemma HeadComputesMoves(c: Config, s: System, batchId: BatchId, draws: seq<Draw>, s': System)
    requires Inv(c, s) && HeadStep(c, s, Compute(batchId, draws), s')
    ensures |s'.engines| == |s.engines| && s'.engines == s.engines[0 := s'.engines[0]] && s'.frees == s.frees
    ensures s.phase.Computing? && Moved(s.engines[0], s'.engines[0], Ids(s.phase.batch), s'.evicted)
    ensures Ids(s.phase.batch) <= s'.engines[0].slots.Keys + s'.evicted
  {
    RightIsShaped(c, s);
    hide Registered, Queued, Ticketed, LeftForGood, Rounds, Heard, Accounts, Endings, Right, HeadRan, Moved;
    var counted := s.(evicted := s'.evicted);
    assert Shaped(c, counted) by { SameShape(c, s, counted); }
    var after, out := HeadBatchRuns(c, counted);
    ComputedState(c, s, batchId, draws, s', after, out);
    hide HeadStep;
    HeadRanMoves(c, counted, after, out);
  }

  lemma HeadRanMoves(c: Config, s: System, after: Engine, out: seq<seq<Row>>)
    requires Shaped(c, s) && s.phase.Computing? && LossesCounted(c, s) && HeadRan(c, s, after, out)
    ensures Moved(s.engines[0], after, Ids(s.phase.batch), s.evicted)
    ensures Ids(s.phase.batch) <= after.slots.Keys + s.evicted
  {
    hide HeadLost, MembersAlone, HeadOutcome, OnlyTouched, Moved, Embedded, Lengths, Widths, Ids;
    TouchedMoved(s.engines[0], after, Ids(s.phase.batch), HeadLost(c, s, s.phase.batch, s.phase.first), s.evicted);
  }

  lemma HeadFailureMoves(c: Config, s: System, engine: Engine, s': System)
    requires Shaped(c, s) && HeadStep(c, s, ComputeFails(engine), s')
    ensures |s'.engines| == |s.engines| && s'.engines == s.engines[0 := s'.engines[0]] && s'.frees == s.frees
    ensures s.phase.Computing? && Moved(s.engines[0], s'.engines[0], Ids(s.phase.batch), s'.evicted)
  {
    hide Spoilt, Moved, Ousted, Ids;
    SpoiltMoved(c.ShardOf(0), s.engines[0], engine, Ids(s.phase.batch), s'.evicted);
  }

  lemma DrainMoves(c: Config, s: System, s': System)
    requires Shaped(c, s) && HeadStep(c, s, Drain, s')
    ensures |s'.engines| == |s.engines| && s'.engines == s.engines[0 := s'.engines[0]]
    ensures Moved(s.engines[0], s'.engines[0], {}, {s.head.toRelease[0]}) && s.phase.Idle? && s.head.toRelease != []
  {
  }

  lemma HeadMoves(c: Config, s: System, a: Action, s': System, stage: nat)
    requires Inv(c, s) && Shaped(c, s) && HeadStep(c, s, a, s') && stage < c.Stages()
    ensures |s'.engines| == |s.engines|
    ensures Moved(s.engines[stage], s'.engines[stage], WorkedOn(s, a, stage), FreedBy(s, a, stage) + s'.evicted)
  {
    hide Inv, HeadStep, Ids;
    match a
    case Compute(batchId, draws) => HeadComputesMoves(c, s, batchId, draws, s');
    case ComputeFails(engine) => HeadFailureMoves(c, s, engine, s');
    case Drain => DrainMoves(c, s, s');
    case _ => HeadRests(c, s, a, s');
  }

  // ---------------------------------------------------------------- later stages

  /** A stage has run over a message: whoever is named in it has a slot there, or was evicted. */
  lemma StageRanMoves(c: Config, s: System, m: Activations, pieces: seq<seq<Row>>, after: Engine, out: seq<seq<Row>>)
    requires Shaped(c, s) && 0 < m.target < c.Stages() && RanCounted(c, s, m, pieces, after, out)
    ensures Moved(s.engines[m.target], after, Ids(Views(m)), s.evicted)
    ensures Ids(Views(m)) <= after.slots.Keys + s.evicted
  {
    hide MembersAlone, StageLost, Incoming, Lengths, Widths, Views, Ids, Fitted;
  }

  /** Its rows add up, so the stage computes on the message. */
  ghost predicate ComesIn(c: Config, m: Activations)
    requires c.Valid() && 0 < m.target < c.Stages()
  {
    Incoming(c.ShardOf(m.target), Views(m), Some(m.rows), m.first).Ok?
  }

  lemma StageComputesMoves(c: Config, s: System, m: Activations, draws: seq<Draw>, s': System)
    requires Inv(c, s) && Shaped(c, s) && StageStep(c, s, StageComputes(m, draws), s')
    ensures 0 < m.target < c.Stages() && |s'.engines| == |s.engines|
    ensures s'.engines == s.engines[m.target := s'.engines[m.target]]
    ensures Moved(s.engines[m.target], s'.engines[m.target], Ids(Views(m)), s'.evicted)
    ensures ComesIn(c, m) ==> Ids(Views(m)) <= s'.engines[m.target].slots.Keys + s'.evicted
  {
    RightIsAddressed(c, s);
    MessageIsReadable(c, s, m);
    hide Inv, Addressed, Readable, StageOutcome, StageLost, Views, Incoming, Glue, LastRows, SampledBatch, HasRows,
         RanOver, Unpacked, Ids, Moved;
    StageComputedState(c, s, m, draws, s', StageOutcome(c, s.engines[m.target], m, draws).0,
                       StageOutcome(c, s.engines[m.target], m, draws).1);
    var counted := s.(evicted := s'.evicted);
    if !ComesIn(c, m) {
      MismatchIsTrouble(c, s, m, draws);
      assert Moved(s.engines[m.target], s.engines[m.target], Ids(Views(m)), s'.evicted)
        by { StillMoved(s.engines[m.target], Ids(Views(m)), s'.evicted); }
    } else {
      var pieces, after, out := StageRuns(c, counted, m, draws);
      StageRanMoves(c, counted, m, pieces, after, out);
    }
  }

  lemma StillMoved(e: Engine, come: set<Id>, gone: set<Id>)
    ensures Moved(e, e, come, gone)
  {
  }

  lemma StageFailsMoves(c: Config, s: System, m: Activations, engine: Engine, s': System)
    requires Shaped(c, s) && StageStep(c, s, StageFails(m, engine), s')
    ensures 0 < m.target < c.Stages() && |s'.engines| == |s.engines|
    ensures s'.engines == s.engines[m.target := s'.engines[m.target]]
    ensures Moved(s.engines[m.target], s'.engines[m.target], Ids(Views(m)), s'.evicted)
  {
    hide Spoilt, Moved, Ousted, Ids, Unpacked;
    SpoiltMoved(c.ShardOf(m.target), s.engines[m.target], engine, Ids(Views(m)), s'.evicted);
  }

  lemma StageFreesMoves(c: Config, s: System, at: nat, id: Id, s': System)
    requires Shaped(c, s) && StageStep(c, s, StageFrees(at, id), s')
    ensures 0 < at < c.Stages() && |s'.engines| == |s.engines| && s'.engines == s.engines[at := s'.engines[at]]
    ensures Moved(s.engines[at], s'.engines[at], {}, {id})
  {
    hide Fitted;
  }

  lemma StageMoves(c: Config, s: System, a: Action, s': System, stage: nat)
    requires Inv(c, s) && Shaped(c, s) && StageStep(c, s, a, s') && stage < c.Stages()
    ensures |s'.engines| == |s.engines|
    ensures Moved(s.engines[stage], s'.engines[stage], WorkedOn(s, a, stage), FreedBy(s, a, stage) + s'.evicted)
  {
    hide Inv, StageStep, Views, Ids, Fitted;
    match a
    case StageComputes(m, draws) => StageComputesMoves(c, s, m, draws, s');
    case StageFails(m, engine) => StageFailsMoves(c, s, m, engine, s');
    case StageFrees(at, id) => StageFreesMoves(c, s, at, id, s');
    case _ => assert false by { OnlyStageActions(c, s, a, s'); }
  }

  lemma OnlyStageActions(c: Config, s: System, a: Action, s': System)
    requires Shaped(c, s) && StageStep(c, s, a, s')
    ensures a.StageComputes? || a.StageFails? || a.StageFrees?
  {
  }

  lemma StepMoves(c: Config, s: System, a: Action, s': System, stage: nat)
    requires Inv(c, s) && Next(c, s, a, s') && stage < c.Stages()
    ensures stage < |s.engines| == |s'.engines|
    ensures Moved(s.engines[stage], s'.engines[stage], WorkedOn(s, a, stage), FreedBy(s, a, stage) + s'.evicted)
  {
    hide Inv, HeadStep, StageStep, WorkedOn, FreedBy, Fitted;
    if HeadStep(c, s, a, s') {
      HeadMoves(c, s, a, s', stage);
    } else if StageStep(c, s, a, s') {
      StageMoves(c, s, a, s', stage);
    } else {
      hide Added, Finished;
    }
  }

  /**
   In any run, a step makes slots on a stage only for whom the stage works on then, and the slots that
   go are of whom it frees then, or of somebody counted as evicted.
   */
  lemma SlotsComeAndGo(c: Config, states: seq<System>, actions: seq<Action>, k: nat, stage: nat)
    requires Run(c, states, actions) && k < |actions| && c.Valid() && stage < c.Stages()
    ensures stage < |states[k].engines| == |states[k + 1].engines|
    ensures Moved(states[k].engines[stage], states[k + 1].engines[stage], WorkedOn(states[k], actions[k], stage),
                  FreedBy(states[k], actions[k], stage) + states[k + 1].evicted)
  {
    InvariantHolds(c, states, actions, k);
    assert Next(c, states[k], actions[k], states[k + 1]);
    hide Inv, Run, Next, Moved, WorkedOn, FreedBy;
    StepMoves(c, states[k], actions[k], states[k + 1], stage);
  }

  // ---------------------------------------------------------------- the head's account

  function Named(ids: seq<Id>): set<Id> {
    set id | id in ids
  }

  /** Everybody the head holds a slot for, or is about to compute, runs or is on the way to be released. */
  ghost predicate Accounted(held: set<Id>, p: Phase, running: set<Id>, parting: set<Id>, toRelease: seq<Id>) {
    held + Ids(Batch(p)) <= running + parting + Named(toRelease)
  }

  ghost predicate InAccount(s: System) {
    && s.engines != []
    && Accounted(s.engines[0].slots.Keys, s.phase, Ids(s.head.queue.running), s.parting, s.head.toRelease)
  }

  lemma DrainedIsAccounted(held: set<Id>, p: Phase, running: set<Id>, parting: set<Id>, toRelease: seq<Id>)
    requires Accounted(held, p, running, parting, toRelease) && toRelease != [] && Batch(p) == []
    ensures Accounted(held - {toRelease[0]}, p, running, parting, toRelease[1..])
  {
    assert toRelease == [toRelease[0]] + toRelease[1..];
    assert Named(toRelease) == {toRelease[0]} + Named(toRelease[1..]);
  }

  /** The batch a choice is about runs from then on. */
  lemma ChosenRun(c: Config, q: Queue)
    requires Sound(q, c.limits)
    ensures var (choice, after) := NextBatch(q, c.limits);
            && Ids(q.running) <= Ids(after.running)
            && (!choice.Nothing? ==> Ids(choice.batch) <= Ids(after.running))
  {
    PrefillIsLongestPrefix(q, c.limits, 0);
    var (choice, after) := NextBatch(q, c.limits);
    if choice.Prefill? {
      IdsOfConcat(q.running, choice.batch);
    } else if choice.Decode? {
      AliveIsSome(q.running);
      assert forall r | r in choice.batch :: r in Alive(q.running);
    }
  }

  lemma StillAccounted(held: set<Id>, p: Phase, held': set<Id>, p': Phase, running: set<Id>, after: set<Id>,
                       parting: set<Id>, parting': set<Id>, toRelease: seq<Id>, toRelease': seq<Id>)
    requires Accounted(held, p, running, parting, toRelease)
    requires held' + Ids(Batch(p')) <= held + Ids(Batch(p)) + after
    requires running + parting + Named(toRelease) <= after + parting' + Named(toRelease')
    ensures Accounted(held', p', after, parting', toRelease')
  {
    hide Ids, Named;
  }

  /** The round goes on: the head's slots stay as they were, or have come for members of the batch. */
  lemma RoundStaysInAccount(s: System, s': System)
    requires InAccount(s) && s'.engines != []
    requires s'.engines[0].slots.Keys + Ids(Batch(s'.phase)) <= s.engines[0].slots.Keys + Ids(Batch(s.phase))
    requires s'.parting == s.parting
    requires Ids(s.head.queue.running) + Named(s.head.toRelease)
          <= Ids(s'.head.queue.running) + Named(s'.head.toRelease)
    ensures InAccount(s')
  {
    hide Accounted, Ids, Named;
    StillAccounted(s.engines[0].slots.Keys, s.phase, s'.engines[0].slots.Keys, s'.phase, Ids(s.head.queue.running),
                   Ids(s'.head.queue.running), s.parting, s'.parting, s.head.toRelease, s'.head.toRelease);
  }

  lemma DroppedIsReleased(q: Queue, id: Id, toRelease: seq<Id>)
    ensures Ids(q.running) + Named(toRelease) <= Ids(Finished(q, id).running) + Named(toRelease + [id])
  {
    FinishedLive(q, id);
  }

  lemma DrainStaysInAccount(c: Config, s: System, s': System)
    requires Shaped(c, s) && InAccount(s) && HeadStep(c, s, Drain, s')
    ensures InAccount(s')
  {
    hide Accounted;
    DrainedIsAccounted(s.engines[0].slots.Keys, s.phase, Ids(s.head.queue.running), s.parting, s.head.toRelease);
    assert s'.engines[0].slots.Keys == s.engines[0].slots.Keys - {s.head.toRelease[0]};
  }

  lemma SelectStaysInAccount(c: Config, s: System, s': System)
    requires Shaped(c, s) && InAccount(s) && HeadStep(c, s, Select, s') && Sound(s.head.queue, c.limits)
    ensures InAccount(s')
  {
    ChosenRun(c, s.head.queue);
    hide Sound, NextBatch, Ids, Named;
    var after := NextBatch(s.head.queue, c.limits).1;
    assert Ids(Batch(s'.phase)) <= Ids(after.running) by { NobodyIsChosen(); }
  }

  lemma NobodyIsChosen()
    ensures Ids([]) == {}
  {
  }

  lemma DeliverStaysInAccount(c: Config, s: System, s': System)
    requires Shaped(c, s) && InAccount(s) && HeadStep(c, s, Deliver, s')
    ensures InAccount(s')
  {
    hide InAccount, Ids, Named;
    var r, token := s.phase.batch[s.phase.at], s.phase.tokens[s.phase.at];
    DeliveredHead(s.head, c.eos, r, token);
    hide Delivered;
    DroppedIsReleased(s.head.queue, r.id, s.head.toRelease);
    AppendedIds(s.head.queue.running, r.id, token);
    RoundStaysInAccount(s, s');
  }

  lemma FailStaysInAccount(c: Config, s: System, s': System)
    requires Shaped(c, s) && InAccount(s) && HeadStep(c, s, Action.Fail, s')
    ensures InAccount(s')
  {
    hide InAccount, Ids, Named;
    var id := s.phase.batch[s.phase.at].id;
    FailedHead(s.head, id);
    hide Failed;
    DroppedIsReleased(s.head.queue, id, s.head.toRelease);
    RoundStaysInAccount(s, s');
  }

  /** The head computes on its batch, or fails on it. */
  lemma ComputeStaysInAccount(c: Config, s: System, a: Action, s': System)
    requires Inv(c, s) && Shaped(c, s) && InAccount(s) && HeadStep(c, s, a, s') && (a.Compute? || a.ComputeFails?)
    ensures InAccount(s')
  {
    hide Inv, InAccount, Ids, Named, Fitted;
    HeadMoves(c, s, a, s', 0);
    assert Batch(s'.phase) == Batch(s.phase) && s'.head == s.head && s'.parting == s.parting
      by { hide HeadOutcome, Spoilt; }
    hide HeadStep;
    RoundStaysInAccount(s, s');
  }

  lemma OtherRoundsStayInAccount(c: Config, s: System, a: Action, s': System)
    requires Shaped(c, s) && InAccount(s) && HeadStep(c, s, a, s')
    requires a.DrainedAll? || a.Take? || a.GiveUp? || a.FinishRound?
    ensures InAccount(s')
  {
    hide InAccount, Ids, Named, Fitted;
    NobodyIsChosen();
    RoundStaysInAccount(s, s');
  }

  lemma HeadStaysInAccount(c: Config, s: System, a: Action, s': System)
    requires Inv(c, s) && Shaped(c, s) && InAccount(s) && HeadStep(c, s, a, s')
    ensures InAccount(s')
  {
    assert Sound(s.head.queue, c.limits);
    hide Inv, InAccount, NextBatch, HeadOutcome, HeadLost, Spoilt, Ousted, Delivered, Failed, HasRows, Fitted, Sound;
    match a
    case Drain => DrainStaysInAccount(c, s, s');
    case Select => SelectStaysInAccount(c, s, s');
    case Deliver => DeliverStaysInAccount(c, s, s');
    case Fail => FailStaysInAccount(c, s, s');
    case Compute(_, _) => ComputeStaysInAccount(c, s, a, s');
    case ComputeFails(_) => ComputeStaysInAccount(c, s, a, s');
    case _ => OtherRoundsStayInAccount(c, s, a, s');
  }

  lemma ClientStaysInAccount(c: Config, s: System, a: Action, s': System)
    requires InAccount(s) && ClientStep(c, s, a, s')
    ensures InAccount(s')
  {
    match a
    case Leave(id) => FinishedLive(s.head.queue, id); hide Finished;
    case _ =>
  }

  lemma StageStaysInAccount(c: Config, s: System, a: Action, s': System)
    requires Shaped(c, s) && InAccount(s) && StageStep(c, s, a, s')
    ensures InAccount(s')
  {
    hide StageOutcome, StageLost, Spoilt, Ousted, HasRows, Unpacked, Fitted, Accounted, Ids;
  }

  lemma StepStaysInAccount(c: Config, s: System, a: Action, s': System)
    requires Inv(c, s) && InAccount(s) && Next(c, s, a, s')
    ensures InAccount(s')
  {
    hide Inv, InAccount, ClientStep, HeadStep, StageStep, Fitted;
    if ClientStep(c, s, a, s') {
      ClientStaysInAccount(c, s, a, s');
    } else if HeadStep(c, s, a, s') {
      HeadStaysInAccount(c, s, a, s');
    } else {
      StageStaysInAccount(c, s, a, s');
    }
  }

  lemma {:induction false} AccountHolds(c: Config, states: seq<System>, actions: seq<Action>, k: nat)
    requires Run(c, states, actions) && k < |states|
    ensures InAccount(states[k])
  {
    hide Inv, Next;
    if k > 0 {
      AccountHolds(c, states, actions, k - 1);
      InvariantHolds(c, states, actions, k - 1);
      assert Next(c, states[k - 1], actions[k - 1], states[k - 1 + 1]);
      hide InAccount, Init;
      StepStaysInAccount(c, states[k - 1], actions[k - 1], states[k]);
    }
  }

  /**
   The head leaks nothing: in any run, between any two steps, whoever holds a slot on the head, or is in
   the batch it works on, runs, is being cancelled, or waits to be released.
   */
  lemma HeadLeaksNothing(c: Config, states: seq<System>, actions: seq<Action>, k: nat, id: Id)
    requires Run(c, states, actions) && k < |states|
    requires id in Ids(Batch(states[k].phase)) || (states[k].engines != [] && id in states[k].engines[0].slots)
    ensures || id in Ids(states[k].head.queue.running)
            || id in states[k].parting
            || id in states[k].head.toRelease
  {
    AccountHolds(c, states, actions, k);
  }
}
