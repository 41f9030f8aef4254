/**
 Exactly when somebody loses a slot: in any run, a step that computes takes the eviction branch if and
 only if its stage has no place for everybody. Along the way: no stage is ever full beyond its places,
 and no stage ever finds rows that do not add up to the members' widths.
 */
module PipelinePlaces {
  import opened Wrappers
  import opened FiniteSets
  import opened Transformer
  import opened Sequences
  import opened BatchWire
  import opened Scheduling
  import opened Engines
  import opened Heads
  import opened Pipeline
  import opened PipelineInvariant
  import opened PipelineRounds
  import opened PipelineCompute
  import opened PipelineStages
  import opened PipelineLedger
  import opened PipelineTheorems

  // ---------------------------------------------------------------- one step over a batch

  lemma TouchedIsWithin(shard: Shard, e: Engine, id: Id)
    requires shard.Valid() && |e.slots| <= shard.capacity
    ensures |Touched(shard, e, id).slots.Keys| <= shard.capacity
  {
    if id !in e.slots {
      var keys := Touched(shard, e, id).slots.Keys;
      assert |e.slots| == |e.slots.Keys|;
      if |e.slots| >= shard.capacity {
        var oldest := Oldest(e.slots);
        assert oldest in e.slots.Keys && keys == e.slots.Keys - {oldest} + {id};
      } else {
        assert keys == e.slots.Keys + {id};
      }
    }
  }

  lemma ForwardedWithin(shard: Shard, e: Engine, id: Id, at: seq<nat>, rows: seq<Row>)
    requires Fitted(shard, e) && |e.slots| <= shard.capacity
    ensures |Forwarded(shard, e, id, at, rows).0.slots| <= shard.capacity
  {
    TouchedIsWithin(shard, e, id);
    var after, touched := Forwarded(shard, e, id, at, rows).0, Touched(shard, e, id);
    hide RunLayers, Fitted, Touched;
    assert after.slots.Keys == touched.slots.Keys;
    assert |after.slots| == |after.slots.Keys|;
  }

  lemma {:induction false} BatchWithin(shard: Shard, e: Engine, batch: seq<Request>, pieces: seq<seq<Row>>,
                                       first: bool, count: nat)
    requires Fitted(shard, e) && |e.slots| <= shard.capacity && count <= |batch| == |pieces|
    ensures |BatchForwarded(shard, e, batch, pieces, first, count).0.slots| <= shard.capacity
  {
    hide Forwarded;
    if count > 0 {
      BatchWithin(shard, e, batch, pieces, first, count - 1);
      var before := BatchForwarded(shard, e, batch, pieces, first, count - 1).0;
      var r := batch[count - 1];
      ForwardedWithin(shard, before, r.id, Where(r, first).0, pieces[count - 1]);
    }
  }

  /** Somebody who had a slot, or was to get one, has none. */
  predicate Loses(before: Engine, after: Engine, ids: set<Id>) {
    after.slots.Keys != before.slots.Keys + ids
  }

  /**
   A step over a batch costs somebody a slot if and only if there are not places for everybody, and then
   it is somebody who is counted.
   */
  lemma SlotsAreLostIff(shard: Shard, e: Engine, batch: seq<Request>, pieces: seq<seq<Row>>, first: bool)
    requires Fitted(shard, e) && |e.slots| <= shard.capacity && |pieces| == |batch| && DistinctIds(batch)
    ensures Loses(e, BatchForwarded(shard, e, batch, pieces, first, |batch|).0, Ids(batch))
       <==> !HasRoom(shard, e, Ids(batch))
    ensures Lost(shard, e, batch, pieces, first, |batch|) != {} <==> !HasRoom(shard, e, Ids(batch))
  {
    hide DistinctIds, MembersAlone, BatchForwarded, Lost, Fitted;
    BatchWithin(shard, e, batch, pieces, first, |batch|);
    MembersStayApart(shard, e, batch, pieces, first);
    if HasRoom(shard, e, Ids(batch)) { RoomLosesNobody(shard, e, batch, pieces, first, |batch|); }
    hide Ids;
    var after := BatchForwarded(shard, e, batch, pieces, first, |batch|).0;
    assert |after.slots| == |after.slots.Keys|;
    if Lost(shard, e, batch, pieces, first, |batch|) == {} { NobodyLost(e, after, Ids(batch)); }
  }

  // ---------------------------------------------------------------- what every run keeps

  ghost predicate WithinPlaces(c: Config, engines: seq<Engine>) {
    forall stage | 0 <= stage < |engines| :: |engines[stage].slots| <= c.capacity
  }

  /** A message on its way names requests, each once, and carries as many rows as they are due. */
  ghost predicate WellPacked(m: Activations, asked: map<Id, Request>) {
    Readable(m, asked) && |m.rows| == Total(Widths(Views(m), m.first))
  }

  ghost predicate Posted(c: Config, activations: set<Activations>, asked: map<Id, Request>)
    requires c.Valid()
  {
    forall m | m in activations :: 0 < m.target < c.Stages() && WellPacked(m, asked)
  }

  ghost predicate Orderly(c: Config, s: System) {
    && c.Valid()
    && Ledger(c, s)
    && WithinPlaces(c, s.engines)
    && Posted(c, s.activations, s.asked)
  }

  lemma {:induction false} EveryWidthAdds(batch: seq<Request>, first: bool)
    requires HasRows(batch, first)
    ensures Total(Widths(batch, first)) >= |batch|
  {
    if batch != [] {
      var front := batch[..|batch| - 1];
      assert forall r | r in front :: r in batch;
      EveryWidthAdds(front, first);
      assert Widths(batch, first)[..|batch| - 1] == Widths(front, first);
      assert batch[|batch| - 1] in batch;
    }
  }

  /** Such a message is never refused for its rows. */
  lemma WellPackedComesIn(shard: Shard, m: Activations, asked: map<Id, Request>)
    requires WellPacked(m, asked)
    ensures Incoming(shard, Views(m), Some(m.rows), m.first).Ok?
  {
    EveryWidthAdds(Views(m), m.first);
    assert |Views(m)| > 0;
  }

  lemma NewNamesKeepMail(c: Config, activations: set<Activations>, asked: map<Id, Request>, r: Request)
    requires c.Valid() && Posted(c, activations, asked)
    ensures Posted(c, activations, asked[r.id := r])
  {
  }

  lemma ClientOrderly(c: Config, s: System, a: Action, s': System)
    requires Orderly(c, s) && ClientStep(c, s, a, s')
    ensures Orderly(c, s')
  {
    hide Ledger, WithinPlaces, Posted;
    ClientLedger(c, s, a, s');
    if a.Submit? { NewNamesKeepMail(c, s.activations, s.asked, a.request); }
  }

  /** What the head sends. */
  lemma HeadPosts(c: Config, s: System, m: Activations)
    requires Ledger(c, s) && Shaped(c, s) && s.phase.Computing? && HasRows(s.phase.batch, s.phase.first)
    requires var (batch, first) := (s.phase.batch, s.phase.first);
             c.Stages() > 1 && m == Activations(m.batchId, 1, first, Packed(batch, first),
                                                HeadOutcome(c, s, batch, first).1.rows)
    ensures WellPacked(m, s.asked)
  {
    RoundIsEnrolled(c, s);
    SentBatch(s.phase.batch, s.phase.first, s.asked);
    hide Ledger;
    SameWidths(s.phase.batch, Views(m), s.phase.first);
    HeadRows(c, s, s.phase.batch, s.phase.first);
  }

  lemma SameWidths(batch: seq<Request>, views: seq<Request>, first: bool)
    requires |views| == |batch| && forall k | 0 <= k < |batch| :: views[k] == OnStage(batch[k], first)
    ensures Widths(views, first) == Widths(batch, first)
  {
  }

  lemma RowsOfPieces(shard: Shard, e: Engine, batch: seq<Request>, pieces: seq<seq<Row>>, first: bool)
    requires Fitted(shard, e) && |pieces| == |batch| && Lengths(pieces) == Widths(batch, first)
    ensures var out := BatchForwarded(shard, e, batch, pieces, first, |batch|).1;
            |Glue(out)| == Total(Widths(batch, first))
  {
    var out := BatchForwarded(shard, e, batch, pieces, first, |batch|).1;
    GlueLength(out);
    WidthsOfPieces(pieces, out);
  }

  lemma HeadRows(c: Config, s: System, batch: seq<Request>, first: bool)
    requires Shaped(c, s) && HasRows(batch, first) && c.Stages() > 1
    ensures |HeadOutcome(c, s, batch, first).1.rows| == Total(Widths(batch, first))
  {
    RowsOfPieces(c.ShardOf(0), s.engines[0], batch, Embedded(c.model, batch, first), first);
    hide BatchForwarded, Embedded;
  }

  /** The engines and messages after a step over a batch, whatever the batch. */
  lemma SteppedWithin(shard: Shard, e: Engine, batch: seq<Request>, incoming: Option<seq<Row>>, first: bool)
    requires Fitted(shard, e) && HasRows(batch, first) && |e.slots| <= shard.capacity
    ensures |Stepped(shard, e, batch, incoming, first).0.slots| <= shard.capacity
  {
    var fed := Incoming(shard, batch, incoming, first);
    hide Incoming, BatchForwarded;
    if fed.Ok? { BatchWithin(shard, e, batch, fed.value, first, |batch|); }
  }

  /** One engine changes and stays within its places. */
  lemma OneEngineWithin(c: Config, engines: seq<Engine>, at: nat, engine: Engine)
    requires WithinPlaces(c, engines) && at < |engines| && |engine.slots| <= c.capacity
    ensures WithinPlaces(c, engines[at := engine])
  {
  }

  /** The head computes nothing in this step, or fails. */
  lemma OtherHeadSteps(c: Config, s: System, a: Action, s': System)
    requires Shaped(c, s) && WithinPlaces(c, s.engines) && HeadStep(c, s, a, s') && !a.Compute?
    ensures WithinPlaces(c, s'.engines) && s'.activations == s.activations && s'.asked == s.asked
  {
    hide WithinPlaces, Delivered, Failed, NextBatch, Freed;
    match a
    case Drain =>
      FewerSlots(s.engines[0], s.head.toRelease[0]);
      HeadWithin(c, s);
      OneEngineWithin(c, s.engines, 0, Freed(s.engines[0], s.head.toRelease[0]));
    case ComputeFails(engine) =>
      HeadWithin(c, s);
      OneEngineWithin(c, s.engines, 0, engine);
    case _ =>
  }

  lemma HeadWithin(c: Config, s: System)
    requires s.engines != [] && WithinPlaces(c, s.engines)
    ensures |s.engines[0].slots| <= c.capacity
  {
  }

  lemma HeadOrderly(c: Config, s: System, a: Action, s': System)
    requires Orderly(c, s) && Shaped(c, s) && HeadStep(c, s, a, s')
    ensures Orderly(c, s')
  {
    HeadLedger(c, s, a, s');
    if a.Compute? {
      HeadComputes(c, s, a.batchId, a.draws, s');
      HeadWithin(c, s);
      var after := Stepped(c.ShardOf(0), s.engines[0], s.phase.batch, None, s.phase.first).0;
      SteppedWithin(c.ShardOf(0), s.engines[0], s.phase.batch, None, s.phase.first);
      hide Ledger, Posted, HeadStep, WithinPlaces, Stepped;
      OneEngineWithin(c, s.engines, 0, after);
    } else {
      hide Ledger, Posted, HeadStep, WithinPlaces;
      OtherHeadSteps(c, s, a, s');
    }
  }

  lemma FewerSlots(e: Engine, id: Id)
    ensures |Freed(e, id).slots| <= |e.slots|
  {
    SubsetIsSmaller(Freed(e, id).slots.Keys, e.slots.Keys);
    assert |Freed(e, id).slots| == |Freed(e, id).slots.Keys| && |e.slots| == |e.slots.Keys|;
  }

  lemma HeadComputes(c: Config, s: System, batchId: BatchId, draws: seq<Draw>, s': System)
    requires Orderly(c, s) && Shaped(c, s) && HeadStep(c, s, Compute(batchId, draws), s')
    ensures Posted(c, s'.activations, s'.asked) && s'.asked == s.asked
    ensures s'.engines == s.engines[0 := Stepped(c.ShardOf(0), s.engines[0], s.phase.batch, None, s.phase.first).0]
  {
    hide Ledger, Stepped, WellPacked;
    if c.Stages() > 1 {
      var (batch, first) := (s.phase.batch, s.phase.first);
      var m := Activations(batchId, 1, first, Packed(batch, first), HeadOutcome(c, s, batch, first).1.rows);
      HeadPosts(c, s, m);
    }
  }

  // ---------------------------------------------------------------- later stages

  /** What a stage makes of a message: it steps over the members, and sends on as many rows as it got. */
  lemma StagePosts(c: Config, s: System, m: Activations, draws: seq<Draw>)
    requires Shaped(c, s) && 0 < m.target < c.Stages() && WellPacked(m, s.asked) && |draws| == |m.members|
    ensures Incoming(c.ShardOf(m.target), Views(m), Some(m.rows), m.first).Ok?
    ensures var pieces := Incoming(c.ShardOf(m.target), Views(m), Some(m.rows), m.first).value;
            var (after, outcome) := StageOutcome(c, s.engines[m.target], m, draws);
            && after == BatchForwarded(c.ShardOf(m.target), s.engines[m.target], Views(m), pieces, m.first,
                                       |Views(m)|).0
            && (outcome.Ok? ==> 0 < outcome.value.target < c.Stages() && WellPacked(outcome.value, s.asked))
  {
    var shard, e := c.ShardOf(m.target), s.engines[m.target];
    WellPackedComesIn(shard, m, s.asked);
    hide Incoming, BatchForwarded, SampledBatch, LastRows, Fitted, HasRows, DistinctIds, Widths, Ids, Glue, Total,
         Lengths;
    var pieces := Incoming(shard, Views(m), Some(m.rows), m.first).value;
    IncomingWidths(shard, Views(m), Some(m.rows), m.first);
    RowsOfPieces(shard, e, Views(m), pieces, m.first);
  }

  lemma StageComputesOrderly(c: Config, s: System, m: Activations, draws: seq<Draw>, s': System)
    requires Orderly(c, s) && Shaped(c, s) && StageStep(c, s, StageComputes(m, draws), s')
    ensures WithinPlaces(c, s'.engines) && Posted(c, s'.activations, s'.asked)
  {
    hide Ledger, WellPacked, StageOutcome, BatchForwarded, Incoming;
    StagePosts(c, s, m, draws);
    var pieces := Incoming(c.ShardOf(m.target), Views(m), Some(m.rows), m.first).value;
    BatchWithin(c.ShardOf(m.target), s.engines[m.target], Views(m), pieces, m.first, |Views(m)|);
    OneEngineWithin(c, s.engines, m.target, StageOutcome(c, s.engines[m.target], m, draws).0);
    hide WithinPlaces, Views;
  }

  lemma OtherStageSteps(c: Config, s: System, a: Action, s': System)
    requires Orderly(c, s) && Shaped(c, s) && StageStep(c, s, a, s') && !a.StageComputes?
    ensures WithinPlaces(c, s'.engines) && Posted(c, s'.activations, s'.asked)
  {
    hide Ledger, WellPacked;
    match a
    case StageFails(m, engine) =>
      OneEngineWithin(c, s.engines, m.target, engine);
    case StageFrees(stage, id) =>
      FewerSlots(s.engines[stage], id);
      OneEngineWithin(c, s.engines, stage, Freed(s.engines[stage], id));
    case _ =>
  }

  lemma StageOrderly(c: Config, s: System, a: Action, s': System)
    requires Orderly(c, s) && Shaped(c, s) && StageStep(c, s, a, s')
    ensures Orderly(c, s')
  {
    StageLedger(c, s, a, s');
    hide Ledger, Posted, StageStep, WithinPlaces;
    if a.StageComputes? {
      StageComputesOrderly(c, s, a.message, a.draws, s');
    } else {
      OtherStageSteps(c, s, a, s');
    }
  }

  lemma StepOrderly(c: Config, s: System, a: Action, s': System)
    requires Orderly(c, s) && Next(c, s, a, s')
    ensures Orderly(c, s')
  {
    hide Orderly, ClientStep, HeadStep, StageStep;
    if ClientStep(c, s, a, s') {
      ClientOrderly(c, s, a, s');
    } else if HeadStep(c, s, a, s') {
      HeadOrderly(c, s, a, s');
    } else {
      StageOrderly(c, s, a, s');
    }
  }

  lemma InitOrderly(c: Config, s: System)
    requires Init(c, s)
    ensures Orderly(c, s)
  {
    InitLedger(c, s);
    hide Ledger;
  }

  lemma {:induction false} OrderlyHolds(c: Config, states: seq<System>, actions: seq<Action>, k: nat)
    requires Run(c, states, actions) && k < |states|
    ensures Orderly(c, states[k])
  {
    hide Orderly, Next, Init;
    if k == 0 {
      InitOrderly(c, states[0]);
    } else {
      OrderlyHolds(c, states, actions, k - 1);
      assert Next(c, states[k - 1], actions[k - 1], states[k - 1 + 1]);
      StepOrderly(c, states[k - 1], actions[k - 1], states[k]);
    }
  }

  // ---------------------------------------------------------------- the results

  /** A stage that computes on a message finds it well packed. */
  lemma HandledIsWellPacked(c: Config, s: System, a: Action, s': System)
    requires Orderly(c, s) && Next(c, s, a, s') && a.StageComputes?
    ensures a.message in s.activations && 0 < a.message.target < c.Stages() && WellPacked(a.message, s.asked)
  {
    hide Ledger, WithinPlaces, StageOutcome, StageLost, WellPacked, Fitted, Unpacked, HasRows;
  }

  /** In any run, whatever the network does, a stage that computes on a message can cut its rows. */
  lemma StagesNeverSeeAMismatch(c: Config, states: seq<System>, actions: seq<Action>, k: nat)
    requires Run(c, states, actions) && k < |actions| && actions[k].StageComputes?
    ensures var m := actions[k].message;
            && c.Valid() && 0 < m.target < c.Stages()
            && Incoming(c.ShardOf(m.target), Views(m), Some(m.rows), m.first).Ok?
  {
    OrderlyHolds(c, states, actions, k);
    assert Next(c, states[k], actions[k], states[k + 1]);
    hide Ledger, WithinPlaces, Posted, Run, Next, Incoming, WellPacked, Views;
    HandledIsWellPacked(c, states[k], actions[k], states[k + 1]);
    WellPackedComesIn(c.ShardOf(actions[k].message.target), actions[k].message, states[k].asked);
  }

  /** In this step somebody loses a slot: one of the batch, or anybody else for the batch's sake. */
  ghost predicate Evicts(c: Config, s: System, a: Action, s': System)
    requires Shaped(c, s) && |s'.engines| == |s.engines|
  {
    match a
    case Compute(_, _) => Loses(s.engines[0], s'.engines[0], Ids(Batch(s.phase)))
    case StageComputes(m, _) =>
      0 < m.target < c.Stages() && Loses(s.engines[m.target], s'.engines[m.target], Ids(Views(m)))
    case ComputeFails(_) => !(s.engines[0].slots.Keys <= s'.engines[0].slots.Keys)
    case StageFails(m, _) =>
      0 < m.target < c.Stages() && !(s.engines[m.target].slots.Keys <= s'.engines[m.target].slots.Keys)
    case _ => false
  }

  predicate Raises(a: Action) {
    a.ComputeFails? || a.StageFails?
  }

  lemma HeadEngineAfter(c: Config, s: System, batchId: BatchId, draws: seq<Draw>, s': System)
    requires Shaped(c, s) && HeadStep(c, s, Compute(batchId, draws), s')
    ensures s.phase.Computing? && HasRows(s.phase.batch, s.phase.first)
    ensures s'.engines == s.engines[0 := BatchForwarded(
              c.ShardOf(0), s.engines[0], s.phase.batch, Embedded(c.model, s.phase.batch, s.phase.first),
              s.phase.first, |s.phase.batch|).0]
    ensures s'.evicted == s.evicted + HeadLost(c, s, s.phase.batch, s.phase.first)
    ensures s'.head == s.head && s'.asked == s.asked && !s'.phase.Drained? && !s'.phase.Computing?
  {
    hide BatchForwarded, Embedded, HeadLost, LastRows, Glue, HasRows, Fitted, SampledBatch, Packed;
  }

  lemma HeadEvicts(c: Config, s: System, batchId: BatchId, draws: seq<Draw>, s': System)
    requires Orderly(c, s) && Shaped(c, s) && HeadStep(c, s, Compute(batchId, draws), s')
    ensures |s'.engines| == |s.engines|
    ensures Evicts(c, s, Compute(batchId, draws), s') <==> !HasPlaces(c, s, Compute(batchId, draws))
    ensures EvictedBy(c, s, Compute(batchId, draws)) != {} <==> !HasPlaces(c, s, Compute(batchId, draws))
  {
    HeadEngineAfter(c, s, batchId, draws, s');
    hide HeadStep, Posted, Lost, Loses, HasRoom, DistinctIds, Ids, BatchForwarded, Embedded, HasRows, Fitted;
    HeadWithin(c, s);
    RoundIsEnrolled(c, s);
    hide Ledger, WithinPlaces;
    SlotsAreLostIff(c.ShardOf(0), s.engines[0], s.phase.batch, Embedded(c.model, s.phase.batch, s.phase.first),
                    s.phase.first);
  }

  lemma StageEvicts(c: Config, s: System, m: Activations, draws: seq<Draw>, s': System)
    requires Orderly(c, s) && Shaped(c, s) && StageStep(c, s, StageComputes(m, draws), s')
    ensures |s'.engines| == |s.engines|
    ensures Evicts(c, s, StageComputes(m, draws), s') <==> !HasPlaces(c, s, StageComputes(m, draws))
    ensures EvictedBy(c, s, StageComputes(m, draws)) != {} <==> !HasPlaces(c, s, StageComputes(m, draws))
  {
    hide Ledger, StageOutcome, BatchForwarded, Incoming, Lost, Loses, HasRoom, StageLost, Ids, Fitted, HasRows,
         Unpacked;
    StagePosts(c, s, m, draws);
    var pieces := Incoming(c.ShardOf(m.target), Views(m), Some(m.rows), m.first).value;
    StageLostIs(c, s.engines[m.target], m, pieces);
    SlotsAreLostIff(c.ShardOf(m.target), s.engines[m.target], Views(m), pieces, m.first);
  }

  lemma FailingEvicts(c: Config, s: System, a: Action, s': System)
    requires Shaped(c, s) && Next(c, s, a, s') && Raises(a)
    ensures |s'.engines| == |s.engines| && (Evicts(c, s, a, s') ==> !HasPlaces(c, s, a))
    ensures Evicts(c, s, a, s') <==> EvictedBy(c, s, a) != {}
  {
    hide HasRoom, Fitted, Ids, HasRows, Unpacked;
    if a.ComputeFails? {
      DroppedMeansGone(s.engines[0], a.engine);
    } else {
      DroppedMeansGone(s.engines[a.message.target], a.engine);
    }
  }

  lemma DroppedMeansGone(before: Engine, after: Engine)
    ensures Ousted(before, after) != {} <==> !(before.slots.Keys <= after.slots.Keys)
  {
    if !(before.slots.Keys <= after.slots.Keys) {
      var id :| id in before.slots.Keys && id !in after.slots.Keys;
      assert id in Ousted(before, after);
    }
  }

  lemma StepEvicts(c: Config, s: System, a: Action, s': System)
    requires Orderly(c, s) && Next(c, s, a, s')
    ensures |s'.engines| == |s.engines|
    ensures Evicts(c, s, a, s') ==> !HasPlaces(c, s, a)
    ensures !Raises(a) ==> (Evicts(c, s, a, s') <==> !HasPlaces(c, s, a))
    ensures Evicts(c, s, a, s') <==> EvictedBy(c, s, a) != {}
  {
    hide Orderly, Spoilt, StageOutcome, HeadOutcome, Delivered, Failed, NextBatch, Loses, HeadLost, StageLost, Ousted,
         HasRoom, Ids, Fitted, Unpacked, HasRows;
    match a
    case Compute(batchId, draws) => HeadEvicts(c, s, batchId, draws, s');
    case StageComputes(m, draws) => StageEvicts(c, s, m, draws, s');
    case ComputeFails(_) => FailingEvicts(c, s, a, s');
    case StageFails(_, _) => FailingEvicts(c, s, a, s');
    case _ =>
  }

  /**
   In any run, a step that computes costs somebody a slot if and only if its stage lacks a place for
   somebody; a step that raises does so only if it lacks one. Those are the steps that count somebody
   as evicted.
   */
  lemma SlotsAreLostForWantOfPlaces(c: Config, states: seq<System>, actions: seq<Action>, k: nat)
    requires Run(c, states, actions) && k < |actions|
    ensures Shaped(c, states[k]) && |states[k + 1].engines| == |states[k].engines|
    ensures Evicts(c, states[k], actions[k], states[k + 1]) ==> !HasPlaces(c, states[k], actions[k])
    ensures !Raises(actions[k]) ==>
              (Evicts(c, states[k], actions[k], states[k + 1]) <==> !HasPlaces(c, states[k], actions[k]))
    ensures Evicts(c, states[k], actions[k], states[k + 1]) <==> EvictedBy(c, states[k], actions[k]) != {}
  {
    OrderlyHolds(c, states, actions, k);
    assert Next(c, states[k], actions[k], states[k + 1]);
    hide Orderly, Run, HasPlaces, Evicts, ClientStep, HeadStep, StageStep, EvictedBy;
    StepEvicts(c, states[k], actions[k], states[k + 1]);
  }

  lemma StepCounts(c: Config, s: System, a: Action, s': System)
    requires Next(c, s, a, s')
    ensures s'.evicted == s.evicted + EvictedBy(c, s, a)
  {
    hide ClientStep, HeadStep, StageStep, Fitted, EvictedBy;
    if ClientStep(c, s, a, s') {
      ClientsCountNobody(c, s, a, s');
    } else if HeadStep(c, s, a, s') {
      HeadCounts(c, s, a, s');
    } else {
      StageCounts(c, s, a, s');
    }
  }

  lemma ClientsCountNobody(c: Config, s: System, a: Action, s': System)
    requires Shaped(c, s) && ClientStep(c, s, a, s')
    ensures s'.evicted == s.evicted && EvictedBy(c, s, a) == {}
  {
    hide Added, Finished;
  }

  /** At any moment of a run, nobody is counted as evicted if and only if nobody has lost a slot. */
  lemma {:induction false} EvictedMeansLost(c: Config, states: seq<System>, actions: seq<Action>, k: nat)
    requires Run(c, states, actions) && k <= |actions|
    ensures forall j | 0 <= j < k :: Shaped(c, states[j]) && |states[j + 1].engines| == |states[j].engines|
    ensures states[k].evicted == {} <==> forall j | 0 <= j < k :: !Evicts(c, states[j], actions[j], states[j + 1])
  {
    hide Next, HasPlaces, Evicts, EvictedBy;
    if k > 0 {
      EvictedMeansLost(c, states, actions, k - 1);
      SlotsAreLostForWantOfPlaces(c, states, actions, k - 1);
      assert Next(c, states[k - 1], actions[k - 1], states[k - 1 + 1]);
      StepCounts(c, states[k - 1], actions[k - 1], states[k]);
    }
  }

  /** A run in which nothing raises takes no eviction branch if and only if nobody ever loses a slot. */
  lemma NobodyLosesWithoutEviction(c: Config, states: seq<System>, actions: seq<Action>)
    requires Run(c, states, actions) && forall k | 0 <= k < |actions| :: !Raises(actions[k])
    ensures NoEviction(c, states, actions) <==> states[|actions|].evicted == {}
    ensures forall k | 0 <= k < |actions| :: Shaped(c, states[k]) && |states[k + 1].engines| == |states[k].engines|
    ensures NoEviction(c, states, actions) <==>
              forall k | 0 <= k < |actions| :: !Evicts(c, states[k], actions[k], states[k + 1])
  {
    hide Next, HasPlaces, Evicts;
    forall k | 0 <= k < |actions|
      ensures Shaped(c, states[k]) && |states[k + 1].engines| == |states[k].engines|
      ensures Evicts(c, states[k], actions[k], states[k + 1]) <==> !HasPlaces(c, states[k], actions[k])
    {
      SlotsAreLostForWantOfPlaces(c, states, actions, k);
    }
    if NoEviction(c, states, actions) {
      forall k | 0 <= k < |actions| ensures !Evicts(c, states[k], actions[k], states[k + 1]) {
        assert HasPlaces(c, states[k], actions[k]);
      }
    } else if forall k | 0 <= k < |actions| :: !Evicts(c, states[k], actions[k], states[k + 1]) {
      forall k | 0 <= k < |actions| ensures Shaped(c, states[k]) && HasPlaces(c, states[k], actions[k]) {
        assert !Evicts(c, states[k], actions[k], states[k + 1]);
      }
    }
    EvictedMeansLost(c, states, actions, |actions|);
  }

  // ---------------------------------------------------------------- who is evicted was asked for

  lemma {:induction false} LostAmong(shard: Shard, e: Engine, batch: seq<Request>, pieces: seq<seq<Row>>, first: bool,
                                     count: nat)
    requires Fitted(shard, e) && count <= |batch| == |pieces|
    ensures Lost(shard, e, batch, pieces, first, count) <= e.slots.Keys + Ids(batch)
    ensures BatchForwarded(shard, e, batch, pieces, first, count).0.slots.Keys <= e.slots.Keys + Ids(batch)
  {
    hide Forwarded, Fitted, Ids, Where, BatchForwarded, Lost;
    if count == 0 {
      NobodyForwarded(shard, e, batch, pieces, first);
    } else {
      var r, at := batch[count - 1], Where(batch[count - 1], first).0;
      LostAmong(shard, e, batch, pieces, first, count - 1);
      var (middle, out) := BatchForwarded(shard, e, batch, pieces, first, count - 1);
      var (after, rows) := Forwarded(shard, middle, r.id, at, pieces[count - 1]);
      BatchForwardedStep(shard, e, batch, pieces, first, count - 1, middle, out, after, rows);
      ForwardedAlone(shard, middle, r.id, at, pieces[count - 1]);
      MemberIsNamed(batch, count - 1);
    }
  }

  lemma HeadLosesTheAsked(c: Config, s: System)
    requires Inv(c, s) && Shaped(c, s) && s.phase.Computing?
    ensures HeadLost(c, s, s.phase.batch, s.phase.first) <= s.asked.Keys
  {
    RoundIsEnrolled(c, s);
    SentBatch(s.phase.batch, s.phase.first, s.asked);
    assert s.engines[0].slots.Keys <= s.asked.Keys;
    hide Inv, Lost, Fitted, Ids, Embedded, HasRows, DistinctIds;
    LostAmong(c.ShardOf(0), s.engines[0], s.phase.batch, Embedded(c.model, s.phase.batch, s.phase.first),
              s.phase.first, |s.phase.batch|);
  }

  lemma StageLosesTheAsked(c: Config, s: System, m: Activations)
    requires Inv(c, s) && Shaped(c, s) && m in s.activations && 0 < m.target < c.Stages()
    ensures StageLost(c, s.engines[m.target], m) <= s.asked.Keys
  {
    RightIsAddressed(c, s);
    MessageIsReadable(c, s, m);
    assert s.engines[m.target].slots.Keys <= s.asked.Keys;
    hide Inv, Lost, Fitted, Ids, Incoming, HasRows, DistinctIds;
    var fed := Incoming(c.ShardOf(m.target), Views(m), Some(m.rows), m.first);
    if fed.Ok? {
      LostAmong(c.ShardOf(m.target), s.engines[m.target], Views(m), fed.value, m.first, |Views(m)|);
    }
  }

  lemma EvictedByAreAsked(c: Config, s: System, a: Action, s': System)
    requires Inv(c, s) && Next(c, s, a, s')
    ensures EvictedBy(c, s, a) <= s.asked.Keys
  {
    match a
    case Compute(_, _) => if s.phase.Computing? { hide Next; HeadLosesTheAsked(c, s); }
    case ComputeFails(_) => assert s.engines[0].slots.Keys <= s.asked.Keys; hide Inv, Next;
    case StageComputes(m, _) =>
      HandledWasThere(c, s, a, s');
      hide Next;
      StageLosesTheAsked(c, s, m);
    case StageFails(m, _) =>
      HandledWasThere(c, s, a, s');
      assert s.engines[m.target].slots.Keys <= s.asked.Keys;
      hide Inv, Next;
    case _ =>
  }

  lemma HandledWasThere(c: Config, s: System, a: Action, s': System)
    requires Next(c, s, a, s') && (a.StageComputes? || a.StageFails?)
    ensures a.message in s.activations && 0 < a.message.target < c.Stages()
  {
    hide StageOutcome, StageLost, HeadOutcome, HeadLost, NextBatch, Delivered, Failed, Spoilt, Unpacked, HasRows,
         Ousted, Fitted;
  }

  /** In any run whoever is counted as evicted was asked for. */
  lemma {:induction false} EvictedWereAsked(c: Config, states: seq<System>, actions: seq<Action>, k: nat)
    requires Run(c, states, actions) && k < |states|
    ensures states[k].evicted <= states[k].asked.Keys
  {
    hide Inv, Next, EvictedBy;
    if k > 0 {
      hide Init;
      EvictedWereAsked(c, states, actions, k - 1);
      InvariantHolds(c, states, actions, k - 1);
      assert Next(c, states[k - 1], actions[k - 1], states[k - 1 + 1]);
      StepCounts(c, states[k - 1], actions[k - 1], states[k]);
      EvictedByAreAsked(c, states[k - 1], actions[k - 1], states[k]);
      AskedStays(c, states[k - 1], actions[k - 1], states[k]);
    }
  }

  lemma AskedStays(c: Config, s: System, a: Action, s': System)
    requires Next(c, s, a, s')
    ensures s.asked.Keys <= s'.asked.Keys
  {
    hide StageOutcome, StageLost, HeadOutcome, HeadLost, NextBatch, Delivered, Failed, Spoilt, Unpacked, HasRows,
         Ousted, Fitted, Added, Finished;
  }
}
