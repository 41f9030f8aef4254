/**
 How many places the head needs, with any number of later stages and whatever becomes of its messages:
 when it never takes the eviction branch, and when no request that waits or runs loses its slot on it,
 whichever stale slots have to go.
 */
module PipelineHeadRoom {
  import opened FiniteSets
  import opened Transformer
  import opened Sequences
  import opened BatchWire
  import opened Scheduling
  import opened Engines
  import opened Heads
  import opened Pipeline
  import opened PipelineInvariant
  import opened PipelineRounds
  import opened PipelineDelivery
  import opened PipelineLedger
  import opened PipelineTheorems
  import opened PipelinePlaces
  import opened PipelineSlots

  // ---------------------------------------------------------------- sizes

  lemma {:induction false} IdsAreFew(batch: seq<Request>)
    ensures |Ids(batch)| <= |batch|
  {
    hide Ids;
    if batch != [] {
      IdsAreFew(batch[..|batch| - 1]);
      IdsOfSnoc(batch[..|batch| - 1], batch[|batch| - 1]);
      assert batch == batch[..|batch| - 1] + [batch[|batch| - 1]];
    } else {
      NobodyIsChosen();
    }
  }

  lemma RunningAreFew(c: Config, q: Queue)
    requires Sound(q, c.limits)
    ensures |Ids(q.running)| <= c.limits.maxSequences
  {
    IdsAreFew(q.running);
  }

  /** How many new requests one step takes at most while this many run: the places left, and a token for each. */
  function FreshBeside(c: Config, running: nat): int {
    var places := c.limits.maxSequences - running;
    if places < c.limits.maxBatchTokens then places else c.limits.maxBatchTokens
  }

  lemma {:induction false} PromptsAdd(batch: seq<Request>)
    requires forall r | r in batch :: r.prompt != []
    ensures PromptTokens(batch) >= |batch|
  {
    if batch != [] {
      var front := batch[..|batch| - 1];
      forall r | r in front ensures r.prompt != [] { assert r in batch; }
      PromptsAdd(front);
      assert batch[|batch| - 1] in batch;
    }
  }

  // ---------------------------------------------------------------- only slots from before the step go

  /** What is left of the old slots, and new ones for these, younger than all the old. */
  ghost predicate Grown(e: Engine, after: Engine, names: set<Id>) {
    && Aged(after) && e.clock <= after.clock
    && forall id | id in after.slots ::
         || (id in e.slots && after.slots[id].created == e.slots[id].created)
         || (id in names && after.slots[id].created >= e.clock)
  }

  /** A full stage that drops its oldest drops one of the old slots, if it has any left. */
  lemma OldestWasThere(e: Engine, middle: Engine, names: set<Id>)
    requires Aged(e) && Grown(e, middle, names) && |names| < |middle.slots|
    ensures middle.slots != map[] && Oldest(middle.slots) in e.slots
  {
    assert |middle.slots| == |middle.slots.Keys|;
    if middle.slots.Keys <= names { SubsetIsSmaller(middle.slots.Keys, names); }
    var stale :| stale in middle.slots && stale !in names;
    assert middle.slots[Oldest(middle.slots)].created <= middle.slots[stale].created;
  }

  lemma TouchedGrows(shard: Shard, e: Engine, middle: Engine, names: set<Id>, id: Id)
    requires shard.Valid() && Aged(e) && Grown(e, middle, names) && |names| < shard.capacity
    ensures Grown(e, Touched(shard, middle, id), names + {id})
    ensures middle.slots.Keys - Touched(shard, middle, id).slots.Keys <= e.slots.Keys
  {
    if id !in middle.slots && |middle.slots| >= shard.capacity { OldestWasThere(e, middle, names); }
  }

  lemma ForwardedGrows(shard: Shard, e: Engine, middle: Engine, names: set<Id>, id: Id, at: seq<nat>, rows: seq<Row>)
    requires Fitted(shard, middle) && Aged(e) && Grown(e, middle, names) && |names| < shard.capacity
    ensures var after := Forwarded(shard, middle, id, at, rows).0;
            Grown(e, after, names + {id}) && middle.slots.Keys - after.slots.Keys <= e.slots.Keys
  {
    TouchedGrows(shard, e, middle, names, id);
    hide Touched, RunLayers;
  }

  lemma NothingGrown(e: Engine, names: set<Id>)
    requires Aged(e)
    ensures Grown(e, e, names)
  {
  }

  /** A step over a batch that would fit an empty stage takes nobody's slot but an old one. */
  lemma {:induction false} LostWereThere(shard: Shard, e: Engine, batch: seq<Request>, pieces: seq<seq<Row>>,
                                         first: bool, count: nat)
    requires Fitted(shard, e) && Aged(e) && count <= |batch| == |pieces| && |batch| <= shard.capacity
    ensures Lost(shard, e, batch, pieces, first, count) <= e.slots.Keys
    ensures Grown(e, BatchForwarded(shard, e, batch, pieces, first, count).0, Ids(batch[..count]))
  {
    hide BatchForwarded, Forwarded, Grown, Lost, Aged, Ids, Fitted, Where;
    if count == 0 {
      NobodyForwarded(shard, e, batch, pieces, first);
      NothingGrown(e, Ids(batch[..0]));
    } else {
      var last := count - 1;
      LostWereThere(shard, e, batch, pieces, first, last);
      OneMoreWasThere(shard, e, batch, pieces, first, last);
    }
  }

  lemma OneMoreWasThere(shard: Shard, e: Engine, batch: seq<Request>, pieces: seq<seq<Row>>, first: bool, last: nat)
    requires Fitted(shard, e) && Aged(e) && last < |batch| == |pieces| && |batch| <= shard.capacity
    requires Lost(shard, e, batch, pieces, first, last) <= e.slots.Keys
    requires Grown(e, BatchForwarded(shard, e, batch, pieces, first, last).0, Ids(batch[..last]))
    ensures Lost(shard, e, batch, pieces, first, last + 1) <= e.slots.Keys
    ensures Grown(e, BatchForwarded(shard, e, batch, pieces, first, last + 1).0, Ids(batch[..last + 1]))
  {
    hide BatchForwarded, Forwarded, Grown, Lost, Aged, Ids;
    var r := batch[last];
    var (middle, out) := BatchForwarded(shard, e, batch, pieces, first, last);
    var (after, rows) := Forwarded(shard, middle, r.id, Where(r, first).0, pieces[last]);
    BatchForwardedStep(shard, e, batch, pieces, first, last, middle, out, after, rows);
    IdsAreFew(batch[..last]);
    ForwardedGrows(shard, e, middle, Ids(batch[..last]), r.id, Where(r, first).0, pieces[last]);
    assert batch[..last + 1] == batch[..last] + [r];
    IdsOfSnoc(batch[..last], r);
  }

  // ---------------------------------------------------------------- what runs keep

  /** Places for all who ran at a drain, `spare` cancels half-way, and all whom a step may take besides so many. */
  predicate PlacesBeside(c: Config, spare: nat, running: nat) {
    c.capacity >= c.limits.maxSequences + spare + FreshBeside(c, running)
  }

  /** Whoever runs holds a slot on the head, but for members of a batch that is not computed, or is failing. */
  ghost predicate Holds(s: System)
    requires s.engines != []
  {
    forall id | id in Ids(s.head.queue.running) ::
      id in s.engines[0].slots || ((s.phase.Computing? || s.phase.Failing?) && Awaits(s.phase, id))
  }

  /** The step takes nobody's slot, or the only slots there are are of the dead. */
  ghost predicate Fitting(c: Config, s: System)
    requires Shaped(c, s) && s.phase.Computing?
  {
    HasRoom(c.ShardOf(0), s.engines[0], Ids(s.phase.batch)) || s.engines[0].slots.Keys !! s.head.queue.Live()
  }

  ghost predicate Spares(c: Config, s: System, spare: nat)
    requires Shaped(c, s)
  {
    && Holds(s)
    && Aged(s.engines[0])
    && (s.phase.Drained? ==> |s.engines[0].slots.Keys| <= c.limits.maxSequences + spare)
    && (s.phase.Computing? ==> Fitting(c, s))
  }

  lemma FinishedIsLess(q: Queue, id: Id)
    ensures Finished(q, id).Live() == q.Live() - {id} && Ids(Finished(q, id).running) == Ids(q.running) - {id}
  {
    FinishedLive(q, id);
  }

  lemma ClientSpares(c: Config, s: System, spare: nat, a: Action, s': System)
    requires Shaped(c, s) && Remembered(s.engines, s.asked) && Spares(c, s, spare)
    requires ClientStep(c, s, a, s') && Shaped(c, s')
    ensures Spares(c, s', spare)
    ensures RoomAtHead(c, s) ==> RoomAtHead(c, s')
  {
    assert s.engines[0].slots.Keys <= s.asked.Keys;
    hide Shaped, HasRoom, Remembered, Aged, Ids, Added, Finished, Awaits;
    match a
    case Submit(r) => if s' != s { SubmitSpares(c, s, spare, r, s'); }
    case Leave(id) => FinishedIsLess(s.head.queue, id);
    case _ =>
  }

  /** A new name holds no slot. */
  lemma SubmitSpares(c: Config, s: System, spare: nat, r: Request, s': System)
    requires Shaped(c, s) && s.engines[0].slots.Keys <= s.asked.Keys && Spares(c, s, spare)
    requires ClientStep(c, s, Submit(r), s') && Shaped(c, s') && s' != s
    ensures Spares(c, s', spare)
  {
    AddedLive(s.head.queue, c.limits, r);
    hide Shaped, HasRoom, Aged, Ids, Added, Awaits;
  }

  lemma FreedStaysAged(e: Engine, id: Id)
    requires Aged(e)
    ensures Aged(Freed(e, id))
  {
  }

  /** Whom the head frees neither waits nor runs. */
  lemma DrainSpares(c: Config, s: System, spare: nat, s': System)
    requires Shaped(c, s) && Shaped(c, s') && Spares(c, s, spare) && HeadStep(c, s, Drain, s')
    requires LeftForGood(s.head.queue, s.asked, s.head.toRelease, s.parting, s.frees)
    ensures Spares(c, s', spare)
  {
    hide Fitted, Ids, Awaits, Aged;
    assert s.head.toRelease[0] in s.head.toRelease;
    FreedStaysAged(s.engines[0], s.head.toRelease[0]);
  }

  lemma DrainedAllSpares(c: Config, s: System, spare: nat, s': System)
    requires Shaped(c, s) && Spares(c, s, spare) && HeadStep(c, s, DrainedAll, s') && |s.parting| <= spare
    requires InAccount(s) && Sound(s.head.queue, c.limits)
    ensures Spares(c, s', spare)
  {
    RunningAreFew(c, s.head.queue);
    AccountedAfterDrain(s);
    hide Sound, Fitted, Aged, Ids, InAccount, Awaits;
    SubsetIsSmaller(s.engines[0].slots.Keys, Ids(s.head.queue.running) + s.parting);
    UnionIsSmall(Ids(s.head.queue.running), s.parting);
  }

  lemma AccountedAfterDrain(s: System)
    requires InAccount(s) && s.head.toRelease == []
    ensures s.engines[0].slots.Keys <= Ids(s.head.queue.running) + s.parting
  {
    assert Named([]) == {};
  }

  // ---------------------------------------------------------------- selecting

  /** Whoever waits holds no slot on the head. */
  lemma WaitingHoldNothing(c: Config, s: System)
    requires InAccount(s) && Sound(s.head.queue, c.limits)
    requires LeftForGood(s.head.queue, s.asked, s.head.toRelease, s.parting, s.frees)
    ensures s.engines[0].slots.Keys !! Ids(s.head.queue.waiting)
  {
    DistinctApart(s.head.queue.waiting, s.head.queue.running);
    hide DistinctIds, Ids;
    forall id | id in s.engines[0].slots ensures id !in Ids(s.head.queue.waiting) {
      assert id in Ids(s.head.queue.running) || id in s.parting || id in s.head.toRelease;
    }
  }

  /** What is chosen: a fresh batch of so many at most, or everybody who runs. */
  lemma ChoiceOf(c: Config, s: System)
    requires Ledger(c, s) && s.phase.Drained?
    ensures var (choice, after) := NextBatch(s.head.queue, c.limits);
            && after.Live() == s.head.queue.Live()
            && (choice.Prefill? ==>
                  && 0 < |choice.batch| <= FreshBeside(c, |s.head.queue.running|)
                  && after.running == s.head.queue.running + choice.batch)
            && (choice.Decode? ==> choice.batch == s.head.queue.running == after.running)
            && (choice.Nothing? ==> after == s.head.queue)
  {
    NobodyIsDone(c, s);
    assert Sound(s.head.queue, c.limits);
    PrefillIsLongestPrefix(s.head.queue, c.limits, 0);
    ChoiceLeavesNobodyOut(s.head.queue, c.limits);
    NextBatchKeepsSound(s.head.queue, c.limits);
    WaitingHavePrompts(c, s);
    hide Ledger, Ids, NextBatch, Sound;
    var (choice, after) := NextBatch(s.head.queue, c.limits);
    if choice.Prefill? { FreshIsWithinBudget(c, s.head.queue, |choice.batch|); }
  }

  lemma WaitingHavePrompts(c: Config, s: System)
    requires Registered(s.asked) && Queued(c, s.head.queue, s.asked)
    ensures forall r | r in s.head.queue.waiting :: r.prompt != [] && |r.prompt| <= c.limits.maxBatchTokens
  {
    forall r | r in s.head.queue.waiting ensures r.prompt != [] && |r.prompt| <= c.limits.maxBatchTokens {
      assert IsLive(s.head.queue, r);
      assert r.Asked() == s.asked[r.id];
    }
  }

  lemma FreshIsWithinBudget(c: Config, q: Queue, count: nat)
    requires Fits(q, c.limits, count)
    requires forall r | r in q.waiting :: r.prompt != [] && |r.prompt| <= c.limits.maxBatchTokens
    ensures count <= FreshBeside(c, |q.running|)
  {
    var batch := q.waiting[..count];
    forall r | r in batch ensures r.prompt != [] { assert r in q.waiting; }
    PromptsAdd(batch);
    if count == 1 { assert q.waiting[0] in q.waiting; }
  }

  /** There are places for a fresh batch beside all that is held. */
  lemma FreshHasRoom(c: Config, spare: nat, e: Engine, running: nat, batch: seq<Request>)
    requires c.Valid() && PlacesBeside(c, spare, running) && |batch| <= FreshBeside(c, running)
    requires |e.slots.Keys| <= c.limits.maxSequences + spare
    ensures HasRoom(c.ShardOf(0), e, Ids(batch))
  {
    IdsAreFew(batch);
    UnionIsSmall(e.slots.Keys, Ids(batch));
  }

  lemma FewerBeside(c: Config, spare: nat, running: nat, more: nat)
    requires PlacesBeside(c, spare, running) && running <= more
    ensures PlacesBeside(c, spare, more)
  {
  }

  /** Whoever runs has its slot already. */
  lemma RunningHaveRoom(c: Config, e: Engine, running: seq<Request>)
    requires c.Valid() && Ids(running) <= e.slots.Keys && |e.slots| <= c.capacity
    ensures HasRoom(c.ShardOf(0), e, Ids(running))
  {
    assert e.slots.Keys + Ids(running) == e.slots.Keys;
    assert |e.slots.Keys| == |e.slots|;
  }

  /** Between rounds whoever runs holds a slot. */
  lemma RunnersHold(s: System)
    requires s.engines != [] && Holds(s) && !s.phase.Computing? && !s.phase.Failing?
    ensures Ids(s.head.queue.running) <= s.engines[0].slots.Keys
  {
    hide Ids;
  }

  /** The fresh are awaited until they are computed. */
  lemma HoldsWithFresh(s: System, s': System, batch: seq<Request>)
    requires s.engines != [] && s'.engines == s.engines && s'.phase == Computing(batch, true)
    requires Ids(s.head.queue.running) <= s.engines[0].slots.Keys
    requires Ids(s'.head.queue.running) == Ids(s.head.queue.running) + Ids(batch)
    ensures Holds(s')
  {
    AllAwaited(s'.phase);
    hide Ids, Awaits;
  }

  lemma HoldsAsBefore(s: System, s': System)
    requires s.engines != [] && s'.engines == s.engines && Ids(s.head.queue.running) <= s.engines[0].slots.Keys
    requires Ids(s'.head.queue.running) == Ids(s.head.queue.running)
    ensures Holds(s')
  {
    hide Ids, Awaits;
  }

  /** What a choice does to who runs and who holds. */
  lemma SelectHolds(c: Config, s: System, s': System)
    requires Ledger(c, s) && Shaped(c, s) && Shaped(c, s') && Holds(s) && HeadStep(c, s, Select, s')
    ensures Holds(s')
  {
    hide Ledger, NextBatch, Fitted, Ids, Awaits, Holds;
    ChoiceOf(c, s);
    RunnersHold(s);
    var (choice, after) := NextBatch(s.head.queue, c.limits);
    if choice.Prefill? {
      IdsOfConcat(s.head.queue.running, choice.batch);
      HoldsWithFresh(s, s', choice.batch);
    } else {
      HoldsAsBefore(s, s');
    }
  }

  lemma SelectSpares(c: Config, s: System, spare: nat, s': System)
    requires Ledger(c, s) && Shaped(c, s) && Spares(c, s, spare) && HeadStep(c, s, Select, s') && Shaped(c, s')
    requires s'.phase.Computing? ==> Fitting(c, s')
    ensures Spares(c, s', spare)
  {
    SelectHolds(c, s, s');
    hide Ledger, NextBatch, Holds, Fitting, Fitted, Aged, Ids;
  }

  // ---------------------------------------------------------------- computing

  /** A batch that may evict at all is shorter than the head has places. */
  ghost predicate Short(c: Config, s: System)
    requires Shaped(c, s)
  {
    RoomAtHead(c, s) || c.limits.maxSequences <= c.capacity
  }

  lemma ComputeLoses(c: Config, s: System, spare: nat)
    requires Inv(c, s) && Shaped(c, s) && Spares(c, s, spare) && Short(c, s) && s.phase.Computing?
    ensures HeadLost(c, s, s.phase.batch, s.phase.first) !! s.head.queue.Live()
    ensures Aged(BatchForwarded(c.ShardOf(0), s.engines[0], s.phase.batch,
                                Embedded(c.model, s.phase.batch, s.phase.first), s.phase.first, |s.phase.batch|).0)
  {
    RoundIsEnrolled(c, s);
    hide Ledger, Right, Fitted, HasRoom, Lost, BatchForwarded, Embedded, DistinctIds, Aged, Ids, Holds;
    var pieces := Embedded(c.model, s.phase.batch, s.phase.first);
    ForwardedStaysAged(c.ShardOf(0), s.engines[0], s.phase.batch, pieces, s.phase.first, |s.phase.batch|);
    if RoomAtHead(c, s) {
      HeadLosesNobody(c, s);
    } else {
      LostWereThere(c.ShardOf(0), s.engines[0], s.phase.batch, pieces, s.phase.first, |s.phase.batch|);
    }
  }

  lemma TouchedStaysAged(shard: Shard, e: Engine, id: Id)
    requires shard.Valid() && Aged(e)
    ensures Aged(Touched(shard, e, id))
  {
  }

  lemma OneStaysAged(shard: Shard, e: Engine, id: Id, at: seq<nat>, rows: seq<Row>)
    requires Fitted(shard, e) && Aged(e)
    ensures Aged(Forwarded(shard, e, id, at, rows).0)
  {
    TouchedStaysAged(shard, e, id);
    hide Touched, RunLayers;
  }

  lemma {:induction false} ForwardedStaysAged(shard: Shard, e: Engine, batch: seq<Request>, pieces: seq<seq<Row>>,
                                              first: bool, count: nat)
    requires Fitted(shard, e) && Aged(e) && count <= |batch| == |pieces|
    ensures Aged(BatchForwarded(shard, e, batch, pieces, first, count).0)
  {
    hide Forwarded, Aged, Fitted;
    if count > 0 {
      ForwardedStaysAged(shard, e, batch, pieces, first, count - 1);
      var before := BatchForwarded(shard, e, batch, pieces, first, count - 1).0;
      OneStaysAged(shard, before, batch[count - 1].id, Where(batch[count - 1], first).0, pieces[count - 1]);
    }
  }

  /** Whoever runs goes on holding its slot, if nobody who runs loses one. */
  lemma HeadHolds(s: System, lost: set<Id>, s': System)
    requires s.engines != [] && s'.engines != [] && Holds(s) && s.phase.Computing? && lost !! Ids(s.head.queue.running)
    requires s'.head == s.head && s.engines[0].slots.Keys - lost <= s'.engines[0].slots.Keys
    requires || (s'.phase.Failing? && s'.phase.batch == s.phase.batch && s'.phase.at == 0)
             || Ids(s.phase.batch) - lost <= s'.engines[0].slots.Keys
    ensures Holds(s')
  {
    hide Awaits, Ids;
    OnlyMembersAwaited(s.phase);
    if s'.phase.Failing? && s'.phase.at == 0 { AllAwaited(s'.phase); }
  }

  /** Whoever loses a slot in this step neither waits nor runs, so whoever runs goes on holding its own. */
  lemma HeadSpares(c: Config, s: System, spare: nat, lost: set<Id>, s': System)
    requires Shaped(c, s) && Spares(c, s, spare) && s.phase.Computing? && lost !! s.head.queue.Live()
    requires Shaped(c, s') && Aged(s'.engines[0]) && s'.head == s.head
    requires s.engines[0].slots.Keys - lost <= s'.engines[0].slots.Keys
    requires || (s'.phase.Failing? && s'.phase.batch == s.phase.batch && s'.phase.at == 0)
             || ((s'.phase.Waiting? || s'.phase.Delivering?) && Ids(s.phase.batch) - lost <= s'.engines[0].slots.Keys)
    ensures Spares(c, s', spare)
  {
    hide Aged, Fitting, Fitted, Awaits, Ids, Holds;
    HeadHolds(s, lost, s');
  }

  lemma OnlyMembersAwaited(p: Phase)
    ensures forall id | Awaits(p, id) :: id in Ids(Batch(p))
  {
    forall id | Awaits(p, id) ensures id in Ids(Batch(p)) {
      var k :| Through(p) <= k < |Batch(p)| && Batch(p)[k].id == id;
      MemberIsNamed(Batch(p), k);
    }
  }

  /** What the head's step over its batch touched, and who lost a slot. */
  lemma HeadTouches(c: Config, s: System)
    requires Inv(c, s) && Shaped(c, s) && s.phase.Computing?
    ensures OnlyTouched(s.engines[0],
                        BatchForwarded(c.ShardOf(0), s.engines[0], s.phase.batch,
                                       Embedded(c.model, s.phase.batch, s.phase.first), s.phase.first,
                                       |s.phase.batch|).0,
                        Ids(s.phase.batch), HeadLost(c, s, s.phase.batch, s.phase.first))
  {
    RoundIsEnrolled(c, s);
    hide Ledger, Right, Fitted, Lost, BatchForwarded, Embedded, DistinctIds, Ids, OnlyTouched, MembersAlone;
    MembersStayApart(c.ShardOf(0), s.engines[0], s.phase.batch, Embedded(c.model, s.phase.batch, s.phase.first),
                     s.phase.first);
  }

  lemma TouchedKeeps(e: Engine, after: Engine, names: set<Id>, lost: set<Id>)
    requires OnlyTouched(e, after, names, lost)
    ensures e.slots.Keys - lost <= after.slots.Keys && names - lost <= after.slots.Keys
  {
  }

  lemma ComputeSpares(c: Config, s: System, spare: nat, batchId: BatchId, draws: seq<Draw>, s': System)
    requires Inv(c, s) && Shaped(c, s) && Shaped(c, s') && Spares(c, s, spare) && Short(c, s)
    requires HeadStep(c, s, Compute(batchId, draws), s')
    ensures Spares(c, s', spare) && EvictedBy(c, s, Compute(batchId, draws)) !! s.head.queue.Live()
  {
    HeadEngineAfter(c, s, batchId, draws, s');
    assert s'.phase.Waiting? || s'.phase.Delivering? by { ComputedPhase(c, s, batchId, draws, s'); }
    hide HeadStep, BatchForwarded, Embedded, HeadLost, Aged, Fitted, Spares, Ledger, Right, Ids, OnlyTouched, Short;
    ComputeLoses(c, s, spare);
    HeadTouches(c, s);
    TouchedKeeps(s.engines[0], s'.engines[0], Ids(s.phase.batch), HeadLost(c, s, s.phase.batch, s.phase.first));
    HeadSpares(c, s, spare, HeadLost(c, s, s.phase.batch, s.phase.first), s');
  }

  lemma ComputedPhase(c: Config, s: System, batchId: BatchId, draws: seq<Draw>, s': System)
    requires Shaped(c, s) && HeadStep(c, s, Compute(batchId, draws), s')
    ensures s'.phase.Waiting? || s'.phase.Delivering?
  {
    hide HeadOutcome, HeadLost, HasRows, Fitted, SampledBatch, Packed;
  }

  lemma SpoiltLoses(c: Config, s: System, engine: Engine, spare: nat)
    requires Shaped(c, s) && s.phase.Computing? && Spares(c, s, spare)
    requires Spoilt(c.ShardOf(0), s.engines[0], engine, Ids(s.phase.batch))
    ensures Ousted(s.engines[0], engine) !! s.head.queue.Live() && Aged(engine)
    ensures s.engines[0].slots.Keys - Ousted(s.engines[0], engine) <= engine.slots.Keys
  {
    hide HasRoom, Fitted, Ids, Awaits;
  }

  lemma FailureSpares(c: Config, s: System, spare: nat, engine: Engine, s': System)
    requires Shaped(c, s) && Shaped(c, s') && Spares(c, s, spare)
    requires HeadStep(c, s, ComputeFails(engine), s')
    ensures Spares(c, s', spare) && EvictedBy(c, s, ComputeFails(engine)) !! s.head.queue.Live()
  {
    hide Aged, Fitted, Spoilt, Spares, Ousted, Ids;
    SpoiltLoses(c, s, engine, spare);
    HeadSpares(c, s, spare, Ousted(s.engines[0], engine), s');
  }

  // ---------------------------------------------------------------- the rest of a round

  lemma DeliverSpares(c: Config, s: System, spare: nat, s': System)
    requires Shaped(c, s) && Shaped(c, s') && Spares(c, s, spare) && HeadStep(c, s, Deliver, s')
    ensures Spares(c, s', spare)
  {
    var r, token := s.phase.batch[s.phase.at], s.phase.tokens[s.phase.at];
    DeliveredHead(s.head, c.eos, r, token);
    FinishedIsLess(s.head.queue, r.id);
    AppendedIds(s.head.queue.running, r.id, token);
    hide Delivered, Finished, Fitted, Aged, Ids, Awaits;
  }

  lemma FailSpares(c: Config, s: System, spare: nat, s': System)
    requires Shaped(c, s) && Shaped(c, s') && Spares(c, s, spare) && HeadStep(c, s, Action.Fail, s')
    ensures Spares(c, s', spare)
  {
    var id := s.phase.batch[s.phase.at].id;
    FailedHead(s.head, id);
    FinishedIsLess(s.head.queue, id);
    forall other | Awaits(s.phase, other) && other != id ensures Awaits(s'.phase, other) {
      StillAwaited(s.phase, other);
    }
    hide Failed, Finished, Fitted, Aged, Ids, Awaits;
  }

  lemma OtherwiseSpares(c: Config, s: System, spare: nat, a: Action, s': System)
    requires Shaped(c, s) && Shaped(c, s') && Spares(c, s, spare) && HeadStep(c, s, a, s')
    requires a.Take? || a.GiveUp? || a.FinishRound?
    ensures Spares(c, s', spare)
  {
    if a.FinishRound? { NobodyAwaited(s.phase); }
    hide Fitted, Aged, Ids, Awaits;
  }

  /** Every step of the head but a choice keeps all that; and no such step costs a living request its slot. */
  lemma HeadStepSpares(c: Config, s: System, spare: nat, a: Action, s': System)
    requires Inv(c, s) && Shaped(c, s) && Shaped(c, s') && InAccount(s) && Spares(c, s, spare) && Short(c, s)
    requires HeadStep(c, s, a, s') && |s.parting| <= spare
    requires a.Select? && s'.phase.Computing? ==> Fitting(c, s')
    ensures Spares(c, s', spare) && SparesLiving(c, s, a)
  {
    assert Sound(s.head.queue, c.limits);
    hide Right, Registered, Queued, Ticketed, LeftForGood, Rounds, Heard, Accounts, Endings, Spares, Sound, NextBatch,
         HeadOutcome, HeadLost, Spoilt, Ousted, Delivered, Failed, HasRows, Fitted, InAccount, Short;
    match a
    case Drain => DrainSpares(c, s, spare, s');
    case DrainedAll => DrainedAllSpares(c, s, spare, s');
    case Select => SelectSpares(c, s, spare, s');
    case Compute(batchId, draws) => ComputeSpares(c, s, spare, batchId, draws, s');
    case ComputeFails(engine) => FailureSpares(c, s, spare, engine, s');
    case Deliver => DeliverSpares(c, s, spare, s');
    case Fail => FailSpares(c, s, spare, s');
    case _ => OtherwiseSpares(c, s, spare, a, s');
  }

  /** No step of the head costs anybody who waits or runs a slot, not even for a while. */
  ghost predicate SparesLiving(c: Config, s: System, a: Action)
    requires Shaped(c, s)
  {
    a.Compute? || a.ComputeFails? ==> EvictedBy(c, s, a) !! s.head.queue.Live()
  }

  /** What a later stage does is no matter to the head. */
  lemma StageSpares(c: Config, s: System, spare: nat, a: Action, s': System)
    requires Shaped(c, s) && Shaped(c, s') && Spares(c, s, spare) && StageStep(c, s, a, s')
    ensures Spares(c, s', spare) && SparesLiving(c, s, a)
    ensures RoomAtHead(c, s) ==> RoomAtHead(c, s')
  {
    StageLeavesTheHead(c, s, a, s');
    hide StageStep, Fitted, Aged, Ids, Awaits, HasRoom;
  }

  lemma StageLeavesTheHead(c: Config, s: System, a: Action, s': System)
    requires Shaped(c, s) && Shaped(c, s') && StageStep(c, s, a, s')
    ensures s'.engines[0] == s.engines[0] && s'.head == s.head && s'.phase == s.phase
    ensures a.StageComputes? || a.StageFails? || a.StageFrees?
  {
    hide StageOutcome, StageLost, Spoilt, Ousted, HasRows, Unpacked, Fitted;
  }

  /** Every step but a choice keeps all that. */
  lemma StepSpares(c: Config, s: System, spare: nat, a: Action, s': System)
    requires Inv(c, s) && Shaped(c, s) && Shaped(c, s') && InAccount(s) && Spares(c, s, spare) && Short(c, s)
    requires Next(c, s, a, s') && |s.parting| <= spare
    requires a.Select? && s'.phase.Computing? ==> Fitting(c, s')
    ensures Spares(c, s', spare) && SparesLiving(c, s, a)
  {
    hide Ledger, Fitted, Spares, InAccount, HeadStep, ClientStep, StageStep, Fitting, Short;
    if ClientStep(c, s, a, s') {
      ClientSpares(c, s, spare, a, s');
      ClientsEvictNobodyAtHead(c, s, a, s');
    } else if HeadStep(c, s, a, s') {
      HeadStepSpares(c, s, spare, a, s');
    } else {
      StageSpares(c, s, spare, a, s');
    }
  }

  lemma ClientsEvictNobodyAtHead(c: Config, s: System, a: Action, s': System)
    requires Shaped(c, s) && ClientStep(c, s, a, s')
    ensures SparesLiving(c, s, a)
  {
    hide Added, Finished;
  }

  // ---------------------------------------------------------------- states of runs

  lemma InvIsShaped(c: Config, s: System)
    requires Inv(c, s)
    ensures Shaped(c, s)
  {
    hide Ledger;
  }

  lemma WithinItsPlaces(c: Config, s: System)
    requires Orderly(c, s) && Shaped(c, s)
    ensures |s.engines[0].slots| <= c.capacity
  {
    hide Ledger, Posted;
  }

  lemma InitSpares(c: Config, s: System, spare: nat)
    requires Init(c, s)
    ensures Shaped(c, s) && Spares(c, s, spare) && RoomAtHead(c, s)
  {
  }

  /** Never more than `spare` cancels stand between leaving the queue and asking for a release. */
  ghost predicate FewHalfWay(states: seq<System>, spare: nat) {
    forall k | 0 <= k < |states| :: |states[k].parting| <= spare
  }

  /** What is known of a state of any run. */
  lemma StateOfRun(c: Config, states: seq<System>, actions: seq<Action>, k: nat)
    requires Run(c, states, actions) && k < |states|
    ensures Inv(c, states[k]) && Shaped(c, states[k]) && InAccount(states[k])
    ensures |states[k].engines[0].slots| <= c.capacity
  {
    hide Inv, Run, Orderly, InAccount, Shaped;
    InvariantHolds(c, states, actions, k);
    InvIsShaped(c, states[k]);
    AccountHolds(c, states, actions, k);
    OrderlyHolds(c, states, actions, k);
    WithinItsPlaces(c, states[k]);
  }

  // ---------------------------------------------------------------- runs in which the head evicts nobody

  /**
   The head selects a batch only with places for all whom it may hold and whom the batch may add, or,
   with places for one queue, while nothing waits to be released and no cancel is half-way.
   */
  ghost predicate HeadTidyStep(c: Config, s: System, a: Action, spare: nat) {
    && |s.parting| <= spare
    && (a.Select? ==>
          || PlacesBeside(c, spare, |s.head.queue.running|)
          || (c.capacity >= c.limits.maxSequences && s.head.toRelease == [] && s.parting == {}))
  }

  ghost predicate HeadTidy(c: Config, states: seq<System>, actions: seq<Action>, spare: nat) {
    && |states| == |actions| + 1
    && forall k | 0 <= k < |actions| :: HeadTidyStep(c, states[k], actions[k], spare)
  }

  lemma ChosenAreFew(c: Config, q: Queue)
    requires Sound(q, c.limits)
    ensures |Ids(NextBatch(q, c.limits).1.running)| <= c.limits.maxSequences
  {
    NextBatchKeepsSound(q, c.limits);
    RunningAreFew(c, NextBatch(q, c.limits).1);
  }

  /** Between rounds, with nothing to release and nobody half-way, the head holds slots of those who run only. */
  lemma OnlyTheRunningHold(s: System)
    requires InAccount(s) && s.head.toRelease == [] && s.parting == {}
    ensures s.engines[0].slots.Keys <= Ids(s.head.queue.running)
  {
    assert Named([]) == {};
  }

  lemma TidySelectHasRoom(c: Config, s: System, spare: nat, s': System)
    requires Ledger(c, s) && InAccount(s) && Shaped(c, s) && Spares(c, s, spare) && HeadTidyStep(c, s, Select, spare)
    requires HeadStep(c, s, Select, s') && |s.engines[0].slots| <= c.capacity && Shaped(c, s')
    ensures RoomAtHead(c, s')
  {
    hide Ledger, InAccount, NextBatch, Fitted, Ids, Spares, HeadTidyStep, HasRoom;
    TidyChoiceHasRoom(c, s, spare);
  }

  lemma SoundOf(c: Config, s: System)
    requires Ledger(c, s)
    ensures Sound(s.head.queue, c.limits)
  {
    hide Sound;
  }

  /** What is chosen has room, if the choice was tidy. */
  lemma TidyChoiceHasRoom(c: Config, s: System, spare: nat)
    requires Ledger(c, s) && InAccount(s) && Shaped(c, s) && Spares(c, s, spare) && HeadTidyStep(c, s, Select, spare)
    requires s.phase.Drained? && |s.engines[0].slots| <= c.capacity
    ensures var choice := NextBatch(s.head.queue, c.limits).0;
            choice.Nothing? || HasRoom(c.ShardOf(0), s.engines[0], Ids(choice.batch))
  {
    hide Ledger, InAccount, NextBatch, Fitted, Ids, Awaits, Aged, Sound, Holds, FreshBeside, PlacesBeside;
    ChoiceOf(c, s);
    RunnersHold(s);
    SoundOf(c, s);
    var (choice, after) := NextBatch(s.head.queue, c.limits);
    match choice
    case Prefill(batch) =>
      if PlacesBeside(c, spare, |s.head.queue.running|) {
        FreshHasRoom(c, spare, s.engines[0], |s.head.queue.running|, batch);
      } else {
        OnlyTheRunningHold(s);
        ChosenAreFew(c, s.head.queue);
        ChosenRun(c, s.head.queue);
        SubsetIsSmaller(s.engines[0].slots.Keys + Ids(batch), Ids(after.running));
      }
    case Decode(batch) => RunningHaveRoom(c, s.engines[0], batch);
    case Nothing =>
  }

  /** Nothing but a choice makes the head compute. */
  lemma OnlyChoicesCompute(c: Config, s: System, a: Action, s': System)
    requires Shaped(c, s) && HeadStep(c, s, a, s') && !a.Select?
    ensures !s'.phase.Computing?
  {
    hide HeadOutcome, HeadLost, Spoilt, Ousted, Delivered, Failed, HasRows, Fitted, CheckRows;
  }

  lemma TidyStepHasRoom(c: Config, s: System, spare: nat, a: Action, s': System)
    requires Inv(c, s) && Shaped(c, s) && Shaped(c, s') && InAccount(s) && Spares(c, s, spare) && RoomAtHead(c, s)
    requires HeadTidyStep(c, s, a, spare) && Next(c, s, a, s') && |s.engines[0].slots| <= c.capacity
    ensures RoomAtHead(c, s')
  {
    assert Remembered(s.engines, s.asked);
    hide Ledger, Right, Fitted, Spares, InAccount, HeadStep, ClientStep, StageStep, HeadTidyStep, RoomAtHead,
         Remembered;
    if ClientStep(c, s, a, s') {
      ClientSpares(c, s, spare, a, s');
    } else if HeadStep(c, s, a, s') {
      if a.Select? {
        TidySelectHasRoom(c, s, spare, s');
      } else {
        OnlyChoicesCompute(c, s, a, s');
        NotComputingHasRoom(c, s');
      }
    } else {
      StageSpares(c, s, spare, a, s');
    }
  }

  lemma NotComputingHasRoom(c: Config, s: System)
    requires Shaped(c, s) && !s.phase.Computing?
    ensures RoomAtHead(c, s)
  {
  }

  lemma RoomFits(c: Config, s: System)
    requires Shaped(c, s) && RoomAtHead(c, s)
    ensures Short(c, s) && (s.phase.Computing? ==> Fitting(c, s))
  {
  }

  lemma HeadTidyParting(c: Config, s: System, a: Action, spare: nat)
    requires HeadTidyStep(c, s, a, spare)
    ensures |s.parting| <= spare
  {
  }

  lemma {:induction false} HeadTidyRunsFit(c: Config, states: seq<System>, actions: seq<Action>, spare: nat, k: nat)
    requires Run(c, states, actions) && HeadTidy(c, states, actions, spare) && k < |states|
    ensures Shaped(c, states[k]) && Spares(c, states[k], spare) && RoomAtHead(c, states[k])
  {
    hide Inv, Next, Init, Spares, Shaped, InAccount, HeadTidyStep, RoomAtHead, Short, Fitting, SparesLiving;
    StateOfRun(c, states, actions, k);
    if k == 0 {
      InitSpares(c, states[0], spare);
    } else {
      HeadTidyRunsFit(c, states, actions, spare, k - 1);
      StateOfRun(c, states, actions, k - 1);
      assert Next(c, states[k - 1], actions[k - 1], states[k - 1 + 1]);
      assert HeadTidyStep(c, states[k - 1], actions[k - 1], spare);
      TidyStepHasRoom(c, states[k - 1], spare, actions[k - 1], states[k]);
      HeadTidyParting(c, states[k - 1], actions[k - 1], spare);
      RoomFits(c, states[k - 1]);
      RoomFits(c, states[k]);
      StepSpares(c, states[k - 1], spare, actions[k - 1], states[k]);
    }
  }

  /**
   A tidy head never takes the eviction branch: with any number of later stages, in whatever order they
   handle their messages and whatever they evict, it has a place for everybody in every batch it
   computes or fails on, and nobody is counted as evicted there.
   */
  lemma TidyHeadNeverEvicts(c: Config, states: seq<System>, actions: seq<Action>, spare: nat, k: nat)
    requires Run(c, states, actions) && HeadTidy(c, states, actions, spare) && k < |states|
    ensures Shaped(c, states[k]) && RoomAtHead(c, states[k])
    ensures k < |actions| && (actions[k].Compute? || actions[k].ComputeFails?) ==>
              EvictedBy(c, states[k], actions[k]) == {}
  {
    hide Run, Shaped, Inv, InAccount, Spares, RoomAtHead, Next, EvictedBy;
    HeadTidyRunsFit(c, states, actions, spare, k);
    StateOfRun(c, states, actions, k);
    if k < |actions| {
      assert Next(c, states[k], actions[k], states[k + 1]) by { StepOfRun(c, states, actions, k); }
      RoomEvictsNobodyAtHead(c, states[k], actions[k], states[k + 1]);
    }
  }

  lemma StepOfRun(c: Config, states: seq<System>, actions: seq<Action>, k: nat)
    requires Run(c, states, actions) && k < |actions|
    ensures |states| == |actions| + 1 && Next(c, states[k], actions[k], states[k + 1])
  {
    hide Next, Init;
  }

  lemma RoomEvictsNobodyAtHead(c: Config, s: System, a: Action, s': System)
    requires Inv(c, s) && Shaped(c, s) && Next(c, s, a, s') && RoomAtHead(c, s)
    ensures a.Compute? || a.ComputeFails? ==> EvictedBy(c, s, a) == {}
  {
    hide Ledger, Right, Fitted, HeadLost, Ousted;
    match a
    case Compute(_, _) => if s.phase.Computing? { hide Next; HeadLosesNobody(c, s); }
    case ComputeFails(engine) =>
      FailedWhileComputing(c, s, engine, s');
      hide Next;
      SpoilsNobody(c.ShardOf(0), s.engines[0], engine, Ids(s.phase.batch));
    case _ =>
  }

  lemma FailedWhileComputing(c: Config, s: System, engine: Engine, s': System)
    requires Next(c, s, ComputeFails(engine), s')
    ensures s.phase.Computing? && Spoilt(c.ShardOf(0), s.engines[0], engine, Ids(s.phase.batch))
  {
    hide Spoilt, Fitted;
  }
}
