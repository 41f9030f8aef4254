/**
 What holds of every run of the pipeline, of everybody who never lost a slot to somebody else: whatever
 the clients do and the network loses, delays or repeats, and whoever else is evicted, nobody's answer
 depends on whom it was batched with.
 */
module PipelineTheorems {
  import opened Wrappers
  import opened Transformer
  import opened Sequences
  import opened BatchWire
  import opened Scheduling
  import opened Engines
  import opened Heads
  import opened Pipeline
  import opened PipelineInvariant
  import opened PipelineClientSteps
  import opened PipelineRounds
  import opened PipelineCompute
  import opened PipelineStages
  import opened PipelineDelivery
  import opened PipelineLedger

  // ---------------------------------------------------------------- the invariant over runs

  lemma InitHolds(c: Config, s: System)
    requires Init(c, s)
    ensures Inv(c, s)
  {
  }

  lemma HeadStepKeeps(c: Config, s: System, a: Action, s': System)
    requires Inv(c, s) && HeadStep(c, s, a, s')
    ensures Right(c, s')
  {
    hide Ledger, Right, NextBatch, HeadOutcome, HeadLost, Spoilt, Delivered, Failed, HasRows;
    match a
    case Drain => DrainKeeps(c, s, s');
    case DrainedAll => DrainedAllKeeps(c, s, s');
    case Select => SelectKeeps(c, s, s');
    case Compute(batchId, draws) => ComputeKeeps(c, s, batchId, draws, s');
    case ComputeFails(engine) => HeadFailureKeeps(c, s, engine, s');
    case Take(answer) => TakeKeeps(c, s, answer, s');
    case GiveUp => GivenUpKeeps(c, s, s');
    case Deliver => DeliverKeeps(c, s, s');
    case Fail => FailKeeps(c, s, s');
    case FinishRound => FinishRoundKeeps(c, s, s');
    case _ =>
  }

  /** Every step of clients, head, stages and network, with or without room. */
  lemma StepKeeps(c: Config, s: System, a: Action, s': System)
    requires Inv(c, s) && Next(c, s, a, s')
    ensures Inv(c, s')
  {
    StepLedger(c, s, a, s');
    hide Ledger, Right, ClientStep, HeadStep, StageStep, Shaped;
    if ClientStep(c, s, a, s') {
      ClientStepKeeps(c, s, a, s');
    } else if HeadStep(c, s, a, s') {
      HeadStepKeeps(c, s, a, s');
    } else {
      StageStepKeeps(c, s, a, s');
    }
  }

  lemma {:induction false} InvariantHolds(c: Config, states: seq<System>, actions: seq<Action>, k: nat)
    requires Run(c, states, actions) && k < |states|
    ensures Inv(c, states[k])
  {
    hide Inv, Next, Init;
    if k == 0 {
      InitHolds(c, states[0]);
    } else {
      InvariantHolds(c, states, actions, k - 1);
      assert Next(c, states[k - 1], actions[k - 1], states[k - 1 + 1]);
      StepKeeps(c, states[k - 1], actions[k - 1], states[k]);
    }
  }

  // ---------------------------------------------------------------- who loses a slot

  /** With places for everybody, a step evicts nobody. */
  lemma RoomEvictsNobody(c: Config, s: System, a: Action, s': System)
    requires Inv(c, s) && Next(c, s, a, s') && HasPlaces(c, s, a)
    ensures s'.evicted == s.evicted
  {
    hide Inv, ClientStep, HeadStep, StageStep, HasPlaces;
    if ClientStep(c, s, a, s') {
      ClientsEvictNobody(c, s, a, s');
    } else if HeadStep(c, s, a, s') {
      HeadEvictsNobody(c, s, a, s');
    } else {
      StagesEvictNobody(c, s, a, s');
    }
  }

  lemma ClientsEvictNobody(c: Config, s: System, a: Action, s': System)
    requires ClientStep(c, s, a, s')
    ensures s'.evicted == s.evicted
  {
    hide Added, Finished;
  }

  /** Who is counted as evicted in a step. */
  ghost function EvictedBy(c: Config, s: System, a: Action): set<Id>
    requires Shaped(c, s)
  {
    match a
    case Compute(_, _) => if s.phase.Computing? then HeadLost(c, s, s.phase.batch, s.phase.first) else {}
    case ComputeFails(engine) => Ousted(s.engines[0], engine)
    case StageComputes(m, _) => if 0 < m.target < c.Stages() then StageLost(c, s.engines[m.target], m) else {}
    case StageFails(m, engine) => if 0 < m.target < c.Stages() then Ousted(s.engines[m.target], engine) else {}
    case _ => {}
  }

  lemma HeadCounts(c: Config, s: System, a: Action, s': System)
    requires Shaped(c, s) && HeadStep(c, s, a, s')
    ensures s'.evicted == s.evicted + EvictedBy(c, s, a)
  {
    hide NextBatch, HeadOutcome, HeadLost, Delivered, Failed, HasRows, Spoilt, Ousted, SampledBatch, Packed, Fitted;
  }

  lemma StageCounts(c: Config, s: System, a: Action, s': System)
    requires Shaped(c, s) && StageStep(c, s, a, s')
    ensures s'.evicted == s.evicted + EvictedBy(c, s, a)
  {
    hide StageOutcome, StageLost, HasRows, Unpacked, Spoilt, Ousted, Fitted;
  }

  lemma HeadEvictsNobody(c: Config, s: System, a: Action, s': System)
    requires Inv(c, s) && Shaped(c, s) && HeadStep(c, s, a, s') && HasPlaces(c, s, a)
    ensures s'.evicted == s.evicted
  {
    hide Ledger, Right, NextBatch, HeadOutcome, HeadLost, Delivered, Failed, HasRows, HasRoom, Spoilt, Ousted,
         SampledBatch, Packed;
    HeadCounts(c, s, a, s');
    if a.Compute? {
      HeadLosesNobody(c, s);
    } else if a.ComputeFails? {
      SpoilsNobody(c.ShardOf(0), s.engines[0], a.engine, Ids(s.phase.batch));
    }
  }

  lemma HeadLosesNobody(c: Config, s: System)
    requires Inv(c, s) && s.phase.Computing? && RoomAtHead(c, s)
    ensures HeadLost(c, s, s.phase.batch, s.phase.first) == {}
  {
    RoundIsEnrolled(c, s);
    hide Ledger, Speech, Records, Remembered, Caches, Landing, Addressed, Harmless, OnTheWay, Returning, Lost, HasRoom,
         DistinctIds, Embedded, Ids;
    RoomLosesNobody(c.ShardOf(0), s.engines[0], s.phase.batch, Embedded(c.model, s.phase.batch, s.phase.first),
                    s.phase.first, |s.phase.batch|);
  }

  lemma SpoilsNobody(shard: Shard, e: Engine, after: Engine, ids: set<Id>)
    requires Spoilt(shard, e, after, ids) && HasRoom(shard, e, ids)
    ensures Ousted(e, after) == {}
  {
  }

  lemma StagesEvictNobody(c: Config, s: System, a: Action, s': System)
    requires Inv(c, s) && Shaped(c, s) && StageStep(c, s, a, s') && HasPlaces(c, s, a)
    ensures s'.evicted == s.evicted
  {
    hide Ledger, Right, StageOutcome, StageLost, HasRows, HasRoom, Unpacked, Spoilt, Ousted;
    StageCounts(c, s, a, s');
    if a.StageComputes? {
      StageLosesNobody(c, s, a.message);
    } else if a.StageFails? {
      SpoilsNobody(c.ShardOf(a.message.target), s.engines[a.message.target], a.engine,
                   Ids(Unpacked(a.message.members).value));
    }
  }

  lemma StageLosesNobody(c: Config, s: System, m: Activations)
    requires Inv(c, s) && m in s.activations && 0 < m.target < c.Stages() && RoomFor(c, s, m)
    ensures StageLost(c, s.engines[m.target], m) == {}
  {
    RightIsAddressed(c, s);
    MessageIsReadable(c, s, m);
    ReadableIsDistinct(m, s.asked);
    hide Ledger, Speech, Records, Remembered, Caches, Landing, Addressed, Harmless, OnTheWay, Returning, Lost, HasRoom,
         DistinctIds, Incoming, Readable, HasRows, Ids;
    var fed := Incoming(c.ShardOf(m.target), Views(m), Some(m.rows), m.first);
    if fed.Ok? {
      RoomLosesNobody(c.ShardOf(m.target), s.engines[m.target], Views(m), fed.value, m.first, |Views(m)|);
    }
  }

  lemma ReadableIsDistinct(m: Activations, asked: map<Id, Request>)
    requires Readable(m, asked)
    ensures DistinctIds(Views(m))
  {
  }

  /** A run in which every stage always has places evicts nobody. */
  lemma {:induction false} NobodyIsEvicted(c: Config, states: seq<System>, actions: seq<Action>, k: nat)
    requires Run(c, states, actions) && NoEviction(c, states, actions) && k < |states|
    ensures states[k].evicted == {}
  {
    hide Inv, Next, HasPlaces, Shaped;
    if k > 0 {
      hide Init;
      NobodyIsEvicted(c, states, actions, k - 1);
      InvariantHolds(c, states, actions, k - 1);
      assert Next(c, states[k - 1], actions[k - 1], states[k - 1 + 1]);
      RoomEvictsNobody(c, states[k - 1], actions[k - 1], states[k]);
    }
  }

  // ---------------------------------------------------------------- batching is invisible

  /**
   At any moment of any run, and whoever else lost a slot, what the ticket of a request that lost none
   has been given is tokens of a run of that request alone through all the layers on one machine, then
   at most one closing event: `Stop` exactly when the last token ends the sequence, `Length` exactly at
   the limit. And the ticket is still held, was cancelled, or has its closing event.
   */
  lemma BatchingIsInvisible(c: Config, states: seq<System>, actions: seq<Action>, k: nat, id: Id)
    requires Run(c, states, actions) && k < |states| && id in states[k].asked && id !in states[k].evicted
    ensures id in states[k].head.streams
    ensures Transcript(c, states[k].asked[id], states[k].head.streams[id])
    ensures id in states[k].head.tickets || id in states[k].cancelled || Closed(states[k].head.streams[id])
  {
    InvariantHolds(c, states, actions, k);
    hide Run, Transcript, Closed, Queued, Rounds, Heard, Speech, Caches, Landing, Addressed, Harmless, OnTheWay,
         Returning;
  }

  /** What one step does to what a request was told. */
  lemma StreamStep(c: Config, s: System, a: Action, s': System, id: Id)
    requires Next(c, s, a, s') && id in s.asked && id in s.head.streams
    ensures id in s'.asked && id in s'.head.streams && s.head.streams[id] <= s'.head.streams[id]
    ensures id !in s.head.tickets ==> id !in s'.head.tickets && s'.head.streams[id] == s.head.streams[id]
  {
    hide StageOutcome, HeadOutcome, NextBatch, Accepted, Finished, Ids, Delivered, Failed, Spoilt, Unpacked, HasRows,
         HeadLost, StageLost, Ousted;
    if a.Deliver? && s.phase.Delivering? && s.phase.at < |s.phase.batch| == |s.phase.tokens| {
      DeliveredStream(s.head, c.eos, s.phase.batch[s.phase.at], s.phase.tokens[s.phase.at], id);
    }
    if a.Fail? && s.phase.Failing? && s.phase.at < |s.phase.batch| {
      FailedStream(s.head, s.phase.batch[s.phase.at].id, id);
    }
  }

  lemma DeliveredStream(h: HeadState, eos: set<Token>, r: Request, token: Token, id: Id)
    requires id in h.streams
    ensures var after := Delivered(h, eos, r, token);
            && id in after.streams && h.streams[id] <= after.streams[id]
            && (id !in h.tickets ==> id !in after.tickets && after.streams[id] == h.streams[id])
  {
    DeliveredHead(h, eos, r, token);
  }

  lemma FailedStream(h: HeadState, failed: Id, id: Id)
    requires id in h.streams
    ensures var after := Failed(h, failed);
            && id in after.streams && h.streams[id] <= after.streams[id]
            && (id !in h.tickets ==> id !in after.tickets && after.streams[id] == h.streams[id])
  {
    FailedHead(h, failed);
  }

  /**
   What was told is never taken back, and once the ticket is gone, closed or cancelled, nothing more is
   told, whatever is still on its way.
   */
  lemma {:induction false} NothingIsTakenBack(c: Config, states: seq<System>, actions: seq<Action>, j: nat, k: nat,
                                              id: Id)
    requires Run(c, states, actions) && j <= k < |states| && id in states[j].asked && id in states[j].head.streams
    ensures id in states[k].asked && id in states[k].head.streams
    ensures states[j].head.streams[id] <= states[k].head.streams[id]
    ensures id !in states[j].head.tickets ==>
              id !in states[k].head.tickets && states[k].head.streams[id] == states[j].head.streams[id]
  {
    hide Next, Init;
    if j < k {
      NothingIsTakenBack(c, states, actions, j, k - 1, id);
      assert Next(c, states[k - 1], actions[k - 1], states[k - 1 + 1]);
      StreamStep(c, states[k - 1], actions[k - 1], states[k], id);
    }
  }

  /** The sampler takes nothing but the row and the parameters. */
  ghost predicate Deterministic(m: Model, sampling: Sampling) {
    forall row, d, e :: m.sample(row, sampling, d) == m.sample(row, sampling, e)
  }

  /** The token one machine that serves one request samples after `outs`. */
  ghost function NextToken(c: Config, r: Request, outs: seq<Token>): Token
    requires c.Valid() && r.prompt != []
  {
    var rows := Emitted(c.model, |c.model.layers|, r.prompt, outs);
    EmittedLength(c.model, |c.model.layers|, r.prompt, outs);
    Sampled(c.model, rows[|rows| - 1], r.sampling, 0)
  }

  /** That machine's whole answer: a token a step until the end or the limit. */
  ghost function Generated(c: Config, r: Request, outs: seq<Token>): (answer: seq<Token>)
    requires c.Valid() && r.prompt != [] && |outs| < Most(r)
    ensures outs < answer && |answer| <= Most(r)
    decreases Most(r) - |outs|
  {
    var all := outs + [NextToken(c, r, outs)];
    if NextToken(c, r, outs) in c.eos || |all| >= Most(r) then all else Generated(c, r, all)
  }

  lemma OnlyOnePick(c: Config, r: Request, outs: seq<Token>, token: Token)
    requires c.Valid() && r.prompt != [] && Deterministic(c.model, r.sampling)
    requires Picks(c.model, r.prompt, r.sampling, outs, token)
    ensures token == NextToken(c, r, outs)
  {
    hide Emitted;
  }

  /** Any tokens the reference run may sample lead to the same answer. */
  lemma {:induction false} OnlyOneAnswer(c: Config, r: Request, count: nat, tokens: seq<Token>)
    requires c.Valid() && r.prompt != [] && Deterministic(c.model, r.sampling)
    requires Samples(c.model, r.prompt, r.sampling, tokens) && |tokens| <= Most(r)
    requires forall k | 0 <= k < |tokens| - 1 :: tokens[k] !in c.eos
    requires count <= |tokens| && count < Most(r) && (forall k | 0 <= k < count :: tokens[k] !in c.eos)
    ensures var answer := Generated(c, r, tokens[..count]);
            && tokens <= answer
            && (count < |tokens| && (|tokens| == Most(r) || tokens[|tokens| - 1] in c.eos) ==> tokens == answer)
    decreases |tokens| - count
  {
    hide NextToken, Samples, Picks, Deterministic;
    if count == |tokens| {
      assert tokens[..count] == tokens;
    } else {
      NextIsPicked(c, r, count, tokens);
      assert tokens[..count + 1] == tokens[..count] + [tokens[count]];
      if tokens[count] in c.eos || count + 1 >= Most(r) {
        assert tokens[..count + 1] == tokens;
      } else {
        OnlyOneAnswer(c, r, count + 1, tokens);
      }
    }
  }

  lemma NextIsPicked(c: Config, r: Request, count: nat, tokens: seq<Token>)
    requires c.Valid() && r.prompt != [] && Deterministic(c.model, r.sampling) && count < |tokens|
    requires Samples(c.model, r.prompt, r.sampling, tokens)
    ensures tokens[count] == NextToken(c, r, tokens[..count])
  {
    OnlyOnePick(c, r, tokens[..count], tokens[count]);
  }

  /**
   With a sampler that draws nothing, a request that lost no slot is told exactly what one machine would have told it:
   a prefix while it goes on, the whole answer once it is closed without an error.
   */
  lemma TokensAreThoseOfOneMachine(c: Config, states: seq<System>, actions: seq<Action>, k: nat, id: Id)
    requires Run(c, states, actions) && k < |states| && id in states[k].asked && id !in states[k].evicted
    requires Deterministic(c.model, states[k].asked[id].sampling)
    ensures id in states[k].head.streams && c.Valid() && states[k].asked[id].prompt != []
    ensures var events, answer := states[k].head.streams[id], Generated(c, states[k].asked[id], []);
            && Spoken(events) <= answer
            && (Closed(events) && events[|events| - 1] != ErrorEvent ==> Spoken(events) == answer)
  {
    BatchingIsInvisible(c, states, actions, k, id);
    LedgerHolds(c, states, actions, k);
    var s := states[k];
    assert Askable(s.asked[id]) && c.Valid();
    hide Ledger, Askable, Run;
    assert Spoken(s.head.streams[id])[..0] == [];
    OnlyOneAnswer(c, s.asked[id], 0, Spoken(s.head.streams[id]));
  }

  // ---------------------------------------------------------------- positions

  lemma ReadyPositions(c: Config, s: System, r: Request, stage: nat)
    requires Inv(c, s) && IsLive(s.head.queue, r) && r.id !in s.evicted && stage < c.Stages()
    requires s.phase.Computing? || !Awaits(s.phase, r.id)
    ensures OwnSeen(s.engines[stage], r.id) == if r.output == [] then 0 else r.Computed()
  {
    hide Ledger, Speech, Records, Remembered, Landing, Addressed, Harmless, OnTheWay, Returning;
    assert Halfway(c, s.engines, r, 0);
    var _ := s.engines[stage];
  }

  /**
   Between rounds, and for everybody the round does not await, every stage holds exactly the request's
   computed positions, unless it lost a slot: nothing before its prompt was computed, then all tokens
   but the last.
   */
  lemma PositionsNeverDrift(c: Config, states: seq<System>, actions: seq<Action>, k: nat, r: Request, stage: nat)
    requires Run(c, states, actions) && k < |states|
    requires c.Valid() && stage < c.Stages() == |states[k].engines|
    requires IsLive(states[k].head.queue, r) && r.id !in states[k].evicted
    requires states[k].phase.Computing? || !Awaits(states[k].phase, r.id)
    ensures OwnSeen(states[k].engines[stage], r.id) == if r.output == [] then 0 else r.Computed()
  {
    InvariantHolds(c, states, actions, k);
    hide Inv, Run;
    ReadyPositions(c, states[k], r, stage);
  }

  /** A stage that is ready for a request continues at the position right after those it holds. */
  lemma ReadyContinues(c: Config, stage: nat, e: Engine, r: Request, view: Request)
    requires c.Valid() && stage < c.Stages() && Ready(c, stage, e, r)
    requires view == r || view == OnStage(r, r.output == [])
    ensures Where(view, r.output == []).0 == Positions(OwnSeen(e, r.id), Width(r, r.output == []))
  {
  }

  lemma HeadContinues(c: Config, s: System, i: nat)
    requires Inv(c, s) && s.phase.Computing? && i < |s.phase.batch|
    requires s.phase.batch[i].id in Spared(s.head.queue, s.evicted)
    ensures var r, first := s.phase.batch[i], s.phase.first;
            Where(r, first).0 == Positions(OwnSeen(s.engines[0], r.id), Width(r, first))
  {
    hide Registered, Queued, Ticketed, LeftForGood, Heard, Accounts, Endings, Speech, Records, Remembered, Landing,
         Addressed, Harmless, OnTheWay, Returning;
    var r := s.phase.batch[i];
    assert Batch(s.phase)[i] == r && IsLive(s.head.queue, r);
    assert Halfway(c, s.engines, r, 0);
    var _ := s.engines[0];
    ReadyContinues(c, 0, s.engines[0], r, r);
  }

  /**
   A live member of the batch the head computes that lost no slot is fed the positions that follow those
   it was fed before.
   */
  lemma HeadFeedsTheNextPositions(c: Config, states: seq<System>, actions: seq<Action>, k: nat, i: nat)
    requires Run(c, states, actions) && k < |states| && states[k].engines != []
    requires states[k].phase.Computing? && i < |states[k].phase.batch|
    requires states[k].phase.batch[i].id in Spared(states[k].head.queue, states[k].evicted)
    ensures var r, first := states[k].phase.batch[i], states[k].phase.first;
            Where(r, first).0 == Positions(OwnSeen(states[k].engines[0], r.id), Width(r, first))
  {
    InvariantHolds(c, states, actions, k);
    hide Inv, Run;
    HeadContinues(c, states[k], i);
  }

  lemma CurrentContinues(c: Config, s: System, m: Activations, i: nat)
    requires Inv(c, s) && m in s.activations && 0 < m.target < c.Stages() && i < |Views(m)|
    requires Current(s.phase, m.batchId) && Views(m)[i].id in s.head.queue.Live() - s.evicted
    ensures var view := Views(m)[i];
            Where(view, m.first).0 == Positions(OwnSeen(s.engines[m.target], view.id), Width(view, m.first))
  {
    hide Queued, Ticketed, LeftForGood, Heard, Accounts, Endings, Speech, Records, Remembered, Landing, Caches,
         Returning, Addressed, Harmless, Carried, Faithful;
    CurrentViews(c, s, m);
    assert s.phase.Waiting?;
    CurrentMemberIsReady(c, s, m, i);
    RoundIsEnrolled(c, s);
    hide Rounds, OnTheWay, Faithful, Views;
    ReadyContinues(c, m.target, s.engines[m.target], s.phase.batch[i], Views(m)[i]);
  }

  lemma CurrentMemberIsReady(c: Config, s: System, m: Activations, i: nat)
    requires Shaped(c, s) && Rounds(c, s.phase, s.head.queue, s.asked) && Current(s.phase, m.batchId)
    requires 0 < m.target < c.Stages() && i < |s.phase.batch|
    requires s.phase.batch[i].id in s.head.queue.Live() - s.evicted
    requires Faithful(c, s.phase, s.engines, Spared(s.head.queue, s.evicted), m)
    ensures m.first == s.phase.first && Ready(c, m.target, s.engines[m.target], s.phase.batch[i])
  {
    hide Ready, Emitted, Cut;
    assert Carried(c, s.engines, Spared(s.head.queue, s.evicted), s.phase.batch[i], m.target,
                   Cut(m.rows, Widths(s.phase.batch, s.phase.first))[i]);
    assert Enrolled(s.head.queue, s.asked, Batch(s.phase)[i]);
    var _ := s.engines[m.target];
  }

  lemma StageContinues(c: Config, s: System, m: Activations, i: nat)
    requires Inv(c, s) && m in s.activations && 0 < m.target < c.Stages() && i < |Views(m)|
    requires Views(m)[i].id in s.head.queue.Live()
    ensures var view := Views(m)[i];
            if Current(s.phase, m.batchId)
            then view.id in s.evicted
              || Where(view, m.first).0 == Positions(OwnSeen(s.engines[m.target], view.id), Width(view, m.first))
            else s.phase.Failing? && Awaits(s.phase, view.id)
  {
    hide Ledger, Speech, Records, Remembered, Landing, Caches, Returning, OnTheWay, Where;
    if Current(s.phase, m.batchId) {
      if Views(m)[i].id !in s.evicted { CurrentContinues(c, s, m, i); }
    } else {
      MessageIsReadable(c, s, m);
      hide Addressed;
      assert Doomed(s.phase, s.head.queue, Ids(Views(m)));
      MemberIsNamed(Views(m), i);
    }
  }

  /**
   So is a live member of the message a later stage computes on, unless it lost a slot; and a message of
   any other batch has no member that is live, unless the head is failing that very member.
   */
  lemma StagesFeedTheNextPositions(c: Config, states: seq<System>, actions: seq<Action>, k: nat, m: Activations, i: nat)
    requires Run(c, states, actions) && k < |states|
    requires m in states[k].activations && 0 < m.target < |states[k].engines| && i < |Views(m)|
    requires Views(m)[i].id in states[k].head.queue.Live()
    ensures var s, view := states[k], Views(m)[i];
            if Current(s.phase, m.batchId)
            then view.id in s.evicted
              || Where(view, m.first).0 == Positions(OwnSeen(s.engines[m.target], view.id), Width(view, m.first))
            else s.phase.Failing? && Awaits(s.phase, view.id)
  {
    InvariantHolds(c, states, actions, k);
    assert |states[k].engines| == c.Stages();
    hide Inv, Run;
    StageContinues(c, states[k], m, i);
  }

  // ---------------------------------------------------------------- answers

  lemma TakenAnswer(c: Config, s: System, a: Answer, s': System)
    requires Inv(c, s) && s.phase.Waiting? && HeadStep(c, s, Take(a), s') && s'.phase.Delivering?
    ensures a == Tokens(s.phase.batchId, s'.phase.tokens) && s'.phase == Delivering(s.phase.batch, a.tokens, 0)
    ensures |a.tokens| == |s.phase.batch|
    ensures forall i | 0 <= i < |a.tokens| && s.phase.batch[i].id in Spared(s.head.queue, s.evicted) ::
              var r := s.phase.batch[i]; Picks(c.model, r.prompt, r.sampling, r.output, a.tokens[i])
  {
    hide Ledger, Speech, Records, Remembered, Caches, Landing, Addressed, Harmless, OnTheWay, Picks, Halfway;
    forall i | 0 <= i < |a.tokens| && s.phase.batch[i].id in Spared(s.head.queue, s.evicted)
      ensures var r := s.phase.batch[i]; Picks(c.model, r.prompt, r.sampling, r.output, a.tokens[i])
    {
      assert Answered(c, s.engines, Spared(s.head.queue, s.evicted), s.phase.batch[i], a.tokens[i]);
    }
  }

  /**
   Whatever the network did to earlier answers, the tokens a round delivers came under the name of its
   own batch, one for each member, and if the i-th is live and lost no slot, the i-th is one its
   reference run may sample.
   */
  lemma AnswersAreNeverMisattributed(c: Config, states: seq<System>, actions: seq<Action>, k: nat)
    requires Run(c, states, actions) && k < |actions|
    requires states[k].phase.Waiting? && states[k + 1].phase.Delivering?
    ensures actions[k] == Take(Tokens(states[k].phase.batchId, states[k + 1].phase.tokens))
    ensures states[k + 1].phase.batch == states[k].phase.batch
    ensures |states[k + 1].phase.tokens| == |states[k].phase.batch|
    ensures forall i | 0 <= i < |states[k].phase.batch|
                       && states[k].phase.batch[i].id in Spared(states[k].head.queue, states[k].evicted) ::
              var r := states[k].phase.batch[i];
              Picks(c.model, r.prompt, r.sampling, r.output, states[k + 1].phase.tokens[i])
  {
    InvariantHolds(c, states, actions, k);
    assert Next(c, states[k], actions[k], states[k + 1]);
    hide Inv, Run, Picks, Spared;
    OnlyTakingDelivers(c, states[k], actions[k], states[k + 1]);
    TakenAnswer(c, states[k], actions[k].answer, states[k + 1]);
  }

  lemma OnlyTakingDelivers(c: Config, s: System, a: Action, s': System)
    requires Next(c, s, a, s') && s.phase.Waiting? && s'.phase.Delivering?
    ensures a.Take? && HeadStep(c, s, a, s')
  {
    hide StageOutcome, HeadOutcome, NextBatch, Delivered, Failed, Spoilt, Unpacked, HasRows, HeadLost, StageLost,
         Ousted;
  }
}
