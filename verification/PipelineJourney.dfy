/**
 How a request comes by its first token: a batch of one is computed by the head, goes through all later
 stages, and its answer comes back. With the right draw that is a token of its reference run of our choice.
 */
module PipelineJourney {
  import opened Wrappers
  import opened Transformer
  import opened Sequences
  import opened BatchWire
  import opened Engines
  import opened Pipeline
  import opened PipelineInvariant
  import opened PipelineCompute
  import opened PipelineStages
  import opened PipelineTheorems
  import opened PipelinePlaces
  import opened PipelineSlots
  import opened PipelineReach

  /** A prompt of one token, how to sample after it, and a draw. */
  datatype Opening = Opening(token: Token, sampling: Sampling, draw: Draw)

  /** What one machine samples first. */
  ghost function FirstToken(c: Config, o: Opening): Token
    requires c.Valid()
  {
    EmittedLength(c.model, |c.model.layers|, [o.token], []);
    var rows := Emitted(c.model, |c.model.layers|, [o.token], []);
    Sampled(c.model, rows[|rows| - 1], o.sampling, o.draw)
  }

  /** An answer that may go on after its first token. */
  ghost predicate Opens(c: Config, o: Opening) {
    c.Valid() && FirstToken(c, o) !in c.eos
  }

  predicate AsksFor(r: Request, o: Opening) {
    r.prompt == [o.token] && r.output == [] && r.sampling == o.sampling
  }

  /** Only the phase, the engines and the mail have changed. */
  predicate Elsewhere(s: System, s': System) {
    && s'.head == s.head && s'.frees == s.frees && s'.leaving == s.leaving && s'.parting == s.parting
    && s'.asked == s.asked && s'.cancelled == s.cancelled && |s'.engines| == |s.engines|
  }

  /** Past the last layer there is the row of the reference run, whatever it was batched with on the way. */
  lemma LastRowSamples(c: Config, engines: seq<Engine>, running: set<Id>, r: Request, o: Opening, row: seq<Row>)
    requires Opens(c, o) && AsksFor(r, o) && |engines| == c.Stages() && r.id in running && row != []
    requires Carried(c, engines, running, r, c.Stages(), row)
    ensures Sampled(c.model, row[|row| - 1], r.sampling, o.draw) == FirstToken(c, o)
  {
    hide Halfway, Emitted;
  }

  // ---------------------------------------------------------------- through the later stages

  /** The request's batch is on its way to a stage. */
  ghost predicate Travelling(c: Config, spare: nat, s: System, r: Request, o: Opening, m: Activations) {
    && Reachable(c, spare, s) && Shaped(c, s) && |s.parting| <= spare && Opens(c, o) && AsksFor(r, o)
    && s.phase == Waiting([r], true, m.batchId) && r.id in Spared(s.head.queue, s.evicted)
    && m in s.activations && 0 < m.target < c.Stages()
  }

  lemma OneMemberIsSeen(c: Config, spare: nat, s: System, r: Request, o: Opening, m: Activations)
    requires Travelling(c, spare, s, r, o, m)
    ensures Readable(m, s.asked) && Unpacked(m.members).Ok? && |Views(m)| == |m.members| == 1 && m.first
    ensures Views(m)[0].id == r.id && Views(m)[0].sampling == r.sampling
    ensures HasRows(Views(m), m.first)
    ensures Incoming(c.ShardOf(m.target), Views(m), Some(m.rows), m.first).Ok?
    ensures r.id !in s.engines[m.target].slots
  {
    ReachableIsSound(c, spare, s);
    assert WellPacked(m, s.asked) by { assert m in s.activations; hide Inv; }
    WellPackedComesIn(c.ShardOf(m.target), m, s.asked);
    hide WithinPlaces, Posted, Incoming, WellPacked;
    CurrentViews(c, s, m);
    hide Registered, Queued, Ticketed, LeftForGood, Heard, Accounts, Endings, Speech, Records, Remembered, Caches,
         Landing, Addressed, Harmless, Returning, OnTheWay, Rounds;
    MemberOfMessage(c, s, r, o, m);
  }

  lemma MemberOfMessage(c: Config, s: System, r: Request, o: Opening, m: Activations)
    requires Shaped(c, s) && s.phase == Waiting([r], true, m.batchId) && r.id in Spared(s.head.queue, s.evicted)
    requires 0 < m.target < c.Stages() && AsksFor(r, o)
    requires Faithful(c, s.phase, s.engines, Spared(s.head.queue, s.evicted), m)
    ensures m.first && m.members == Packed([r], true) && |m.members| == 1
    ensures r.id !in s.engines[m.target].slots
  {
    hide Advanced, Emitted, Cut;
    assert Carried(c, s.engines, Spared(s.head.queue, s.evicted), s.phase.batch[0], m.target,
                   Cut(m.rows, Widths(s.phase.batch, s.phase.first))[0]);
    var _ := s.engines[m.target];
  }

  /** A stage that has no slot for the only member takes somebody else's for it, if anybody's. */
  lemma TheOnlyMemberIsKept(c: Config, s: System, m: Activations)
    requires Shaped(c, s) && 0 < m.target < c.Stages() && Unpacked(m.members).Ok? && |Views(m)| == 1
    requires Incoming(c.ShardOf(m.target), Views(m), Some(m.rows), m.first).Ok?
    requires Views(m)[0].id !in s.engines[m.target].slots
    ensures Views(m)[0].id !in StageLost(c, s.engines[m.target], m)
  {
    var shard, e := c.ShardOf(m.target), s.engines[m.target];
    var pieces := Incoming(shard, Views(m), Some(m.rows), m.first).value;
    StageLostIs(c, e, m, pieces);
    hide Incoming, StageLost;
    OneLoses(shard, e, Views(m), pieces, m.first);
  }

  lemma OneLoses(shard: Shard, e: Engine, batch: seq<Request>, pieces: seq<seq<Row>>, first: bool)
    requires Fitted(shard, e) && |batch| == |pieces| == 1
    ensures Lost(shard, e, batch, pieces, first, 1) <= e.slots.Keys
    ensures BatchForwarded(shard, e, batch, pieces, first, 1).0
         == Forwarded(shard, e, batch[0].id, Where(batch[0], first).0, pieces[0]).0
    ensures Lost(shard, e, batch, pieces, first, 1)
         == e.slots.Keys - BatchForwarded(shard, e, batch, pieces, first, 1).0.slots.Keys
  {
    hide Forwarded, BatchForwarded, Lost, Where, Fitted;
    NobodyForwarded(shard, e, batch, pieces, first);
    var (after, rows) := Forwarded(shard, e, batch[0].id, Where(batch[0], first).0, pieces[0]);
    BatchForwardedStep(shard, e, batch, pieces, first, 0, e, [], after, rows);
  }

  /** The state after this stage has handled the message. */
  function Handled(c: Config, s: System, m: Activations, engine: Engine, lost: set<Id>,
                   outcome: Result<Activations, Answer>): System
    requires m.target < |s.engines|
  {
    s.(engines := s.engines[m.target := engine], evicted := s.evicted + lost,
       activations := s.activations - {m} + (if outcome.Ok? then {outcome.value} else {}),
       answers := s.answers + (if outcome.Err? then {outcome.error} else {}))
  }

  lemma HandlingReaches(c: Config, spare: nat, s: System, m: Activations, draws: seq<Draw>) returns (s': System)
    requires Reachable(c, spare, s) && Shaped(c, s) && |s.parting| <= spare
    requires m in s.activations && 0 < m.target < c.Stages() && |draws| == |m.members|
    requires Unpacked(m.members).Ok? && HasRows(Views(m), m.first)
    ensures Reachable(c, spare, s') && Shaped(c, s')
    ensures var (engine, outcome) := StageOutcome(c, s.engines[m.target], m, draws);
            s' == Handled(c, s, m, engine, StageLost(c, s.engines[m.target], m), outcome)
  {
    hide Reachable, StageOutcome, StageLost, HasRows, Unpacked, Fitted;
    var (engine, outcome) := StageOutcome(c, s.engines[m.target], m, draws);
    s' := Handled(c, s, m, engine, StageLost(c, s.engines[m.target], m), outcome);
    StageReaches(c, spare, s, StageComputes(m, draws), s');
    assert Fitted(c.ShardOf(m.target), engine);
  }

  /** What the last stage samples. */
  lemma LastStageSamples(c: Config, spare: nat, s: System, r: Request, o: Opening, m: Activations,
                         pieces: seq<seq<Row>>, after: Engine, out: seq<seq<Row>>)
    requires Travelling(c, spare, s, r, o, m) && m.target == c.Stages() - 1 && |Views(m)| == 1
    requires var counted := s.(evicted := s.evicted + StageLost(c, s.engines[m.target], m));
             && Shaped(c, counted) && RanOver(c, counted, m, pieces, after, out)
             && r.id in Spared(s.head.queue, counted.evicted)
    ensures out != [] && |SampledBatch(c.model, LastRows(out), Views(m), [o.draw])| == 1
    ensures SampledBatch(c.model, LastRows(out), Views(m), [o.draw])[0] == FirstToken(c, o)
  {
    ReachableIsSound(c, spare, s);
    var counted := s.(evicted := s.evicted + StageLost(c, s.engines[m.target], m));
    FewerSpared(c, s, counted.evicted);
    hide Reachable, Orderly, Registered, Queued, Ticketed, LeftForGood, Heard, Accounts, Endings, Rounds, Speech,
         Records, Remembered, Caches, Landing, Addressed, Harmless, Returning, OnTheWay, RanOver, StageLost, Views,
         Carried;
    CurrentAdvances(c, counted, m, pieces, after, out);
    LastRowForEach(c, counted, m, pieces, after, out);
    assert Carried(c, s.engines[m.target := after], Spared(s.head.queue, counted.evicted), r, c.Stages(), out[0]);
    LastRowSamples(c, s.engines[m.target := after], Spared(s.head.queue, counted.evicted), r, o, out[0]);
  }

  /** One stage handles the message: it goes on to the next, or the answer comes back. */
  lemma TravelsOn(c: Config, spare: nat, s: System, r: Request, o: Opening, m: Activations)
    returns (s': System, outcome: Result<Activations, Answer>)
    requires Travelling(c, spare, s, r, o, m)
    ensures Reachable(c, spare, s') && Shaped(c, s') && Elsewhere(s, s') && s'.phase == s.phase
    ensures s'.engines[0] == s.engines[0] && s'.batches == s.batches && r.id in Spared(s'.head.queue, s'.evicted)
    ensures m.target < c.Stages() - 1 ==>
              outcome.Ok? && Travelling(c, spare, s', r, o, outcome.value) && outcome.value.target == m.target + 1
    ensures m.target == c.Stages() - 1 ==>
              outcome == Err(Tokens(m.batchId, [FirstToken(c, o)])) && outcome.error in s'.answers
  {
    OneMemberIsSeen(c, spare, s, r, o, m);
    hide Reachable, StageOutcome, StageLost, HasRows, Unpacked, Fitted, Views, Readable, Incoming, RanOver, Glue,
         LastRows, SampledBatch, FirstToken;
    TheOnlyMemberIsKept(c, s, m);
    s' := HandlingReaches(c, spare, s, m, [o.draw]);
    var counted := s.(evicted := s.evicted + StageLost(c, s.engines[m.target], m));
    assert Shaped(c, counted) by { SameShape(c, s, counted); }
    var pieces, after, out := StageRuns(c, counted, m, [o.draw]);
    outcome := StageOutcome(c, s.engines[m.target], m, [o.draw]).1;
    if m.target == c.Stages() - 1 {
      LastStageSamples(c, spare, s, r, o, m, pieces, after, out);
      var tokens := SampledBatch(c.model, LastRows(out), Views(m), [o.draw]);
      assert tokens == [tokens[0]];
    }
  }

  /** The answer is taken. */
  lemma AnswerIsTaken(c: Config, spare: nat, s: System, r: Request, batchId: BatchId, token: Token)
    returns (s': System)
    requires Reachable(c, spare, s) && Shaped(c, s) && |s.parting| <= spare
    requires s.phase == Waiting([r], true, batchId) && Tokens(batchId, [token]) in s.answers
    ensures Reachable(c, spare, s') && Shaped(c, s') && s' == s.(phase := Delivering([r], [token], 0))
  {
    hide Reachable, Fitted;
    s' := s.(phase := Delivering([r], [token], 0));
    HeadReaches(c, spare, s, Take(Tokens(batchId, [token])), s');
  }

  /** The message goes through all stages that are left, and its answer is taken. */
  lemma {:induction false} Arrives(c: Config, spare: nat, s: System, r: Request, o: Opening, m: Activations)
    returns (s': System)
    requires Travelling(c, spare, s, r, o, m)
    ensures Reachable(c, spare, s') && Shaped(c, s') && Elsewhere(s, s')
    ensures s'.engines[0] == s.engines[0] && s'.batches == s.batches
    ensures s'.phase == Delivering([r], [FirstToken(c, o)], 0)
    decreases c.Stages() - m.target
  {
    hide Reachable, Fitted, FirstToken;
    var next, outcome := TravelsOn(c, spare, s, r, o, m);
    if m.target < c.Stages() - 1 {
      s' := Arrives(c, spare, next, r, o, outcome.value);
    } else {
      s' := AnswerIsTaken(c, spare, next, r, m.batchId, FirstToken(c, o));
    }
  }

  // ---------------------------------------------------------------- from the head on

  /** The head can compute any batch it has chosen. */
  lemma ComputeIsPossible(c: Config, s: System, batchId: BatchId, draws: seq<Draw>) returns (s': System)
    requires Shaped(c, s) && s.phase.Computing? && HasRows(s.phase.batch, s.phase.first)
    requires batchId !in s.batches && |draws| == |s.phase.batch|
    ensures HeadStep(c, s, Compute(batchId, draws), s') && Shaped(c, s') && Elsewhere(s, s')
    ensures Batch(s'.phase) == s.phase.batch && (s'.phase.Waiting? || s'.phase.Delivering?)
    ensures s'.evicted == s.evicted + HeadLost(c, s, s.phase.batch, s.phase.first)
    ensures s'.batches <= s.batches + {batchId}
  {
    hide HeadLost, HeadOutcome, HasRows, Fitted, SampledBatch, Packed;
    var (batch, first) := (s.phase.batch, s.phase.first);
    var (engine, out) := HeadOutcome(c, s, batch, first);
    var computed := s.(engines := s.engines[0 := engine], evicted := s.evicted + HeadLost(c, s, batch, first));
    assert Fitted(c.ShardOf(0), engine);
    if c.Stages() == 1 {
      s' := computed.(phase := Delivering(batch, SampledBatch(c.model, out.lastRows, batch, draws), 0));
    } else {
      s' := computed.(phase := Waiting(batch, first, batchId), batches := s.batches + {batchId},
                      activations := s.activations
                        + {Activations(batchId, 1, first, Packed(batch, first), out.rows)});
    }
  }

  /** The request is the head's batch, the head has a place for it, and it never had a slot. */
  ghost predicate Setting(c: Config, spare: nat, s: System, r: Request, o: Opening) {
    && Reachable(c, spare, s) && Shaped(c, s) && |s.parting| <= spare && Opens(c, o) && AsksFor(r, o)
    && s.phase == Computing([r], true) && r.id in Spared(s.head.queue, s.evicted)
    && r.id !in s.engines[0].slots && |s.engines[0].slots| < c.capacity
  }

  lemma RoomForOne(c: Config, s: System, r: Request)
    requires Shaped(c, s) && s.phase == Computing([r], true) && |s.engines[0].slots| < c.capacity
    ensures RoomAtHead(c, s)
  {
    assert Ids([r]) == {r.id};
    assert |s.engines[0].slots| == |s.engines[0].slots.Keys|;
    if r.id !in s.engines[0].slots {
      assert |s.engines[0].slots.Keys + {r.id}| == |s.engines[0].slots.Keys| + 1;
    } else {
      assert s.engines[0].slots.Keys + {r.id} == s.engines[0].slots.Keys;
    }
  }

  lemma HeadEngineOfOne(c: Config, s: System, r: Request, batchId: BatchId, draws: seq<Draw>, s': System)
    requires Shaped(c, s) && s.phase == Computing([r], true) && HeadStep(c, s, Compute(batchId, draws), s')
    ensures |s'.engines| == |s.engines|
    ensures s'.engines[0] == Forwarded(c.ShardOf(0), s.engines[0], r.id, Where(r, true).0,
                                       Embedded(c.model, [r], true)[0]).0
  {
    HeadEngineAfter(c, s, batchId, draws, s');
    hide HeadStep, Embedded, BatchForwarded;
    OneLoses(c.ShardOf(0), s.engines[0], [r], Embedded(c.model, [r], true), true);
  }

  /** On one machine the head samples at once. */
  lemma HeadSamplesOne(c: Config, s: System, r: Request, o: Opening, after: Engine, out: seq<seq<Row>>)
    requires Inv(c, s) && Shaped(c, s) && s.phase == Computing([r], true) && c.Stages() == 1
    requires Opens(c, o) && AsksFor(r, o) && r.id in Spared(s.head.queue, s.evicted)
    requires LossesCounted(c, s) && HeadRan(c, s, after, out)
    ensures |out| == |LastRows(out)| == 1
    ensures SampledBatch(c.model, LastRows(out), [r], [o.draw]) == [FirstToken(c, o)]
  {
    hide Registered, Queued, Ticketed, LeftForGood, Heard, Accounts, Endings, Rounds, Speech, Records, Remembered,
         Caches, Landing, Addressed, Harmless, Returning, OnTheWay, HeadRan, FirstToken, LossesCounted, SampledBatch,
         LastRows, Carried, Spared;
    HeadBatchAdvances(c, s, after, out);
    HeadRowOfOne(c, s, after, out);
    assert Carried(c, s.engines[0 := after], Spared(s.head.queue, s.evicted), s.phase.batch[0], 1, out[0]);
    LastRowSamples(c, s.engines[0 := after], Spared(s.head.queue, s.evicted), r, o, out[0]);
    SampledOne(c, out, r, o);
    var tokens := SampledBatch(c.model, LastRows(out), [r], [o.draw]);
    assert tokens == [tokens[0]];
  }

  /** What the head made of it: the token at once, or a message to the next stage. */
  lemma HeadComputesOne(c: Config, spare: nat, s: System, r: Request, o: Opening, batchId: BatchId, s': System)
    requires Setting(c, spare, s, r, o) && HeadStep(c, s, Compute(batchId, [o.draw]), s') && s'.evicted == s.evicted
    ensures c.Stages() == 1 ==> s'.phase == Delivering([r], [FirstToken(c, o)], 0)
    ensures c.Stages() > 1 ==>
              && s'.phase == Waiting([r], true, batchId)
              && exists m :: m in s'.activations && m.target == 1 && m.batchId == batchId
  {
    ReachableIsSound(c, spare, s);
    hide Reachable, Orderly, Right, Registered, Queued, Ticketed, LeftForGood, Heard, Accounts, Endings, Rounds, Fitted,
         HeadRan, FirstToken, LossesCounted, SampledBatch, LastRows, Glue, Packed, Spared, HeadStep, Opens, AsksFor,
         InAccount;
    assert s.(evicted := s'.evicted) == s;
    var after, out := HeadBatchRuns(c, s);
    ComputedState(c, s, batchId, [o.draw], s', after, out);
    if c.Stages() == 1 {
      HeadSamplesOne(c, s, r, o, after, out);
    } else {
      var m := Activations(batchId, 1, true, Packed([r], true), Glue(out));
      assert m in s'.activations;
    }
  }

  lemma HeadRowOfOne(c: Config, s: System, after: Engine, out: seq<seq<Row>>)
    requires Shaped(c, s) && s.phase.Computing? && HeadRan(c, s, after, out)
    ensures |out| == |s.phase.batch| && forall k | 0 <= k < |out| :: out[k] != []
  {
    hide MembersAlone, OnlyTouched, HeadOutcome, HeadLost, Lengths, Widths;
  }

  lemma SampledOne(c: Config, out: seq<seq<Row>>, r: Request, o: Opening)
    requires |out| == 1 && out[0] != []
    ensures |LastRows(out)| == 1
    ensures SampledBatch(c.model, LastRows(out), [r], [o.draw])[0]
         == Sampled(c.model, out[0][|out[0]| - 1], r.sampling, o.draw)
  {
  }

  lemma OneHasRows(r: Request)
    requires r.prompt != []
    ensures HasRows([r], true)
  {
  }

  /** The head computes the batch of one. */
  lemma OneIsComputed(c: Config, spare: nat, s: System, r: Request, o: Opening, batchId: BatchId) returns (s': System)
    requires Setting(c, spare, s, r, o) && batchId !in s.batches
    ensures HeadStep(c, s, Compute(batchId, [o.draw]), s') && Shaped(c, s') && Elsewhere(s, s')
    ensures s'.evicted == s.evicted && s'.batches <= s.batches + {batchId}
  {
    hide Reachable, Inv, Orderly, InAccount, HeadLost, Opens, Fitted, RoomAtHead, Spared, HeadStep, HasRows;
    ReachableIsSound(c, spare, s);
    RoomForOne(c, s, r);
    HeadLosesNobody(c, s);
    OneHasRows(r);
    s' := ComputeIsPossible(c, s, batchId, [o.draw]);
  }

  /** From the head's choice to the token in its hands. */
  lemma ComputesOne(c: Config, spare: nat, s: System, r: Request, o: Opening, batchId: BatchId) returns (s': System)
    requires Setting(c, spare, s, r, o) && batchId !in s.batches
    ensures Reachable(c, spare, s') && Shaped(c, s') && Elsewhere(s, s') && s'.batches <= s.batches + {batchId}
    ensures s'.phase == Delivering([r], [FirstToken(c, o)], 0)
    ensures s'.engines[0] == Forwarded(c.ShardOf(0), s.engines[0], r.id, Where(r, true).0,
                                       Embedded(c.model, [r], true)[0]).0
  {
    hide Reachable, FirstToken, Forwarded, Embedded, Where, Fitted, Opens, AsksFor, HeadStep, Spared;
    var sent := OneIsComputed(c, spare, s, r, o, batchId);
    HeadEngineOfOne(c, s, r, batchId, [o.draw], sent);
    HeadComputesOne(c, spare, s, r, o, batchId, sent);
    HeadReaches(c, spare, s, Compute(batchId, [o.draw]), sent);
    if c.Stages() == 1 {
      s' := sent;
    } else {
      var m :| m in sent.activations && m.target == 1 && m.batchId == batchId;
      s' := Arrives(c, spare, sent, r, o, m);
    }
  }
}
