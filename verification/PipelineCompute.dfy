/** The steps in which a stage computes, fails, or frees: what they do to live requests, and to nobody else. */
module PipelineCompute {
  import opened Wrappers
  import opened Transformer
  import opened Sequences
  import opened BatchWire
  import opened Engines
  import opened Heads
  import opened Pipeline
  import opened PipelineInvariant
  import opened PipelineRounds

  // ---------------------------------------------------------------- one member on one stage

  /** A stage that is ready for a request and gets the right rows ends up right and emits the right rows. */
  lemma MemberAdvances(c: Config, stage: nat, e: Engine, after: Engine, r: Request, view: Request,
                       piece: seq<Row>, first: bool, rows: seq<Row>)
    requires c.Valid() && stage < c.Stages() && Fitted(c.ShardOf(stage), e)
    requires first <==> r.output == []
    requires view == r || view == OnStage(r, first)
    requires Ready(c, stage, e, r)
    requires piece == Emitted(c.model, c.cuts[stage], r.prompt, r.output)
    requires MemberAlone(c.ShardOf(stage), e, view, piece, first, after, rows)
    ensures Advanced(c, stage, after, r) && rows == Emitted(c.model, c.cuts[stage + 1], r.prompt, r.output)
  {
    hide Alone, RunLayers, Held, Emitted;
    WhereFollowsAlone(r);
    assert Where(view, first).0 == StepPositions(r.prompt, r.output);
    StageFollowsAlone(c.model, c.cuts[stage], c.cuts[stage + 1], r.prompt, r.output);
  }

  lemma HalfwayAdvances(c: Config, engines: seq<Engine>, stage: nat, after: Engine, r: Request)
    requires c.Valid() && |engines| == c.Stages() && stage < c.Stages()
    requires Halfway(c, engines, r, stage) && Advanced(c, stage, after, r)
    ensures Halfway(c, engines[stage := after], r, stage + 1)
  {
    hide Advanced, Ready;
    var next := engines[stage := after];
    forall k {:trigger next[k]} | 0 <= k < c.Stages()
      ensures if k < stage + 1 then Advanced(c, k, next[k], r) else Ready(c, k, next[k], r)
    {
      if k != stage { assert next[k] == engines[k]; }
    }
  }

  /** What a stage does for every live member of a batch. */
  lemma BatchAdvances(c: Config, engines: seq<Engine>, stage: nat, running: set<Id>, batch: seq<Request>,
                      views: seq<Request>, pieces: seq<seq<Row>>, first: bool, after: Engine, out: seq<seq<Row>>,
                      lost: set<Id>)
    requires c.Valid() && |engines| == c.Stages() && stage < c.Stages() && Fitted(c.ShardOf(stage), engines[stage])
    requires running !! lost
    requires |batch| == |views| == |pieces| == |out|
    requires forall k | 0 <= k < |batch| :: first <==> batch[k].output == []
    requires forall k | 0 <= k < |batch| :: views[k] == batch[k] || views[k] == OnStage(batch[k], first)
    requires forall k | 0 <= k < |batch| :: Carried(c, engines, running, batch[k], stage, pieces[k])
    requires MembersAlone(c.ShardOf(stage), engines[stage], views, pieces, first, after, out, lost)
    ensures forall k | 0 <= k < |batch| ::
              Carried(c, engines[stage := after], running, batch[k], stage + 1, out[k])
  {
    hide MemberAlone, Ready, Advanced, Emitted;
    forall k | 0 <= k < |batch|
      ensures Carried(c, engines[stage := after], running, batch[k], stage + 1, out[k])
    {
      if batch[k].id in running {
        assert Carried(c, engines, running, batch[k], stage, pieces[k]);
        var _ := engines[stage];
        assert Ready(c, stage, engines[stage], batch[k]);
        assert MemberAlone(c.ShardOf(stage), engines[stage], views[k], pieces[k], first, after, out[k]);
        MemberAdvances(c, stage, engines[stage], after, batch[k], views[k], pieces[k], first, out[k]);
        HalfwayAdvances(c, engines, stage, after, batch[k]);
      }
    }
  }

  /** Past the last stage, what is sampled from a member's last row is what its reference run may sample. */
  lemma SampledIsAnswered(c: Config, engines: seq<Engine>, running: set<Id>, batch: seq<Request>, views: seq<Request>,
                          first: bool, out: seq<seq<Row>>, draws: seq<Draw>)
    requires c.Valid() && |engines| == c.Stages()
    requires |batch| == |views| == |out| == |draws| && forall k | 0 <= k < |out| :: out[k] != []
    requires forall k | 0 <= k < |batch| :: views[k].sampling == batch[k].sampling
    requires forall k | 0 <= k < |batch| :: Carried(c, engines, running, batch[k], c.Stages(), out[k])
    ensures forall k | 0 <= k < |batch| ::
              Answered(c, engines, running, batch[k], SampledBatch(c.model, LastRows(out), views, draws)[k])
  {
    hide Halfway, Emitted;
    var tokens := SampledBatch(c.model, LastRows(out), views, draws);
    forall k | 0 <= k < |batch| ensures Answered(c, engines, running, batch[k], tokens[k]) {
      if batch[k].id in running {
        assert Carried(c, engines, running, batch[k], c.Stages(), out[k]);
        assert tokens[k] == Sampled(c.model, out[k][|out[k]| - 1], batch[k].sampling, draws[k]);
      }
    }
  }

  // ---------------------------------------------------------------- everybody else

  /** Only these requests' slots may have changed on one stage. */
  ghost predicate Within(before: Engine, after: Engine, ids: set<Id>) {
    forall id {:trigger Agree(before, after, id)} :: id !in ids ==> Agree(before, after, id)
  }

  lemma TouchedWithin(before: Engine, after: Engine, ids: set<Id>, lost: set<Id>, evicted: set<Id>)
    requires OnlyTouched(before, after, ids, lost) && lost <= evicted
    ensures Within(before, after, ids + evicted) && after.slots.Keys <= before.slots.Keys + ids
  {
  }

  /** If they are doomed, nothing that is said of live requests is affected. */
  lemma DoomedDoNotMatter(c: Config, s: System, p: Phase, at: nat, engine: Engine, ids: set<Id>)
    requires c.Valid() && |s.engines| == c.Stages() && at < |s.engines|
    requires Within(s.engines[at], engine, ids + s.evicted) && Doomed(p, s.head.queue, ids)
    ensures Caches(c, p, s.head.queue, s.engines, s.evicted) ==>
              Caches(c, p, s.head.queue, s.engines[at := engine], s.evicted)
    ensures Landing(c, p, s.engines, Spared(s.head.queue, s.evicted)) ==>
              Landing(c, p, s.engines[at := engine], Spared(s.head.queue, s.evicted))
    ensures OnTheWay(c, p, s.engines, Spared(s.head.queue, s.evicted), s.activations) ==>
              OnTheWay(c, p, s.engines[at := engine], Spared(s.head.queue, s.evicted), s.activations)
    ensures Returning(c, p, s.engines, Spared(s.head.queue, s.evicted), s.answers) ==>
              Returning(c, p, s.engines[at := engine], Spared(s.head.queue, s.evicted), s.answers)
  {
    hide Halfway, Picks, Emitted;
    var q, running := s.head.queue, Spared(s.head.queue, s.evicted);
    forall r {:trigger IsLive(q, r)} | IsLive(q, r) && r.id !in s.evicted && (p.Computing? || !Awaits(p, r.id))
      ensures Agree(s.engines[at], engine, r.id)
    {
      LiveIsNamed(q, r);
    }
    if Caches(c, p, q, s.engines, s.evicted) { CachesElsewhere(c, p, q, s.engines, s.evicted, at, engine); }
    if p.Waiting? || p.Delivering? {
      forall r: Request, target: nat | r.id in running && Halfway(c, s.engines, r, target)
        ensures Halfway(c, s.engines[at := engine], r, target)
      {
        assert Agree(s.engines[at], engine, r.id);
        HalfwayElsewhere(c, s.engines, at, engine, r, target);
      }
      forall m | m in s.activations && Current(p, m.batchId) && 0 < m.target < c.Stages()
        && Faithful(c, p, s.engines, running, m)
        ensures Faithful(c, p, s.engines[at := engine], running, m)
      {
      }
    }
  }

  lemma StillRemembered(engines: seq<Engine>, asked: map<Id, Request>, at: nat, engine: Engine, ids: set<Id>)
    requires Remembered(engines, asked) && at < |engines| && ids <= asked.Keys
    requires engine.slots.Keys <= engines[at].slots.Keys + ids
    ensures Remembered(engines[at := engine], asked)
  {
  }

  // ---------------------------------------------------------------- the head computes

  lemma {:induction false} WidthsOfPieces(pieces: seq<seq<Row>>, out: seq<seq<Row>>)
    requires |pieces| == |out| && forall k | 0 <= k < |out| :: |out[k]| == |pieces[k]|
    ensures Lengths(out) == Lengths(pieces)
  {
  }

  /** Every live member is ready on every stage, and its rows are its embedded tokens. */
  lemma HeadBatchStarts(c: Config, s: System)
    requires Shaped(c, s) && s.phase.Computing?
    requires Registered(s.asked) && Rounds(c, s.phase, s.head.queue, s.asked)
    requires Caches(c, s.phase, s.head.queue, s.engines, s.evicted)
    ensures var batch, first := s.phase.batch, s.phase.first;
            && HasRows(batch, first) && DistinctIds(batch)
            && (forall k | 0 <= k < |batch| :: first <==> batch[k].output == [])
            && (forall k | 0 <= k < |batch| ::
                  Carried(c, s.engines, Spared(s.head.queue, s.evicted), batch[k], 0,
                          Embedded(c.model, batch, first)[k]))
  {
    RoundIsEnrolled(c, s);
    SentBatch(s.phase.batch, s.phase.first, s.asked);
    forall k | 0 <= k < |s.phase.batch|
      ensures Carried(c, s.engines, Spared(s.head.queue, s.evicted), s.phase.batch[k], 0,
                      Embedded(c.model, s.phase.batch, s.phase.first)[k])
    {
      HeadMemberStarts(c, s, k);
    }
  }

  lemma HeadOutcomeIs(c: Config, s: System, batch: seq<Request>, first: bool, after: Engine, out: Output)
    requires c.Valid() && |s.engines| == c.Stages() && Fitted(c.ShardOf(0), s.engines[0]) && HasRows(batch, first)
    requires Stepped(c.ShardOf(0), s.engines[0], batch, None, first) == (after, Ok(out))
    ensures HeadOutcome(c, s, batch, first) == (after, out)
  {
    hide Stepped;
  }

  /** Who loses a slot on the way is counted as evicted. */
  ghost predicate LossesCounted(c: Config, s: System)
    requires Shaped(c, s) && s.phase.Computing?
  {
    HeadLost(c, s, s.phase.batch, s.phase.first) <= s.evicted
  }

  /** What the head's own layers made of the batch, member by member. */
  ghost predicate HeadRan(c: Config, s: System, after: Engine, out: seq<seq<Row>>)
    requires Shaped(c, s) && s.phase.Computing?
  {
    var batch, first := s.phase.batch, s.phase.first;
    var lost := HeadLost(c, s, batch, first);
    && |out| == |batch| && Lengths(out) == Widths(batch, first)
    && (forall k | 0 <= k < |out| :: out[k] != [])
    && HasRows(batch, first)
    && HeadOutcome(c, s, batch, first) == (after, if c.Stages() == 1 then Logits(LastRows(out)) else Hidden(Glue(out)))
    && OnlyTouched(s.engines[0], after, Ids(batch), lost) && Fitted(c.ShardOf(0), after)
    && MembersAlone(c.ShardOf(0), s.engines[0], batch, Embedded(c.model, batch, first), first, after, out, lost)
  }

  lemma HeadRuns(c: Config, s: System) returns (after: Engine, out: seq<seq<Row>>)
    requires Shaped(c, s) && s.phase.Computing?
    requires HasRows(s.phase.batch, s.phase.first) && DistinctIds(s.phase.batch)
    ensures HeadRan(c, s, after, out)
  {
    hide Stepped, MemberAlone, OnlyTouched, HasRows, MembersAlone, DistinctIds, Lost;
    var batch, first := s.phase.batch, s.phase.first;
    var shard, e := c.ShardOf(0), s.engines[0];
    var pieces := Embedded(c.model, batch, first);
    MembersStayApart(shard, e, batch, pieces, first);
    after, out := BatchForwarded(shard, e, batch, pieces, first, |batch|).0,
                  BatchForwarded(shard, e, batch, pieces, first, |batch|).1;
    WidthsOfPieces(pieces, out);
    SteppedPieces(shard, e, batch, None, first, pieces, after, out);
    hide BatchForwarded, Embedded, Glue, LastRows;
    HeadOutcomeIs(c, s, batch, first, after, if shard.isLast then Logits(LastRows(out)) else Hidden(Glue(out)));
    hide HeadOutcome;
  }

  /** Every spared member is past the head's layers then, with the rows its reference run emits there. */
  lemma HeadBatchAdvances(c: Config, s: System, after: Engine, out: seq<seq<Row>>)
    requires Shaped(c, s) && s.phase.Computing? && LossesCounted(c, s) && HeadRan(c, s, after, out)
    requires Registered(s.asked) && Rounds(c, s.phase, s.head.queue, s.asked)
    requires Caches(c, s.phase, s.head.queue, s.engines, s.evicted)
    ensures forall k | 0 <= k < |out| ::
              Carried(c, s.engines[0 := after], Spared(s.head.queue, s.evicted), s.phase.batch[k], 1, out[k])
  {
    HeadBatchStarts(c, s);
    hide Rounds, Caches, Registered, Carried, MembersAlone, OnlyTouched, HeadOutcome, HeadLost, DistinctIds, HasRows,
         Embedded, LastRows, Glue, Lengths, Widths;
    var batch, first := s.phase.batch, s.phase.first;
    BatchAdvances(c, s.engines, 0, Spared(s.head.queue, s.evicted), batch, batch, Embedded(c.model, batch, first),
                  first, after, out, HeadLost(c, s, batch, first));
  }

  lemma HeadMemberStarts(c: Config, s: System, k: nat)
    requires Shaped(c, s) && s.phase.Computing? && k < |s.phase.batch|
    requires Rounds(c, s.phase, s.head.queue, s.asked)
    requires Caches(c, s.phase, s.head.queue, s.engines, s.evicted)
    ensures Carried(c, s.engines, Spared(s.head.queue, s.evicted), s.phase.batch[k], 0,
                    Embedded(c.model, s.phase.batch, s.phase.first)[k])
  {
    hide Halfway, Emitted;
    var r := s.phase.batch[k];
    assert Batch(s.phase)[k] == r;
    if r.id in Spared(s.head.queue, s.evicted) {
      assert r in s.head.queue.running && IsLive(s.head.queue, r);
      WhereFollowsAlone(r);
      EmittedAtTheBottom(c.model, r.prompt, r.output);
    }
  }

  /** The round goes on with the same batch, and nobody in it is settled yet. */
  lemma RoundGoesOn(c: Config, s: System, p: Phase)
    requires c.Valid() && s.phase.Computing? && Batch(p) == s.phase.batch && Through(p) == 0
    requires p.Waiting? ==> p.first == s.phase.first
    requires p.Failing? || p.Waiting? || (p.Delivering? && |p.tokens| == |p.batch|)
    requires Rounds(c, s.phase, s.head.queue, s.asked)
    ensures Rounds(c, p, s.head.queue, s.asked)
    ensures forall id | !Awaits(p, id) :: id !in Ids(s.phase.batch)
  {
    assert Batch(p) == Batch(s.phase) && Through(p) == Through(s.phase);
    assert forall id :: Awaits(p, id) <==> Awaits(s.phase, id);
    AllAwaited(p);
  }

  /** Who is not in the batch keeps what the head's engine holds of it. */
  lemma OthersKeepTheirCaches(c: Config, s: System, p: Phase, engine: Engine)
    requires Shaped(c, s) && s.phase.Computing? && !p.Computing?
    requires Within(s.engines[0], engine, Ids(s.phase.batch) + s.evicted)
    requires forall id | !Awaits(p, id) :: id !in Ids(s.phase.batch)
    requires Caches(c, s.phase, s.head.queue, s.engines, s.evicted)
    ensures Caches(c, p, s.head.queue, s.engines[0 := engine], s.evicted)
  {
    hide Halfway;
    assert Caches(c, p, s.head.queue, s.engines, s.evicted);
    CachesElsewhere(c, p, s.head.queue, s.engines, s.evicted, 0, engine);
  }

  /** A message that was not current stays so while no batch, or a batch with a new name, is on its way. */
  lemma OldMailIsHarmless(c: Config, s: System, p: Phase)
    requires s.phase.Computing? && Harmless(s.phase, s.head.queue, s.activations)
    ensures Harmless(p, s.head.queue, s.activations)
  {
    forall ids | Doomed(s.phase, s.head.queue, ids) ensures Doomed(p, s.head.queue, ids) { }
  }

  /** The batch that was being computed is about to fail. */
  lemma ComputeFailsKeeps(c: Config, s: System, engine: Engine, s': System)
    requires Inv(c, s) && s.phase.Computing? && Ousted(s.engines[0], engine) <= s.evicted
    requires Spoilt(c.ShardOf(0), s.engines[0], engine, Ids(s.phase.batch))
    requires s' == s.(engines := s.engines[0 := engine], phase := Failing(s.phase.batch, 0))
    ensures Right(c, s')
  {
    hide Registered, Queued, Ticketed, LeftForGood, Rounds, Heard, Accounts, Endings, Speech, Records, Remembered,
         Caches, Landing, Addressed, Harmless, OnTheWay, Returning, Within;
    var ids := Ids(s.phase.batch);
    RoundIsEnrolled(c, s);
    SentBatch(s.phase.batch, s.phase.first, s.asked);
    SpoiltWithin(c.ShardOf(0), s.engines[0], engine, ids, s.evicted);
    assert Fitted(c.ShardOf(0), engine);
    hide Spoilt, Ids, Ousted, Spared, Fitted;
    StillRemembered(s.engines, s.asked, 0, engine, ids);
    RoundGoesOn(c, s, s'.phase);
    OthersKeepTheirCaches(c, s, s'.phase, engine);
    OldMailIsHarmless(c, s, s'.phase);
    AddressedOutsideWaiting(c, s, s'.phase);
    NothingInFlight(c, s'.phase, s', s'.engines);
  }

  /** A failing step touches its batch only, and drops whom it evicts. */
  lemma SpoiltWithin(shard: Shard, e: Engine, engine: Engine, ids: set<Id>, evicted: set<Id>)
    requires Spoilt(shard, e, engine, ids) && Ousted(e, engine) <= evicted
    ensures Within(e, engine, ids + evicted) && engine.slots.Keys <= e.slots.Keys + ids
  {
  }

  lemma HeadBatchRuns(c: Config, s: System) returns (after: Engine, out: seq<seq<Row>>)
    requires Shaped(c, s) && s.phase.Computing?
    requires Registered(s.asked) && Rounds(c, s.phase, s.head.queue, s.asked)
    ensures HeadRan(c, s, after, out)
  {
    RoundIsEnrolled(c, s);
    SentBatch(s.phase.batch, s.phase.first, s.asked);
    hide Rounds, Registered, HeadRan, HasRows, DistinctIds;
    after, out := HeadRuns(c, s);
  }

  /** On one machine the tokens are there at once. */
  lemma SampledKeeps(c: Config, s: System, after: Engine, out: seq<seq<Row>>, draws: seq<Draw>, s': System)
    requires Inv(c, s) && s.phase.Computing? && LossesCounted(c, s) && HeadRan(c, s, after, out)
    requires c.Stages() == 1 && |draws| == |s.phase.batch| == |LastRows(out)|
    requires s' == s.(engines := s.engines[0 := after],
                      phase := Delivering(s.phase.batch, SampledBatch(c.model, LastRows(out), s.phase.batch, draws), 0))
    ensures Right(c, s')
  {
    hide Registered, Queued, Ticketed, LeftForGood, Rounds, Heard, Accounts, Endings, Speech, Records, Remembered,
         Caches, Landing, Addressed, Harmless, OnTheWay, Returning, HeadOutcome, OnlyTouched, MembersAlone,
         LossesCounted, HeadLost, Carried, SampledBatch, LastRows, Embedded;
    var batch, spared := s.phase.batch, Spared(s.head.queue, s.evicted);
    HeadBatchAdvances(c, s, after, out);
    SampledIsAnswered(c, s'.engines, spared, batch, batch, s.phase.first, out, draws);
    hide Spared;
    AllAnswered(c, s'.phase, s'.engines, spared);
    NobodyElseComputed(c, s, after, s');
    AddressedOutsideWaiting(c, s, s'.phase);
    NothingInFlight(c, s'.phase, s', s'.engines);
  }

  lemma AllAnswered(c: Config, p: Phase, engines: seq<Engine>, running: set<Id>)
    requires c.Valid() && |engines| == c.Stages() && p.Delivering? && |p.tokens| == |p.batch|
    requires forall k | 0 <= k < |p.batch| :: Answered(c, engines, running, p.batch[k], p.tokens[k])
    ensures Landing(c, p, engines, running)
  {
  }

  /** What the head's step leaves alone, with or without later stages. */
  lemma NobodyElseComputed(c: Config, s: System, after: Engine, s': System)
    requires Inv(c, s) && s.phase.Computing? && LossesCounted(c, s) && Fitted(c.ShardOf(0), after)
    requires OnlyTouched(s.engines[0], after, Ids(s.phase.batch), HeadLost(c, s, s.phase.batch, s.phase.first))
    requires s'.engines == s.engines[0 := after] && s'.head == s.head && s'.asked == s.asked && s'.evicted == s.evicted
    requires Batch(s'.phase) == s.phase.batch && Through(s'.phase) == 0
    requires s'.phase.Waiting? ==> s'.phase.first == s.phase.first
    requires s'.phase.Waiting? || (s'.phase.Delivering? && |s'.phase.tokens| == |s'.phase.batch|)
    ensures Shaped(c, s') && Remembered(s'.engines, s'.asked)
    ensures Caches(c, s'.phase, s'.head.queue, s'.engines, s'.evicted)
    ensures Harmless(s'.phase, s'.head.queue, s.activations)
  {
    hide Registered, Queued, Ticketed, LeftForGood, Rounds, Heard, Accounts, Endings, Speech, Records, Remembered,
         Caches, Landing, Addressed, Harmless, OnTheWay, Returning, HeadLost, Within, OnlyTouched;
    RoundIsEnrolled(c, s);
    SentBatch(s.phase.batch, s.phase.first, s.asked);
    TouchedWithin(s.engines[0], after, Ids(s.phase.batch), HeadLost(c, s, s.phase.batch, s.phase.first), s.evicted);
    hide Ids;
    StillRemembered(s.engines, s.asked, 0, after, Ids(s.phase.batch));
    RoundGoesOn(c, s, s'.phase);
    OthersKeepTheirCaches(c, s, s'.phase, after);
    OldMailIsHarmless(c, s, s'.phase);
  }

  /** The message the head sends: readable, and faithful to every live member's reference run. */
  lemma SentIsFaithful(c: Config, s: System, after: Engine, out: seq<seq<Row>>, p: Phase, m: Activations)
    requires Shaped(c, s) && s.phase.Computing? && c.Stages() > 1
    requires Registered(s.asked) && Rounds(c, s.phase, s.head.queue, s.asked)
    requires |out| == |s.phase.batch| && Lengths(out) == Widths(s.phase.batch, s.phase.first)
    requires forall k | 0 <= k < |out| ::
               Carried(c, s.engines[0 := after], Spared(s.head.queue, s.evicted), s.phase.batch[k], 1, out[k])
    requires p.Waiting? && p.batch == s.phase.batch && p.first == s.phase.first
    requires m == Activations(p.batchId, 1, p.first, Packed(p.batch, p.first), Glue(out))
    ensures Readable(m, s.asked) && Faithful(c, p, s.engines[0 := after], Spared(s.head.queue, s.evicted), m)
  {
    RoundIsEnrolled(c, s);
    SentBatch(p.batch, p.first, s.asked);
    CutUndoesGlue(out, Widths(p.batch, p.first));
  }

  /** A batch with a new name joins the mail. */
  lemma MailGrows(c: Config, s: System, s': System, m: Activations)
    requires Shaped(c, s) && |s'.engines| == c.Stages() > 1 && !s.phase.Waiting? && s'.phase.Waiting?
    requires Addressed(c, s.phase, s.activations, s.answers, s.batches, s.asked)
    requires Harmless(s'.phase, s'.head.queue, s.activations)
    requires s'.phase.batchId == m.batchId && m.batchId !in s.batches && m.target == 1
    requires s'.activations == s.activations + {m} && s'.answers == s.answers
    requires s'.batches == s.batches + {m.batchId} && s'.asked == s.asked
    requires Readable(m, s.asked) && Faithful(c, s'.phase, s'.engines, Spared(s'.head.queue, s'.evicted), m)
    ensures Addressed(c, s'.phase, s'.activations, s'.answers, s'.batches, s'.asked)
    ensures Harmless(s'.phase, s'.head.queue, s'.activations)
    ensures OnTheWay(c, s'.phase, s'.engines, Spared(s'.head.queue, s'.evicted), s'.activations)
    ensures Returning(c, s'.phase, s'.engines, Spared(s'.head.queue, s'.evicted), s'.answers)
    ensures Landing(c, s'.phase, s'.engines, Spared(s'.head.queue, s'.evicted))
  {
    hide Readable, Faithful, Doomed, Answered;
  }

  /** With later stages the rows go out in a message with a new name. */
  lemma SentKeeps(c: Config, s: System, after: Engine, out: seq<seq<Row>>, m: Activations, s': System)
    requires Inv(c, s) && s.phase.Computing? && LossesCounted(c, s) && HeadRan(c, s, after, out)
    requires c.Stages() > 1 && m.batchId !in s.batches
    requires m == Activations(m.batchId, 1, s.phase.first, Packed(s.phase.batch, s.phase.first), Glue(out))
    requires s' == s.(engines := s.engines[0 := after], phase := Waiting(s.phase.batch, s.phase.first, m.batchId),
                      batches := s.batches + {m.batchId}, activations := s.activations + {m})
    ensures Right(c, s')
  {
    hide Registered, Queued, Ticketed, LeftForGood, Rounds, Heard, Accounts, Endings, Speech, Records, Remembered,
         Caches, Landing, Addressed, Harmless, OnTheWay, Returning, HeadOutcome, OnlyTouched, MembersAlone,
         LossesCounted, HeadLost, Carried, HasRows, Packed, Glue, Embedded, Spared;
    HeadBatchAdvances(c, s, after, out);
    SentIsFaithful(c, s, after, out, s'.phase, m);
    NobodyElseComputed(c, s, after, s');
    MailGrows(c, s, s', m);
  }

  /** What the step makes of the state, once the losses are counted. */
  lemma ComputedState(c: Config, s: System, batchId: BatchId, draws: seq<Draw>, s': System, after: Engine,
                      out: seq<seq<Row>>)
    requires Shaped(c, s) && HeadStep(c, s, Compute(batchId, draws), s')
    requires HeadRan(c, s.(evicted := s'.evicted), after, out)
    ensures var counted, batch, first := s.(evicted := s'.evicted), s.phase.batch, s.phase.first;
            && s.evicted <= s'.evicted && LossesCounted(c, counted) && batchId !in s.batches && |draws| == |batch|
            && (c.Stages() == 1 ==>
                  && |LastRows(out)| == |batch|
                  && s' == counted.(engines := s.engines[0 := after],
                                    phase := Delivering(batch, SampledBatch(c.model, LastRows(out), batch, draws), 0)))
            && (c.Stages() > 1 ==>
                  s' == counted.(engines := s.engines[0 := after], phase := Waiting(batch, first, batchId),
                                 batches := s.batches + {batchId},
                                 activations := s.activations
                                   + {Activations(batchId, 1, first, Packed(batch, first), Glue(out))}))
  {
    hide Stepped, Lost, Packed, SampledBatch, LastRows, Glue, MembersAlone, OnlyTouched, Embedded, Widths, HasRows;
  }

  /** The head computes a batch, whoever loses its slot for it. */
  lemma ComputeKeeps(c: Config, s: System, batchId: BatchId, draws: seq<Draw>, s': System)
    requires Inv(c, s) && HeadStep(c, s, Compute(batchId, draws), s')
    ensures Right(c, s')
  {
    RightIsShaped(c, s);
    hide Registered, Queued, Ticketed, LeftForGood, Heard, Accounts, Endings, Rounds, Right, Shaped, HeadRan, Packed,
         SampledBatch, LastRows, Glue, HeadOutcome, HeadLost, HasRows, LossesCounted;
    var counted := s.(evicted := s'.evicted);
    assert Shaped(c, counted) by { SameShape(c, s, counted); }
    var after, out := HeadBatchRuns(c, counted);
    ComputedState(c, s, batchId, draws, s', after, out);
    hide HeadStep;
    FewerSpared(c, s, s'.evicted);
    if c.Stages() == 1 {
      SampledKeeps(c, counted, after, out, draws, s');
    } else {
      var m := Activations(batchId, 1, s.phase.first, Packed(s.phase.batch, s.phase.first), Glue(out));
      SentKeeps(c, counted, after, out, m, s');
    }
  }

  lemma SameShape(c: Config, s: System, t: System)
    requires Shaped(c, s) && t.engines == s.engines
    ensures Shaped(c, t)
  {
  }

  /** The head fails on a batch, whoever lost its slot for it. */
  lemma HeadFailureKeeps(c: Config, s: System, engine: Engine, s': System)
    requires Inv(c, s) && HeadStep(c, s, ComputeFails(engine), s')
    ensures Right(c, s')
  {
    RightIsShaped(c, s);
    hide Registered, Queued, Ticketed, LeftForGood, Heard, Accounts, Endings, Rounds, Right, Shaped, Spoilt;
    FewerSpared(c, s, s'.evicted);
    ComputeFailsKeeps(c, s.(evicted := s'.evicted), engine, s');
  }

  lemma RightIsShaped(c: Config, s: System)
    requires Right(c, s)
    ensures Shaped(c, s)
  {
  }
}
