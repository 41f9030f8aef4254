/** The steps of the later stages: computing on a message, failing on it, and freeing. */
module PipelineStages {
  import opened Wrappers
  import opened Transformer
  import opened Sequences
  import opened BatchWire
  import opened Engines
  import opened Pipeline
  import opened PipelineInvariant
  import opened PipelineRounds
  import opened PipelineCompute

  function Views(m: Activations): seq<Request> {
    if Unpacked(m.members).Ok? then Unpacked(m.members).value else []
  }

  // ---------------------------------------------------------------- what a message is about

  /** The current message names exactly the batch of the round. */
  lemma CurrentViews(c: Config, s: System, m: Activations)
    requires Shaped(c, s) && Registered(s.asked) && Rounds(c, s.phase, s.head.queue, s.asked)
    requires m in s.activations && Current(s.phase, m.batchId) && 0 < m.target < c.Stages()
    requires OnTheWay(c, s.phase, s.engines, Spared(s.head.queue, s.evicted), s.activations)
    ensures Faithful(c, s.phase, s.engines, Spared(s.head.queue, s.evicted), m)
    ensures Unpacked(m.members).Ok? && |Views(m)| == |s.phase.batch|
    ensures forall k | 0 <= k < |Views(m)| :: Views(m)[k] == OnStage(s.phase.batch[k], s.phase.first)
    ensures Ids(Views(m)) == Ids(s.phase.batch)
    ensures forall id | !Awaits(s.phase, id) :: id !in Ids(Views(m))
    ensures Widths(Views(m), m.first) == Widths(s.phase.batch, s.phase.first)
  {
    hide Carried, HasRows, DistinctIds, Registered;
    assert Faithful(c, s.phase, s.engines, Spared(s.head.queue, s.evicted), m);
    RoundIsEnrolled(c, s);
    hide Rounds, OnTheWay, Faithful;
    SentBatch(s.phase.batch, s.phase.first, s.asked);
    AllAwaited(s.phase);
    hide Ids;
    assert forall k | 0 <= k < |Views(m)| :: Width(Views(m)[k], m.first) == Width(s.phase.batch[k], s.phase.first);
    assert Widths(Views(m), m.first) == Widths(s.phase.batch, s.phase.first);
  }

  /**
   A stage handles a message, with whatever outcome. Nothing else that is said of live requests is
   affected: either they are not in the message, or it is the current one and they are still awaited.
   */
  lemma OthersUnaffected(c: Config, s: System, m: Activations, engine: Engine)
    requires Shaped(c, s) && m in s.activations && 0 < m.target < c.Stages()
    requires Registered(s.asked) && Rounds(c, s.phase, s.head.queue, s.asked)
    requires Addressed(c, s.phase, s.activations, s.answers, s.batches, s.asked)
    requires Harmless(s.phase, s.head.queue, s.activations)
    requires OnTheWay(c, s.phase, s.engines, Spared(s.head.queue, s.evicted), s.activations)
    requires Returning(c, s.phase, s.engines, Spared(s.head.queue, s.evicted), s.answers)
    requires Caches(c, s.phase, s.head.queue, s.engines, s.evicted)
    requires Landing(c, s.phase, s.engines, Spared(s.head.queue, s.evicted))
    requires Within(s.engines[m.target], engine, Ids(Views(m)) + s.evicted)
    ensures var engines := s.engines[m.target := engine];
            && Caches(c, s.phase, s.head.queue, engines, s.evicted)
            && Landing(c, s.phase, engines, Spared(s.head.queue, s.evicted))
            && OnTheWay(c, s.phase, engines, Spared(s.head.queue, s.evicted), s.activations - {m})
            && Returning(c, s.phase, engines, Spared(s.head.queue, s.evicted), s.answers)
  {
    assert Readable(m, s.asked);
    if Current(s.phase, m.batchId) {
      CurrentViews(c, s, m);
      hide Halfway, Rounds, Registered, Readable, Faithful, Harmless;
      CachesElsewhere(c, s.phase, s.head.queue, s.engines, s.evicted, m.target, engine);
    } else {
      assert Doomed(s.phase, s.head.queue, Ids(Views(m)));
      hide Caches, Landing, Returning, Halfway, Rounds, Registered, Readable, Faithful, Harmless;
      DoomedDoNotMatter(c, s, s.phase, m.target, engine, Ids(Views(m)));
    }
  }

  /** Slots stay within what was asked for. */
  lemma MessageRemembered(c: Config, s: System, m: Activations, engine: Engine)
    requires Shaped(c, s) && m in s.activations && 0 < m.target < c.Stages()
    requires Addressed(c, s.phase, s.activations, s.answers, s.batches, s.asked)
    requires Remembered(s.engines, s.asked)
    requires engine.slots.Keys <= s.engines[m.target].slots.Keys + Ids(Views(m))
    ensures Remembered(s.engines[m.target := engine], s.asked)
  {
    assert Readable(m, s.asked);
    StillRemembered(s.engines, s.asked, m.target, engine, Ids(Views(m)));
  }

  // ---------------------------------------------------------------- how the mail changes

  lemma MailAfterAnswer(c: Config, s: System, m: Activations, a: Answer)
    requires c.Valid() && m in s.activations && a.batchId == m.batchId
    requires Addressed(c, s.phase, s.activations, s.answers, s.batches, s.asked)
    requires Harmless(s.phase, s.head.queue, s.activations)
    ensures Addressed(c, s.phase, s.activations - {m}, s.answers + {a}, s.batches, s.asked)
    ensures Harmless(s.phase, s.head.queue, s.activations - {m})
  {
    hide Readable, Doomed;
  }

  lemma MailAfterForward(c: Config, s: System, m: Activations, next: Activations)
    requires c.Valid() && m in s.activations && 0 < m.target < c.Stages() - 1
    requires next == m.(target := m.target + 1, rows := next.rows)
    requires Addressed(c, s.phase, s.activations, s.answers, s.batches, s.asked)
    requires Harmless(s.phase, s.head.queue, s.activations)
    ensures Addressed(c, s.phase, s.activations - {m} + {next}, s.answers, s.batches, s.asked)
    ensures Harmless(s.phase, s.head.queue, s.activations - {m} + {next})
  {
    assert Readable(m, s.asked);
    assert Readable(next, s.asked);
    hide Readable, Doomed;
  }

  // ---------------------------------------------------------------- failing

  lemma TroubleKeeps(c: Config, s: System, m: Activations, engine: Engine, s': System)
    requires Inv(c, s) && m in s.activations && 0 < m.target < c.Stages()
    requires Fitted(c.ShardOf(m.target), engine) && Within(s.engines[m.target], engine, Ids(Views(m)) + s.evicted)
    requires engine.slots.Keys <= s.engines[m.target].slots.Keys + Ids(Views(m))
    requires s' == s.(engines := s.engines[m.target := engine], activations := s.activations - {m},
                      answers := s.answers + {Trouble(m.batchId)})
    ensures Right(c, s')
  {
    hide Registered, Queued, Ticketed, LeftForGood, Rounds, Heard, Accounts, Endings, Speech, Records, Remembered,
         Caches, Landing, Addressed, Harmless, OnTheWay, Returning, Within, Views;
    OthersUnaffected(c, s, m, engine);
    MessageRemembered(c, s, m, engine);
    MailAfterAnswer(c, s, m, Trouble(m.batchId));
    ReturningMore(c, s.phase, s'.engines, Spared(s.head.queue, s.evicted), s.answers, Trouble(m.batchId));
  }

  lemma ReturningMore(c: Config, p: Phase, engines: seq<Engine>, running: set<Id>, answers: set<Answer>, a: Answer)
    requires c.Valid() && |engines| == c.Stages() && Returning(c, p, engines, running, answers)
    requires Current(p, a.batchId) && a.Tokens? ==>
               && |a.tokens| == |p.batch|
               && forall k | 0 <= k < |a.tokens| :: Answered(c, engines, running, p.batch[k], a.tokens[k])
    ensures Returning(c, p, engines, running, answers + {a})
  {
    hide Answered;
  }

  /** A stage fails on a message, whoever lost its slot for it. */
  lemma StageFailsKeeps(c: Config, s: System, m: Activations, engine: Engine, s': System)
    requires Inv(c, s) && StageStep(c, s, StageFails(m, engine), s')
    ensures Right(c, s')
  {
    RightIsShaped(c, s);
    hide Registered, Queued, Ticketed, LeftForGood, Rounds, Heard, Accounts, Endings, Right, Shaped, Spoilt, Within,
         Ousted;
    var counted, ids := s.(evicted := s'.evicted), Ids(Views(m));
    FewerSpared(c, s, s'.evicted);
    SpoiltWithin(c.ShardOf(m.target), s.engines[m.target], engine, ids, s'.evicted);
    SpoiltIsFitted(c.ShardOf(m.target), s.engines[m.target], engine, ids);
    TroubleKeeps(c, counted, m, engine, s');
  }

  lemma SpoiltIsFitted(shard: Shard, e: Engine, engine: Engine, ids: set<Id>)
    requires Spoilt(shard, e, engine, ids)
    ensures Fitted(shard, engine)
  {
  }

  // ---------------------------------------------------------------- computing

  lemma OutcomeOfPieces(c: Config, e: Engine, m: Activations, draws: seq<Draw>, pieces: seq<seq<Row>>, after: Engine,
                        out: seq<seq<Row>>)
    requires c.Valid() && 0 < m.target < c.Stages() && Fitted(c.ShardOf(m.target), e) && |draws| == |m.members|
    requires Unpacked(m.members).Ok? && HasRows(Views(m), m.first) && |out| == |Views(m)|
    requires forall k | 0 <= k < |out| :: out[k] != []
    requires Stepped(c.ShardOf(m.target), e, Views(m), Some(m.rows), m.first)
          == (after, Ok(if m.target == c.Stages() - 1 then Logits(LastRows(out)) else Hidden(Glue(out))))
    ensures StageOutcome(c, e, m, draws)
         == (after, if m.target == c.Stages() - 1
                    then Err(Tokens(m.batchId, SampledBatch(c.model, LastRows(out), Views(m), draws)))
                    else Ok(m.(target := m.target + 1, rows := Glue(out))))
  {
    hide Stepped, Glue, HasRows;
  }

  lemma StageLostIs(c: Config, e: Engine, m: Activations, pieces: seq<seq<Row>>)
    requires c.Valid() && 0 < m.target < c.Stages() && Fitted(c.ShardOf(m.target), e) && Unpacked(m.members).Ok?
    requires Incoming(c.ShardOf(m.target), Views(m), Some(m.rows), m.first) == Ok(pieces)
    ensures StageLost(c, e, m) == Lost(c.ShardOf(m.target), e, Views(m), pieces, m.first, |Views(m)|)
  {
    hide Lost, Incoming;
  }

  /** What a stage makes of a message whose rows add up, member by member. */
  lemma StageRuns(c: Config, s: System, m: Activations, draws: seq<Draw>)
      returns (pieces: seq<seq<Row>>, after: Engine, out: seq<seq<Row>>)
    requires Shaped(c, s) && 0 < m.target < c.Stages() && |draws| == |m.members|
    requires Readable(m, s.asked)
    requires Incoming(c.ShardOf(m.target), Views(m), Some(m.rows), m.first).Ok?
    ensures RanOver(c, s, m, pieces, after, out)
    ensures StageOutcome(c, s.engines[m.target], m, draws)
         == (after, if m.target == c.Stages() - 1
                    then Err(Tokens(m.batchId, SampledBatch(c.model, LastRows(out), Views(m), draws)))
                    else Ok(m.(target := m.target + 1, rows := Glue(out))))
  {
    hide Incoming, Stepped, MemberAlone, OnlyTouched, HasRows, MembersAlone, DistinctIds, Lost, StageOutcome, StageLost,
         BatchForwarded, Glue, LastRows, SampledBatch, Lengths, Widths, Unpacked, Fitted, Ids;
    var shard, e, views := c.ShardOf(m.target), s.engines[m.target], Views(m);
    pieces := Incoming(shard, views, Some(m.rows), m.first).value;
    IncomingWidths(shard, views, Some(m.rows), m.first);
    MembersStayApart(shard, e, views, pieces, m.first);
    after, out := BatchForwarded(shard, e, views, pieces, m.first, |views|).0,
                  BatchForwarded(shard, e, views, pieces, m.first, |views|).1;
    WidthsOfPieces(pieces, out);
    SteppedPieces(shard, e, views, Some(m.rows), m.first, pieces, after, out);
    StageLostIs(c, e, m, pieces);
    OutcomeOfPieces(c, e, m, draws, pieces, after, out);
  }

  /** The stage's step, for the message of the current batch. */
  lemma CurrentAdvances(c: Config, s: System, m: Activations, pieces: seq<seq<Row>>, after: Engine, out: seq<seq<Row>>)
    requires Shaped(c, s) && m in s.activations && 0 < m.target < c.Stages() && Current(s.phase, m.batchId)
    requires Registered(s.asked) && Rounds(c, s.phase, s.head.queue, s.asked)
    requires OnTheWay(c, s.phase, s.engines, Spared(s.head.queue, s.evicted), s.activations)
    requires RanOver(c, s, m, pieces, after, out) && StageLost(c, s.engines[m.target], m) <= s.evicted
    ensures |Views(m)| == |s.phase.batch|
    ensures forall k | 0 <= k < |out| ::
              Carried(c, s.engines[m.target := after], Spared(s.head.queue, s.evicted), s.phase.batch[k], m.target + 1,
                      out[k])
    ensures forall k | 0 <= k < |out| :: Views(m)[k].sampling == s.phase.batch[k].sampling
    ensures m.first == s.phase.first && m.members == Packed(s.phase.batch, s.phase.first)
    ensures Widths(Views(m), m.first) == Widths(s.phase.batch, s.phase.first)
  {
    hide MembersAlone, OnTheWay, Registered, Carried, OnlyTouched, Incoming, Views, StageLost, Cut;
    CurrentViews(c, s, m);
    RoundIsEnrolled(c, s);
    hide Rounds;
    CurrentPieces(c, s, m, pieces, after, out);
    hide RanOver, Faithful, Widths;
    BatchAdvances(c, s.engines, m.target, Spared(s.head.queue, s.evicted), s.phase.batch, Views(m), pieces, m.first,
                  after, out, StageLost(c, s.engines[m.target], m));
  }

  /** What the stage ran over are the current batch's rows, cut at its widths. */
  lemma CurrentPieces(c: Config, s: System, m: Activations, pieces: seq<seq<Row>>, after: Engine, out: seq<seq<Row>>)
    requires Shaped(c, s) && 0 < m.target < c.Stages() && Current(s.phase, m.batchId)
    requires Faithful(c, s.phase, s.engines, Spared(s.head.queue, s.evicted), m)
    requires RanOver(c, s, m, pieces, after, out) && |Views(m)| == |s.phase.batch|
    requires Widths(Views(m), m.first) == Widths(s.phase.batch, s.phase.first)
    ensures |pieces| == |out| == |s.phase.batch|
    ensures forall k | 0 <= k < |pieces| ::
              Carried(c, s.engines, Spared(s.head.queue, s.evicted), s.phase.batch[k], m.target, pieces[k])
    ensures MembersAlone(c.ShardOf(m.target), s.engines[m.target], Views(m), pieces, m.first, after, out,
                         StageLost(c, s.engines[m.target], m))
  {
    hide MembersAlone, OnlyTouched, Carried, Views, StageLost, Cut, Widths, Lengths, Spared, Fitted;
    assert pieces == Cut(m.rows, Widths(s.phase.batch, s.phase.first));
  }

  lemma ForwardedIsFaithful(c: Config, s: System, m: Activations, after: Engine, out: seq<seq<Row>>, next: Activations)
    requires Shaped(c, s) && 0 < m.target < c.Stages() - 1 && Current(s.phase, m.batchId)
    requires |out| == |s.phase.batch|
    requires forall k | 0 <= k < |out| ::
               Carried(c, s.engines[m.target := after], Spared(s.head.queue, s.evicted), s.phase.batch[k], m.target + 1,
                      out[k])
    requires m.first == s.phase.first && m.members == Packed(s.phase.batch, s.phase.first)
    requires Lengths(out) == Widths(s.phase.batch, s.phase.first)
    requires next == m.(target := m.target + 1, rows := Glue(out))
    ensures Faithful(c, s.phase, s.engines[m.target := after], Spared(s.head.queue, s.evicted), next)
  {
    CutUndoesGlue(out, Widths(s.phase.batch, s.phase.first));
  }

  lemma OnTheWayMore(c: Config, p: Phase, engines: seq<Engine>, running: set<Id>, activations: set<Activations>,
                     m: Activations)
    requires c.Valid() && |engines| == c.Stages() && 0 < m.target < c.Stages()
    requires OnTheWay(c, p, engines, running, activations)
    requires Current(p, m.batchId) ==> Faithful(c, p, engines, running, m)
    ensures OnTheWay(c, p, engines, running, activations + {m})
  {
    hide Faithful;
  }

  /** What a stage's run over a message amounts to. */
  ghost predicate RanOver(c: Config, s: System, m: Activations, pieces: seq<seq<Row>>, after: Engine,
                          out: seq<seq<Row>>)
    requires Shaped(c, s) && 0 < m.target < c.Stages()
  {
    && |pieces| == |out| == |Views(m)| == |m.members|
    && Incoming(c.ShardOf(m.target), Views(m), Some(m.rows), m.first) == Ok(pieces)
    && Lengths(out) == Lengths(pieces) == Widths(Views(m), m.first)
    && (forall k | 0 <= k < |out| :: out[k] != [])
    && Fitted(c.ShardOf(m.target), after)
    && OnlyTouched(s.engines[m.target], after, Ids(Views(m)), StageLost(c, s.engines[m.target], m))
    && MembersAlone(c.ShardOf(m.target), s.engines[m.target], Views(m), pieces, m.first, after, out,
                    StageLost(c, s.engines[m.target], m))
  }

  /** The stage has run over the message, and whoever lost its slot for it is counted as evicted. */
  ghost predicate RanCounted(c: Config, s: System, m: Activations, pieces: seq<seq<Row>>, after: Engine,
                             out: seq<seq<Row>>)
    requires Shaped(c, s) && 0 < m.target < c.Stages()
  {
    RanOver(c, s, m, pieces, after, out) && StageLost(c, s.engines[m.target], m) <= s.evicted
  }

  lemma RanWithin(c: Config, s: System, m: Activations, pieces: seq<seq<Row>>, after: Engine, out: seq<seq<Row>>)
    requires Shaped(c, s) && 0 < m.target < c.Stages() && RanCounted(c, s, m, pieces, after, out)
    ensures Within(s.engines[m.target], after, Ids(Views(m)) + s.evicted)
    ensures after.slots.Keys <= s.engines[m.target].slots.Keys + Ids(Views(m)) && Fitted(c.ShardOf(m.target), after)
  {
    hide MembersAlone, OnlyTouched, Within, StageLost;
    TouchedWithin(s.engines[m.target], after, Ids(Views(m)), StageLost(c, s.engines[m.target], m), s.evicted);
  }

  lemma ForwardingKeepsTheWay(c: Config, s: System, m: Activations, pieces: seq<seq<Row>>, after: Engine,
                              out: seq<seq<Row>>, next: Activations)
    requires Shaped(c, s) && m in s.activations && 0 < m.target < c.Stages() - 1
    requires RanCounted(c, s, m, pieces, after, out) && next == m.(target := m.target + 1, rows := Glue(out))
    requires Registered(s.asked) && Rounds(c, s.phase, s.head.queue, s.asked)
    requires OnTheWay(c, s.phase, s.engines, Spared(s.head.queue, s.evicted), s.activations)
    requires OnTheWay(c, s.phase, s.engines[m.target := after], Spared(s.head.queue, s.evicted), s.activations - {m})
    ensures OnTheWay(c, s.phase, s.engines[m.target := after], Spared(s.head.queue, s.evicted),
                     s.activations - {m} + {next})
  {
    hide MembersAlone, Carried, Registered, Rounds, OnTheWay, Glue, OnlyTouched, Incoming, Views, Spared, StageLost;
    if Current(s.phase, m.batchId) {
      CurrentAdvances(c, s, m, pieces, after, out);
      ForwardedIsFaithful(c, s, m, after, out, next);
    }
    OnTheWayMore(c, s.phase, s.engines[m.target := after], Spared(s.head.queue, s.evicted), s.activations - {m}, next);
  }

  lemma ForwardKeeps(c: Config, s: System, m: Activations, pieces: seq<seq<Row>>, after: Engine, out: seq<seq<Row>>,
                     s': System)
    requires Inv(c, s) && m in s.activations && 0 < m.target < c.Stages() - 1 && RanCounted(c, s, m, pieces, after, out)
    requires s' == s.(engines := s.engines[m.target := after],
                      activations := s.activations - {m} + {m.(target := m.target + 1, rows := Glue(out))})
    ensures Right(c, s')
  {
    hide Registered, Queued, Ticketed, LeftForGood, Rounds, Heard, Accounts, Endings, Speech, Records, Remembered,
         Caches, Landing, Addressed, Harmless, OnTheWay, Returning, RanCounted, Within, Glue, Views;
    RanWithin(c, s, m, pieces, after, out);
    OthersUnaffected(c, s, m, after);
    MessageRemembered(c, s, m, after);
    MailAfterForward(c, s, m, m.(target := m.target + 1, rows := Glue(out)));
    ForwardingKeepsTheWay(c, s, m, pieces, after, out, m.(target := m.target + 1, rows := Glue(out)));
  }

  lemma AnswerReturns(c: Config, s: System, m: Activations, pieces: seq<seq<Row>>, after: Engine,
                      out: seq<seq<Row>>, draws: seq<Draw>)
    requires Shaped(c, s) && m in s.activations && m.target == c.Stages() - 1 > 0
    requires RanCounted(c, s, m, pieces, after, out) && |draws| == |out|
    requires Registered(s.asked) && Rounds(c, s.phase, s.head.queue, s.asked)
    requires OnTheWay(c, s.phase, s.engines, Spared(s.head.queue, s.evicted), s.activations)
    requires Returning(c, s.phase, s.engines[m.target := after], Spared(s.head.queue, s.evicted), s.answers)
    ensures Returning(c, s.phase, s.engines[m.target := after], Spared(s.head.queue, s.evicted),
                      s.answers + {Tokens(m.batchId, SampledBatch(c.model, LastRows(out), Views(m), draws))})
  {
    hide MembersAlone, Carried, Answered, Registered, Rounds, OnTheWay, Returning, OnlyTouched, Incoming, Views,
         SampledBatch, LastRows, StageLost, Spared;
    var running := Spared(s.head.queue, s.evicted);
    if Current(s.phase, m.batchId) {
      CurrentAdvances(c, s, m, pieces, after, out);
      SampledIsAnswered(c, s.engines[m.target := after], running, s.phase.batch, Views(m), m.first, out, draws);
    }
    ReturningMore(c, s.phase, s.engines[m.target := after], running, s.answers,
                  Tokens(m.batchId, SampledBatch(c.model, LastRows(out), Views(m), draws)));
  }

  lemma AnswerKeeps(c: Config, s: System, m: Activations, pieces: seq<seq<Row>>, after: Engine, out: seq<seq<Row>>,
                    draws: seq<Draw>, a: Answer, s': System)
    requires Inv(c, s) && m in s.activations && m.target == c.Stages() - 1 > 0
    requires RanCounted(c, s, m, pieces, after, out) && |draws| == |out|
    requires a == Tokens(m.batchId, SampledBatch(c.model, LastRows(out), Views(m), draws))
    requires s' == s.(engines := s.engines[m.target := after], activations := s.activations - {m},
                      answers := s.answers + {a})
    ensures Right(c, s')
  {
    AnswerReturnsWhenUnaffected(c, s, m, pieces, after, out, draws);
    hide Registered, Queued, Ticketed, LeftForGood, Rounds, Heard, Accounts, Endings, Speech, Records, Remembered,
         Caches, Landing, Addressed, Harmless, OnTheWay, Returning, RanCounted, Within, Views, SampledBatch, LastRows;
    RanWithin(c, s, m, pieces, after, out);
    OthersUnaffected(c, s, m, after);
    MessageRemembered(c, s, m, after);
    MailAfterAnswer(c, s, m, a);
  }

  lemma AnswerReturnsWhenUnaffected(c: Config, s: System, m: Activations, pieces: seq<seq<Row>>, after: Engine,
                                    out: seq<seq<Row>>, draws: seq<Draw>)
    requires Inv(c, s) && m in s.activations && m.target == c.Stages() - 1 > 0
    requires RanCounted(c, s, m, pieces, after, out) && |draws| == |out|
    ensures Returning(c, s.phase, s.engines[m.target := after], Spared(s.head.queue, s.evicted),
                      s.answers + {Tokens(m.batchId, SampledBatch(c.model, LastRows(out), Views(m), draws))})
  {
    hide Registered, Queued, Ticketed, LeftForGood, Rounds, Heard, Accounts, Endings, Speech, Records, Remembered,
         Caches, Landing, Addressed, Harmless, OnTheWay, Returning, Within, Views, SampledBatch, LastRows, MembersAlone,
         OnlyTouched, Incoming;
    RanWithin(c, s, m, pieces, after, out);
    OthersUnaffected(c, s, m, after);
    AnswerReturns(c, s, m, pieces, after, out, draws);
  }

  lemma MessageIsReadable(c: Config, s: System, m: Activations)
    requires c.Valid() && Addressed(c, s.phase, s.activations, s.answers, s.batches, s.asked) && m in s.activations
    ensures Readable(m, s.asked) && Unpacked(m.members).Ok? && Unpacked(m.members).value == Views(m)
    ensures HasRows(Views(m), m.first)
  {
  }

  /** The state after a stage computed, once the losses are counted. */
  lemma StageComputedState(c: Config, s: System, m: Activations, draws: seq<Draw>, s': System, engine: Engine,
                      outcome: Result<Activations, Answer>)
    requires Shaped(c, s) && StageStep(c, s, StageComputes(m, draws), s')
    requires StageOutcome(c, s.engines[m.target], m, draws) == (engine, outcome)
    ensures var counted := s.(evicted := s'.evicted);
            && s.evicted <= s'.evicted && StageLost(c, s.engines[m.target], m) <= s'.evicted
            && (outcome.Ok? ==> s' == counted.(engines := s.engines[m.target := engine],
                                               activations := s.activations - {m} + {outcome.value}))
            && (outcome.Err? ==> s' == counted.(engines := s.engines[m.target := engine],
                                                activations := s.activations - {m},
                                                answers := s.answers + {outcome.error}))
  {
    hide StageOutcome, StageLost;
  }

  lemma MismatchIsTrouble(c: Config, s: System, m: Activations, draws: seq<Draw>)
    requires Shaped(c, s) && 0 < m.target < c.Stages() && |draws| == |m.members|
    requires Unpacked(m.members).Ok? && HasRows(Views(m), m.first)
    requires Incoming(c.ShardOf(m.target), Views(m), Some(m.rows), m.first).Err?
    ensures StageOutcome(c, s.engines[m.target], m, draws) == (s.engines[m.target], Err(Trouble(m.batchId)))
  {
    hide Incoming, HasRows;
  }

  lemma NothingTouched(c: Config, s: System, m: Activations)
    requires Shaped(c, s) && 0 < m.target < c.Stages()
    ensures Within(s.engines[m.target], s.engines[m.target], Ids(Views(m)) + s.evicted)
    ensures Fitted(c.ShardOf(m.target), s.engines[m.target])
  {
  }

  /** A stage computes on a message, whoever loses its slot for it. */
  lemma StageComputesKeeps(c: Config, s: System, m: Activations, draws: seq<Draw>, s': System)
    requires Inv(c, s) && StageStep(c, s, StageComputes(m, draws), s')
    ensures Right(c, s')
  {
    RightIsShaped(c, s);
    RightIsAddressed(c, s);
    MessageIsReadable(c, s, m);
    hide Registered, Queued, Ticketed, LeftForGood, Rounds, Heard, Accounts, Endings, Right, Shaped, Addressed,
         Readable, StageOutcome, StageLost, Views, Incoming, Glue, LastRows, SampledBatch, HasRows, RanOver, Within,
         Unpacked;
    StageComputedState(c, s, m, draws, s', StageOutcome(c, s.engines[m.target], m, draws).0,
                       StageOutcome(c, s.engines[m.target], m, draws).1);
    hide StageStep;
    var counted := s.(evicted := s'.evicted);
    assert Shaped(c, counted) by { SameShape(c, s, counted); }
    FewerSpared(c, s, s'.evicted);
    if Incoming(c.ShardOf(m.target), Views(m), Some(m.rows), m.first).Err? {
      MismatchIsTrouble(c, s, m, draws);
      NothingTouched(c, counted, m);
      TroubleKeeps(c, counted, m, s.engines[m.target], s');
    } else {
      var pieces, after, out := StageRuns(c, counted, m, draws);
      if m.target < c.Stages() - 1 {
        ForwardKeeps(c, counted, m, pieces, after, out, s');
      } else {
        LastRowForEach(c, counted, m, pieces, after, out);
        var a := Tokens(m.batchId, SampledBatch(c.model, LastRows(out), Views(m), draws));
        AnswerKeeps(c, counted, m, pieces, after, out, draws, a, s');
      }
    }
  }

  lemma RightIsAddressed(c: Config, s: System)
    requires Right(c, s)
    ensures Addressed(c, s.phase, s.activations, s.answers, s.batches, s.asked)
  {
  }

  lemma LastRowForEach(c: Config, s: System, m: Activations, pieces: seq<seq<Row>>, after: Engine, out: seq<seq<Row>>)
    requires Shaped(c, s) && 0 < m.target < c.Stages() && RanOver(c, s, m, pieces, after, out)
    ensures |out| == |Views(m)| == |m.members| && forall k | 0 <= k < |out| :: out[k] != []
  {
    hide MembersAlone, OnlyTouched, Views, StageLost, Incoming;
  }

  // ---------------------------------------------------------------- freeing

  lemma FreedWithin(e: Engine, id: Id, evicted: set<Id>)
    ensures Within(e, Freed(e, id), {id} + evicted)
  {
  }

  lemma FreeIsForTheGone(s: System, stage: nat, id: Id)
    requires (stage, id) in s.frees
    requires LeftForGood(s.head.queue, s.asked, s.head.toRelease, s.parting, s.frees)
    ensures Doomed(s.phase, s.head.queue, {id})
  {
    assert Gone(s.head.queue, s.asked, (stage, id).1);
  }

  lemma StageFreesKeeps(c: Config, s: System, stage: nat, id: Id, s': System)
    requires Inv(c, s) && StageStep(c, s, StageFrees(stage, id), s')
    ensures Right(c, s')
  {
    hide Registered, Queued, Ticketed, LeftForGood, Rounds, Heard, Accounts, Endings, Speech, Records, Remembered,
         Caches, Landing, Addressed, Harmless, OnTheWay, Returning, Within, Doomed;
    FreeIsForTheGone(s, stage, id);
    FreedWithin(s.engines[stage], id, s.evicted);
    FreedIsRemembered(s.engines, s.asked, stage, id);
    DoomedDoNotMatter(c, s, s.phase, stage, Freed(s.engines[stage], id), {id});
  }

  lemma StageStepKeeps(c: Config, s: System, a: Action, s': System)
    requires Inv(c, s) && StageStep(c, s, a, s')
    ensures Right(c, s')
  {
    hide Ledger, Right, StageOutcome, StageLost, Spoilt, Ousted, HasRows, Unpacked;
    match a
    case StageComputes(m, draws) => StageComputesKeeps(c, s, m, draws, s');
    case StageFails(m, engine) => StageFailsKeeps(c, s, m, engine, s');
    case StageFrees(stage, id) => StageFreesKeeps(c, s, stage, id, s');
    case _ =>
  }
}
