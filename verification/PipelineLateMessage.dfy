/**
 A run in which a later stage leaks a slot: a request is asked for, computed on by the head, and given up
 while its rows are on their way; the stage frees its slot, and handles the message after that.
 */
module PipelineLateMessage {
  import opened Wrappers
  import opened Transformer
  import opened Sequences
  import opened BatchWire
  import opened Scheduling
  import opened Engines
  import opened Heads
  import opened Pipeline
  import opened PipelineInvariant
  import opened PipelineRounds
  import opened PipelineStages
  import opened PipelineDelivery
  import opened PipelineTheorems
  import opened PipelineSlots
  import opened PipelineReach
  import opened PipelineJourney
  import opened PipelineLeaks

  /** Two machines or more, and a budget for one token. */
  ghost predicate Several(c: Config) {
    c.Valid() && c.Stages() > 1 && c.limits.maxBatchTokens > 0
  }

  function Blank(c: Config): System
    requires |c.cuts| >= 2
  {
    System(NEW_HEAD, Idle, seq(c.Stages(), _ => Engine(map[], 0)), {}, {}, {}, {}, {}, map[], {}, {}, {})
  }

  /** The only request. */
  const ONLY := Request("only", [0], [], Sampling(0.0, 1.0, None), 9)

  /** The head's state while this request is on it alone. */
  function Busy(q: Queue, r: Request): HeadState {
    HeadState(q, {r.id}, [], map[r.id := []])
  }

  lemma BlankIsShaped(c: Config)
    requires c.Valid()
    ensures Init(c, Blank(c)) && Shaped(c, Blank(c)) && Reachable(c, 0, Blank(c))
  {
    ReachableFirst(c, 0, Blank(c));
  }

  lemma IsAskedFor(c: Config, r: Request) returns (s: System)
    requires Several(c) && r == ONLY
    ensures Reachable(c, 0, s) && Shaped(c, s)
    ensures s == Blank(c).(head := Busy(Queue([r], []), r), asked := map[r.id := r])
  {
    BlankIsShaped(c);
    s := Blank(c).(head := Busy(Queue([r], []), r), asked := map[r.id := r]);
    hide Reachable;
    ClientReaches(c, 0, Blank(c), Submit(r), s);
  }

  lemma TheOnlyOneIsChosen(c: Config, r: Request)
    requires c.Valid() && |r.prompt| == 1
    ensures NextBatch(Queue([r], []), c.limits) == (Prefill([r]), Queue([], [r]))
  {
    assert FreshCount([r], 1, 1, 0, c.limits) == 1;
    assert FreshCount([r], 0, 0, 0, c.limits) == 1;
    assert [r][..1] == [r] && [r][1..] == [] && [] + [r] == [r];
  }

  lemma IsChosen(c: Config, s: System, r: Request) returns (s': System)
    requires Several(c) && Reachable(c, 0, s) && Shaped(c, s) && |r.prompt| == 1
    requires s.phase == Idle && s.head == Busy(Queue([r], []), r) && s.parting == {}
    ensures Reachable(c, 0, s') && Shaped(c, s')
    ensures s' == s.(head := Busy(Queue([], [r]), r), phase := Computing([r], true))
  {
    var drained := s.(phase := Drained);
    TheOnlyOneIsChosen(c, r);
    hide Reachable, NextBatch, Fitted;
    HeadReaches(c, 0, s, DrainedAll, drained);
    s' := s.(head := Busy(Queue([], [r]), r), phase := Computing([r], true));
    HeadReaches(c, 0, drained, Select, s');
  }

  lemma NobodyMakesRoom(c: Config, s: System, r: Request)
    requires Several(c) && Shaped(c, s) && s.engines[0].slots == map[] && r.prompt != []
    ensures HeadLost(c, s, [r], true) == {}
    ensures HeadOutcome(c, s, [r], true).0.slots.Keys == {r.id}
  {
    var shard, e, pieces := c.ShardOf(0), s.engines[0], Embedded(c.model, [r], true);
    OneLoses(shard, e, [r], pieces, true);
    ForwardedAlone(shard, e, r.id, Where(r, true).0, pieces[0]);
    hide Forwarded, Embedded, BatchForwarded, Lost;
    assert e.slots.Keys == {};
  }

  lemma OutcomeIsShaped(c: Config, s: System, batch: seq<Request>)
    requires Several(c) && Shaped(c, s) && HasRows(batch, true)
    ensures Shaped(c, s.(engines := s.engines[0 := HeadOutcome(c, s, batch, true).0]))
    ensures HeadOutcome(c, s, batch, true).1.Hidden?
  {
    hide Stepped;
  }

  /** The head sends the rows out. */
  lemma IsSent(c: Config, s: System, r: Request) returns (s': System, m: Activations)
    requires Several(c) && Reachable(c, 0, s) && Shaped(c, s) && r.prompt != []
    requires s.phase == Computing([r], true) && s.parting == {} && s.evicted == {} && s.batches == {}
    requires s.engines[0].slots == map[]
    ensures Reachable(c, 0, s') && Shaped(c, s') && |s'.engines| == |s.engines|
    ensures s' == s.(engines := s.engines[0 := s'.engines[0]], phase := Waiting([r], true, m.batchId),
                     batches := {m.batchId}, activations := s.activations + {m})
    ensures m.target == 1 && m.first && m.members == Packed([r], true)
  {
    NobodyMakesRoom(c, s, r);
    OutcomeIsShaped(c, s, [r]);
    hide Reachable, HeadOutcome, HeadLost, Packed, Fitted;
    var (engine, out) := HeadOutcome(c, s, [r], true);
    m := Activations("", 1, true, Packed([r], true), out.rows);
    s' := s.(engines := s.engines[0 := engine], phase := Waiting([r], true, ""), batches := {""},
             activations := s.activations + {m});
    assert s.evicted + HeadLost(c, s, [r], true) == s.evicted && s.batches + {""} == {""};
    HeadReaches(c, 0, s, Compute("", [0]), s');
  }

  /** No answer comes, and the head gives the batch up. */
  lemma IsGivenUp(c: Config, s: System, r: Request) returns (s': System)
    requires Reachable(c, 0, s) && Shaped(c, s) && s.parting == {}
    requires s.phase.Waiting? && s.phase.batch == [r]
    ensures Reachable(c, 0, s') && Shaped(c, s') && s' == s.(phase := Failing([r], 0))
  {
    s' := s.(phase := Failing([r], 0));
    hide Reachable, Fitted;
    HeadReaches(c, 0, s, GiveUp, s');
  }

  lemma TheOnlyOneIsGone(r: Request)
    ensures Finished(Queue([], [r]), r.id) == Queue([], [])
  {
    assert Without([r], r.id) == [];
  }

  lemma OnlyAnError(h: HeadState, id: Id)
    requires h.tickets == {id} && h.streams == map[id := []]
    ensures StreamsAfter(h, id, [ErrorEvent]) == map[id := [ErrorEvent]] && h.tickets - {id} == {}
  {
    assert [] + [ErrorEvent] == [ErrorEvent];
  }

  /** The member is told that it failed, and put up for release. */
  lemma HasFailed(c: Config, s: System, r: Request) returns (s': System)
    requires Reachable(c, 0, s) && Shaped(c, s) && s.parting == {}
    requires s.phase == Failing([r], 0) && s.head == Busy(Queue([], [r]), r)
    ensures Reachable(c, 0, s') && Shaped(c, s')
    ensures s' == s.(head := HeadState(Queue([], []), {}, [r.id], map[r.id := [ErrorEvent]]), phase := Idle)
  {
    FailedHead(s.head, r.id);
    TheOnlyOneIsGone(r);
    OnlyAnError(s.head, r.id);
    hide Reachable, Failed, Finished, Fitted;
    var failed := s.(head := Failed(s.head, r.id), phase := Failing([r], 1));
    HeadReaches(c, 0, s, Action.Fail, failed);
    s' := failed.(phase := Idle);
    HeadReaches(c, 0, failed, FinishRound, s');
  }

  /** The head frees its slot, and so does the next stage. */
  lemma IsFreed(c: Config, s: System, id: Id) returns (s': System)
    requires Several(c) && Reachable(c, 0, s) && Shaped(c, s) && s.parting == {} && s.frees == {}
    requires s.phase == Idle && s.head.toRelease == [id]
    ensures Reachable(c, 0, s') && Shaped(c, s') && |s'.engines| == |s.engines|
    ensures s' == s.(head := s.head.(toRelease := []), engines := s'.engines, frees := s'.frees)
    ensures s'.engines[1] == Freed(s.engines[1], id) && (1, id) !in s'.frees
  {
    hide Reachable, Fitted;
    var more := set stage | 0 < stage < c.Stages() :: (stage, id);
    var drained := s.(head := s.head.(toRelease := []), engines := s.engines[0 := Freed(s.engines[0], id)],
                      frees := more);
    assert Fitted(c.ShardOf(0), Freed(s.engines[0], id)) by { FreedIsFitted(c.ShardOf(0), s.engines[0], id); }
    HeadReaches(c, 0, s, Drain, drained);
    assert (1, id) in more;
    s' := drained.(engines := drained.engines[1 := Freed(s.engines[1], id)], frees := more - {(1, id)});
    assert Fitted(c.ShardOf(1), Freed(s.engines[1], id)) by { FreedIsFitted(c.ShardOf(1), s.engines[1], id); }
    StageReaches(c, 0, drained, StageFrees(1, id), s');
  }

  lemma FreedIsFitted(shard: Shard, e: Engine, id: Id)
    requires Fitted(shard, e)
    ensures Fitted(shard, Freed(e, id))
  {
  }

  /** Everybody has let go of the request, and its message is still on its way to the second stage. */
  ghost predicate StillOnItsWay(c: Config, s: System, r: Request, m: Activations) {
    && Shaped(c, s) && c.Stages() > 1 && s.evicted == {} && s.parting == {}
    && s.engines[1].slots == map[] && Stranded(s, 1, r.id) && s.asked == map[r.id := r] && Askable(r)
    && s.cancelled == {} && s.head.streams == map[r.id := [ErrorEvent]]
    && m in s.activations && m.target == 1 && m.first && m.members == Packed([r], true)
  }

  lemma LetGoOf(c: Config) returns (s: System, r: Request, m: Activations)
    requires Several(c)
    ensures Reachable(c, 0, s) && StillOnItsWay(c, s, r, m)
  {
    r := ONLY;
    hide Reachable, Packed, Fitted;
    var asked := IsAskedFor(c, r);
    var chosen := IsChosen(c, asked, r);
    var sent;
    sent, m := IsSent(c, chosen, r);
    var givenUp := IsGivenUp(c, sent, r);
    var failed := HasFailed(c, givenUp, r);
    s := IsFreed(c, failed, r.id);
    assert s.engines[1].slots == map[];
    assert s.head.queue.Live() == {} by { NobodyIsChosen(); }
  }

  lemma OneMemberIsSeen(r: Request, m: Activations, asked: map<Id, Request>)
    requires Askable(r) && asked == map[r.id := r] && m.members == Packed([r], true)
    ensures Unpacked(m.members).Ok? && Ids(Views(m)) == {r.id} && HasRows(Views(m), true) && |m.members| == 1
  {
    var batch := [r];
    assert r.Asked() == r;
    assert DistinctIds(batch) by { NobodyElse(r); }
    SentBatch(batch, true, asked);
    assert Ids(batch) == {r.id};
  }

  lemma NobodyElse(r: Request)
    ensures DistinctIds([r])
  {
  }

  /** The second stage computes on the message. */
  lemma HandlesIt(c: Config, s: System, r: Request, m: Activations) returns (s': System)
    requires StillOnItsWay(c, s, r, m)
    ensures StageStep(c, s, StageComputes(m, [0]), s') && r.id in WorkedOn(s, StageComputes(m, [0]), 1)
    ensures RoomFor(c, s, m) && s'.parting == {} && s'.head == s.head && s'.cancelled == s.cancelled
  {
    OneMemberIsSeen(r, m, s.asked);
    hide Packed, Unpacked, StageOutcome, StageLost, Fitted, HasRows, Ids, Stranded, Askable;
    assert s.engines[1].slots.Keys + {r.id} == {r.id};
    var (engine, out) := StageOutcome(c, s.engines[1], m, [0]);
    s' := s.(engines := s.engines[1 := engine], evicted := s.evicted + StageLost(c, s.engines[1], m),
             activations := s.activations - {m} + (if out.Ok? then {out.value} else {}),
             answers := s.answers + (if out.Err? then {out.error} else {}));
  }

  lemma HandledWithRoom(c: Config, s: System, m: Activations, s': System)
    requires Inv(c, s) && Shaped(c, s) && StageStep(c, s, StageComputes(m, [0]), s') && RoomFor(c, s, m)
    ensures s'.evicted == s.evicted
  {
    hide Inv, Fitted, RoomFor;
    assert HasPlaces(c, s, StageComputes(m, [0]));
    StagesEvictNobody(c, s, StageComputes(m, [0]), s');
  }

  /**
   With two machines or more there is a run without an eviction in which the second stage holds a slot of
   a request that has been told its end, and that nobody will ever free.
   */
  lemma AMessageComesTooLate(c: Config) returns (states: seq<System>, actions: seq<Action>, id: Id)
    requires Several(c)
    ensures Run(c, states, actions) && states[|actions|].evicted == {}
    ensures Stranded(states[|actions|], 1, id) && id !in states[|actions|].cancelled
    ensures id in states[|actions|].head.streams && Closed(states[|actions|].head.streams[id])
    ensures |states[|actions|].engines| > 1 && id in states[|actions|].engines[1].slots
  {
    hide Reachable, Stranded, StageStep, HeadStep, ClientStep, Inv, Shaped, RoomFor, Run, WorkedOn, Reaches;
    var s, r, m := LetGoOf(c);
    id := r.id;
    var s' := HandlesIt(c, s, r, m);
    assert Next(c, s, StageComputes(m, [0]), s');
    states, actions := RunTo(c, 0, s, StageComputes(m, [0]), s');
    var j := |actions| - 1;
    InvariantHolds(c, states, actions, j);
    InvSpeaksOfAllStages(c, s);
    HandledWithRoom(c, s, m, s');
    LateMessageMakesASlot(c, states, actions, j, 1, id);
  }

}
