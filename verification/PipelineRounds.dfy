/** The head thread between computations: draining, selecting, taking an answer, giving up, finishing. */
module PipelineRounds {
  import opened Sequences
  import opened BatchWire
  import opened Scheduling
  import opened Engines
  import opened Heads
  import opened Pipeline
  import opened PipelineInvariant

  // ---------------------------------------------------------------- what a change of phase leaves alone

  /** Outside the phases of waiting and delivering, nothing is said of rows and tokens. */
  lemma NothingInFlight(c: Config, p: Phase, s: System, engines: seq<Engine>)
    requires c.Valid() && |engines| == c.Stages()
    requires !p.Waiting?
    ensures !p.Delivering? ==> Landing(c, p, engines, Spared(s.head.queue, s.evicted))
    ensures OnTheWay(c, p, engines, Spared(s.head.queue, s.evicted), s.activations)
    ensures Returning(c, p, engines, Spared(s.head.queue, s.evicted), s.answers)
  {
  }

  /** From one phase outside a round to another. */
  lemma BetweenRounds(c: Config, p: Phase, p': Phase, s: System)
    requires c.Valid() && |s.engines| == c.Stages()
    requires forall id :: !Awaits(p, id)
    requires p'.Idle? || p'.Drained?
    requires !p.Waiting?
    ensures Rounds(c, p, s.head.queue, s.asked) ==> Rounds(c, p', s.head.queue, s.asked)
    ensures Caches(c, p, s.head.queue, s.engines, s.evicted) ==> Caches(c, p', s.head.queue, s.engines, s.evicted)
    ensures Harmless(p, s.head.queue, s.activations) ==> Harmless(p', s.head.queue, s.activations)
    ensures Addressed(c, p, s.activations, s.answers, s.batches, s.asked) ==>
              Addressed(c, p', s.activations, s.answers, s.batches, s.asked)
  {
    hide Halfway;
    assert forall id :: !Awaits(p', id);
    forall ids | Doomed(p, s.head.queue, ids) ensures Doomed(p', s.head.queue, ids) { }
  }

  // ---------------------------------------------------------------- releasing

  lemma DrainedCaches(c: Config, s: System, id: Id)
    requires Shaped(c, s) && Caches(c, s.phase, s.head.queue, s.engines, s.evicted) && Gone(s.head.queue, s.asked, id)
    ensures Caches(c, s.phase, s.head.queue, s.engines[0 := Freed(s.engines[0], id)], s.evicted)
  {
    hide Halfway;
    var q, engine := s.head.queue, Freed(s.engines[0], id);
    forall r {:trigger IsLive(q, r)} | IsLive(q, r) ensures Agree(s.engines[0], engine, r.id) {
      LiveIsNamed(q, r);
    }
    CachesElsewhere(c, s.phase, q, s.engines, s.evicted, 0, engine);
  }

  lemma FreedIsRemembered(engines: seq<Engine>, asked: map<Id, Request>, stage: nat, id: Id)
    requires Remembered(engines, asked) && stage < |engines|
    ensures Remembered(engines[stage := Freed(engines[stage], id)], asked)
  {
  }

  lemma DrainKeeps(c: Config, s: System, s': System)
    requires Inv(c, s) && HeadStep(c, s, Drain, s')
    ensures Right(c, s')
  {
    hide Registered, Queued, Ticketed, Rounds, Heard, Accounts, Endings, Speech, Records, Remembered, Caches, Landing,
         Addressed, Harmless, OnTheWay, Returning, Spared, Gone;
    var id := s.head.toRelease[0];
    assert Gone(s.head.queue, s.asked, id) by { assert id in s.head.toRelease; }
    DrainedCaches(c, s, id);
    FreedIsRemembered(s.engines, s.asked, 0, id);
    NothingInFlight(c, s.phase, s', s'.engines);
  }

  lemma DrainedAllKeeps(c: Config, s: System, s': System)
    requires Inv(c, s) && HeadStep(c, s, DrainedAll, s')
    ensures Right(c, s')
  {
    hide Registered, Queued, Ticketed, LeftForGood, Rounds, Speech, Records, Endings, Remembered, Caches, Landing,
         Addressed, Harmless, OnTheWay, Returning;
    assert forall id :: !Awaits(s.phase, id);
    BetweenRounds(c, s.phase, s'.phase, s);
    NothingInFlight(c, s'.phase, s', s'.engines);
  }

  lemma FinishRoundKeeps(c: Config, s: System, s': System)
    requires Inv(c, s) && HeadStep(c, s, FinishRound, s')
    ensures Right(c, s')
  {
    hide Registered, Queued, Ticketed, LeftForGood, Rounds, Speech, Records, Endings, Remembered, Caches, Landing,
         Addressed, Harmless, OnTheWay, Returning;
    assert forall id :: !Awaits(s.phase, id);
    BetweenRounds(c, s.phase, s'.phase, s);
    NothingInFlight(c, s'.phase, s', s'.engines);
  }

  // ---------------------------------------------------------------- selecting

  /** Between rounds everybody who runs has produced a token and may produce more. */
  lemma NobodyIsDone(c: Config, s: System)
    requires Rounds(c, s.phase, s.head.queue, s.asked) && s.phase.Drained?
    requires Heard(c, s.head.queue, s.head.tickets, s.head.streams)
    ensures forall r | r in s.head.queue.running :: r.output != [] && !r.Done()
  {
    forall r | r in s.head.queue.running ensures r.output != [] && !r.Done() {
      assert IsLive(s.head.queue, r);
      assert r.output == [] ==> Awaits(s.phase, r.id);
    }
  }

  lemma PrefillBatch(c: Config, q: Queue, after: Queue, batch: seq<Request>, asked: map<Id, Request>)
    requires Queued(c, q, asked) && batch != []
    requires q.waiting == batch + after.waiting && after.running == q.running + batch
    requires forall r | r in q.running :: r.output != []
    ensures Rounds(c, Computing(batch, true), after, asked)
  {
    hide DistinctIds, Ids;
    var p := Computing(batch, true);
    DistinctApart(q.waiting, q.running);
    DistinctApart(batch, after.waiting);
    forall k | 0 <= k < |batch|
      ensures Enrolled(after, asked, batch[k]) && batch[k].output == [] && batch[k] in after.running
    {
      assert batch[k] in batch && batch[k] in q.waiting && IsLive(q, batch[k]);
      MemberIsNamed(batch, k);
    }
    forall r | r in after.running && r.output == [] ensures Awaits(p, r.id) {
      var k :| 0 <= k < |batch| && batch[k] == r;
      assert Batch(p)[k].id == r.id;
    }
  }

  lemma MemberIsNamed(batch: seq<Request>, k: nat)
    requires k < |batch|
    ensures batch[k].id in Ids(batch)
  {
    assert batch[k] in batch;
  }

  lemma DecodeBatch(c: Config, q: Queue, asked: map<Id, Request>)
    requires Queued(c, q, asked) && q.running != []
    requires forall r | r in q.running :: r.output != []
    ensures Rounds(c, Computing(q.running, false), q, asked)
  {
    hide DistinctIds, Ids;
    DistinctApart(q.waiting, q.running);
    forall k | 0 <= k < |q.running| ensures Enrolled(q, asked, q.running[k]) {
      assert q.running[k] in q.running && IsLive(q, q.running[k]);
      MemberIsNamed(q.running, k);
    }
  }

  lemma SelectedBatch(c: Config, s: System)
    requires Rounds(c, s.phase, s.head.queue, s.asked) && s.phase.Drained?
    requires Heard(c, s.head.queue, s.head.tickets, s.head.streams) && Queued(c, s.head.queue, s.asked)
    ensures var (choice, after) := NextBatch(s.head.queue, c.limits);
            if choice.Nothing? then after == s.head.queue && after.running == []
            else Rounds(c, Computing(choice.batch, choice.Prefill?), after, s.asked)
  {
    var q := s.head.queue;
    NobodyIsDone(c, s);
    ChoiceLeavesNobodyOut(q, c.limits);
    PrefillIsLongestPrefix(q, c.limits, 0);
    hide Rounds, Heard, NextBatch, Queued;
    var (choice, after) := NextBatch(q, c.limits);
    match choice
    case Prefill(batch) =>
      assert q.waiting == batch + after.waiting;
      PrefillBatch(c, q, after, batch, s.asked);
    case Decode(_) => DecodeBatch(c, q, s.asked);
    case Nothing =>
  }

  /** The same requests are live, only some of them have moved. */
  lemma SameLive(c: Config, s: System, after: Queue)
    requires Queued(c, s.head.queue, s.asked) && after == NextBatch(s.head.queue, c.limits).1
    requires c.Valid() && |s.engines| == c.Stages() && s.phase.Drained?
    ensures Queued(c, after, s.asked)
    ensures Ticketed(s.head.queue, s.head.tickets, s.head.streams, s.asked, s.leaving) ==>
              Ticketed(after, s.head.tickets, s.head.streams, s.asked, s.leaving)
    ensures LeftForGood(s.head.queue, s.asked, s.head.toRelease, s.parting, s.frees) ==>
              LeftForGood(after, s.asked, s.head.toRelease, s.parting, s.frees)
    ensures Speech(c, s.head.queue, s.evicted) ==> Speech(c, after, s.evicted)
    ensures Heard(c, s.head.queue, s.head.tickets, s.head.streams) ==>
              Heard(c, after, s.head.tickets, s.head.streams)
    ensures forall p: Phase :: Caches(c, s.phase, s.head.queue, s.engines, s.evicted) && (p.Computing? || p.Idle?) ==>
              Caches(c, p, after, s.engines, s.evicted)
    ensures forall p: Phase :: Harmless(s.phase, s.head.queue, s.activations) && (p.Computing? || p.Idle?) ==>
              Harmless(p, after, s.activations)
  {
    var q := s.head.queue;
    NextBatchKeepsSound(q, c.limits);
    ChosenLive(q, c.limits);
    hide NextBatch, Sound, Halfway, Unfinished, GoesOn;
    assert forall id :: !Awaits(s.phase, id);
    assert forall r {:trigger IsLive(after, r)} :: IsLive(after, r) ==> IsLive(q, r);
    forall id | Gone(q, s.asked, id) ensures Gone(after, s.asked, id) { }
    forall p: Phase, ids | Doomed(s.phase, q, ids) && !p.Failing? ensures Doomed(p, after, ids) { }
  }

  lemma SelectKeeps(c: Config, s: System, s': System)
    requires Inv(c, s) && HeadStep(c, s, Select, s')
    ensures Right(c, s')
  {
    hide Registered, Queued, Ticketed, LeftForGood, Rounds, Speech, Records, Endings, Remembered, Caches, Landing,
         Addressed, Harmless, OnTheWay, Returning, NextBatch;
    var (choice, after) := NextBatch(s.head.queue, c.limits);
    SelectedBatch(c, s);
    SameLive(c, s, after);
    if choice.Nothing? { NothingLeftToDo(c, s); }
    AddressedOutsideWaiting(c, s, s'.phase);
    NothingInFlight(c, s'.phase, s', s'.engines);
  }

  lemma NothingLeftToDo(c: Config, s: System)
    requires s.head.queue.running == [] && c.Valid()
    ensures Rounds(c, Idle, s.head.queue, s.asked)
  {
  }

  lemma AddressedOutsideWaiting(c: Config, s: System, p: Phase)
    requires c.Valid() && Addressed(c, s.phase, s.activations, s.answers, s.batches, s.asked) && !p.Waiting?
    ensures Addressed(c, p, s.activations, s.answers, s.batches, s.asked)
  {
  }

  // ---------------------------------------------------------------- the answer, or none

  /** The batch is the same and nobody in it is settled yet. */
  lemma SameBatch(c: Config, s: System, p: Phase)
    requires c.Valid() && |s.engines| == c.Stages()
    requires s.phase.Waiting? && Batch(p) == s.phase.batch && Through(p) == 0
    requires p.Failing? || (p.Delivering? && |p.tokens| == |p.batch|)
    ensures Rounds(c, s.phase, s.head.queue, s.asked) ==> Rounds(c, p, s.head.queue, s.asked)
    ensures Caches(c, s.phase, s.head.queue, s.engines, s.evicted) ==> Caches(c, p, s.head.queue, s.engines, s.evicted)
  {
    hide Halfway;
    assert Batch(p) == Batch(s.phase) && Through(p) == Through(s.phase);
    assert forall id :: Awaits(p, id) <==> Awaits(s.phase, id);
  }

  lemma RoundIsEnrolled(c: Config, s: System)
    requires Rounds(c, s.phase, s.head.queue, s.asked) && (s.phase.Computing? || s.phase.Waiting?)
    ensures var batch := s.phase.batch;
            && batch != [] && DistinctIds(batch) && |batch| <= c.limits.maxSequences
            && (forall k | 0 <= k < |batch| :: batch[k].id in s.asked && batch[k].Asked() == s.asked[batch[k].id])
            && (forall k | 0 <= k < |batch| :: s.phase.first <==> batch[k].output == [])
  {
    forall k | 0 <= k < |s.phase.batch| ensures Enrolled(s.head.queue, s.asked, s.phase.batch[k]) {
      assert Batch(s.phase)[k] == s.phase.batch[k];
    }
  }

  lemma BatchIsDoomed(p: Phase, q: Queue)
    requires p.Failing? && p.at == 0
    ensures Doomed(p, q, Ids(p.batch))
  {
    AllAwaited(p);
  }

  lemma GivenUpIsHarmless(c: Config, s: System, p: Phase)
    requires Shaped(c, s) && s.phase.Waiting? && p == Failing(s.phase.batch, 0)
    requires Registered(s.asked) && Rounds(c, s.phase, s.head.queue, s.asked)
    requires Addressed(c, s.phase, s.activations, s.answers, s.batches, s.asked)
    requires Harmless(s.phase, s.head.queue, s.activations)
    requires OnTheWay(c, s.phase, s.engines, Spared(s.head.queue, s.evicted), s.activations)
    ensures Harmless(p, s.head.queue, s.activations)
  {
    hide HasRows, DistinctIds, Registered, Carried, Ids;
    RoundIsEnrolled(c, s);
    SentBatch(s.phase.batch, s.phase.first, s.asked);
    BatchIsDoomed(p, s.head.queue);
    hide Rounds, Spared, Packed, Unpacked;
    forall m | m in s.activations && Unpacked(m.members).Ok?
      ensures Doomed(p, s.head.queue, Ids(Unpacked(m.members).value))
    {
      if Current(s.phase, m.batchId) {
        assert Faithful(c, s.phase, s.engines, Spared(s.head.queue, s.evicted), m);
      } else {
        assert Doomed(s.phase, s.head.queue, Ids(Unpacked(m.members).value));
      }
    }
  }

  /** A batch that is given up: its members are about to fail, whatever its message still does. */
  lemma GivenUpKeeps(c: Config, s: System, s': System)
    requires Inv(c, s) && s.phase.Waiting? && s' == s.(phase := Failing(s.phase.batch, 0))
    ensures Right(c, s')
  {
    hide Registered, Queued, Ticketed, LeftForGood, Rounds, Speech, Records, Endings, Remembered, Caches, Landing,
         Addressed, Harmless, OnTheWay, Returning;
    SameBatch(c, s, s'.phase);
    GivenUpIsHarmless(c, s, s'.phase);
    AddressedOutsideWaiting(c, s, s'.phase);
    NothingInFlight(c, s'.phase, s', s'.engines);
  }

  lemma AllAwaited(p: Phase)
    requires Through(p) == 0
    ensures forall id | id in Ids(Batch(p)) :: Awaits(p, id)
  {
    forall id | id in Ids(Batch(p)) ensures Awaits(p, id) {
      var k := NamedMember(Batch(p), id);
      assert Batch(p)[k].id == id;
    }
  }

  /** Unpacked on a stage, a batch has the same names, and rows for everybody. */
  lemma SentBatch(batch: seq<Request>, first: bool, asked: map<Id, Request>)
    requires batch != [] && DistinctIds(batch) && Registered(asked)
    requires forall k | 0 <= k < |batch| :: batch[k].id in asked && batch[k].Asked() == asked[batch[k].id]
    ensures var back := Unpacked(Packed(batch, first));
            && back.Ok? && |back.value| == |batch|
            && (forall k | 0 <= k < |batch| :: back.value[k] == OnStage(batch[k], first))
            && Ids(back.value) == Ids(batch) && DistinctIds(back.value)
            && HasRows(back.value, first) && HasRows(batch, first)
            && Ids(batch) <= asked.Keys
  {
    forall r | r in batch ensures r.id != "" && r.prompt != [] && r.id in asked {
      var k :| 0 <= k < |batch| && batch[k] == r;
      assert r.Asked() == asked[r.id];
    }
    RoundTrip(batch, first);
    var back := Unpacked(Packed(batch, first)).value;
    SameNames(batch, back);
    forall r | first && r in back ensures r.prompt != [] {
      var k :| 0 <= k < |back| && back[k] == r;
      assert batch[k] in batch;
    }
  }

  lemma {:induction false} SameNames(a: seq<Request>, b: seq<Request>)
    requires |a| == |b| && forall k | 0 <= k < |a| :: a[k].id == b[k].id
    ensures Ids(a) == Ids(b) && (DistinctIds(a) <==> DistinctIds(b))
  {
    if a != [] {
      var last := |a| - 1;
      SameNames(a[..last], b[..last]);
      IdsOfSnoc(a[..last], a[last]);
      IdsOfSnoc(b[..last], b[last]);
      assert a == a[..last] + [a[last]] && b == b[..last] + [b[last]];
    }
  }

  lemma AnswerLands(c: Config, s: System, a: Answer, p: Phase)
    requires Shaped(c, s) && s.phase.Waiting? && a in s.answers && a.Tokens? && a.batchId == s.phase.batchId
    requires p == Delivering(s.phase.batch, a.tokens, 0)
    requires Addressed(c, s.phase, s.activations, s.answers, s.batches, s.asked)
    requires Harmless(s.phase, s.head.queue, s.activations)
    requires Returning(c, s.phase, s.engines, Spared(s.head.queue, s.evicted), s.answers)
    ensures Harmless(p, s.head.queue, s.activations)
    ensures Landing(c, p, s.engines, Spared(s.head.queue, s.evicted))
    ensures OnTheWay(c, p, s.engines, Spared(s.head.queue, s.evicted), s.activations)
    ensures Returning(c, p, s.engines, Spared(s.head.queue, s.evicted), s.answers)
  {
    hide Answered, Readable;
    forall m | m in s.activations && Unpacked(m.members).Ok?
      ensures Doomed(p, s.head.queue, Ids(Unpacked(m.members).value))
    {
      assert !Current(s.phase, m.batchId);
      assert Doomed(s.phase, s.head.queue, Ids(Unpacked(m.members).value));
    }
  }

  lemma AcceptedAnswerKeeps(c: Config, s: System, a: Answer, s': System)
    requires Inv(c, s) && s.phase.Waiting? && a in s.answers && a.Tokens? && a.batchId == s.phase.batchId
    requires |a.tokens| == |s.phase.batch| && s' == s.(phase := Delivering(s.phase.batch, a.tokens, 0))
    ensures Right(c, s')
  {
    hide Registered, Queued, Ticketed, LeftForGood, Rounds, Speech, Records, Endings, Remembered, Caches, Landing,
         Addressed, Harmless, OnTheWay, Returning;
    SameBatch(c, s, s'.phase);
    AnswerLands(c, s, a, s'.phase);
    AddressedOutsideWaiting(c, s, s'.phase);
  }

  lemma TakeKeeps(c: Config, s: System, a: Answer, s': System)
    requires Inv(c, s) && HeadStep(c, s, Take(a), s')
    ensures Right(c, s')
  {
    if a.batchId != s.phase.batchId {
    } else if a.Tokens? && |a.tokens| == |s.phase.batch| {
      AcceptedAnswerKeeps(c, s, a, s');
    } else {
      GivenUpKeeps(c, s, s');
    }
  }
}
