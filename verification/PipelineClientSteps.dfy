/** Submitting and cancelling keep the invariant, whatever the head and the stages are doing. */
module PipelineClientSteps {
  import opened Transformer
  import opened Sequences
  import opened BatchWire
  import opened Scheduling
  import opened Engines
  import opened Heads
  import opened Pipeline
  import opened PipelineInvariant

  // ---------------------------------------------------------------- a new request

  lemma QueueGrows(c: Config, q: Queue, asked: map<Id, Request>, r: Request)
    requires Queued(c, q, asked) && r.id !in asked && Askable(r) && Added(q, c.limits, r).Ok?
    ensures var after := Added(q, c.limits, r).value;
            && Queued(c, after, asked[r.id := r])
            && after.Live() == q.Live() + {r.id} && after.running == q.running
            && Ids(after.waiting) == Ids(q.waiting) + {r.id}
            && (forall x :: IsLive(after, x) <==> IsLive(q, x) || x == r)
  {
    AddKeepsSound(q, c.limits, r);
    AddedLive(q, c.limits, r);
    IdsOfSnoc(q.waiting, r);
    var after := Added(q, c.limits, r).value;
    forall x {:trigger IsLive(after, x)} | IsLive(after, x)
      ensures x.id in asked[r.id := r] && x.Asked() == asked[r.id := r][x.id]
    {
      if x != r {
        assert IsLive(q, x);
      }
    }
  }

  lemma RoundsWithNewcomer(c: Config, p: Phase, q: Queue, after: Queue, asked: map<Id, Request>, r: Request)
    requires Rounds(c, p, q, asked) && r.id !in asked
    requires after.running == q.running && Ids(after.waiting) == Ids(q.waiting) + {r.id}
    ensures Rounds(c, p, after, asked[r.id := r])
  {
    forall k | 0 <= k < |Batch(p)| ensures Enrolled(after, asked[r.id := r], Batch(p)[k]) {
      assert Enrolled(q, asked, Batch(p)[k]);
    }
  }

  lemma NewcomerHasToldNothing(c: Config, r: Request)
    requires Askable(r)
    ensures Unfinished(c, r, []) && Transcript(c, r, [])
  {
  }

  lemma SpeechWithNewcomer(c: Config, q: Queue, after: Queue, evicted: set<Id>, r: Request)
    requires Speech(c, q, evicted) && Askable(r)
    requires forall x :: IsLive(after, x) <==> IsLive(q, x) || x == r
    ensures Speech(c, after, evicted)
  {
    NewcomerHasToldNothing(c, r);
    forall x {:trigger IsLive(after, x)} | IsLive(after, x) && x != r ensures IsLive(q, x) { }
  }

  lemma RecordsWithNewcomer(c: Config, asked: map<Id, Request>, streams: map<Id, seq<Event>>, evicted: set<Id>,
                            r: Request)
    requires Records(c, asked, streams, evicted) && Askable(r)
    ensures Records(c, asked[r.id := r], streams[r.id := []], evicted)
  {
    NewcomerHasToldNothing(c, r);
  }

  lemma CachesWithNewcomer(c: Config, p: Phase, q: Queue, after: Queue, engines: seq<Engine>, evicted: set<Id>,
                           asked: map<Id, Request>, r: Request)
    requires c.Valid() && |engines| == c.Stages()
    requires Caches(c, p, q, engines, evicted) && Remembered(engines, asked) && r.id !in asked && Askable(r)
    requires forall x :: IsLive(after, x) <==> IsLive(q, x) || x == r
    ensures Caches(c, p, after, engines, evicted)
  {
    assert Halfway(c, engines, r, 0);
    forall x {:trigger IsLive(after, x)} |
      IsLive(after, x) && x.id !in evicted && (p.Computing? || !Awaits(p, x.id))
      ensures Halfway(c, engines, x, 0)
    {
      if x != r {
        assert IsLive(q, x);
      }
    }
  }

  lemma MailWithNewcomer(c: Config, s: System, after: Queue, r: Request)
    requires c.Valid()
    requires Addressed(c, s.phase, s.activations, s.answers, s.batches, s.asked) && r.id !in s.asked
    requires Harmless(s.phase, s.head.queue, s.activations) && after.Live() == s.head.queue.Live() + {r.id}
    ensures Addressed(c, s.phase, s.activations, s.answers, s.batches, s.asked[r.id := r])
    ensures Harmless(s.phase, after, s.activations)
  {
    forall m | m in s.activations ensures Readable(m, s.asked[r.id := r]) {
      assert Readable(m, s.asked);
    }
    forall m | m in s.activations && !Current(s.phase, m.batchId) && Unpacked(m.members).Ok?
      ensures Doomed(s.phase, after, Ids(Unpacked(m.members).value))
    {
      assert Readable(m, s.asked);
      assert Doomed(s.phase, s.head.queue, Ids(Unpacked(m.members).value));
    }
  }

  lemma GoneWithNewcomer(q: Queue, after: Queue, asked: map<Id, Request>, r: Request, toRelease: seq<Id>,
                         parting: set<Id>, frees: set<(nat, Id)>)
    requires LeftForGood(q, asked, toRelease, parting, frees) && r.id !in asked
    requires after.Live() == q.Live() + {r.id}
    ensures LeftForGood(after, asked[r.id := r], toRelease, parting, frees)
  {
    forall id | Gone(q, asked, id) ensures Gone(after, asked[r.id := r], id) { }
  }

  lemma MoreAreRemembered(engines: seq<Engine>, asked: map<Id, Request>, r: Request)
    requires Remembered(engines, asked)
    ensures Remembered(engines, asked[r.id := r])
  {
  }

  lemma SubmitKeeps(c: Config, s: System, r: Request, s': System)
    requires Inv(c, s) && ClientStep(c, s, Submit(r), s')
    ensures Right(c, s')
  {
    hide Registered, Queued, Ticketed, LeftForGood, Rounds, Heard, Accounts, Endings, Speech, Records, Remembered,
         Caches, Landing, Addressed, Harmless, OnTheWay, Returning;
    var q, after := s.head.queue, s'.head.queue;
    if s' != s {
      QueueGrows(c, q, s.asked, r);
      hide Added;
      SpeechWithNewcomer(c, q, after, s.evicted, r);
      RecordsWithNewcomer(c, s.asked, s.head.streams, s.evicted, r);
      MoreAreRemembered(s.engines, s.asked, r);
      CachesWithNewcomer(c, s.phase, q, after, s.engines, s.evicted, s.asked, r);
      MailWithNewcomer(c, s, after, r);
    }
  }

  // ---------------------------------------------------------------- somebody leaves

  lemma QueueShrinks(c: Config, q: Queue, asked: map<Id, Request>, id: Id)
    requires Queued(c, q, asked)
    ensures var after := Finished(q, id);
            && Queued(c, after, asked)
            && after.Live() == q.Live() - {id}
            && Ids(after.running) == Ids(q.running) - {id} && Ids(after.waiting) == Ids(q.waiting) - {id}
            && (forall x :: IsLive(after, x) <==> IsLive(q, x) && x.id != id)
            && (forall x :: x in after.running <==> x in q.running && x.id != id)
  {
    FinishKeepsSound(q, c.limits, id);
    FinishedLive(q, id);
    var after := Finished(q, id);
    forall x {:trigger IsLive(after, x)} | IsLive(after, x) ensures x.id in asked && x.Asked() == asked[x.id] {
      assert IsLive(q, x);
    }
  }

  /** Everything said about live requests stays true when there are fewer of them. */
  lemma FewerAreFine(c: Config, s: System, p: Phase, q: Queue, after: Queue, id: Id)
    requires c.Valid() && |s.engines| == c.Stages()
    requires after.Live() == q.Live() - {id} && Ids(after.running) == Ids(q.running) - {id}
    requires forall x :: IsLive(after, x) <==> IsLive(q, x) && x.id != id
    ensures Speech(c, q, s.evicted) ==> Speech(c, after, s.evicted)
    ensures Caches(c, p, q, s.engines, s.evicted) ==> Caches(c, p, after, s.engines, s.evicted)
    ensures Harmless(p, q, s.activations) ==> Harmless(p, after, s.activations)
    ensures Landing(c, p, s.engines, Spared(q, s.evicted)) ==> Landing(c, p, s.engines, Spared(after, s.evicted))
    ensures OnTheWay(c, p, s.engines, Spared(q, s.evicted), s.activations) ==>
              OnTheWay(c, p, s.engines, Spared(after, s.evicted), s.activations)
    ensures Returning(c, p, s.engines, Spared(q, s.evicted), s.answers) ==>
              Returning(c, p, s.engines, Spared(after, s.evicted), s.answers)
  {
    hide Halfway, Unfinished, Picks;
    if Speech(c, q, s.evicted) {
      forall x {:trigger IsLive(after, x)} | IsLive(after, x) ensures IsLive(q, x) { }
    }
    if Caches(c, p, q, s.engines, s.evicted) {
      forall x {:trigger IsLive(after, x)} | IsLive(after, x) ensures IsLive(q, x) { }
    }
    forall ids | Doomed(p, q, ids) ensures Doomed(p, after, ids) {
    }
    forall m | m in s.activations && Current(p, m.batchId) && 0 < m.target < c.Stages()
      && Faithful(c, p, s.engines, Spared(q, s.evicted), m)
      ensures Faithful(c, p, s.engines, Spared(after, s.evicted), m)
    {
      FewerFaithful(c, p, s.engines, Spared(q, s.evicted), Spared(after, s.evicted), m);
    }
  }

  lemma RoundsWithFewer(c: Config, p: Phase, q: Queue, after: Queue, asked: map<Id, Request>, id: Id)
    requires Rounds(c, p, q, asked)
    requires Ids(after.running) == Ids(q.running) - {id} && Ids(after.waiting) == Ids(q.waiting) - {id}
    requires forall x :: x in after.running <==> x in q.running && x.id != id
    ensures Rounds(c, p, after, asked)
  {
    forall k | 0 <= k < |Batch(p)| ensures Enrolled(after, asked, Batch(p)[k]) {
      assert Enrolled(q, asked, Batch(p)[k]);
    }
  }

  lemma GoneWithFewer(q: Queue, after: Queue, asked: map<Id, Request>, id: Id, toRelease: seq<Id>,
                      parting: set<Id>, frees: set<(nat, Id)>)
    requires LeftForGood(q, asked, toRelease, parting, frees) && id in asked
    requires after.Live() == q.Live() - {id}
    ensures LeftForGood(after, asked, toRelease, parting + {id}, frees)
  {
    forall other | Gone(q, asked, other) ensures Gone(after, asked, other) { }
    assert Gone(after, asked, id);
  }

  lemma LeaveKeeps(c: Config, s: System, id: Id, s': System)
    requires Inv(c, s) && ClientStep(c, s, Leave(id), s')
    ensures Right(c, s')
  {
    hide Registered, Queued, Ticketed, LeftForGood, Rounds, Heard, Accounts, Endings, Speech, Records, Remembered,
         Caches, Landing, Addressed, Harmless, OnTheWay, Returning, Finished;
    QueueShrinks(c, s.head.queue, s.asked, id);
    FewerAreFine(c, s, s.phase, s.head.queue, s'.head.queue, id);
  }

  lemma ClientStepKeeps(c: Config, s: System, a: Action, s': System)
    requires Inv(c, s) && ClientStep(c, s, a, s')
    ensures Right(c, s')
  {
    hide Ledger, Speech, Records, Remembered, Caches, Landing, Addressed, Harmless, OnTheWay, Returning, Added,
         Finished;
    match a
    case Submit(r) => SubmitKeeps(c, s, r, s');
    case Leave(id) => LeaveKeeps(c, s, id, s');
    case _ =>
  }
}
