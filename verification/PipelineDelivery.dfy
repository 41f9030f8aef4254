/** Handing out the tokens of a round, or its failure, one member after another. */
module PipelineDelivery {
  import opened Transformer
  import opened Sequences
  import opened Scheduling
  import opened Engines
  import opened Heads
  import opened Pipeline
  import opened PipelineInvariant
  import opened PipelineRounds
  import opened PipelineClientSteps

  // ---------------------------------------------------------------- transcripts

  lemma {:induction false} SpokenTokens(tokens: seq<Token>)
    ensures Spoken(TokenEvents(tokens)) == tokens && !Closed(TokenEvents(tokens))
  {
    if tokens != [] {
      var front := tokens[..|tokens| - 1];
      SpokenTokens(front);
      assert TokenEvents(tokens)[..|tokens| - 1] == TokenEvents(front);
    }
  }

  lemma SpokenThenClosed(tokens: seq<Token>, last: Event)
    requires !last.TokenEvent?
    ensures var events := TokenEvents(tokens) + [last];
            && Closed(events) && Spoken(events) == tokens
            && events[..|events| - 1] == TokenEvents(tokens)
  {
    SpokenTokens(tokens);
    var events := TokenEvents(tokens) + [last];
    assert events[..|events| - 1] == TokenEvents(tokens);
  }

  lemma TokenEventsSnoc(tokens: seq<Token>, token: Token)
    ensures TokenEvents(tokens + [token]) == TokenEvents(tokens) + [TokenEvent(token)]
  {
  }

  lemma SamplesSnoc(c: Config, r: Request, tokens: seq<Token>, token: Token)
    requires Samples(c.model, r.prompt, r.sampling, tokens) && Picks(c.model, r.prompt, r.sampling, tokens, token)
    ensures Samples(c.model, r.prompt, r.sampling, tokens + [token])
  {
    hide Picks;
    var all := tokens + [token];
    forall k | 0 <= k < |all| ensures Picks(c.model, r.prompt, r.sampling, all[..k], all[k]) {
      assert k < |tokens| ==> all[..k] == tokens[..k];
      assert k == |tokens| ==> all[..k] == tokens;
    }
  }

  /** One more token than an unfinished answer: it is complete, or goes on. */
  lemma OneMoreToken(c: Config, r: Request, tokens: seq<Token>, token: Token)
    requires Unfinished(c, r, tokens) && Picks(c.model, r.prompt, r.sampling, tokens, token)
    ensures token in c.eos ==> Complete(c, r, tokens + [token], Stop)
    ensures token !in c.eos && |tokens| + 1 >= r.maxTokens ==> Complete(c, r, tokens + [token], Length)
    ensures token !in c.eos && |tokens| + 1 < r.maxTokens ==> Unfinished(c, r, tokens + [token])
  {
    SamplesSnoc(c, r, tokens, token);
    GoesOnOrEnds(c, r, tokens, token);
    hide Samples, Picks, GoesOn, EndsRightly;
  }

  lemma GoesOnOrEnds(c: Config, r: Request, tokens: seq<Token>, token: Token)
    requires GoesOn(c, r, tokens)
    ensures token in c.eos ==> EndsRightly(c, r, tokens + [token], Stop)
    ensures token !in c.eos && |tokens| + 1 >= r.maxTokens ==> EndsRightly(c, r, tokens + [token], Length)
    ensures token !in c.eos && |tokens| + 1 < r.maxTokens ==> GoesOn(c, r, tokens + [token])
  {
    var all := tokens + [token];
    assert forall k | 0 <= k < |tokens| :: all[k] == tokens[k];
  }

  /** Only what was asked matters for which tokens may be told. */
  lemma SameReference(c: Config, r: Request, tokens: seq<Token>, reason: Reason)
    ensures Complete(c, r, tokens, reason) <==> Complete(c, r.Asked(), tokens, reason)
    ensures Unfinished(c, r, tokens) <==> Unfinished(c, r.Asked(), tokens)
  {
  }

  // ---------------------------------------------------------------- a member is settled for good

  lemma {:induction false} WithoutAppended(batch: seq<Request>, id: Id, token: Token)
    ensures Without(Appended(batch, id, token), id) == Without(batch, id)
  {
    if batch != [] {
      var after := Appended(batch, id, token);
      WithoutAppended(batch[..|batch| - 1], id, token);
      assert after[..|after| - 1] == Appended(batch[..|batch| - 1], id, token);
    }
  }

  /** The round is through with one more member. */
  function Further(p: Phase): Phase
    requires p.Delivering? || p.Failing?
  {
    if p.Delivering? then Delivering(p.batch, p.tokens, p.at + 1) else Failing(p.batch, p.at + 1)
  }

  lemma StillAwaited(p: Phase, id: Id)
    requires (p.Delivering? || p.Failing?) && p.at < |p.batch|
    ensures Awaits(p, id) && id != p.batch[p.at].id ==> Awaits(Further(p), id)
    ensures Awaits(Further(p), id) ==> Awaits(p, id)
  {
    if Awaits(p, id) && id != p.batch[p.at].id {
      var k :| Through(p) <= k < |Batch(p)| && Batch(p)[k].id == id;
      assert Batch(Further(p))[k].id == id;
    }
    if Awaits(Further(p), id) {
      var k :| Through(Further(p)) <= k < |Batch(p)| && Batch(Further(p))[k].id == id;
      assert Batch(p)[k].id == id;
    }
  }

  /** With that member gone from the queue, the round may go on to the next. */
  lemma RoundAdvances(c: Config, s: System, after: Queue)
    requires Shaped(c, s) && (s.phase.Delivering? || s.phase.Failing?) && s.phase.at < |s.phase.batch|
    requires forall r {:trigger IsLive(after, r)} | IsLive(after, r) :: r.id != s.phase.batch[s.phase.at].id
    requires forall id | id in after.Live() :: id != s.phase.batch[s.phase.at].id
    ensures Rounds(c, s.phase, after, s.asked) ==> Rounds(c, Further(s.phase), after, s.asked)
    ensures Caches(c, s.phase, after, s.engines, s.evicted) ==> Caches(c, Further(s.phase), after, s.engines, s.evicted)
    ensures Harmless(s.phase, after, s.activations) ==> Harmless(Further(s.phase), after, s.activations)
    ensures Landing(c, s.phase, s.engines, Spared(after, s.evicted)) ==>
              Landing(c, Further(s.phase), s.engines, Spared(after, s.evicted))
  {
    hide Answered, Halfway, Enrolled;
    var p := s.phase;
    forall id ensures Awaits(p, id) && id != p.batch[p.at].id ==> Awaits(Further(p), id) { StillAwaited(p, id); }
    if Rounds(c, p, after, s.asked) {
      assert Batch(Further(p)) == Batch(p);
      forall r | r in after.running && r.output == [] ensures Awaits(Further(p), r.id) {
        assert IsLive(after, r);
      }
    }
    forall ids | Doomed(p, after, ids) ensures Doomed(Further(p), after, ids) { }
  }

  /** Nobody else was told anything, and a spared member nothing but the truth. */
  ghost predicate Settled(c: Config, s: System, id: Id, streams: map<Id, seq<Event>>)
    requires id in s.asked
  {
    && streams.Keys == s.head.streams.Keys
    && (forall other | other in streams && other != id :: streams[other] == s.head.streams[other])
    && (id in streams && id !in s.evicted ==> Transcript(c, s.asked[id], streams[id]))
  }

  lemma SettledWords(c: Config, s: System, id: Id, streams: map<Id, seq<Event>>)
    requires id in s.asked && Settled(c, s, id, streams) && Records(c, s.asked, s.head.streams, s.evicted)
    ensures Records(c, s.asked, streams, s.evicted)
  {
    hide Transcript;
  }

  lemma ReleasedIsGone(q: Queue, asked: map<Id, Request>, id: Id, toRelease: seq<Id>, parting: set<Id>,
                       frees: set<(nat, Id)>)
    requires LeftForGood(q, asked, toRelease, parting + {id}, frees)
    ensures LeftForGood(q, asked, toRelease + [id], parting, frees)
  {
  }

  /** A member that is settled for good: its ticket was closed, or its client had left. */
  lemma EndedKeeps(c: Config, s: System, streams: map<Id, seq<Event>>, s': System)
    requires Inv(c, s) && (s.phase.Delivering? || s.phase.Failing?) && s.phase.at < |s.phase.batch|
    requires var id := s.phase.batch[s.phase.at].id;
             && id in s.asked && Settled(c, s, id, streams)
             && s' == s.(head := HeadState(Finished(s.head.queue, id), s.head.tickets - {id},
                                           s.head.toRelease + [id], streams),
                         phase := Further(s.phase))
    ensures Right(c, s')
  {
    hide Registered, Queued, Ticketed, LeftForGood, Rounds, Heard, Accounts, Endings, Speech, Records, Remembered,
         Caches, Landing, Addressed, Harmless, OnTheWay, Returning, Settled, Spared, Finished;
    var id := s.phase.batch[s.phase.at].id;
    var after := Finished(s.head.queue, id);
    QueueShrinks(c, s.head.queue, s.asked, id);
    FewerAreFine(c, s, s.phase, s.head.queue, after, id);
    SettledWords(c, s, id, streams);
    NobodyIsNamed(after, id);
    RoundAdvances(c, s, after);
    AddressedOutsideWaiting(c, s, s'.phase);
    NothingInFlight(c, s'.phase, s', s'.engines);
  }

  lemma NobodyIsNamed(q: Queue, id: Id)
    requires id !in q.Live()
    ensures forall r {:trigger IsLive(q, r)} | IsLive(q, r) :: r.id != id
  {
    forall r {:trigger IsLive(q, r)} | IsLive(q, r) ensures r.id != id { LiveIsNamed(q, r); }
  }

  // ---------------------------------------------------------------- whom the round is about to settle

  lemma MemberIsEnrolled(c: Config, s: System)
    requires Rounds(c, s.phase, s.head.queue, s.asked)
    requires (s.phase.Delivering? || s.phase.Failing?) && s.phase.at < |s.phase.batch|
    ensures var r := s.phase.batch[s.phase.at];
            && r.id in s.asked && r.Asked() == s.asked[r.id] && r.id !in Ids(s.head.queue.waiting)
            && (r.id in s.head.queue.Live() ==> r.id in Ids(s.head.queue.running) && r in s.head.queue.running)
  {
    assert Enrolled(s.head.queue, s.asked, Batch(s.phase)[s.phase.at]);
  }

  /** Whoever still has a ticket is running, has been told exactly its tokens, and may be told more. */
  lemma ListenerIsRunning(c: Config, s: System)
    requires Ledger(c, s) && (s.phase.Delivering? || s.phase.Failing?) && s.phase.at < |s.phase.batch|
    requires s.phase.batch[s.phase.at].id in s.head.tickets
    ensures var r := s.phase.batch[s.phase.at];
            && r.id in s.asked && r.Asked() == s.asked[r.id] && r in s.head.queue.running
            && r.id in Ids(s.head.queue.running) && r.id in s.head.streams
            && GoesOn(c, r, r.output) && s.head.streams[r.id] == TokenEvents(r.output)
  {
    hide Accounts, Endings, LeftForGood;
    MemberIsEnrolled(c, s);
    hide Rounds, GoesOn;
    assert IsLive(s.head.queue, s.phase.batch[s.phase.at]);
  }

  /** If it lost no slot, those are tokens of its reference run. */
  lemma TicketHolder(c: Config, s: System)
    requires Inv(c, s) && (s.phase.Delivering? || s.phase.Failing?) && s.phase.at < |s.phase.batch|
    requires s.phase.batch[s.phase.at].id in s.head.tickets && s.phase.batch[s.phase.at].id !in s.evicted
    ensures var r := s.phase.batch[s.phase.at]; Unfinished(c, r, r.output)
  {
    hide Ledger, Records, Remembered, Caches, Landing, Addressed, Harmless, OnTheWay, Returning, Unfinished;
    ListenerIsRunning(c, s);
    assert IsLive(s.head.queue, s.phase.batch[s.phase.at]);
  }

  lemma AnsweredHolder(c: Config, s: System)
    requires Shaped(c, s) && Landing(c, s.phase, s.engines, Spared(s.head.queue, s.evicted))
    requires s.phase.Delivering? && s.phase.at < |s.phase.batch| == |s.phase.tokens|
    requires s.phase.batch[s.phase.at].id in Spared(s.head.queue, s.evicted)
    ensures var r, token := s.phase.batch[s.phase.at], s.phase.tokens[s.phase.at];
            && Halfway(c, s.engines, r, c.Stages())
            && Picks(c.model, r.prompt, r.sampling, r.output, token)
  {
    assert Answered(c, s.engines, Spared(s.head.queue, s.evicted), s.phase.batch[s.phase.at],
                    s.phase.tokens[s.phase.at]);
  }

  // ---------------------------------------------------------------- failing

  /** What is put into the ticket of a member that is settled, and the ticket's stream after it. */
  function StreamsAfter(h: HeadState, id: Id, events: seq<Event>): map<Id, seq<Event>> {
    if id in h.tickets then h.streams[id := (if id in h.streams then h.streams[id] else []) + events] else h.streams
  }

  lemma FailedHead(h: HeadState, id: Id)
    ensures Failed(h, id) == HeadState(Finished(h.queue, id), h.tickets - {id}, h.toRelease + [id],
                                       StreamsAfter(h, id, [ErrorEvent]))
  {
  }

  /** Whoever has no ticket, or has lost a slot, of whom nothing is said, is settled by closing words. */
  lemma SettledAnyhow(c: Config, s: System, id: Id, told: seq<Event>)
    requires id in s.asked && Records(c, s.asked, s.head.streams, s.evicted)
    requires s.head.streams.Keys == s.asked.Keys
    requires id !in s.head.tickets || id in s.evicted
    ensures Settled(c, s, id, StreamsAfter(s.head, id, told))
  {
    hide Transcript;
  }

  lemma SettledNow(c: Config, s: System, id: Id, told: seq<Event>, events: seq<Event>)
    requires id in s.asked && id in s.head.streams && id in s.head.tickets && s.head.streams[id] + told == events
    requires Transcript(c, s.asked[id], events)
    ensures Settled(c, s, id, StreamsAfter(s.head, id, told))
  {
    hide Transcript;
  }

  /** A spared member with a ticket is told closing words that make a transcript, or nobody cares. */
  lemma ClosingIsTold(c: Config, s: System, told: seq<Event>)
    requires Inv(c, s) && (s.phase.Delivering? || s.phase.Failing?) && s.phase.at < |s.phase.batch|
    requires var r := s.phase.batch[s.phase.at];
             r.id in s.head.tickets && r.id !in s.evicted ==> Transcript(c, r.Asked(), TokenEvents(r.output) + told)
    ensures var id := s.phase.batch[s.phase.at].id;
            id in s.asked && Settled(c, s, id, StreamsAfter(s.head, id, told))
  {
    var r := s.phase.batch[s.phase.at];
    MemberIsEnrolled(c, s);
    assert s.head.streams.Keys == s.asked.Keys;
    hide Registered, Queued, Ticketed, LeftForGood, Rounds, Heard, Accounts, Endings, Speech, Records, Remembered,
         Caches, Landing, Addressed, Harmless, OnTheWay, Returning, Settled, Transcript, TokenEvents, StreamsAfter;
    if r.id in s.head.tickets && r.id !in s.evicted {
      ListenerIsRunning(c, s);
      SettledNow(c, s, r.id, told, TokenEvents(r.output) + told);
    } else {
      SettledAnyhow(c, s, r.id, told);
    }
  }

  lemma FailureIsTold(c: Config, s: System)
    requires Inv(c, s) && s.phase.Failing? && s.phase.at < |s.phase.batch|
    ensures var id := s.phase.batch[s.phase.at].id;
            id in s.asked && Settled(c, s, id, StreamsAfter(s.head, id, [ErrorEvent]))
  {
    hide Inv, Settled, Transcript, Unfinished, StreamsAfter, TokenEvents;
    var r := s.phase.batch[s.phase.at];
    if r.id in s.head.tickets && r.id !in s.evicted {
      TicketHolder(c, s);
      TranscriptFails(c, r);
    }
    ClosingIsTold(c, s, [ErrorEvent]);
  }

  /** An answer that goes on no more. */
  lemma TranscriptFails(c: Config, r: Request)
    requires Unfinished(c, r, r.output)
    ensures Transcript(c, r.Asked(), TokenEvents(r.output) + [ErrorEvent])
  {
    SpokenThenClosed(r.output, ErrorEvent);
    SameReference(c, r, r.output, Stop);
  }

  lemma FailKeeps(c: Config, s: System, s': System)
    requires Inv(c, s) && HeadStep(c, s, Action.Fail, s')
    ensures Right(c, s')
  {
    hide Ledger, Speech, Records, Remembered, Caches, Landing, Addressed, Harmless, OnTheWay, Returning, Settled,
         Failed, Finished, StreamsAfter;
    var id := s.phase.batch[s.phase.at].id;
    FailedHead(s.head, id);
    FailureIsTold(c, s);
    EndedKeeps(c, s, StreamsAfter(s.head, id, [ErrorEvent]), s');
  }

  // ---------------------------------------------------------------- delivering

  /** Recording a token and dropping the request is dropping it. */
  lemma AcceptedThenDropped(q: Queue, id: Id, token: Token)
    ensures Finished(Accepted(q, token, id), id) == Finished(q, id)
  {
    WithoutAppended(q.running, id, token);
  }

  /** The closing words for an answer's last token. */
  function LastWords(eos: set<Token>, token: Token): seq<Event> {
    [TokenEvent(token), DoneEvent(if token in eos then Stop else Length)]
  }

  /** The token is the member's last, or nobody listens. */
  predicate Ends(h: HeadState, eos: set<Token>, r: Request, token: Token) {
    r.id !in h.tickets || token in eos || Grown(h, r, token).Done()
  }

  lemma DeliveredHead(h: HeadState, eos: set<Token>, r: Request, token: Token)
    ensures var events := LastWords(eos, token);
            Delivered(h, eos, r, token) ==
              if Ends(h, eos, r, token)
              then HeadState(Finished(h.queue, r.id), h.tickets - {r.id}, h.toRelease + [r.id],
                             StreamsAfter(h, r.id, events))
              else h.(queue := Accepted(h.queue, token, r.id), streams := StreamsAfter(h, r.id, [TokenEvent(token)]))
  {
    AcceptedThenDropped(h.queue, r.id, token);
    hide Finished, Accepted;
    if r.id !in h.tickets {
      assert h.tickets - {r.id} == h.tickets;
    } else {
      var said := if r.id in h.streams then h.streams[r.id] else [];
      var last := if token in eos then DoneEvent(Stop) else DoneEvent(Length);
      assert said + [TokenEvent(token)] + [last] == said + [TokenEvent(token), last];
    }
  }

  /** An answer with its last token and its closing words. */
  lemma TranscriptEnds(c: Config, r: Request, token: Token)
    requires Unfinished(c, r, r.output) && Picks(c.model, r.prompt, r.sampling, r.output, token)
    requires token in c.eos || r.With(token).Done()
    ensures var events := TokenEvents(r.output) + LastWords(c.eos, token);
            Transcript(c, r.Asked(), events)
  {
    hide Unfinished, Complete, Picks;
    var all, words := r.output + [token], LastWords(c.eos, token);
    OneMoreToken(c, r, r.output, token);
    TokenEventsSnoc(r.output, token);
    SpokenThenClosed(all, words[1]);
    SameReference(c, r, all, words[1].reason);
    assert TokenEvents(r.output) + words == TokenEvents(all) + [words[1]];
  }

  /** The end of the answer is told truly. */
  lemma EndIsTold(c: Config, s: System)
    requires Inv(c, s) && s.phase.Delivering? && s.phase.at < |s.phase.batch| == |s.phase.tokens|
    requires Ends(s.head, c.eos, s.phase.batch[s.phase.at], s.phase.tokens[s.phase.at])
    ensures var r, token := s.phase.batch[s.phase.at], s.phase.tokens[s.phase.at];
            r.id in s.asked && Settled(c, s, r.id, StreamsAfter(s.head, r.id, LastWords(c.eos, token)))
  {
    hide Registered, Queued, Ticketed, LeftForGood, Rounds, Heard, Accounts, Endings, Speech, Records, Remembered,
         Caches, Landing, Addressed, Harmless, OnTheWay, Returning, Settled, Transcript, Unfinished, StreamsAfter,
         TokenEvents, LastWords, Halfway, Picks;
    var r, token := s.phase.batch[s.phase.at], s.phase.tokens[s.phase.at];
    if r.id in s.head.tickets && r.id !in s.evicted {
      TicketHolder(c, s);
      ListenerIsRunning(c, s);
      AnsweredHolder(c, s);
      TranscriptEnds(c, r, token);
    }
    ClosingIsTold(c, s, LastWords(c.eos, token));
  }

  /** Every stage is past the step, so it is ready for the next. */
  lemma PastIsReady(c: Config, engines: seq<Engine>, r: Request, token: Token)
    requires c.Valid() && |engines| == c.Stages() && Halfway(c, engines, r, c.Stages())
    ensures Halfway(c, engines, r.With(token), 0)
  {
    assert r.With(token).output[..|r.output|] == r.output;
    forall stage {:trigger engines[stage]} | 0 <= stage < c.Stages()
      ensures Ready(c, stage, engines[stage], r.With(token))
    {
      assert Advanced(c, stage, engines[stage], r);
    }
  }

  lemma QueueGoesOn(c: Config, q: Queue, asked: map<Id, Request>, r: Request, token: Token)
    requires Queued(c, q, asked) && r in q.running && r.id !in Ids(q.waiting)
    ensures var after := Accepted(q, token, r.id);
            && Queued(c, after, asked)
            && after.Live() == q.Live() && Ids(after.running) == Ids(q.running) && after.waiting == q.waiting
            && (forall x :: IsLive(after, x) <==> (IsLive(q, x) && x.id != r.id) || x == r.With(token))
            && (forall x :: x in after.running <==> (x in q.running && x.id != r.id) || x == r.With(token))
  {
    AcceptKeepsSound(q, c.limits, token, r.id);
    AcceptedLive(q, c.limits, token, r);
    hide Sound;
    var after := Accepted(q, token, r.id);
    assert IsLive(q, r);
    forall x ensures IsLive(after, x) <==> (IsLive(q, x) && x.id != r.id) || x == r.With(token) { }
    forall x {:trigger IsLive(after, x)} | IsLive(after, x) ensures x.id in asked && x.Asked() == asked[x.id] { }
  }

  lemma RoundGoesOnWithout(c: Config, s: System, after: Queue, token: Token)
    requires Rounds(c, s.phase, s.head.queue, s.asked) && s.phase.Delivering? && s.phase.at < |s.phase.batch|
    requires var r := s.phase.batch[s.phase.at];
             && after.waiting == s.head.queue.waiting && Ids(after.running) == Ids(s.head.queue.running)
             && forall x :: x in after.running <==> (x in s.head.queue.running && x.id != r.id) || x == r.With(token)
    ensures Rounds(c, Further(s.phase), after, s.asked)
  {
    var p, r := s.phase, s.phase.batch[s.phase.at];
    assert Batch(Further(p)) == Batch(p);
    forall k | 0 <= k < |Batch(p)| ensures Enrolled(after, s.asked, Batch(p)[k]) {
      assert Enrolled(s.head.queue, s.asked, Batch(p)[k]);
    }
    forall k | p.at < k < |Batch(p)| && Batch(p)[k].id in Ids(after.running) ensures Batch(p)[k] in after.running {
      DistinctPair(p.batch, p.at, k);
    }
    forall x | x in after.running && x.output == [] ensures Awaits(Further(p), x.id) {
      StillAwaited(p, x.id);
    }
  }

  lemma RestGoesOn(c: Config, s: System, after: Queue, r: Request, token: Token)
    requires Shaped(c, s) && s.phase.Delivering? && s.phase.at < |s.phase.batch| == |s.phase.tokens|
    requires r == s.phase.batch[s.phase.at] && (r.id in s.evicted || Halfway(c, s.engines, r.With(token), 0))
    requires after.Live() == s.head.queue.Live() && Ids(after.running) == Ids(s.head.queue.running)
    requires forall x :: IsLive(after, x) <==> (IsLive(s.head.queue, x) && x.id != r.id) || x == r.With(token)
    requires Caches(c, s.phase, s.head.queue, s.engines, s.evicted)
    requires Harmless(s.phase, s.head.queue, s.activations)
    requires Landing(c, s.phase, s.engines, Spared(s.head.queue, s.evicted))
    ensures Caches(c, Further(s.phase), after, s.engines, s.evicted)
    ensures Harmless(Further(s.phase), after, s.activations)
    ensures Landing(c, Further(s.phase), s.engines, Spared(after, s.evicted))
  {
    hide Answered, Halfway;
    forall x {:trigger IsLive(after, x)} |
      IsLive(after, x) && x.id !in s.evicted && !Awaits(Further(s.phase), x.id)
      ensures Halfway(c, s.engines, x, 0)
    {
      if x != r.With(token) {
        StillAwaited(s.phase, x.id);
        assert IsLive(s.head.queue, x);
      }
    }
    forall ids | Doomed(s.phase, s.head.queue, ids) ensures Doomed(Further(s.phase), after, ids) { }
  }

  /** One more token is told of an answer that goes on. */
  lemma TranscriptGoesOn(c: Config, r: Request, token: Token)
    requires Unfinished(c, r, r.output) && Picks(c.model, r.prompt, r.sampling, r.output, token)
    requires token !in c.eos && !r.With(token).Done()
    ensures Unfinished(c, r.With(token), r.With(token).output)
    ensures Transcript(c, r.Asked(), TokenEvents(r.output + [token]))
  {
    var all := r.output + [token];
    OneMoreToken(c, r, r.output, token);
    SameReference(c, r, all, Stop);
    SameReference(c, r.With(token), all, Stop);
    assert r.With(token).Asked() == r.Asked();
    SpokenTokens(all);
  }

  lemma WordsGoOn(c: Config, s: System, after: Queue, r: Request, token: Token, streams: map<Id, seq<Event>>)
    requires r.id in s.asked && r.Asked() == s.asked[r.id] && r.id in s.head.streams
    requires streams == s.head.streams[r.id := TokenEvents(r.output + [token])]
    requires r.id in s.evicted || Unfinished(c, r.With(token), r.With(token).output)
    requires r.id in s.evicted || Transcript(c, r.Asked(), TokenEvents(r.output + [token]))
    requires forall x :: IsLive(after, x) <==> (IsLive(s.head.queue, x) && x.id != r.id) || x == r.With(token)
    requires Speech(c, s.head.queue, s.evicted) && Records(c, s.asked, s.head.streams, s.evicted)
    ensures Speech(c, after, s.evicted) && Records(c, s.asked, streams, s.evicted)
  {
    hide Transcript, Unfinished, TokenEvents, IsLive;
  }

  /** What a token that is not the last says of a spared member. */
  lemma TokenIsRight(c: Config, s: System)
    requires Inv(c, s) && s.phase.Delivering? && s.phase.at < |s.phase.batch| == |s.phase.tokens|
    requires var r, token := s.phase.batch[s.phase.at], s.phase.tokens[s.phase.at];
             r.id in s.head.tickets && r.id !in s.evicted && token !in c.eos && !r.With(token).Done()
    ensures var r, token := s.phase.batch[s.phase.at], s.phase.tokens[s.phase.at];
            && Halfway(c, s.engines, r.With(token), 0)
            && Unfinished(c, r.With(token), r.With(token).output)
            && Transcript(c, r.Asked(), TokenEvents(r.output + [token]))
  {
    hide Registered, Queued, Ticketed, LeftForGood, Rounds, Heard, Accounts, Endings, Speech, Records, Remembered,
         Caches, Landing, Addressed, Harmless, OnTheWay, Returning, Transcript, Unfinished, TokenEvents, Halfway, Picks;
    TicketHolder(c, s);
    ListenerIsRunning(c, s);
    AnsweredHolder(c, s);
    TranscriptGoesOn(c, s.phase.batch[s.phase.at], s.phase.tokens[s.phase.at]);
    PastIsReady(c, s.engines, s.phase.batch[s.phase.at], s.phase.tokens[s.phase.at]);
  }

  /** A token that is not the last. */
  lemma OneTokenKeeps(c: Config, s: System, streams: map<Id, seq<Event>>, s': System)
    requires Inv(c, s) && s.phase.Delivering? && s.phase.at < |s.phase.batch| == |s.phase.tokens|
    requires var r, token := s.phase.batch[s.phase.at], s.phase.tokens[s.phase.at];
             && r.id in s.head.tickets && token !in c.eos && !r.With(token).Done()
             && streams == StreamsAfter(s.head, r.id, [TokenEvent(token)])
             && s' == s.(head := s.head.(queue := Accepted(s.head.queue, token, r.id), streams := streams),
                         phase := Further(s.phase))
    ensures Right(c, s')
  {
    hide Registered, Queued, Ticketed, LeftForGood, Rounds, Heard, Accounts, Endings, Speech, Records, Remembered,
         Caches, Landing, Addressed, Harmless, OnTheWay, Returning, Halfway, Unfinished, Transcript, TokenEvents,
         Accepted, Spared;
    var r, token := s.phase.batch[s.phase.at], s.phase.tokens[s.phase.at];
    ListenerIsRunning(c, s);
    MemberIsEnrolled(c, s);
    if r.id !in s.evicted { TokenIsRight(c, s); }
    TokenEventsSnoc(r.output, token);
    var after := Accepted(s.head.queue, token, r.id);
    QueueGoesOn(c, s.head.queue, s.asked, r, token);
    RestGoesOn(c, s, after, r, token);
    WordsGoOn(c, s, after, r, token, streams);
    AddressedOutsideWaiting(c, s, s'.phase);
    NothingInFlight(c, s'.phase, s', s'.engines);
  }

  lemma DeliverKeeps(c: Config, s: System, s': System)
    requires Inv(c, s) && HeadStep(c, s, Deliver, s')
    ensures Right(c, s')
  {
    hide Registered, Queued, Ticketed, LeftForGood, Rounds, Heard, Accounts, Endings, Speech, Records, Remembered,
         Caches, Landing, Addressed, Harmless, OnTheWay, Returning, Settled, Delivered, Finished, Accepted,
         StreamsAfter;
    var r, token := s.phase.batch[s.phase.at], s.phase.tokens[s.phase.at];
    DeliveredHead(s.head, c.eos, r, token);
    if Ends(s.head, c.eos, r, token) {
      EndIsTold(c, s);
      EndedKeeps(c, s, StreamsAfter(s.head, r.id, LastWords(c.eos, token)), s');
    } else {
      ListenerIsRunning(c, s);
      OneTokenKeeps(c, s, StreamsAfter(s.head, r.id, [TokenEvent(token)]), s');
    }
  }
}
