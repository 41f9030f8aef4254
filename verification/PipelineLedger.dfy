/**
 What every run keeps, also when full stages evict: the queue, the tickets, whom to release, the rounds,
 and how many tokens everybody was told and how it ended. Nothing here looks at a cache or a message.
 */
module PipelineLedger {
  import opened Transformer
  import opened Sequences
  import opened Scheduling
  import opened Heads
  import opened Pipeline
  import opened PipelineInvariant
  import opened PipelineClientSteps
  import opened PipelineRounds
  import opened PipelineCompute
  import opened PipelineDelivery

  lemma InitLedger(c: Config, s: System)
    requires Init(c, s)
    ensures Ledger(c, s)
  {
  }

  // ---------------------------------------------------------------- clients

  lemma HeardWithNewcomer(c: Config, q: Queue, after: Queue, tickets: set<Id>, streams: map<Id, seq<Event>>,
                          r: Request)
    requires Heard(c, q, tickets, streams) && Askable(r) && r.id !in q.Live()
    requires forall x :: IsLive(after, x) <==> IsLive(q, x) || x == r
    ensures Heard(c, after, tickets + {r.id}, streams[r.id := []])
  {
    forall x {:trigger IsLive(after, x)} | IsLive(after, x) && x != r ensures IsLive(q, x) && x.id != r.id {
      LiveIsNamed(q, x);
    }
  }

  lemma AccountsWithNewcomer(c: Config, asked: map<Id, Request>, streams: map<Id, seq<Event>>, r: Request)
    requires Accounts(c, asked, streams) && Askable(r)
    ensures Accounts(c, asked[r.id := r], streams[r.id := []])
  {
    assert WellTold(c, r, []);
  }

  /** The newcomer has a ticket and an empty stream. */
  lemma TicketedWithNewcomer(q: Queue, after: Queue, tickets: set<Id>, streams: map<Id, seq<Event>>,
                             asked: map<Id, Request>, leaving: set<Id>, r: Request)
    requires Ticketed(q, tickets, streams, asked, leaving) && r.id !in asked
    requires after.Live() == q.Live() + {r.id}
    ensures Ticketed(after, tickets + {r.id}, streams[r.id := []], asked[r.id := r], leaving)
  {
  }

  lemma EndingsWithNewcomer(tickets: set<Id>, streams: map<Id, seq<Event>>, cancelled: set<Id>, id: Id)
    requires Endings(tickets, streams, cancelled)
    ensures Endings(tickets + {id}, streams[id := []], cancelled)
  {
  }

  lemma RegisteredWithNewcomer(asked: map<Id, Request>, r: Request)
    requires Registered(asked) && Askable(r)
    ensures Registered(asked[r.id := r])
  {
  }

  lemma NewcomerIsNew(c: Config, q: Queue, asked: map<Id, Request>, r: Request)
    requires Queued(c, q, asked) && r.id !in asked
    ensures r.id !in q.Live()
  {
  }

  lemma SubmitLedger(c: Config, s: System, r: Request, s': System)
    requires Ledger(c, s) && ClientStep(c, s, Submit(r), s')
    ensures Ledger(c, s')
  {
    hide Registered, Queued, Ticketed, LeftForGood, Rounds, Heard, Accounts, Endings, Added;
    var q, after := s.head.queue, s'.head.queue;
    if s' != s {
      QueueGrows(c, q, s.asked, r);
      RegisteredWithNewcomer(s.asked, r);
      TicketedWithNewcomer(q, after, s.head.tickets, s.head.streams, s.asked, s.leaving, r);
      EndingsWithNewcomer(s.head.tickets, s.head.streams, s.cancelled, r.id);
      RoundsWithNewcomer(c, s.phase, q, after, s.asked, r);
      NewcomerIsNew(c, q, s.asked, r);
      HeardWithNewcomer(c, q, after, s.head.tickets, s.head.streams, r);
      AccountsWithNewcomer(c, s.asked, s.head.streams, r);
      GoneWithNewcomer(q, after, s.asked, r, s.head.toRelease, s.parting, s.frees);
    }
  }

  lemma HeardByFewer(c: Config, q: Queue, after: Queue, tickets: set<Id>, streams: map<Id, seq<Event>>)
    requires Heard(c, q, tickets, streams)
    requires forall x :: IsLive(after, x) ==> IsLive(q, x)
    ensures Heard(c, after, tickets, streams)
  {
    hide GoesOn, IsLive;
  }

  lemma LeaveLedger(c: Config, s: System, id: Id, s': System)
    requires Ledger(c, s) && ClientStep(c, s, Leave(id), s')
    ensures Ledger(c, s')
  {
    hide Rounds, Heard, Accounts, LeftForGood;
    var q, after := s.head.queue, s'.head.queue;
    QueueShrinks(c, q, s.asked, id);
    HeardByFewer(c, q, after, s.head.tickets, s.head.streams);
    RoundsWithFewer(c, s.phase, q, after, s.asked, id);
    GoneWithFewer(q, after, s.asked, id, s.head.toRelease, s.parting, s.frees);
  }

  lemma ClientLedger(c: Config, s: System, a: Action, s': System)
    requires Ledger(c, s) && ClientStep(c, s, a, s')
    ensures Ledger(c, s')
  {
    match a
    case Submit(r) => SubmitLedger(c, s, r, s');
    case Leave(id) => LeaveLedger(c, s, id, s');
    case _ => CancelLedger(c, s, a, s');
  }

  lemma CancelLedger(c: Config, s: System, a: Action, s': System)
    requires Ledger(c, s) && ClientStep(c, s, a, s') && (a.Cancel? || a.Part?)
    ensures Ledger(c, s')
  {
    hide WellTold, GoesOn, Sound, Rounds;
  }

  // ---------------------------------------------------------------- the head

  lemma DrainLedger(c: Config, s: System, s': System)
    requires Ledger(c, s) && Shaped(c, s) && HeadStep(c, s, Drain, s')
    ensures Ledger(c, s')
  {
    hide Registered, Queued, Ticketed, Rounds, Heard, Accounts, Endings;
    assert Gone(s.head.queue, s.asked, s.head.toRelease[0]) by { assert s.head.toRelease[0] in s.head.toRelease; }
  }

  lemma SelectLedger(c: Config, s: System, s': System)
    requires Ledger(c, s) && Shaped(c, s) && HeadStep(c, s, Select, s')
    ensures Ledger(c, s')
  {
    hide Registered, Queued, Ticketed, LeftForGood, Rounds, Heard, Accounts, Endings, NextBatch;
    var (choice, after) := NextBatch(s.head.queue, c.limits);
    SelectedBatch(c, s);
    SameLive(c, s, after);
    if choice.Nothing? { NothingLeftToDo(c, s); }
  }

  /** The steps that change the phase and the engines only. */
  lemma PhaseLedger(c: Config, s: System, a: Action, s': System)
    requires Ledger(c, s) && Shaped(c, s) && HeadStep(c, s, a, s')
    requires !a.Drain? && !a.Select? && !a.Deliver? && !a.Fail?
    ensures Ledger(c, s')
  {
    hide Registered, Queued, Ticketed, LeftForGood, Rounds, Heard, Accounts, Endings, HeadOutcome, Awaits, Caches,
         Harmless, Addressed, Spoilt;
    match a
    case DrainedAll => NobodyAwaited(s.phase); BetweenRounds(c, s.phase, s'.phase, s);
    case FinishRound => NobodyAwaited(s.phase); BetweenRounds(c, s.phase, s'.phase, s);
    case Compute(batchId, draws) => RoundGoesOn(c, s, s'.phase);
    case ComputeFails(engine) => RoundGoesOn(c, s, s'.phase);
    case Take(answer) => if s'.phase != s.phase { SameBatch(c, s, s'.phase); }
    case GiveUp => SameBatch(c, s, s'.phase);
    case _ =>
  }

  lemma NobodyAwaited(p: Phase)
    requires Through(p) == |Batch(p)|
    ensures forall id :: !Awaits(p, id)
  {
  }

  // ---------------------------------------------------------------- a member is settled for good

  /** What a settled member's ticket was told last has the right form. */
  ghost predicate SettledWell(c: Config, s: System, id: Id, streams: map<Id, seq<Event>>)
    requires id in s.asked
  {
    && streams.Keys == s.head.streams.Keys
    && (forall other | other in streams && other != id :: streams[other] == s.head.streams[other])
    && (id in streams ==> WellTold(c, s.asked[id], streams[id]))
    && (id in streams ==> id in s.cancelled || Closed(streams[id]))
  }

  lemma SettledLedger(c: Config, s: System, streams: map<Id, seq<Event>>, s': System)
    requires Ledger(c, s) && Shaped(c, s)
    requires (s.phase.Delivering? || s.phase.Failing?) && s.phase.at < |s.phase.batch|
    requires var id := s.phase.batch[s.phase.at].id;
             && id in s.asked && SettledWell(c, s, id, streams)
             && s' == s.(head := HeadState(Finished(s.head.queue, id), s.head.tickets - {id},
                                           s.head.toRelease + [id], streams),
                         phase := Further(s.phase))
    ensures Ledger(c, s')
  {
    hide Registered, Queued, Ticketed, LeftForGood, Rounds, Heard, Accounts, Endings, Shaped, SettledWell, WellTold,
         Caches, Harmless, Landing;
    var q, id := s.head.queue, s.phase.batch[s.phase.at].id;
    var after := Finished(q, id);
    QueueShrinks(c, q, s.asked, id);
    HeardByFewer(c, q, after, s.head.tickets, s.head.streams);
    RoundsWithFewer(c, s.phase, q, after, s.asked, id);
    GoneWithFewer(q, after, s.asked, id, s.head.toRelease, s.parting, s.frees);
    ReleasedIsGone(after, s.asked, id, s.head.toRelease, s.parting, s.frees);
    SettledAccounts(c, s, id, after, streams);
    RoundAdvances(c, s, after);
  }

  lemma SettledAccounts(c: Config, s: System, id: Id, after: Queue, streams: map<Id, seq<Event>>)
    requires id in s.asked && SettledWell(c, s, id, streams) && after.Live() == s.head.queue.Live() - {id}
    requires Ticketed(s.head.queue, s.head.tickets, s.head.streams, s.asked, s.leaving)
    requires Heard(c, after, s.head.tickets, s.head.streams)
    requires Accounts(c, s.asked, s.head.streams) && Endings(s.head.tickets, s.head.streams, s.cancelled)
    ensures Ticketed(after, s.head.tickets - {id}, streams, s.asked, s.leaving)
    ensures Heard(c, after, s.head.tickets - {id}, streams)
    ensures Accounts(c, s.asked, streams) && Endings(s.head.tickets - {id}, streams, s.cancelled)
  {
    hide WellTold, GoesOn, Closed;
    forall r {:trigger IsLive(after, r)} | IsLive(after, r) ensures r.id != id { LiveIsNamed(after, r); }
  }

  /** Closing words after the tokens of an answer. */
  lemma ClosedWell(c: Config, r: Request, tokens: seq<Token>, last: Event)
    requires match last
             case DoneEvent(reason) => EndsRightly(c, r, tokens, reason)
             case ErrorEvent => GoesOn(c, r, tokens)
             case TokenEvent(_) => false
    ensures var events := TokenEvents(tokens) + [last]; Closed(events) && WellTold(c, r.Asked(), events)
  {
    SpokenThenClosed(tokens, last);
  }

  /** A member with a ticket is told closing words; one without has been told them before, or was cancelled. */
  lemma ClosingSettles(c: Config, s: System, told: seq<Event>)
    requires Ledger(c, s) && (s.phase.Delivering? || s.phase.Failing?) && s.phase.at < |s.phase.batch|
    requires var r := s.phase.batch[s.phase.at];
             r.id in s.head.tickets ==>
               var events := TokenEvents(r.output) + told; Closed(events) && WellTold(c, r.Asked(), events)
    ensures var id := s.phase.batch[s.phase.at].id;
            id in s.asked && SettledWell(c, s, id, StreamsAfter(s.head, id, told))
  {
    MemberIsEnrolled(c, s);
    if s.phase.batch[s.phase.at].id in s.head.tickets { ListenerIsRunning(c, s); }
    hide WellTold, Closed, Queued, Rounds, Heard, LeftForGood, TokenEvents, Registered, StreamsAfter, SettledWell;
    ClosedOrSettledBefore(c, s, s.phase.batch[s.phase.at], told);
  }

  lemma ClosedOrSettledBefore(c: Config, s: System, r: Request, told: seq<Event>)
    requires r.id in s.asked && r.Asked() == s.asked[r.id] && s.head.streams.Keys == s.asked.Keys
    requires Accounts(c, s.asked, s.head.streams) && Endings(s.head.tickets, s.head.streams, s.cancelled)
    requires r.id in s.head.tickets ==>
               && s.head.streams[r.id] == TokenEvents(r.output)
               && var events := TokenEvents(r.output) + told; Closed(events) && WellTold(c, r.Asked(), events)
    ensures SettledWell(c, s, r.id, StreamsAfter(s.head, r.id, told))
  {
    hide WellTold, Closed, TokenEvents;
  }

  lemma FailureCloses(c: Config, s: System)
    requires Ledger(c, s) && s.phase.Failing? && s.phase.at < |s.phase.batch|
    ensures var r := s.phase.batch[s.phase.at];
            r.id in s.head.tickets ==>
              var events := TokenEvents(r.output) + [ErrorEvent]; Closed(events) && WellTold(c, r.Asked(), events)
  {
    hide Ledger, WellTold, GoesOn;
    var r := s.phase.batch[s.phase.at];
    if r.id in s.head.tickets {
      ListenerIsRunning(c, s);
      ClosedWell(c, r, r.output, ErrorEvent);
    }
  }

  lemma FailLedger(c: Config, s: System, s': System)
    requires Ledger(c, s) && Shaped(c, s) && HeadStep(c, s, Action.Fail, s')
    ensures Ledger(c, s')
  {
    hide Ledger, SettledWell, Failed, Finished, Shaped, WellTold, TokenEvents, Closed, StreamsAfter;
    var r := s.phase.batch[s.phase.at];
    FailureCloses(c, s);
    FailedHead(s.head, r.id);
    ClosingSettles(c, s, [ErrorEvent]);
    SettledLedger(c, s, StreamsAfter(s.head, r.id, [ErrorEvent]), s');
  }

  // ---------------------------------------------------------------- delivering

  lemma LastWordsCloseWell(c: Config, r: Request, token: Token)
    requires GoesOn(c, r, r.output) && (token in c.eos || r.With(token).Done())
    ensures var events := TokenEvents(r.output) + LastWords(c.eos, token);
            Closed(events) && WellTold(c, r.Asked(), events)
  {
    var all, words := r.output + [token], LastWords(c.eos, token);
    GoesOnOrEnds(c, r, r.output, token);
    TokenEventsSnoc(r.output, token);
    ClosedWell(c, r, all, words[1]);
    assert TokenEvents(r.output) + words == TokenEvents(all) + [words[1]];
  }

  lemma LastTokenLedger(c: Config, s: System, s': System)
    requires Ledger(c, s) && Shaped(c, s)
    requires s.phase.Delivering? && s.phase.at < |s.phase.batch| == |s.phase.tokens|
    requires var r, token := s.phase.batch[s.phase.at], s.phase.tokens[s.phase.at];
             && Ends(s.head, c.eos, r, token)
             && s' == s.(head := HeadState(Finished(s.head.queue, r.id), s.head.tickets - {r.id},
                                           s.head.toRelease + [r.id],
                                           StreamsAfter(s.head, r.id, LastWords(c.eos, token))),
                         phase := Further(s.phase))
    ensures Ledger(c, s')
  {
    var r, token := s.phase.batch[s.phase.at], s.phase.tokens[s.phase.at];
    if r.id in s.head.tickets {
      ListenerIsRunning(c, s);
      LastWordsCloseWell(c, r, token);
    }
    hide Ledger, SettledWell, Finished, Shaped, WellTold, TokenEvents, LastWords;
    ClosingSettles(c, s, LastWords(c.eos, token));
    SettledLedger(c, s, StreamsAfter(s.head, r.id, LastWords(c.eos, token)), s');
  }

  /** One more token of an answer that goes on. */
  lemma GoesOnTelling(c: Config, r: Request, token: Token)
    requires GoesOn(c, r, r.output) && token !in c.eos && !r.With(token).Done()
    ensures GoesOn(c, r.With(token), r.With(token).output)
    ensures WellTold(c, r.Asked(), TokenEvents(r.output + [token]))
  {
    GoesOnOrEnds(c, r, r.output, token);
    SpokenTokens(r.output + [token]);
  }

  lemma TellingGoesOn(c: Config, s: System, after: Queue, r: Request, token: Token, streams: map<Id, seq<Event>>)
    requires r.id in s.asked && r.Asked() == s.asked[r.id] && r.id in s.head.tickets && r.id in s.head.streams
    requires streams == s.head.streams[r.id := TokenEvents(r.output + [token])]
    requires GoesOn(c, r.With(token), r.With(token).output)
    requires WellTold(c, r.Asked(), TokenEvents(r.output + [token]))
    requires after.Live() == s.head.queue.Live()
    requires forall x :: IsLive(after, x) <==> (IsLive(s.head.queue, x) && x.id != r.id) || x == r.With(token)
    requires Ticketed(s.head.queue, s.head.tickets, s.head.streams, s.asked, s.leaving)
    requires LeftForGood(s.head.queue, s.asked, s.head.toRelease, s.parting, s.frees)
    requires Heard(c, s.head.queue, s.head.tickets, s.head.streams)
    requires Accounts(c, s.asked, s.head.streams) && Endings(s.head.tickets, s.head.streams, s.cancelled)
    ensures Ticketed(after, s.head.tickets, streams, s.asked, s.leaving)
    ensures LeftForGood(after, s.asked, s.head.toRelease, s.parting, s.frees)
    ensures Heard(c, after, s.head.tickets, streams)
    ensures Accounts(c, s.asked, streams) && Endings(s.head.tickets, streams, s.cancelled)
  {
    hide WellTold, GoesOn, Closed, TokenEvents, IsLive;
    forall id | Gone(s.head.queue, s.asked, id) ensures Gone(after, s.asked, id) { }
  }

  lemma OneTokenLedger(c: Config, s: System, s': System)
    requires Ledger(c, s) && Shaped(c, s)
    requires s.phase.Delivering? && s.phase.at < |s.phase.batch| == |s.phase.tokens|
    requires var r, token := s.phase.batch[s.phase.at], s.phase.tokens[s.phase.at];
             && r.id in s.head.tickets && token !in c.eos && !r.With(token).Done()
             && s' == s.(head := s.head.(queue := Accepted(s.head.queue, token, r.id),
                                         streams := StreamsAfter(s.head, r.id, [TokenEvent(token)])),
                         phase := Further(s.phase))
    ensures Ledger(c, s')
  {
    var r, token := s.phase.batch[s.phase.at], s.phase.tokens[s.phase.at];
    ListenerIsRunning(c, s);
    MemberIsEnrolled(c, s);
    hide Registered, Queued, Ticketed, LeftForGood, Rounds, Heard, Accounts, Endings, GoesOn, WellTold, Shaped;
    GoesOnTelling(c, r, token);
    TokenEventsSnoc(r.output, token);
    hide TokenEvents;
    var after := Accepted(s.head.queue, token, r.id);
    QueueGoesOn(c, s.head.queue, s.asked, r, token);
    RoundGoesOnWithout(c, s, after, token);
    TellingGoesOn(c, s, after, r, token, s'.head.streams);
  }

  lemma DeliverLedger(c: Config, s: System, s': System)
    requires Ledger(c, s) && Shaped(c, s) && HeadStep(c, s, Deliver, s')
    ensures Ledger(c, s')
  {
    hide Registered, Queued, Ticketed, LeftForGood, Rounds, Heard, Accounts, Endings, Delivered, Finished, Accepted,
         StreamsAfter, Shaped, LastWords;
    var r, token := s.phase.batch[s.phase.at], s.phase.tokens[s.phase.at];
    DeliveredHead(s.head, c.eos, r, token);
    if Ends(s.head, c.eos, r, token) {
      LastTokenLedger(c, s, s');
    } else {
      ListenerIsRunning(c, s);
      OneTokenLedger(c, s, s');
    }
  }

  // ---------------------------------------------------------------- every step, every run

  lemma HeadLedger(c: Config, s: System, a: Action, s': System)
    requires Ledger(c, s) && Shaped(c, s) && HeadStep(c, s, a, s')
    ensures Ledger(c, s')
  {
    hide Ledger, Shaped, HeadStep;
    match a
    case Drain => DrainLedger(c, s, s');
    case Select => SelectLedger(c, s, s');
    case Deliver => DeliverLedger(c, s, s');
    case Fail => FailLedger(c, s, s');
    case _ => PhaseLedger(c, s, a, s');
  }

  lemma StageLedger(c: Config, s: System, a: Action, s': System)
    requires Ledger(c, s) && Shaped(c, s) && StageStep(c, s, a, s')
    ensures Ledger(c, s')
  {
    hide Registered, Queued, Ticketed, Rounds, Heard, Accounts, Endings, StageOutcome, Spoilt;
  }

  /** Every step of clients, head, stages and network, with or without room. */
  lemma StepLedger(c: Config, s: System, a: Action, s': System)
    requires Ledger(c, s) && Next(c, s, a, s')
    ensures Ledger(c, s')
  {
    hide Ledger, ClientStep, HeadStep, StageStep;
    if ClientStep(c, s, a, s') {
      ClientLedger(c, s, a, s');
    } else if HeadStep(c, s, a, s') {
      HeadLedger(c, s, a, s');
    } else {
      StageLedger(c, s, a, s');
    }
  }

  lemma {:induction false} LedgerHolds(c: Config, states: seq<System>, actions: seq<Action>, k: nat)
    requires Run(c, states, actions) && k < |states|
    ensures Ledger(c, states[k])
  {
    hide Ledger, Next, Init;
    if k == 0 {
      InitLedger(c, states[0]);
    } else {
      LedgerHolds(c, states, actions, k - 1);
      assert Next(c, states[k - 1], actions[k - 1], states[k - 1 + 1]);
      StepLedger(c, states[k - 1], actions[k - 1], states[k]);
    }
  }

  /**
   Whoever was evicted: every request is told fewer tokens than its limit and none that ends it, or
   tokens up to the first that ends it or up to the limit and then one closing event that says which,
   or fewer and an error. Its ticket is held, was cancelled, or has its closing event.
   */
  lemma AnswersEndRightly(c: Config, states: seq<System>, actions: seq<Action>, k: nat, id: Id)
    requires Run(c, states, actions) && k < |states| && id in states[k].asked
    ensures id in states[k].head.streams && WellTold(c, states[k].asked[id], states[k].head.streams[id])
    ensures id in states[k].head.tickets || id in states[k].cancelled || Closed(states[k].head.streams[id])
  {
    LedgerHolds(c, states, actions, k);
  }

  lemma NothingLeft(c: Config, s: System)
    requires Ledger(c, s) && s.phase.Drained? && NextBatch(s.head.queue, c.limits).0.Nothing?
    ensures s.head.queue == Queue([], []) && s.head.tickets == {}
    ensures forall id | id in s.asked && id !in s.cancelled ::
              id in s.head.streams && Closed(s.head.streams[id]) && WellTold(c, s.asked[id], s.head.streams[id])
  {
    NobodyIsDone(c, s);
    ChoiceLeavesNobodyOut(s.head.queue, c.limits);
    hide Rounds, Heard, NextBatch, WellTold, Closed;
    assert s.head.queue.Live() == {};
  }

  lemma NothingIsSelected(c: Config, s: System, s': System)
    requires Next(c, s, Select, s') && s'.phase.Idle?
    ensures s.phase.Drained? && NextBatch(s.head.queue, c.limits).0.Nothing?
  {
    hide NextBatch;
  }

  /**
   When the head finds nothing to compute, nobody waits and nobody runs, no ticket is held, and every
   request that was not cancelled has been told how it ended.
   */
  lemma NothingToComputeMeansNothingLeft(c: Config, states: seq<System>, actions: seq<Action>, k: nat)
    requires Run(c, states, actions) && k < |actions|
    requires actions[k] == Select && states[k + 1].phase.Idle?
    ensures states[k].head.queue == Queue([], []) && states[k].head.tickets == {}
    ensures forall id | id in states[k].asked && id !in states[k].cancelled ::
              && id in states[k].head.streams && Closed(states[k].head.streams[id])
              && WellTold(c, states[k].asked[id], states[k].head.streams[id])
  {
    LedgerHolds(c, states, actions, k);
    assert Next(c, states[k], actions[k], states[k + 1]);
    hide Ledger, Run, Next, WellTold, Closed;
    NothingIsSelected(c, states[k], states[k + 1]);
    NothingLeft(c, states[k]);
  }
}
