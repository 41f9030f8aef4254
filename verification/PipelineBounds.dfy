/** How much work a run can find to do: every round uses up a token somebody was granted. */
module PipelineBounds {
  import opened Transformer
  import opened Sequences
  import opened BatchWire
  import opened Scheduling
  import opened Engines
  import opened Heads
  import opened Pipeline
  import opened PipelineInvariant
  import opened PipelineRounds
  import opened PipelineLedger
  import PipelineDelivery

  /** How many tokens a request may still be given. */
  function Left(r: Request): int {
    Most(r) - |r.output|
  }

  function LeftFor(batch: seq<Request>): int {
    if batch == [] then 0 else LeftFor(batch[..|batch| - 1]) + Left(batch[|batch| - 1])
  }

  /** The round's first member is still to be settled. */
  predicate Unsettled(p: Phase, q: Queue) {
    Batch(p) != [] && Through(p) == 0 && Batch(p)[0].id in Ids(q.running)
  }

  /** What the queue may still be given, less what the round in progress is about to give. */
  function Potential(p: Phase, q: Queue): int {
    LeftFor(q.waiting) + LeftFor(q.running) - if Unsettled(p, q) then 1 else 0
  }

  // ---------------------------------------------------------------- sums

  lemma {:induction false} LeftForConcat(a: seq<Request>, b: seq<Request>)
    ensures LeftFor(a + b) == LeftFor(a) + LeftFor(b)
  {
    if b == [] {
      assert a + b == a;
    } else {
      var front := b[..|b| - 1];
      assert (a + b)[..|a + b| - 1] == a + front;
      LeftForConcat(a, front);
    }
  }

  lemma {:induction false} LeftForPositive(batch: seq<Request>)
    requires forall r | r in batch :: Left(r) >= 1
    ensures LeftFor(batch) >= |batch|
  {
    if batch != [] {
      var front := batch[..|batch| - 1];
      forall r | r in front ensures Left(r) >= 1 { assert r in batch; }
      LeftForPositive(front);
      assert batch[|batch| - 1] in batch;
    }
  }

  lemma {:induction false} LeftWithout(batch: seq<Request>, id: Id)
    requires forall r | r in batch :: Left(r) >= 1
    ensures LeftFor(Without(batch, id)) <= LeftFor(batch) - if id in Ids(batch) then 1 else 0
  {
    if batch != [] {
      var front, last := batch[..|batch| - 1], batch[|batch| - 1];
      forall r | r in front ensures Left(r) >= 1 { assert r in batch; }
      LeftWithout(front, id);
      assert last in batch && batch == front + [last];
      IdsOfSnoc(front, last);
      LeftForSnoc(front, last);
      if last.id == id {
        assert Without(batch, id) == Without(front, id);
      } else {
        assert Without(batch, id) == Without(front, id) + [last];
        LeftForSnoc(Without(front, id), last);
      }
      hide Ids, LeftFor, Without;
    }
  }

  lemma {:induction false} LeftAppended(batch: seq<Request>, id: Id, token: Token)
    ensures LeftFor(Appended(batch, id, token)) <= LeftFor(batch) - if id in Ids(batch) then 1 else 0
  {
    if batch != [] {
      var front, last := batch[..|batch| - 1], batch[|batch| - 1];
      LeftAppended(front, id, token);
      var grown := if last.id == id then last.With(token) else last;
      AppendedSnoc(front, last, id, token);
      assert batch == front + [last];
      IdsOfSnoc(front, last);
      LeftForSnoc(front, last);
      LeftForSnoc(Appended(front, id, token), grown);
      hide Ids, LeftFor, Appended;
    }
  }

  lemma AppendedSnoc(front: seq<Request>, last: Request, id: Id, token: Token)
    ensures Appended(front + [last], id, token)
         == Appended(front, id, token) + [if last.id == id then last.With(token) else last]
  {
  }

  lemma LeftForSnoc(front: seq<Request>, last: Request)
    ensures LeftFor(front + [last]) == LeftFor(front) + Left(last)
  {
    assert (front + [last])[..|front|] == front;
  }

  lemma LiveHaveLeft(c: Config, s: System)
    requires Heard(c, s.head.queue, s.head.tickets, s.head.streams)
    ensures forall r | r in s.head.queue.waiting :: Left(r) >= 1
    ensures forall r | r in s.head.queue.running :: Left(r) >= 1
  {
    forall r | r in s.head.queue.waiting ensures Left(r) >= 1 { assert IsLive(s.head.queue, r); }
    forall r | r in s.head.queue.running ensures Left(r) >= 1 { assert IsLive(s.head.queue, r); }
  }

  lemma PotentialIsNatural(c: Config, s: System)
    requires Heard(c, s.head.queue, s.head.tickets, s.head.streams)
    ensures 0 <= Potential(s.phase, s.head.queue)
  {
    LiveHaveLeft(c, s);
    LeftForPositive(s.head.queue.waiting);
    LeftForPositive(s.head.queue.running);
  }

  // ---------------------------------------------------------------- one step

  /** A round begins. */
  predicate Begins(a: Action, s': System) {
    a.Select? && s'.phase.Computing?
  }

  /** What an accepted request may be given. */
  function Grant(s: System, a: Action, s': System): int {
    if a.Submit? && s' != s then Most(a.request) else 0
  }

  lemma DroppingPays(p: Phase, q: Queue, id: Id)
    requires forall r | r in q.waiting :: Left(r) >= 1
    requires forall r | r in q.running :: Left(r) >= 1
    ensures Potential(p, Finished(q, id)) <= Potential(p, q)
    ensures LeftFor(Finished(q, id).waiting) + LeftFor(Finished(q, id).running)
         <= LeftFor(q.waiting) + LeftFor(q.running) - if id in Ids(q.running) then 1 else 0
  {
    LeftWithout(q.waiting, id);
    LeftWithout(q.running, id);
    FinishedLive(q, id);
  }

  lemma SelectingPays(c: Config, s: System)
    requires Ledger(c, s) && s.phase.Drained?
    ensures var (choice, after) := NextBatch(s.head.queue, c.limits);
            if choice.Nothing? then Potential(Idle, after) <= Potential(s.phase, s.head.queue)
            else Potential(Computing(choice.batch, choice.Prefill?), after) + 1 <= Potential(s.phase, s.head.queue)
  {
    hide Registered, Queued, Ticketed, LeftForGood, Rounds, Heard, Accounts, Endings;
    var q := s.head.queue;
    SelectedBatch(c, s);
    SoundQueue(c, s);
    PrefillIsLongestPrefix(q, c.limits, 0);
    NobodyIsDone(c, s);
    ChoiceLeavesNobodyOut(q, c.limits);
    hide NextBatch, Sound, LeftFor, Potential;
    var (choice, after) := NextBatch(q, c.limits);
    match choice
    case Prefill(batch) => PrefillPays(s.phase, q, after, batch);
    case Decode(batch) => DecodePays(s.phase, q);
    case Nothing => NothingPays(s.phase, q);
  }

  lemma PrefillPays(p: Phase, q: Queue, after: Queue, batch: seq<Request>)
    requires p.Drained? && batch != [] && batch <= q.waiting
    requires after == Queue(q.waiting[|batch|..], q.running + batch)
    ensures Potential(Computing(batch, true), after) + 1 <= Potential(p, q)
  {
    hide LeftFor;
    assert q.waiting == batch + after.waiting;
    LeftForConcat(batch, after.waiting);
    LeftForConcat(q.running, batch);
    assert batch[0] in after.running;
  }

  lemma DecodePays(p: Phase, q: Queue)
    requires p.Drained? && q.running != []
    ensures Potential(Computing(q.running, false), q) + 1 <= Potential(p, q)
  {
    assert q.running[0] in q.running;
    hide LeftFor;
  }

  lemma NothingPays(p: Phase, q: Queue)
    requires p.Drained?
    ensures Potential(Idle, q) == Potential(p, q)
  {
  }

  lemma SoundQueue(c: Config, s: System)
    requires Queued(c, s.head.queue, s.asked)
    ensures Sound(s.head.queue, c.limits)
  {
  }

  /** Giving a member its token, or dropping it, pays for the round. */
  lemma SettlingPays(c: Config, s: System, s': System, token: Token)
    requires Ledger(c, s) && (s.phase.Delivering? || s.phase.Failing?) && s.phase.at < |s.phase.batch|
    requires Through(s'.phase) == s.phase.at + 1
    requires var q, id := s.head.queue, s.phase.batch[s.phase.at].id;
             s'.head.queue == Finished(q, id) || s'.head.queue == Accepted(q, token, id)
    ensures Potential(s'.phase, s'.head.queue) <= Potential(s.phase, s.head.queue)
  {
    hide Registered, Queued, Ticketed, LeftForGood, Rounds, Heard, Accounts, Endings;
    var q, id := s.head.queue, s.phase.batch[s.phase.at].id;
    LiveHaveLeft(c, s);
    LeftAppended(q.running, id, token);
    DroppingPays(s.phase, q, id);
  }

  lemma DeliveryPays(c: Config, s: System, s': System)
    requires Ledger(c, s) && Shaped(c, s) && HeadStep(c, s, Deliver, s')
    ensures Potential(s'.phase, s'.head.queue) <= Potential(s.phase, s.head.queue)
  {
    hide Registered, Queued, Ticketed, LeftForGood, Rounds, Heard, Accounts, Endings, Accepted, Finished,
         Delivered, Potential;
    var r, token := s.phase.batch[s.phase.at], s.phase.tokens[s.phase.at];
    PipelineDelivery.DeliveredHead(s.head, c.eos, r, token);
    SettlingPays(c, s, s', token);
  }

  lemma RoundEnds(c: Config, s: System, s': System)
    requires Ledger(c, s) && Shaped(c, s) && HeadStep(c, s, FinishRound, s')
    ensures Potential(s'.phase, s'.head.queue) == Potential(s.phase, s.head.queue)
  {
    hide Registered, Queued, Ticketed, LeftForGood, Heard, Accounts, Endings;
  }

  /** The other steps touch neither the queue nor what is settled. */
  lemma QueueIsLeftAlone(c: Config, s: System, a: Action, s': System)
    requires Shaped(c, s) && HeadStep(c, s, a, s')
    requires !a.Select? && !a.Deliver? && !a.Fail? && !a.FinishRound?
    ensures Potential(s'.phase, s'.head.queue) == Potential(s.phase, s.head.queue)
  {
    hide LeftFor, Ids, HeadOutcome, HeadLost, Ousted, Spoilt, HasRows, SampledBatch, Packed, Fitted, CheckRows;
  }

  lemma HeadStepPays(c: Config, s: System, a: Action, s': System)
    requires Ledger(c, s) && Shaped(c, s) && HeadStep(c, s, a, s')
    ensures Potential(s'.phase, s'.head.queue) + (if Begins(a, s') then 1 else 0) <= Potential(s.phase, s.head.queue)
  {
    hide Registered, Queued, Ticketed, LeftForGood, Rounds, Heard, Accounts, Endings, NextBatch, LeftFor;
    match a
    case Select => SelectingPays(c, s);
    case Deliver => DeliveryPays(c, s, s');
    case Fail => SettlingPays(c, s, s', 0);
    case FinishRound => RoundEnds(c, s, s');
    case _ => QueueIsLeftAlone(c, s, a, s');
  }

  lemma ClientStepPays(c: Config, s: System, a: Action, s': System)
    requires Ledger(c, s) && ClientStep(c, s, a, s')
    ensures Potential(s'.phase, s'.head.queue) <= Potential(s.phase, s.head.queue) + Grant(s, a, s')
  {
    hide Registered, Queued, Ticketed, LeftForGood, Rounds, Heard, Accounts, Endings;
    match a
    case Submit(r) =>
      LeftForConcat(s.head.queue.waiting, [r]);
      assert LeftFor([r]) == Left(r);
    case Leave(id) =>
      LiveHaveLeft(c, s);
      DroppingPays(s.phase, s.head.queue, id);
    case _ =>
  }

  lemma StepPays(c: Config, s: System, a: Action, s': System)
    requires Ledger(c, s) && Next(c, s, a, s')
    ensures Potential(s'.phase, s'.head.queue) + (if Begins(a, s') then 1 else 0)
         <= Potential(s.phase, s.head.queue) + Grant(s, a, s')
  {
    hide Registered, Queued, Ticketed, LeftForGood, Rounds, Heard, Accounts, Endings, ClientStep, HeadStep, Potential;
    if ClientStep(c, s, a, s') {
      ClientStepPays(c, s, a, s');
      assert !Begins(a, s') by { ClientsBeginNothing(c, s, a, s'); }
    } else if HeadStep(c, s, a, s') {
      HeadStepPays(c, s, a, s');
      assert Grant(s, a, s') == 0 by { HeadGrantsNothing(c, s, a, s'); }
    }
  }

  lemma ClientsBeginNothing(c: Config, s: System, a: Action, s': System)
    requires ClientStep(c, s, a, s')
    ensures !Begins(a, s')
  {
  }

  lemma HeadGrantsNothing(c: Config, s: System, a: Action, s': System)
    requires Shaped(c, s) && HeadStep(c, s, a, s')
    ensures Grant(s, a, s') == 0
  {
  }

  // ---------------------------------------------------------------- whole runs

  /** How many rounds begin in steps `from..to`. */
  function RoundsBegun(states: seq<System>, actions: seq<Action>, from: nat, to: nat): nat
    requires from <= to <= |actions| && |states| == |actions| + 1
  {
    if from == to then 0
    else RoundsBegun(states, actions, from, to - 1) + if Begins(actions[to - 1], states[to]) then 1 else 0
  }

  /** What the requests accepted in steps `from..to` may be given together. */
  function Granted(states: seq<System>, actions: seq<Action>, from: nat, to: nat): int
    requires from <= to <= |actions| && |states| == |actions| + 1
  {
    if from == to then 0
    else Granted(states, actions, from, to - 1) + Grant(states[to - 1], actions[to - 1], states[to])
  }

  lemma {:induction false} RoundsArePaidFor(c: Config, states: seq<System>, actions: seq<Action>, from: nat, to: nat)
    requires Run(c, states, actions) && from <= to <= |actions|
    ensures RoundsBegun(states, actions, from, to) + Potential(states[to].phase, states[to].head.queue)
         <= Potential(states[from].phase, states[from].head.queue) + Granted(states, actions, from, to)
  {
    hide Ledger, Potential, Next, Init;
    if from < to {
      RoundsArePaidFor(c, states, actions, from, to - 1);
      LedgerHolds(c, states, actions, to - 1);
      assert Next(c, states[to - 1], actions[to - 1], states[to - 1 + 1]);
      StepPays(c, states[to - 1], actions[to - 1], states[to]);
    }
  }

  /**
   However clients, head, stages and network interleave, a run never begins more rounds than the sum of
   `max(1, maxTokens)` over the requests it accepted.
   */
  lemma RoundsAreBounded(c: Config, states: seq<System>, actions: seq<Action>)
    requires Run(c, states, actions)
    ensures RoundsBegun(states, actions, 0, |actions|) <= Granted(states, actions, 0, |actions|)
  {
    RoundsArePaidFor(c, states, actions, 0, |actions|);
    LedgerHolds(c, states, actions, |actions|);
    PotentialIsNatural(c, states[|actions|]);
  }

  /** Once nobody submits any more, the rounds that follow are at most the tokens still owed. */
  lemma ClosedWorkloadsFinish(c: Config, states: seq<System>, actions: seq<Action>, from: nat)
    requires Run(c, states, actions) && from <= |actions|
    requires forall k | from <= k < |actions| :: !actions[k].Submit?
    ensures RoundsBegun(states, actions, from, |actions|)
         <= LeftFor(states[from].head.queue.waiting) + LeftFor(states[from].head.queue.running)
  {
    RoundsArePaidFor(c, states, actions, from, |actions|);
    NothingGranted(states, actions, from, |actions|);
    LedgerHolds(c, states, actions, |actions|);
    PotentialIsNatural(c, states[|actions|]);
  }

  lemma {:induction false} NothingGranted(states: seq<System>, actions: seq<Action>, from: nat, to: nat)
    requires from <= to <= |actions| && |states| == |actions| + 1
    requires forall k | from <= k < |actions| :: !actions[k].Submit?
    ensures Granted(states, actions, from, to) == 0
  {
    if from < to { NothingGranted(states, actions, from, to - 1); }
  }
}
