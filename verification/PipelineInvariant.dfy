/** What every reachable state of the pipeline satisfies. */
module PipelineInvariant {
  import opened Transformer
  import opened Sequences
  import opened BatchWire
  import opened Scheduling
  import opened Engines
  import opened Heads
  import opened Pipeline

  // ---------------------------------------------------------------- what a client may have been told

  function TokenEvents(tokens: seq<Token>): (events: seq<Event>)
    ensures |events| == |tokens|
  {
    seq(|tokens|, k requires 0 <= k < |tokens| => TokenEvent(tokens[k]))
  }

  function Most(r: Request): int {
    if r.maxTokens < 1 then 1 else r.maxTokens
  }

  /** Fewer tokens than the limit, none of them final. */
  predicate GoesOn(c: Config, r: Request, tokens: seq<Token>) {
    (forall k | 0 <= k < |tokens| :: tokens[k] !in c.eos) && |tokens| < Most(r)
  }

  /** The tokens end at the first end-of-sequence token, or at the limit, whichever comes first. */
  predicate EndsRightly(c: Config, r: Request, tokens: seq<Token>, reason: Reason) {
    && tokens != []
    && (forall k | 0 <= k < |tokens| - 1 :: tokens[k] !in c.eos)
    && |tokens| <= Most(r)
    && (reason.Stop? <==> tokens[|tokens| - 1] in c.eos)
    && (reason.Length? ==> |tokens| == Most(r))
  }

  /** Tokens the reference run may sample, none of them final yet. */
  ghost predicate Unfinished(c: Config, r: Request, tokens: seq<Token>) {
    Samples(c.model, r.prompt, r.sampling, tokens) && GoesOn(c, r, tokens)
  }

  /** A complete answer of the reference run. */
  ghost predicate Complete(c: Config, r: Request, tokens: seq<Token>, reason: Reason) {
    Samples(c.model, r.prompt, r.sampling, tokens) && EndsRightly(c, r, tokens, reason)
  }

  /** The tokens in a stream of events. */
  function Spoken(events: seq<Event>): seq<Token> {
    if events == [] then []
    else
      var last := events[|events| - 1];
      Spoken(events[..|events| - 1]) + if last.TokenEvent? then [last.token] else []
  }

  predicate Closed(events: seq<Event>) {
    events != [] && !events[|events| - 1].TokenEvent?
  }

  /**
   Everything ever put into a request's ticket: tokens of its reference run, then at most one closing
   event, which says truly how the answer ended.
   */
  ghost predicate Transcript(c: Config, r: Request, events: seq<Event>) {
    var tokens := Spoken(events);
    if !Closed(events) then events == TokenEvents(tokens) && Unfinished(c, r, tokens)
    else
      && events[..|events| - 1] == TokenEvents(tokens)
      && match events[|events| - 1]
         case DoneEvent(reason) => Complete(c, r, tokens, reason)
         case ErrorEvent => Unfinished(c, r, tokens)
         case TokenEvent(_) => false
  }

  /** The form of a transcript, whatever the tokens are. */
  ghost predicate WellTold(c: Config, r: Request, events: seq<Event>) {
    var tokens := Spoken(events);
    if !Closed(events) then events == TokenEvents(tokens) && GoesOn(c, r, tokens)
    else
      && events[..|events| - 1] == TokenEvents(tokens)
      && match events[|events| - 1]
         case DoneEvent(reason) => EndsRightly(c, r, tokens, reason)
         case ErrorEvent => GoesOn(c, r, tokens)
         case TokenEvent(_) => false
  }

  // ---------------------------------------------------------------- what a stage holds of a request

  /** The stage has computed the prompt and the tokens `outs`, and nothing else, for this request. */
  ghost predicate Fed(c: Config, stage: nat, e: Engine, r: Request, outs: seq<Token>)
    requires c.Valid() && stage < c.Stages()
  {
    && r.id in e.slots
    && e.slots[r.id].caches == Held(c.model, c.cuts[stage], c.cuts[stage + 1], r.prompt, outs)
    && e.slots[r.id].seen == |r.prompt| + |outs|
  }

  /** Ready for the request's next step: nothing held before the prompt, else all but the last token. */
  ghost predicate Ready(c: Config, stage: nat, e: Engine, r: Request)
    requires c.Valid() && stage < c.Stages()
  {
    if r.output == [] then r.id !in e.slots else Fed(c, stage, e, r, r.output[..|r.output| - 1])
  }

  /** That step is done on this stage. */
  ghost predicate Advanced(c: Config, stage: nat, e: Engine, r: Request)
    requires c.Valid() && stage < c.Stages()
  {
    Fed(c, stage, e, r, r.output)
  }

  /** Stages before `target` have done the request's step, the others are ready for it. */
  ghost predicate Halfway(c: Config, engines: seq<Engine>, r: Request, target: nat)
    requires c.Valid() && |engines| == c.Stages()
  {
    forall stage {:trigger engines[stage]} | 0 <= stage < c.Stages() ::
      if stage < target then Advanced(c, stage, engines[stage], r) else Ready(c, stage, engines[stage], r)
  }

  // ---------------------------------------------------------------- the batch of the round

  function Batch(p: Phase): seq<Request> {
    if p.Idle? || p.Drained? then [] else p.batch
  }

  /** How many members the round is through with. */
  function Through(p: Phase): nat {
    if p.Delivering? || p.Failing? then p.at else 0
  }

  /** The round still has to settle this request. */
  ghost predicate Awaits(p: Phase, id: Id) {
    exists k {:trigger Batch(p)[k]} | Through(p) <= k < |Batch(p)| :: Batch(p)[k].id == id
  }

  /** A batch with this name is on its way and its answer would be accepted. */
  predicate Current(p: Phase, batchId: BatchId) {
    p.Waiting? && p.batchId == batchId
  }

  // ---------------------------------------------------------------- the invariant, part by part

  ghost predicate Registered(asked: map<Id, Request>) {
    forall id | id in asked :: Askable(asked[id]) && asked[id].id == id
  }

  /** Who is queued was asked for, under that name and with that prompt; who waits has produced nothing. */
  ghost predicate Queued(c: Config, q: Queue, asked: map<Id, Request>) {
    && Sound(q, c.limits)
    && q.Live() <= asked.Keys
    && (forall r {:trigger IsLive(q, r)} | IsLive(q, r) :: r.id in asked && r.Asked() == asked[r.id])
    && (forall r | r in q.waiting :: r.output == [])
  }

  ghost predicate Ticketed(q: Queue, tickets: set<Id>, streams: map<Id, seq<Event>>, asked: map<Id, Request>,
                           leaving: set<Id>)
  {
    && tickets <= q.Live()
    && streams.Keys == asked.Keys
    && leaving <= asked.Keys && leaving !! tickets
  }

  /** Asked for once, and never to be computed again. */
  ghost predicate Gone(q: Queue, asked: map<Id, Request>, id: Id) {
    id in asked && id !in q.Live()
  }

  ghost predicate LeftForGood(q: Queue, asked: map<Id, Request>, toRelease: seq<Id>, parting: set<Id>,
                              frees: set<(nat, Id)>)
  {
    && (forall id | id in toRelease :: Gone(q, asked, id))
    && (forall id | id in parting :: Gone(q, asked, id))
    && (forall f | f in frees :: Gone(q, asked, f.1))
  }

  ghost predicate Rounds(c: Config, p: Phase, q: Queue, asked: map<Id, Request>) {
    && DistinctIds(Batch(p)) && Through(p) <= |Batch(p)| <= c.limits.maxSequences
    && (p.Delivering? ==> |p.tokens| == |Batch(p)|)
    && (!p.Idle? && !p.Drained? ==> Batch(p) != [])
    && (forall k | 0 <= k < |Batch(p)| :: Enrolled(q, asked, Batch(p)[k]))
    && (p.Computing? || p.Waiting? ==> forall k | 0 <= k < |p.batch| :: p.first <==> p.batch[k].output == [])
    && (forall k | Through(p) <= k < |Batch(p)| :: Batch(p)[k].id in Ids(q.running) ==> Batch(p)[k] in q.running)
    && (forall r | r in q.running :: r.output == [] ==> Awaits(p, r.id))
  }

  /** A member of a batch was asked for and waits no longer. */
  ghost predicate Enrolled(q: Queue, asked: map<Id, Request>, r: Request) {
    r.id in asked && r.Asked() == asked[r.id] && r.id !in Ids(q.waiting)
  }

  /** What live requests have produced so far is of their reference runs, if they never lost a slot. */
  ghost predicate Speech(c: Config, q: Queue, evicted: set<Id>) {
    forall r {:trigger IsLive(q, r)} | IsLive(q, r) && r.id !in evicted :: Unfinished(c, r, r.output)
  }

  /** What live requests have been told so far, whatever the tokens are. */
  ghost predicate Heard(c: Config, q: Queue, tickets: set<Id>, streams: map<Id, seq<Event>>) {
    forall r {:trigger IsLive(q, r)} | IsLive(q, r) ::
      && GoesOn(c, r, r.output)
      && (r.id in tickets && r.id in streams ==> streams[r.id] == TokenEvents(r.output))
  }

  /** Whatever was told has the form of a transcript. */
  ghost predicate Accounts(c: Config, asked: map<Id, Request>, streams: map<Id, seq<Event>>) {
    forall id | id in asked && id in streams :: WellTold(c, asked[id], streams[id])
  }

  /** Whoever never lost a slot was told tokens of its reference run. */
  ghost predicate Records(c: Config, asked: map<Id, Request>, streams: map<Id, seq<Event>>, evicted: set<Id>) {
    forall id | id in asked && id in streams && id !in evicted :: Transcript(c, asked[id], streams[id])
  }

  /** A ticket the head no longer holds was cancelled or has been closed. */
  ghost predicate Endings(tickets: set<Id>, streams: map<Id, seq<Event>>, cancelled: set<Id>) {
    forall id | id in streams :: id in tickets || id in cancelled || Closed(streams[id])
  }

  ghost predicate Remembered(engines: seq<Engine>, asked: map<Id, Request>) {
    forall stage | 0 <= stage < |engines| :: engines[stage].slots.Keys <= asked.Keys
  }

  ghost predicate Caches(c: Config, p: Phase, q: Queue, engines: seq<Engine>, evicted: set<Id>)
    requires c.Valid() && |engines| == c.Stages()
  {
    forall r {:trigger IsLive(q, r)} |
      IsLive(q, r) && r.id !in evicted && (p.Computing? || !Awaits(p, r.id)) :: Halfway(c, engines, r, 0)
  }

  /** Who runs and never lost a slot. */
  function Spared(q: Queue, evicted: set<Id>): set<Id> {
    Ids(q.running) - evicted
  }

  /** A token for a live member is one its reference run may sample, and every stage is past the step. */
  ghost predicate Answered(c: Config, engines: seq<Engine>, running: set<Id>, r: Request, token: Token)
    requires c.Valid() && |engines| == c.Stages()
  {
    r.id in running ==>
      && Halfway(c, engines, r, c.Stages())
      && Picks(c.model, r.prompt, r.sampling, r.output, token)
  }

  /** A live member's rows are those its reference run emits below stage `target`. */
  ghost predicate Carried(c: Config, engines: seq<Engine>, running: set<Id>, r: Request, target: nat, rows: seq<Row>)
    requires c.Valid() && |engines| == c.Stages() && target <= c.Stages()
  {
    r.id in running ==>
      && Halfway(c, engines, r, target)
      && rows == Emitted(c.model, c.cuts[target], r.prompt, r.output)
  }

  ghost predicate Landing(c: Config, p: Phase, engines: seq<Engine>, running: set<Id>)
    requires c.Valid() && |engines| == c.Stages()
  {
    p.Delivering? ==>
      forall k | p.at <= k < |p.batch| && k < |p.tokens| :: Answered(c, engines, running, p.batch[k], p.tokens[k])
  }

  /** The members of a message, as the stage it reaches will see them. */
  ghost predicate Readable(m: Activations, asked: map<Id, Request>) {
    && Unpacked(m.members).Ok?
    && DistinctIds(Unpacked(m.members).value)
    && HasRows(Unpacked(m.members).value, m.first)
    && Ids(Unpacked(m.members).value) <= asked.Keys
  }

  /** Every message has a name of its own; one of the current batch has not been answered yet. */
  ghost predicate Addressed(c: Config, p: Phase, activations: set<Activations>, answers: set<Answer>,
                            batches: set<BatchId>, asked: map<Id, Request>)
    requires c.Valid()
  {
    && (p.Waiting? ==> p.batchId in batches)
    && (forall m | m in activations :: m.batchId in batches && 0 < m.target < c.Stages() && Readable(m, asked))
    && (forall m, other | m in activations && other in activations && m.batchId == other.batchId :: m == other)
    && (forall a | a in answers :: a.batchId in batches)
    && (forall a, m | a in answers && m in activations && Current(p, a.batchId) :: m.batchId != a.batchId)
  }

  /**
   The members of any message but the current one are gone, or about to fail with their batch: what
   the message still does to their slots no longer matters.
   */
  ghost predicate Harmless(p: Phase, q: Queue, activations: set<Activations>) {
    forall m | m in activations && !Current(p, m.batchId) && Unpacked(m.members).Ok? ::
      Doomed(p, q, Ids(Unpacked(m.members).value))
  }

  ghost predicate Doomed(p: Phase, q: Queue, ids: set<Id>) {
    forall id | id in ids && id in q.Live() :: p.Failing? && Awaits(p, id)
  }

  /** The current batch, wherever it is, carries what the reference runs emit there. */
  ghost predicate OnTheWay(c: Config, p: Phase, engines: seq<Engine>, running: set<Id>, activations: set<Activations>)
    requires c.Valid() && |engines| == c.Stages()
  {
    forall m | m in activations && Current(p, m.batchId) && 0 < m.target < c.Stages() ::
      Faithful(c, p, engines, running, m)
  }

  ghost predicate Faithful(c: Config, p: Phase, engines: seq<Engine>, running: set<Id>, m: Activations)
    requires c.Valid() && |engines| == c.Stages() && 0 < m.target < c.Stages() && p.Waiting?
  {
    && m.first == p.first && m.members == Packed(p.batch, p.first)
    && |m.rows| == Total(Widths(p.batch, p.first))
    && forall k | 0 <= k < |p.batch| ::
         Carried(c, engines, running, p.batch[k], m.target, Cut(m.rows, Widths(p.batch, p.first))[k])
  }

  ghost predicate Returning(c: Config, p: Phase, engines: seq<Engine>, running: set<Id>, answers: set<Answer>)
    requires c.Valid() && |engines| == c.Stages()
  {
    forall a | a in answers && Current(p, a.batchId) && a.Tokens? ::
      && |a.tokens| == |p.batch|
      && forall k | 0 <= k < |a.tokens| :: Answered(c, engines, running, p.batch[k], a.tokens[k])
  }

  /**
   What every run keeps, also when full stages evict, and what neither caches nor messages have a part in:
   the queue, the tickets, whom to release, the rounds, and how many tokens everybody was told and how it ended.
   */
  ghost predicate Ledger(c: Config, s: System) {
    && Registered(s.asked)
    && Queued(c, s.head.queue, s.asked)
    && Ticketed(s.head.queue, s.head.tickets, s.head.streams, s.asked, s.leaving)
    && LeftForGood(s.head.queue, s.asked, s.head.toRelease, s.parting, s.frees)
    && Rounds(c, s.phase, s.head.queue, s.asked)
    && Heard(c, s.head.queue, s.head.tickets, s.head.streams)
    && Accounts(c, s.asked, s.head.streams)
    && Endings(s.head.tickets, s.head.streams, s.cancelled)
  }

  /** What caches hold, what messages carry, and what was told, of everybody who never lost a slot. */
  ghost predicate Right(c: Config, s: System) {
    && Shaped(c, s)
    && Speech(c, s.head.queue, s.evicted)
    && Records(c, s.asked, s.head.streams, s.evicted)
    && Remembered(s.engines, s.asked)
    && Caches(c, s.phase, s.head.queue, s.engines, s.evicted)
    && Landing(c, s.phase, s.engines, Spared(s.head.queue, s.evicted))
    && Addressed(c, s.phase, s.activations, s.answers, s.batches, s.asked)
    && Harmless(s.phase, s.head.queue, s.activations)
    && OnTheWay(c, s.phase, s.engines, Spared(s.head.queue, s.evicted), s.activations)
    && Returning(c, s.phase, s.engines, Spared(s.head.queue, s.evicted), s.answers)
  }

  ghost predicate Inv(c: Config, s: System) {
    Ledger(c, s) && Right(c, s)
  }

  /** With more requests counted as evicted, less is said. */
  lemma FewerSpared(c: Config, s: System, evicted: set<Id>)
    requires Right(c, s) && s.evicted <= evicted
    ensures Right(c, s.(evicted := evicted))
  {
    hide Halfway, Unfinished, Transcript, Harmless, Addressed, Remembered, Picks, Faithful;
    var spared, fewer := Spared(s.head.queue, s.evicted), Spared(s.head.queue, evicted);
    if s.phase.Waiting? {
      forall m | m in s.activations && Current(s.phase, m.batchId) && 0 < m.target < c.Stages()
        ensures Faithful(c, s.phase, s.engines, fewer, m)
      {
        assert Faithful(c, s.phase, s.engines, spared, m);
        FewerFaithful(c, s.phase, s.engines, spared, fewer, m);
      }
    }
  }

  lemma FewerFaithful(c: Config, p: Phase, engines: seq<Engine>, spared: set<Id>, fewer: set<Id>, m: Activations)
    requires c.Valid() && |engines| == c.Stages() && 0 < m.target < c.Stages() && p.Waiting?
    requires Faithful(c, p, engines, spared, m) && fewer <= spared
    ensures Faithful(c, p, engines, fewer, m)
  {
    hide Halfway;
    var pieces := Cut(m.rows, Widths(p.batch, p.first));
    forall k | 0 <= k < |p.batch| ensures Carried(c, engines, fewer, p.batch[k], m.target, pieces[k]) {
      assert Carried(c, engines, spared, p.batch[k], m.target, pieces[k]);
    }
  }

  // ---------------------------------------------------------------- frames

  /** This request's slot is the same on both. */
  ghost predicate Agree(before: Engine, after: Engine, id: Id) {
    && (id in before.slots <==> id in after.slots)
    && (id in before.slots ==> after.slots[id] == before.slots[id])
  }

  /** What is said of a request's slots depends on them only. */
  lemma HalfwayFrame(c: Config, before: seq<Engine>, after: seq<Engine>, r: Request, target: nat)
    requires c.Valid() && |before| == |after| == c.Stages()
    requires forall stage {:trigger after[stage]} | 0 <= stage < c.Stages() :: Agree(before[stage], after[stage], r.id)
    requires Halfway(c, before, r, target)
    ensures Halfway(c, after, r, target)
  {
    forall stage {:trigger after[stage]} | 0 <= stage < c.Stages()
      ensures if stage < target then Advanced(c, stage, after[stage], r) else Ready(c, stage, after[stage], r)
    {
      assert Agree(before[stage], after[stage], r.id);
      var _ := before[stage];
    }
  }

  /** One stage's engine changes, but not for this request. */
  lemma HalfwayElsewhere(c: Config, engines: seq<Engine>, at: nat, engine: Engine, r: Request, target: nat)
    requires c.Valid() && |engines| == c.Stages() && at < |engines|
    requires Agree(engines[at], engine, r.id) && Halfway(c, engines, r, target)
    ensures Halfway(c, engines[at := engine], r, target)
  {
    HalfwayFrame(c, engines, engines[at := engine], r, target);
  }

  lemma CachesElsewhere(c: Config, p: Phase, q: Queue, engines: seq<Engine>, evicted: set<Id>, at: nat, engine: Engine)
    requires c.Valid() && |engines| == c.Stages() && at < |engines| && Caches(c, p, q, engines, evicted)
    requires forall r {:trigger IsLive(q, r)} |
               IsLive(q, r) && r.id !in evicted && (p.Computing? || !Awaits(p, r.id)) ::
               Agree(engines[at], engine, r.id)
    ensures Caches(c, p, q, engines[at := engine], evicted)
  {
    forall r {:trigger IsLive(q, r)} | IsLive(q, r) && r.id !in evicted && (p.Computing? || !Awaits(p, r.id))
      ensures Halfway(c, engines[at := engine], r, 0)
    {
      HalfwayElsewhere(c, engines, at, engine, r, 0);
    }
  }
}
