/**
 The whole pipeline as a state machine: a head, any number of later stages, clients that submit and
 cancel at any moment, and a network that may delay, reorder and lose every message and repeat the
 answers. An `activations` message is handled at most once.
 */
module Pipeline {
  import opened Wrappers
  import opened Transformer
  import opened Sequences
  import opened BatchWire
  import opened Scheduling
  import opened Engines
  import opened Heads

  type BatchId = string

  /** `cuts[s]..cuts[s + 1]` are the layers of stage `s`. */
  datatype Config = Config(model: Model, cuts: seq<nat>, capacity: nat, limits: Limits, eos: set<Token>) {
    ghost predicate Valid() {
      && WellFormed(model)
      && |cuts| >= 2 && cuts[0] == 0 && cuts[|cuts| - 1] == |model.layers|
      && (forall i, j | 0 <= i <= j < |cuts| :: cuts[i] <= cuts[j])
      && capacity > 0 && limits.maxSequences > 0
    }

    function Stages(): nat
      requires |cuts| >= 2
    {
      |cuts| - 1
    }

    function ShardOf(stage: nat): Shard
      requires |cuts| >= 2 && stage < Stages()
    {
      Shard(model, cuts[stage], cuts[stage + 1], stage == 0, stage == Stages() - 1, capacity)
    }
  }

  datatype Activations = Activations(
    batchId: BatchId, target: nat, first: bool, members: seq<Member>, rows: seq<Row>)

  datatype Answer = Tokens(batchId: BatchId, tokens: seq<Token>) | Trouble(batchId: BatchId)

  /** What the head's only computing thread is doing. */
  datatype Phase =
    | Idle
    | Drained
    | Computing(batch: seq<Request>, first: bool)
    | Waiting(batch: seq<Request>, first: bool, batchId: BatchId)
    | Delivering(batch: seq<Request>, tokens: seq<Token>, at: nat)
    | Failing(batch: seq<Request>, at: nat)

  /**
   `leaving` and `parting` are the cancels in progress, before and after they took the request off
   the queue. `asked` and `batches` are the names used so far, `cancelled` the requests whose ticket a
   cancel took away, `evicted` those that lost a slot on some stage to somebody else: they only record
   history.
   */
  datatype System = System(
    head: HeadState,
    phase: Phase,
    engines: seq<Engine>,
    activations: set<Activations>,
    answers: set<Answer>,
    frees: set<(nat, Id)>,
    leaving: set<Id>,
    parting: set<Id>,
    asked: map<Id, Request>,
    batches: set<BatchId>,
    cancelled: set<Id>,
    evicted: set<Id>)

  datatype Action =
    | Submit(request: Request)
    | Cancel(id: Id)
    | Leave(id: Id)
    | Part(id: Id)
    | Drain
    | DrainedAll
    | Select
    | Compute(batchId: BatchId, draws: seq<Draw>)
    | ComputeFails(engine: Engine)
    | StageComputes(message: Activations, draws: seq<Draw>)
    | StageFails(message: Activations, engine: Engine)
    | StageFrees(stage: nat, id: Id)
    | Take(answer: Answer)
    | GiveUp
    | Deliver
    | Fail
    | FinishRound

  ghost predicate Init(c: Config, s: System) {
    && c.Valid()
    && s.head == NEW_HEAD && s.phase == Idle
    && s.engines == seq(c.Stages(), _ => Engine(map[], 0))
    && s.activations == {} && s.answers == {} && s.frees == {} && s.leaving == {} && s.parting == {}
    && s.asked == map[] && s.batches == {} && s.cancelled == {} && s.evicted == {}
  }

  /**
   A step that raised half-way: the batch's slots may hold anything. With room for all nobody loses a
   slot; without, anybody may have been evicted on the way. The slots of others that are left are as
   they were, and no slot is from a time to come.
   */
  ghost predicate Spoilt(shard: Shard, before: Engine, after: Engine, ids: set<Id>) {
    && Fitted(shard, after)
    && after.slots.Keys <= before.slots.Keys + ids
    && (forall id | id in after.slots && id !in ids :: after.slots[id] == before.slots[id])
    && (HasRoom(shard, before, ids) ==> before.slots.Keys <= after.slots.Keys)
    && (|before.slots| <= shard.capacity ==> |after.slots| <= shard.capacity)
    && (Aged(before) ==> Aged(after))
  }

  // ---------------------------------------------------------------- one stage handling one message

  /** What a stage makes of the batch it was sent. */
  ghost function StageOutcome(c: Config, engine: Engine, m: Activations, draws: seq<Draw>)
      : (r: (Engine, Result<Activations, Answer>))
    requires c.Valid() && 0 < m.target < c.Stages() && Fitted(c.ShardOf(m.target), engine)
    requires Unpacked(m.members).Ok? ==> HasRows(Unpacked(m.members).value, m.first)
    requires |draws| == |m.members|
    ensures Fitted(c.ShardOf(m.target), r.0)
  {
    var shard := c.ShardOf(m.target);
    var unpacked := Unpacked(m.members);
    if unpacked.Err? then (engine, Err(Trouble(m.batchId)))
    else
      var (after, out) := Stepped(shard, engine, unpacked.value, Some(m.rows), m.first);
      if out.Err? then (after, Err(Trouble(m.batchId)))
      else match out.value
        case Hidden(rows) => (after, Ok(m.(target := m.target + 1, rows := rows)))
        case Logits(lastRows) =>
          (after, Err(Tokens(m.batchId, SampledBatch(c.model, lastRows, unpacked.value, draws))))
  }

  /** What the head's own layers make of a batch. */
  ghost function HeadOutcome(c: Config, s: System, batch: seq<Request>, first: bool): (r: (Engine, Output))
    requires c.Valid() && |s.engines| == c.Stages() && Fitted(c.ShardOf(0), s.engines[0]) && HasRows(batch, first)
    ensures Fitted(c.ShardOf(0), r.0)
    ensures c.Stages() == 1 ==> r.1.Logits? && |r.1.lastRows| == |batch|
    ensures c.Stages() > 1 ==> r.1.Hidden?
  {
    var (after, out) := Stepped(c.ShardOf(0), s.engines[0], batch, None, first);
    (after, out.value)
  }

  /** Who loses a slot while the head computes a batch. */
  ghost function HeadLost(c: Config, s: System, batch: seq<Request>, first: bool): set<Id>
    requires c.Valid() && |s.engines| == c.Stages() && Fitted(c.ShardOf(0), s.engines[0])
  {
    Lost(c.ShardOf(0), s.engines[0], batch, Embedded(c.model, batch, first), first, |batch|)
  }

  /** Who loses a slot while a later stage computes a message. */
  ghost function StageLost(c: Config, engine: Engine, m: Activations): set<Id>
    requires c.Valid() && 0 < m.target < c.Stages() && Fitted(c.ShardOf(m.target), engine)
  {
    var shard, unpacked := c.ShardOf(m.target), Unpacked(m.members);
    if unpacked.Err? then {}
    else
      var fed := Incoming(shard, unpacked.value, Some(m.rows), m.first);
      if fed.Err? then {} else Lost(shard, engine, unpacked.value, fed.value, m.first, |unpacked.value|)
  }

  /** Who has no slot any more after a step that raised. */
  function Ousted(before: Engine, after: Engine): set<Id> {
    before.slots.Keys - after.slots.Keys
  }

  // ---------------------------------------------------------------- the steps

  /** A request as the front end builds it: it has a name and a prompt, and has produced nothing. */
  predicate Askable(r: Request) {
    r.id != "" && r.prompt != [] && r.output == []
  }

  ghost predicate ClientStep(c: Config, s: System, a: Action, s': System) {
    match a
    case Submit(r) =>
      && r.id !in s.asked && Askable(r)
      && var submitted := Submitted(s.head, c.limits, r);
         s' == if submitted.Err? then s else s.(head := submitted.value, asked := s.asked[r.id := r])
    case Cancel(id) =>
      s' == if !Known(s.head, id) then s
            else s.(head := Forgotten(s.head, id), leaving := s.leaving + {id},
                    cancelled := s.cancelled + if id in s.head.tickets then {id} else {})
    case Leave(id) =>
      && id in s.leaving
      && s' == s.(head := Unqueued(s.head, id), leaving := s.leaving - {id}, parting := s.parting + {id})
    case Part(id) =>
      && id in s.parting
      && s' == s.(head := Released(s.head, id), parting := s.parting - {id})
    case _ => false
  }

  ghost predicate HeadStep(c: Config, s: System, a: Action, s': System)
    requires c.Valid() && |s.engines| == c.Stages() && Fitted(c.ShardOf(0), s.engines[0])
  {
    match a
    case Drain =>
      && s.phase.Idle? && s.head.toRelease != []
      && var id := s.head.toRelease[0];
         s' == s.(head := s.head.(toRelease := s.head.toRelease[1..]),
                  engines := s.engines[0 := Freed(s.engines[0], id)],
                  frees := s.frees + set stage | 0 < stage < c.Stages() :: (stage, id))
    case DrainedAll =>
      s.phase.Idle? && s.head.toRelease == [] && s' == s.(phase := Drained)
    case Select =>
      && s.phase.Drained?
      && var (choice, queue) := NextBatch(s.head.queue, c.limits);
         s' == s.(head := s.head.(queue := queue),
                  phase := if choice.Nothing? then Idle else Computing(choice.batch, choice.Prefill?))
    case Compute(batchId, draws) =>
      && s.phase.Computing? && HasRows(s.phase.batch, s.phase.first)
      && batchId !in s.batches && |draws| == |s.phase.batch|
      && var (batch, first) := (s.phase.batch, s.phase.first);
         var (engine, out) := HeadOutcome(c, s, batch, first);
         s' == if c.Stages() == 1 then
                 s.(engines := s.engines[0 := engine],
                    evicted := s.evicted + HeadLost(c, s, batch, first),
                    phase := Delivering(batch, SampledBatch(c.model, out.lastRows, batch, draws), 0))
               else
                 s.(engines := s.engines[0 := engine],
                    evicted := s.evicted + HeadLost(c, s, batch, first),
                    phase := Waiting(batch, first, batchId),
                    batches := s.batches + {batchId},
                    activations := s.activations
                      + {Activations(batchId, 1, first, Packed(batch, first), out.rows)})
    case ComputeFails(engine) =>
      && s.phase.Computing?
      && Spoilt(c.ShardOf(0), s.engines[0], engine, Ids(s.phase.batch))
      && s' == s.(engines := s.engines[0 := engine], phase := Failing(s.phase.batch, 0),
                  evicted := s.evicted + Ousted(s.engines[0], engine))
    case Take(answer) =>
      && s.phase.Waiting? && answer in s.answers
      && s' == (if answer.batchId != s.phase.batchId then s
                else if answer.Tokens? && CheckRows(s.phase.batch, |answer.tokens|).Ok?
                then s.(phase := Delivering(s.phase.batch, answer.tokens, 0))
                else s.(phase := Failing(s.phase.batch, 0)))
    case GiveUp =>
      s.phase.Waiting? && s' == s.(phase := Failing(s.phase.batch, 0))
    case Deliver =>
      && s.phase.Delivering? && s.phase.at < |s.phase.batch| == |s.phase.tokens|
      && s' == s.(head := Delivered(s.head, c.eos, s.phase.batch[s.phase.at], s.phase.tokens[s.phase.at]),
                  phase := Delivering(s.phase.batch, s.phase.tokens, s.phase.at + 1))
    case Fail =>
      && s.phase.Failing? && s.phase.at < |s.phase.batch|
      && s' == s.(head := Failed(s.head, s.phase.batch[s.phase.at].id),
                  phase := Failing(s.phase.batch, s.phase.at + 1))
    case FinishRound =>
      && (s.phase.Delivering? || s.phase.Failing?) && s.phase.at == |s.phase.batch|
      && s' == s.(phase := Idle)
    case _ => false
  }

  ghost predicate StageStep(c: Config, s: System, a: Action, s': System)
    requires c.Valid() && |s.engines| == c.Stages()
    requires forall stage | 0 <= stage < c.Stages() :: Fitted(c.ShardOf(stage), s.engines[stage])
  {
    match a
    case StageComputes(m, draws) =>
      && m in s.activations && 0 < m.target < c.Stages() && |draws| == |m.members|
      && (Unpacked(m.members).Ok? ==> HasRows(Unpacked(m.members).value, m.first))
      && var (engine, out) := StageOutcome(c, s.engines[m.target], m, draws);
         s' == s.(engines := s.engines[m.target := engine],
                  evicted := s.evicted + StageLost(c, s.engines[m.target], m),
                  activations := s.activations - {m} + if out.Ok? then {out.value} else {},
                  answers := s.answers + if out.Err? then {out.error} else {})
    case StageFails(m, engine) =>
      && m in s.activations && 0 < m.target < c.Stages()
      && Unpacked(m.members).Ok?
      && Spoilt(c.ShardOf(m.target), s.engines[m.target], engine, Ids(Unpacked(m.members).value))
      && s' == s.(engines := s.engines[m.target := engine],
                  evicted := s.evicted + Ousted(s.engines[m.target], engine),
                  activations := s.activations - {m},
                  answers := s.answers + {Trouble(m.batchId)})
    case StageFrees(stage, id) =>
      && (stage, id) in s.frees && 0 < stage < c.Stages()
      && s' == s.(engines := s.engines[stage := Freed(s.engines[stage], id)],
                  frees := s.frees - {(stage, id)})
    case _ => false
  }

  ghost predicate Shaped(c: Config, s: System) {
    && c.Valid() && |s.engines| == c.Stages()
    && forall stage | 0 <= stage < c.Stages() :: Fitted(c.ShardOf(stage), s.engines[stage])
  }

  ghost predicate Next(c: Config, s: System, a: Action, s': System) {
    && Shaped(c, s)
    && (ClientStep(c, s, a, s') || HeadStep(c, s, a, s') || StageStep(c, s, a, s'))
  }

  /** The stage has a place for everybody named in the message. */
  ghost predicate RoomFor(c: Config, s: System, m: Activations)
    requires Shaped(c, s)
  {
    0 < m.target < c.Stages() && Unpacked(m.members).Ok? ==>
      HasRoom(c.ShardOf(m.target), s.engines[m.target], Ids(Unpacked(m.members).value))
  }

  /** The head has a place for everybody in the batch it is about to compute. */
  ghost predicate RoomAtHead(c: Config, s: System)
    requires Shaped(c, s)
  {
    s.phase.Computing? ==> HasRoom(c.ShardOf(0), s.engines[0], Ids(s.phase.batch))
  }

  /** The stage that computes in this step has a place for everybody: its eviction branch is not taken. */
  ghost predicate HasPlaces(c: Config, s: System, a: Action)
    requires Shaped(c, s)
  {
    match a
    case Compute(_, _) => RoomAtHead(c, s)
    case ComputeFails(_) => RoomAtHead(c, s)
    case StageComputes(m, _) => RoomFor(c, s, m)
    case StageFails(m, _) => RoomFor(c, s, m)
    case _ => true
  }

  /** `states[k + 1]` follows from `states[k]` by `actions[k]`. */
  ghost predicate Run(c: Config, states: seq<System>, actions: seq<Action>) {
    && |states| == |actions| + 1
    && Init(c, states[0])
    && forall k | 0 <= k < |actions| :: Next(c, states[k], actions[k], states[k + 1])
  }

  ghost predicate NoEviction(c: Config, states: seq<System>, actions: seq<Action>) {
    && |states| == |actions| + 1
    && forall k | 0 <= k < |actions| :: Shaped(c, states[k]) && HasPlaces(c, states[k], actions[k])
  }
}
