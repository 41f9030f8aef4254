/**
 Submissions, undos, reapers, releases and recounts on one node, interleaved step by step: every step is
 what one thread does under the registry's lock, or between two such steps. Names are never used again.
 */
module RegistryRuns {
  import opened Devices

  /** How far a submission has come: it is provisioning, is undone step by step, or is listed and later let go. */
  datatype Phase = Provisioning | CardsUndone | NameUndone | Undone | Running | LettingGo | LetGo

  /** How far the task's own reaper has come. */
  datatype Reaper = Waiting | CardsBack | LeaseBack

  /**
   One submission and what became of it. `env` is empty until an environment is acquired; `finished` says
   the process has ended; `hasty` that a release gave up waiting for that.
   */
  datatype Job = Job(cards: seq<nat>, env: Env, phase: Phase, reaper: Reaper, finished: bool, hasty: bool)

  datatype World = World(registry: Registry, jobs: map<TaskId, Job>)

  datatype Action =
    | Claim(id: TaskId, wanted: int)
    | Acquire(id: TaskId, env: Env)
    | UndoCards(id: TaskId)
    | UndoName(id: TaskId)
    | UndoLease(id: TaskId)
    | List(id: TaskId)
    | End(id: TaskId)
    | ReapCards(id: TaskId)
    | ReapLease(id: TaskId)
    | Pop(id: TaskId)
    | ReleaseCards(id: TaskId)
    | Recount(total: int)

  ghost predicate Init(w: World) {
    && w.jobs == map[]
    && w.registry.tasks == {} && w.registry.held == map[] && w.registry.claimed == {} && w.registry.leases == map[]
  }

  function With(w: World, registry: Registry, id: TaskId, job: Job): World {
    World(registry, w.jobs[id := job])
  }

  function Unfinished(w: World): set<TaskId> {
    set id | id in w.jobs && !w.jobs[id].finished
  }

  /** One thread does one thing to a submission under the name in the action. */
  ghost predicate Does(r: Registry, job: Job, a: Action, r': Registry, job': Job) {
    match a
    case Acquire(id, env) =>
      && job.phase.Provisioning? && job.env == "" && env != ""
      && r' == Leased(r, env) && job' == job.(env := env)
    case UndoCards(id) =>
      && job.phase.Provisioning? && !job.finished
      && r' == WithoutCards(r, id) && job' == job.(phase := CardsUndone)
    case UndoName(id) =>
      job.phase.CardsUndone? && r' == Unclaimed(r, id) && job' == job.(phase := NameUndone)
    case UndoLease(id) =>
      job.phase.NameUndone? && r' == Returned(r, job.env) && job' == job.(phase := Undone)
    case List(id) =>
      && job.phase.Provisioning? && job.env != ""
      && r' == Listed(r, id) && job' == job.(phase := Running)
    case End(id) =>
      && (job.phase.Provisioning? ==> job.env != "") && !job.finished
      && (job.phase.Provisioning? || job.phase.Running? || job.phase.LettingGo? || job.phase.LetGo?)
      && r' == r && job' == job.(finished := true)
    case ReapCards(id) =>
      && (job.phase.Running? || job.phase.LettingGo? || job.phase.LetGo?) && job.reaper.Waiting? && job.finished
      && r' == WithoutCards(r, id) && job' == job.(reaper := CardsBack)
    case ReapLease(id) =>
      job.reaper.CardsBack? && r' == Returned(r, job.env) && job' == job.(reaper := LeaseBack)
    case Pop(id) =>
      job.phase.Running? && r' == Popped(r, id) && job' == job.(phase := LettingGo)
    case ReleaseCards(id) =>
      && job.phase.LettingGo?
      && r' == WithoutCards(r, id) && job' == job.(phase := LetGo, hasty := !job.finished)
    case _ => false
  }

  /** A submission that has just taken its name and its cards. */
  function NewJob(cards: seq<nat>): Job {
    Job(cards, "", Provisioning, Waiting, false, false)
  }

  ghost predicate Next(w: World, a: Action, w': World) {
    var r := w.registry;
    if a.Recount? then
      var counted := Recounted(r, Unfinished(w), a.total);
      w' == if counted.None? then w else w.(registry := counted.value)
    else if a.Claim? then
      && a.id !in w.jobs
      && var claimed := Claimed(r, a.id, a.wanted);
         w' == if claimed.Err? then w else With(w, claimed.value, a.id, NewJob(Cards(r, a.wanted).value))
    else
      && a.id in w.jobs && a.id in w'.jobs
      && Does(r, w.jobs[a.id], a, w'.registry, w'.jobs[a.id])
      && w' == With(w, w'.registry, a.id, w'.jobs[a.id])
  }

  ghost predicate Run(worlds: seq<World>, actions: seq<Action>) {
    && |worlds| == |actions| + 1
    && Init(worlds[0])
    && forall k | 0 <= k < |actions| :: Next(worlds[k], actions[k], worlds[k + 1])
  }

  // ---------------------------------------------------------------- who holds what

  /** The submission's cards have not been given back by its undo, its reaper, or a release. */
  predicate HoldsCards(job: Job) {
    && (job.phase.Provisioning? || job.phase.Running? || job.phase.LettingGo?)
    && job.reaper.Waiting?
  }

  predicate HoldsName(job: Job) {
    job.phase.Provisioning? || job.phase.CardsUndone?
  }

  predicate HoldsLease(job: Job, env: Env) {
    job.env == env && !job.phase.Undone? && !job.reaper.LeaseBack?
  }

  function Holders(jobs: map<TaskId, Job>, env: Env): set<TaskId> {
    set id | id in jobs && HoldsLease(jobs[id], env)
  }

  predicate Increasing(cards: seq<nat>) {
    forall i, j | 0 <= i < j < |cards| :: cards[i] < cards[j]
  }

  /** The books agree with the jobs. */
  ghost predicate Books(w: World) {
    && (forall id :: id in w.registry.tasks <==> id in w.jobs && w.jobs[id].phase.Running?)
    && (forall id :: id in w.registry.claimed <==> id in w.jobs && HoldsName(w.jobs[id]))
    && (forall id :: id in w.registry.held <==> id in w.jobs && HoldsCards(w.jobs[id]) && w.jobs[id].cards != [])
    && (forall id | id in w.registry.held :: w.registry.held[id] == w.jobs[id].cards)
  }

  ghost predicate Shapes(w: World) {
    forall id | id in w.jobs :: JobShape(w.jobs[id])
  }

  predicate JobShape(job: Job) {
    && Increasing(job.cards)
    && (!job.reaper.Waiting? ==> job.finished && (job.phase.Running? || job.phase.LettingGo? || job.phase.LetGo?))
    && (job.phase.Running? || job.phase.LettingGo? || job.phase.LetGo? ==> job.env != "")
    && (job.phase.LetGo? ==> job.finished || job.hasty)
  }

  /** No card is in two entries. */
  ghost predicate Apart(held: map<TaskId, seq<nat>>) {
    forall a, b | a in held && b in held && a != b :: forall d | d in held[a] :: d !in held[b]
  }

  /** Every lease is counted as often as it is held. */
  ghost predicate Leases(w: World) {
    forall env | env != NO_ENVIRONMENT && env != "" :: LeaseCount(w.registry, env) == |Holders(w.jobs, env)|
  }

  ghost predicate Inv(w: World) {
    Books(w) && Shapes(w) && Apart(w.registry.held) && Leases(w)
  }

  // ---------------------------------------------------------------- leases are counted

  lemma HoldersChange(jobs: map<TaskId, Job>, id: TaskId, job: Job, env: Env)
    ensures var before, after := Holders(jobs, env), Holders(jobs[id := job], env);
            && after == (if HoldsLease(job, env) then before + {id} else before - {id})
            && |after| == |before| + (if HoldsLease(job, env) && id !in before then 1 else 0)
                                   - (if !HoldsLease(job, env) && id in before then 1 else 0)
  {
    var before, after := Holders(jobs, env), Holders(jobs[id := job], env);
    assert after == if HoldsLease(job, env) then before + {id} else before - {id};
    if !HoldsLease(job, env) && id in before {
      assert before == after + {id};
    }
  }

  /** A step that leaves the leases alone, and this job's claim to one. */
  lemma LeasesKept(w: World, registry: Registry, id: TaskId, job: Job)
    requires Leases(w) && registry.leases == w.registry.leases
    requires forall env :: env != "" ==> (HoldsLease(job, env) <==> id in w.jobs && HoldsLease(w.jobs[id], env))
    ensures Leases(With(w, registry, id, job))
  {
    forall env | env != NO_ENVIRONMENT && env != ""
      ensures LeaseCount(registry, env) == |Holders(w.jobs[id := job], env)|
    {
      HoldersChange(w.jobs, id, job, env);
      assert LeaseCount(w.registry, env) == |Holders(w.jobs, env)|;
    }
  }

  lemma LeaseTaken(w: World, id: TaskId, env: Env)
    requires Leases(w) && id in w.jobs && w.jobs[id].env == "" && env != ""
    requires w.jobs[id].phase.Provisioning? && w.jobs[id].reaper.Waiting?
    ensures Leases(With(w, Leased(w.registry, env), id, w.jobs[id].(env := env)))
  {
    var registry := Leased(w.registry, env);
    forall other | other != NO_ENVIRONMENT && other != ""
      ensures LeaseCount(registry, other) == |Holders(w.jobs[id := w.jobs[id].(env := env)], other)|
    {
      HoldersChange(w.jobs, id, w.jobs[id].(env := env), other);
      assert LeaseCount(w.registry, other) == |Holders(w.jobs, other)|;
    }
  }

  /** A lease given back was held: the count never goes below the holders that are left. */
  lemma LeaseGivenBack(w: World, id: TaskId, job: Job)
    requires Leases(w) && id in w.jobs && HoldsLease(w.jobs[id], w.jobs[id].env)
    requires job.env == w.jobs[id].env && !HoldsLease(job, job.env)
    ensures Leases(With(w, Returned(w.registry, job.env), id, job))
    ensures job.env != NO_ENVIRONMENT && job.env != "" ==> LeaseCount(w.registry, job.env) >= 1
  {
    var registry := Returned(w.registry, job.env);
    forall other | other != NO_ENVIRONMENT && other != ""
      ensures LeaseCount(registry, other) == |Holders(w.jobs[id := job], other)|
      ensures other == job.env ==> LeaseCount(w.registry, other) >= 1
    {
      HoldersChange(w.jobs, id, job, other);
      assert LeaseCount(w.registry, other) == |Holders(w.jobs, other)|;
      if other == job.env { assert id in Holders(w.jobs, other); }
    }
  }

  // ---------------------------------------------------------------- cards are apart

  lemma ClaimKeeps(w: World, id: TaskId, wanted: int, w': World)
    requires Inv(w) && Next(w, Claim(id, wanted), w')
    ensures Inv(w')
  {
    var claimed := Claimed(w.registry, id, wanted);
    if claimed.Ok? {
      CardsWereFree(w.registry, wanted);
      var job := NewJob(Cards(w.registry, wanted).value);
      LeasesKept(w, claimed.value, id, job);
      ApartWith(w.registry.held, id, job.cards);
    }
  }

  lemma ApartWith(held: map<TaskId, seq<nat>>, id: TaskId, cards: seq<nat>)
    requires Apart(held) && id !in held
    requires forall d | d in cards :: forall other | other in held :: d !in held[other]
    ensures Apart(held[id := cards])
  {
    var after := held[id := cards];
    forall a, b | a in after && b in after && a != b ensures forall d | d in after[a] :: d !in after[b] {
      if b == id {
        assert forall d | d in cards :: d !in held[a];
      }
    }
  }

  lemma ApartWithout(held: map<TaskId, seq<nat>>, id: TaskId)
    requires Apart(held)
    ensures Apart(held - {id})
  {
  }

  // ---------------------------------------------------------------- every step keeps it

  /** One job and its entries change together. */
  lemma BooksWith(w: World, r: Registry, id: TaskId, job: Job)
    requires Books(w) && Shapes(w) && JobShape(job)
    requires r.tasks == if job.phase.Running? then w.registry.tasks + {id} else w.registry.tasks - {id}
    requires r.claimed == if HoldsName(job) then w.registry.claimed + {id} else w.registry.claimed - {id}
    requires r.held == if HoldsCards(job) && job.cards != [] then w.registry.held[id := job.cards]
                       else w.registry.held - {id}
    ensures Books(With(w, r, id, job)) && Shapes(With(w, r, id, job))
  {
  }

  lemma GivingBackKeeps(w: World, a: Action, w': World)
    requires Inv(w) && Next(w, a, w') && (a.UndoCards? || a.ReapCards? || a.ReleaseCards?)
    ensures Inv(w')
  {
    hide Leases, Apart;
    assert JobShape(w.jobs[a.id]);
    ApartWithout(w.registry.held, a.id);
    BooksWith(w, w'.registry, a.id, w'.jobs[a.id]);
    LeasesKept(w, w'.registry, a.id, w'.jobs[a.id]);
  }

  lemma NamesKeep(w: World, a: Action, w': World)
    requires Inv(w) && Next(w, a, w') && (a.UndoName? || a.List? || a.End? || a.Pop?)
    ensures Inv(w')
  {
    hide Leases, Apart;
    assert JobShape(w.jobs[a.id]);
    BooksWith(w, w'.registry, a.id, w'.jobs[a.id]);
    hide Shapes;
    LeasesKept(w, w'.registry, a.id, w'.jobs[a.id]);
  }

  lemma AcquiringKeeps(w: World, id: TaskId, env: Env, w': World)
    requires Inv(w) && Next(w, Acquire(id, env), w')
    ensures Inv(w')
  {
    hide Leases, Apart;
    assert JobShape(w.jobs[id]);
    BooksWith(w, w'.registry, id, w'.jobs[id]);
    hide Shapes, Books;
    LeaseTaken(w, id, env);
  }

  lemma ReturningKeeps(w: World, a: Action, w': World)
    requires Inv(w) && Next(w, a, w') && (a.UndoLease? || a.ReapLease?)
    ensures Inv(w')
  {
    hide Leases, Apart;
    assert JobShape(w.jobs[a.id]);
    BooksWith(w, w'.registry, a.id, w'.jobs[a.id]);
    hide Shapes, Books;
    LeaseGivenBack(w, a.id, w'.jobs[a.id]);
  }

  lemma StepKeeps(w: World, a: Action, w': World)
    requires Inv(w) && Next(w, a, w')
    ensures Inv(w')
  {
    match a
    case Claim(id, wanted) => ClaimKeeps(w, id, wanted, w');
    case Acquire(id, env) => AcquiringKeeps(w, id, env, w');
    case UndoLease(_) => ReturningKeeps(w, a, w');
    case ReapLease(_) => ReturningKeeps(w, a, w');
    case UndoCards(_) => GivingBackKeeps(w, a, w');
    case ReapCards(_) => GivingBackKeeps(w, a, w');
    case ReleaseCards(_) => GivingBackKeeps(w, a, w');
    case Recount(_) =>
    case _ => NamesKeep(w, a, w');
  }

  lemma {:induction false} InvariantHolds(worlds: seq<World>, actions: seq<Action>, k: nat)
    requires Run(worlds, actions) && k < |worlds|
    ensures Inv(worlds[k])
  {
    if k > 0 {
      InvariantHolds(worlds, actions, k - 1);
      assert Next(worlds[k - 1], actions[k - 1], worlds[k - 1 + 1]);
      StepKeeps(worlds[k - 1], actions[k - 1], worlds[k]);
    } else {
      assert forall env :: Holders(map[], env) == {};
    }
  }

  // ---------------------------------------------------------------- cards

  /** No card is in two entries, and the free cards are exactly those below the total in none. */
  lemma CardsAreHeldOnce(worlds: seq<World>, actions: seq<Action>, k: nat, d: nat)
    requires Run(worlds, actions) && k < |worlds|
    ensures var held := worlds[k].registry.held;
            && (forall a, b | a in held && b in held && d in held[a] && d in held[b] :: a == b)
            && (d in Free(worlds[k].registry) <==>
                  d < worlds[k].registry.total && forall id | id in held :: d !in held[id])
  {
    InvariantHolds(worlds, actions, k);
    FreeIsTheComplement(worlds[k].registry);
  }

  /** Taken on and neither ended nor given up: its process may be using its cards. */
  predicate AtWork(job: Job) {
    !job.finished && (job.phase.Provisioning? || job.phase.Running? || job.phase.LettingGo? || job.phase.LetGo?)
  }

  /**
   Whoever is at work is entered with exactly its cards, if and only if no release gave up waiting for it:
   then no two tasks at work share a card.
   */
  lemma WorkersHoldTheirCards(worlds: seq<World>, actions: seq<Action>, k: nat, id: TaskId)
    requires Run(worlds, actions) && k < |worlds| && id in worlds[k].jobs
    requires AtWork(worlds[k].jobs[id]) && worlds[k].jobs[id].cards != []
    ensures id in worlds[k].registry.held <==> !worlds[k].jobs[id].hasty
    ensures id in worlds[k].registry.held ==> worlds[k].registry.held[id] == worlds[k].jobs[id].cards
  {
    InvariantHolds(worlds, actions, k);
    HastyIsLetGo(worlds, actions, k, id);
    assert JobShape(worlds[k].jobs[id]);
  }

  lemma {:induction false} HastyIsLetGo(worlds: seq<World>, actions: seq<Action>, k: nat, id: TaskId)
    requires Run(worlds, actions) && k < |worlds| && id in worlds[k].jobs
    ensures worlds[k].jobs[id].hasty ==> worlds[k].jobs[id].phase.LetGo?
  {
    if k > 0 {
      assert Next(worlds[k - 1], actions[k - 1], worlds[k - 1 + 1]);
      if id in worlds[k - 1].jobs { HastyIsLetGo(worlds, actions, k - 1, id); }
    }
  }

  lemma WorkersShareNothing(worlds: seq<World>, actions: seq<Action>, k: nat, a: TaskId, b: TaskId, d: nat)
    requires Run(worlds, actions) && k < |worlds| && a in worlds[k].jobs && b in worlds[k].jobs && a != b
    requires AtWork(worlds[k].jobs[a]) && !worlds[k].jobs[a].hasty && d in worlds[k].jobs[a].cards
    requires AtWork(worlds[k].jobs[b]) && !worlds[k].jobs[b].hasty
    ensures d !in worlds[k].jobs[b].cards
  {
    WorkersHoldTheirCards(worlds, actions, k, a);
    if worlds[k].jobs[b].cards != [] { WorkersHoldTheirCards(worlds, actions, k, b); }
    CardsAreHeldOnce(worlds, actions, k, d);
  }

  /**
   A release that gives up waiting leaves two tasks at work on one card: whoever is running and stays so,
   its release can go through, and then somebody who asks for enough is given its cards.
   */
  lemma HastyReleaseSharesCards(worlds: seq<World>, actions: seq<Action>, a: TaskId, b: TaskId, d: nat)
    returns (more: seq<World>, also: seq<Action>)
    requires Run(worlds, actions)
    requires var w := worlds[|actions|];
             && a in w.jobs && w.jobs[a].phase.Running? && !w.jobs[a].finished && d in w.jobs[a].cards
             && d < w.registry.total && b !in w.jobs
    ensures Run(more, also) && actions < also
    ensures var w := more[|also|];
            && a in w.jobs && b in w.jobs && AtWork(w.jobs[a]) && AtWork(w.jobs[b])
            && d in w.jobs[a].cards && d in w.jobs[b].cards
  {
    InvariantHolds(worlds, actions, |actions|);
    var w1, w2, w3, wanted := HastySteps(worlds[|actions|], a, b, d);
    hide Run, Next, AtWork;
    RunGoesOn(worlds, actions, Pop(a), w1);
    RunGoesOn(worlds + [w1], actions + [Pop(a)], ReleaseCards(a), w2);
    RunGoesOn(worlds + [w1] + [w2], actions + [Pop(a)] + [ReleaseCards(a)], Claim(b, wanted), w3);
    more, also := worlds + [w1] + [w2] + [w3], actions + [Pop(a)] + [ReleaseCards(a)] + [Claim(b, wanted)];
  }

  lemma HastySteps(w: World, a: TaskId, b: TaskId, d: nat) returns (w1: World, w2: World, w3: World, wanted: nat)
    requires Inv(w) && a in w.jobs && w.jobs[a].phase.Running? && !w.jobs[a].finished && d in w.jobs[a].cards
    requires d < w.registry.total && b !in w.jobs
    ensures Next(w, Pop(a), w1) && Next(w1, ReleaseCards(a), w2) && Next(w2, Claim(b, wanted), w3)
    ensures a in w3.jobs && b in w3.jobs && AtWork(w3.jobs[a]) && AtWork(w3.jobs[b])
    ensures d in w3.jobs[a].cards && d in w3.jobs[b].cards
  {
    var job := w.jobs[a];
    assert JobShape(job);
    LostCardsAreFree(w, a, d);
    assert b !in w.registry.tasks && b !in w.registry.claimed;
    hide Inv, Free;
    w1 := With(w, Popped(w.registry, a), a, job.(phase := LettingGo));
    w2 := With(w1, WithoutCards(w1.registry, a), a, job.(phase := LetGo, hasty := true));
    wanted := |Free(w2.registry)|;
    assert Free(w2.registry)[..wanted] == Free(w2.registry);
    w3 := With(w2, Claimed(w2.registry, b, wanted).value, b, NewJob(Free(w2.registry)));
  }

  /** Cards that are given back are free, for they were in no other entry. */
  lemma LostCardsAreFree(w: World, a: TaskId, d: nat)
    requires Inv(w) && a in w.jobs && HoldsCards(w.jobs[a]) && d in w.jobs[a].cards && d < w.registry.total
    ensures d in Free(WithoutCards(w.registry, a)) && d in Free(WithoutCards(Popped(w.registry, a), a))
  {
    hide Leases, Shapes;
    assert w.registry.held[a] == w.jobs[a].cards;
    var r, popped := WithoutCards(w.registry, a), WithoutCards(Popped(w.registry, a), a);
    FreeIsTheComplement(r);
    FreeIsTheComplement(popped);
    forall id | id in r.held ensures d !in r.held[id] { assert id in w.registry.held; }
  }

  lemma RunGoesOn(worlds: seq<World>, actions: seq<Action>, a: Action, w': World)
    requires Run(worlds, actions) && Next(worlds[|actions|], a, w')
    ensures Run(worlds + [w'], actions + [a])
  {
    hide Next, Init;
    var more, also := worlds + [w'], actions + [a];
    assert more[0] == worlds[0];
    forall k | 0 <= k < |also| ensures Next(more[k], also[k], more[k + 1]) {
      if k < |actions| {
        assert Next(worlds[k], actions[k], worlds[k + 1]);
        assert more[k] == worlds[k] && also[k] == actions[k] && more[k + 1] == worlds[k + 1];
      }
    }
  }

  // ---------------------------------------------------------------- giving back

  /** A submission that was undone left nothing behind: no cards, no name, no lease. */
  lemma NothingIsLeftOfTheUndone(worlds: seq<World>, actions: seq<Action>, k: nat, id: TaskId)
    requires Run(worlds, actions) && k < |worlds| && id in worlds[k].jobs && worlds[k].jobs[id].phase.Undone?
    ensures var r := worlds[k].registry;
            id !in r.held && id !in r.claimed && id !in r.tasks && forall env :: id !in Holders(worlds[k].jobs, env)
  {
    InvariantHolds(worlds, actions, k);
  }

  /** This step gives back this submission's lease. */
  predicate ReturnsLease(a: Action, id: TaskId) {
    a == UndoLease(id) || a == ReapLease(id)
  }

  lemma {:induction false} LeaseStaysBack(worlds: seq<World>, actions: seq<Action>, j: nat, k: nat, id: TaskId)
    requires Run(worlds, actions) && j < k < |worlds| && ReturnsLease(actions[j], id)
    ensures id in worlds[k].jobs && (worlds[k].jobs[id].phase.Undone? || worlds[k].jobs[id].reaper.LeaseBack?)
  {
    assert Next(worlds[k - 1], actions[k - 1], worlds[k - 1 + 1]);
    if j < k - 1 { LeaseStaysBack(worlds, actions, j, k - 1, id); }
  }

  /** No submission gives its lease back twice, whichever way it ends. */
  lemma LeasesComeBackOnce(worlds: seq<World>, actions: seq<Action>, j: nat, k: nat, id: TaskId)
    requires Run(worlds, actions) && j < k < |actions| && ReturnsLease(actions[j], id)
    ensures !ReturnsLease(actions[k], id)
  {
    LeaseStaysBack(worlds, actions, j, k, id);
    InvariantHolds(worlds, actions, k);
    assert JobShape(worlds[k].jobs[id]);
    assert Next(worlds[k], actions[k], worlds[k + 1]);
  }

  /** A lease count is the number of submissions that hold the environment, and giving one back never finds zero. */
  lemma LeasesAreCounted(worlds: seq<World>, actions: seq<Action>, k: nat, env: Env)
    requires Run(worlds, actions) && k < |worlds| && env != NO_ENVIRONMENT && env != ""
    ensures LeaseCount(worlds[k].registry, env) == |Holders(worlds[k].jobs, env)|
    ensures (k < |actions| && !actions[k].Recount? && ReturnsLease(actions[k], actions[k].id)
             && actions[k].id in worlds[k].jobs && worlds[k].jobs[actions[k].id].env == env) ==>
              LeaseCount(worlds[k].registry, env) >= 1
  {
    InvariantHolds(worlds, actions, k);
    if k < |actions| && !actions[k].Recount? && ReturnsLease(actions[k], actions[k].id) {
      assert Next(worlds[k], actions[k], worlds[k + 1]);
      var job := worlds[k].jobs[actions[k].id];
      assert JobShape(job);
      if job.env == env { assert actions[k].id in Holders(worlds[k].jobs, env); }
    }
  }

  /** Settled: undone, or reaped to the end. */
  predicate Settled(job: Job) {
    job.phase.Undone? || job.reaper.LeaseBack?
  }

  /** When everybody is settled, every card below the total is free, no name is claimed and nothing is leased. */
  lemma EverythingComesBack(worlds: seq<World>, actions: seq<Action>, k: nat, d: nat, env: Env)
    requires Run(worlds, actions) && k < |worlds| && env != NO_ENVIRONMENT && env != ""
    requires forall id | id in worlds[k].jobs :: Settled(worlds[k].jobs[id])
    ensures worlds[k].registry.held == map[] && worlds[k].registry.claimed == {}
    ensures d < worlds[k].registry.total <==> d in Free(worlds[k].registry)
    ensures LeaseCount(worlds[k].registry, env) == 0
  {
    InvariantHolds(worlds, actions, k);
    var w := worlds[k];
    forall id ensures id !in w.registry.held && id !in w.registry.claimed {
      if id in w.jobs { assert JobShape(w.jobs[id]) && Settled(w.jobs[id]); }
    }
    assert w.registry.held.Keys == {};
    FreeIsTheComplement(w.registry);
    assert Holders(w.jobs, env) == {};
  }

  /** A recount that succeeds finds nobody provisioning and nobody listed at work. */
  lemma RecountFindsNobody(worlds: seq<World>, actions: seq<Action>, k: nat, total: int)
    requires Run(worlds, actions) && k < |worlds|
    ensures var w := worlds[k];
            Recounted(w.registry, Unfinished(w), total).Some? <==>
              forall id | id in w.jobs :: !HoldsName(w.jobs[id]) && (w.jobs[id].phase.Running? ==> w.jobs[id].finished)
    ensures var w := worlds[k];
            var counted := Recounted(w.registry, Unfinished(w), total);
            counted.Some? ==> counted.value == w.registry.(total := counted.value.total) && counted.value.total >= total
                              && (total >= 0 ==> counted.value.total == total)
  {
    InvariantHolds(worlds, actions, k);
    var w := worlds[k];
    var listed, named := Unfinished(w) * w.registry.tasks, w.registry.claimed - w.registry.tasks;
    forall id | id in w.jobs
      ensures id in listed <==> w.jobs[id].phase.Running? && !w.jobs[id].finished
      ensures id in named <==> HoldsName(w.jobs[id])
    {
    }
    assert listed != {} ==> exists id :: id in listed;
    assert named != {} ==> exists id :: id in named;
  }
}
