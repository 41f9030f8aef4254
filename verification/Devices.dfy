/** Which cards are held, which are free, and which environments are leased. */
module Devices {
  import opened Wrappers

  type TaskId = string
  type Env = string

  /** The environment of a task that asked for none: it is not leased. */
  const NO_ENVIRONMENT: Env := "none"

  /** What the registry's lock guards, and the leases of the environment cache. */
  datatype Registry = Registry(
    total: nat,
    tasks: set<TaskId>,
    held: map<TaskId, seq<nat>>,
    claimed: set<TaskId>,
    leases: map<Env, nat>)

  datatype Refusal = AlreadyHere | TooFewFree(free: nat, total: nat)

  function Taken(held: map<TaskId, seq<nat>>): (cards: set<nat>) {
    set id, d | id in held && d in held[id] :: d
  }

  /** The free cards below `total`, in ascending order. */
  function FreeBelow(total: nat, taken: set<nat>): (free: seq<nat>) {
    if total == 0 then []
    else FreeBelow(total - 1, taken) + if total - 1 in taken then [] else [total - 1]
  }

  function Free(r: Registry): seq<nat> {
    FreeBelow(r.total, Taken(r.held))
  }

  /** The cards a task asking for `wanted` is given: the first free ones. */
  function Cards(r: Registry, wanted: int): Result<seq<nat>, Refusal> {
    if wanted <= 0 then Ok([])
    else if |Free(r)| < wanted then Err(TooFewFree(|Free(r)|, r.total))
    else Ok(Free(r)[..wanted])
  }

  /** Take the name and the cards, both or neither. */
  function Claimed(r: Registry, id: TaskId, wanted: int): Result<Registry, Refusal> {
    if id in r.tasks || id in r.claimed then Err(AlreadyHere)
    else
      var cards := Cards(r, wanted);
      if cards.Err? then Err(cards.error)
      else Ok(r.(claimed := r.claimed + {id}, held := if cards.value == [] then r.held else r.held[id := cards.value]))
  }

  function WithoutCards(r: Registry, id: TaskId): Registry {
    r.(held := r.held - {id})
  }

  function Unclaimed(r: Registry, id: TaskId): Registry {
    r.(claimed := r.claimed - {id})
  }

  function Listed(r: Registry, id: TaskId): Registry {
    r.(tasks := r.tasks + {id}, claimed := r.claimed - {id})
  }

  function Popped(r: Registry, id: TaskId): Registry {
    r.(tasks := r.tasks - {id})
  }

  function LeaseCount(r: Registry, env: Env): nat {
    if env in r.leases then r.leases[env] else 0
  }

  function Leased(r: Registry, env: Env): Registry {
    if env == NO_ENVIRONMENT then r else r.(leases := r.leases[env := LeaseCount(r, env) + 1])
  }

  function Returned(r: Registry, env: Env): Registry {
    if env == NO_ENVIRONMENT || env == "" then r
    else if LeaseCount(r, env) > 1 then r.(leases := r.leases[env := LeaseCount(r, env) - 1])
    else r.(leases := r.leases - {env})
  }

  /** Nobody unfinished is listed and nothing is claimed: then the number of cards may change. */
  function Recounted(r: Registry, unfinished: set<TaskId>, total: int): Option<Registry> {
    if unfinished * r.tasks != {} || r.claimed - r.tasks != {} then None
    else Some(r.(total := if total < 0 then 0 else total))
  }

  // ---------------------------------------------------------------- free cards

  lemma {:induction false} FreeBelowIsComplement(total: nat, taken: set<nat>)
    ensures forall d: nat :: d in FreeBelow(total, taken) <==> d < total && d !in taken
    ensures forall i, j | 0 <= i < j < |FreeBelow(total, taken)| ::
              FreeBelow(total, taken)[i] < FreeBelow(total, taken)[j]
  {
    if total > 0 {
      FreeBelowIsComplement(total - 1, taken);
      var front := FreeBelow(total - 1, taken);
      assert forall k | 0 <= k < |front| :: front[k] in front;
    }
  }

  /** The free cards are exactly those below the current total that nobody holds, each once. */
  lemma FreeIsTheComplement(r: Registry)
    ensures forall d: nat :: d in Free(r) <==> d < r.total && forall id | id in r.held :: d !in r.held[id]
    ensures forall i, j | 0 <= i < j < |Free(r)| :: Free(r)[i] < Free(r)[j]
  {
    FreeBelowIsComplement(r.total, Taken(r.held));
  }

  /** What is given out was free: below the total, held by nobody, no card twice, and the lowest there were. */
  lemma CardsWereFree(r: Registry, wanted: int)
    requires Cards(r, wanted).Ok?
    ensures var cards := Cards(r, wanted).value;
            && |cards| == (if wanted <= 0 then 0 else wanted)
            && (forall d | d in cards :: d < r.total && forall id | id in r.held :: d !in r.held[id])
            && (forall i, j | 0 <= i < j < |cards| :: cards[i] < cards[j])
            && (forall d, other | d in cards && other in Free(r) && other !in cards :: d < other)
  {
    FreeIsTheComplement(r);
    var free := Free(r);
    forall d, other | wanted > 0 && d in free[..wanted] && other in free && other !in free[..wanted] ensures d < other {
      assert forall k | 0 <= k < wanted :: free[k] in free[..wanted];
      var i :| 0 <= i < wanted && free[i] == d;
      var j :| 0 <= j < |free| && free[j] == other;
    }
    if wanted > 0 { assert forall d | d in free[..wanted] :: d in free; }
  }

  // ---------------------------------------------------------------- undoing

  /**
   Undoing a submission restores everything it had taken, with or without an environment, but for cards
   still entered for an earlier bearer of its name: that entry goes too.
   */
  lemma UndoRestores(r: Registry, id: TaskId, wanted: int, env: Env)
    requires Claimed(r, id, wanted).Ok?
    requires forall e | e in r.leases :: r.leases[e] > 0
    ensures var taken := Claimed(r, id, wanted).value;
            && Returned(Unclaimed(WithoutCards(taken, id), id), "") == WithoutCards(r, id)
            && (env != "" ==>
                  Returned(Unclaimed(WithoutCards(Leased(taken, env), id), id), env) == WithoutCards(r, id))
    ensures WithoutCards(r, id) == r <==> id !in r.held
  {
    var taken := Claimed(r, id, wanted).value;
    assert taken.held - {id} == r.held - {id} && taken.claimed - {id} == r.claimed;
    if id !in r.held { assert r.held - {id} == r.held; }
    if env != "" && env != NO_ENVIRONMENT {
      var leased := Leased(taken, env);
      assert (if LeaseCount(leased, env) > 1 then leased.leases[env := LeaseCount(leased, env) - 1]
              else leased.leases - {env}) == r.leases;
    }
  }
}
