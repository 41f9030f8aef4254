/** The registry itself: what a node runs, which cards that takes, and how it is all given back. */
module TaskRegistryClass {
  import opened Wrappers
  import opened Devices

  /** One task's process, as far as the registry looks at it. */
  class Task {
    const taskId: TaskId
    const devices: seq<nat>
    const env: Env
    var finished: bool
    var released: bool

    constructor (taskId: TaskId, devices: seq<nat>, env: Env)
      ensures this.taskId == taskId && this.devices == devices && this.env == env && !finished && !released
    {
      this.taskId, this.devices, this.env, finished, released := taskId, devices, env, false, false;
    }
  }

  datatype Refused = NodeRefuses | NotTaken(refusal: Refusal) | DidNotStart

  /** How a submission fares once it has its name and its cards. */
  datatype Course = NoEnvironmentBuilt | FailsWith(env: Env) | StartsWith(env: Env)

  class TaskRegistry {
    var unusable: string
    var draining: string
    var totalGpus: nat
    var tasks: map<TaskId, Task>
    var held: map<TaskId, seq<nat>>
    var claimed: set<TaskId>
    var leases: map<Env, nat>

    constructor (totalGpus: int)
      ensures Valid() && View() == Registry(if totalGpus < 0 then 0 else totalGpus, {}, map[], {}, map[])
    {
      this.totalGpus := if totalGpus < 0 then 0 else totalGpus;
      unusable, draining, tasks, held, claimed, leases := "", "", map[], map[], {}, map[];
    }

    function View(): Registry
      reads this
    {
      Registry(totalGpus, tasks.Keys, held, claimed, leases)
    }

    /** Every lease that is entered is held at least once, and every task is listed under its own name. */
    ghost predicate Valid()
      reads this
    {
      && (forall env | env in leases :: leases[env] > 0)
      && (forall id | id in tasks :: tasks[id].taskId == id)
    }

    function Working(): set<TaskId>
      reads this, tasks.Values
    {
      set id | id in tasks && !tasks[id].finished
    }

    method FreeDevices() returns (free: seq<nat>)
      ensures free == Free(View())
    {
      var taken := Taken(held);
      free := [];
      for d := 0 to totalGpus
        invariant free == FreeBelow(d, taken)
      {
        if d !in taken {
          free := free + [d];
        }
      }
    }

    method TakeDevices(id: TaskId, wanted: int) returns (r: Result<seq<nat>, Refusal>)
      modifies this`held
      ensures r == Cards(old(View()), wanted)
      ensures View() == if r.Ok? && r.value != [] then old(View()).(held := old(held)[id := r.value]) else old(View())
    {
      if wanted <= 0 { return Ok([]); }
      var free := FreeDevices();
      if |free| < wanted { return Err(TooFewFree(|free|, totalGpus)); }
      var devices := free[..wanted];
      held := held[id := devices];
      r := Ok(devices);
    }

    method ReleaseDevices(id: TaskId)
      modifies this`held
      ensures View() == WithoutCards(old(View()), id)
    {
      held := held - {id};
    }

    method Lease(env: Env)
      requires Valid()
      modifies this`leases
      ensures Valid() && View() == Leased(old(View()), env)
    {
      if env != NO_ENVIRONMENT {
        leases := leases[env := (if env in leases then leases[env] else 0) + 1];
      }
    }

    method ReleaseEnvironment(env: Env)
      requires Valid()
      modifies this`leases
      ensures Valid() && View() == Returned(old(View()), env)
    {
      if env == NO_ENVIRONMENT || env == "" { return; }
      var count := if env in leases then leases[env] else 0;
      if count > 1 {
        leases := leases[env := count - 1];
      } else {
        leases := leases - {env};
      }
    }

    /**
     Take a task on, or say plainly why not: then everything is as it was, unless the task did not start
     and an earlier bearer of its name still had an entry.
     */
    method Submit(id: TaskId, wanted: int, course: Course) returns (r: Result<Task, Refused>)
      requires Valid()
      requires course.FailsWith? || course.StartsWith? ==> course.env != ""
      modifies this
      ensures Valid() && unusable == old(unusable) && draining == old(draining)
      ensures r.Err? ==> tasks == old(tasks)
                         && View() == if r.error.DidNotStart? then WithoutCards(old(View()), id) else old(View())
      ensures r.Err? && id !in old(held) ==> View() == old(View())
      ensures r.Ok? <==> unusable == "" && draining == "" && Claimed(old(View()), id, wanted).Ok? && course.StartsWith?
      ensures r.Ok? ==> View() == Listed(Leased(Claimed(old(View()), id, wanted).value, course.env), id)
                        && tasks == old(tasks)[id := r.value]
                        && r.value.taskId == id && r.value.env == course.env
                        && Cards(old(View()), wanted) == Ok(r.value.devices)
    {
      hide Cards, Leased, Returned, WithoutCards, Unclaimed, Listed;
      if Claimed(View(), id, wanted).Ok? {
        UndoRestores(View(), id, wanted, if course.FailsWith? then course.env else "");
      }
      if unusable != "" || draining != "" { return Err(NodeRefuses); }
      if id in tasks || id in claimed { return Err(NotTaken(AlreadyHere)); }
      var taken := TakeDevices(id, wanted);
      if taken.Err? { return Err(NotTaken(taken.error)); }
      claimed := claimed + {id};
      var started := Provision(id, taken.value, course);
      r := if started.Some? then Ok(started.value) else Err(DidNotStart);
    }

    /** Outside the lock: build the environment and start the task, or undo the submission. */
    method Provision(id: TaskId, devices: seq<nat>, course: Course) returns (r: Option<Task>)
      requires Valid() && (course.FailsWith? || course.StartsWith? ==> course.env != "")
      modifies this`tasks, this`held, this`claimed, this`leases
      ensures Valid() && (r.Some? <==> course.StartsWith?)
      ensures r.Some? ==> View() == Listed(Leased(old(View()), course.env), id) && tasks == old(tasks)[id := r.value]
                          && r.value.taskId == id && r.value.env == course.env && r.value.devices == devices
      ensures r.None? ==> tasks == old(tasks)
      ensures course.FailsWith? ==>
                View() == Returned(Unclaimed(WithoutCards(Leased(old(View()), course.env), id), id), course.env)
      ensures course.NoEnvironmentBuilt? ==> View() == Returned(Unclaimed(WithoutCards(old(View()), id), id), "")
    {
      match course
      case NoEnvironmentBuilt =>
        Undo(id, "");
        r := None;
      case FailsWith(env) =>
        Lease(env);
        Undo(id, env);
        r := None;
      case StartsWith(env) =>
        Lease(env);
        var task := new Task(id, devices, env);
        tasks := tasks[id := task];
        claimed := claimed - {id};
        r := Some(task);
    }

    /** Give back everything a failed submission took. */
    method Undo(id: TaskId, env: Env)
      requires Valid()
      modifies this`held, this`claimed, this`leases
      ensures Valid() && View() == Returned(Unclaimed(WithoutCards(old(View()), id), id), env)
    {
      ReleaseDevices(id);
      claimed := claimed - {id};
      ReleaseEnvironment(env);
    }

    /** The task has ended: its cards and its lease come back at once. */
    method Reap(task: Task)
      requires Valid() && task.finished
      modifies this`held, this`leases
      ensures Valid() && View() == Returned(WithoutCards(old(View()), task.taskId), task.env)
    {
      ReleaseDevices(task.taskId);
      ReleaseEnvironment(task.env);
    }

    /** Forget a task, stopping it first if it is alive; `ends` says whether it did end in time. */
    method Release(id: TaskId, ends: bool)
      requires Valid()
      modifies this`tasks, this`held, if id in tasks then {tasks[id]} else {}
      ensures Valid()
      ensures View() == if id in old(tasks) then WithoutCards(Popped(old(View()), id), id) else old(View())
      ensures id in old(tasks) ==> old(tasks[id]).released
      ensures id in old(tasks) ==> old(tasks[id]).finished == (old(tasks[id].finished) || ends)
    {
      if id !in tasks { return; }
      var task := tasks[id];
      tasks := tasks - {id};
      if !task.finished {
        task.finished := ends;
      }
      ReleaseDevices(id);
      task.released := true;
    }

    /** Change the number of cards; refused while anybody is at work. */
    method RecountDevices(total: int) returns (done: bool)
      modifies this`totalGpus
      ensures var counted := Recounted(old(View()), Working(), total);
              done == counted.Some? && View() == if done then counted.value else old(View())
    {
      var unfinished := Working();
      var waiting := set id | id in claimed && id !in tasks;
      assert unfinished * tasks.Keys == unfinished && claimed - tasks.Keys == waiting;
      var busy := |unfinished| + |waiting|;
      if busy != 0 { return false; }
      totalGpus := if total < 0 then 0 else total;
      done := true;
    }
  }
}
