/**
 The agent that fetches its successor and the launcher that installs it, as a state machine over whole
 runs: exits of any kind, refusals, rollbacks, and restarts of the launcher at any moment.
 */
module SelfUpdate {
  import opened Wrappers
  import opened Versions
  import opened Payloads

  const TOO_SOON_S: real := 30.0
  const FAILURES_BEFORE_ROLLBACK := 3
  const UPDATE_EXIT_CODE := 70

  // ---------------------------------------------------------------- the agent

  datatype Offer = Offer(version: Version, url: string, sha256: string, signature: string)

  datatype Stage = Idle | Fetching | Downloaded | Declined

  /** One agent process; `fetching` is the release its single download thread is busy with. */
  datatype Agent = Agent(
    version: Version,
    registered: bool,
    fetching: Option<Offer>,
    state: Stage,
    offered: Version,
    exitCode: int)

  function Started(version: Version): Agent {
    Agent(version, false, None, Idle, "", 0)
  }

  /** What the orchestrator says this node should run. */
  function Offered(a: Agent, refused: set<Version>, o: Offer): Agent {
    if o.version == "" || o.version == a.version then a
    else if o.url == "" then a.(state := Declined)
    else if o.version in refused then a.(state := Declined, offered := o.version)
    else if a.fetching.Some? then a.(offered := o.version)
    else a.(offered := o.version, fetching := Some(o))
  }

  function ManifestOf(o: Offer): Manifest {
    Manifest(o.version, o.sha256, o.signature)
  }

  function SteppedAside(a: Agent): Agent {
    a.(exitCode := UPDATE_EXIT_CODE)
  }

  // ---------------------------------------------------------------- the launcher

  /** What happened, in order: the record the properties below speak of. */
  datatype Event =
    | Exited(payload: Payload, code: int, lived: real)
    | Upgraded(source: Version, target: Version)
    | RolledBack(failed: Version, restored: Payload)
    | Relaunched

  datatype World = World(
    image: Version,
    disk: Disk,
    payload: Payload,
    failures: nat,
    agent: Option<Agent>,
    history: seq<Event>)

  /** The launcher deals with the oldest pending file. */
  function AppliedOne(t: Trust, w: World): World
    requires w.disk.incoming != []
  {
    var outcome := InstallOutcome(t, w.disk.incoming[0], w.payload.version);
    var disk := AfterInstall(w.disk, outcome);
    if outcome.Installed? then
      w.(disk := SwitchedTo(disk, outcome.version), payload := Payload(outcome.version, false), failures := 0,
         history := w.history + [Upgraded(w.payload.version, outcome.version)])
    else w.(disk := disk)
  }

  function Applied(t: Trust, w: World): World
    decreases |w.disk.incoming|
  {
    if w.disk.incoming == [] then w
    else
      assert AppliedOne(t, w).disk.incoming == w.disk.incoming[1..];
      Applied(t, AppliedOne(t, w))
  }

  predicate MustRollBack(w: World) {
    && w.failures >= FAILURES_BEFORE_ROLLBACK
    && !w.payload.bundled && w.payload.version !in w.disk.healthy
  }

  function RolledBackIf(w: World): World {
    if !MustRollBack(w) then w
    else
      var disk := RolledBackDisk(RefusedAs(w.disk, w.payload.version));
      var restored := Resolved(disk, w.image);
      w.(disk := disk, payload := restored, failures := 0,
         history := w.history + [RolledBack(w.payload.version, restored)])
  }

  /** A planned exit is no failure; a quick one counts, and the third may be one too many. */
  function AfterExit(w: World, code: int, lived: real): World {
    var seen := w.(agent := None, history := w.history + [Exited(w.payload, code, lived)]);
    if code == UPDATE_EXIT_CODE then seen.(failures := 0)
    else if lived < TOO_SOON_S then RolledBackIf(seen.(failures := w.failures + 1))
    else seen.(failures := 0)
  }

  // ---------------------------------------------------------------- the steps

  datatype Action =
    | Apply
    | Launch
    | Register
    | Receive(offer: Offer)
    | Decline
    | Fetch
    | StepAside
    | Exit(code: int, lived: real)
    | Relaunch

  ghost predicate Init(w: World) {
    && w.image != ""
    && w.disk == Disk({}, {}, {}, None, None, [])
    && w.payload == Payload(w.image, true) && w.failures == 0 && w.agent == None && w.history == []
  }

  /** An agent is told of releases once it is registered, and leaves one manifest at most per launch. */
  ghost predicate Next(t: Trust, w: World, a: Action, w': World) {
    match a
    case Apply => w.agent.None? && w' == Applied(t, w)
    case Launch =>
      w.agent.None? && w.disk.incoming == [] && w' == w.(agent := Some(Started(w.payload.version)))
    case Register =>
      && w.agent.Some?
      && w' == w.(agent := Some(w.agent.value.(registered := true)),
                  disk := w.disk.(healthy := w.disk.healthy + {w.payload.version}))
    case Receive(offer) =>
      && w.agent.Some? && w.agent.value.registered
      && w' == w.(agent := Some(Offered(w.agent.value, w.disk.refused, offer)))
    case Decline =>
      && w.agent.Some? && w.agent.value.fetching.Some?
      && w' == w.(agent := Some(w.agent.value.(fetching := None, state := Declined)))
    case Fetch =>
      && w.agent.Some? && w.agent.value.fetching.Some? && w.disk.incoming == []
      && var agent := w.agent.value;
         w' == w.(agent := Some(SteppedAside(agent.(fetching := None, state := Downloaded))),
                  disk := w.disk.(incoming := [Release(ManifestOf(agent.fetching.value))]))
    case StepAside => w.agent.Some? && w' == w.(agent := Some(SteppedAside(w.agent.value)))
    case Exit(code, lived) => w.agent.Some? && w' == AfterExit(w, code, lived)
    case Relaunch =>
      w' == w.(payload := Resolved(w.disk, w.image), failures := 0, agent := None,
               history := w.history + [Relaunched])
  }

  ghost predicate Run(t: Trust, worlds: seq<World>, actions: seq<Action>) {
    && |worlds| == |actions| + 1
    && Init(worlds[0])
    && forall k | 0 <= k < |actions| :: Next(t, worlds[k], actions[k], worlds[k + 1])
  }

  // ---------------------------------------------------------------- the record

  /** A quick exit that was not planned. */
  predicate Failure(e: Event) {
    e.Exited? && e.code != UPDATE_EXIT_CODE && e.lived < TOO_SOON_S
  }

  /** How many failures the record ends with, nothing else in between. */
  function Streak(history: seq<Event>): (count: nat)
    ensures count <= |history|
  {
    if history == [] || !Failure(history[|history| - 1]) then 0 else 1 + Streak(history[..|history| - 1])
  }

  function Upgrades(history: seq<Event>): nat {
    if history == [] then 0
    else Upgrades(history[..|history| - 1]) + if history[|history| - 1].Upgraded? then 1 else 0
  }

  function Rollbacks(history: seq<Event>): nat {
    if history == [] then 0
    else Rollbacks(history[..|history| - 1]) + if history[|history| - 1].RolledBack? then 1 else 0
  }

  /** The versions that were rolled back so far. */
  function Abandoned(history: seq<Event>): set<Version> {
    set e | e in history && e.RolledBack? :: e.failed
  }
}
