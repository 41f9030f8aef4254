/** What holds of every run: where a rollback lands, when it happens, and that it cannot go on forever. */
module SelfUpdateTheorems {
  import opened Wrappers
  import opened Versions
  import opened Payloads
  import opened SelfUpdate

  // ---------------------------------------------------------------- the invariant, part by part

  /** The links lead to unpacked agents; the one to fall back to has registered once. */
  ghost predicate Floor(d: Disk) {
    && (d.current.Some? ==> d.current.value in d.unpacked && d.current.value != "")
    && (d.previous.Some? ==> d.previous.value in d.unpacked && d.previous.value in d.healthy && d.previous.value != "")
  }

  /** At most one release is pending; it was not refused, and whoever fetched it had registered. */
  ghost predicate Mailbox(w: World) {
    && |w.disk.incoming| <= 1
    && (w.disk.incoming != [] ==>
          && w.disk.incoming[0].Release? && w.disk.incoming[0].manifest.version !in w.disk.refused
          && w.payload.version in w.disk.healthy)
  }

  ghost predicate Process(w: World) {
    w.agent.Some? ==>
      && w.agent.value.version == w.payload.version
      && (w.agent.value.registered ==> w.payload.version in w.disk.healthy)
      && (w.agent.value.fetching.Some? ==>
            w.agent.value.registered && w.agent.value.fetching.value.version !in w.disk.refused)
  }

  /** Who was rolled back is refused, and no link leads to it any more. */
  ghost predicate Outcast(w: World) {
    forall v | v in Abandoned(w.history) ::
      v in w.disk.refused && w.disk.current != Some(v) && w.disk.previous != Some(v)
  }

  /** The counter is the record's last failures, all of the payload that runs; the third does not pass unnoticed. */
  ghost predicate Counted(w: World) {
    && w.failures == Streak(w.history)
    && (forall k | |w.history| - w.failures <= k < |w.history| ::
          w.history[k].Exited? && w.history[k].payload == w.payload)
    && (w.failures >= FAILURES_BEFORE_ROLLBACK ==> w.payload.bundled || w.payload.version in w.disk.healthy)
  }

  ghost predicate Raising(history: seq<Event>) {
    forall e | e in history && e.Upgraded? :: IsNewer(e.target, e.source)
  }

  /** No more rollbacks than upgrades, and as many only while what runs needs none. */
  ghost predicate Balanced(w: World) {
    && Rollbacks(w.history) <= Upgrades(w.history)
    && (Rollbacks(w.history) == Upgrades(w.history) ==> w.payload.bundled || w.payload.version in w.disk.healthy)
  }

  ghost predicate Inv(w: World) {
    && w.image != "" && w.payload.version != ""
    && w.payload == Resolved(w.disk, w.image)
    && Floor(w.disk) && Mailbox(w) && Process(w) && Outcast(w)
    && Counted(w) && Raising(w.history) && Balanced(w)
  }

  // ---------------------------------------------------------------- the record grows

  lemma RecordGrows(history: seq<Event>, e: Event)
    ensures Streak(history + [e]) == if Failure(e) then 1 + Streak(history) else 0
    ensures Upgrades(history + [e]) == Upgrades(history) + if e.Upgraded? then 1 else 0
    ensures Rollbacks(history + [e]) == Rollbacks(history) + if e.RolledBack? then 1 else 0
    ensures Abandoned(history + [e]) == Abandoned(history) + if e.RolledBack? then {e.failed} else {}
  {
    assert (history + [e])[..|history|] == history;
  }

  // ---------------------------------------------------------------- every step keeps it

  lemma UpgradeKeeps(t: Trust, w: World)
    requires Inv(w) && w.agent.None? && w.disk.incoming != []
    ensures Inv(AppliedOne(t, w)) && AppliedOne(t, w).disk.incoming == [] && AppliedOne(t, w).agent == None
  {
    var outcome := InstallOutcome(t, w.disk.incoming[0], w.payload.version);
    if outcome.Installed? {
      NewerIsTotal(outcome.version, w.payload.version);
      InstallKeeps(w, outcome.version);
    } else {
      hide InstallOutcome, IsNewer, Streak, Upgrades, Rollbacks, Abandoned;
    }
  }

  /** A newer release is unpacked and switched to: the record says so. */
  lemma InstallKeeps(w: World, v: Version)
    requires Inv(w) && w.agent.None? && w.disk.incoming != [] && w.disk.incoming[0].manifest.version == v
    requires IsNewer(v, w.payload.version) && v != w.payload.version && v != ""
    ensures var disk := UnpackedAs(w.disk.(incoming := w.disk.incoming[1..]), v);
            Inv(w.(disk := SwitchedTo(disk, v), payload := Payload(v, false), failures := 0,
                   history := w.history + [Upgraded(w.payload.version, v)]))
  {
    RecordGrows(w.history, Upgraded(w.payload.version, v));
    hide IsNewer, Streak, Upgrades, Rollbacks;
  }

  lemma ApplyKeeps(t: Trust, w: World)
    requires Inv(w) && w.agent.None?
    ensures Inv(Applied(t, w)) && Applied(t, w).agent == None
  {
    if w.disk.incoming != [] {
      UpgradeKeeps(t, w);
      assert Applied(t, w) == AppliedOne(t, w);
    }
  }

  /** Who must be rolled back was unpacked, never registered, and is not yet among the abandoned. */
  lemma WhoMustRollBack(w: World)
    requires w.payload == Resolved(w.disk, w.image) && Floor(w.disk) && Mailbox(w) && Outcast(w) && Balanced(w)
    requires !w.payload.bundled && w.payload.version !in w.disk.healthy
    ensures w.disk.current == Some(w.payload.version) && w.disk.incoming == []
    ensures w.payload.version !in Abandoned(w.history) && Rollbacks(w.history) < Upgrades(w.history)
    ensures w.disk.previous != Some(w.payload.version)
  {
  }

  lemma RollbackKeeps(w: World, w': World)
    requires w.image != "" && w.payload.version != "" && w.payload == Resolved(w.disk, w.image) && w.agent.None?
    requires Floor(w.disk) && Mailbox(w) && Outcast(w) && Raising(w.history) && Balanced(w)
    requires MustRollBack(w) && w' == RolledBackIf(w)
    ensures Inv(w')
  {
    WhoMustRollBack(w);
    RecordGrows(w.history, RolledBack(w.payload.version, w'.payload));
  }

  /** The exit is on record and counted, whether or not it is one too many. */
  lemma ExitIsCounted(w: World, e: Event, w': World)
    requires Counted(w) && e.Exited? && e.payload == w.payload
    requires w' == w.(agent := None, history := w.history + [e], failures := if Failure(e) then w.failures + 1 else 0)
    ensures w'.failures == Streak(w'.history)
    ensures forall k | |w'.history| - w'.failures <= k < |w'.history| ::
              w'.history[k].Exited? && w'.history[k].payload == w'.payload
  {
    RecordGrows(w.history, e);
    hide Streak, Upgrades, Rollbacks;
    forall k | |w'.history| - w'.failures <= k < |w'.history|
      ensures w'.history[k].Exited? && w'.history[k].payload == w'.payload
    {
      if k < |w.history| { assert w'.history[k] == w.history[k]; }
    }
  }

  lemma ExitKeeps(w: World, code: int, lived: real)
    requires Inv(w) && w.agent.Some?
    ensures Inv(AfterExit(w, code, lived))
  {
    var e := Exited(w.payload, code, lived);
    RecordGrows(w.history, e);
    var seen := w.(agent := None, history := w.history + [e], failures := if Failure(e) then w.failures + 1 else 0);
    ExitIsCounted(w, e, seen);
    hide Streak, Upgrades, Rollbacks, Abandoned;
    if MustRollBack(seen) {
      RollbackKeeps(seen, RolledBackIf(seen));
    }
  }

  lemma RelaunchKeeps(w: World)
    requires Inv(w)
    ensures Inv(w.(payload := Resolved(w.disk, w.image), failures := 0, agent := None,
                   history := w.history + [Relaunched]))
  {
    RecordGrows(w.history, Relaunched);
  }

  lemma StepKeeps(t: Trust, w: World, a: Action, w': World)
    requires Inv(w) && Next(t, w, a, w')
    ensures Inv(w')
  {
    match a
    case Apply => ApplyKeeps(t, w);
    case Exit(code, lived) => ExitKeeps(w, code, lived);
    case Relaunch => RelaunchKeeps(w);
    case _ =>
  }

  lemma {:induction false} InvariantHolds(t: Trust, worlds: seq<World>, actions: seq<Action>, k: nat)
    requires Run(t, worlds, actions) && k < |worlds|
    ensures Inv(worlds[k])
  {
    if k > 0 {
      InvariantHolds(t, worlds, actions, k - 1);
      assert Next(t, worlds[k - 1], actions[k - 1], worlds[k - 1 + 1]);
      StepKeeps(t, worlds[k - 1], actions[k - 1], worlds[k]);
    }
  }

  // ---------------------------------------------------------------- rollbacks

  /** A rollback happens in this step. */
  predicate RollsBack(w: World, w': World) {
    Rollbacks(w'.history) > Rollbacks(w.history)
  }

  /** The last three events are failures of this payload. */
  predicate ThreeInARow(history: seq<Event>, payload: Payload) {
    |history| >= 3 && forall k | |history| - 3 <= k < |history| ::
      Failure(history[k]) && history[k].payload == payload
  }

  lemma {:induction false} StreakIsFailures(history: seq<Event>, k: nat)
    requires |history| - Streak(history) <= k < |history|
    ensures Failure(history[k])
  {
    if k < |history| - 1 { StreakIsFailures(history[..|history| - 1], k); }
  }

  lemma {:induction false} FailuresAreStreak(history: seq<Event>, count: nat)
    requires count <= |history| && forall k | |history| - count <= k < |history| :: Failure(history[k])
    ensures Streak(history) >= count
  {
    if count > 0 { FailuresAreStreak(history[..|history| - 1], count - 1); }
  }

  /**
   A step rolls back exactly when it is the third failure in a row of one unpacked payload that never
   registered, with nothing else in between.
   */
  lemma RollbackIsTheThirdFailure(t: Trust, worlds: seq<World>, actions: seq<Action>, k: nat)
    requires Run(t, worlds, actions) && k < |actions|
    ensures var w, a := worlds[k], actions[k];
            RollsBack(w, worlds[k + 1]) <==>
              && a.Exit?
              && ThreeInARow(w.history + [Exited(w.payload, a.code, a.lived)], w.payload)
              && !w.payload.bundled && w.payload.version !in w.disk.healthy
  {
    InvariantHolds(t, worlds, actions, k);
    var w, a, w' := worlds[k], actions[k], worlds[k + 1];
    assert Next(t, w, a, w');
    match a
    case Apply => AppliedRollsNothingBack(t, w);
    case Exit(code, lived) => ExitRollsBack(w, code, lived);
    case Relaunch => RecordGrows(w.history, Relaunched);
    case _ =>
  }

  lemma AppliedRollsNothingBack(t: Trust, w: World)
    requires Inv(w)
    ensures Rollbacks(Applied(t, w).history) == Rollbacks(w.history)
  {
    if w.disk.incoming != [] {
      var outcome := InstallOutcome(t, w.disk.incoming[0], w.payload.version);
      assert Applied(t, w) == AppliedOne(t, w);
      if outcome.Installed? { RecordGrows(w.history, Upgraded(w.payload.version, outcome.version)); }
    }
  }

  lemma ExitRollsBack(w: World, code: int, lived: real)
    requires Inv(w) && w.agent.Some?
    ensures RollsBack(w, AfterExit(w, code, lived)) <==>
              && ThreeInARow(w.history + [Exited(w.payload, code, lived)], w.payload)
              && !w.payload.bundled && w.payload.version !in w.disk.healthy
  {
    var e := Exited(w.payload, code, lived);
    var history := w.history + [e];
    RecordGrows(w.history, e);
    var counted := w.(agent := None, history := history, failures := w.failures + 1);
    if Failure(e) {
      if MustRollBack(counted) {
        RecordGrows(history, RolledBack(w.payload.version, RolledBackIf(counted).payload));
        forall k | |history| - 3 <= k < |history| ensures Failure(history[k]) && history[k].payload == w.payload {
          StreakIsFailures(history, k);
          assert k < |w.history| ==> history[k] == w.history[k];
        }
      } else if ThreeInARow(history, w.payload) {
        FailuresAreStreak(history, 3);
      }
    } else {
      assert history[|history| - 1] == e;
    }
  }

  /** A rollback lands on the bundled agent or on one that has registered, and never on the failing one. */
  lemma RollbackLandsOnWhatWorked(t: Trust, worlds: seq<World>, actions: seq<Action>, k: nat)
    requires Run(t, worlds, actions) && k < |actions| && RollsBack(worlds[k], worlds[k + 1])
    ensures var w, w' := worlds[k], worlds[k + 1];
            && !w.payload.bundled
            && (w'.payload.bundled
                || (w'.payload.version in w.disk.healthy * w'.disk.healthy && w'.payload.version != w.payload.version
                    && w.disk.previous == Some(w'.payload.version)))
            && w.payload.version in w'.disk.refused
            && w'.payload == Resolved(w'.disk, w'.image)
  {
    InvariantHolds(t, worlds, actions, k);
    RollbackIsTheThirdFailure(t, worlds, actions, k);
    assert Next(t, worlds[k], actions[k], worlds[k + 1]);
    InvariantHolds(t, worlds, actions, k + 1);
    var w, a := worlds[k], actions[k];
    var e := Exited(w.payload, a.code, a.lived);
    RecordGrows(w.history, e);
    FailuresAreStreak(w.history + [e], 3);
    WhoMustRollBack(w);
  }

  /** In every reachable state the payload to fall back to is intact and has registered. */
  lemma PreviousHasRegistered(t: Trust, worlds: seq<World>, actions: seq<Action>, k: nat)
    requires Run(t, worlds, actions) && k < |worlds| && worlds[k].disk.previous.Some?
    ensures worlds[k].disk.previous.value in worlds[k].disk.healthy
    ensures worlds[k].disk.previous.value in worlds[k].disk.unpacked
  {
    InvariantHolds(t, worlds, actions, k);
  }

  // ---------------------------------------------------------------- rollbacks come to an end

  lemma {:induction false} AbandonedForEver(t: Trust, worlds: seq<World>, actions: seq<Action>, j: nat, k: nat)
    requires Run(t, worlds, actions) && j <= k < |worlds|
    ensures Abandoned(worlds[j].history) <= Abandoned(worlds[k].history)
  {
    if j < k {
      AbandonedForEver(t, worlds, actions, j, k - 1);
      assert Next(t, worlds[k - 1], actions[k - 1], worlds[k - 1 + 1]);
      RecordOnlyGrows(t, worlds[k - 1], actions[k - 1], worlds[k]);
    }
  }

  lemma RecordOnlyGrows(t: Trust, w: World, a: Action, w': World)
    requires Next(t, w, a, w')
    ensures w.history <= w'.history
  {
    if a.Apply? { ApplyingOnlyAdds(t, w); }
  }

  lemma {:induction false} ApplyingOnlyAdds(t: Trust, w: World)
    ensures w.history <= Applied(t, w).history
    decreases |w.disk.incoming|
  {
    if w.disk.incoming != [] {
      assert AppliedOne(t, w).disk.incoming == w.disk.incoming[1..];
      ApplyingOnlyAdds(t, AppliedOne(t, w));
    }
  }

  /** No version is rolled back twice: it is refused from then on, and nothing leads back to it. */
  lemma NoVersionIsRolledBackTwice(t: Trust, worlds: seq<World>, actions: seq<Action>, j: nat, k: nat)
    requires Run(t, worlds, actions) && j < k < |actions|
    requires RollsBack(worlds[j], worlds[j + 1]) && RollsBack(worlds[k], worlds[k + 1])
    ensures worlds[j].payload.version != worlds[k].payload.version
  {
    InvariantHolds(t, worlds, actions, j);
    InvariantHolds(t, worlds, actions, k);
    RollbackIsTheThirdFailure(t, worlds, actions, j);
    RollbackIsTheThirdFailure(t, worlds, actions, k);
    assert Next(t, worlds[j], actions[j], worlds[j + 1]);
    RollbackAbandons(worlds[j], actions[j].code, actions[j].lived);
    AbandonedForEver(t, worlds, actions, j + 1, k);
    WhoMustRollBack(worlds[k]);
  }

  lemma RollbackAbandons(w: World, code: int, lived: real)
    requires RollsBack(w, AfterExit(w, code, lived))
    ensures w.payload.version in Abandoned(AfterExit(w, code, lived).history)
  {
    var e := Exited(w.payload, code, lived);
    RecordGrows(w.history, e);
    var counted := w.(agent := None, history := w.history + [e], failures := w.failures + 1);
    RecordGrows(counted.history, RolledBack(w.payload.version, RolledBackIf(counted).payload));
  }

  /** What runs is bundled or has registered: nothing to roll back. */
  predicate Calm(w: World) {
    w.payload.bundled || w.payload.version in w.disk.healthy
  }

  lemma CalmWhileApplying(t: Trust, w: World)
    requires Inv(w) && w.agent.None? && Calm(w) && Upgrades(Applied(t, w).history) == Upgrades(w.history)
    ensures Calm(Applied(t, w)) && !RollsBack(w, Applied(t, w))
  {
    if w.disk.incoming != [] {
      UpgradeKeeps(t, w);
      hide Inv, Upgrades, Rollbacks, InstallOutcome;
      assert Applied(t, w) == AppliedOne(t, w);
      var outcome := InstallOutcome(t, w.disk.incoming[0], w.payload.version);
      if outcome.Installed? { RecordGrows(w.history, Upgraded(w.payload.version, outcome.version)); }
    }
  }

  lemma CalmAfterExit(w: World, code: int, lived: real)
    requires Calm(w)
    ensures Calm(AfterExit(w, code, lived)) && !RollsBack(w, AfterExit(w, code, lived))
  {
    RecordGrows(w.history, Exited(w.payload, code, lived));
    hide Upgrades, Rollbacks;
  }

  lemma CalmUntilUpgraded(t: Trust, w: World, a: Action, w': World)
    requires Inv(w) && Next(t, w, a, w') && Calm(w) && Upgrades(w'.history) == Upgrades(w.history)
    ensures Calm(w') && !RollsBack(w, w')
  {
    match a
    case Apply => CalmWhileApplying(t, w); hide Applied;
    case Exit(code, lived) => CalmAfterExit(w, code, lived); hide AfterExit;
    case Relaunch => RecordGrows(w.history, Relaunched); hide Rollbacks, Upgrades;
    case _ => hide Rollbacks, Upgrades;
  }

  lemma {:induction false} StaysCalm(t: Trust, worlds: seq<World>, actions: seq<Action>, j: nat, k: nat)
    requires Run(t, worlds, actions) && j <= k < |worlds| && Calm(worlds[j])
    ensures Upgrades(worlds[j].history) <= Upgrades(worlds[k].history)
    ensures Upgrades(worlds[j].history) == Upgrades(worlds[k].history) ==> Calm(worlds[k])
  {
    hide Inv, Next, Upgrades, Calm, Init, RollsBack;
    if j < k {
      StaysCalm(t, worlds, actions, j, k - 1);
      InvariantHolds(t, worlds, actions, k - 1);
      assert Next(t, worlds[k - 1], actions[k - 1], worlds[k - 1 + 1]);
      RecordOnlyGrows(t, worlds[k - 1], actions[k - 1], worlds[k]);
      MoreUpgrades(worlds[k - 1].history, worlds[k].history);
      if Upgrades(worlds[j].history) == Upgrades(worlds[k].history) {
        CalmUntilUpgraded(t, worlds[k - 1], actions[k - 1], worlds[k]);
      }
    }
  }

  lemma {:induction false} MoreUpgrades(before: seq<Event>, after: seq<Event>)
    requires before <= after
    ensures Upgrades(before) <= Upgrades(after)
    decreases |after|
  {
    if before != after { MoreUpgrades(before, after[..|after| - 1]); }
  }

  /** Between two rollbacks something was installed, so there are never more of them than installations. */
  lemma RollbacksAreSeparated(t: Trust, worlds: seq<World>, actions: seq<Action>, j: nat, k: nat)
    requires Run(t, worlds, actions) && j < k < |actions|
    requires RollsBack(worlds[j], worlds[j + 1]) && RollsBack(worlds[k], worlds[k + 1])
    ensures Upgrades(worlds[j + 1].history) < Upgrades(worlds[k].history)
    ensures Rollbacks(worlds[k].history) < Upgrades(worlds[k].history)
  {
    RollbackLandsOnWhatWorked(t, worlds, actions, j);
    StaysCalm(t, worlds, actions, j + 1, k);
    RollbackIsTheThirdFailure(t, worlds, actions, k);
    InvariantHolds(t, worlds, actions, k);
    WhoMustRollBack(worlds[k]);
  }

  /**
   Whatever is installed is strictly newer than what ran before, and was refused by nobody on this node;
   over the whole record, rollbacks never outnumber installations.
   */
  lemma InstallsOnlyRaise(t: Trust, worlds: seq<World>, actions: seq<Action>, k: nat)
    requires Run(t, worlds, actions) && k < |worlds|
    ensures forall e | e in worlds[k].history && e.Upgraded? :: IsNewer(e.target, e.source)
    ensures Rollbacks(worlds[k].history) <= Upgrades(worlds[k].history)
    ensures worlds[k].agent.None? ==> forall p | p in worlds[k].disk.incoming ::
              p.Release? && p.manifest.version !in worlds[k].disk.refused
  {
    InvariantHolds(t, worlds, actions, k);
  }

  /**
   The launcher installs what is pending exactly when it may be trusted: newer than what runs, signed
   under the key of the image, and an archive that holds an agent. What fails that test for good is refused.
   */
  lemma InstalledIffTrusted(t: Trust, worlds: seq<World>, actions: seq<Action>, k: nat, m: Manifest)
    requires Run(t, worlds, actions) && k < |actions| && actions[k] == Apply
    requires worlds[k].disk.incoming == [Release(m)]
    ensures var w, w' := worlds[k], worlds[k + 1];
            var trusted := m.version != "" && m.sha256 != "" && IsNewer(m.version, w.payload.version)
                           && t.hasKey && m.signature != "" && t.signed(m);
            && (Upgrades(w'.history) > Upgrades(w.history) <==> trusted && t.archive(m).HoldsAgent?)
            && w'.payload == (if trusted && t.archive(m).HoldsAgent? then Payload(m.version, false) else w.payload)
            && (m.version in w'.disk.refused <==> !trusted || t.archive(m).Untrusted?)
            && w'.disk.incoming == []
  {
    InvariantHolds(t, worlds, actions, k);
    assert Next(t, worlds[k], actions[k], worlds[k + 1]);
    var w := worlds[k];
    assert Applied(t, w) == AppliedOne(t, w);
    var outcome := InstallOutcome(t, Release(m), w.payload.version);
    if outcome.Installed? { RecordGrows(w.history, Upgraded(w.payload.version, m.version)); }
  }

  // ---------------------------------------------------------------- why at most one release may be pending

  /** Unpacked here and registered before. */
  predicate HasRun(d: Disk, v: Version) {
    v in d.unpacked && v in d.healthy
  }

  /** Installing one release keeps the floor if and only if what ran before, unless it was bundled, had registered. */
  lemma FloorAfterOne(t: Trust, w: World)
    requires Floor(w.disk) && w.payload == Resolved(w.disk, w.image) && w.payload.version != ""
    requires w.disk.incoming != []
    ensures var after := AppliedOne(t, w);
            && after.payload == Resolved(after.disk, after.image) && after.payload.version != ""
            && after.disk.incoming == w.disk.incoming[1..]
            && (Floor(after.disk) <==> after.payload == w.payload || Calm(w))
            && (after.payload != w.payload ==>
                  && !after.payload.bundled
                  && (after.payload.version in after.disk.healthy <==> HasRun(w.disk, after.payload.version)))
            && (after.payload == w.payload ==>
                  after.disk == w.disk.(incoming := w.disk.incoming[1..], refused := after.disk.refused))
  {
    var outcome := InstallOutcome(t, w.disk.incoming[0], w.payload.version);
    if outcome.Installed? { NewerIsTotal(outcome.version, w.payload.version); }
  }

  /**
   With two files pending, the payload to fall back to afterwards is one that registered unless both are
   installed and the first of the two, which is then that payload, never did.
   */
  lemma FloorWithTwoPending(t: Trust, w: World, p: Pending, q: Pending)
    requires Floor(w.disk) && w.payload == Resolved(w.disk, w.image) && w.payload.version != "" && Calm(w)
    requires w.disk.incoming == [p, q]
    ensures var first := InstallOutcome(t, p, w.payload.version);
            var second := InstallOutcome(t, q, if first.Installed? then first.version else w.payload.version);
            Floor(Applied(t, w).disk) <==>
              !(first.Installed? && second.Installed? && !HasRun(w.disk, first.version))
  {
    var one := AppliedOne(t, w);
    FloorAfterOne(t, w);
    assert one.disk.incoming == [q];
    FloorAfterOne(t, one);
    assert Applied(t, w) == Applied(t, one) == AppliedOne(t, one);
    var first := InstallOutcome(t, p, w.payload.version);
    if first.Installed? { NewerIsTotal(first.version, w.payload.version); }
    var second := InstallOutcome(t, q, one.payload.version);
    if second.Installed? { NewerIsTotal(second.version, one.payload.version); }
  }
}
