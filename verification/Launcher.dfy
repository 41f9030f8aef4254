/** The launcher: the part of a node an update cannot replace. */
module Launcher {
  import opened Wrappers
  import opened Versions
  import opened Payloads
  import opened SelfUpdate

  /** The node's volume: directories, markers and links that survive every restart. */
  class Volume {
    var unpacked: set<Version>
    var healthy: set<Version>
    var refused: set<Version>
    var current: Option<Version>
    var previous: Option<Version>
    var incoming: seq<Pending>

    constructor ()
      ensures View() == Disk({}, {}, {}, None, None, [])
    {
      unpacked, healthy, refused, current, previous, incoming := {}, {}, {}, None, None, [];
    }

    function View(): Disk
      reads this
    {
      Disk(unpacked, healthy, refused, current, previous, incoming)
    }

    function Follow(link: Option<Version>): Option<Version>
      reads this
    {
      if link.Some? && link.value in unpacked then link else None
    }

    method Resolve(image: Version) returns (p: Payload)
      ensures p == Resolved(View(), image)
    {
      var target := Follow(current);
      p := if target.Some? then Payload(target.value, false) else Payload(image, true);
    }

    method RememberRefusal(version: Version)
      modifies this`refused
      ensures View() == RefusedAs(old(View()), version)
    {
      refused := refused + {version};
    }

    /** Verify and install the oldest pending release; it is gone afterwards, installed or not. */
    method Install(t: Trust, installed: Version) returns (p: Option<Payload>)
      requires incoming != []
      modifies this
      ensures var outcome := InstallOutcome(t, old(incoming)[0], installed);
              && View() == AfterInstall(old(View()), outcome)
              && p == if outcome.Installed? then Some(Payload(outcome.version, false)) else None
    {
      var pending := incoming[0];
      incoming := incoming[1..];
      if pending.Unreadable? { return None; }
      var m := pending.manifest;
      if !Verified(t, m, installed) {
        RememberRefusal(m.version);
        return None;
      }
      match t.archive(m)
      case Untrusted =>
        RememberRefusal(m.version);
        p := None;
      case Broken =>
        p := None;
      case HoldsAgent =>
        Unpack(m.version);
        p := Some(Payload(m.version, false));
    }

    method Unpack(version: Version)
      modifies this`unpacked, this`healthy
      ensures View() == UnpackedAs(old(View()), version)
    {
      if version !in unpacked {
        healthy := healthy - {version};
        unpacked := unpacked + {version};
      }
    }

    method SwitchTo(version: Version)
      modifies this`current, this`previous
      ensures View() == SwitchedTo(old(View()), version)
    {
      var was := Follow(current);
      if was.Some? && was.value != version {
        previous := was;
      }
      current := Some(version);
    }

    method RollBack(image: Version) returns (p: Payload)
      modifies this`current
      ensures View() == RolledBackDisk(old(View())) && p == Resolved(View(), image)
    {
      var target := Follow(previous);
      if target.None? {
        current := None;
        return Payload(image, true);
      }
      current := target;
      p := Payload(target.value, false);
    }
  }

  /** Runs the agent and keeps running it. `history` only records what happened. */
  class Supervisor {
    const volume: Volume
    const image: Version
    var payload: Payload
    var consecutiveFailures: nat
    ghost var history: seq<Event>

    constructor (volume: Volume, image: Version, payload: Payload)
      ensures View() == World(image, volume.View(), payload, 0, None, []) && this.volume == volume
    {
      this.volume, this.image, this.payload := volume, image, payload;
      consecutiveFailures, history := 0, [];
    }

    /** The world as it is between two runs of the agent. */
    ghost function View(): World
      reads this, volume
    {
      World(image, volume.View(), payload, consecutiveFailures, None, history)
    }

    /** Install whatever the agent fetched before it stopped. */
    method ApplyDownloaded(t: Trust)
      modifies this, volume
      ensures View() == Applied(t, old(View()))
    {
      while volume.incoming != []
        invariant Applied(t, View()) == Applied(t, old(View()))
        decreases |volume.incoming|
      {
        ghost var before := View();
        var installed := volume.Install(t, payload.version);
        if installed.Some? {
          volume.SwitchTo(installed.value.version);
          history := history + [Upgraded(payload.version, installed.value.version)];
          payload := installed.value;
          consecutiveFailures := 0;
        }
        assert View() == AppliedOne(t, before);
      }
    }

    /** One turn of the loop, from what was downloaded to what became of the agent. */
    method Turn(t: Trust, code: int, lived: real)
      modifies this, volume
      ensures View() == AfterExit(Applied(t, old(View())), code, lived)
    {
      ApplyDownloaded(t);
      history := history + [Exited(payload, code, lived)];
      if code == UPDATE_EXIT_CODE {
        consecutiveFailures := 0;
      } else if lived < TOO_SOON_S {
        consecutiveFailures := consecutiveFailures + 1;
        ConsiderRollback();
      } else {
        consecutiveFailures := 0;
      }
    }

    method ConsiderRollback()
      modifies this, volume
      ensures View() == RolledBackIf(old(View()))
    {
      if consecutiveFailures < FAILURES_BEFORE_ROLLBACK { return; }
      if payload.bundled { return; }
      if payload.version in volume.healthy { return; }
      volume.RememberRefusal(payload.version);
      var restored := volume.RollBack(image);
      history := history + [RolledBack(payload.version, restored)];
      payload := restored;
      consecutiveFailures := 0;
    }
  }
}
