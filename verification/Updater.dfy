/** The agent's half of an update: it fetches a release, leaves it for the launcher, and steps aside. */
module UpdaterClass {
  import opened Wrappers
  import opened Versions
  import opened Payloads
  import opened SelfUpdate

  class Updater {
    const currentVersion: Version
    var working: bool
    var state: Stage
    var offered: Version
    var exitCode: int
    ghost var registered: bool
    ghost var fetching: Option<Offer>

    constructor (currentVersion: Version)
      ensures Valid() && View() == Started(currentVersion)
    {
      this.currentVersion := currentVersion;
      working, state, offered, exitCode := false, Idle, "", 0;
      registered, fetching := false, None;
    }

    ghost predicate Valid()
      reads this
    {
      working == fetching.Some?
    }

    ghost function View(): Agent
      reads this
    {
      Agent(currentVersion, registered, fetching, state, offered, exitCode)
    }

    /** What the orchestrator says this node should run; true when a download starts. */
    method OnRelease(release: Offer, refused: set<Version>) returns (starts: bool)
      requires Valid()
      modifies this
      ensures Valid() && View() == Offered(old(View()), refused, release)
      ensures starts <==> old(fetching).None? && fetching == Some(release)
    {
      if release.version == "" || release.version == currentVersion { return false; }
      if release.url == "" {
        state := Declined;
        return false;
      }
      if release.version in refused {
        offered, state := release.version, Declined;
        return false;
      }
      offered := release.version;
      if working { return false; }
      working, fetching := true, Some(release);
      starts := true;
    }

    /** The download thread, with whatever came of the download: a manifest, or nothing. */
    method CarryOut(release: Offer, updatesDisabled: bool, hasLauncher: bool, arrived: bool)
      returns (left: Option<Manifest>)
      requires Valid() && fetching == Some(release)
      modifies this
      ensures Valid() && fetching == None && registered == old(registered) && offered == old(offered)
      ensures var fetched := !updatesDisabled && hasLauncher && arrived;
              && left == (if fetched then Some(ManifestOf(release)) else None)
              && state == (if fetched then Downloaded else Declined)
              && exitCode == if fetched then UPDATE_EXIT_CODE else old(exitCode)
    {
      left := None;
      if updatesDisabled || !hasLauncher {
        state := Declined;
      } else {
        state := Fetching;
        if arrived {
          left, state := Some(ManifestOf(release)), Downloaded;
          StepAside();
        } else {
          state := Declined;
        }
      }
      working, fetching := false, None;
    }

    /** Leave on purpose: the launcher tells a planned exit from a crash by this code alone. */
    method StepAside()
      modifies this`exitCode
      ensures View() == SteppedAside(old(View()))
    {
      exitCode := UPDATE_EXIT_CODE;
    }
  }
}
