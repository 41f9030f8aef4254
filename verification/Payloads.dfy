/** What the launcher finds on the disk, and what installing, switching and rolling back make of it. */
module Payloads {
  import opened Wrappers
  import opened Versions

  /** How to start one agent: the one in the image, or one unpacked under its version. */
  datatype Payload = Payload(version: Version, bundled: bool)

  datatype Manifest = Manifest(version: Version, sha256: string, signature: string)

  /** A file in the incoming directory: a release, or something that cannot be read as one. */
  datatype Pending = Release(manifest: Manifest) | Unreadable

  /** What becomes of an archive: the agent it holds, a refusal, or a failure to unpack. */
  datatype Archive = HoldsAgent | Untrusted | Broken

  /** The key in the image decides what is signed; the archives are what they are. */
  datatype Trust = Trust(hasKey: bool, signed: Manifest -> bool, archive: Manifest -> Archive)

  /** `unpacked` are the versions with an agent in their directory, `healthy` those with a health marker. */
  datatype Disk = Disk(
    unpacked: set<Version>,
    healthy: set<Version>,
    refused: set<Version>,
    current: Option<Version>,
    previous: Option<Version>,
    incoming: seq<Pending>)

  datatype Outcome = Installed(version: Version) | Refused(version: Version) | Skipped

  /** May this release be installed over the running version? */
  predicate Verified(t: Trust, m: Manifest, installed: Version) {
    && m.version != "" && m.sha256 != ""
    && (installed != "" ==> IsNewer(m.version, installed))
    && t.hasKey && m.signature != "" && t.signed(m)
  }

  function InstallOutcome(t: Trust, p: Pending, installed: Version): Outcome {
    match p
    case Unreadable => Skipped
    case Release(m) =>
      if !Verified(t, m, installed) then Refused(m.version)
      else match t.archive(m)
        case HoldsAgent => Installed(m.version)
        case Untrusted => Refused(m.version)
        case Broken => Skipped
  }

  /** A directory that already holds an agent is kept; any other is replaced, health marker and all. */
  function UnpackedAs(d: Disk, v: Version): Disk {
    if v in d.unpacked then d else d.(unpacked := d.unpacked + {v}, healthy := d.healthy - {v})
  }

  function RefusedAs(d: Disk, v: Version): Disk {
    d.(refused := d.refused + {v})
  }

  /** The oldest pending file is dealt with and removed, whatever comes of it. */
  function AfterInstall(d: Disk, outcome: Outcome): Disk
    requires d.incoming != []
  {
    var rest := d.(incoming := d.incoming[1..]);
    match outcome
    case Installed(v) => UnpackedAs(rest, v)
    case Refused(v) => RefusedAs(rest, v)
    case Skipped => rest
  }

  /** What a link leads to, if it leads anywhere. */
  function Target(d: Disk, link: Option<Version>): Option<Version> {
    if link.Some? && link.value in d.unpacked then link else None
  }

  /** `current` leads to this version; `previous` to what it replaced. */
  function SwitchedTo(d: Disk, v: Version): Disk {
    var was := Target(d, d.current);
    d.(previous := if was.Some? && was.value != v then was else d.previous, current := Some(v))
  }

  function RolledBackDisk(d: Disk): Disk {
    d.(current := Target(d, d.previous))
  }

  /** The agent to run now: where `current` leads, else the bundled one. */
  function Resolved(d: Disk, image: Version): Payload {
    var target := Target(d, d.current);
    if target.Some? then Payload(target.value, false) else Payload(image, true)
  }
}
