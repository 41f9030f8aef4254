/** Receiving a task's input: one handle per file that is open, and all of them closed when anything is refused. */
module Receiving {
  import opened Wrappers
  import opened Inputs

  /** The task's work directory. */
  class Work {
    var disk: Disk

    constructor ()
      ensures disk == BLANK
    {
      disk := BLANK;
    }
  }

  /** One file arriving in pieces: written under a partial name, and renamed only when all of it is right. */
  class IncomingFile {
    const work: Work
    const name: Name
    const declared: Declared
    var received: nat
    var digested: Bytes
    var open: bool
    var file: nat

    constructor (work: Work, name: Name, declared: Declared)
      ensures this.work == work && this.name == name && this.declared == declared
      ensures received == 0 && digested == [] && !open
    {
      this.work, this.name, this.declared := work, name, declared;
      this.received, this.digested, this.open, this.file := 0, [], false, 0;
    }

    /** Open, with everything written to it counted and digested. */
    ghost predicate Valid()
      reads this, work
    {
      && open && received == |digested|
      && Sound(work.disk) && file < |work.disk.bytes| && Partial(name) in work.disk.names
    }

    method Enter()
      requires received == 0 && digested == [] && Sound(work.disk)
      modifies this`open, this`file, work
      ensures (work.disk, file) == Opened(old(work.disk), Partial(name))
      ensures Valid()
    {
      var path := Partial(name);
      if path in work.disk.names {
        file := work.disk.names[path];
        work.disk := work.disk.(bytes := work.disk.bytes[file := []]);
      } else {
        file := |work.disk.bytes|;
        work.disk := Disk(work.disk.names[path := file], work.disk.bytes + [[]]);
      }
      open := true;
    }

    method Write(chunk: Bytes) returns (refused: Option<Refused>)
      requires Valid()
      modifies this`received, this`digested, this`open, work
      ensures refused.None? <==> declared.size == 0 || |old(digested) + chunk| <= declared.size
      ensures refused.None? ==> Valid() && digested == old(digested) + chunk
                                && work.disk == Appended(old(work.disk), file, chunk)
      ensures refused.Some? ==> !open && work.disk == Unlinked(old(work.disk), Partial(name))
    {
      received := received + |chunk|;
      if declared.size != 0 && received > declared.size {
        Abort();
        return Some(TooMuch);
      }
      digested := digested + chunk;
      work.disk := work.disk.(bytes := work.disk.bytes[file := work.disk.bytes[file] + chunk]);
      refused := None;
    }

    /** Make the file visible to the task, or refuse and leave nothing. */
    method Finish(digest: Digest) returns (refused: Option<Refused>)
      requires Valid()
      modifies this`open, work
      ensures !open && (refused.None? <==> AsDeclared(digested, declared, digest))
      ensures work.disk == if refused.None? then Moved(old(work.disk), Partial(name), name)
                           else Unlinked(old(work.disk), Partial(name))
    {
      open := false;
      if declared.size != 0 && received != declared.size {
        Abort();
        return Some(TooLittle);
      }
      if declared.digest != "" && digest(digested) != declared.digest {
        Abort();
        return Some(Corrupted);
      }
      var moved := work.disk.names[Partial(name)];
      work.disk := work.disk.(names := (work.disk.names - {Partial(name)})[name := moved]);
      refused := None;
    }

    /** Leave nothing behind. */
    method Abort()
      modifies this`open, work
      ensures !open && work.disk == Unlinked(old(work.disk), Partial(name))
    {
      open := false;
      work.disk := work.disk.(names := work.disk.names - {Partial(name)});
    }
  }

  /** The directory and the handles are those of `desk`, and every handle is among `ours`. */
  ghost predicate Mirrors(work: Work, handles: map<Name, IncomingFile>, ours: set<IncomingFile>,
                          wanted: map<Name, Declared>, desk: Desk)
    reads work, ours
  {
    && Usable(desk) && work.disk == desk.disk && handles.Keys == desk.open.Keys
    && (forall name | name in handles :: Handles(handles[name], name, work, ours, wanted, desk))
  }

  /** One handle is that of its open file. */
  ghost predicate Handles(handle: IncomingFile, name: Name, work: Work, ours: set<IncomingFile>,
                          wanted: map<Name, Declared>, desk: Desk)
    reads ours
  {
    && handle in ours && handle.work == work && handle.name == name
    && name in wanted && handle.declared == wanted[name] && name in desk.open
    && handle.open && handle.file == desk.open[name].file
    && handle.digested == desk.open[name].digested && handle.received == |handle.digested|
  }

  /** Every name in a directory is a declared one, or the partial name of an open file. */
  ghost predicate OnlyKnown(paths: set<Name>, open: set<Name>, names: set<Name>) {
    forall path | path in paths :: path in names || exists name :: name in open && path == Partial(name)
  }

  ghost predicate Owned(handles: map<Name, IncomingFile>, work: Work, ours: set<IncomingFile>) {
    forall name | name in handles ::
      handles[name] in ours && handles[name].work == work && handles[name].name == name
  }

  /** Nothing of an unfinished transfer stays on the disk: only declared names are left. */
  method AbortAll(work: Work, handles: map<Name, IncomingFile>, ghost ours: set<IncomingFile>, ghost names: set<Name>)
    requires Owned(handles, work, ours) && OnlyKnown(work.disk.names.Keys, handles.Keys, names)
    modifies work, ours
    ensures work.disk.names.Keys <= names
  {
    var left := handles.Keys;
    while left != {}
      invariant left <= handles.Keys && OnlyKnown(work.disk.names.Keys, left, names)
      decreases left
    {
      var name :| name in left;
      handles[name].Abort();
      left := left - {name};
    }
  }

  /** The handle of this piece's file, opened for it if there is none. */
  method HandleFor(work: Work, openFiles: map<Name, IncomingFile>, ghost ours: set<IncomingFile>,
                   wanted: map<Name, Declared>, name: Name, ghost desk: Desk)
    returns (handles: map<Name, IncomingFile>, ghost more: set<IncomingFile>)
    requires Mirrors(work, openFiles, ours, wanted, desk) && name in wanted
    modifies work
    ensures Mirrors(work, handles, more, wanted, Ready(desk, name)) && ours <= more && fresh(more - ours)
    ensures name in handles && handles.Keys == openFiles.Keys + {name}
  {
    handles, more := openFiles, ours;
    if name !in openFiles {
      hide Opened, Sound, Usable;
      var handle := Open(work, name, wanted[name], desk);
      handles, more := handles[name := handle], more + {handle};
      forall other | other in handles ensures Handles(handles[other], other, work, more, wanted, Ready(desk, name)) {
        if other != name {
          assert old(Handles(openFiles[other], other, work, ours, wanted, desk));
        }
      }
    }
  }

  /** A new handle on the file of this name, which is emptied or made. */
  method Open(work: Work, name: Name, declared: Declared, ghost desk: Desk) returns (handle: IncomingFile)
    requires Usable(desk) && work.disk == desk.disk
    modifies work
    ensures fresh(handle) && handle.work == work && handle.name == name && handle.declared == declared && handle.open
    ensures handle.received == |handle.digested| == 0 && (work.disk, handle.file) == Opened(desk.disk, Partial(name))
  {
    handle := new IncomingFile(work, name, declared);
    handle.Enter();
  }

  /** Write one piece, and finish the file if it is the last. */
  method Feed(handle: IncomingFile, c: Chunk, digest: Digest) returns (refused: Option<Refused>)
    requires handle.Valid() && c.name == handle.name
    modifies handle`received, handle`digested, handle`open, handle.work
    ensures var disk := Appended(old(handle.work.disk), handle.file, c.data);
            && (refused.None? ==> handle.digested == old(handle.digested) + c.data
                                  && handle.received == |handle.digested| && handle.open == !c.last)
            && (refused.None? ==> handle.work.disk == if c.last then Moved(disk, Partial(c.name), c.name) else disk)
    ensures refused.Some? ==> handle.work.disk.names == old(handle.work.disk.names) - {Partial(c.name)}
    ensures refused.None? && c.last ==> AsDeclared(old(handle.digested) + c.data, handle.declared, digest)
  {
    hide AsDeclared;
    refused := None;
    if c.data != [] {
      refused := handle.Write(c.data);
      if refused.Some? { return; }
    } else {
      assert handle.digested + c.data == handle.digested;
      assert handle.work.disk.bytes[handle.file] + c.data == handle.work.disk.bytes[handle.file];
    }
    if c.last {
      refused := handle.Finish(digest);
    }
  }

  /** One piece for a file that is open; the handles left are those of the files still open, or all if it is refused. */
  method Deliver(work: Work, openFiles: map<Name, IncomingFile>, ghost ours: set<IncomingFile>,
                 wanted: map<Name, Declared>, c: Chunk, digest: Digest, ghost desk: Desk)
    returns (refused: Option<Refused>, handles: map<Name, IncomingFile>)
    requires Mirrors(work, openFiles, ours, wanted, desk) && c.name in openFiles
    modifies work, ours
    ensures refused.None? ==>
              Mirrors(work, handles, ours, wanted,
                      var fed := Fed(desk, c.name, c.data); if c.last then Finished(fed, c.name) else fed)
    ensures refused.None? && c.last ==>
              AsDeclared(desk.open[c.name].digested + c.data, wanted[c.name], digest)
    ensures refused.Some? ==> handles == openFiles && work.disk.names.Keys <= old(work.disk.names).Keys
  {
    hide AsDeclared, Sound, Partial;
    var handle := openFiles[c.name];
    assert Handles(handle, c.name, work, ours, wanted, desk);
    assert handle.Valid();
    assert forall name | name in openFiles && name != c.name :: openFiles[name] != handle by {
      assert forall name | name in openFiles :: Handles(openFiles[name], name, work, ours, wanted, desk);
    }
    refused := Feed(handle, c, digest);
    handles := if refused.None? && c.last then openFiles - {c.name} else openFiles;
    if refused.None? {
      forall name | name in handles
        ensures Handles(handles[name], name, work, ours, wanted,
                        var fed := Fed(desk, c.name, c.data); if c.last then Finished(fed, c.name) else fed)
      {
        assert old(Handles(openFiles[name], name, work, ours, wanted, desk));
      }
    }
  }

  /** Opening, feeding and finishing leave only known names in the directory. */
  lemma ReadyIsKnown(desk: Desk, name: Name, names: set<Name>)
    requires Usable(desk) && OnlyKnown(desk.disk.names.Keys, desk.open.Keys, names)
    ensures OnlyKnown(Ready(desk, name).disk.names.Keys, desk.open.Keys + {name}, names)
    ensures Ready(desk, name).open.Keys == desk.open.Keys + {name}
  {
  }

  lemma AfterIsKnown(desk: Desk, c: Chunk, names: set<Name>)
    requires Usable(desk) && OnlyKnown(desk.disk.names.Keys, desk.open.Keys, names) && c.name in names
    ensures OnlyKnown(After(desk, c).disk.names.Keys, After(desk, c).open.Keys, names)
  {
    ReadyIsKnown(desk, c.name, names);
    hide Ready;
    var fed := Fed(Ready(desk, c.name), c.name, c.data);
    assert fed.disk.names == Ready(desk, c.name).disk.names && fed.open.Keys == desk.open.Keys + {c.name};
  }

  lemma MirrorsAreOwned(work: Work, handles: map<Name, IncomingFile>, ours: set<IncomingFile>,
                        wanted: map<Name, Declared>, desk: Desk)
    requires Mirrors(work, handles, ours, wanted, desk)
    ensures Owned(handles, work, ours)
  {
    forall name | name in handles
      ensures handles[name] in ours && handles[name].work == work && handles[name].name == name
    {
      assert Handles(handles[name], name, work, ours, wanted, desk);
    }
  }

  /** One piece goes to its own file, which is opened for it if it is not open. */
  method TakeChunk(work: Work, openFiles: map<Name, IncomingFile>, ghost ours: set<IncomingFile>,
                   wanted: map<Name, Declared>, c: Chunk, digest: Digest, ghost desk: Desk)
    returns (refused: Option<Refused>, handles: map<Name, IncomingFile>, ghost more: set<IncomingFile>)
    requires Mirrors(work, openFiles, ours, wanted, desk) && c.name in wanted
    requires OnlyKnown(desk.disk.names.Keys, desk.open.Keys, wanted.Keys)
    modifies work, ours
    ensures refused.None? ==> Mirrors(work, handles, more, wanted, After(desk, c))
    ensures refused.None? && c.last ==> AsDeclared(Digested(desk, c.name) + c.data, wanted[c.name], digest)
    ensures OnlyKnown(work.disk.names.Keys, handles.Keys, wanted.Keys) && Owned(handles, work, more)
    ensures ours <= more && fresh(more - ours)
  {
    hide AsDeclared, Handles, Owned, Ready, Fed, Finished, OnlyKnown;
    handles, more := HandleFor(work, openFiles, ours, wanted, c.name, desk);
    ghost var ready := Ready(desk, c.name);
    MirrorsAreOwned(work, handles, more, wanted, ready);
    ReadyIsKnown(desk, c.name, wanted.Keys);
    AfterIsKnown(desk, c, wanted.Keys);
    ReadyDigested(desk, c.name);
    refused, handles := Deliver(work, handles, more, wanted, c, digest, ready);
    if refused.None? {
      MirrorsAreOwned(work, handles, more, wanted, After(desk, c));
    } else {
      FewerAreKnown(work.disk.names.Keys, ready.disk.names.Keys, handles.Keys, wanted.Keys);
    }
  }

  lemma ReadyDigested(desk: Desk, name: Name)
    requires Usable(desk)
    ensures Ready(desk, name).open[name].digested == Digested(desk, name)
  {
  }

  lemma FewerAreKnown(fewer: set<Name>, paths: set<Name>, open: set<Name>, names: set<Name>)
    requires OnlyKnown(paths, open, names) && fewer <= paths
    ensures OnlyKnown(fewer, open, names)
  {
  }

  lemma NothingOpen(work: Work, wanted: map<Name, Declared>, digest: Digest)
    requires work.disk == BLANK
    ensures Mirrors(work, map[], {}, wanted, AfterAll([])) && Digests(AfterAll([]), []) && Accepted([], wanted, digest)
    ensures AfterAll([]) == EMPTY_DESK
  {
  }

  /** Take pieces until every declared file is done, or one is refused; the handles left are the open files'. */
  method Collect(work: Work, wanted: map<Name, Declared>, pending: seq<Chunk>, digest: Digest)
    returns (r: Result<nat, Refused>, openFiles: map<Name, IncomingFile>, ghost ours: set<IncomingFile>)
    requires work.disk == BLANK
    modifies work
    ensures r.Ok? ==> && r.value <= |pending| && Received(pending[..r.value], wanted, digest)
                      && work.disk == AfterAll(pending[..r.value]).disk
    ensures Owned(openFiles, work, ours) && OnlyKnown(work.disk.names.Keys, openFiles.Keys, wanted.Keys) && fresh(ours)
  {
    hide Accepted, AsDeclared, Handles, After, AfterAll, Owned, OnlyKnown, Since, Digests;
    openFiles, ours := map[], {};
    NothingOpen(work, wanted, digest);
    NothingKnown(work, wanted.Keys);
    assert openFiles.Keys == {};
    MirrorsAreOwned(work, openFiles, ours, wanted, AfterAll([]));
    var done: set<Name> := {};
    var k := 0;
    ghost var taken: seq<Chunk> := [];
    while done != wanted.Keys
      invariant k <= |pending| && taken == pending[..k] && fresh(ours)
      invariant Mirrors(work, openFiles, ours, wanted, AfterAll(taken)) && Owned(openFiles, work, ours)
      invariant OnlyKnown(work.disk.names.Keys, openFiles.Keys, wanted.Keys)
      invariant Accepted(taken, wanted, digest)
      invariant done <= wanted.Keys && forall name | name in done :: Ended(taken, name)
      decreases |pending| - k
    {
      if k == |pending| { return Err(NoMore), openFiles, ours; }
      var c := pending[k];
      if c.name !in wanted { return Err(Undeclared), openFiles, ours; }
      ghost var desk := AfterAll(taken);
      var refused;
      refused, openFiles, ours := TakeChunk(work, openFiles, ours, wanted, c, digest, desk);
      if refused.Some? { return Err(refused.value), openFiles, ours; }
      AllDigests(taken);
      DigestedIsSince(desk, taken, c.name);
      OneMoreAccepted(taken, c, wanted, digest);
      AfterOne(taken, c);
      OneMoreEnded(taken, c);
      if c.last { done := done + {c.name}; }
      k := k + 1;
      taken := taken + [c];
    }
    r := Ok(k);
  }

  lemma NothingKnown(work: Work, names: set<Name>)
    requires work.disk == BLANK
    ensures OnlyKnown(work.disk.names.Keys, {}, names)
  {
  }

  lemma DigestedIsSince(desk: Desk, chunks: seq<Chunk>, name: Name)
    requires Digests(desk, chunks)
    ensures Digested(desk, name) == Since(chunks, name)
  {
    ClosedIsEmpty(chunks, name);
  }

  lemma OneMoreEnded(chunks: seq<Chunk>, c: Chunk)
    ensures forall name :: Ended(chunks + [c], name) <==> (c.last && name == c.name) || Ended(chunks, name)
  {
    assert (chunks + [c])[..|chunks|] == chunks;
  }

  /**
   Collect every declared input, or refuse the lot: then the directory holds files under declared names
   only, so with names apart nothing unfinished. What the directory holds on success is what
   `ReceivedIsOwn` and `NamesMustBeApart` speak of.
   */
  method ReceiveAll(work: Work, wanted: map<Name, Declared>, pending: seq<Chunk>, digest: Digest)
    returns (r: Result<nat, Refused>)
    requires work.disk == BLANK
    modifies work
    ensures r.Ok? ==> && r.value <= |pending| && Received(pending[..r.value], wanted, digest)
                      && work.disk == AfterAll(pending[..r.value]).disk
    ensures r.Ok? && Apart(wanted.Keys) ==>
              forall name | name in wanted ::
                && Contents(work.disk, name).Some? && AsDeclared(Contents(work.disk, name).value, wanted[name], digest)
                && (NothingAfterLast(pending[..r.value]) ==>
                      && Contents(work.disk, name) == Some(Own(pending[..r.value], name))
                      && Partial(name) !in work.disk.names)
    ensures r.Err? ==> work.disk.names.Keys <= wanted.Keys
    ensures r.Err? && Apart(wanted.Keys) ==> forall name | name in wanted :: Partial(name) !in work.disk.names
  {
    ghost var ours;
    var openFiles;
    r, openFiles, ours := Collect(work, wanted, pending, digest);
    hide AsDeclared, AfterAll, Owned, OnlyKnown, Received, NothingAfterLast, Own;
    if r.Err? {
      AbortAll(work, openFiles, ours, wanted.Keys);
    } else if Apart(wanted.Keys) {
      forall name | name in wanted
        ensures && Contents(work.disk, name).Some?
                && AsDeclared(Contents(work.disk, name).value, wanted[name], digest)
                && (NothingAfterLast(pending[..r.value]) ==>
                      && Contents(work.disk, name) == Some(Own(pending[..r.value], name))
                      && Partial(name) !in work.disk.names)
      {
        ReceivedIsOwn(pending[..r.value], wanted, digest, name);
      }
    }
  }
}
