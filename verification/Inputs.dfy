/** A task's input files as they arrive in pieces, each piece naming its file, in any order between files. */
module Inputs {
  import opened Wrappers

  type Bytes = seq<bv8>
  type Name = string

  /** What was declared of a file; a size of zero and an empty digest say nothing. */
  datatype Declared = Declared(size: nat, digest: string)

  datatype Chunk = Chunk(name: Name, data: Bytes, last: bool)

  datatype Refused = Undeclared | TooMuch | TooLittle | Corrupted | NoMore

  /** The digest of some bytes. */
  type Digest = Bytes -> string

  // ---------------------------------------------------------------- the disk

  const PARTIAL_SUFFIX := ".looma-partial"

  /** The name under which a file is written until all of it is right. */
  function Partial(name: Name): Name {
    name + PARTIAL_SUFFIX
  }

  lemma PartialIsInjective(a: Name, b: Name)
    ensures Partial(a) == Partial(b) ==> a == b
    ensures Partial(a) != a
  {
    assert |Partial(a)| == |a| + |PARTIAL_SUFFIX|;
    if Partial(a) == Partial(b) {
      assert a == Partial(a)[..|a|] == Partial(b)[..|b|] == b;
    }
  }

  /**
   One directory: names lead to numbered files, and every file has its bytes. A file that is open goes on
   taking what is written to it after its name leads elsewhere.
   */
  datatype Disk = Disk(names: map<Name, nat>, bytes: seq<Bytes>)

  const BLANK := Disk(map[], [])

  /** Every name leads to a file, and no two to the same. */
  ghost predicate Sound(d: Disk) {
    && (forall name | name in d.names :: d.names[name] < |d.bytes|)
    && (forall a, b | a in d.names && b in d.names && d.names[a] == d.names[b] :: a == b)
  }

  /** What is found under a name. */
  function Contents(d: Disk, name: Name): Option<Bytes>
    requires Sound(d)
  {
    if name in d.names then Some(d.bytes[d.names[name]]) else None
  }

  /** Open for writing: the file of that name is emptied, or a new one made. */
  function Opened(d: Disk, name: Name): (Disk, nat)
    requires Sound(d)
  {
    if name in d.names then (d.(bytes := d.bytes[d.names[name] := []]), d.names[name])
    else (Disk(d.names[name := |d.bytes|], d.bytes + [[]]), |d.bytes|)
  }

  function Appended(d: Disk, file: nat, data: Bytes): Disk
    requires file < |d.bytes|
  {
    d.(bytes := d.bytes[file := d.bytes[file] + data])
  }

  /** Rename, replacing whatever had the new name. */
  function Moved(d: Disk, from: Name, to: Name): Disk
    requires from in d.names
  {
    d.(names := (d.names - {from})[to := d.names[from]])
  }

  function Unlinked(d: Disk, name: Name): Disk {
    d.(names := d.names - {name})
  }

  // ---------------------------------------------------------------- what an accepted piece does

  /** An open file and what its digest has seen. */
  datatype Handle = Handle(file: nat, digested: Bytes)

  /** The directory and the files that are open, by the name they will have. */
  datatype Desk = Desk(disk: Disk, open: map<Name, Handle>)

  const EMPTY_DESK := Desk(BLANK, map[])

  /** Every open file exists, and something has its partial name. */
  ghost predicate Usable(desk: Desk) {
    && Sound(desk.disk)
    && (forall name | name in desk.open ::
          desk.open[name].file < |desk.disk.bytes| && Partial(name) in desk.disk.names)
  }

  /** The file of this piece is opened, unless it is open. */
  function Ready(desk: Desk, name: Name): (r: Desk)
    requires Usable(desk)
    ensures Usable(r) && name in r.open
  {
    if name in desk.open then desk
    else
      var (disk, file) := Opened(desk.disk, Partial(name));
      Desk(disk, desk.open[name := Handle(file, [])])
  }

  /** The data is written to the open file and digested. */
  function Fed(desk: Desk, name: Name, data: Bytes): (r: Desk)
    requires Usable(desk) && name in desk.open
    ensures Usable(r) && name in r.open
  {
    var handle := desk.open[name];
    Desk(Appended(desk.disk, handle.file, data),
         desk.open[name := handle.(digested := handle.digested + data)])
  }

  /** The file is closed, and whatever has its partial name gets its name. */
  function Finished(desk: Desk, name: Name): (r: Desk)
    requires Usable(desk) && name in desk.open
    ensures Usable(r)
  {
    var r := Desk(Moved(desk.disk, Partial(name), name), desk.open - {name});
    MovedIsUsable(desk, name);
    r
  }

  lemma MovedIsUsable(desk: Desk, name: Name)
    requires Usable(desk) && name in desk.open
    ensures Usable(Desk(Moved(desk.disk, Partial(name), name), desk.open - {name}))
  {
    forall other | other in desk.open && other != name ensures Partial(other) != Partial(name) {
      PartialIsInjective(other, name);
    }
  }

  function After(desk: Desk, c: Chunk): (r: Desk)
    requires Usable(desk)
    ensures Usable(r)
  {
    var fed := Fed(Ready(desk, c.name), c.name, c.data);
    if c.last then Finished(fed, c.name) else fed
  }

  function AfterAll(chunks: seq<Chunk>): (r: Desk)
    ensures Usable(r)
  {
    if chunks == [] then EMPTY_DESK else After(AfterAll(chunks[..|chunks| - 1]), chunks[|chunks| - 1])
  }

  // ---------------------------------------------------------------- what should be there

  /** The piece opens a file, or belongs to one that is open. */
  predicate OpenAfter(chunks: seq<Chunk>, name: Name) {
    chunks != [] &&
    var c := chunks[|chunks| - 1];
    if c.name == name then !c.last else OpenAfter(chunks[..|chunks| - 1], name)
  }

  /** Everything of this file since its last piece, if any. */
  function Since(chunks: seq<Chunk>, name: Name): Bytes {
    if chunks == [] then []
    else
      var c := chunks[|chunks| - 1];
      var front := Since(chunks[..|chunks| - 1], name);
      if c.name != name then front else if c.last then [] else front + c.data
  }

  /** The file as its latest last piece left it. */
  function Complete(chunks: seq<Chunk>, name: Name): Option<Bytes> {
    if chunks == [] then None
    else
      var front, c := chunks[..|chunks| - 1], chunks[|chunks| - 1];
      if c.name == name && c.last then Some(Since(front, name) + c.data) else Complete(front, name)
  }

  /** All the pieces of one file, in the order in which they came. */
  function Own(chunks: seq<Chunk>, name: Name): Bytes {
    if chunks == [] then []
    else
      var c := chunks[|chunks| - 1];
      Own(chunks[..|chunks| - 1], name) + if c.name == name then c.data else []
  }

  /** Some last piece of this file has come. */
  predicate Ended(chunks: seq<Chunk>, name: Name) {
    chunks != [] &&
    var c := chunks[|chunks| - 1];
    ((c.name == name && c.last) || Ended(chunks[..|chunks| - 1], name))
  }

  /** Nothing of a file comes after its last piece. */
  predicate NothingAfterLast(chunks: seq<Chunk>) {
    chunks == [] ||
    var front := chunks[..|chunks| - 1];
    (NothingAfterLast(front) && !Ended(front, chunks[|chunks| - 1].name))
  }

  lemma {:induction false} SinceIsOwn(chunks: seq<Chunk>, name: Name)
    requires !Ended(chunks, name)
    ensures Since(chunks, name) == Own(chunks, name)
  {
    if chunks != [] { SinceIsOwn(chunks[..|chunks| - 1], name); }
  }

  /**
   However the pieces of different files are interleaved: if nothing of a file follows its last piece,
   what is complete of it is all its pieces in their order, and nothing of it is left open.
   */
  lemma {:induction false} CompleteIsOwn(chunks: seq<Chunk>, name: Name)
    requires NothingAfterLast(chunks) && Ended(chunks, name)
    ensures Complete(chunks, name) == Some(Own(chunks, name)) && !OpenAfter(chunks, name)
  {
    var front := chunks[..|chunks| - 1];
    if chunks[|chunks| - 1].name == name {
      SinceIsOwn(front, name);
    } else {
      CompleteIsOwn(front, name);
      assert Own(front, name) + [] == Own(front, name);
    }
  }

  // ---------------------------------------------------------------- one more piece

  lemma OneMoreChunk(chunks: seq<Chunk>, c: Chunk, name: Name)
    ensures OpenAfter(chunks + [c], name) == if c.name == name then !c.last else OpenAfter(chunks, name)
    ensures Since(chunks + [c], name)
         == if c.name != name then Since(chunks, name) else if c.last then [] else Since(chunks, name) + c.data
    ensures Complete(chunks + [c], name)
         == if c.name == name && c.last then Some(Since(chunks, name) + c.data) else Complete(chunks, name)
  {
    assert (chunks + [c])[..|chunks|] == chunks;
  }

  lemma {:induction false} ClosedIsEmpty(chunks: seq<Chunk>, name: Name)
    ensures !OpenAfter(chunks, name) ==> Since(chunks, name) == []
  {
    if chunks != [] { ClosedIsEmpty(chunks[..|chunks| - 1], name); }
  }

  // ---------------------------------------------------------------- what is digested

  /** What the digests have seen is what came of each file since its last piece, whatever is on the disk. */
  ghost predicate Digests(desk: Desk, chunks: seq<Chunk>) {
    && (forall name :: name in desk.open <==> OpenAfter(chunks, name))
    && (forall name | name in desk.open :: desk.open[name].digested == Since(chunks, name))
  }

  /** What a file's digest has seen, if it is open. */
  function Digested(desk: Desk, name: Name): Bytes {
    if name in desk.open then desk.open[name].digested else []
  }

  lemma AfterDigested(desk: Desk, c: Chunk, name: Name)
    requires Usable(desk)
    ensures name in After(desk, c).open <==> if name == c.name then !c.last else name in desk.open
    ensures name != c.name ==> Digested(After(desk, c), name) == Digested(desk, name)
    ensures !c.last ==> Digested(After(desk, c), c.name) == Digested(desk, c.name) + c.data
  {
    hide Opened, Appended, Moved, Usable;
  }

  lemma AfterDigests(desk: Desk, chunks: seq<Chunk>, c: Chunk)
    requires Usable(desk) && Digests(desk, chunks)
    ensures Digests(After(desk, c), chunks + [c])
  {
    hide After, OpenAfter, Since, Usable;
    ClosedIsEmpty(chunks, c.name);
    var after, more := After(desk, c), chunks + [c];
    forall name
      ensures name in after.open <==> OpenAfter(more, name)
      ensures name in after.open ==> after.open[name].digested == Since(more, name)
    {
      OneMoreChunk(chunks, c, name);
      AfterDigested(desk, c, name);
    }
  }

  lemma {:induction false} AllDigests(chunks: seq<Chunk>)
    ensures Digests(AfterAll(chunks), chunks)
  {
    if chunks != [] {
      var front, c := chunks[..|chunks| - 1], chunks[|chunks| - 1];
      AllDigests(front);
      AfterDigests(AfterAll(front), front, c);
      assert chunks == front + [c];
    }
  }

  // ---------------------------------------------------------------- what is on the disk

  /** Every open file is still the one its partial name leads to. */
  ghost predicate Linked(desk: Desk)
    requires Usable(desk)
  {
    forall name | name in desk.open ::
      && desk.disk.names[Partial(name)] == desk.open[name].file
      && desk.disk.bytes[desk.open[name].file] == desk.open[name].digested
  }

  /** The piece is the last of a file that has the partial name of an open one. */
  predicate Clashes(desk: Desk, c: Chunk) {
    c.last && exists other :: other in desk.open && other != c.name && Partial(other) == c.name
  }

  lemma OpenedContents(d: Disk, name: Name)
    requires Sound(d)
    ensures var (e, file) := Opened(d, name);
            && Sound(e) && file < |e.bytes| && e.bytes[file] == []
            && e.names.Keys == d.names.Keys + {name} && e.names[name] == file
            && forall other | other in d.names && other != name ::
                 e.names[other] == d.names[other] && e.bytes[e.names[other]] == d.bytes[d.names[other]]
  {
  }

  lemma ReadyContents(desk: Desk, name: Name, path: Name)
    requires Usable(desk) && Linked(desk)
    ensures var ready := Ready(desk, name);
            && Linked(ready)
            && Contents(ready.disk, path)
               == if path == Partial(name) then Some(Digested(desk, name))
                  else Contents(desk.disk, path)
  {
    if name in desk.open {
      LinkedIsDigested(desk, name);
    } else {
      OpenedContents(desk.disk, Partial(name));
      OpenedIsLinked(desk, name);
    }
  }

  lemma LinkedIsDigested(desk: Desk, name: Name)
    requires Usable(desk) && Linked(desk) && name in desk.open
    ensures Contents(desk.disk, Partial(name)) == Some(Digested(desk, name))
  {
  }

  lemma OpenedIsLinked(desk: Desk, name: Name)
    requires Usable(desk) && Linked(desk) && name !in desk.open
    ensures Linked(Ready(desk, name)) && Digested(desk, name) == []
  {
    OpenedContents(desk.disk, Partial(name));
    hide Partial;
    forall other | other in desk.open ensures Partial(other) != Partial(name) {
      PartialIsInjective(other, name);
    }
  }

  lemma FedContents(desk: Desk, name: Name, data: Bytes, path: Name)
    requires Usable(desk) && Linked(desk) && name in desk.open
    ensures var fed := Fed(desk, name, data);
            && Linked(fed)
            && Contents(fed.disk, path)
               == if path == Partial(name) then Some(desk.open[name].digested + data) else Contents(desk.disk, path)
  {
    forall other | other in desk.open && other != name ensures Partial(other) != Partial(name) {
      PartialIsInjective(other, name);
    }
  }

  lemma FinishedContents(desk: Desk, name: Name, path: Name)
    requires Usable(desk) && Linked(desk) && name in desk.open
    ensures (forall other | other in desk.open && other != name :: Partial(other) != name) ==>
              Linked(Finished(desk, name))
    ensures Contents(Finished(desk, name).disk, path)
         == if path == name then Some(desk.open[name].digested)
            else if path == Partial(name) then None else Contents(desk.disk, path)
  {
    PartialIsInjective(name, name);
    forall other | other in desk.open && other != name ensures Partial(other) != Partial(name) {
      PartialIsInjective(other, name);
    }
  }

  /** One accepted piece: the bytes of its file so far, under its own name or its partial one; nothing else changes. */
  lemma AfterContents(desk: Desk, c: Chunk, path: Name)
    requires Usable(desk) && Linked(desk)
    ensures !Clashes(desk, c) ==> Linked(After(desk, c))
    ensures var data := Digested(desk, c.name) + c.data;
            Contents(After(desk, c).disk, path)
            == if path == c.name && c.last then Some(data)
               else if path == Partial(c.name) then (if c.last then None else Some(data))
               else Contents(desk.disk, path)
  {
    var ready := Ready(desk, c.name);
    var fed := Fed(ready, c.name, c.data);
    ReadyContents(desk, c.name, path);
    ReadyContents(desk, c.name, Partial(c.name));
    FedContents(ready, c.name, c.data, path);
    FedContents(ready, c.name, c.data, Partial(c.name));
    FinishedContents(fed, c.name, path);
    hide Opened, Moved, Appended, Linked, Usable, Contents;
  }

  /** No declared name is another's partial name. */
  ghost predicate Apart(names: set<Name>) {
    forall a, b | a in names && b in names :: a != Partial(b)
  }

  ghost predicate Among(chunks: seq<Chunk>, names: set<Name>) {
    forall c | c in chunks :: c.name in names
  }

  /** Every file is on the disk as its pieces make it: complete under its name, open under its partial one. */
  ghost predicate Shows(desk: Desk, chunks: seq<Chunk>, name: Name)
    requires Usable(desk)
  {
    && Contents(desk.disk, name) == Complete(chunks, name)
    && Contents(desk.disk, Partial(name)) == if OpenAfter(chunks, name) then Some(Since(chunks, name)) else None
  }

  lemma AfterShows(desk: Desk, chunks: seq<Chunk>, c: Chunk, names: set<Name>, name: Name)
    requires Usable(desk) && Linked(desk) && Digests(desk, chunks) && Shows(desk, chunks, name)
    requires Apart(names) && name in names && c.name in names
    ensures Shows(After(desk, c), chunks + [c], name)
  {
    ClosedIsEmpty(chunks, c.name);
    OneMoreChunk(chunks, c, name);
    AfterContents(desk, c, name);
    AfterContents(desk, c, Partial(name));
    PartialIsInjective(name, c.name);
    hide After, Contents, OpenAfter, Since, Complete, Linked, Usable;
  }

  lemma {:induction false} AllShows(chunks: seq<Chunk>, names: set<Name>)
    requires Apart(names) && Among(chunks, names)
    ensures Linked(AfterAll(chunks)) && forall name | name in names :: Shows(AfterAll(chunks), chunks, name)
  {
    if chunks != [] {
      var front, c := chunks[..|chunks| - 1], chunks[|chunks| - 1];
      assert chunks == front + [c];
      AllShows(front, names);
      AllDigests(front);
      var desk := AfterAll(front);
      hide After, Shows, Linked, Usable, Since;
      assert !Clashes(desk, c) by { OpenAreAmong(desk, front, names); }
      AfterContents(desk, c, c.name);
      forall name | name in names ensures Shows(AfterAll(chunks), chunks, name) {
        AfterShows(desk, front, c, names, name);
      }
    }
  }

  lemma OpenAreAmong(desk: Desk, chunks: seq<Chunk>, names: set<Name>)
    requires Digests(desk, chunks) && Among(chunks, names)
    ensures desk.open.Keys <= names
  {
    forall name | name in desk.open ensures name in names { OpenWasNamed(chunks, name); }
  }

  /**
   Names decide: whatever pieces come, every file ends up as its own pieces make it, if and only if no
   declared name is another's partial name.
   */
  lemma NamesMustBeApart(names: set<Name>)
    ensures Apart(names) <==>
              forall chunks, name | Among(chunks, names) && name in names :: Shows(AfterAll(chunks), chunks, name)
  {
    if Apart(names) {
      forall chunks, name | Among(chunks, names) && name in names ensures Shows(AfterAll(chunks), chunks, name) {
        AllShows(chunks, names);
      }
    } else {
      var b, a :| b in names && a in names && b == Partial(a);
      var chunks := [Chunk(b, [], true), Chunk(a, [], true)];
      assert Among(chunks, names);
      OneFileTakesAnother(a, [], []);
    }
  }

  lemma AfterOne(chunks: seq<Chunk>, c: Chunk)
    ensures AfterAll(chunks + [c]) == After(AfterAll(chunks), c)
  {
    assert (chunks + [c])[..|chunks|] == chunks;
  }

  /**
   One file is complete; another of which it has the partial name is opened over it and takes it along.
   Every piece was accepted, and one declared file is gone.
   */
  lemma OneFileTakesAnother(a: Name, first: Bytes, second: Bytes)
    ensures var b := Partial(a);
            var chunks := [Chunk(b, first, true), Chunk(a, second, true)];
            && Contents(AfterAll(chunks).disk, a) == Some(second) && Contents(AfterAll(chunks).disk, b) == None
            && Complete(chunks, b) == Some(first) && !Shows(AfterAll(chunks), chunks, b)
  {
    var b := Partial(a);
    var one, two := Chunk(b, first, true), Chunk(a, second, true);
    PartialIsInjective(a, b);
    hide After, AfterAll, OpenAfter, Since, Complete, Contents, Usable;
    assert [one] == [] + [one] && [one, two] == [one] + [two];
    AfterOne([], one);
    AfterOne([one], two);
    NothingYet(b);
    OneMoreChunk([], one, b);
    OneMoreChunk([one], two, b);
    var desk := AfterAll([one]);
    AfterContents(EMPTY_DESK, one, b);
    AfterDigested(EMPTY_DESK, one, a);
    AfterContents(desk, two, a);
    AfterContents(desk, two, b);
    assert [] + first == first && [] + second == second;
  }

  lemma NoContents(path: Name)
    ensures Usable(EMPTY_DESK) && Contents(EMPTY_DESK.disk, path) == None
  {
  }

  lemma NothingYet(name: Name)
    ensures AfterAll([]) == EMPTY_DESK && Usable(EMPTY_DESK) && Linked(EMPTY_DESK)
    ensures Digested(EMPTY_DESK, name) == [] == Since([], name) && Complete([], name) == None && !OpenAfter([], name)
  {
  }

  /**
   One file is open while another, which has its partial name, is completed: finishing the first renames
   the second's bytes, and its own are nowhere.
   */
  lemma OneFileGetsAnothersBytes(a: Name, first: Bytes, second: Bytes, third: Bytes)
    ensures var b := Partial(a);
            var chunks := [Chunk(a, first, false), Chunk(b, second, true), Chunk(a, third, true)];
            && Contents(AfterAll(chunks).disk, a) == Some(second) && Contents(AfterAll(chunks).disk, b) == None
            && Complete(chunks, b) == Some(second) && Complete(chunks, a) == Some(first + third)
  {
    var b := Partial(a);
    var one, two, three := Chunk(a, first, false), Chunk(b, second, true), Chunk(a, third, true);
    hide Partial, Moved, Opened, Appended;
    NoContents(Partial(b));
    PartialIsInjective(a, b);
    PartialIsInjective(b, b);
    ThreePieces(one, two, three);
    assert [] + first == first && [] + second == second;
    var desk1, desk2 := AfterAll([one]), AfterAll([one, two]);
    hide After, AfterAll, OpenAfter, Since, Complete, Contents, Usable, Linked;
    NothingYet(a);
    NothingYet(b);
    AfterContents(EMPTY_DESK, one, b);
    AfterContents(EMPTY_DESK, one, Partial(b));
    AfterDigested(EMPTY_DESK, one, a);
    AfterDigested(EMPTY_DESK, one, b);
    AfterContents(desk1, two, b);
    AfterDigested(desk1, two, a);
    NameGetsAnotherFile(desk1, two, a);
    FinishTakesWhatIsThere(desk2, three);
  }

  /** Of three pieces, the first and the last of one file and the second all of another. */
  lemma ThreePieces(one: Chunk, two: Chunk, three: Chunk)
    requires one.name == three.name != two.name && !one.last && two.last && three.last
    ensures Complete([one, two, three], one.name) == Some(one.data + three.data)
    ensures Complete([one, two, three], two.name) == Some(two.data)
    ensures AfterAll([one]) == After(AfterAll([]), one) && AfterAll([one, two]) == After(AfterAll([one]), two)
    ensures AfterAll([one, two, three]) == After(AfterAll([one, two]), three)
  {
    assert [one] == [] + [one] && [one, two] == [one] + [two] && [one, two, three] == [one, two] + [three];
    AfterOne([], one);
    AfterOne([one], two);
    AfterOne([one, two], three);
    assert [] + one.data == one.data && [] + two.data == two.data;
    assert Since([], one.name) == [] == Since([], two.name);
    hide After, AfterAll, OpenAfter, Since, Complete;
    OneMoreChunk([], one, one.name);
    OneMoreChunk([], one, two.name);
    OneMoreChunk([one], two, one.name);
    OneMoreChunk([one], two, two.name);
    OneMoreChunk([one, two], three, one.name);
    OneMoreChunk([one, two], three, two.name);
  }

  /** A file that is completed under the partial name of an open one: that name leads to it from now on. */
  lemma NameGetsAnotherFile(desk: Desk, c: Chunk, name: Name)
    requires Usable(desk) && Linked(desk) && c.last && c.name == Partial(name) && name in desk.open && name != c.name
    requires c.name !in desk.open && Contents(desk.disk, Partial(c.name)) == None
    ensures name in After(desk, c).open
    ensures After(desk, c).disk.names[Partial(name)] != After(desk, c).open[name].file
  {
    PartialIsInjective(c.name, c.name);
  }

  /** A file that lost its partial name gets the bytes of whoever has it. */
  lemma FinishTakesWhatIsThere(desk: Desk, c: Chunk)
    requires Usable(desk) && c.last && c.name in desk.open
    requires desk.disk.names[Partial(c.name)] != desk.open[c.name].file
    ensures Contents(After(desk, c).disk, c.name) == Contents(desk.disk, Partial(c.name))
    ensures Contents(After(desk, c).disk, Partial(c.name)) == None
  {
    PartialIsInjective(c.name, c.name);
  }

  // ---------------------------------------------------------------- as declared

  predicate AsDeclared(data: Bytes, d: Declared, digest: Digest) {
    (d.size != 0 ==> |data| == d.size) && (d.digest != "" ==> digest(data) == d.digest)
  }

  /** Every piece was for a declared file, and whatever a last piece completed was as declared. */
  ghost predicate Accepted(chunks: seq<Chunk>, wanted: map<Name, Declared>, digest: Digest) {
    && Among(chunks, wanted.Keys)
    && forall k | 0 <= k < |chunks| && chunks[k].last ::
         AsDeclared(Since(chunks[..k], chunks[k].name) + chunks[k].data, wanted[chunks[k].name], digest)
  }

  /** One more accepted piece. */
  lemma OneMoreAccepted(chunks: seq<Chunk>, c: Chunk, wanted: map<Name, Declared>, digest: Digest)
    requires Accepted(chunks, wanted, digest) && c.name in wanted
    requires c.last ==> AsDeclared(Since(chunks, c.name) + c.data, wanted[c.name], digest)
    ensures Accepted(chunks + [c], wanted, digest)
  {
    var all := chunks + [c];
    hide AsDeclared, Since;
    forall k | 0 <= k < |all| && all[k].last
      ensures AsDeclared(Since(all[..k], all[k].name) + all[k].data, wanted[all[k].name], digest)
    {
      assert all[..k] == chunks[..k];
      if k < |chunks| { assert all[k] == chunks[k]; }
    }
  }

  lemma {:induction false} CompleteIsAsDeclared(chunks: seq<Chunk>, wanted: map<Name, Declared>, digest: Digest,
                                               name: Name)
    requires Accepted(chunks, wanted, digest) && name in wanted && Complete(chunks, name).Some?
    ensures AsDeclared(Complete(chunks, name).value, wanted[name], digest)
  {
    hide AsDeclared;
    var front, c := chunks[..|chunks| - 1], chunks[|chunks| - 1];
    if c.name == name && c.last {
    } else {
      assert Accepted(front, wanted, digest) by {
        forall k | 0 <= k < |front| && front[k].last
          ensures AsDeclared(Since(front[..k], front[k].name) + front[k].data, wanted[front[k].name], digest)
        {
          assert front[k] == chunks[k] && front[..k] == chunks[..k];
        }
      }
      CompleteIsAsDeclared(front, wanted, digest, name);
    }
  }

  /** Everything declared has come, nothing else, and each file as declared. */
  ghost predicate Received(chunks: seq<Chunk>, wanted: map<Name, Declared>, digest: Digest) {
    Accepted(chunks, wanted, digest) && forall name | name in wanted :: Ended(chunks, name)
  }

  /**
   With names apart, everything received is on the disk under its own name and as declared, and a
   partial file is left exactly where more came. If nothing of a file came after its last piece, each
   is its own pieces in order and no partial file is left.
   */
  lemma ReceivedIsOwn(chunks: seq<Chunk>, wanted: map<Name, Declared>, digest: Digest, name: Name)
    requires Apart(wanted.Keys) && Received(chunks, wanted, digest) && name in wanted
    ensures var disk := AfterAll(chunks).disk;
            && Contents(disk, name).Some? && AsDeclared(Contents(disk, name).value, wanted[name], digest)
            && (Contents(disk, Partial(name)).Some? <==> OpenAfter(chunks, name))
            && (NothingAfterLast(chunks) ==>
                  Contents(disk, name) == Some(Own(chunks, name)) && Contents(disk, Partial(name)) == None)
  {
    AllShows(chunks, wanted.Keys);
    CompleteHasEnded(chunks, name);
    CompleteIsAsDeclared(chunks, wanted, digest, name);
    if NothingAfterLast(chunks) { CompleteIsOwn(chunks, name); }
  }

  lemma {:induction false} OpenWasNamed(chunks: seq<Chunk>, name: Name)
    requires OpenAfter(chunks, name)
    ensures exists c :: c in chunks && c.name == name
  {
    if chunks[|chunks| - 1].name != name {
      OpenWasNamed(chunks[..|chunks| - 1], name);
      var c :| c in chunks[..|chunks| - 1] && c.name == name;
      assert c in chunks;
    } else {
      assert chunks[|chunks| - 1] in chunks;
    }
  }

  lemma {:induction false} CompleteHasEnded(chunks: seq<Chunk>, name: Name)
    ensures Complete(chunks, name).Some? <==> Ended(chunks, name)
  {
    if chunks != [] { CompleteHasEnded(chunks[..|chunks| - 1], name); }
  }

  /**
   A piece too many: after both files are complete, another piece of the first would leave a partial file
   behind although everything was received, were it read before the last piece of the second.
   */
  lemma PieceAfterLastIsLeft(a: Name, b: Name, data: Bytes)
    requires a != b
    ensures var chunks := [Chunk(a, data, true), Chunk(a, data, false), Chunk(b, data, true)];
            && Ended(chunks, a) && Ended(chunks, b) && OpenAfter(chunks, a)
            && Complete(chunks, a) == Some(data)
  {
    var one, two := [Chunk(a, data, true)], [Chunk(a, data, true), Chunk(a, data, false)];
    assert two == one + [Chunk(a, data, false)] && one == [] + [Chunk(a, data, true)];
    assert [Chunk(a, data, true), Chunk(a, data, false), Chunk(b, data, true)] == two + [Chunk(b, data, true)];
    OneMoreChunk([], Chunk(a, data, true), a);
    OneMoreChunk(one, Chunk(a, data, false), a);
    OneMoreChunk(two, Chunk(b, data, true), a);
    OneMoreChunk(two, Chunk(b, data, true), b);
    assert [] + data == data;
    CompleteHasEnded(two + [Chunk(b, data, true)], a);
    CompleteHasEnded(two + [Chunk(b, data, true)], b);
    hide Complete, Since, OpenAfter;
  }
}
