/**
 Filling a stage's parameters from a checkpoint. The experts of a layer are held fused, one tensor for
 all of them, and are written piece by piece; the loader only counts the writes.
 */
module Experts {
  import opened Wrappers
  import opened FiniteSets
  import ShardKeys

  datatype Projection = Gate | Up | Down

  /** A parameter or tensor by its local name: one expert's, a fused one, or any other. */
  datatype Name =
    | Plain(text: string)
    | Part(base: string, expert: nat, projection: Projection)
    | Fused(base: string, down: bool)

  /** Where a tensor goes: the whole parameter, one expert's row, or one half of that row. */
  datatype Slot = Whole | Row(expert: nat) | Half(expert: nat, upper: bool)

  datatype LoadError = NoSuchExpert | HeadNotFound | NoEmbeddings | Unfilled(name: Name) | NothingMatched

  /** A stage's parameters and buffers, with how many rows each has: the experts, for a fused one. */
  type Targets = map<Name, nat>

  /** A tensor of the files: its key there, and the stage's local name for it, if it is this stage's. */
  datatype Tensor = Tensor(key: string, local: Option<Name>)

  const HEAD := Plain(ShardKeys.HEAD)

  /** The fused parameter one expert's tensor belongs to, if the model holds its experts fused. */
  function FusedSlot(name: Name, targets: Targets): Option<(Name, Slot)> {
    if !name.Part? then None
    else
      var fused := Fused(name.base, name.projection.Down?);
      if fused !in targets then None
      else Some((fused, match name.projection
                        case Down => Row(name.expert)
                        case Gate => Half(name.expert, false)
                        case Up => Half(name.expert, true)))
  }

  /** Where a tensor goes, if anywhere. */
  function Place(tensor: Tensor, targets: Targets): Option<(Name, Slot)> {
    if tensor.local.None? then None
    else if tensor.local.value in targets then Some((tensor.local.value, Whole))
    else FusedSlot(tensor.local.value, targets)
  }

  /** A row that the fused tensor does not have: writing there raises. */
  predicate OutOfRange(place: (Name, Slot), targets: Targets) {
    place.0 in targets
    && match place.1
       case Whole => false
       case Row(e) => e >= targets[place.0]
       case Half(e, _) => e >= targets[place.0]
  }

  /** How many writes a parameter is expected to get. */
  function Expected(name: Name, rows: nat): nat {
    match name
    case Fused(_, down) => if down then rows else 2 * rows
    case _ => 1
  }

  /** All the pieces of a parameter. */
  function Pieces(name: Name, rows: nat): set<Slot> {
    match name
    case Fused(_, down) =>
      if down then set e: nat | e < rows :: Row(e)
      else (set e: nat | e < rows :: Half(e, false)) + (set e: nat | e < rows :: Half(e, true))
    case _ => {Whole}
  }

  /** Every value of the parameter came from the checkpoint. */
  predicate Covered(name: Name, rows: nat, written: set<Slot>) {
    Whole in written || Pieces(name, rows) <= written
  }

  // ---------------------------------------------------------------- counting is covering

  lemma {:induction false} ManyRows(rows: nat)
    ensures |set e: nat | e < rows :: Row(e)| == rows
  {
    if rows > 0 {
      ManyRows(rows - 1);
      assert (set e: nat | e < rows :: Row(e)) == (set e: nat | e < rows - 1 :: Row(e)) + {Row(rows - 1)};
    }
  }

  lemma {:induction false} ManyHalves(rows: nat, upper: bool)
    ensures |set e: nat | e < rows :: Half(e, upper)| == rows
  {
    if rows > 0 {
      ManyHalves(rows - 1, upper);
      assert (set e: nat | e < rows :: Half(e, upper))
          == (set e: nat | e < rows - 1 :: Half(e, upper)) + {Half(rows - 1, upper)};
    }
  }

  lemma ManyPieces(name: Name, rows: nat)
    ensures |Pieces(name, rows)| == Expected(name, rows)
  {
    match name
    case Fused(_, down) =>
      ManyRows(rows);
      ManyHalves(rows, false);
      ManyHalves(rows, true);
      var lower, upper := set e: nat | e < rows :: Half(e, false), set e: nat | e < rows :: Half(e, true);
      assert lower !! upper;
    case _ =>
  }

  /**
   Pigeonhole: distinct pieces, none of them out of range and none the whole, cover the parameter if and
   only if there are as many as expected.
   */
  lemma EnoughPiecesCover(name: Name, rows: nat, written: set<Slot>)
    requires written <= Pieces(name, rows)
    ensures Pieces(name, rows) <= written <==> |written| >= Expected(name, rows)
  {
    ManyPieces(name, rows);
    if |written| >= Expected(name, rows) {
      SubsetOfSameSize(written, Pieces(name, rows));
    } else if Pieces(name, rows) <= written {
      SubsetIsSmaller(Pieces(name, rows), written);
    }
  }

  // ---------------------------------------------------------------- what was written

  predicate GoesTo(tensor: Tensor, targets: Targets, target: Name) {
    Place(tensor, targets).Some? && Place(tensor, targets).value.0 == target
  }

  /** What the tensors write into one parameter. */
  function Writes(tensors: seq<Tensor>, targets: Targets, target: Name): set<Slot> {
    set k | 0 <= k < |tensors| && GoesTo(tensors[k], targets, target) :: Place(tensors[k], targets).value.1
  }

  /** How often they write into it. */
  function Count(tensors: seq<Tensor>, targets: Targets, target: Name): nat {
    if tensors == [] then 0
    else
      var most := tensors[..|tensors| - 1];
      Count(most, targets, target) + if GoesTo(tensors[|tensors| - 1], targets, target) then 1 else 0
  }

  /** No piece of the parameter is written twice. */
  predicate Once(tensors: seq<Tensor>, targets: Targets, target: Name) {
    forall i, j | 0 <= i < j < |tensors| && GoesTo(tensors[i], targets, target) ::
      Place(tensors[i], targets) != Place(tensors[j], targets)
  }

  /** Different local names never lead to the same piece of the same parameter. */
  lemma PlacesAreDistinct(a: Tensor, b: Tensor, targets: Targets)
    requires Place(a, targets).Some? && Place(a, targets) == Place(b, targets)
    ensures a.local == b.local
  {
  }

  /** No two of the tensors that go anywhere have the same local name. */
  predicate NamesDiffer(tensors: seq<Tensor>, targets: Targets) {
    forall i, j | 0 <= i < j < |tensors| && Place(tensors[i], targets).Some? :: tensors[i].local != tensors[j].local
  }

  /** No piece of any parameter is written twice if and only if no local name comes twice among the files. */
  lemma NamesDecideWrites(tensors: seq<Tensor>, targets: Targets)
    ensures NamesDiffer(tensors, targets) <==> forall target :: Once(tensors, targets, target)
  {
    if NamesDiffer(tensors, targets) {
      forall target, i, j | 0 <= i < j < |tensors| && GoesTo(tensors[i], targets, target)
        ensures Place(tensors[i], targets) != Place(tensors[j], targets)
      {
        if Place(tensors[i], targets) == Place(tensors[j], targets) {
          PlacesAreDistinct(tensors[i], tensors[j], targets);
        }
      }
    } else {
      var i, j :| 0 <= i < j < |tensors| && Place(tensors[i], targets).Some? && tensors[i].local == tensors[j].local;
      var target := Place(tensors[i], targets).value.0;
      assert GoesTo(tensors[i], targets, target) && Place(tensors[i], targets) == Place(tensors[j], targets);
      assert !Once(tensors, targets, target);
    }
  }

  /** One more tensor adds its own piece to its own parameter, and nothing to any other. */
  lemma OneMoreWrite(most: seq<Tensor>, tensor: Tensor, targets: Targets, target: Name)
    ensures Writes(most + [tensor], targets, target)
         == Writes(most, targets, target)
            + if GoesTo(tensor, targets, target) then {Place(tensor, targets).value.1} else {}
  {
    var all := most + [tensor];
    forall s ensures s in Writes(all, targets, target)
                <==> s in Writes(most, targets, target)
                     || (GoesTo(tensor, targets, target) && s == Place(tensor, targets).value.1)
    {
      if s in Writes(most, targets, target) {
        var k :| 0 <= k < |most| && GoesTo(most[k], targets, target) && Place(most[k], targets).value.1 == s;
        assert all[k] == most[k];
      }
      if GoesTo(tensor, targets, target) { assert all[|most|] == tensor; }
    }
  }

  /** There are as many writes as pieces written if and only if no piece is written twice, and never fewer. */
  lemma {:induction false} WritesAreCounted(tensors: seq<Tensor>, targets: Targets, target: Name)
    ensures |Writes(tensors, targets, target)| <= Count(tensors, targets, target)
    ensures |Writes(tensors, targets, target)| == Count(tensors, targets, target) <==> Once(tensors, targets, target)
  {
    if tensors == [] {
    } else {
      var n := |tensors| - 1;
      var most, last := tensors[..n], tensors[n];
      assert tensors == most + [last];
      WritesAreCounted(most, targets, target);
      OneMoreWrite(most, last, targets, target);
      OnceMore(most, last, targets, target);
    }
  }

  lemma OnceMore(most: seq<Tensor>, tensor: Tensor, targets: Targets, target: Name)
    ensures Once(most + [tensor], targets, target) <==>
              && Once(most, targets, target)
              && (GoesTo(tensor, targets, target) ==> Place(tensor, targets).value.1 !in Writes(most, targets, target))
  {
    hide Place;
    var all := most + [tensor];
    assert forall k | 0 <= k < |most| :: all[k] == most[k];
    assert all[|most|] == tensor;
    if Once(all, targets, target) {
      forall i, j | 0 <= i < j < |most| && GoesTo(most[i], targets, target)
        ensures Place(most[i], targets) != Place(most[j], targets)
      {
        assert Place(all[i], targets) != Place(all[j], targets);
      }
      forall k | 0 <= k < |most| && GoesTo(most[k], targets, target)
        ensures Place(most[k], targets) != Place(tensor, targets)
      {
        assert Place(all[k], targets) != Place(all[|most|], targets);
      }
    }
  }

  /** Nothing was written where a parameter has no row. */
  predicate InRange(tensors: seq<Tensor>, targets: Targets) {
    forall k | 0 <= k < |tensors| && Place(tensors[k], targets).Some? ::
      !OutOfRange(Place(tensors[k], targets).value, targets)
  }

  lemma WritesAreWholeOrPieces(tensors: seq<Tensor>, targets: Targets, target: Name)
    requires InRange(tensors, targets) && target in targets
    ensures Writes(tensors, targets, target) <= Pieces(target, targets[target]) + {Whole}
  {
    forall s | s in Writes(tensors, targets, target) ensures s in Pieces(target, targets[target]) + {Whole} {
      var k :| 0 <= k < |tensors| && Place(tensors[k], targets) == Some((target, s));
      assert !OutOfRange(Place(tensors[k], targets).value, targets);
    }
  }

  // ---------------------------------------------------------------- the output head

  /** The embeddings are in the files, under one of the two keys looked for. */
  predicate EmbeddingsFound(tensors: seq<Tensor>) {
    exists k :: 0 <= k < |tensors| && EmbeddingsKey(tensors[k].key)
  }

  predicate EmbeddingsKey(key: string) {
    key == "model." + ShardKeys.EMBED || key == ShardKeys.EMBED
  }

  /**
   A checkpoint that has the embeddings once, under its own prefix, has them where they are looked for if
   and only if that prefix is empty or `model.`.
   */
  lemma EmbeddingsNeedAKnownPrefix(tensors: seq<Tensor>, prefix: string, k: nat)
    requires k < |tensors| && tensors[k].key == prefix + ShardKeys.EMBED
    requires forall front: string, i | 0 <= i < |tensors| && tensors[i].key == front + ShardKeys.EMBED ::
               front == prefix
    ensures EmbeddingsFound(tensors) <==> prefix == "" || prefix == "model."
  {
    assert "" + ShardKeys.EMBED == ShardKeys.EMBED;
    if EmbeddingsFound(tensors) {
      var i :| 0 <= i < |tensors| && EmbeddingsKey(tensors[i].key);
      assert tensors[i].key == "" + ShardKeys.EMBED || tensors[i].key == "model." + ShardKeys.EMBED;
    } else {
      assert !EmbeddingsKey(tensors[k].key);
    }
  }

  /** What is written into a parameter in the end: a head that did not come itself is copied from the embeddings. */
  function Written(tensors: seq<Tensor>, targets: Targets, hasHead: bool, name: Name): set<Slot> {
    var writes := Writes(tensors, targets, name);
    if hasHead && name == HEAD && writes == {} && EmbeddingsFound(tensors) then {Whole} else writes
  }

  /** A stage without an output head, one whose head came, or one whose head can be copied. */
  predicate HeadServed(tensors: seq<Tensor>, targets: Targets, hasHead: bool, tied: bool) {
    !hasHead || Writes(tensors, targets, HEAD) != {} || (tied && EmbeddingsFound(tensors))
  }

  /** As many writes as expected; the copy of the embeddings is the one write of its head. */
  predicate EnoughWrites(tensors: seq<Tensor>, targets: Targets, hasHead: bool, name: Name)
    requires name in targets
  {
    (hasHead && name == HEAD) || Count(tensors, targets, name) >= Expected(name, targets[name])
  }

  // ---------------------------------------------------------------- loading

  /** The counts after some tensors. */
  ghost predicate Counted(filled: map<Name, nat>, tensors: seq<Tensor>, targets: Targets) {
    && filled.Keys == targets.Keys
    && forall name | name in targets :: filled[name] == Count(tensors, targets, name)
  }

  lemma CountedNext(filled: map<Name, nat>, tensors: seq<Tensor>, k: nat, targets: Targets)
    requires k < |tensors| && Counted(filled, tensors[..k], targets)
    ensures var place := Place(tensors[k], targets);
            && (place.None? ==> Counted(filled, tensors[..k + 1], targets))
            && (place.Some? ==> place.value.0 in filled)
            && (place.Some? ==>
                  Counted(filled[place.value.0 := filled[place.value.0] + 1], tensors[..k + 1], targets))
  {
    assert tensors[..k + 1][..k] == tensors[..k];
  }

  /**
   Copy every tensor where it goes and count the writes, then copy a head that did not come from the
   embeddings. It succeeds exactly when every write had a row to go to, the head is served, every
   parameter got as many writes as expected, and something was loaded at all. Then every parameter is
   covered, the head included, unless it is fused and one of its pieces was written twice.
   */
  method LoadWeights(tensors: seq<Tensor>, targets: Targets, parameters: set<Name>, hasHead: bool, tied: bool)
    returns (r: Result<nat, LoadError>)
    requires parameters <= targets.Keys && (hasHead ==> HEAD in targets)
    ensures r.Ok? <==> && InRange(tensors, targets)
                       && HeadServed(tensors, targets, hasHead, tied)
                       && (forall name | name in parameters :: EnoughWrites(tensors, targets, hasHead, name))
                       && (exists k :: 0 <= k < |tensors| && Place(tensors[k], targets).Some?)
    ensures r.Ok? ==> forall name | name in parameters && (name.Fused? ==> Once(tensors, targets, name)) ::
                        Covered(name, targets[name], Written(tensors, targets, hasHead, name))
    ensures r == Err(NoSuchExpert) <==> !InRange(tensors, targets)
    ensures r == Err(HeadNotFound) <==>
              InRange(tensors, targets) && hasHead && Writes(tensors, targets, HEAD) == {} && !tied
    ensures r == Err(NoEmbeddings) <==>
              && InRange(tensors, targets) && hasHead && Writes(tensors, targets, HEAD) == {} && tied
              && !EmbeddingsFound(tensors)
    ensures r.Err? && r.error.Unfilled? ==>
              && r.error.name in parameters && (hasHead ==> r.error.name != HEAD)
              && Count(tensors, targets, r.error.name) < Expected(r.error.name, targets[r.error.name])
  {
    hide Place, OutOfRange, Covered, Expected, Writes, Count, Once, Written, EmbeddingsFound;
    var filled: map<Name, nat> := map name | name in targets :: 0;
    var loaded := 0;
    NothingCounted(filled, tensors, targets);
    for k := 0 to |tensors|
      invariant Counted(filled, tensors[..k], targets)
      invariant forall i | 0 <= i < k && Place(tensors[i], targets).Some? ::
                  !OutOfRange(Place(tensors[i], targets).value, targets)
      invariant loaded == 0 <==> forall i | 0 <= i < k :: Place(tensors[i], targets).None?
    {
      var place := Place(tensors[k], targets);
      CountedNext(filled, tensors, k, targets);
      if place.Some? {
        if OutOfRange(place.value, targets) { return Err(NoSuchExpert); }
        filled := filled[place.value.0 := filled[place.value.0] + 1];
        loaded := loaded + 1;
      }
    }
    assert tensors[..|tensors|] == tensors;
    if hasHead {
      HeadIsCounted(tensors, targets);
      if filled[HEAD] == 0 {
        if !tied { return Err(HeadNotFound); }
        var found := FindEmbeddings(tensors);
        if !found { return Err(NoEmbeddings); }
        filled := filled[HEAD := 1];
      }
    }
    var unfilled := FirstUnfilled(targets, parameters, filled);
    if unfilled.Some? { return Err(Unfilled(unfilled.value)); }
    if loaded == 0 { return Err(NothingMatched); }
    forall name | name in parameters && (name.Fused? ==> Once(tensors, targets, name))
      ensures Covered(name, targets[name], Written(tensors, targets, hasHead, name))
    {
      EnoughIsCovered(tensors, targets, hasHead, tied, name);
    }
    r := Ok(loaded);
  }

  lemma NothingCounted(filled: map<Name, nat>, tensors: seq<Tensor>, targets: Targets)
    requires filled == map name | name in targets :: 0
    ensures Counted(filled, tensors[..0], targets)
  {
  }

  /** The head is one piece: it came if and only if it was counted, and one write is expected. */
  lemma HeadIsCounted(tensors: seq<Tensor>, targets: Targets)
    requires HEAD in targets
    ensures Count(tensors, targets, HEAD) == 0 <==> Writes(tensors, targets, HEAD) == {}
    ensures Expected(HEAD, targets[HEAD]) == 1
  {
    CountedIsWritten(tensors, targets, HEAD);
  }

  lemma {:induction false} CountedIsWritten(tensors: seq<Tensor>, targets: Targets, target: Name)
    ensures Count(tensors, targets, target) == 0 <==> Writes(tensors, targets, target) == {}
  {
    if tensors == [] {
    } else {
      var n := |tensors| - 1;
      assert tensors == tensors[..n] + [tensors[n]];
      CountedIsWritten(tensors[..n], targets, target);
      OneMoreWrite(tensors[..n], tensors[n], targets, target);
    }
  }

  /** Look for the embeddings under the two keys. */
  method FindEmbeddings(tensors: seq<Tensor>) returns (found: bool)
    ensures found <==> EmbeddingsFound(tensors)
  {
    for k := 0 to |tensors|
      invariant forall i | 0 <= i < k :: !EmbeddingsKey(tensors[i].key)
    {
      if EmbeddingsKey(tensors[k].key) { return true; }
    }
    found := false;
  }

  /** A parameter that did not get all its writes, if there is one. */
  method FirstUnfilled(targets: Targets, parameters: set<Name>, filled: map<Name, nat>) returns (r: Option<Name>)
    requires parameters <= targets.Keys && filled.Keys == targets.Keys
    ensures r.Some? ==> r.value in parameters && filled[r.value] < Expected(r.value, targets[r.value])
    ensures r.None? ==> forall name | name in parameters :: filled[name] >= Expected(name, targets[name])
  {
    var left := parameters;
    while left != {}
      invariant left <= parameters
      invariant forall name | name in parameters && name !in left :: filled[name] >= Expected(name, targets[name])
      decreases left
    {
      var name :| name in left;
      left := left - {name};
      if filled[name] < Expected(name, targets[name]) { return Some(name); }
    }
    r := None;
  }

  lemma EnoughIsCovered(tensors: seq<Tensor>, targets: Targets, hasHead: bool, tied: bool, name: Name)
    requires name in targets && InRange(tensors, targets) && HeadServed(tensors, targets, hasHead, tied)
    requires EnoughWrites(tensors, targets, hasHead, name)
    requires name.Fused? ==> Once(tensors, targets, name)
    ensures Covered(name, targets[name], Written(tensors, targets, hasHead, name))
  {
    var writes := Writes(tensors, targets, name);
    WritesAreWholeOrPieces(tensors, targets, name);
    CountedIsWritten(tensors, targets, name);
    if name.Fused? {
      WritesAreCounted(tensors, targets, name);
      if Whole !in writes { EnoughPiecesCover(name, targets[name], writes); }
    } else if writes != {} {
      var s :| s in writes;
      assert s == Whole;
    }
  }

  // ---------------------------------------------------------------- when counting is not enough

  /**
   The count against what was covered, for a parameter that arrives in pieces: with no piece written
   twice it is short if and only if a piece is missing. Otherwise every repetition is a piece too many:
   a parameter that got exactly as many writes as expected is covered if and only if none was repeated.
   */
  lemma WhenTheCountMisleads(tensors: seq<Tensor>, targets: Targets, name: Name)
    requires InRange(tensors, targets) && name in targets && Whole !in Writes(tensors, targets, name)
    ensures var writes, rows, count := Writes(tensors, targets, name), targets[name], Count(tensors, targets, name);
            && (Once(tensors, targets, name) ==> (count < Expected(name, rows) <==> !Covered(name, rows, writes)))
            && (count == Expected(name, rows) ==> (Covered(name, rows, writes) <==> Once(tensors, targets, name)))
            && (count < Expected(name, rows) ==> !Covered(name, rows, writes))
  {
    WritesAreWholeOrPieces(tensors, targets, name);
    WritesAreCounted(tensors, targets, name);
    EnoughPiecesCover(name, targets[name], Writes(tensors, targets, name));
  }

  /**
   A fused parameter that arrives whole, and only whole, is filled; yet it is refused unless it has one
   piece or none.
   */
  lemma WholeIsRefused(tensors: seq<Tensor>, targets: Targets, name: Name)
    requires InRange(tensors, targets) && name in targets && Writes(tensors, targets, name) == {Whole}
    requires Once(tensors, targets, name)
    ensures Covered(name, targets[name], Writes(tensors, targets, name))
    ensures Count(tensors, targets, name) < Expected(name, targets[name]) <==> Expected(name, targets[name]) > 1
  {
    WritesAreCounted(tensors, targets, name);
  }

  /**
   Two files that hold the same expert: with two experts, one of them twice and the other never, the
   stage starts with a row that was never written.
   */
  lemma RepeatedExpertHidesAnother(base: string, key: string)
    ensures var one := Tensor(key, Some(Part(base, 0, Down)));
            var tensors, targets, name := [one, one], map[Fused(base, true) := 2], Fused(base, true);
            && InRange(tensors, targets)
            && EnoughWrites(tensors, targets, false, name)
            && !Covered(name, 2, Written(tensors, targets, false, name))
  {
    var one := Tensor(key, Some(Part(base, 0, Down)));
    var tensors, targets, name := [one, one], map[Fused(base, true) := 2], Fused(base, true);
    assert Place(one, targets) == Some((name, Row(0)));
    assert tensors[..1] == [one] && [one][..0] == [];
    assert Count([one], targets, name) == 1;
    assert Count(tensors, targets, name) == 2;
    assert Row(1) in Pieces(name, 2);
    assert Row(1) !in Writes(tensors, targets, name);
  }
}
