/** Which stage loads which tensor of a checkpoint, under which local name, and from which files. */
module ShardKeys {
  import opened Wrappers

  /** A tensor's name: a layer's, taken apart, or any other. */
  datatype Key = LayerKey(prefix: string, index: nat, tail: string) | NamedKey(name: string)

  datatype Local = LayerName(index: nat, tail: string) | EmbedWeight | NormWeight | HeadWeight

  const EMBED := "embed_tokens.weight"
  const NORM := "norm.weight"
  const HEAD := "lm_head.weight"

  /** The layers and roles of one stage. */
  datatype Role = Role(startLayer: nat, endLayer: nat, isFirst: bool, isLast: bool)

  /** The stage's local name for a tensor, or nothing if it is somebody else's. */
  function TargetKey(key: Key, role: Role, prefix: string): Option<Local> {
    match key
    case LayerKey(p, index, tail) =>
      if p == prefix && role.startLayer <= index < role.endLayer then Some(LayerName(index - role.startLayer, tail))
      else None
    case NamedKey(name) =>
      if name == prefix + EMBED || name == EMBED then (if role.isFirst then Some(EmbedWeight) else None)
      else if name == prefix + NORM || name == NORM then (if role.isLast then Some(NormWeight) else None)
      else if name == HEAD || name == prefix + HEAD then (if role.isLast then Some(HeadWeight) else None)
      else None
  }

  /** An ordered split of `layers` layers: stage `s` owns `cuts[s]..cuts[s + 1]`. */
  predicate Split(cuts: seq<nat>, layers: nat) {
    && |cuts| >= 2 && cuts[0] == 0 && cuts[|cuts| - 1] == layers
    && forall i, j | 0 <= i <= j < |cuts| :: cuts[i] <= cuts[j]
  }

  function RoleOf(cuts: seq<nat>, stage: nat): Role
    requires stage + 1 < |cuts|
  {
    Role(cuts[stage], cuts[stage + 1], stage == 0, stage + 2 == |cuts|)
  }

  /** A name the loader knows: a layer of the model under its prefix, the embeddings, the norm, or the head. */
  predicate Recognised(key: Key, layers: nat, prefix: string) {
    match key
    case LayerKey(p, index, _) => p == prefix && index < layers
    case NamedKey(name) => name in {prefix + EMBED, EMBED, prefix + NORM, NORM, prefix + HEAD, HEAD}
  }

  // ---------------------------------------------------------------- exactly one owner

  lemma {:induction false} LayerHasAStage(cuts: seq<nat>, layer: nat, upTo: nat) returns (stage: nat)
    requires 0 < upTo < |cuts| && cuts[0] <= layer < cuts[upTo]
    ensures stage < upTo && cuts[stage] <= layer < cuts[stage + 1]
  {
    if cuts[upTo - 1] <= layer {
      stage := upTo - 1;
    } else {
      stage := LayerHasAStage(cuts, layer, upTo - 1);
    }
  }

  lemma LayerHasOneStage(cuts: seq<nat>, layers: nat, layer: nat, a: nat, b: nat)
    requires Split(cuts, layers) && a + 1 < |cuts| && b + 1 < |cuts|
    requires cuts[a] <= layer < cuts[a + 1] && cuts[b] <= layer < cuts[b + 1]
    ensures a == b
  {
  }

  /** The three families of names never meet, whatever the prefix: they differ eight characters from the end. */
  lemma FamiliesAreApart(prefix: string)
    ensures {prefix + EMBED, EMBED} !! {prefix + NORM, NORM}
    ensures {prefix + EMBED, EMBED} !! {prefix + HEAD, HEAD}
    ensures {prefix + NORM, NORM} !! {prefix + HEAD, HEAD}
  {
    forall front: string
      ensures FromEnd(front + EMBED) == 's' && FromEnd(front + NORM) == 'm' && FromEnd(front + HEAD) == 'd'
    {
      EighthFromEnd(front, EMBED);
      EighthFromEnd(front, NORM);
      EighthFromEnd(front, HEAD);
    }
    assert "" + EMBED == EMBED && "" + NORM == NORM && "" + HEAD == HEAD;
    assert FromEnd(EMBED) == 's' && FromEnd(NORM) == 'm' && FromEnd(HEAD) == 'd';
  }

  function FromEnd(name: string): char {
    if |name| < 8 then ' ' else name[|name| - 8]
  }

  lemma EighthFromEnd(front: string, name: string)
    requires |name| >= 8
    ensures FromEnd(front + name) == name[|name| - 8]
  {
  }

  /**
   Every recognised tensor is loaded by exactly one stage of any ordered split, and any other by none.
   */
  lemma ExactlyOneOwner(cuts: seq<nat>, layers: nat, key: Key, prefix: string) returns (owner: nat)
    requires Split(cuts, layers)
    ensures Recognised(key, layers, prefix) ==> owner + 1 < |cuts|
    ensures forall stage: nat | stage + 1 < |cuts| ::
              TargetKey(key, RoleOf(cuts, stage), prefix).Some? <==> Recognised(key, layers, prefix) && stage == owner
  {
    owner := 0;
    match key
    case LayerKey(p, index, _) =>
      if index < layers { owner := LayerHasAStage(cuts, index, |cuts| - 1); }
      forall stage: nat | stage + 1 < |cuts| && cuts[stage] <= index < cuts[stage + 1]
        ensures index < layers && stage == owner
      {
        assert cuts[stage + 1] <= cuts[|cuts| - 1];
        LayerHasOneStage(cuts, layers, index, stage, owner);
      }
    case NamedKey(name) =>
      FamiliesAreApart(prefix);
      owner := if name == prefix + EMBED || name == EMBED then 0 else |cuts| - 2;
  }

  /** A layer's local number and its stage's first layer give the layer back; no two tensors share a local name. */
  lemma LocalNamesGoBack(key: Key, role: Role, prefix: string)
    requires TargetKey(key, role, prefix).Some? && key.LayerKey?
    ensures var local := TargetKey(key, role, prefix).value;
            local.LayerName? && key == LayerKey(prefix, role.startLayer + local.index, local.tail)
            && local.index < role.endLayer - role.startLayer
  {
  }

  /** Embeddings go to a first stage, norm and head to a last one, each under its own local name. */
  lemma NamesGoToTheirRoles(name: string, role: Role, prefix: string)
    ensures TargetKey(NamedKey(name), role, prefix) == Some(EmbedWeight) <==>
              role.isFirst && name in {prefix + EMBED, EMBED}
    ensures TargetKey(NamedKey(name), role, prefix) == Some(NormWeight) <==>
              role.isLast && name in {prefix + NORM, NORM}
    ensures TargetKey(NamedKey(name), role, prefix) == Some(HeadWeight) <==>
              role.isLast && name in {prefix + HEAD, HEAD}
  {
    FamiliesAreApart(prefix);
  }

  // ---------------------------------------------------------------- which files

  /** The first of the two names of the embeddings that the checkpoint has. */
  function TiedFile(weightMap: map<Key, string>): set<string> {
    if NamedKey("model." + EMBED) in weightMap then {weightMap[NamedKey("model." + EMBED)]}
    else if NamedKey(EMBED) in weightMap then {weightMap[NamedKey(EMBED)]}
    else {}
  }

  /**
   A last stage that shares the embeddings finds them only under the two names it looks for: if the
   checkpoint has them once, under its own prefix, that prefix must be empty or `model.`.
   */
  lemma TiedEmbeddingsNeedAKnownPrefix(weightMap: map<Key, string>, prefix: string)
    requires NamedKey(prefix + EMBED) in weightMap
    requires forall front: string | NamedKey(front + EMBED) in weightMap :: front == prefix
    ensures TiedFile(weightMap) == {weightMap[NamedKey(prefix + EMBED)]} <==> prefix == "" || prefix == "model."
    ensures TiedFile(weightMap) == {} <==> !(prefix == "" || prefix == "model.")
  {
    assert "" + EMBED == EMBED;
    if NamedKey(EMBED) in weightMap { assert NamedKey("" + EMBED) in weightMap; }
  }

  /**
   The files of exactly the tensors this stage loads, and, when the head is the embeddings under another
   name, the file of those. Without a known prefix there is no answer.
   */
  method NeededWeightFiles(weightMap: map<Key, string>, role: Role, tied: bool, prefix: Option<string>)
    returns (files: set<string>)
    ensures prefix.None? ==> files == {}
    ensures prefix.Some? ==>
              forall file :: file in files <==>
                || (exists key ::
                      key in weightMap && weightMap[key] == file && TargetKey(key, role, prefix.value).Some?)
                || (role.isLast && tied && NamedKey(HEAD) !in weightMap && file in TiedFile(weightMap))
  {
    files := {};
    if prefix.None? { return; }
    var left := weightMap.Keys;
    while left != {}
      invariant left <= weightMap.Keys
      invariant forall key | key in weightMap && key !in left && TargetKey(key, role, prefix.value).Some? ::
                  weightMap[key] in files
      invariant forall file | file in files ::
                  exists key :: key in weightMap && weightMap[key] == file && TargetKey(key, role, prefix.value).Some?
      decreases left
    {
      var key :| key in left;
      left := left - {key};
      if TargetKey(key, role, prefix.value).Some? {
        files := files + {weightMap[key]};
      }
    }
    if role.isLast && tied && NamedKey(HEAD) !in weightMap {
      files := files + TiedFile(weightMap);
    }
  }
}
