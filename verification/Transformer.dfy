/**
 The model a pipeline serves: a list of layers, each with its own cache.

 Layers, embeddings, the output head and the sampler are left uninterpreted: they
 are fields of function type, so every statement below holds for all of them.
 `Alone` is the reference: one request, one machine, all the layers.
 */
module Transformer {
  import opened Wrappers

  /** One row of hidden state. */
  type Row(==, 00, !new)

  /** What one layer remembers of one request. */
  type Cache(==, 00, !new)

  type Token = int

  /** The randomness one sampling call consumes. */
  type Draw = nat

  datatype Sampling = Sampling(temperature: real, topP: real, seed: Option<int>)

  /** `apply(cache, positions, rows)` is the layer's next cache and its output rows. */
  datatype Layer = Layer(blank: Cache, apply: (Cache, seq<nat>, seq<Row>) -> (Cache, seq<Row>))

  datatype Model = Model(
    embed: Token -> Row,
    layers: seq<Layer>,
    readout: Row -> Row,
    sample: (Row, Sampling, Draw) -> Token)

  /** A layer returns as many rows as it was given. */
  ghost predicate KeepsLength(layer: Layer) {
    forall cache, at, rows :: |layer.apply(cache, at, rows).1| == |rows|
  }

  ghost predicate WellFormed(m: Model) {
    forall k | 0 <= k < |m.layers| :: KeepsLength(m.layers[k])
  }

  datatype Pass = Pass(caches: seq<Cache>, rows: seq<Row>)

  function Fresh(layers: seq<Layer>): (caches: seq<Cache>)
    ensures |caches| == |layers|
  {
    seq(|layers|, k requires 0 <= k < |layers| => layers[k].blank)
  }

  /** Rows through a stack of layers, one after another. */
  function RunLayers(layers: seq<Layer>, caches: seq<Cache>, at: seq<nat>, rows: seq<Row>): (p: Pass)
    requires |caches| == |layers|
    ensures |p.caches| == |layers|
  {
    if layers == [] then Pass([], rows)
    else
      var (cache, out) := layers[0].apply(caches[0], at, rows);
      var rest := RunLayers(layers[1..], caches[1..], at, out);
      Pass([cache] + rest.caches, rest.rows)
  }

  function Positions(from: nat, count: nat): (at: seq<nat>)
    ensures |at| == count
  {
    seq(count, k requires 0 <= k < count => from + k)
  }

  function Embed(m: Model, tokens: seq<Token>): (rows: seq<Row>)
    ensures |rows| == |tokens|
  {
    seq(|tokens|, k requires 0 <= k < |tokens| => m.embed(tokens[k]))
  }

  /** The positions of the step that follows `outs`: the whole prompt first, then one token a step. */
  function StepPositions(prompt: seq<Token>, outs: seq<Token>): (at: seq<nat>) {
    if outs == [] then Positions(0, |prompt|) else [|prompt| + |outs| - 1]
  }

  /** The tokens that step feeds. */
  function StepTokens(prompt: seq<Token>, outs: seq<Token>): (tokens: seq<Token>)
    ensures |tokens| == |StepPositions(prompt, outs)|
  {
    if outs == [] then prompt else [outs[|outs| - 1]]
  }

  /**
   The reference run through the first `depth` layers: after the prompt and the tokens `outs`
   have been fed one step at a time, the caches it holds and the rows of its last step.
   */
  ghost function Alone(m: Model, depth: nat, prompt: seq<Token>, outs: seq<Token>): (p: Pass)
    requires depth <= |m.layers|
    ensures |p.caches| == depth
    decreases |outs|
  {
    var before := if outs == [] then Fresh(m.layers[..depth])
                  else Alone(m, depth, prompt, outs[..|outs| - 1]).caches;
    RunLayers(m.layers[..depth], before, StepPositions(prompt, outs), Embed(m, StepTokens(prompt, outs)))
  }

  /** The caches layers `lo..hi` hold once the prompt and `outs` have been fed. */
  ghost function Held(m: Model, lo: nat, hi: nat, prompt: seq<Token>, outs: seq<Token>): (caches: seq<Cache>)
    requires lo <= hi <= |m.layers|
    ensures |caches| == hi - lo
  {
    Alone(m, hi, prompt, outs).caches[lo..]
  }

  /** The rows that leave layer `depth - 1` on the step that feeds the last of `outs`. */
  ghost function Emitted(m: Model, depth: nat, prompt: seq<Token>, outs: seq<Token>): (rows: seq<Row>)
    requires depth <= |m.layers|
  {
    Alone(m, depth, prompt, outs).rows
  }

  /** The token sampled from the last row of the last layer. */
  function Sampled(m: Model, row: Row, sampling: Sampling, draw: Draw): Token {
    m.sample(m.readout(row), sampling, draw)
  }

  ghost predicate MaySample(m: Model, row: Row, sampling: Sampling, token: Token) {
    exists draw: Draw :: Sampled(m, row, sampling, draw) == token
  }

  /** `token` is one the reference run may sample after `outs`. */
  ghost predicate Picks(m: Model, prompt: seq<Token>, sampling: Sampling, outs: seq<Token>, token: Token) {
    var rows := Emitted(m, |m.layers|, prompt, outs);
    |rows| > 0 && MaySample(m, rows[|rows| - 1], sampling, token)
  }

  /** `outs` is a list of tokens the reference run may sample, one after another. */
  ghost predicate Samples(m: Model, prompt: seq<Token>, sampling: Sampling, outs: seq<Token>) {
    forall k | 0 <= k < |outs| :: Picks(m, prompt, sampling, outs[..k], outs[k])
  }

  lemma {:induction false} RunLayersKeepsLength(layers: seq<Layer>, caches: seq<Cache>, at: seq<nat>, rows: seq<Row>)
    requires |caches| == |layers|
    requires forall k | 0 <= k < |layers| :: KeepsLength(layers[k])
    ensures |RunLayers(layers, caches, at, rows).rows| == |rows|
  {
    if layers != [] {
      var (cache, out) := layers[0].apply(caches[0], at, rows);
      assert KeepsLength(layers[0]);
      RunLayersKeepsLength(layers[1..], caches[1..], at, out);
    }
  }

  /** A stack may be cut anywhere: the rows of the lower part are the input of the upper part. */
  lemma {:induction false} RunLayersSplits(layers: seq<Layer>, cut: nat, caches: seq<Cache>, at: seq<nat>,
                                           rows: seq<Row>)
    requires cut <= |layers| == |caches|
    ensures var lower := RunLayers(layers[..cut], caches[..cut], at, rows);
            var upper := RunLayers(layers[cut..], caches[cut..], at, lower.rows);
            RunLayers(layers, caches, at, rows) == Pass(lower.caches + upper.caches, upper.rows)
  {
    hide RunLayers;
    if cut == 0 {
      assert layers[0..] == layers && caches[0..] == caches;
      NoLayer(layers[..0], caches[..0], at, rows);
      var upper := RunLayers(layers, caches, at, rows);
      assert [] + upper.caches == upper.caches;
    } else {
      var (cache, out) := layers[0].apply(caches[0], at, rows);
      RunLayersSplits(layers[1..], cut - 1, caches[1..], at, out);
      CutAfterFirst(layers, cut);
      CutAfterFirst(caches, cut);
      FirstLayer(layers, caches, at, rows);
      FirstLayer(layers[..cut], caches[..cut], at, rows);
      var inner := RunLayers(layers[..cut][1..], caches[..cut][1..], at, out);
      var upper := RunLayers(layers[cut..], caches[cut..], at, inner.rows);
      assert [cache] + (inner.caches + upper.caches) == ([cache] + inner.caches) + upper.caches;
    }
  }

  lemma CutAfterFirst<T>(s: seq<T>, cut: nat)
    requires 0 < cut <= |s|
    ensures s[1..][..cut - 1] == s[..cut][1..] && s[1..][cut - 1..] == s[cut..]
  {
  }

  lemma NoLayer(layers: seq<Layer>, caches: seq<Cache>, at: seq<nat>, rows: seq<Row>)
    requires |layers| == |caches| == 0
    ensures RunLayers(layers, caches, at, rows) == Pass([], rows)
  {
  }

  lemma FirstLayer(layers: seq<Layer>, caches: seq<Cache>, at: seq<nat>, rows: seq<Row>)
    requires 0 < |layers| == |caches|
    ensures var (cache, out) := layers[0].apply(caches[0], at, rows);
            var rest := RunLayers(layers[1..], caches[1..], at, out);
            RunLayers(layers, caches, at, rows) == Pass([cache] + rest.caches, rest.rows)
  {
  }

  /** Deeper layers never change what the shallower ones hold. */
  lemma {:induction false} ShallowCaches(m: Model, lo: nat, hi: nat, prompt: seq<Token>, outs: seq<Token>)
    requires lo <= hi <= |m.layers|
    ensures Alone(m, hi, prompt, outs).caches[..lo] == Alone(m, lo, prompt, outs).caches
    decreases |outs|
  {
    var at, rows := StepPositions(prompt, outs), Embed(m, StepTokens(prompt, outs));
    var before: seq<Cache>;
    if outs == [] {
      before := Fresh(m.layers[..hi]);
      assert before[..lo] == Fresh(m.layers[..lo]);
    } else {
      ShallowCaches(m, lo, hi, prompt, outs[..|outs| - 1]);
      before := Alone(m, hi, prompt, outs[..|outs| - 1]).caches;
    }
    RunLayersSplits(m.layers[..hi], lo, before, at, rows);
    assert m.layers[..hi][..lo] == m.layers[..lo];
  }

  /**
   What a stage that owns layers `lo..hi` does on one step, if it starts from the caches it should
   hold and is given the rows the layers below it emit: it ends with the caches it should hold next
   and emits the rows the reference run emits at depth `hi`.
   */
  lemma {:induction false} StageFollowsAlone(m: Model, lo: nat, hi: nat, prompt: seq<Token>, outs: seq<Token>)
    requires lo <= hi <= |m.layers|
    ensures var before := if outs == [] then Fresh(m.layers[lo..hi])
                          else Held(m, lo, hi, prompt, outs[..|outs| - 1]);
            RunLayers(m.layers[lo..hi], before, StepPositions(prompt, outs), Emitted(m, lo, prompt, outs))
            == Pass(Held(m, lo, hi, prompt, outs), Emitted(m, hi, prompt, outs))
  {
    var at, rows := StepPositions(prompt, outs), Embed(m, StepTokens(prompt, outs));
    var all: seq<Cache>;
    if outs == [] {
      all := Fresh(m.layers[..hi]);
      assert all[..lo] == Fresh(m.layers[..lo]) && all[lo..] == Fresh(m.layers[lo..hi]);
    } else {
      all := Alone(m, hi, prompt, outs[..|outs| - 1]).caches;
      ShallowCaches(m, lo, hi, prompt, outs[..|outs| - 1]);
    }
    RunLayersSplits(m.layers[..hi], lo, all, at, rows);
    assert m.layers[..hi][..lo] == m.layers[..lo] && m.layers[..hi][lo..] == m.layers[lo..hi];
    var lower := RunLayers(m.layers[..lo], all[..lo], at, rows);
    assert lower == Alone(m, lo, prompt, outs);
    var upper := RunLayers(m.layers[lo..hi], all[lo..], at, lower.rows);
    assert (lower.caches + upper.caches)[lo..] == upper.caches;
  }

  /** Nothing has been through a layer yet: the rows are the embedded tokens. */
  lemma EmittedAtTheBottom(m: Model, prompt: seq<Token>, outs: seq<Token>)
    ensures Emitted(m, 0, prompt, outs) == Embed(m, StepTokens(prompt, outs))
  {
    assert m.layers[..0] == [];
  }

  lemma EmittedLength(m: Model, depth: nat, prompt: seq<Token>, outs: seq<Token>)
    requires WellFormed(m) && depth <= |m.layers|
    ensures |Emitted(m, depth, prompt, outs)| == |StepTokens(prompt, outs)|
  {
    var before := if outs == [] then Fresh(m.layers[..depth])
                  else Alone(m, depth, prompt, outs[..|outs| - 1]).caches;
    RunLayersKeepsLength(m.layers[..depth], before, StepPositions(prompt, outs), Embed(m, StepTokens(prompt, outs)));
  }
}
