/** One request as the scheduler, the engines and the wire see it. */
module Sequences {
  import opened Transformer

  type Id = string

  /** The value of a sequence at one moment. */
  datatype Request = Request(
    id: Id,
    prompt: seq<Token>,
    output: seq<Token>,
    sampling: Sampling,
    maxTokens: int)
  {
    /** How many tokens the caches hold before the next step: all of them but the one it feeds. */
    function Computed(): nat {
      if output == [] then |prompt| else |prompt| + |output| - 1
    }

    predicate Done() {
      |output| >= maxTokens
    }

    function With(token: Token): Request {
      this.(output := output + [token])
    }

    /** The same request before it produced anything. */
    function Asked(): Request {
      this.(output := [])
    }
  }

  function Ids(batch: seq<Request>): (ids: set<Id>) {
    set r | r in batch :: r.id
  }

  /** No name occurs twice. */
  predicate DistinctIds(batch: seq<Request>) {
    batch == [] ||
    (DistinctIds(batch[..|batch| - 1]) && batch[|batch| - 1].id !in Ids(batch[..|batch| - 1]))
  }

  lemma IdsOfConcat(a: seq<Request>, b: seq<Request>)
    ensures Ids(a + b) == Ids(a) + Ids(b)
  {
  }

  lemma IdsOfSnoc(front: seq<Request>, last: Request)
    ensures Ids(front + [last]) == Ids(front) + {last.id}
  {
    IdsOfConcat(front, [last]);
    assert Ids([last]) == {last.id} by { assert last in [last]; }
  }

  lemma {:induction false} DistinctSnoc(rest: seq<Request>, last: Request)
    requires DistinctIds(rest) && last.id !in Ids(rest)
    ensures DistinctIds(rest + [last])
  {
    assert (rest + [last])[..|rest|] == rest;
  }

  lemma {:induction false} DistinctPair(batch: seq<Request>, i: nat, j: nat)
    requires DistinctIds(batch) && i < |batch| && j < |batch| && i != j
    ensures batch[i].id != batch[j].id
  {
    var last := |batch| - 1;
    if i == last || j == last {
      assert batch[if i == last then j else i] in batch[..last];
    } else {
      DistinctPair(batch[..last], i, j);
    }
  }

  lemma {:induction false} DistinctApart(a: seq<Request>, b: seq<Request>)
    ensures DistinctIds(a + b) <==> DistinctIds(a) && DistinctIds(b) && Ids(a) !! Ids(b)
  {
    if b == [] {
      assert a + b == a;
    } else {
      var front, last := b[..|b| - 1], b[|b| - 1];
      assert (a + b)[..|a + b| - 1] == a + front && b == front + [last];
      IdsOfConcat(a, front);
      IdsOfConcat(front, [last]);
      assert Ids([last]) == {last.id} by { assert last in [last]; }
      DistinctApart(a, front);
    }
  }

  /** The object that lives in the scheduler: its output grows in place. */
  class Sequence {
    const requestId: Id
    const promptIds: seq<Token>
    var outputIds: seq<Token>
    const sampling: Sampling
    const maxTokens: int

    constructor (requestId: Id, promptIds: seq<Token>, outputIds: seq<Token>, sampling: Sampling, maxTokens: int)
      ensures Value() == Request(requestId, promptIds, outputIds, sampling, maxTokens)
    {
      this.requestId := requestId;
      this.promptIds := promptIds;
      this.outputIds := outputIds;
      this.sampling := sampling;
      this.maxTokens := maxTokens;
    }

    function Value(): (r: Request)
      reads this
    {
      Request(requestId, promptIds, outputIds, sampling, maxTokens)
    }
  }

  function Values(batch: seq<Sequence>): (values: seq<Request>)
    reads batch
    ensures |values| == |batch|
    ensures forall k | 0 <= k < |batch| :: values[k] == batch[k].Value()
  {
    seq(|batch|, k requires 0 <= k < |batch| reads batch => batch[k].Value())
  }

  lemma ValuesConcat(a: seq<Sequence>, b: seq<Sequence>)
    ensures Values(a + b) == Values(a) + Values(b)
  {
  }

  lemma ValuesSlices(batch: seq<Sequence>, k: nat)
    requires k <= |batch|
    ensures Values(batch[..k]) == Values(batch)[..k] && Values(batch[k..]) == Values(batch)[k..]
  {
  }
}
