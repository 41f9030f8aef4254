/**
 A batch on the wire.

 The rows of all members travel as one glued list whose only internal boundaries are the members
 themselves. This module says how the members travel, how the glued list is cut again, and which
 of the two coarse length checks catch a batch that came apart.
 */
module BatchWire {
  import opened Wrappers
  import opened Transformer
  import opened Sequences

  /** One entry of the member list; `None` is a field the sender left out. */
  datatype Member = Member(
    requestId: Id,
    promptIds: seq<Token>,
    promptLen: int,
    outputIds: seq<Token>,
    temperature: Option<real>,
    topP: Option<real>,
    seed: Option<int>,
    maxTokens: Option<int>)

  /** The ways a batch can turn out not to be the one the previous stage sent. */
  datatype Mismatch = NoMembers | Unnamed | WrongRows(rows: nat, expected: nat)

  const DEFAULT_MAX_TOKENS := 128

  // ---------------------------------------------------------------- widths

  function Width(r: Request, first: bool): nat {
    if first then |r.prompt| else 1
  }

  function Widths(batch: seq<Request>, first: bool): (w: seq<nat>)
    ensures |w| == |batch|
  {
    seq(|batch|, k requires 0 <= k < |batch| => Width(batch[k], first))
  }

  function Total(widths: seq<nat>): nat {
    if widths == [] then 0 else Total(widths[..|widths| - 1]) + widths[|widths| - 1]
  }

  /** Do as many rows arrive as the members promise? */
  function CheckTokens(batch: seq<Request>, rows: nat, first: bool): (r: Result<(), Mismatch>)
    ensures r.Ok? <==> rows == Total(Widths(batch, first))
  {
    var expected := Total(Widths(batch, first));
    if rows != expected then Err(WrongRows(rows, expected)) else Ok(())
  }

  /** Is there one row of logits, or one token, per member? */
  function CheckRows(batch: seq<Request>, rows: nat): (r: Result<(), Mismatch>)
    ensures r.Ok? <==> rows == |batch|
  {
    if rows != |batch| then Err(WrongRows(rows, |batch|)) else Ok(())
  }

  // ---------------------------------------------------------------- members

  function PackOne(r: Request, first: bool): Member {
    Member(r.id, if first then r.prompt else [], |r.prompt|, r.output,
           Some(r.sampling.temperature), Some(r.sampling.topP), r.sampling.seed, Some(r.maxTokens))
  }

  function Packed(batch: seq<Request>, first: bool): (members: seq<Member>)
    ensures |members| == |batch|
  {
    seq(|batch|, k requires 0 <= k < |batch| => PackOne(batch[k], first))
  }

  function Zeros(count: int): (zeros: seq<Token>)
    ensures |zeros| == if count < 0 then 0 else count
  {
    if count <= 0 then [] else seq(count, _ => 0)
  }

  function UnpackOne(m: Member): Request {
    Request(
      m.requestId,
      if m.promptIds == [] then Zeros(m.promptLen) else m.promptIds,
      m.outputIds,
      Sampling(if m.temperature.Some? then m.temperature.value else 0.0,
               if m.topP.Some? then m.topP.value else 1.0,
               m.seed),
      if m.maxTokens.Some? && m.maxTokens.value != 0 then m.maxTokens.value else DEFAULT_MAX_TOKENS)
  }

  function Unpacked(members: seq<Member>): (r: Result<seq<Request>, Mismatch>)
    ensures r.Ok? <==> members != [] && forall m | m in members :: m.requestId != ""
    ensures r.Ok? ==> |r.value| == |members|
  {
    if members == [] then Err(NoMembers)
    else if exists m | m in members :: m.requestId == "" then Err(Unnamed)
    else Ok(seq(|members|, k requires 0 <= k < |members| => UnpackOne(members[k])))
  }

  /** What a later stage sees of a request the head packed. */
  function OnStage(r: Request, first: bool): Request {
    r.(prompt := if first then r.prompt else Zeros(|r.prompt|),
       maxTokens := if r.maxTokens == 0 then DEFAULT_MAX_TOKENS else r.maxTokens)
  }

  method Pack(batch: seq<Sequence>, first: bool) returns (members: seq<Member>)
    ensures members == Packed(Values(batch), first)
  {
    members := [];
    for k := 0 to |batch|
      invariant |members| == k
      invariant forall i | 0 <= i < k :: members[i] == PackOne(batch[i].Value(), first)
    {
      var s := batch[k];
      members := members + [Member(s.requestId, if first then s.promptIds else [], |s.promptIds|, s.outputIds,
                                   Some(s.sampling.temperature), Some(s.sampling.topP), s.sampling.seed,
                                   Some(s.maxTokens))];
    }
  }

  method Unpack(members: seq<Member>) returns (r: Result<seq<Sequence>, Mismatch>)
    ensures r.Ok? <==> Unpacked(members).Ok?
    ensures r.Err? ==> r.error == Unpacked(members).error
    ensures r.Ok? ==> (forall s | s in r.value :: fresh(s)) && Values(r.value) == Unpacked(members).value
  {
    if members == [] { return Err(NoMembers); }
    var restored: seq<Sequence> := [];
    for k := 0 to |members|
      invariant |restored| == k
      invariant forall i | 0 <= i < k :: members[i].requestId != ""
      invariant forall i | 0 <= i < k :: fresh(restored[i]) && restored[i].Value() == UnpackOne(members[i])
    {
      var m := members[k];
      if m.requestId == "" { return Err(Unnamed); }
      var promptIds := m.promptIds;
      if promptIds == [] { promptIds := Zeros(m.promptLen); }
      var s := new Sequence(
        m.requestId, promptIds, m.outputIds,
        Sampling(if m.temperature.Some? then m.temperature.value else 0.0,
                 if m.topP.Some? then m.topP.value else 1.0, m.seed),
        if m.maxTokens.Some? && m.maxTokens.value != 0 then m.maxTokens.value else DEFAULT_MAX_TOKENS);
      restored := restored + [s];
    }
    r := Ok(restored);
  }

  /**
   What packing and unpacking keep, for a batch a head may send: order, names, outputs, sampling,
   widths and computed lengths. The prompt itself survives the first step only.
   */
  lemma RoundTrip(batch: seq<Request>, first: bool)
    requires batch != [] && forall r | r in batch :: r.id != ""
    ensures var back := Unpacked(Packed(batch, first));
            && back.Ok? && |back.value| == |batch|
            && (forall k | 0 <= k < |batch| :: back.value[k] == OnStage(batch[k], first))
            && Widths(back.value, first) == Widths(batch, first)
            && (forall k | 0 <= k < |batch| :: back.value[k].Computed() == batch[k].Computed())
  {
    var members := Packed(batch, first);
    forall m | m in members ensures m.requestId != "" {
      var k :| 0 <= k < |members| && members[k] == m;
      assert batch[k] in batch;
    }
    assert forall k | 0 <= k < |batch| :: members[k] == PackOne(batch[k], first);
    var back := Unpacked(members).value;
    assert forall k | 0 <= k < |batch| :: back[k] == UnpackOne(members[k]);
  }

  /**
   A prefill batch comes back exactly as it left if and only if no member asked for zero tokens:
   a zero is read as "not given" and becomes the default.
   */
  lemma PrefillRoundTripIsExact(batch: seq<Request>)
    requires batch != [] && forall r | r in batch :: r.id != ""
    ensures Unpacked(Packed(batch, true)) == Ok(batch) <==> forall r | r in batch :: r.maxTokens != 0
  {
    RoundTrip(batch, true);
    var back := Unpacked(Packed(batch, true)).value;
    if forall r | r in batch :: r.maxTokens != 0 {
      forall k | 0 <= k < |batch| ensures back[k] == batch[k] {
        assert batch[k] in batch;
      }
      assert back == batch;
    } else {
      var r :| r in batch && r.maxTokens == 0;
      var k :| 0 <= k < |batch| && batch[k] == r;
      assert back[k].maxTokens != batch[k].maxTokens;
    }
  }

  // ---------------------------------------------------------------- gluing and cutting

  /** The pieces laid end to end. */
  function Glue(pieces: seq<seq<Row>>): seq<Row> {
    if pieces == [] then [] else Glue(pieces[..|pieces| - 1]) + pieces[|pieces| - 1]
  }

  function Lengths(pieces: seq<seq<Row>>): (w: seq<nat>)
    ensures |w| == |pieces|
  {
    seq(|pieces|, k requires 0 <= k < |pieces| => |pieces[k]|)
  }

  lemma {:induction false} TotalGrows(widths: seq<nat>, k: nat)
    requires k < |widths|
    ensures Total(widths[..k + 1]) == Total(widths[..k]) + widths[k]
    ensures Total(widths[..k + 1]) <= Total(widths)
    decreases |widths| - k
  {
    assert widths[..k + 1][..k] == widths[..k];
    if k + 1 < |widths| {
      TotalGrows(widths, k + 1);
    } else {
      assert widths[..k + 1] == widths;
    }
  }

  /** The glued rows cut again at the members' widths. */
  function Cut(flat: seq<Row>, widths: seq<nat>): (pieces: seq<seq<Row>>)
    requires |flat| == Total(widths)
    ensures |pieces| == |widths|
  {
    seq(|widths|, k requires 0 <= k < |widths| =>
      TotalGrows(widths, k);
      flat[Total(widths[..k])..Total(widths[..k + 1])])
  }

  lemma {:induction false} GlueLength(pieces: seq<seq<Row>>)
    ensures |Glue(pieces)| == Total(Lengths(pieces))
  {
    if pieces != [] {
      var front := pieces[..|pieces| - 1];
      GlueLength(front);
      assert Lengths(pieces)[..|pieces| - 1] == Lengths(front);
    }
  }

  /** Where the k-th piece lies in the glued list. */
  lemma {:induction false} PieceInGlue(pieces: seq<seq<Row>>, k: nat)
    requires k < |pieces|
    ensures Total(Lengths(pieces)[..k]) + |pieces[k]| == Total(Lengths(pieces)[..k + 1]) <= |Glue(pieces)|
    ensures Glue(pieces)[Total(Lengths(pieces)[..k])..Total(Lengths(pieces)[..k + 1])] == pieces[k]
  {
    var n := |pieces| - 1;
    var front := pieces[..n];
    GlueLength(pieces);
    GlueLength(front);
    TotalGrows(Lengths(pieces), k);
    assert Lengths(pieces)[..n] == Lengths(front);
    if k == n {
      assert Lengths(pieces)[..k + 1] == Lengths(pieces);
    } else {
      PieceInGlue(front, k);
      assert Lengths(front)[..k] == Lengths(pieces)[..k] && Lengths(front)[..k + 1] == Lengths(pieces)[..k + 1];
    }
  }

  /** Cutting what was glued gives back exactly the pieces, member by member. */
  lemma CutUndoesGlue(pieces: seq<seq<Row>>, widths: seq<nat>)
    requires widths == Lengths(pieces)
    ensures |Glue(pieces)| == Total(widths) && Cut(Glue(pieces), widths) == pieces
  {
    GlueLength(pieces);
    forall k | 0 <= k < |pieces| ensures Cut(Glue(pieces), widths)[k] == pieces[k] {
      PieceInGlue(pieces, k);
    }
  }
}
