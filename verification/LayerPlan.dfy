/** Which card each layer of a stage goes on: contiguous runs in proportion to what is free. */
module LayerPlan {
  type Device = string

  function Sum(s: seq<int>): int {
    if s == [] then 0 else Sum(s[..|s| - 1]) + s[|s| - 1]
  }

  /** The first place of the greatest value. */
  function FirstMax(s: seq<int>): (k: nat)
    requires s != []
    ensures k < |s| && (forall i | 0 <= i < |s| :: s[i] <= s[k]) && (forall i | 0 <= i < k :: s[i] < s[k])
  {
    if |s| == 1 then 0
    else
      var front := FirstMax(s[..|s| - 1]);
      if s[|s| - 1] > s[front] then |s| - 1 else front
  }

  lemma {:induction false} SumUpdate(s: seq<int>, k: nat, v: int)
    requires k < |s|
    ensures Sum(s[k := v]) == Sum(s) - s[k] + v
  {
    var last := |s| - 1;
    if k == last {
      assert s[k := v][..last] == s[..last];
    } else {
      SumUpdate(s[..last], k, v);
      assert s[k := v][..last] == s[..last][k := v];
    }
  }

  lemma {:induction false} SumOfNatural(s: seq<int>)
    requires forall i | 0 <= i < |s| :: 0 <= s[i]
    ensures 0 <= Sum(s) && (Sum(s) == 0 ==> forall i | 0 <= i < |s| :: s[i] == 0)
  {
    if s != [] { SumOfNatural(s[..|s| - 1]); }
  }

  lemma {:induction false} SumOfNonPositive(s: seq<int>)
    requires forall i | 0 <= i < |s| :: s[i] <= 0
    ensures Sum(s) <= 0
  {
    if s != [] { SumOfNonPositive(s[..|s| - 1]); }
  }

  /** Every share but the named one is natural. */
  predicate OthersNatural(s: seq<int>, k: nat) {
    forall i | 0 <= i < |s| && i != k :: 0 <= s[i]
  }

  /** The repair: whatever rounding left over or overspent is settled on one card, at the expense of the richest. */
  method Settle(shares: array<int>, biggest: nat, layers: nat)
    requires biggest < shares.Length && OthersNatural(shares[..], biggest)
    modifies shares
    ensures Sum(shares[..]) == layers
    ensures layers > 0 ==> shares[biggest] >= 1 && forall i | 0 <= i < shares.Length :: 0 <= shares[i]
    ensures layers == 0 ==> (biggest == 0 <==> forall i | 0 <= i < shares.Length :: 0 <= shares[i])
    ensures forall i | 0 <= i < shares.Length && i != biggest :: shares[i] <= old(shares[i])
    ensures Sum(old(shares[..])) - old(shares[biggest]) < layers ==>
              forall i | 0 <= i < shares.Length && i != biggest :: shares[i] == old(shares[i])
    ensures OthersPositive(old(shares[..]), biggest) ==>
              ((forall i | 0 <= i < shares.Length :: shares[i] >= 1) <==> layers >= shares.Length)
  {
    hide Sum, OthersNatural, OthersPositive;
    ghost var before := shares[..];
    shares[biggest] := shares[biggest] + layers - Sum(shares[..]);
    assert shares[..] == before[biggest := shares[biggest]];
    AllOnOne(before, biggest, layers);
    StillPositive(before, biggest, biggest, shares[biggest]);
    while shares[biggest] < 1
      invariant Sum(shares[..]) == layers
      invariant OthersNatural(shares[..], biggest) || GaveTooMuch(shares[..], biggest, layers)
      invariant forall i | 0 <= i < shares.Length && i != biggest :: shares[i] <= old(shares[i])
      invariant Sum(old(shares[..])) - old(shares[biggest]) < layers ==>
                  shares[biggest] >= 1
                  && forall i | 0 <= i < shares.Length && i != biggest :: shares[i] == old(shares[i])
      invariant OthersPositive(old(shares[..]), biggest) && layers >= shares.Length ==>
                  OthersPositive(shares[..], biggest)
      decreases 1 - shares[biggest]
    {
      before := shares[..];
      var donor := FirstMax(shares[..]);
      OneMove(before, biggest, layers);
      if layers >= shares.Length && OthersPositive(before, biggest) { RichestHasTwo(before, biggest, layers); }
      if donor == biggest {
        NobodyHasAny(shares[..]);
        return;
      }
      shares[donor] := shares[donor] - 1;
      shares[biggest] := shares[biggest] + 1;
      assert shares[..] == before[donor := before[donor] - 1][biggest := before[biggest] + 1];
      StillPositive(before, biggest, donor, before[donor] - 1);
      StillPositive(before[donor := before[donor] - 1], biggest, biggest, before[biggest] + 1);
    }
    if OthersNatural(shares[..], biggest) { OneIsSome(shares[..], biggest); }
    EveryoneHasOne(shares[..], biggest);
  }

  /** Every share but the named one is at least one. */
  predicate OthersPositive(s: seq<int>, k: nat) {
    forall i | 0 <= i < |s| && i != k :: 1 <= s[i]
  }

  lemma StillPositive(s: seq<int>, k: nat, at: nat, v: int)
    requires k < |s| && at < |s|
    ensures OthersPositive(s, k) && (at == k || v >= 1) ==> OthersPositive(s[at := v], k)
  {
  }

  lemma {:induction false} SumIsAtMost(s: seq<int>)
    requires forall i | 0 <= i < |s| :: s[i] <= 1
    ensures Sum(s) <= |s|
  {
    if s != [] { SumIsAtMost(s[..|s| - 1]); }
  }

  lemma {:induction false} SumIsAtLeast(s: seq<int>)
    requires forall i | 0 <= i < |s| :: s[i] >= 1
    ensures Sum(s) >= |s|
  {
    if s != [] { SumIsAtLeast(s[..|s| - 1]); }
  }

  /** As long as the settled card has none, there are enough layers for the richest to have two. */
  lemma RichestHasTwo(s: seq<int>, biggest: nat, layers: nat)
    requires biggest < |s| <= layers && s[biggest] < 1 && Sum(s) == layers
    ensures FirstMax(s) != biggest && s[FirstMax(s)] >= 2
  {
    if s[FirstMax(s)] < 2 {
      SumUpdate(s, biggest, 1);
      SumIsAtMost(s[biggest := 1]);
    }
  }

  lemma NobodyHasAny(s: seq<int>)
    requires s != [] && forall i | 0 <= i < |s| :: s[i] == 0
    ensures !(forall i | 0 <= i < |s| :: s[i] >= 1)
  {
    assert s[0] == 0;
  }

  /** A card that has at least one, and others that do, have as many as there are cards. */
  lemma EveryoneHasOne(s: seq<int>, biggest: nat)
    requires biggest < |s| && s[biggest] >= 1
    ensures OthersPositive(s, biggest) <==> forall i | 0 <= i < |s| :: s[i] >= 1
    ensures (forall i | 0 <= i < |s| :: s[i] >= 1) ==> Sum(s) >= |s|
  {
    if forall i | 0 <= i < |s| :: s[i] >= 1 { SumIsAtLeast(s); }
  }

  lemma AllOnOne(s: seq<int>, k: nat, layers: nat)
    requires k < |s| && OthersNatural(s, k)
    ensures var after := s[k := s[k] + layers - Sum(s)]; Sum(after) == layers && OthersNatural(after, k)
  {
    SumUpdate(s, k, s[k] + layers - Sum(s));
  }

  /** The one way out of balance: no layers at all, and the first card gave one it did not have. */
  predicate GaveTooMuch(s: seq<int>, biggest: nat, layers: nat) {
    layers == 0 && 0 < biggest < |s| && s[0] == -1 && s[biggest] == 1
  }

  /** One layer moves from the richest card to the settled one, or there is nobody to take it from. */
  lemma OneMove(s: seq<int>, biggest: nat, layers: nat)
    requires biggest < |s| && s[biggest] < 1 && Sum(s) == layers
    requires OthersNatural(s, biggest) || GaveTooMuch(s, biggest, layers)
    ensures var donor := FirstMax(s);
            if donor == biggest then layers == 0 && biggest == 0 && forall i | 0 <= i < |s| :: s[i] == 0
            else
              var after := s[donor := s[donor] - 1][biggest := s[biggest] + 1];
              Sum(after) == layers && (OthersNatural(after, biggest) || GaveTooMuch(after, biggest, layers))
  {
    var donor := FirstMax(s);
    RichestCanGive(s, biggest, layers);
    if donor != biggest {
      SumUpdate(s, donor, s[donor] - 1);
      SumUpdate(s[donor := s[donor] - 1], biggest, s[biggest] + 1);
    }
  }

  lemma OneIsSome(s: seq<int>, biggest: nat)
    requires biggest < |s| && s[biggest] >= 1 && OthersNatural(s, biggest)
    ensures Sum(s) >= 1 && forall i | 0 <= i < |s| :: 0 <= s[i]
  {
    SumUpdate(s, biggest, 0);
    SumOfNatural(s[biggest := 0]);
  }

  /** The richest card has a layer to give, unless there are no layers at all and nobody has any. */
  lemma RichestCanGive(s: seq<int>, biggest: nat, layers: nat)
    requires biggest < |s| && s[biggest] < 1 && OthersNatural(s, biggest) && Sum(s) == layers
    ensures || (FirstMax(s) != biggest && s[FirstMax(s)] >= 1)
            || (layers == 0 && FirstMax(s) == 0 && forall i | 0 <= i < |s| :: s[i] == 0)
  {
    var donor := FirstMax(s);
    if s[donor] < 1 {
      SumOfNonPositive(s);
      var others := s[biggest := 0];
      assert forall i | 0 <= i < |s| :: others[i] == 0;
      SumUpdate(s, biggest, 0);
      SumOfNonPositive(others);
      SumOfNatural(others);
      assert Sum(s) == 0 && s[biggest] == 0;
      assert s[0] == 0 && s[donor] == 0;
    }
  }

  // ---------------------------------------------------------------- the plan

  /** Each device as often as its share says, in order; a negative share counts as none. */
  function Spread(devices: seq<Device>, shares: seq<int>): (plan: seq<Device>)
    requires |devices| == |shares|
  {
    if devices == [] then []
    else
      Spread(devices[..|devices| - 1], shares[..|shares| - 1])
      + seq(if shares[|shares| - 1] < 0 then 0 else shares[|shares| - 1], _ => devices[|devices| - 1])
  }

  lemma {:induction false} SpreadLength(devices: seq<Device>, shares: seq<int>)
    requires |devices| == |shares| && forall i | 0 <= i < |shares| :: 0 <= shares[i]
    ensures |Spread(devices, shares)| == Sum(shares)
  {
    if devices != [] { SpreadLength(devices[..|devices| - 1], shares[..|shares| - 1]); }
  }

  /** The layers of the k-th card are one run: they follow those of the cards before it. */
  lemma {:induction false} RunsAreContiguous(devices: seq<Device>, shares: seq<int>, k: nat, layer: nat)
    requires |devices| == |shares| && (forall i | 0 <= i < |shares| :: 0 <= shares[i]) && k < |devices|
    requires Sum(shares[..k]) <= layer < Sum(shares[..k + 1])
    ensures layer < |Spread(devices, shares)| && Spread(devices, shares)[layer] == devices[k]
  {
    var last := |devices| - 1;
    SpreadLength(devices, shares);
    SpreadLength(devices[..last], shares[..last]);
    if k == last {
      assert shares[..k + 1] == shares;
    } else {
      assert shares[..last][..k] == shares[..k] && shares[..last][..k + 1] == shares[..k + 1];
      RunsAreContiguous(devices[..last], shares[..last], k, layer);
    }
  }

  /** The places of the cards with free memory. */
  function Usable(free: seq<int>): (places: seq<nat>)
    ensures forall i | 0 <= i < |places| :: places[i] < |free| && free[places[i]] > 0
  {
    if free == [] then []
    else Usable(free[..|free| - 1]) + if free[|free| - 1] > 0 then [|free| - 1] else []
  }

  function Chosen<T>(list: seq<T>, places: seq<nat>): (chosen: seq<T>)
    requires forall i | 0 <= i < |places| :: places[i] < |list|
    ensures |chosen| == |places|
  {
    seq(|places|, i requires 0 <= i < |places| => list[places[i]])
  }

  /** Every card with free memory is used, in the order of the list. */
  lemma {:induction false} UsableAreAll(free: seq<int>, p: nat)
    requires p < |free| && free[p] > 0
    ensures p in Usable(free)
  {
    if p < |free| - 1 { UsableAreAll(free[..|free| - 1], p); }
  }

  /** The cards that take part keep their order. */
  lemma {:induction false} UsableAreInOrder(free: seq<int>, i: nat, j: nat)
    requires i < j < |Usable(free)|
    ensures Usable(free)[i] < Usable(free)[j]
  {
    var front := Usable(free[..|free| - 1]);
    if j < |front| { UsableAreInOrder(free[..|free| - 1], i, j); }
  }

  /** The rounded shares, one at least for everybody, and then settled. */
  method SharesOf(layers: nat, rounded: seq<int>, biggest: nat) returns (shares: array<int>)
    requires biggest < |rounded|
    ensures fresh(shares) && shares.Length == |rounded| && Sum(shares[..]) == layers
    ensures layers > 0 ==> forall i | 0 <= i < |rounded| :: 0 <= shares[i]
    ensures forall i | 0 <= i < |rounded| && i != biggest :: shares[i] <= if rounded[i] < 1 then 1 else rounded[i]
    ensures (forall i | 0 <= i < |rounded| :: shares[i] >= 1) <==> layers >= |rounded|
  {
    hide Sum;
    shares := new int[|rounded|](i requires 0 <= i < |rounded| => if rounded[i] < 1 then 1 else rounded[i]);
    Settle(shares, biggest, layers);
  }

  /**
   Which card each layer goes on. `rounded` are the cards' shares as the floating-point rounding makes
   them, whatever it makes them: the plan comes out with one card per layer, in runs that follow the
   order of the cards with free memory, and shares that add up. Every one of these cards keeps a layer
   if and only if there are enough for one each.
   */
  method PlanLayerDevices(layers: nat, devices: seq<Device>, free: seq<int>, rounded: seq<int>)
    returns (plan: seq<Device>, ghost runs: seq<int>)
    requires devices != [] && |free| == |devices| && |rounded| == |Usable(free)|
    ensures |plan| == layers
    ensures |devices| > 1 && Usable(free) != [] ==>
              && Runs(layers, rounded, FirstMax(Chosen(free, Usable(free))), runs)
              && plan == Spread(Chosen(devices, Usable(free)), runs)
    ensures |devices| == 1 || Usable(free) == [] ==> forall d | d in plan :: d == devices[0]
  {
    runs := [];
    if |devices| == 1 { return seq(layers, _ => devices[0]), []; }
    var usable := Usable(free);
    if usable == [] { return seq(layers, _ => devices[0]), []; }
    var cards := Chosen(devices, usable);
    hide Sum, FirstMax, Chosen, Usable, Spread, Runs;
    var biggest := FirstMax(Chosen(free, usable));
    var shares := SharesOf(layers, rounded, biggest);
    plan := Spread(cards, shares[..]);
    runs := RunsOf(cards, layers, rounded, biggest, shares[..]);
    if |plan| > layers {
      plan := plan[..layers];
    }
    if plan == [] {
      plan := seq(layers, _ => devices[0]);
    }
  }

  /**
   The layers of each card: they add up, no card but the largest has more than its rounded share, and
   every card has one if and only if there are enough.
   */
  ghost predicate Runs(layers: nat, rounded: seq<int>, biggest: nat, runs: seq<int>) {
    && |runs| == |rounded| && Sum(runs) == layers && (forall i | 0 <= i < |runs| :: 0 <= runs[i])
    && (forall i | 0 <= i < |runs| && i != biggest :: runs[i] <= if rounded[i] < 1 then 1 else rounded[i])
    && ((forall i | 0 <= i < |runs| :: runs[i] >= 1) <==> layers >= |runs|)
  }

  lemma RunsOf(cards: seq<Device>, layers: nat, rounded: seq<int>, biggest: nat, shares: seq<int>)
    returns (runs: seq<int>)
    requires |cards| == |rounded| == |shares| && biggest < |shares| && Sum(shares) == layers
    requires layers > 0 ==> forall i | 0 <= i < |shares| :: 0 <= shares[i]
    requires forall i | 0 <= i < |shares| && i != biggest :: shares[i] <= if rounded[i] < 1 then 1 else rounded[i]
    requires (forall i | 0 <= i < |shares| :: shares[i] >= 1) <==> layers >= |shares|
    ensures Runs(layers, rounded, biggest, runs)
    ensures (if |Spread(cards, shares)| > layers then Spread(cards, shares)[..layers] else Spread(cards, shares))
         == Spread(cards, runs)
    ensures |Spread(cards, runs)| == layers
  {
    hide Spread, Sum;
    if layers > 0 {
      SpreadLength(cards, shares);
      runs := shares;
    } else {
      runs := seq(|shares|, _ => 0);
      NoLayersNoPlan(cards, runs);
      var plan := Spread(cards, shares);
      assert plan[..0] == [] && (|plan| == 0 ==> plan == []);
      assert runs[biggest] == 0;
    }
  }

  lemma {:induction false} NoLayersNoPlan(devices: seq<Device>, shares: seq<int>)
    requires |devices| == |shares| && forall i | 0 <= i < |shares| :: shares[i] == 0
    ensures Spread(devices, shares) == [] && Sum(shares) == 0
  {
    if devices != [] { NoLayersNoPlan(devices[..|devices| - 1], shares[..|shares| - 1]); }
  }
}
