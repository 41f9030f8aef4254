/**
 Runs in which what one would like of the links fails: a clamped counter, a message that is lost, and one
 that arrives twice.
 */
module LinkWitnesses {
  import opened Wrappers
  import opened Links
  import opened LinkRuns

  ghost predicate Reaches(worlds: seq<World>, actions: seq<Action>, w: World) {
    Run(worlds, actions) && worlds[|actions|] == w
  }

  ghost predicate Reachable(w: World) {
    exists worlds, actions :: Reaches(worlds, actions, w)
  }

  lemma ReachableNext(w: World, a: Action, w': World)
    requires Reachable(w) && Next(w, a, w')
    ensures Reachable(w')
  {
    hide Next;
    var worlds, actions :| Reaches(worlds, actions, w);
    var more, also := worlds + [w'], actions + [a];
    assert more[0] == worlds[0];
    forall k | 0 <= k < |also| ensures Next(more[k], also[k], more[k + 1]) {
      if k < |actions| {
        assert Next(worlds[k], actions[k], worlds[k + 1]);
        assert more[k] == worlds[k] && also[k] == actions[k] && more[k + 1] == worlds[k + 1];
      }
    }
    assert Reaches(more, also, w');
  }

  const KEY: Key := ("model", 1)
  const NEIGHBOUR := Neighbour(1, "node", "peer", ["address"], 0.0, true)
  const ENTRY := Entry("peer", "token")

  /** One neighbour that accepts connections, not measured yet and never blocked. */
  const OPEN := Table(map[KEY := NEIGHBOUR], map[], map[], map[], map[], false, true)

  /** Messages handed over to one neighbour, none of them settled. */
  function HandedOver(count: nat, choosing: seq<Chosen>, waiting: seq<Entry>): World {
    START.(post := Post(OPEN, seq(count, _ => ENTRY), count, 0, 0, []), choosing := choosing, waiting := waiting,
           begun := seq(count + |choosing| + |waiting|, _ => "token"))
  }

  lemma OpenAsked()
    ensures Asked(OPEN, KEY, 0.0) == (true, OPEN)
  {
  }

  lemma OpenIsReachable()
    ensures Reachable(HandedOver(0, [], []))
  {
    assert Reaches([START], [], START);
    var rows := Redirected(NEW_TABLE, "model", [NEIGHBOUR]);
    assert Rows("model", [NEIGHBOUR]) == map[KEY := NEIGHBOUR] by { assert [NEIGHBOUR][..0] == []; }
    assert rows.neighbours == map[KEY := NEIGHBOUR];
    var directed := START.(post := START.post.(table := rows));
    ReachableNext(START, Redirect("model", [NEIGHBOUR]), directed);
    assert rows.(hasDirect := true) == OPEN;
    ReachableNext(directed, Learn(OPEN), HandedOver(0, [], []));
  }

  /** One more message is chosen to go directly. */
  lemma OneMoreChosen(count: nat)
    requires Reachable(HandedOver(count, [], []))
    ensures Reachable(HandedOver(count, [Chosen(KEY, "token")], []))
  {
    OpenAsked();
    var w, w' := HandedOver(count, [], []), HandedOver(count, [Chosen(KEY, "token")], []);
    assert w.begun + ["token"] == w'.begun;
    hide Asked;
    ReachableNext(w, Choose(KEY, "token"), w');
  }

  lemma {:induction false} QueueFills(count: nat)
    requires count <= PENDING_ACKS
    ensures Reachable(HandedOver(count, [], []))
  {
    if count == 0 {
      OpenIsReachable();
    } else {
      QueueFills(count - 1);
      OneMoreChosen(count - 1);
      var w, w' := HandedOver(count - 1, [Chosen(KEY, "token")], []), HandedOver(count, [], []);
      assert w.post.pending + [ENTRY] == w'.post.pending && w.begun == w'.begun;
      var uncounted := w'.(post := w'.post.(direct := count - 1), uncounted := 1);
      ReachableNext(w, HandOver(0, Promised), uncounted);
      ReachableNext(uncounted, Count, w');
    }
  }

  // ---------------------------------------------------------------- a counter that is off by one

  /** What is left after some of the messages were given up and relayed. */
  ghost predicate Emptied(w: World, left: nat, relayed: nat) {
    && w.settling == None && w.waiting == [ENTRY] && w.bites == 0 && w.uncounted == 0 && w.choosing == []
    && w.post.pending == seq(left, _ => ENTRY) && w.post.direct == left
    && w.post.relay == relayed && |w.post.relayed| == relayed && |w.begun| == left + relayed + 1
  }

  lemma {:induction false} QueueEmpties(w: World, left: nat, relayed: nat) returns (w': World)
    requires Reachable(w) && Emptied(w, left, relayed)
    ensures Reachable(w') && Emptied(w', 0, left + relayed)
    decreases left
  {
    if left == 0 {
      w' := w;
    } else {
      var w1 := w.(post := w.post.(pending := w.post.pending[1..]), settling := Some(w.post.pending[0]));
      ReachableNext(w, Take, w1);
      var w2 := AfterSettling(w1, ENTRY, Vanished).(settling := None);
      ReachableNext(w1, Settle(Vanished), w2);
      assert w2.post.pending == seq(left - 1, _ => ENTRY);
      w' := QueueEmpties(w2, left - 1, relayed + 1);
    }
  }

  /** Everything is settled and was relayed once, but the counters claim one more message than was ever sent. */
  predicate Overcounted(w: World) {
    && AllSettled(w) && w.uncounted == 0 && |w.post.relayed| == |w.begun| == PENDING_ACKS + 1
    && w.post.direct == 1 && w.post.direct + w.post.relay == |w.begun| + 1
  }

  /** A sender waits at a full queue while everything before its message, and then the message, is given up. */
  lemma TheClampBites()
    ensures exists w :: Reachable(w) && Overcounted(w)
  {
    QueueFills(PENDING_ACKS);
    OneMoreChosen(PENDING_ACKS);
    var full, one := HandedOver(PENDING_ACKS, [Chosen(KEY, "token")], []), HandedOver(PENDING_ACKS, [], [ENTRY]);
    assert full.begun == one.begun;
    ReachableNext(full, HandOver(0, Promised), one);
    var bare := QueueEmpties(one, PENDING_ACKS, 0);
    var bitten := AfterSettling(bare, ENTRY, Vanished).(waiting := [], uncounted := 1);
    assert Removed(bare.waiting, 0) == [];
    ReachableNext(bare, Finish(0, Vanished), bitten);
    var w := bitten.(post := Counted(bitten.post), uncounted := 0);
    ReachableNext(bitten, Count, w);
    assert Overcounted(w);
  }

  // ---------------------------------------------------------------- a lost message

  /** The pipeline is forgotten between the choice and the look-up: the message goes nowhere, and no counter knows. */
  lemma AMessageIsLost()
    ensures exists w :: Reachable(w) && AllSettled(w) && w.begun == ["token"] == w.lost && Arrivals(w) == []
                        && w.post.direct == w.post.relay == w.uncounted == 0
  {
    OpenIsReachable();
    OneMoreChosen(0);
    var chosen := HandedOver(0, [Chosen(KEY, "token")], []);
    var bare := chosen.(post := chosen.post.(table := Forgotten(OPEN, "model")));
    ReachableNext(chosen, Forget("model"), bare);
    var w := bare.(choosing := [], lost := ["token"]);
    assert Removed(bare.choosing, 0) == [];
    ReachableNext(bare, HandOver(0, Promised), w);
    assert w.begun == ["token"];
  }

  /** It takes no more than that, whenever a sender stands between choice and look-up. */
  lemma WhoeverHasChosenCanLose(w: World, k: nat, handing: Handing)
    requires Reachable(w) && k < |w.choosing|
    ensures exists w' :: Reachable(w') && w'.lost == w.lost + [w.choosing[k].message]
                         && w'.post.relayed == w.post.relayed && w'.post.pending == w.post.pending
  {
    var pipeline := w.choosing[k].key.0;
    var bare := w.(post := w.post.(table := Forgotten(w.post.table, pipeline)));
    ReachableNext(w, Forget(pipeline), bare);
    var w' := AfterHandOver(bare, k, handing);
    ReachableNext(bare, HandOver(k, handing), w');
  }

  // ---------------------------------------------------------------- a message that arrives twice

  /** A message arrives, its acknowledgement does not come in time, and it is relayed as well. */
  lemma AMessageArrivesTwice()
    ensures exists w :: Reachable(w) && AllSettled(w) && w.begun == ["token"] && Arrivals(w) == ["token", "token"]
  {
    QueueFills(1);
    var one := HandedOver(1, [], []);
    assert one.post.pending[1..] == [] && one.begun == ["token"];
    var taken := one.(post := one.post.(pending := []), settling := Some(ENTRY));
    ReachableNext(one, Take, taken);
    var w := AfterSettling(taken, ENTRY, Late).(settling := None);
    ReachableNext(taken, Settle(Late), w);
  }
}
