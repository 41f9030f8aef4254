/** States that some run with few cancels half-way comes to, one step after another. */
module PipelineReach {
  import opened Pipeline
  import opened PipelineInvariant
  import opened PipelinePlaces
  import opened PipelineSlots
  import opened PipelineHeadRoom

  ghost predicate Reaches(c: Config, spare: nat, states: seq<System>, actions: seq<Action>, s: System) {
    Run(c, states, actions) && FewHalfWay(states, spare) && states[|actions|] == s
  }

  ghost predicate Reachable(c: Config, spare: nat, s: System) {
    exists states, actions :: Reaches(c, spare, states, actions, s)
  }

  lemma ReachableFirst(c: Config, spare: nat, s: System)
    requires Init(c, s)
    ensures Reachable(c, spare, s)
  {
    assert Reaches(c, spare, [s], [], s);
  }

  lemma OneStepMore(c: Config, spare: nat, states: seq<System>, actions: seq<Action>, s: System, a: Action, s': System)
    requires Reaches(c, spare, states, actions, s) && Next(c, s, a, s') && |s'.parting| <= spare
    ensures Reaches(c, spare, states + [s'], actions + [a], s')
  {
    hide Next, Init;
    var more, also := states + [s'], actions + [a];
    assert more[0] == states[0];
    forall k | 0 <= k < |also| ensures Next(c, more[k], also[k], more[k + 1]) {
      if k < |actions| {
        assert Next(c, states[k], actions[k], states[k + 1]);
        assert more[k] == states[k] && also[k] == actions[k] && more[k + 1] == states[k + 1];
      }
    }
  }

  /** A reachable state and one step more are the end of a run. */
  lemma RunTo(c: Config, spare: nat, s: System, a: Action, s': System)
    returns (states: seq<System>, actions: seq<Action>)
    requires Reachable(c, spare, s) && Next(c, s, a, s') && |s'.parting| <= spare
    ensures Run(c, states, actions) && FewHalfWay(states, spare) && |states| == |actions| + 1 && |actions| > 0
    ensures actions[|actions| - 1] == a && states[|actions| - 1] == s && states[|actions|] == s'
  {
    hide Next, Init;
    var before, did :| Reaches(c, spare, before, did, s);
    OneStepMore(c, spare, before, did, s, a, s');
    states, actions := before + [s'], did + [a];
  }

  lemma ReachableNext(c: Config, spare: nat, s: System, a: Action, s': System)
    requires Reachable(c, spare, s) && Next(c, s, a, s') && |s'.parting| <= spare
    ensures Reachable(c, spare, s')
  {
    hide Next;
    var states, actions :| Reaches(c, spare, states, actions, s);
    OneStepMore(c, spare, states, actions, s, a, s');
  }

  lemma HeadReaches(c: Config, spare: nat, s: System, a: Action, s': System)
    requires Reachable(c, spare, s) && Shaped(c, s) && HeadStep(c, s, a, s') && |s'.parting| <= spare
    ensures Reachable(c, spare, s')
  {
    hide HeadStep, Shaped, ClientStep, StageStep;
    ReachableNext(c, spare, s, a, s');
  }

  lemma ClientReaches(c: Config, spare: nat, s: System, a: Action, s': System)
    requires Reachable(c, spare, s) && Shaped(c, s) && ClientStep(c, s, a, s') && |s'.parting| <= spare
    ensures Reachable(c, spare, s')
  {
    hide HeadStep, Shaped, ClientStep, StageStep;
    ReachableNext(c, spare, s, a, s');
  }

  lemma StageReaches(c: Config, spare: nat, s: System, a: Action, s': System)
    requires Reachable(c, spare, s) && Shaped(c, s) && StageStep(c, s, a, s') && |s'.parting| <= spare
    ensures Reachable(c, spare, s')
  {
    hide HeadStep, Shaped, ClientStep, StageStep;
    ReachableNext(c, spare, s, a, s');
  }

  /** What holds of every state of a run holds of every reachable one. */
  lemma ReachableIsSound(c: Config, spare: nat, s: System)
    requires Reachable(c, spare, s)
    ensures Inv(c, s) && Shaped(c, s) && InAccount(s) && Orderly(c, s) && s.evicted <= s.asked.Keys
  {
    hide Inv, Shaped, InAccount, Orderly, Run;
    var states, actions :| Reaches(c, spare, states, actions, s);
    assert |actions| < |states| by { RunsAreLong(c, states, actions); }
    StateOfRun(c, states, actions, |actions|);
    OrderlyHolds(c, states, actions, |actions|);
    EvictedWereAsked(c, states, actions, |actions|);
  }

  lemma RunsAreLong(c: Config, states: seq<System>, actions: seq<Action>)
    requires Run(c, states, actions)
    ensures |states| == |actions| + 1
  {
  }
}
