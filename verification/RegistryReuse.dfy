/**
 What happens when a task's name is used again. The books are kept by name, so what one bearer still has
 to give back may be the next bearer's, and what one bearer's reaper stops may be the next bearer.
 Submissions are numbered here; each has a name.
 */
module RegistryReuse {
  import opened Devices
  import opened RegistryRuns

  datatype Bearer = Bearer(id: TaskId, job: Job)

  /** Who has borne which name, by number of submission, and whose reaper has ended. */
  datatype State = State(registry: Registry, bearers: map<nat, Bearer>, ended: set<nat>)

  /**
   One submission does something under its own name; or its reaper, past cards and lease, ends: by
   releasing whoever is listed under its name then, if nothing is retained or the task was cancelled, or
   by letting it be.
   */
  datatype Deed = Deed(number: nat, action: Action) | Reclaim(number: nat) | LetBe(number: nat)

  function Busy(w: State): set<TaskId> {
    set n | n in w.bearers && !w.bearers[n].job.finished && w.bearers[n].job.phase.Running? :: w.bearers[n].id
  }

  /** A release takes this submission off the list; its cards follow. */
  function Popping(w: State, n: nat): State
    requires n in w.bearers
  {
    var b := w.bearers[n];
    w.(registry := Popped(w.registry, b.id), bearers := w.bearers[n := Bearer(b.id, b.job.(phase := LettingGo))])
  }

  predicate IsListed(w: State, n: nat, id: TaskId) {
    n in w.bearers && w.bearers[n].id == id && w.bearers[n].job.phase.Running?
  }

  /** The reaper's last step is still to come. */
  predicate Ends(w: State, m: nat) {
    m in w.bearers && w.bearers[m].job.reaper.LeaseBack? && m !in w.ended
  }

  ghost predicate Turn(w: State, d: Deed, w': State) {
    match d
    case Reclaim(m) =>
      && Ends(w, m)
      && (if exists n :: IsListed(w, n, w.bearers[m].id)
          then exists n :: IsListed(w, n, w.bearers[m].id) && w' == Popping(w, n).(ended := w.ended + {m})
          else w' == w.(ended := w.ended + {m}))
    case LetBe(m) => Ends(w, m) && w' == w.(ended := w.ended + {m})
    case Deed(n, a) => TurnOf(w, n, a, w')
  }

  ghost predicate TurnOf(w: State, n: nat, a: Action, w': State) {
    var r := w.registry;
    if a.Recount? then
      var counted := Recounted(r, Busy(w), a.total);
      w' == if counted.None? then w else w.(registry := counted.value)
    else if a.Claim? then
      && n !in w.bearers
      && var claimed := Claimed(r, a.id, a.wanted);
         w' == if claimed.Err? then w
               else w.(registry := claimed.value,
                       bearers := w.bearers[n := Bearer(a.id, NewJob(Cards(r, a.wanted).value))])
    else
      && n in w.bearers && a.id == w.bearers[n].id && n in w'.bearers && w'.bearers[n].id == a.id
      && Does(r, w.bearers[n].job, a, w'.registry, w'.bearers[n].job)
      && w' == w.(registry := w'.registry, bearers := w.bearers[n := w'.bearers[n]])
  }

  ghost predicate Start(w: State) {
    && w.bearers == map[] && w.ended == {}
    && w.registry.tasks == {} && w.registry.held == map[] && w.registry.claimed == {}
  }

  /** A stretch of a run: every world follows from the one before. */
  ghost predicate Stretch(worlds: seq<State>, deeds: seq<Deed>) {
    && |worlds| == |deeds| + 1
    && forall k | 0 <= k < |deeds| :: Turn(worlds[k], deeds[k], worlds[k + 1])
  }

  // ---------------------------------------------------------------- one bearer of a name at a time

  /** The submission stands in the way of another under its name: it is provisioning, being undone, or listed. */
  predicate Bears(job: Job) {
    job.phase.Provisioning? || job.phase.CardsUndone? || job.phase.Running?
  }

  /** It has no reaper. */
  predicate NeverListed(job: Job) {
    job.phase.Provisioning? || job.phase.CardsUndone? || job.phase.NameUndone? || job.phase.Undone?
  }

  ghost predicate OneBearer(w: State) {
    && (forall n | n in w.bearers && Bears(w.bearers[n].job) ::
          if w.bearers[n].job.phase.Running? then w.bearers[n].id in w.registry.tasks
          else w.bearers[n].id in w.registry.claimed)
    && (forall m, n | m in w.bearers && n in w.bearers && m != n && w.bearers[m].id == w.bearers[n].id ::
          !(Bears(w.bearers[m].job) && Bears(w.bearers[n].job)))
    && (forall n | n in w.bearers && NeverListed(w.bearers[n].job) :: w.bearers[n].job.reaper.Waiting?)
  }

  lemma TurnKeepsOneBearer(w: State, d: Deed, w': State)
    requires OneBearer(w) && Turn(w, d, w')
    ensures OneBearer(w')
  {
    if d.Deed? {
      hide Does, Claimed, OneBearer;
      if d.action.Claim? {
        ClaimKeepsOneBearer(w, d.number, d.action.id, d.action.wanted, w');
      } else if !d.action.Recount? {
        DeedKeepsOneBearer(w, d, w');
      } else {
        RecountKeepsOneBearer(w, d, w');
      }
    }
  }

  lemma ClaimKeepsOneBearer(w: State, n: nat, id: TaskId, wanted: int, w': State)
    requires OneBearer(w) && TurnOf(w, n, Claim(id, wanted), w')
    ensures OneBearer(w')
  {
    hide Cards, Does;
  }

  lemma RecountKeepsOneBearer(w: State, d: Deed, w': State)
    requires OneBearer(w) && d.Deed? && TurnOf(w, d.number, d.action, w') && d.action.Recount?
    ensures OneBearer(w')
  {
  }

  lemma DeedKeepsOneBearer(w: State, d: Deed, w': State)
    requires OneBearer(w) && d.Deed? && TurnOf(w, d.number, d.action, w') && !d.action.Claim? && !d.action.Recount?
    ensures OneBearer(w')
  {
    hide Claimed, Recounted;
  }

  lemma {:induction false} OneBearerHolds(worlds: seq<State>, deeds: seq<Deed>, k: nat)
    requires Stretch(worlds, deeds) && Start(worlds[0]) && k < |worlds|
    ensures OneBearer(worlds[k])
  {
    hide Turn, OneBearer;
    if k == 0 {
      NobodyBears(worlds[0]);
    } else {
      OneBearerHolds(worlds, deeds, k - 1);
      assert Turn(worlds[k - 1], deeds[k - 1], worlds[k - 1 + 1]);
      TurnKeepsOneBearer(worlds[k - 1], deeds[k - 1], worlds[k]);
    }
  }

  lemma NobodyBears(w: State)
    requires Start(w)
    ensures OneBearer(w)
  {
  }

  // ---------------------------------------------------------------- who may still give back

  /** Neither its undo, nor its reaper, nor a release that took it off the list will give back cards any more. */
  predicate Through(job: Job) {
    || job.phase.CardsUndone? || job.phase.NameUndone? || job.phase.Undone?
    || (job.phase.LetGo? && !job.reaper.Waiting?)
  }

  /** Everybody else who has borne the name is through. */
  ghost predicate OthersThrough(w: State, n: nat)
    requires n in w.bearers
  {
    forall m | m in w.bearers && m != n && w.bearers[m].id == w.bearers[n].id :: Through(w.bearers[m].job)
  }

  /** This submission has its cards, and its name. */
  predicate HasBoth(job: Job) {
    (job.phase.Provisioning? || job.phase.Running?) && job.reaper.Waiting? && job.cards != []
  }

  /** The books have its entry. */
  predicate Entered(w: State, n: nat)
    requires n in w.bearers
  {
    w.bearers[n].id in w.registry.held && w.registry.held[w.bearers[n].id] == w.bearers[n].job.cards
  }

  /** It is through with everybody else's giving back, and entered for as long as it has both. */
  ghost predicate Safe(w: State, n: nat) {
    && n in w.bearers
    && (w.bearers[n].job.phase.Provisioning? || w.bearers[n].job.phase.Running? ==> OthersThrough(w, n))
    && (HasBoth(w.bearers[n].job) ==> Entered(w, n))
  }

  lemma DoesKeepsSafe(w: State, m: nat, a: Action, w': State, n: nat)
    requires OneBearer(w) && TurnOf(w, m, a, w') && Safe(w, n) && !a.Recount? && !a.Claim?
    ensures Safe(w', n)
  {
    hide Cards, Claimed, Recounted;
    var (before, after) := (w.bearers[m], w'.bearers[m]);
    assert m != n && before.id == w.bearers[n].id && Through(before.job) ==> Through(after.job);
  }

  lemma ClaimKeepsSafe(w: State, m: nat, id: TaskId, wanted: int, w': State, n: nat)
    requires OneBearer(w) && TurnOf(w, m, Claim(id, wanted), w') && Safe(w, n)
    ensures Safe(w', n)
  {
    hide Cards, Does;
  }

  lemma TurnKeepsSafe(w: State, d: Deed, w': State, n: nat)
    requires OneBearer(w) && Turn(w, d, w') && Safe(w, n)
    ensures Safe(w', n)
  {
    match d
    case Deed(m, a) =>
      hide Does, Claimed, OneBearer;
      if a.Claim? {
        ClaimKeepsSafe(w, m, a.id, a.wanted, w', n);
      } else if !a.Recount? {
        DoesKeepsSafe(w, m, a, w', n);
      }
    case _ =>
  }

  lemma {:induction false} SafeStays(worlds: seq<State>, deeds: seq<Deed>, k: nat, n: nat)
    requires Stretch(worlds, deeds) && OneBearer(worlds[0]) && Safe(worlds[0], n) && k < |worlds|
    ensures OneBearer(worlds[k]) && Safe(worlds[k], n)
  {
    hide Turn, OneBearer, Safe;
    if k > 0 {
      SafeStays(worlds, deeds, k - 1, n);
      assert Turn(worlds[k - 1], deeds[k - 1], worlds[k - 1 + 1]);
      TurnKeepsOneBearer(worlds[k - 1], deeds[k - 1], worlds[k]);
      TurnKeepsSafe(worlds[k - 1], deeds[k - 1], worlds[k], n);
    }
  }

  // ---------------------------------------------------------------- when somebody is not through

  lemma StretchOn(worlds: seq<State>, deeds: seq<Deed>, d: Deed, w': State)
    requires Stretch(worlds, deeds) && Turn(worlds[|deeds|], d, w')
    ensures Stretch(worlds + [w'], deeds + [d])
  {
    hide Turn;
    var more, also := worlds + [w'], deeds + [d];
    forall k | 0 <= k < |also| ensures Turn(more[k], also[k], more[k + 1]) {
      if k < |deeds| {
        assert Turn(worlds[k], deeds[k], worlds[k + 1]);
        assert more[k] == worlds[k] && also[k] == deeds[k] && more[k + 1] == worlds[k + 1];
      }
    }
  }

  /** One submission does one thing more at the end of a stretch, and only it and the registry change. */
  lemma OneDeedMore(worlds: seq<State>, deeds: seq<Deed>, m: nat, a: Action, registry: Registry, job: Job)
    returns (more: seq<State>, also: seq<Deed>)
    requires Stretch(worlds, deeds) && !a.Recount? && !a.Claim?
    requires m in worlds[|deeds|].bearers && a.id == worlds[|deeds|].bearers[m].id
    requires Does(worlds[|deeds|].registry, worlds[|deeds|].bearers[m].job, a, registry, job)
    ensures Stretch(more, also) && more[0] == worlds[0]
    ensures var w := worlds[|deeds|];
            more[|also|] == w.(registry := registry, bearers := w.bearers[m := Bearer(w.bearers[m].id, job)])
  {
    var w := worlds[|deeds|];
    var w' := w.(registry := registry, bearers := w.bearers[m := Bearer(w.bearers[m].id, job)]);
    hide Does;
    assert Turn(w, Deed(m, a), w');
    StretchOn(worlds, deeds, Deed(m, a), w');
    more, also := worlds + [w'], deeds + [Deed(m, a)];
  }

  /** The process of a submission that was taken off the list has ended. */
  lemma EndsFirst(w: State, m: nat) returns (worlds: seq<State>, deeds: seq<Deed>)
    requires m in w.bearers && (w.bearers[m].job.phase.LettingGo? || w.bearers[m].job.phase.LetGo?)
    ensures Stretch(worlds, deeds) && worlds[0] == w
    ensures worlds[|deeds|]
         == w.(bearers := w.bearers[m := Bearer(w.bearers[m].id, w.bearers[m].job.(finished := true))])
  {
    var b := w.bearers[m];
    if b.job.finished {
      assert w.bearers[m := Bearer(b.id, b.job.(finished := true))] == w.bearers;
      worlds, deeds := [w], [];
    } else {
      worlds, deeds := OneDeedMore([w], [], m, End(b.id), w.registry, b.job.(finished := true));
    }
  }

  /** An earlier bearer that is not through: within two steps it takes the later one's entry away. */
  lemma EntryIsLost(w: State, n: nat, m: nat) returns (worlds: seq<State>, deeds: seq<Deed>)
    requires OneBearer(w) && n in w.bearers && m in w.bearers && m != n && w.bearers[m].id == w.bearers[n].id
    requires HasBoth(w.bearers[n].job) && !Through(w.bearers[m].job)
    ensures Stretch(worlds, deeds) && worlds[0] == w
    ensures var last := worlds[|deeds|];
            && n in last.bearers && last.bearers[n] == w.bearers[n] && !Entered(last, n)
            && last.bearers.Keys == w.bearers.Keys && last.registry == WithoutCards(w.registry, w.bearers[n].id)
  {
    var b := w.bearers[m];
    assert !Bears(b.job);
    if b.job.phase.LettingGo? {
      worlds, deeds := OneDeedMore([w], [], m, ReleaseCards(b.id), WithoutCards(w.registry, b.id),
                                   b.job.(phase := LetGo, hasty := !b.job.finished));
    } else {
      var begun, before := EndsFirst(w, m);
      var job := begun[|before|].bearers[m].job;
      worlds, deeds := OneDeedMore(begun, before, m, ReapCards(b.id), WithoutCards(w.registry, b.id),
                                   job.(reaper := CardsBack));
    }
  }

  // ---------------------------------------------------------------- the result

  /** Whatever happens from here on, the submission is entered for as long as it has its name and its cards. */
  ghost predicate KeepsItsEntry(w: State, n: nat) {
    forall worlds: seq<State>, deeds: seq<Deed>, k: nat | Stretch(worlds, deeds) && worlds[0] == w && k < |worlds| ::
      n in worlds[k].bearers && (HasBoth(worlds[k].bearers[n].job) ==> Entered(worlds[k], n))
  }

  /**
   When a name may be used again: a submission that is entered keeps its entry, whatever follows, if and
   only if every reaper and every release of an earlier bearer of its name is through.
   */
  lemma NamesMayComeBack(worlds: seq<State>, deeds: seq<Deed>, k: nat, n: nat)
    requires Stretch(worlds, deeds) && Start(worlds[0]) && k < |worlds| && n in worlds[k].bearers
    requires HasBoth(worlds[k].bearers[n].job) && Entered(worlds[k], n)
    ensures KeepsItsEntry(worlds[k], n) <==> OthersThrough(worlds[k], n)
  {
    OneBearerHolds(worlds, deeds, k);
    var w := worlds[k];
    hide Turn, OneBearer, HasBoth, Entered, Through;
    if OthersThrough(w, n) {
      forall more: seq<State>, also: seq<Deed>, i: nat | Stretch(more, also) && more[0] == w && i < |more|
        ensures n in more[i].bearers && (HasBoth(more[i].bearers[n].job) ==> Entered(more[i], n))
      {
        SafeStays(more, also, i, n);
      }
    } else {
      var m :| m in w.bearers && m != n && w.bearers[m].id == w.bearers[n].id && !Through(w.bearers[m].job);
      var more, also := EntryIsLost(w, n, m);
      assert n in more[|also|].bearers && HasBoth(more[|also|].bearers[n].job) && !Entered(more[|also|], n);
    }
  }

  // ---------------------------------------------------------------- who may still be stopped by name

  /** Its reaper never started, or has ended: nothing of it will take anybody off the list. */
  predicate Over(w: State, m: nat)
    requires m in w.bearers
  {
    var job := w.bearers[m].job;
    job.phase.CardsUndone? || job.phase.NameUndone? || job.phase.Undone? || m in w.ended
  }

  ghost predicate OthersOver(w: State, n: nat)
    requires n in w.bearers
  {
    forall m | m in w.bearers && m != n && w.bearers[m].id == w.bearers[n].id :: Over(w, m)
  }

  /** In this step another bearer's reaper takes the submission off the list. */
  ghost predicate StopsAnother(w: State, d: Deed, w': State, n: nat) {
    && d.Reclaim? && d.number != n
    && n in w.bearers && w.bearers[n].job.phase.Running?
    && n in w'.bearers && w'.bearers[n].job.phase.LettingGo?
  }

  /** Whatever happens from here on, no reaper of another bearer takes the submission off the list. */
  ghost predicate IsLeftAlone(w: State, n: nat) {
    forall worlds: seq<State>, deeds: seq<Deed>, k: nat | Stretch(worlds, deeds) && worlds[0] == w && k < |deeds| ::
      !StopsAnother(worlds[k], deeds[k], worlds[k + 1], n)
  }

  ghost predicate Bearing(w: State, n: nat) {
    && n in w.bearers
    && (w.bearers[n].job.phase.Provisioning? || w.bearers[n].job.phase.Running? ==> OthersOver(w, n))
    && (forall m | m in w.ended :: m in w.bearers)
  }

  lemma DoesKeepsBearing(w: State, m: nat, a: Action, w': State, n: nat)
    requires OneBearer(w) && TurnOf(w, m, a, w') && Bearing(w, n) && !a.Recount? && !a.Claim?
    ensures Bearing(w', n)
  {
    hide Cards, Claimed, Recounted;
  }

  lemma ClaimKeepsBearing(w: State, m: nat, id: TaskId, wanted: int, w': State, n: nat)
    requires OneBearer(w) && TurnOf(w, m, Claim(id, wanted), w') && Bearing(w, n)
    ensures Bearing(w', n)
  {
    hide Cards, Does;
  }

  lemma ReclaimKeepsBearing(w: State, m: nat, w': State, n: nat)
    requires OneBearer(w) && Turn(w, Reclaim(m), w') && Bearing(w, n)
    ensures Bearing(w', n) && !StopsAnother(w, Reclaim(m), w', n)
  {
    hide TurnOf;
  }

  lemma TurnKeepsBearing(w: State, d: Deed, w': State, n: nat)
    requires OneBearer(w) && Turn(w, d, w') && Bearing(w, n)
    ensures Bearing(w', n) && !StopsAnother(w, d, w', n)
  {
    match d
    case Reclaim(m) => ReclaimKeepsBearing(w, m, w', n);
    case LetBe(_) => hide TurnOf;
    case Deed(m, a) =>
      hide Does, Claimed, OneBearer;
      if a.Claim? {
        ClaimKeepsBearing(w, m, a.id, a.wanted, w', n);
      } else if !a.Recount? {
        DoesKeepsBearing(w, m, a, w', n);
      }
  }

  lemma {:induction false} BearingStays(worlds: seq<State>, deeds: seq<Deed>, k: nat, n: nat)
    requires Stretch(worlds, deeds) && OneBearer(worlds[0]) && Bearing(worlds[0], n) && k < |worlds|
    ensures OneBearer(worlds[k]) && Bearing(worlds[k], n)
    ensures k < |deeds| ==> !StopsAnother(worlds[k], deeds[k], worlds[k + 1], n)
  {
    hide Turn, OneBearer, Bearing, StopsAnother;
    if k > 0 {
      BearingStays(worlds, deeds, k - 1, n);
      assert Turn(worlds[k - 1], deeds[k - 1], worlds[k - 1 + 1]);
      TurnKeepsOneBearer(worlds[k - 1], deeds[k - 1], worlds[k]);
      TurnKeepsBearing(worlds[k - 1], deeds[k - 1], worlds[k], n);
    }
    if k < |deeds| {
      assert Turn(worlds[k], deeds[k], worlds[k + 1]);
      TurnKeepsBearing(worlds[k], deeds[k], worlds[k + 1], n);
    }
  }

  /** Somebody who is taken off the list or let go gets as far as its reaper's last step. */
  lemma ReaperComesToItsEnd(w: State, m: nat) returns (worlds: seq<State>, deeds: seq<Deed>)
    requires m in w.bearers && m !in w.ended
    requires w.bearers[m].job.phase.LettingGo? || w.bearers[m].job.phase.LetGo?
    ensures Stretch(worlds, deeds) && worlds[0] == w
    ensures var last := worlds[|deeds|];
            && Ends(last, m) && last.bearers[m].id == w.bearers[m].id && last.bearers.Keys == w.bearers.Keys
            && last.ended == w.ended && (forall n | n in w.bearers && n != m :: last.bearers[n] == w.bearers[n])
  {
    worlds, deeds := EndsFirst(w, m);
    var b := worlds[|deeds|].bearers[m];
    if b.job.reaper.Waiting? {
      worlds, deeds := OneDeedMore(worlds, deeds, m, ReapCards(b.id), WithoutCards(w.registry, b.id),
                                   b.job.(reaper := CardsBack));
    }
    b := worlds[|deeds|].bearers[m];
    if b.job.reaper.CardsBack? {
      worlds, deeds := OneDeedMore(worlds, deeds, m, ReapLease(b.id), Returned(worlds[|deeds|].registry, b.job.env),
                                   b.job.(reaper := LeaseBack));
    }
  }

  /** Somebody who provisions gets as far as being listed. */
  lemma IsListedAtLast(worlds: seq<State>, deeds: seq<Deed>, n: nat) returns (more: seq<State>, also: seq<Deed>)
    requires Stretch(worlds, deeds) && n in worlds[|deeds|].bearers
    requires worlds[|deeds|].bearers[n].job.phase.Provisioning? || worlds[|deeds|].bearers[n].job.phase.Running?
    ensures Stretch(more, also) && more[0] == worlds[0]
    ensures var (w, last) := (worlds[|deeds|], more[|also|]);
            && IsListed(last, n, w.bearers[n].id) && last.bearers.Keys == w.bearers.Keys && last.ended == w.ended
            && (forall m | m in w.bearers && m != n :: last.bearers[m] == w.bearers[m])
  {
    more, also := worlds, deeds;
    var b := more[|also|].bearers[n];
    if b.job.phase.Provisioning? && b.job.env == "" {
      more, also := OneDeedMore(more, also, n, Acquire(b.id, NO_ENVIRONMENT),
                                Leased(more[|also|].registry, NO_ENVIRONMENT), b.job.(env := NO_ENVIRONMENT));
    }
    b := more[|also|].bearers[n];
    if b.job.phase.Provisioning? {
      more, also := OneDeedMore(more, also, n, List(b.id), Listed(more[|also|].registry, b.id),
                                b.job.(phase := Running));
    }
  }

  /** An earlier bearer whose reaper is not over: it can take the later one off the list. */
  lemma AnotherIsStopped(w: State, n: nat, m: nat) returns (worlds: seq<State>, deeds: seq<Deed>)
    requires OneBearer(w) && n in w.bearers && m in w.bearers && m != n && w.bearers[m].id == w.bearers[n].id
    requires w.bearers[n].job.phase.Provisioning? || w.bearers[n].job.phase.Running?
    requires !Over(w, m)
    ensures Stretch(worlds, deeds) && worlds[0] == w && |deeds| > 0
    ensures StopsAnother(worlds[|deeds| - 1], deeds[|deeds| - 1], worlds[|deeds|], n)
  {
    assert !Bears(w.bearers[m].job);
    hide OneBearer, Turn, Through;
    var begun, before := ReaperComesToItsEnd(w, m);
    begun, before := IsListedAtLast(begun, before, n);
    var last := begun[|before|];
    StretchKeepsOneBearer(begun, before, |before|);
    var w' := Popping(last, n).(ended := last.ended + {m});
    assert Turn(last, Reclaim(m), w') by { ReclaimIsATurn(last, m, n); }
    StretchOn(begun, before, Reclaim(m), w');
    worlds, deeds := begun + [w'], before + [Reclaim(m)];
  }

  lemma ReclaimIsATurn(w: State, m: nat, n: nat)
    requires Ends(w, m) && IsListed(w, n, w.bearers[m].id)
    ensures Turn(w, Reclaim(m), Popping(w, n).(ended := w.ended + {m}))
  {
  }

  lemma {:induction false} StretchKeepsOneBearer(worlds: seq<State>, deeds: seq<Deed>, k: nat)
    requires Stretch(worlds, deeds) && OneBearer(worlds[0]) && k < |worlds|
    ensures OneBearer(worlds[k])
  {
    hide Turn, OneBearer;
    if k > 0 {
      StretchKeepsOneBearer(worlds, deeds, k - 1);
      assert Turn(worlds[k - 1], deeds[k - 1], worlds[k - 1 + 1]);
      TurnKeepsOneBearer(worlds[k - 1], deeds[k - 1], worlds[k]);
    }
  }

  lemma {:induction false} TheEndedWereThere(worlds: seq<State>, deeds: seq<Deed>, k: nat)
    requires Stretch(worlds, deeds) && Start(worlds[0]) && k < |worlds|
    ensures forall m | m in worlds[k].ended :: m in worlds[k].bearers
  {
    if k > 0 {
      TheEndedWereThere(worlds, deeds, k - 1);
      assert Turn(worlds[k - 1], deeds[k - 1], worlds[k - 1 + 1]);
      hide Does, Claimed, Recounted, Cards;
    }
  }

  /**
   When nothing of an earlier bearer stops a later one: a submission that provisions or runs is never
   taken off the list by another bearer's reaper, whatever follows, if and only if every reaper of
   another bearer of its name never started or has ended.
   */
  lemma NobodyStopsTheNext(worlds: seq<State>, deeds: seq<Deed>, k: nat, n: nat)
    requires Stretch(worlds, deeds) && Start(worlds[0]) && k < |worlds| && n in worlds[k].bearers
    requires worlds[k].bearers[n].job.phase.Provisioning? || worlds[k].bearers[n].job.phase.Running?
    ensures IsLeftAlone(worlds[k], n) <==> OthersOver(worlds[k], n)
  {
    OneBearerHolds(worlds, deeds, k);
    TheEndedWereThere(worlds, deeds, k);
    var w := worlds[k];
    hide Turn, OneBearer, StopsAnother, Over;
    if OthersOver(w, n) {
      forall more: seq<State>, also: seq<Deed>, i: nat | Stretch(more, also) && more[0] == w && i < |also|
        ensures !StopsAnother(more[i], also[i], more[i + 1], n)
      {
        BearingStays(more, also, i, n);
      }
    } else {
      var m :| m in w.bearers && m != n && w.bearers[m].id == w.bearers[n].id && !Over(w, m);
      var more, also := AnotherIsStopped(w, n, m);
      assert StopsAnother(more[|also| - 1], also[|also| - 1], more[|also| - 1 + 1], n);
    }
  }

  // ---------------------------------------------------------------- how it comes to shared cards

  /** A submission is entered from the start. */
  lemma ClaimEnters(w: State, n: nat, id: TaskId, wanted: int)
    requires n !in w.bearers && Claimed(w.registry, id, wanted).Ok?
    ensures var cards := Cards(w.registry, wanted).value;
            var w' := w.(registry := Claimed(w.registry, id, wanted).value,
                         bearers := w.bearers[n := Bearer(id, NewJob(cards))]);
            Turn(w, Deed(n, Claim(id, wanted)), w') && (cards != [] ==> HasBoth(w'.bearers[n].job) && Entered(w', n))
  {
    hide Cards;
  }

  lemma OneClaimMore(worlds: seq<State>, deeds: seq<Deed>, n: nat, id: TaskId, wanted: int)
    returns (more: seq<State>, also: seq<Deed>)
    requires Stretch(worlds, deeds) && n !in worlds[|deeds|].bearers
    requires Claimed(worlds[|deeds|].registry, id, wanted).Ok? && wanted > 0
    ensures Stretch(more, also) && more[0] == worlds[0]
    ensures var w := worlds[|deeds|];
            more[|also|] == w.(registry := Claimed(w.registry, id, wanted).value,
                               bearers := w.bearers[n := Bearer(id, NewJob(Cards(w.registry, wanted).value))])
    ensures HasBoth(more[|also|].bearers[n].job) && Entered(more[|also|], n)
  {
    var w := worlds[|deeds|];
    ClaimEnters(w, n, id, wanted);
    CardsWereFree(w.registry, wanted);
    hide Claimed, Cards, Turn;
    var w' := w.(registry := Claimed(w.registry, id, wanted).value,
                 bearers := w.bearers[n := Bearer(id, NewJob(Cards(w.registry, wanted).value))]);
    StretchOn(worlds, deeds, Deed(n, Claim(id, wanted)), w');
    more, also := worlds + [w'], deeds + [Deed(n, Claim(id, wanted))];
  }

  /** A name comes back while its last bearer is not through: it is enough that a release has taken it off the list. */
  lemma NamesComeBackEarly(w: State, m: nat, n: nat, wanted: int)
    returns (worlds: seq<State>, deeds: seq<Deed>)
    requires m in w.bearers && n !in w.bearers && w.bearers[m].job.phase.Running?
    requires w.bearers[m].id !in w.registry.claimed && 0 < wanted <= |Free(w.registry)|
    ensures Stretch(worlds, deeds) && worlds[0] == w
    ensures var (last, id) := (worlds[|deeds|], w.bearers[m].id);
            && last.bearers.Keys == w.bearers.Keys + {n} && last.bearers[n].id == id && last.bearers[m].id == id
            && HasBoth(last.bearers[n].job) && Entered(last, n)
            && !Through(last.bearers[m].job) && !Over(last, m) == (m !in w.ended)
            && last.registry == w.registry.(tasks := w.registry.tasks - {id}, claimed := w.registry.claimed + {id},
                                            held := w.registry.held[id := last.bearers[n].job.cards])
            && last.bearers[n].job.cards == Cards(w.registry, wanted).value
  {
    var b := w.bearers[m];
    var begun, before := OneDeedMore([w], [], m, Pop(b.id), Popped(w.registry, b.id), b.job.(phase := LettingGo));
    var w1 := begun[|before|];
    assert Free(w1.registry) == Free(w.registry);
    hide Free;
    worlds, deeds := OneClaimMore(begun, before, n, b.id, wanted);
  }

  /** No card is in two entries, under names that are used again as well. */
  lemma {:induction false} EntriesAreApart(worlds: seq<State>, deeds: seq<Deed>, k: nat)
    requires Stretch(worlds, deeds) && Start(worlds[0]) && k < |worlds|
    ensures Apart(worlds[k].registry.held)
  {
    hide Turn;
    if k > 0 {
      EntriesAreApart(worlds, deeds, k - 1);
      assert Turn(worlds[k - 1], deeds[k - 1], worlds[k - 1 + 1]);
      TurnKeepsApart(worlds[k - 1], deeds[k - 1], worlds[k]);
    }
  }

  lemma TurnKeepsApart(w: State, d: Deed, w': State)
    requires Turn(w, d, w') && Apart(w.registry.held)
    ensures Apart(w'.registry.held)
  {
    if d.Deed? && d.action.Claim? {
      ClaimKeepsApart(w, d.number, d.action.id, d.action.wanted, w');
    } else {
      OnlyClaimsEnter(w, d, w');
      hide Turn;
    }
  }

  lemma OnlyClaimsEnter(w: State, d: Deed, w': State)
    requires Turn(w, d, w') && !(d.Deed? && d.action.Claim?)
    ensures forall id | id in w'.registry.held ::
              id in w.registry.held && w'.registry.held[id] == w.registry.held[id]
  {
    hide Cards, Claimed;
  }

  lemma ClaimKeepsApart(w: State, n: nat, id: TaskId, wanted: int, w': State)
    requires TurnOf(w, n, Claim(id, wanted), w') && Apart(w.registry.held)
    ensures Apart(w'.registry.held)
  {
    if w' != w && wanted > 0 {
      CardsWereFree(w.registry, wanted);
      hide Cards;
      var (held, cards) := (w.registry.held, Cards(w.registry, wanted).value);
      var after := held[id := cards];
      assert w'.registry.held == after || w'.registry.held == held;
      forall a, b | a in after && b in after && a != b ensures forall d | d in after[a] :: d !in after[b] {
        if b == id { assert forall d | d in cards :: d !in held[a]; }
      }
    }
  }

  /** Without its entry its cards are free for the next, although it is at work. */
  lemma LostCardsAreGivenOut(r: Registry, d: nat)
    requires d < r.total && forall id | id in r.held :: d !in r.held[id]
    ensures |Free(r)| > 0 && Cards(r, |Free(r)|).Ok? && d in Cards(r, |Free(r)|).value
  {
    FreeIsTheComplement(r);
    assert d in Free(r) && Free(r)[..|Free(r)|] == Free(r);
  }

  lemma FreshCardIsElsewhere(w: State, last: State, n: nat, id: TaskId, wanted: int, d: nat)
    requires Cards(w.registry, wanted).Ok? && d in Cards(w.registry, wanted).value
    requires last.registry.held == w.registry.held - {id} && last.registry.total == w.registry.total
    ensures d < last.registry.total && forall other | other in last.registry.held :: d !in last.registry.held[other]
  {
    CardsWereFree(w.registry, wanted);
  }

  /**
   A name used again can cost the next bearer its cards: whenever a submission runs and a card is free,
   the run can go on so that the submission is released, its name comes back before it is through, and
   the next bearer's cards are given to a task of another name while the next bearer has them too.
   */
  lemma ReusedNamesShareCards(worlds: seq<State>, deeds: seq<Deed>, m: nat, n: nat, p: nat, other: TaskId)
    returns (more: seq<State>, also: seq<Deed>, d: nat)
    requires Stretch(worlds, deeds) && Start(worlds[0])
    requires var w := worlds[|deeds|];
             && m in w.bearers && w.bearers[m].job.phase.Running? && w.bearers[m].id !in w.registry.claimed
             && n !in w.bearers && p !in w.bearers && n != p && Free(w.registry) != []
             && other != w.bearers[m].id && other !in w.registry.tasks && other !in w.registry.claimed
    ensures Stretch(more, also) && more[0] == worlds[|deeds|]
    ensures var last := more[|also|];
            && n in last.bearers && p in last.bearers && last.bearers[n].id != last.bearers[p].id
            && HasBoth(last.bearers[n].job) && HasBoth(last.bearers[p].job)
            && d in last.bearers[n].job.cards && d in last.bearers[p].job.cards
  {
    var w := worlds[|deeds|];
    var id := w.bearers[m].id;
    OneBearerHolds(worlds, deeds, |deeds|);
    var begun, before := NamesComeBackEarly(w, m, n, 1);
    var w1 := begun[|before|];
    CardsWereFree(w.registry, 1);
    StretchKeepsOneBearer(begun, before, |before|);
    var lost, so := EntryIsLost(w1, n, m);
    var w2 := lost[|so|];
    d := w1.bearers[n].job.cards[0];
    assert w2.registry.held == w.registry.held - {id};
    FreshCardIsElsewhere(w, w2, n, id, 1, d);
    LostCardsAreGivenOut(w2.registry, d);
    hide Turn, Free, Cards, Claimed, OneBearer, Through;
    StretchesJoin(begun, before, lost, so);
    assert Claimed(w2.registry, other, |Free(w2.registry)|).Ok? by { ClaimIsGranted(w2.registry, other); }
    more, also := OneClaimMore(begun + lost[1..], before + so, p, other, |Free(w2.registry)|);
  }

  lemma ClaimIsGranted(r: Registry, id: TaskId)
    requires id !in r.tasks && id !in r.claimed && Cards(r, |Free(r)|).Ok?
    ensures Claimed(r, id, |Free(r)|).Ok?
  {
  }

  /** Two stretches, the second from where the first ends, are one. */
  lemma StretchesJoin(worlds: seq<State>, deeds: seq<Deed>, more: seq<State>, also: seq<Deed>)
    requires Stretch(worlds, deeds) && Stretch(more, also) && more[0] == worlds[|deeds|]
    ensures Stretch(worlds + more[1..], deeds + also)
    ensures (worlds + more[1..])[0] == worlds[0] && (worlds + more[1..])[|deeds| + |also|] == more[|also|]
  {
    hide Turn;
    var (all, done) := (worlds + more[1..], deeds + also);
    forall k | 0 <= k < |done| ensures Turn(all[k], done[k], all[k + 1]) {
      if k < |deeds| {
        assert Turn(worlds[k], deeds[k], worlds[k + 1]);
      } else {
        assert Turn(more[k - |deeds|], also[k - |deeds|], more[k - |deeds| + 1]);
      }
    }
  }
}
