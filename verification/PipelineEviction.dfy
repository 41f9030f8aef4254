/**
 Why room has to be asked for, and how much of it. The head frees slots and selects batches in two
 steps, and a cancel in between gives a place in the queue away before the slot is free. With few places,
 some run then evicts a request that is still being answered, with any number of later stages. In that
 run one request goes on, as many others as possible leave half-way or after the drain, and new ones take
 their places in the queue.
 */
module PipelineEviction {
  import opened FiniteSets
  import opened Transformer
  import opened Sequences
  import opened Scheduling
  import opened Engines
  import opened Heads
  import opened Pipeline
  import opened PipelineInvariant
  import opened PipelineDelivery
  import opened PipelineTheorems
  import opened PipelinePlaces
  import opened PipelineHeadRoom
  import opened PipelineLiving
  import opened PipelineReach
  import opened PipelineJourney

  // ---------------------------------------------------------------- a head between rounds

  /** A prompt of one token is accepted, and its answer may go on after the first token. */
  ghost predicate Talks(c: Config, o: Opening) {
    c.Valid() && Opens(c, o) && c.limits.maxBatchTokens > 0
  }

  function NameOf(n: nat): Id {
    seq(n + 1, _ => 'x')
  }

  function Asking(o: Opening, n: nat): Request {
    Request(NameOf(n), [o.token], [], o.sampling, 9)
  }

  lemma NamesDiffer(m: nat, n: nat)
    ensures NameOf(m) == NameOf(n) ==> m == n
    ensures NameOf(n) != ""
  {
    assert |NameOf(m)| == m + 1 && |NameOf(n)| == n + 1;
  }

  /** Nobody has the `n`-th name or a later one. */
  ghost predicate Unused(names: set<Id>, n: nat) {
    forall k: nat | k >= n :: NameOf(k) !in names
  }

  lemma UnusedNext(names: set<Id>, n: nat)
    requires Unused(names, n)
    ensures NameOf(n) !in names && Unused(names + {NameOf(n)}, n + 1)
  {
    forall k: nat | k >= n + 1 ensures NameOf(k) !in names + {NameOf(n)} { NamesDiffer(k, n); }
  }

  lemma UnusedByFewer(fewer: set<Id>, names: set<Id>, n: nat)
    requires Unused(names, n) && fewer <= names
    ensures Unused(fewer, n)
  {
  }

  /** Nobody is half-way out of the queue before or at it; `n` and later numbers are names nobody used yet. */
  ghost predicate Camp(c: Config, s: System, n: nat, waiting: seq<Request>, running: seq<Request>) {
    && Shaped(c, s) && (s.phase.Idle? || s.phase.Drained?)
    && Unused(s.batches, n) && s.leaving == {}
    && s.head.queue == Queue(waiting, running)
    && DistinctIds(running) && Ids(running) <= s.head.tickets
    && Unused(s.asked.Keys, n)
    && s.head.tickets <= s.asked.Keys && s.engines[0].slots.Keys <= s.asked.Keys
  }

  /** Older than every other slot. */
  ghost predicate Eldest(e: Engine, id: Id) {
    && id in e.slots && e.slots[id].created < e.clock
    && forall other | other in e.slots && other != id :: e.slots[id].created < e.slots[other].created
  }

  /** The engine has one slot more, the youngest. */
  ghost predicate Younger(e: Engine, after: Engine, id: Id) {
    && id !in e.slots && after.slots.Keys == e.slots.Keys + {id} && |after.slots| == |e.slots| + 1
    && after.slots[id].created == e.clock && after.clock == e.clock + 1
    && forall other | other in e.slots :: after.slots[other] == e.slots[other]
  }

  /** The first forward makes a slot, and keeps its age ever after. */
  lemma NewSlot(shard: Shard, e: Engine, id: Id, at: seq<nat>, rows: seq<Row>)
    requires Fitted(shard, e) && id !in e.slots && |e.slots| < shard.capacity
    ensures Younger(e, Forwarded(shard, e, id, at, rows).0, id)
  {
    var after := Forwarded(shard, e, id, at, rows).0;
    assert after.slots.Keys == e.slots.Keys + {id};
    assert |after.slots| == |after.slots.Keys| && |e.slots| == |e.slots.Keys|;
  }

  // ---------------------------------------------------------------- somebody new is asked for

  lemma NewcomerWaits(c: Config, o: Opening, spare: nat, s: System, n: nat, waiting: seq<Request>,
                      running: seq<Request>)
    returns (s': System)
    requires Talks(c, o) && Reachable(c, spare, s) && Camp(c, s, n, waiting, running)
    requires |waiting| + |running| < c.limits.maxSequences && |s.parting| <= spare
    ensures Reachable(c, spare, s') && Camp(c, s', n + 1, waiting + [Asking(o, n)], running)
    ensures s'.engines == s.engines && s'.phase == s.phase && s'.parting == s.parting
    ensures s'.head.toRelease == s.head.toRelease && s'.head.tickets == s.head.tickets + {NameOf(n)}
    ensures s'.asked.Keys == s.asked.Keys + {NameOf(n)} && s'.evicted == s.evicted && s'.batches == s.batches
  {
    var r := Asking(o, n);
    NamesDiffer(n, n);
    var head := s.head.(queue := Queue(waiting + [r], running), tickets := s.head.tickets + {r.id},
                        streams := s.head.streams[r.id := []]);
    s' := s.(head := head, asked := s.asked[r.id := r]);
    UnusedNext(s.asked.Keys, n);
    assert s'.asked.Keys == s.asked.Keys + {NameOf(n)};
    hide Unused, NameOf;
    ClientReaches(c, spare, s, Submit(r), s');
  }

  lemma Drains(c: Config, spare: nat, s: System, n: nat, waiting: seq<Request>, running: seq<Request>)
    returns (s': System)
    requires Reachable(c, spare, s) && Camp(c, s, n, waiting, running) && s.phase.Idle? && s.head.toRelease == []
    requires |s.parting| <= spare
    ensures Reachable(c, spare, s') && Camp(c, s', n, waiting, running) && s' == s.(phase := Drained)
  {
    s' := s.(phase := Drained);
    HeadReaches(c, spare, s, DrainedAll, s');
  }

  // ---------------------------------------------------------------- selecting all who wait

  function Newcomers(o: Opening, n: nat, count: nat): (batch: seq<Request>)
    ensures |batch| == count
  {
    seq(count, k requires 0 <= k < count => Asking(o, n + k))
  }

  lemma {:induction false} NewcomersPrompts(o: Opening, n: nat, count: nat)
    ensures PromptTokens(Newcomers(o, n, count)) == count
  {
    if count > 0 {
      NewcomersPrompts(o, n, count - 1);
      assert Newcomers(o, n, count)[..count - 1] == Newcomers(o, n, count - 1);
      assert Newcomers(o, n, count)[count - 1] == Asking(o, n + count - 1);
    } else {
      assert Newcomers(o, n, 0) == [];
    }
  }

  lemma AllAreChosen(c: Config, o: Opening, n: nat, count: nat, running: seq<Request>)
    requires Talks(c, o) && 0 < count <= FreshBeside(c, |running|)
    ensures var waiting := Newcomers(o, n, count);
            NextBatch(Queue(waiting, running), c.limits) == (Prefill(waiting), Queue([], running + waiting))
  {
    var q := Queue(Newcomers(o, n, count), running);
    NewcomersPrompts(o, n, count);
    assert q.waiting[..count] == q.waiting && q.waiting[..0] == [];
    FreshCountIsLongest(q, c.limits, 0, count);
    assert q.waiting[count..] == [];
  }

  lemma NewcomersAreMany(o: Opening, n: nat, count: nat)
    ensures forall r | r in Newcomers(o, n, count) :: exists k: nat :: n <= k < n + count && r == Asking(o, k)
    ensures forall k: nat | k < count :: Newcomers(o, n, count)[k] == Asking(o, n + k)
  {
    forall r | r in Newcomers(o, n, count) ensures exists k: nat :: n <= k < n + count && r == Asking(o, k) {
      var i :| 0 <= i < count && Newcomers(o, n, count)[i] == r;
      assert r == Asking(o, n + i);
    }
  }

  lemma Selects(c: Config, o: Opening, spare: nat, s: System, n: nat, from: nat, count: nat, running: seq<Request>)
    returns (s': System)
    requires Talks(c, o) && Reachable(c, spare, s) && Camp(c, s, n, Newcomers(o, from, count), running)
    requires s.phase.Drained? && 0 < count <= FreshBeside(c, |running|) && |s.parting| <= spare
    ensures Reachable(c, spare, s') && Shaped(c, s')
    ensures s' == s.(head := s.head.(queue := Queue([], running + Newcomers(o, from, count))),
                     phase := Computing(Newcomers(o, from, count), true))
  {
    AllAreChosen(c, o, from, count, running);
    s' := s.(head := s.head.(queue := Queue([], running + Newcomers(o, from, count))),
             phase := Computing(Newcomers(o, from, count), true));
    hide NextBatch;
    HeadReaches(c, spare, s, Select, s');
  }

  // ---------------------------------------------------------------- one more request gets its first token

  /** The engine after the first `count` newcomers. */
  ghost function AfterSome(shard: Shard, e: Engine, batch: seq<Request>, pieces: seq<seq<Row>>, count: nat)
      : (after: Engine)
    requires Fitted(shard, e) && count <= |batch| == |pieces|
    ensures Fitted(shard, after)
  {
    BatchForwarded(shard, e, batch, pieces, true, count).0
  }

  lemma LastIsAccepted(running: seq<Request>, r: Request, token: Token)
    requires r.id !in Ids(running)
    ensures Accepted(Queue([], running + [r]), token, r.id) == Queue([], running + [r.With(token)])
  {
    var after := Appended(running + [r], r.id, token);
    forall k | 0 <= k < |after| ensures after[k] == (running + [r.With(token)])[k] {
      if k < |running| { assert running[k] in running; }
    }
    assert after == running + [r.With(token)];
  }

  /** The token is told, the round is over, and the answer goes on. */
  lemma DeliversOne(c: Config, spare: nat, s: System, running: seq<Request>, r: Request, token: Token)
    returns (s': System)
    requires Reachable(c, spare, s) && Shaped(c, s) && |s.parting| <= spare && token !in c.eos
    requires s.phase == Delivering([r], [token], 0) && s.head.queue == Queue([], running + [r])
    requires r.id !in Ids(running) && r.id in s.head.tickets && r.output == [] && r.maxTokens == 9
    ensures Reachable(c, spare, s')
    ensures s' == s.(head := s.head.(queue := Queue([], running + [r.With(token)]), streams := s'.head.streams),
                     phase := Idle)
  {
    DeliveredHead(s.head, c.eos, r, token);
    LastIsAccepted(running, r, token);
    var head := s.head.(queue := Queue([], running + [r.With(token)]),
                        streams := StreamsAfter(s.head, r.id, [TokenEvent(token)]));
    assert Delivered(s.head, c.eos, r, token) == head;
    hide Delivered, StreamsAfter, Accepted;
    var s1 := s.(head := head, phase := Delivering([r], [token], 1));
    HeadReaches(c, spare, s, Deliver, s1);
    s' := s1.(phase := Idle);
    HeadReaches(c, spare, s1, FinishRound, s');
  }

  /** What a round for one newcomer leaves. */
  ghost predicate OneMore(s: System, s': System, n: nat) {
    && s.engines != [] && s'.engines != []
    && s'.phase == Idle && s'.head.toRelease == [] && s'.parting == s.parting
    && |s'.engines[0].slots| == |s.engines[0].slots| + 1
    && NameOf(n) in s'.engines[0].slots
    && (s.engines[0].slots == map[] ==> Eldest(s'.engines[0], NameOf(n)))
    && (forall id | Eldest(s.engines[0], id) :: Eldest(s'.engines[0], id))
  }

  /** The head's place for the newcomer. */
  lemma FirstSlot(c: Config, e: Engine, after: Engine, r: Request)
    requires c.Valid() && Fitted(c.ShardOf(0), e) && r.id !in e.slots && |e.slots| < c.capacity
    requires after == Forwarded(c.ShardOf(0), e, r.id, Where(r, true).0, Embedded(c.model, [r], true)[0]).0
    ensures Younger(e, after, r.id)
  {
    NewSlot(c.ShardOf(0), e, r.id, Where(r, true).0, Embedded(c.model, [r], true)[0]);
    hide Forwarded, Where, Embedded;
  }

  lemma LastRuns(running: seq<Request>, r: Request)
    ensures r.id in Ids(running + [r])
  {
    IdsOfSnoc(running, r);
  }

  /** From the choice to the token, and the token is told. */
  lemma OneIsServed(c: Config, o: Opening, spare: nat, s: System, n: nat, running: seq<Request>)
    returns (s': System, r: Request)
    requires Talks(c, o) && Reachable(c, spare, s) && Shaped(c, s) && |s.parting| <= spare
    requires s.phase == Computing([Asking(o, n)], true) && s.head.queue == Queue([], running + [Asking(o, n)])
    requires NameOf(n) !in s.evicted && NameOf(n) !in s.engines[0].slots && NameOf(n) !in Ids(running)
    requires NameOf(n) in s.head.tickets && NameOf(n) !in s.batches && |s.engines[0].slots| < c.capacity
    ensures Reachable(c, spare, s') && Shaped(c, s') && s'.phase == Idle && r.id == NameOf(n) && r.output != []
    ensures s'.head == s.head.(queue := Queue([], running + [r]), streams := s'.head.streams)
    ensures s'.leaving == s.leaving && s'.parting == s.parting && s'.asked == s.asked
    ensures s'.batches <= s.batches + {NameOf(n)} && Younger(s.engines[0], s'.engines[0], NameOf(n))
  {
    var ask := Asking(o, n);
    LastRuns(running, ask);
    hide Reachable, Opens, NameOf, FirstToken, Forwarded, Embedded, Where, Younger, Fitted, Ids;
    var answered := ComputesOne(c, spare, s, ask, o, NameOf(n));
    FirstSlot(c, s.engines[0], answered.engines[0], ask);
    r := ask.With(FirstToken(c, o));
    TalkGoesOn(c, o);
    s' := DeliversOne(c, spare, answered, running, ask, FirstToken(c, o));
  }

  lemma TalkGoesOn(c: Config, o: Opening)
    requires Opens(c, o)
    ensures c.Valid() && FirstToken(c, o) !in c.eos
  {
  }

  lemma OneMoreRuns(c: Config, o: Opening, spare: nat, s: System, n: nat, running: seq<Request>)
    returns (s': System, r: Request)
    requires Talks(c, o) && Reachable(c, spare, s) && Camp(c, s, n, [], running) && s.phase.Idle?
    requires s.head.toRelease == [] && |s.parting| <= spare
    requires |running| < c.limits.maxSequences && |s.engines[0].slots| < c.capacity
    ensures Reachable(c, spare, s') && Camp(c, s', n + 1, [], running + [r]) && OneMore(s, s', n)
    ensures r.id == NameOf(n) && r.output != []
  {
    NewToAll(c, spare, s, n, running);
    hide Reachable, Opens, Unused, Younger, NameOf;
    var ask := Asking(o, n);
    var s1 := NewcomerWaits(c, o, spare, s, n, [], running);
    var s2 := Drains(c, spare, s1, n + 1, [] + [ask], running);
    assert [] + [ask] == Newcomers(o, n, 1) == [ask];
    var s3 := Selects(c, o, spare, s2, n + 1, n, 1, running);
    s', r := OneIsServed(c, o, spare, s3, n, running);
    HasEngines(c, s);
    HasEngines(c, s');
    NewSlotInCamp(c, s, s', n, running, r);
  }

  lemma HasEngines(c: Config, s: System)
    requires Shaped(c, s)
    ensures s.engines != []
  {
  }

  lemma NewToAll(c: Config, spare: nat, s: System, n: nat, running: seq<Request>)
    requires Reachable(c, spare, s) && Camp(c, s, n, [], running)
    ensures NameOf(n) !in s.engines[0].slots && NameOf(n) !in Ids(running)
    ensures NameOf(n) !in s.evicted && NameOf(n) !in s.batches
  {
    UnusedNext(s.asked.Keys, n);
    UnusedNext(s.batches, n);
    hide Reachable, Inv, Orderly;
    ReachableIsSound(c, spare, s);
  }

  lemma YoungerLeavesTheEldest(e: Engine, after: Engine, id: Id, eldest: Id)
    requires Younger(e, after, id) && Eldest(e, eldest)
    ensures Eldest(after, eldest)
  {
  }

  lemma TheFirstIsEldest(e: Engine, after: Engine, id: Id)
    requires Younger(e, after, id) && e.slots == map[]
    ensures Eldest(after, id)
  {
  }

  /** The camp after a round for one newcomer. */
  lemma NewSlotInCamp(c: Config, s: System, s': System, n: nat, running: seq<Request>, r: Request)
    requires Camp(c, s, n, [], running) && r.id == NameOf(n) && Shaped(c, s') && s.engines != [] && s'.engines != []
    requires s'.phase == Idle && s'.batches <= s.batches + {r.id} && s'.leaving == {} && s'.parting == s.parting
    requires s'.head.queue == Queue([], running + [r]) && s'.head.toRelease == []
    requires s'.head.tickets == s.head.tickets + {r.id} && s'.asked.Keys == s.asked.Keys + {r.id}
    requires Younger(s.engines[0], s'.engines[0], r.id)
    ensures Camp(c, s', n + 1, [], running + [r]) && OneMore(s, s', n)
  {
    hide DistinctIds, Shaped, NameOf, Eldest, Unused, Ids, Younger, OneMore;
    YoungerIsOneMore(s.engines[0], s'.engines[0], r.id);
    UnusedNext(s.asked.Keys, n);
    UnusedNext(s.batches, n);
    UnusedByFewer(s'.batches, s.batches + {r.id}, n + 1);
    assert r.id !in Ids(running) by { assert Ids(running) <= s.asked.Keys; }
    DistinctSnoc(running, r);
    IdsOfSnoc(running, r);
    OneMoreSlot(s, s', n);
  }

  lemma YoungerIsOneMore(e: Engine, after: Engine, id: Id)
    requires Younger(e, after, id)
    ensures after.slots.Keys == e.slots.Keys + {id}
  {
  }

  lemma OneMoreSlot(s: System, s': System, n: nat)
    requires s.engines != [] && s'.engines != [] && Younger(s.engines[0], s'.engines[0], NameOf(n))
    requires s'.phase == Idle && s'.parting == s.parting && s'.head.toRelease == []
    ensures OneMore(s, s', n)
  {
    hide NameOf, Eldest;
    var e, after := s.engines[0], s'.engines[0];
    forall id | Eldest(e, id) ensures Eldest(after, id) { YoungerLeavesTheEldest(e, after, NameOf(n), id); }
    if e.slots == map[] { TheFirstIsEldest(e, after, NameOf(n)); }
  }

  // ---------------------------------------------------------------- somebody leaves

  lemma PartsWith(c: Config, spare: nat, s: System, n: nat, waiting: seq<Request>, running: seq<Request>)
    returns (s': System)
    requires Reachable(c, spare, s) && Camp(c, s, n, waiting, running) && 0 < |s.parting| <= spare
    ensures Reachable(c, spare, s') && Camp(c, s', n, waiting, running) && |s'.parting| < |s.parting|
    ensures s'.engines == s.engines && s'.phase == s.phase
  {
    var id :| id in s.parting;
    s' := s.(head := Released(s.head, id), parting := s.parting - {id});
    ClientReaches(c, spare, s, Part(id), s');
  }

  lemma {:induction false} WithoutUnknown(batch: seq<Request>, id: Id)
    requires id !in Ids(batch)
    ensures Without(batch, id) == batch
  {
    if batch != [] {
      var front, last := batch[..|batch| - 1], batch[|batch| - 1];
      assert batch == front + [last];
      IdsOfSnoc(front, last);
      WithoutUnknown(front, id);
    }
  }

  lemma LastIsDropped(running: seq<Request>, last: Request)
    requires DistinctIds(running + [last])
    ensures DistinctIds(running) && last.id !in Ids(running)
    ensures Finished(Queue([], running + [last]), last.id) == Queue([], running)
  {
    var all := running + [last];
    assert all[..|all| - 1] == running;
    WithoutUnknown(running, last.id);
    assert Without([], last.id) == [];
  }

  lemma Cancels(c: Config, spare: nat, s: System, last: Request) returns (s': System)
    requires Reachable(c, spare, s) && Shaped(c, s) && |s.parting| <= spare && last.id in s.head.tickets
    ensures Reachable(c, spare, s')
    ensures s' == s.(head := s.head.(tickets := s.head.tickets - {last.id}), leaving := s.leaving + {last.id},
                     cancelled := s.cancelled + {last.id})
  {
    s' := s.(head := Forgotten(s.head, last.id), leaving := s.leaving + {last.id},
             cancelled := s.cancelled + {last.id});
    ClientReaches(c, spare, s, Cancel(last.id), s');
  }

  /** Whoever cancelled leaves the queue. */
  lemma Leaves(c: Config, spare: nat, s: System, id: Id) returns (s': System)
    requires Reachable(c, spare, s) && Shaped(c, s) && s.leaving == {id} && |s.parting| < spare
    ensures Reachable(c, spare, s') && |s'.parting| <= |s.parting| + 1
    ensures s' == s.(head := Unqueued(s.head, id), leaving := {}, parting := s.parting + {id})
  {
    hide Reachable, Fitted, Finished;
    s' := s.(head := Unqueued(s.head, id), leaving := {}, parting := s.parting + {id});
    assert s.leaving - {id} == {};
    UnionIsSmall(s.parting, {id});
    ClientReaches(c, spare, s, Leave(id), s');
  }

  /** The camp without the one who left. */
  lemma CampWithout(c: Config, s: System, s': System, n: nat, running: seq<Request>, last: Request)
    requires Camp(c, s, n, [], running + [last]) && Shaped(c, s')
    requires s'.engines == s.engines && s'.phase == s.phase && s'.batches == s.batches && s'.leaving == {}
    requires s'.asked == s.asked && s'.head.tickets == s.head.tickets - {last.id}
    requires s'.head.queue == Finished(s.head.queue, last.id)
    ensures Camp(c, s', n, [], running)
  {
    LastIsDropped(running, last);
    IdsOfSnoc(running, last);
    hide Unused, Ids, DistinctIds, Fitted, Finished;
  }

  /** The last to run cancels, and stops half-way. */
  lemma LeavesHalfWay(c: Config, spare: nat, s: System, n: nat, running: seq<Request>, last: Request)
    returns (s': System)
    requires Reachable(c, spare, s) && Camp(c, s, n, [], running + [last]) && |s.parting| < spare
    ensures Reachable(c, spare, s') && Camp(c, s', n, [], running) && |s'.parting| <= |s.parting| + 1
    ensures s'.engines == s.engines && s'.phase == s.phase && s'.head.toRelease == s.head.toRelease
  {
    hide Reachable, Unused, DistinctIds, Fitted, Finished;
    IdsOfSnoc(running, last);
    hide Ids;
    var s1 := Cancels(c, spare, s, last);
    s' := Leaves(c, spare, s1, last.id);
    CampWithout(c, s, s', n, running, last);
  }

  /** The last to run leaves, if need be after another cancel that stood half-way went on. */
  lemma OneLeaves(c: Config, spare: nat, s: System, n: nat, running: seq<Request>, last: Request)
    returns (s': System)
    requires Reachable(c, spare, s) && Camp(c, s, n, [], running + [last]) && |s.parting| <= spare && spare > 0
    ensures Reachable(c, spare, s') && Camp(c, s', n, [], running) && |s'.parting| <= spare
    ensures s'.engines == s.engines && s'.phase == s.phase
  {
    hide Camp, Reachable;
    var s1 := s;
    if |s.parting| == spare { s1 := PartsWith(c, spare, s, n, [], running + [last]); }
    s' := LeavesHalfWay(c, spare, s1, n, running, last);
  }

  // ---------------------------------------------------------------- the run, phase by phase

  /** What every phase keeps of the request that goes on, if there is one. */
  ghost predicate KeepsFirst(e: Engine, first: seq<Request>) {
    first != [] ==> Eldest(e, first[0].id)
  }

  /** Some more come and stop half-way out: their slots stay. */
  lemma {:induction false} SomeStopHalfWay(c: Config, o: Opening, spare: nat, s: System, n: nat, first: seq<Request>,
                                           count: nat)
    returns (s': System, n': nat)
    requires Talks(c, o) && Reachable(c, spare, s) && Camp(c, s, n, [], first) && s.phase.Idle?
    requires s.head.toRelease == [] && |s.parting| + count <= spare && KeepsFirst(s.engines[0], first)
    requires |first| < c.limits.maxSequences && |s.engines[0].slots| + count <= c.capacity
    ensures Reachable(c, spare, s') && Camp(c, s', n', [], first) && s'.phase.Idle?
    ensures s'.head.toRelease == [] && |s'.parting| <= spare && KeepsFirst(s'.engines[0], first)
    ensures |s'.engines[0].slots| == |s.engines[0].slots| + count
    decreases count
  {
    if count == 0 {
      s', n' := s, n;
    } else {
      hide Reachable, Talks;
      var s1, r := OneMoreRuns(c, o, spare, s, n, first);
      var s2 := LeavesHalfWay(c, spare, s1, n + 1, first, r);
      hide Camp, Eldest;
      s', n' := SomeStopHalfWay(c, o, spare, s2, n + 1, first, count - 1);
    }
  }

  /** Some more come and stay. */
  lemma {:induction false} SomeStay(c: Config, o: Opening, spare: nat, s: System, n: nat, first: seq<Request>,
                                    rest: seq<Request>, count: nat)
    returns (s': System, n': nat, rest': seq<Request>)
    requires Talks(c, o) && Reachable(c, spare, s) && Camp(c, s, n, [], first + rest) && s.phase.Idle?
    requires s.head.toRelease == [] && |s.parting| <= spare && KeepsFirst(s.engines[0], first)
    requires |first| + |rest| + count <= c.limits.maxSequences && |s.engines[0].slots| + count <= c.capacity
    ensures Reachable(c, spare, s') && Camp(c, s', n', [], first + rest') && s'.phase.Idle?
    ensures s'.head.toRelease == [] && |s'.parting| <= spare && KeepsFirst(s'.engines[0], first)
    ensures |s'.engines[0].slots| == |s.engines[0].slots| + count && |rest'| == |rest| + count
    decreases count
  {
    if count == 0 {
      s', n', rest' := s, n, rest;
    } else {
      hide Reachable, Talks;
      var s1, r := OneMoreRuns(c, o, spare, s, n, first + rest);
      assert first + rest + [r] == first + (rest + [r]);
      hide Camp, Eldest;
      s', n', rest' := SomeStay(c, o, spare, s1, n + 1, first, rest + [r], count - 1);
    }
  }

  /** After the drain, all but the first leave. */
  lemma {:induction false} TheOthersLeave(c: Config, spare: nat, s: System, n: nat, first: seq<Request>,
                                          rest: seq<Request>)
    returns (s': System)
    requires Reachable(c, spare, s) && Camp(c, s, n, [], first + rest) && |s.parting| <= spare && spare > 0
    ensures Reachable(c, spare, s') && Camp(c, s', n, [], first) && |s'.parting| <= spare
    ensures s'.engines == s.engines && s'.phase == s.phase
    decreases |rest|
  {
    if rest == [] {
      assert first + rest == first;
      s' := s;
    } else {
      hide Reachable, Camp;
      var front, last := rest[..|rest| - 1], rest[|rest| - 1];
      assert first + rest == first + front + [last];
      var s1 := OneLeaves(c, spare, s, n, first + front, last);
      s' := TheOthersLeave(c, spare, s1, n, first, front);
    }
  }

  /** And new ones take their places in the queue. */
  lemma {:induction false} SomeWait(c: Config, o: Opening, spare: nat, s: System, n: nat, first: seq<Request>,
                                    count: nat)
    returns (s': System)
    requires Talks(c, o) && Reachable(c, spare, s) && Camp(c, s, n, [], first) && |s.parting| <= spare
    requires count + |first| <= c.limits.maxSequences
    ensures Reachable(c, spare, s') && Camp(c, s', n + count, Newcomers(o, n, count), first)
    ensures s'.engines == s.engines && s'.phase == s.phase && |s'.parting| <= spare && s'.batches == s.batches
  {
    if count == 0 {
      assert Newcomers(o, n, 0) == [];
      s' := s;
    } else {
      hide Reachable, Camp, Talks;
      var s1 := SomeWait(c, o, spare, s, n, first, count - 1);
      assert Newcomers(o, n, count) == Newcomers(o, n, count - 1) + [Asking(o, n + count - 1)];
      s' := NewcomerWaits(c, o, spare, s1, n + count - 1, Newcomers(o, n, count - 1), first);
    }
  }

  /** The head is about to compute one more than it has places for. */
  ghost predicate OneTooMany(c: Config, o: Opening, s: System, n: nat, count: nat, first: seq<Request>) {
    && Shaped(c, s) && Unused(s.batches, n) && 0 < count
    && s.phase == Computing(Newcomers(o, n, count), true)
    && s.head.queue == Queue([], first + Newcomers(o, n, count)) && Ids(first) <= s.head.tickets
    && Unused(s.engines[0].slots.Keys, n)
    && |s.engines[0].slots| + count == c.capacity + 1
    && KeepsFirst(s.engines[0], first)
  }

  /** How many stop half-way, how many leave after the drain, and how many come, for these many places. */
  lemma Crowded(c: Config, o: Opening, spare: nat, s: System, n: nat, first: seq<Request>)
    returns (s': System, n': nat, count: nat)
    requires Talks(c, o) && Reachable(c, spare, s) && Camp(c, s, n, [], first) && s.phase.Idle? && spare > 0
    requires s.head.toRelease == [] && s.parting == {} && KeepsFirst(s.engines[0], first)
    requires |s.engines[0].slots| == |first| < c.limits.maxSequences && |first| <= c.capacity
    requires !PlacesBeside(c, spare, |first|)
    ensures Reachable(c, spare, s') && OneTooMany(c, o, s', n', count, first) && |s'.parting| <= spare
  {
    assert c.limits.maxBatchTokens > 0;
    var free := c.capacity - |first|;
    var halfway := if spare < free then spare else free;
    var others := if c.limits.maxSequences - |first| < free - halfway then c.limits.maxSequences - |first|
                  else free - halfway;
    hide Reachable, Camp, Talks, Eldest;
    var s1, n1 := SomeStopHalfWay(c, o, spare, s, n, first, halfway);
    assert first + [] == first;
    var s2, n2, rest := SomeStay(c, o, spare, s1, n1, first, [], others);
    var s3 := Drains(c, spare, s2, n2, [], first + rest);
    var s4 := TheOthersLeave(c, spare, s3, n2, first, rest);
    count := free - halfway - others + 1;
    n' := n2;
    s' := CrowdIsSelected(c, o, spare, s4, n2, first, count);
  }

  lemma CrowdIsSelected(c: Config, o: Opening, spare: nat, s: System, n: nat, first: seq<Request>, count: nat)
    returns (s': System)
    requires Talks(c, o) && Reachable(c, spare, s) && Camp(c, s, n, [], first) && s.phase.Drained?
    requires |s.parting| <= spare && 0 < count <= FreshBeside(c, |first|)
    requires |s.engines[0].slots| + count == c.capacity + 1 && KeepsFirst(s.engines[0], first)
    ensures Reachable(c, spare, s') && OneTooMany(c, o, s', n, count, first) && |s'.parting| <= spare
  {
    hide Reachable, Talks, Eldest;
    var s1 := SomeWait(c, o, spare, s, n, first, count);
    s' := Selects(c, o, spare, s1, n + count, n, count, first);
    UnusedByFewer(s.engines[0].slots.Keys, s.asked.Keys, n);
  }

  // ---------------------------------------------------------------- no place for everybody

  lemma {:induction false} NewNamesAdd(o: Opening, held: set<Id>, n: nat, count: nat)
    requires Unused(held, n)
    ensures |held + Ids(Newcomers(o, n, count))| == |held| + count
    ensures Unused(held + Ids(Newcomers(o, n, count)), n + count)
  {
    hide Unused, Ids, NameOf;
    if count == 0 {
      assert Newcomers(o, n, 0) == [];
      assert held + Ids([]) == held by { NoIds(); }
    } else {
      NewNamesAdd(o, held, n, count - 1);
      var front, last := Newcomers(o, n, count - 1), Asking(o, n + count - 1);
      assert Newcomers(o, n, count) == front + [last];
      IdsOfSnoc(front, last);
      assert held + Ids(front + [last]) == held + Ids(front) + {last.id};
      UnusedNext(held + Ids(front), n + count - 1);
    }
  }

  lemma NoIds()
    ensures Ids([]) == {}
  {
  }

  lemma NoRoomForTheCrowd(c: Config, o: Opening, s: System, n: nat, count: nat, first: seq<Request>)
    requires OneTooMany(c, o, s, n, count, first)
    ensures !RoomAtHead(c, s)
  {
    NewNamesAdd(o, s.engines[0].slots.Keys, n, count);
    assert |s.engines[0].slots| == |s.engines[0].slots.Keys|;
  }

  lemma AfterOneMore(o: Opening, shard: Shard, e: Engine, n: nat, count: nat, pieces: seq<seq<Row>>, last: nat)
    requires Fitted(shard, e) && last < count == |pieces|
    ensures var batch := Newcomers(o, n, count);
            AfterSome(shard, e, batch, pieces, last + 1)
            == Forwarded(shard, AfterSome(shard, e, batch, pieces, last), NameOf(n + last),
                         Where(Asking(o, n + last), true).0, pieces[last]).0
  {
    assert Newcomers(o, n, count)[last] == Asking(o, n + last);
    hide Newcomers, Forwarded;
  }

  /** A full stage makes room by dropping its eldest. */
  lemma EldestGoes(shard: Shard, e: Engine, id: Id, at: seq<nat>, rows: seq<Row>, eldest: Id)
    requires Fitted(shard, e) && |e.slots| == shard.capacity && id !in e.slots && Eldest(e, eldest)
    ensures eldest !in Forwarded(shard, e, id, at, rows).0.slots
  {
    assert e.slots != map[];
    assert IsOldest(e.slots, Oldest(e.slots));
    hide RunLayers;
  }

  /** Up to the last newcomer there is a place for each, and the eldest stays. */
  lemma {:induction false} AllButOneFit(o: Opening, shard: Shard, e: Engine, n: nat, count: nat, pieces: seq<seq<Row>>,
                                        upTo: nat, eldest: Id)
    requires Fitted(shard, e) && |pieces| == count && upTo < count && |e.slots| + count == shard.capacity + 1
    requires Unused(e.slots.Keys, n) && Eldest(e, eldest)
    ensures var after := AfterSome(shard, e, Newcomers(o, n, count), pieces, upTo);
            && Eldest(after, eldest) && |after.slots| == |e.slots| + upTo && Unused(after.slots.Keys, n + upTo)
  {
    if upTo > 0 {
      hide AfterSome, Newcomers, Asking, Forwarded, Eldest, Unused, NameOf, Fitted;
      var last := upTo - 1;
      AllButOneFit(o, shard, e, n, count, pieces, last, eldest);
      AfterOneMore(o, shard, e, n, count, pieces, last);
      var before := AfterSome(shard, e, Newcomers(o, n, count), pieces, last);
      UnusedNext(before.slots.Keys, n + last);
      NewSlot(shard, before, NameOf(n + last), Where(Asking(o, n + last), true).0, pieces[last]);
      YoungerLeavesTheEldest(before, AfterSome(shard, e, Newcomers(o, n, count), pieces, upTo), NameOf(n + last),
                             eldest);
    }
  }

  lemma CrowdEvictsTheEldest(o: Opening, shard: Shard, e: Engine, n: nat, count: nat, pieces: seq<seq<Row>>, eldest: Id)
    requires Fitted(shard, e) && |pieces| == count > 0 && |e.slots| + count == shard.capacity + 1
    requires Unused(e.slots.Keys, n) && Eldest(e, eldest)
    ensures eldest !in AfterSome(shard, e, Newcomers(o, n, count), pieces, count).slots
  {
    hide AfterSome, Newcomers, Asking, Forwarded, Eldest, Unused, NameOf, Fitted;
    var last := count - 1;
    AllButOneFit(o, shard, e, n, count, pieces, last, eldest);
    AfterOneMore(o, shard, e, n, count, pieces, last);
    var before := AfterSome(shard, e, Newcomers(o, n, count), pieces, last);
    UnusedNext(before.slots.Keys, n + last);
    EldestGoes(shard, before, NameOf(n + last), Where(Asking(o, n + last), true).0, pieces[last], eldest);
  }

  lemma NewcomersHaveRows(o: Opening, n: nat, count: nat)
    ensures HasRows(Newcomers(o, n, count), true)
  {
    NewcomersAreMany(o, n, count);
  }

  /** The crowd is computed: the step can be taken whatever it costs. */
  lemma CrowdIsComputed(c: Config, o: Opening, s: System, n: nat, count: nat, first: seq<Request>)
    returns (s': System, a: Action)
    requires Talks(c, o) && OneTooMany(c, o, s, n, count, first)
    ensures a.Compute? && HeadStep(c, s, a, s') && Shaped(c, s') && Elsewhere(s, s')
    ensures Batch(s'.phase) == Newcomers(o, n, count)
    ensures s'.evicted == s.evicted + HeadLost(c, s, s.phase.batch, s.phase.first)
  {
    NewcomersHaveRows(o, n, count);
    UnusedNext(s.batches, n);
    hide Newcomers, NameOf, Unused, HasRows, HeadLost, HeadStep, Opens, KeepsFirst, Ids, Fitted;
    var draws: seq<Draw> := seq(count, _ => 0);
    a := Compute(NameOf(n), draws);
    s' := ComputeIsPossible(c, s, NameOf(n), draws);
  }

  /** And it costs the first its slot. */
  lemma CrowdCostsTheFirst(c: Config, o: Opening, s: System, n: nat, count: nat, first: seq<Request>)
    requires OneTooMany(c, o, s, n, count, first) && first != []
    ensures first[0].id in HeadLost(c, s, s.phase.batch, s.phase.first)
    ensures first[0].id !in AfterSome(c.ShardOf(0), s.engines[0], s.phase.batch,
                                      Embedded(c.model, s.phase.batch, true), count).slots
  {
    var batch, shard, e := Newcomers(o, n, count), c.ShardOf(0), s.engines[0];
    hide Newcomers, Embedded, Unused, Ids, Fitted;
    var pieces := Embedded(c.model, batch, true);
    CrowdEvictsTheEldest(o, shard, e, n, count, pieces, first[0].id);
    TheGoneAreLost(shard, e, batch, pieces, true, count);
    assert first[0].id in e.slots;
    hide Lost, BatchForwarded, Eldest;
  }

  // ---------------------------------------------------------------- the results

  lemma Started(c: Config, spare: nat) returns (s: System)
    requires c.Valid()
    ensures Reachable(c, spare, s) && Camp(c, s, 0, [], []) && s.phase.Idle? && s.head.toRelease == []
    ensures s.parting == {} && s.engines[0].slots == map[]
  {
    s := System(NEW_HEAD, Idle, seq(c.Stages(), _ => Engine(map[], 0)), {}, {}, {}, {}, {}, map[], {}, {}, {});
    ReachableFirst(c, spare, s);
  }

  /** With too few places beside one that runs, it and a crowd that is one too many come together. */
  lemma OneBesideTheCrowd(c: Config, o: Opening, spare: nat) returns (s: System, r: Request, n: nat, count: nat)
    requires Talks(c, o) && spare > 0 && !Enough(c, spare)
    ensures Reachable(c, spare, s) && OneTooMany(c, o, s, n, count, [r]) && |s.parting| <= spare && r.output != []
  {
    hide Reachable, Opens;
    var s0 := Started(c, spare);
    var s1;
    s1, r := OneMoreRuns(c, o, spare, s0, 0, []);
    assert [] + [r] == [r];
    s, n, count := Crowded(c, o, spare, s1, 1, [r]);
  }

  /**
   With fewer places than for a queue, the cancels half-way and a batch beside one that runs, some run
   with no more than `spare` cancels half-way evicts a request that is still being answered: its next
   step will start from a blank cache, in the middle of its positions.
   */
  lemma EvictionHitsTheLiving(c: Config, o: Opening, spare: nat) returns (s: System, r: Request)
    requires Talks(c, o) && spare > 0 && !Enough(c, spare)
    ensures Reachable(c, spare, s) && s.engines != []
    ensures r in s.head.queue.running && r.output != [] && r.id in s.head.tickets && r !in Batch(s.phase)
    ensures r.id !in s.engines[0].slots && r.id in s.evicted
  {
    hide Reachable, Opens;
    var s1, n, count;
    s1, r, n, count := OneBesideTheCrowd(c, o, spare);
    var a;
    s, a := CrowdIsComputed(c, o, s1, n, count, [r]);
    CrowdCostsTheFirst(c, o, s1, n, count, [r]);
    HeadReaches(c, spare, s1, a, s);
    HeadEngineAfter(c, s1, a.batchId, a.draws, s);
    NewcomersAreMany(o, n, count);
    hide HeadStep, HeadLost, Newcomers, Eldest, BatchForwarded, Embedded, Unused;
    assert r in [r] && r in s.head.queue.running;
    assert r.id in Ids([r]);
  }

  /** With too few places for a queue, the cancels half-way and a batch, some run takes the eviction branch. */
  lemma EvictionHappens(c: Config, o: Opening, spare: nat) returns (states: seq<System>, actions: seq<Action>)
    requires Talks(c, o) && spare > 0 && !PlacesBeside(c, spare, 0)
    ensures Run(c, states, actions) && FewHalfWay(states, spare) && !HeadHasPlaces(c, states, actions)
  {
    hide Reachable, Opens;
    var s0 := Started(c, spare);
    assert KeepsFirst(s0.engines[0], []);
    var s, n, count := Crowded(c, o, spare, s0, 0, []);
    NoRoomForTheCrowd(c, o, s, n, count, []);
    var s', a := CrowdIsComputed(c, o, s, n, count, []);
    hide HeadStep, ClientStep, StageStep, OneTooMany, RoomAtHead;
    assert Next(c, s, a, s') && |s'.parting| <= spare;
    hide Next;
    states, actions := RunTo(c, spare, s, a, s');
    assert states[|actions| - 1] == s;
  }

  /** The head never takes its eviction branch. */
  ghost predicate HeadHasPlaces(c: Config, states: seq<System>, actions: seq<Action>) {
    && |states| == |actions| + 1
    && forall k | 0 <= k < |actions| && (actions[k].Compute? || actions[k].ComputeFails?) ::
         Shaped(c, states[k]) && RoomAtHead(c, states[k])
  }

  lemma FewHalfWayIsTidy(c: Config, spare: nat, states: seq<System>, actions: seq<Action>)
    requires PlacesBeside(c, spare, 0) && |states| == |actions| + 1 && FewHalfWay(states, spare)
    ensures HeadTidy(c, states, actions, spare)
  {
    forall k | 0 <= k < |actions| ensures HeadTidyStep(c, states[k], actions[k], spare) {
      assert |states[k].parting| <= spare;
      FewerBeside(c, spare, 0, |states[k].head.queue.running|);
    }
  }

  lemma EnoughPlaces(c: Config, spare: nat, states: seq<System>, actions: seq<Action>)
    requires PlacesBeside(c, spare, 0) && Run(c, states, actions) && FewHalfWay(states, spare)
    ensures HeadHasPlaces(c, states, actions)
  {
    hide Next, Init, Shaped, RoomAtHead, PlacesBeside, FewHalfWay;
    FewHalfWayIsTidy(c, spare, states, actions);
    hide HeadTidy;
    forall k | 0 <= k < |actions| ensures Shaped(c, states[k]) && RoomAtHead(c, states[k]) {
      TidyHeadNeverEvicts(c, states, actions, spare, k);
    }
  }

  /**
   How many places are enough for the head, with any number of later stages: with at most `spare` cancels
   half-way, one at least, it takes the eviction branch in no run if and only if there are places for a
   queue, those cancels, and as many new requests as one step may take.
   */
  lemma PlacesForTwoQueues(c: Config, o: Opening, spare: nat)
    requires Talks(c, o) && spare > 0
    ensures PlacesBeside(c, spare, 0) <==>
              forall states, actions | Run(c, states, actions) && FewHalfWay(states, spare) ::
                HeadHasPlaces(c, states, actions)
  {
    hide Run, FewHalfWay, HeadHasPlaces, Opens;
    if PlacesBeside(c, spare, 0) {
      forall states, actions | Run(c, states, actions) && FewHalfWay(states, spare)
        ensures HeadHasPlaces(c, states, actions)
      {
        EnoughPlaces(c, spare, states, actions);
      }
    } else {
      var states, actions := EvictionHappens(c, o, spare);
    }
  }

  /** On one machine there is no other stage that could evict. */
  lemma OneMachineHasPlaces(c: Config, states: seq<System>, actions: seq<Action>)
    requires Run(c, states, actions) && c.Stages() == 1
    ensures NoEviction(c, states, actions) <==> HeadHasPlaces(c, states, actions)
  {
    hide Next, Init, RoomAtHead, Inv;
    forall k | 0 <= k < |actions|
      ensures Shaped(c, states[k])
      ensures !actions[k].Compute? && !actions[k].ComputeFails? ==> HasPlaces(c, states[k], actions[k])
    {
      InvariantHolds(c, states, actions, k);
      InvIsShaped(c, states[k]);
    }
    if NoEviction(c, states, actions) {
      forall k | 0 <= k < |actions| && (actions[k].Compute? || actions[k].ComputeFails?)
        ensures Shaped(c, states[k]) && RoomAtHead(c, states[k])
      {
        assert HasPlaces(c, states[k], actions[k]);
      }
    }
  }

  // ---------------------------------------------------------------- the living

  /** In no step of the run does the head cost anybody who waits or runs a slot. */
  ghost predicate SparesAllLiving(c: Config, states: seq<System>, actions: seq<Action>) {
    && |states| == |actions| + 1
    && forall k | 0 <= k < |actions| :: Shaped(c, states[k]) && SparesLiving(c, states[k], actions[k])
  }

  lemma EnoughForTheLiving(c: Config, spare: nat, states: seq<System>, actions: seq<Action>)
    requires Enough(c, spare) && Run(c, states, actions) && FewHalfWay(states, spare)
    ensures SparesAllLiving(c, states, actions)
  {
    hide Next, Init, Shaped, SparesLiving, Enough, FewHalfWay;
    forall k | 0 <= k < |actions| ensures Shaped(c, states[k]) && SparesLiving(c, states[k], actions[k]) {
      LivingAreSpared(c, spare, states, actions, k);
    }
  }

  lemma TheFirstIsNotSpared(c: Config, o: Opening, s: System, n: nat, count: nat, r: Request, a: Action)
    requires OneTooMany(c, o, s, n, count, [r]) && a.Compute?
    ensures !SparesLiving(c, s, a)
  {
    CrowdCostsTheFirst(c, o, s, n, count, [r]);
    hide HeadLost, Newcomers, Unused, KeepsFirst;
    assert r in s.head.queue.running by { assert ([r] + Newcomers(o, n, count))[0] == r; }
    LiveIsNamed(s.head.queue, r);
  }

  lemma LivingEvicted(c: Config, o: Opening, spare: nat) returns (states: seq<System>, actions: seq<Action>)
    requires Talks(c, o) && spare > 0 && !Enough(c, spare)
    ensures Run(c, states, actions) && FewHalfWay(states, spare) && !SparesAllLiving(c, states, actions)
  {
    hide Reachable, Opens;
    var s, r, n, count := OneBesideTheCrowd(c, o, spare);
    var s', a := CrowdIsComputed(c, o, s, n, count, [r]);
    TheFirstIsNotSpared(c, o, s, n, count, r, a);
    hide HeadStep, ClientStep, StageStep, OneTooMany, SparesLiving;
    assert Next(c, s, a, s') && |s'.parting| <= spare;
    hide Next;
    states, actions := RunTo(c, spare, s, a, s');
    assert states[|actions| - 1] == s;
  }

  /**
   How many places are enough for the living, with any number of later stages: with at most `spare`
   cancels half-way, one at least, no step of the head costs anybody who waits or runs a slot if and only
   if the queue holds one request at most, or there are places for a queue, those cancels, and as many
   new requests as one step may take beside one that runs.
   */
  lemma PlacesForTheLiving(c: Config, o: Opening, spare: nat)
    requires Talks(c, o) && spare > 0
    ensures Enough(c, spare) <==>
              forall states, actions | Run(c, states, actions) && FewHalfWay(states, spare) ::
                SparesAllLiving(c, states, actions)
  {
    hide Run, FewHalfWay, SparesAllLiving, Opens;
    if Enough(c, spare) {
      forall states, actions | Run(c, states, actions) && FewHalfWay(states, spare)
        ensures SparesAllLiving(c, states, actions)
      {
        EnoughForTheLiving(c, spare, states, actions);
      }
    } else {
      var states, actions := LivingEvicted(c, o, spare);
    }
  }
}
