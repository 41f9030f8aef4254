/** What the head keeps besides its engine: the queue, the open tickets, and whom to release. */
module Heads {
  import opened Wrappers
  import opened Transformer
  import opened Sequences
  import opened Scheduling

  datatype Reason = Stop | Length

  /** What a ticket's queue carries to the client. */
  datatype Event = TokenEvent(token: Token) | DoneEvent(reason: Reason) | ErrorEvent

  /**
   `tickets` names the requests whose ticket the head still holds; `streams` is everything ever put
   into each ticket's queue, which the client keeps reading after the head has let go of it.
   */
  datatype HeadState = HeadState(
    queue: Queue,
    tickets: set<Id>,
    toRelease: seq<Id>,
    streams: map<Id, seq<Event>>)

  const NEW_HEAD := HeadState(Queue([], []), {}, [], map[])

  function Submitted(h: HeadState, limits: Limits, r: Request): Result<HeadState, Refusal> {
    var added := Added(h.queue, limits, r);
    if added.Err? then Err(added.error)
    else Ok(h.(queue := added.value, tickets := h.tickets + {r.id}, streams := h.streams[r.id := []]))
  }

  /** Whether a cancel finds anything to do, and the ticket it takes away if so. */
  predicate Known(h: HeadState, id: Id) {
    id in h.tickets || id in Ids(h.queue.running)
  }

  function Forgotten(h: HeadState, id: Id): HeadState {
    h.(tickets := h.tickets - {id})
  }

  function Released(h: HeadState, id: Id): HeadState {
    h.(toRelease := h.toRelease + [id])
  }

  function Unqueued(h: HeadState, id: Id): HeadState {
    h.(queue := Finished(h.queue, id))
  }

  function Ended(h: HeadState, id: Id): HeadState {
    Released(Unqueued(Forgotten(h, id), id), id)
  }

  function Put(h: HeadState, id: Id, event: Event): HeadState {
    h.(streams := h.streams[id := (if id in h.streams then h.streams[id] else []) + [event]])
  }

  /** The member as the scheduler left it after recording the token. */
  function Grown(h: HeadState, r: Request, token: Token): Request {
    if r.id in Ids(h.queue.running) then r.With(token) else r
  }

  /** What is told of a recorded token; `r` is the member as recording left it. */
  function Told(h: HeadState, eos: set<Token>, r: Request, token: Token): HeadState {
    if r.id !in h.tickets then Ended(h, r.id)
    else
      var told := Put(h, r.id, TokenEvent(token));
      if token in eos then Ended(Put(told, r.id, DoneEvent(Stop)), r.id)
      else if r.Done() then Ended(Put(told, r.id, DoneEvent(Length)), r.id)
      else told
  }

  /** One token for one member of the batch; `r` is that member as the step computed it. */
  function Delivered(h: HeadState, eos: set<Token>, r: Request, token: Token): HeadState {
    Told(h.(queue := Accepted(h.queue, token, r.id)), eos, Grown(h, r, token), token)
  }

  function Failed(h: HeadState, id: Id): HeadState {
    Ended(if id in h.tickets then Put(h, id, ErrorEvent) else h, id)
  }

  // ---------------------------------------------------------------- who is live

  ghost predicate IsLive(q: Queue, r: Request) {
    r in q.waiting || r in q.running
  }

  lemma {:induction false} NamedMember(batch: seq<Request>, id: Id) returns (k: nat)
    requires id in Ids(batch)
    ensures k < |batch| && batch[k].id == id
  {
    var r :| r in batch && r.id == id;
    k :| k < |batch| && batch[k] == r;
  }

  lemma LiveIsNamed(q: Queue, r: Request)
    requires IsLive(q, r)
    ensures r.id in q.Live()
  {
  }

  /** One request per name. */
  lemma LiveIsUnique(q: Queue, limits: Limits, a: Request, b: Request)
    requires Sound(q, limits) && IsLive(q, a) && IsLive(q, b) && a.id == b.id
    ensures a == b
    ensures a in q.running <==> b in q.running
    ensures a in q.running ==> a.id !in Ids(q.waiting)
  {
    var all := q.waiting + q.running;
    assert a in all && b in all;
    var i :| 0 <= i < |all| && all[i] == a;
    var j :| 0 <= j < |all| && all[j] == b;
    if i != j { DistinctPair(all, i, j); }
    DistinctApart(q.waiting, q.running);
  }

  lemma AddedLive(q: Queue, limits: Limits, r: Request)
    requires Added(q, limits, r).Ok?
    ensures var after := Added(q, limits, r).value;
            && (forall x :: IsLive(after, x) <==> IsLive(q, x) || x == r)
            && after.running == q.running && after.Live() == q.Live() + {r.id}
  {
    IdsOfSnoc(q.waiting, r);
  }

  lemma FinishedLive(q: Queue, id: Id)
    ensures var after := Finished(q, id);
            && (forall x :: IsLive(after, x) <==> IsLive(q, x) && x.id != id)
            && (forall x :: x in after.running <==> x in q.running && x.id != id)
            && (forall x :: x in after.waiting <==> x in q.waiting && x.id != id)
            && Ids(after.running) == Ids(q.running) - {id}
            && Ids(after.waiting) == Ids(q.waiting) - {id}
  {
    WithoutMembers(q.waiting, id);
    WithoutMembers(q.running, id);
  }

  lemma AcceptedLive(q: Queue, limits: Limits, token: Token, r: Request)
    requires Sound(q, limits) && r in q.running
    ensures var after := Accepted(q, token, r.id);
            && (forall x :: x in after.running <==> (x in q.running && x.id != r.id) || x == r.With(token))
            && after.waiting == q.waiting
  {
    var after := Accepted(q, token, r.id);
    forall x ensures x in after.running <==> (x in q.running && x.id != r.id) || x == r.With(token) {
      if x in after.running {
        var k :| 0 <= k < |after.running| && after.running[k] == x;
        assert q.running[k] in q.running;
        if q.running[k].id == r.id { LiveIsUnique(q, limits, q.running[k], r); }
      }
      if x in q.running && x.id != r.id {
        var k :| 0 <= k < |q.running| && q.running[k] == x;
        assert after.running[k] == x;
      }
      if x == r.With(token) {
        var k :| 0 <= k < |q.running| && q.running[k] == r;
        assert after.running[k] == x;
      }
    }
  }

  lemma ChosenLive(q: Queue, limits: Limits)
    requires Sound(q, limits)
    ensures var (choice, after) := NextBatch(q, limits);
            && (forall x :: IsLive(after, x) <==> IsLive(q, x))
            && (forall x :: x in q.running ==> x in after.running)
            && (forall x :: x in after.waiting ==> x in q.waiting)
            && (choice.Prefill? ==> forall x :: x in after.running <==> x in q.running || x in choice.batch)
            && (choice.Prefill? ==> forall x :: x in choice.batch ==> x in q.waiting)
            && (!choice.Prefill? ==> after == q)
  {
    var (choice, after) := NextBatch(q, limits);
    if choice.Prefill? {
      var count := |choice.batch|;
      assert q.waiting == choice.batch + after.waiting;
    }
  }
}
