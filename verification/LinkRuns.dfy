/**
 Senders, the watcher, failures and new directories, interleaved. A sender takes the lock three times: to
 choose the way, to look its peer up, and to count. Anything may happen in between, and while a sender
 that found the queue full waits for its own acknowledgement.
 */
module LinkRuns {
  import opened Wrappers
  import opened Links

  /** A message for which the direct way was chosen, before its peer is looked up. */
  datatype Chosen = Chosen(key: Key, message: Message)

  /**
   `choosing` are the messages between choice and look-up, `settling` what the watcher waits for, `waiting`
   what senders wait for themselves, and `uncounted` how many senders still have to count theirs. The rest
   only records: messages given to send, acknowledged in time, arrived without that, taken for good by a
   transport that acknowledges nothing, and lost because their row was gone at the look-up. `bites` counts
   how often the counter was clamped at zero.
   */
  datatype World = World(
    post: Post,
    now: real,
    choosing: seq<Chosen>,
    settling: Option<Entry>,
    waiting: seq<Entry>,
    uncounted: nat,
    begun: seq<Message>,
    acked: seq<Message>,
    late: seq<Message>,
    untracked: seq<Message>,
    lost: seq<Message>,
    bites: nat)

  const START := World(Post(NEW_TABLE, [], 0, 0, 0, []), 0.0, [], None, [], 0, [], [], [], [], [], 0)

  datatype Action =
    | Choose(key: Key, message: Message)
    | HandOver(sender: nat, handing: Handing)
    | Count
    | Finish(waiter: nat, fate: Fate)
    | Take
    | Settle(fate: Fate)
    | Redirect(pipeline: string, peers: seq<Neighbour>)
    | Forget(pipeline: string)
    | Learn(table: Table)
    | Pass(seconds: real)

  function Removed<T>(s: seq<T>, k: nat): seq<T>
    requires k < |s|
  {
    s[..k] + s[k + 1..]
  }

  /** One message is given to send: it is relayed, or goes on to the look-up. */
  function AfterChoice(w: World, key: Key, m: Message): World {
    var (yes, table) := Asked(w.post.table, key, w.now);
    var post := w.post.(table := table);
    if yes then w.(post := post, choosing := w.choosing + [Chosen(key, m)], begun := w.begun + [m])
    else w.(post := Relayed(post, m), begun := w.begun + [m])
  }

  /** The peer is looked up and handed the message. Without a row this raises, and nobody relays the message. */
  function AfterHandOver(w: World, sender: nat, handing: Handing): World
    requires sender < |w.choosing|
  {
    var c, rest := w.choosing[sender], w.(choosing := Removed(w.choosing, sender));
    if c.key !in w.post.table.neighbours then rest.(lost := w.lost + [c.message])
    else
      var e := Entry(w.post.table.neighbours[c.key].peerId, c.message);
      match handing
      case Raises => rest.(post := Relayed(Blocked(w.post, e.peer, w.now), c.message))
      case Unacknowledged => rest.(untracked := w.untracked + [c.message], uncounted := w.uncounted + 1)
      case Promised =>
        if |w.post.pending| < PENDING_ACKS then
          rest.(post := w.post.(pending := w.post.pending + [e]), uncounted := w.uncounted + 1)
        else rest.(waiting := w.waiting + [e])
  }

  /** Settling takes one from a counter that is already zero. */
  predicate Bites(p: Post, fate: Fate) {
    !fate.Acknowledged? && p.direct == 0
  }

  /** A message is settled: what became of it is recorded, and it is relayed unless it was acknowledged. */
  function AfterSettling(w: World, e: Entry, fate: Fate): World {
    w.(post := Settled(w.post, e, fate, w.now),
       acked := if fate.Acknowledged? then w.acked + [e.message] else w.acked,
       late := if fate.Late? then w.late + [e.message] else w.late,
       bites := w.bites + if Bites(w.post, fate) then 1 else 0)
  }

  /** Learning measurements, reachability or the transport changes nothing else. */
  predicate OnlyLearned(before: Table, after: Table) {
    after.neighbours == before.neighbours && after.blockedUntil == before.blockedUntil
  }

  ghost predicate Next(w: World, a: Action, w': World) {
    match a
    case Choose(key, m) => w' == AfterChoice(w, key, m)
    case HandOver(k, handing) => k < |w.choosing| && w' == AfterHandOver(w, k, handing)
    case Count =>
      w.uncounted > 0 && w' == w.(post := Counted(w.post), uncounted := w.uncounted - 1)
    case Finish(k, fate) =>
      && k < |w.waiting|
      && w' == AfterSettling(w, w.waiting[k], fate).(waiting := Removed(w.waiting, k), uncounted := w.uncounted + 1)
    case Take =>
      && w.settling.None? && w.post.pending != []
      && w' == w.(post := w.post.(pending := w.post.pending[1..]), settling := Some(w.post.pending[0]))
    case Settle(fate) =>
      && w.settling.Some?
      && w' == AfterSettling(w, w.settling.value, fate).(settling := None)
    case Redirect(pipeline, peers) =>
      w' == w.(post := w.post.(table := Redirected(w.post.table, pipeline, peers)))
    case Forget(pipeline) => w' == w.(post := w.post.(table := Forgotten(w.post.table, pipeline)))
    case Learn(table) => OnlyLearned(w.post.table, table) && w' == w.(post := w.post.(table := table))
    case Pass(seconds) => seconds >= 0.0 && w' == w.(now := w.now + seconds)
  }

  ghost predicate Run(worlds: seq<World>, actions: seq<Action>) {
    && |worlds| == |actions| + 1
    && worlds[0] == START
    && forall k | 0 <= k < |actions| :: Next(worlds[k], actions[k], worlds[k + 1])
  }

  // ---------------------------------------------------------------- where every message is

  function Messages(entries: seq<Entry>): (ms: seq<Message>)
    ensures |ms| == |entries|
  {
    seq(|entries|, k requires 0 <= k < |entries| => entries[k].message)
  }

  function Words(choosing: seq<Chosen>): (ms: seq<Message>)
    ensures |ms| == |choosing|
  {
    seq(|choosing|, k requires 0 <= k < |choosing| => choosing[k].message)
  }

  function Settling(w: World): seq<Entry> {
    if w.settling.Some? then [w.settling.value] else []
  }

  /** On its way: chosen for, or handed over and not yet settled by the watcher or by the sender itself. */
  function Unsettled(w: World): seq<Message> {
    Words(w.choosing) + Messages(w.post.pending) + Messages(Settling(w)) + Messages(w.waiting)
  }

  function Times(ms: seq<Message>, m: Message): nat {
    multiset(ms)[m]
  }

  predicate Balanced(w: World, m: Message) {
    Times(w.begun, m) == Times(Words(w.choosing), m) + Times(Messages(w.post.pending), m)
                         + Times(Messages(Settling(w)), m) + Times(Messages(w.waiting), m)
                         + Times(w.acked, m) + Times(w.untracked, m) + Times(w.post.relayed, m) + Times(w.lost, m)
  }

  /** Every message given to send is in exactly one place, as often as it was given. */
  ghost predicate Accounted(w: World) {
    forall m :: Balanced(w, m)
  }

  /** How many are on their way. */
  function Open(w: World): nat {
    |w.choosing| + |w.post.pending| + |Settling(w)| + |w.waiting|
  }

  /** The counters say how many messages went which way, up to the clamp and to senders yet to count. */
  ghost predicate Tallied(w: World) {
    && w.post.relay == |w.post.relayed|
    && w.post.direct + w.uncounted
         == |w.post.pending| + |Settling(w)| + |w.acked| + |w.untracked| + w.bites
    && |w.begun| == Open(w) + |w.acked| + |w.untracked| + |w.post.relayed| + |w.lost|
    && |w.post.pending| <= PENDING_ACKS
  }

  lemma MessagesSnoc(entries: seq<Entry>, e: Entry)
    ensures Messages(entries + [e]) == Messages(entries) + [e.message]
  {
  }

  lemma WordsSnoc(choosing: seq<Chosen>, c: Chosen)
    ensures Words(choosing + [c]) == Words(choosing) + [c.message]
  {
  }

  lemma TimesSnoc(ms: seq<Message>, last: Message, m: Message)
    ensures Times(ms + [last], m) == Times(ms, m) + if last == m then 1 else 0
  {
  }

  lemma TimesRemoved(ms: seq<Message>, k: nat, m: Message)
    requires k < |ms|
    ensures Times(ms, m) == Times(Removed(ms, k), m) + if ms[k] == m then 1 else 0
  {
    assert ms == ms[..k] + [ms[k]] + ms[k + 1..];
  }

  lemma MessagesRemoved(entries: seq<Entry>, k: nat)
    requires k < |entries|
    ensures Messages(Removed(entries, k)) == Removed(Messages(entries), k)
  {
  }

  lemma WordsRemoved(choosing: seq<Chosen>, k: nat)
    requires k < |choosing|
    ensures Words(Removed(choosing, k)) == Removed(Words(choosing), k)
  {
  }

  // ---------------------------------------------------------------- every step keeps the account

  lemma ChoiceIsBalanced(w: World, key: Key, m: Message, other: Message)
    requires Balanced(w, other)
    ensures Balanced(AfterChoice(w, key, m), other)
  {
    hide Asked, Balanced;
    var w' := AfterChoice(w, key, m);
    TimesSnoc(w.begun, m, other);
    if w'.choosing == w.choosing {
      TimesSnoc(w.post.relayed, m, other);
      assert w'.post.relayed == w.post.relayed + [m];
    } else {
      WordsSnoc(w.choosing, Chosen(key, m));
      TimesSnoc(Words(w.choosing), m, other);
    }
    BalanceMoves(w, w', other);
  }

  /** The sum, with nothing else to look at. */
  lemma BalanceMoves(w: World, w': World, m: Message)
    requires Balanced(w, m)
    requires Times(w'.begun, m) - Times(w.begun, m)
          == Times(Words(w'.choosing), m) - Times(Words(w.choosing), m)
             + Times(Messages(w'.post.pending), m) - Times(Messages(w.post.pending), m)
             + Times(Messages(Settling(w')), m) - Times(Messages(Settling(w)), m)
             + Times(Messages(w'.waiting), m) - Times(Messages(w.waiting), m)
             + Times(w'.acked, m) - Times(w.acked, m) + Times(w'.untracked, m) - Times(w.untracked, m)
             + Times(w'.post.relayed, m) - Times(w.post.relayed, m) + Times(w'.lost, m) - Times(w.lost, m)
    ensures Balanced(w', m)
  {
  }

  lemma HandOverIsBalanced(w: World, k: nat, handing: Handing, other: Message)
    requires k < |w.choosing| && Balanced(w, other)
    ensures Balanced(AfterHandOver(w, k, handing), other)
  {
    hide Balanced, Times, Messages, Words;
    var c, w' := w.choosing[k], AfterHandOver(w, k, handing);
    WordsAt(w.choosing, k);
    WordsRemoved(w.choosing, k);
    TimesRemoved(Words(w.choosing), k, other);
    TimesSnoc(w.lost, c.message, other);
    TimesSnoc(w.post.relayed, c.message, other);
    TimesSnoc(w.untracked, c.message, other);
    TimesSnoc(Messages(w.post.pending), c.message, other);
    TimesSnoc(Messages(w.waiting), c.message, other);
    if c.key in w.post.table.neighbours {
      var e := Entry(w.post.table.neighbours[c.key].peerId, c.message);
      MessagesSnoc(w.post.pending, e);
      MessagesSnoc(w.waiting, e);
    }
    BalanceMoves(w, w', other);
  }

  lemma WordsAt(choosing: seq<Chosen>, k: nat)
    requires k < |choosing|
    ensures Words(choosing)[k] == choosing[k].message
  {
  }

  lemma MessagesAt(entries: seq<Entry>, k: nat)
    requires k < |entries|
    ensures Messages(entries)[k] == entries[k].message
  {
  }

  lemma FinishIsBalanced(w: World, k: nat, fate: Fate, w': World, other: Message)
    requires Balanced(w, other) && Next(w, Finish(k, fate), w')
    ensures Balanced(w', other)
  {
    hide Balanced, Times, Messages, Words;
    var m := w.waiting[k].message;
    MessagesAt(w.waiting, k);
    MessagesRemoved(w.waiting, k);
    TimesRemoved(Messages(w.waiting), k, other);
    TimesSnoc(w.acked, m, other);
    TimesSnoc(w.post.relayed, m, other);
    BalanceMoves(w, w', other);
  }

  lemma TakeIsBalanced(w: World, w': World, other: Message)
    requires Balanced(w, other) && Next(w, Take, w')
    ensures Balanced(w', other)
  {
    hide Balanced, Times;
    var pending := w.post.pending;
    assert Removed(Messages(pending), 0) == Messages(pending[1..]);
    TimesRemoved(Messages(pending), 0, other);
    OneMessage(pending[0], other);
    BalanceMoves(w, w', other);
  }

  lemma OneMessage(e: Entry, other: Message)
    ensures Times(Messages([e]), other) == if e.message == other then 1 else 0
    ensures Times(Messages([]), other) == 0
  {
    assert Messages([e]) == [e.message] && Messages([]) == [];
  }

  lemma SettleIsBalanced(w: World, fate: Fate, w': World, other: Message)
    requires Balanced(w, other) && Next(w, Settle(fate), w')
    ensures Balanced(w', other)
  {
    hide Balanced, Times, Messages, Words;
    var m := w.settling.value.message;
    OneMessage(w.settling.value, other);
    TimesSnoc(w.acked, m, other);
    TimesSnoc(w.post.relayed, m, other);
    BalanceMoves(w, w', other);
  }

  lemma StepIsBalanced(w: World, a: Action, w': World, m: Message)
    requires Balanced(w, m) && Next(w, a, w')
    ensures Balanced(w', m)
  {
    hide Balanced, AfterChoice, AfterHandOver, AfterSettling, Asked, Redirected, Forgotten;
    match a
    case Choose(key, one) => ChoiceIsBalanced(w, key, one, m);
    case HandOver(k, handing) => HandOverIsBalanced(w, k, handing, m);
    case Finish(k, fate) => FinishIsBalanced(w, k, fate, w', m);
    case Take => TakeIsBalanced(w, w', m);
    case Settle(fate) => SettleIsBalanced(w, fate, w', m);
    case _ => BalanceMoves(w, w', m);
  }

  lemma StepIsTallied(w: World, a: Action, w': World)
    requires Tallied(w) && Next(w, a, w')
    ensures Tallied(w')
  {
    hide Asked, Redirected, Messages, Words, AfterHandOver, AfterSettling;
    match a
    case HandOver(k, handing) => HandOverIsTallied(w, k, handing);
    case Finish(k, fate) => SettlingIsTallied(w, w.waiting[k], fate);
    case Settle(fate) => SettlingIsTallied(w, w.settling.value, fate);
    case _ =>
  }

  lemma HandOverIsTallied(w: World, k: nat, handing: Handing)
    requires Tallied(w) && k < |w.choosing|
    ensures Tallied(AfterHandOver(w, k, handing))
  {
    hide Messages, Words;
  }

  /** Settling one message moves it to the acknowledged or to the relayed ones, and the counters follow. */
  lemma SettlingIsTallied(w: World, e: Entry, fate: Fate)
    requires Tallied(w)
    ensures var w' := AfterSettling(w, e, fate);
            && w'.post.relay == |w'.post.relayed|
            && w'.post.direct + w.uncounted + 1
                 == |w.post.pending| + |Settling(w)| + |w'.acked| + |w.untracked| + w'.bites
            && |w'.acked| + |w'.post.relayed| == |w.acked| + |w.post.relayed| + 1
            && w' == w.(post := w'.post, acked := w'.acked, late := w'.late, bites := w'.bites)
            && w'.post.pending == w.post.pending
  {
    hide Messages, Words;
  }

  lemma {:induction false} AccountHolds(worlds: seq<World>, actions: seq<Action>, k: nat)
    requires Run(worlds, actions) && k < |worlds|
    ensures Accounted(worlds[k]) && Tallied(worlds[k])
  {
    if k == 0 {
      assert Messages([]) == [] && Words([]) == [];
      forall m ensures Balanced(worlds[0], m) { }
    } else {
      AccountHolds(worlds, actions, k - 1);
      assert Next(worlds[k - 1], actions[k - 1], worlds[k - 1 + 1]);
      hide Balanced, Tallied, Next;
      forall m ensures Balanced(worlds[k], m) {
        assert Balanced(worlds[k - 1], m);
        StepIsBalanced(worlds[k - 1], actions[k - 1], worlds[k], m);
      }
      StepIsTallied(worlds[k - 1], actions[k - 1], worlds[k]);
    }
  }

  // ---------------------------------------------------------------- what the account says

  /**
   Whatever was given to send is still on its way, or was acknowledged, relayed, taken by a transport
   that acknowledges nothing, or lost, each message in one of these places as often as it was given.
   */
  lemma EveryMessageIsSomewhere(worlds: seq<World>, actions: seq<Action>, k: nat)
    requires Run(worlds, actions) && k < |worlds|
    ensures var w := worlds[k];
            multiset(w.begun) == multiset(Unsettled(w)) + multiset(w.acked) + multiset(w.untracked)
                                 + multiset(w.post.relayed) + multiset(w.lost)
  {
    AccountHolds(worlds, actions, k);
    var w := worlds[k];
    var all := multiset(Unsettled(w)) + multiset(w.acked) + multiset(w.untracked) + multiset(w.post.relayed)
               + multiset(w.lost);
    forall m ensures multiset(w.begun)[m] == all[m] {
      assert Balanced(w, m);
      assert Times(w.begun, m) == multiset(w.begun)[m];
      assert Times(Unsettled(w), m)
          == Times(Words(w.choosing), m) + Times(Messages(w.post.pending), m) + Times(Messages(Settling(w)), m)
             + Times(Messages(w.waiting), m);
    }
  }

  /** Look-up finds no row: the message is lost. */
  predicate Loses(w: World, a: Action, m: Message) {
    a.HandOver? && a.sender < |w.choosing| && w.choosing[a.sender].message == m
    && w.choosing[a.sender].key !in w.post.table.neighbours
  }

  lemma LossIsTheLookUp(w: World, a: Action, w': World, m: Message)
    requires Next(w, a, w')
    ensures w'.lost == if a.HandOver? && Loses(w, a, w.choosing[a.sender].message)
                       then w.lost + [w.choosing[a.sender].message] else w.lost
  {
    hide Asked, Redirected;
  }

  /** A message is lost if and only if, at its look-up, there was no row for its peer. */
  lemma {:induction false} LostIffRowIsGone(worlds: seq<World>, actions: seq<Action>, k: nat, m: Message)
    requires Run(worlds, actions) && k < |worlds|
    ensures m in worlds[k].lost <==> exists j :: 0 <= j < k && Loses(worlds[j], actions[j], m)
  {
    if k > 0 {
      LostIffRowIsGone(worlds, actions, k - 1, m);
      assert Next(worlds[k - 1], actions[k - 1], worlds[k - 1 + 1]);
      hide Next;
      LossIsTheLookUp(worlds[k - 1], actions[k - 1], worlds[k], m);
    }
  }

  /** A step that may take the row of a key away. */
  predicate ChangesRows(a: Action, key: Key) {
    (a.Redirect? || a.Forget?) && a.pipeline == key.0
  }

  lemma RowStays(w: World, a: Action, w': World, key: Key)
    requires Next(w, a, w') && key in w.post.table.neighbours && !ChangesRows(a, key)
    ensures key in w'.post.table.neighbours
  {
    hide Rows;
    if a.Redirect? { RedirectedElsewhere(w.post.table, a.pipeline, a.peers, key); }
  }

  /** The direct way was chosen for it, and the row is still there or was changed since. */
  ghost predicate Traced(worlds: seq<World>, actions: seq<Action>, k: nat, c: Chosen)
    requires k < |worlds| <= |actions| + 1
  {
    exists i :: 0 <= i < k && TracedFrom(worlds, actions, i, k, c)
  }

  ghost predicate TracedFrom(worlds: seq<World>, actions: seq<Action>, i: nat, k: nat, c: Chosen)
    requires i < k < |worlds| <= |actions| + 1
  {
    && actions[i] == Choose(c.key, c.message) && Asked(worlds[i].post.table, c.key, worlds[i].now).0
    && (c.key in worlds[k].post.table.neighbours || exists j :: i < j < k && ChangesRows(actions[j], c.key))
  }

  lemma TracedStays(worlds: seq<World>, actions: seq<Action>, k: nat, c: Chosen)
    requires Run(worlds, actions) && 0 < k < |worlds| && Traced(worlds, actions, k - 1, c)
    ensures Traced(worlds, actions, k, c)
  {
    hide Next, Asked;
    var i :| 0 <= i < k - 1 && TracedFrom(worlds, actions, i, k - 1, c);
    assert Next(worlds[k - 1], actions[k - 1], worlds[k - 1 + 1]);
    if j :| i < j < k - 1 && ChangesRows(actions[j], c.key) {
    } else if ChangesRows(actions[k - 1], c.key) {
      assert i < k - 1 < k;
    } else {
      RowStays(worlds[k - 1], actions[k - 1], worlds[k], c.key);
    }
    assert TracedFrom(worlds, actions, i, k, c);
  }

  lemma ChoosingGrows(w: World, a: Action, w': World, c: Chosen)
    requires Next(w, a, w') && c in w'.choosing && c !in w.choosing
    ensures a == Choose(c.key, c.message) && Asked(w.post.table, c.key, w.now).0
    ensures c.key in w'.post.table.neighbours
  {
    hide Redirected, WorthUsing;
    if a.Choose? {
      var (yes, table) := Asked(w.post.table, a.key, w.now);
      AskingKeepsRows(w.post.table, a.key, w.now);
    }
  }

  lemma AskingKeepsRows(t: Table, key: Key, now: real)
    ensures Asked(t, key, now).1.neighbours == t.neighbours
    ensures Asked(t, key, now).0 ==> key in t.neighbours
  {
  }

  lemma {:induction false} ChosenIsTraced(worlds: seq<World>, actions: seq<Action>, k: nat, c: Chosen)
    requires Run(worlds, actions) && k < |worlds| && c in worlds[k].choosing
    ensures Traced(worlds, actions, k, c)
  {
    if k > 0 {
      assert Next(worlds[k - 1], actions[k - 1], worlds[k - 1 + 1]);
      hide Next, Asked;
      if c in worlds[k - 1].choosing {
        ChosenIsTraced(worlds, actions, k - 1, c);
        TracedStays(worlds, actions, k, c);
      } else {
        ChoosingGrows(worlds[k - 1], actions[k - 1], worlds[k], c);
        assert TracedFrom(worlds, actions, k - 1, k, c);
      }
    }
  }

  /**
   The direct way was chosen for a lost message, and the rows of its pipeline were replaced or dropped
   between that choice and the look-up. Nothing else loses one.
   */
  lemma LossNeedsNewRows(worlds: seq<World>, actions: seq<Action>, k: nat, m: Message)
    requires Run(worlds, actions) && k < |actions| && Loses(worlds[k], actions[k], m)
    ensures var key := worlds[k].choosing[actions[k].sender].key;
            exists i, j :: 0 <= i < j < k && actions[i] == Choose(key, m)
                           && Asked(worlds[i].post.table, key, worlds[i].now).0 && ChangesRows(actions[j], key)
  {
    hide Next, Asked;
    var c := worlds[k].choosing[actions[k].sender];
    ChosenIsTraced(worlds, actions, k, c);
    var i :| 0 <= i < k && TracedFrom(worlds, actions, i, k, c);
    var j :| i < j < k && ChangesRows(actions[j], c.key);
  }

  /** As long as no rows are changed after the direct way was chosen for them, no message is lost. */
  lemma NoMessageIsLost(worlds: seq<World>, actions: seq<Action>, k: nat)
    requires Run(worlds, actions) && k < |worlds|
    requires forall i, j | 0 <= i < j < k && actions[i].Choose? :: !ChangesRows(actions[j], actions[i].key)
    ensures worlds[k].lost == []
  {
    hide Next;
    if worlds[k].lost != [] {
      var m := worlds[k].lost[0];
      LostIffRowIsGone(worlds, actions, k, m);
      var at :| 0 <= at < k && Loses(worlds[at], actions[at], m);
      var key := worlds[at].choosing[actions[at].sender].key;
      LossNeedsNewRows(worlds, actions, at, m);
      assert false;
    }
  }

  /** What reached the other side: the peer directly, in time or not, or the relay. */
  function Arrivals(w: World): seq<Message> {
    w.acked + w.late + w.untracked + w.post.relayed
  }

  predicate AllSettled(w: World) {
    w.choosing == [] && w.post.pending == [] && w.settling.None? && w.waiting == []
  }

  /**
   Once nothing is on its way: every message arrived as often as it was given, less the times it was
   lost, and once more for every time it arrived directly and was not acknowledged in time.
   */
  lemma SettledMessagesArrived(worlds: seq<World>, actions: seq<Action>, k: nat, m: Message)
    requires Run(worlds, actions) && k < |worlds| && AllSettled(worlds[k])
    ensures var w := worlds[k];
            Times(Arrivals(w), m) + Times(w.lost, m) == Times(w.begun, m) + Times(w.late, m)
  {
    AccountHolds(worlds, actions, k);
    var w := worlds[k];
    assert Balanced(w, m) && Messages([]) == [] && Words([]) == [];
    assert Times(Arrivals(w), m)
        == Times(w.acked, m) + Times(w.late, m) + Times(w.untracked, m) + Times(w.post.relayed, m);
  }

  /** Whoever arrived late was relayed as well. */
  lemma {:induction false} LateIsRelayed(worlds: seq<World>, actions: seq<Action>, k: nat, m: Message)
    requires Run(worlds, actions) && k < |worlds|
    ensures Times(worlds[k].late, m) <= Times(worlds[k].post.relayed, m)
  {
    if k > 0 {
      LateIsRelayed(worlds, actions, k - 1, m);
      assert Next(worlds[k - 1], actions[k - 1], worlds[k - 1 + 1]);
      LateStepIsRelayed(worlds[k - 1], actions[k - 1], worlds[k], m);
    }
  }

  lemma LateStepIsRelayed(w: World, a: Action, w': World, m: Message)
    requires Next(w, a, w') && Times(w.late, m) <= Times(w.post.relayed, m)
    ensures Times(w'.late, m) <= Times(w'.post.relayed, m)
  {
    hide Asked, Redirected, Times;
    match a
    case Choose(_, one) => TimesSnoc(w.post.relayed, one, m);
    case HandOver(k, _) => TimesSnoc(w.post.relayed, w.choosing[k].message, m);
    case Finish(k, _) =>
      TimesSnoc(w.post.relayed, w.waiting[k].message, m);
      TimesSnoc(w.late, w.waiting[k].message, m);
    case Settle(_) =>
      TimesSnoc(w.post.relayed, w.settling.value.message, m);
      TimesSnoc(w.late, w.settling.value.message, m);
    case _ =>
  }

  /**
   A message given once arrives twice if and only if it arrived directly without being acknowledged in
   time, and never if and only if it was lost; else it arrives once.
   */
  lemma OnceUnlessLateOrLost(worlds: seq<World>, actions: seq<Action>, k: nat, m: Message)
    requires Run(worlds, actions) && k < |worlds| && AllSettled(worlds[k])
    requires Times(worlds[k].begun, m) == 1
    ensures var w := worlds[k];
            && (Times(Arrivals(w), m) == 2 <==> m in w.late)
            && (Times(Arrivals(w), m) == 0 <==> m in w.lost)
            && Times(Arrivals(w), m) <= 2
  {
    SettledMessagesArrived(worlds, actions, k, m);
    LateIsRelayed(worlds, actions, k, m);
    AccountHolds(worlds, actions, k);
    assert Balanced(worlds[k], m);
    assert m in worlds[k].late <==> Times(worlds[k].late, m) > 0;
    assert m in worlds[k].lost <==> Times(worlds[k].lost, m) > 0;
  }

  /** The counters add up to the finished sends, plus one for every time the clamp was needed. */
  lemma CountersAddUp(worlds: seq<World>, actions: seq<Action>, k: nat)
    requires Run(worlds, actions) && k < |worlds|
    ensures var w := worlds[k];
            && w.post.direct + w.post.relay + w.uncounted
               == |w.begun| - |w.choosing| - |w.waiting| - |w.lost| + w.bites
            && w.post.direct + w.uncounted >= |w.post.pending| + if w.settling.Some? then 1 else 0
  {
    AccountHolds(worlds, actions, k);
  }

  /**
   The clamp is met if and only if a message that was not acknowledged is settled while the counter
   stands at zero. Then everything handed over before was given up, but for what its senders have not
   counted yet; the watcher meets it only while such a sender is left.
   */
  lemma WhenTheClampBites(worlds: seq<World>, actions: seq<Action>, k: nat)
    requires Run(worlds, actions) && k < |actions|
    ensures worlds[k + 1].bites != worlds[k].bites <==>
              && (actions[k].Finish? || actions[k].Settle?) && !actions[k].fate.Acknowledged?
              && worlds[k].post.direct == 0
    ensures worlds[k + 1].bites != worlds[k].bites ==>
              var w := worlds[k];
              && |w.post.pending| + |Settling(w)| + |w.acked| + |w.untracked| + w.bites == w.uncounted
              && (actions[k].Settle? ==> w.uncounted > 0)
  {
    AccountHolds(worlds, actions, k);
    assert Next(worlds[k], actions[k], worlds[k + 1]);
    hide Accounted, Asked, Redirected;
  }

  // ---------------------------------------------------------------- quarantine

  /** In this step a direct hand-over to this peer failed, or was found to have failed. */
  predicate FailsFor(w: World, a: Action, peer: PeerId) {
    match a
    case HandOver(k, handing) =>
      && handing.Raises? && k < |w.choosing| && w.choosing[k].key in w.post.table.neighbours
      && w.post.table.neighbours[w.choosing[k].key].peerId == peer
    case Finish(k, fate) => !fate.Acknowledged? && k < |w.waiting| && w.waiting[k].peer == peer
    case Settle(fate) => !fate.Acknowledged? && w.settling.Some? && w.settling.value.peer == peer
    case _ => false
  }

  predicate BlockedPast(w: World, peer: PeerId, until: real) {
    peer in w.post.table.blockedUntil && w.post.table.blockedUntil[peer] >= until
  }

  lemma FailureBlocks(w: World, a: Action, w': World, peer: PeerId)
    requires Next(w, a, w') && FailsFor(w, a, peer)
    ensures BlockedPast(w', peer, w.now + DIRECT_COOLDOWN_S) && w.now <= w'.now
  {
  }

  lemma BlockLasts(w: World, a: Action, w': World, peer: PeerId, until: real)
    requires Next(w, a, w') && !a.Redirect? && BlockedPast(w, peer, until) && until <= w.now + DIRECT_COOLDOWN_S
    ensures BlockedPast(w', peer, until) && w.now <= w'.now
  {
  }

  lemma {:induction false} BlockHolds(worlds: seq<World>, actions: seq<Action>, j: nat, k: nat, peer: PeerId)
    requires Run(worlds, actions) && j < k < |worlds| && FailsFor(worlds[j], actions[j], peer)
    requires forall i | j < i < k :: !actions[i].Redirect?
    ensures BlockedPast(worlds[k], peer, worlds[j].now + DIRECT_COOLDOWN_S) && worlds[j].now <= worlds[k].now
  {
    assert Next(worlds[k - 1], actions[k - 1], worlds[k - 1 + 1]);
    hide Next, FailsFor, BlockedPast;
    if k == j + 1 {
      FailureBlocks(worlds[j], actions[j], worlds[k], peer);
    } else {
      BlockHolds(worlds, actions, j, k - 1, peer);
      BlockLasts(worlds[k - 1], actions[k - 1], worlds[k], peer, worlds[j].now + DIRECT_COOLDOWN_S);
    }
  }

  /**
   For as long as the cooldown after a failure, and unless a new directory arrives, the direct way is not
   chosen to that peer.
   */
  lemma FailedPeersRest(worlds: seq<World>, actions: seq<Action>, j: nat, k: nat, key: Key, peer: PeerId)
    requires Run(worlds, actions) && j < k < |worlds| && FailsFor(worlds[j], actions[j], peer)
    requires forall i | j < i < k :: !actions[i].Redirect?
    requires worlds[k].now < worlds[j].now + DIRECT_COOLDOWN_S
    requires key in worlds[k].post.table.neighbours && worlds[k].post.table.neighbours[key].peerId == peer
    ensures !Asked(worlds[k].post.table, key, worlds[k].now).0
  {
    BlockHolds(worlds, actions, j, k, peer);
  }
}
