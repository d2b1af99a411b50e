/** The contract event loop: it drains a channel into the fair queue, handles delegate notifications,
    pops one event and must settle every waiting caller exactly once. The executor is arbitrary and
    so is what arrives, and when. */
module ContractLoop {
  import opened Messages
  import D = DelegateLoop
  import Q = FairQueue

  const MAX_DRAIN_BATCH: nat := 256
  const MAX_DELEGATE_DRAIN_BATCH: nat := 16

  datatype Notification = Notification(delegate: DelegateKey, contract: ContractInstanceId, state: Blob)

  /** How a caller was released: with a reply, or by dropping its response channel. */
  datatype Settlement = Settlement(item: Item, reply: Option<Event>, rejected: bool)

  datatype Status = Running | Failed | Panicked

  /** `pending` and `notes` are the two channels, `waiting` the keys of the waiting-response map.
      `settled`, `served` and `noted` record what was settled, popped and notified, in order, and
      `routed` what notified delegates had for their client applications.
      `inHand` is the event the loop was handling when it stopped. */
  datatype Loop<S> = Loop(
    pending: seq<Item>, closed: bool, notes: seq<Notification>, queue: Q.Ring, waiting: set<EventId>, host: D.Host<S>,
    settled: seq<Settlement>, served: seq<Item>, noted: seq<Notification>,
    routed: seq<(DelegateKey, seq<OutboundDelegateMsg>)>, inHand: Option<Item>, status: Status)

  // ---------------------------------------------------------------- settling one event

  /** What `handle_contract_event` decides for an event. */
  datatype Verdict = Answer(reply: Event) | Drop | Fatal | Unreachable

  function Judge<S>(x: D.Executor<S>, h: D.Host<S>, e: Event): (D.Host<S>, Verdict) {
    match e
    case GetQuery(id, returnCode) =>
      (match x.lookup(h.store, id)
       case None => (h, Answer(GetResponse(None, Ok(StoreResponse(None, None)))))
       case Some(key) =>
         var (s, r) := x.fetch(h.store, key, returnCode);
         (h.(store := s), if r.Err? && r.error.fatal then Fatal else Answer(GetResponse(Some(key), r))))
    case PutQuery(key, state, related, contract) =>
      var (s, r) := x.upsert(h.store, key, FullState(state), related, contract);
      (h.(store := s),
       match r
       case Ok(NoChange) => Answer(PutResponse(Ok(state), false))
       case Ok(Updated(v)) => Answer(PutResponse(Ok(v), true))
       case Ok(CurrentWon(v)) => Answer(PutResponse(Ok(v), false))
       case Err(err) => if err.fatal then Fatal else Answer(PutResponse(Err(err), false)))
    case UpdateQuery(key, data, related) =>
      if data.UpdateCompound? then (h, Unreachable) else
      var change := if data.UpdateState? then FullState(data.state) else Delta(data.delta);
      var (s, r) := x.upsert(h.store, key, change, related, None);
      (match r
       case Ok(NoChange) =>
         var (s', current) := x.fetch(s, key, false);
         (h.(store := s'), Answer(if current.Ok? && current.value.state.Some?
                                  then UpdateResponse(Ok(current.value.state.value), false) else UpdateNoChange(key)))
       case Ok(Updated(v)) => (h.(store := s), Answer(UpdateResponse(Ok(v), true)))
       case Ok(CurrentWon(v)) => (h.(store := s), Answer(UpdateResponse(Ok(v), false)))
       case Err(err) => (h.(store := s), if err.fatal then Fatal else Answer(UpdateResponse(Err(err), false))))
    case DelegateQuery(req, origin) =>
      var (h1, messages) := D.Conversation(x, h, req, origin, req.key);
      (if req.RegisterDelegate? then x.bookkeeping(h1, e) else h1, Answer(DelegateResponse(messages)))
    case RegisterSubscriberListener(_, _) => (x.bookkeeping(h, e), Answer(RegisterSubscriberListenerResponse))
    case NotifySubscriptionError(_, _) => (x.bookkeeping(h, e), Answer(NotifySubscriptionErrorResponse))
    case QuerySubscriptions => (h, Answer(QuerySubscriptionsResponse))
    case GetSummaryQuery(key) =>
      var (s, r) := x.summarize(h.store, key);
      (h.(store := s), Answer(GetSummaryResponse(key, r)))
    case GetDeltaQuery(key, summary) =>
      var (s, r) := x.delta(h.store, key, summary);
      (h.(store := s), Answer(GetDeltaResponse(key, r)))
    case ClientDisconnect(_) => (x.bookkeeping(h, e), Drop)
    case _ => (h, Unreachable)
  }

  const QUEUE_FULL := ExecutorError(false, "contract queue full, try again later")

  /** The reply to an event the queue rejected; `None` drops the caller's channel instead. */
  function QueueFullReply(e: Event): Option<Event> {
    match e
    case PutQuery(_, _, _, _) => Some(PutResponse(Err(QUEUE_FULL), false))
    case UpdateQuery(_, _, _) => Some(UpdateResponse(Err(QUEUE_FULL), false))
    case GetQuery(_, _) => Some(GetResponse(None, Err(QUEUE_FULL)))
    case GetSummaryQuery(key) => Some(GetSummaryResponse(key, Err(QUEUE_FULL)))
    case GetDeltaQuery(key, _) => Some(GetDeltaResponse(key, Err(QUEUE_FULL)))
    case _ => None
  }

  /** The reply kind each query is entitled to, about the contract it asked for. */
  predicate Matches(query: Event, reply: Event) {
    match query
    case GetQuery(_, _) => reply.GetResponse?
    case PutQuery(_, _, _, _) => reply.PutResponse?
    case UpdateQuery(key, _, _) => reply.UpdateResponse? || reply == UpdateNoChange(key)
    case DelegateQuery(_, _) => reply.DelegateResponse?
    case RegisterSubscriberListener(_, _) => reply.RegisterSubscriberListenerResponse?
    case NotifySubscriptionError(_, _) => reply.NotifySubscriptionErrorResponse?
    case QuerySubscriptions => reply.QuerySubscriptionsResponse?
    case GetSummaryQuery(key) => reply.GetSummaryResponse? && reply.key == key
    case GetDeltaQuery(key, _) => reply.GetDeltaResponse? && reply.key == key
    case _ => false
  }

  /** Events whose caller may be released without a reply. */
  predicate MayDrop(query: Event, rejected: bool) {
    if rejected then
      query.DelegateQuery? || query.RegisterSubscriberListener? || query.NotifySubscriptionError? ||
      query.QuerySubscriptions? || IsResponse(query)
    else query.ClientDisconnect?
  }

  /** A settlement is proper: a reply of the right kind, an error if the event was rejected, and no
      reply only where none is owed. In particular a client disconnect is never a rejected event. */
  predicate Proper(s: Settlement) {
    match s.reply
    case None => MayDrop(s.item.event, s.rejected)
    case Some(reply) => Matches(s.item.event, reply) && (s.rejected ==> IsQueueFull(reply))
  }

  predicate IsQueueFull(reply: Event) {
    match reply
    case PutResponse(v, changed) => v == Err(QUEUE_FULL) && !changed
    case UpdateResponse(v, changed) => v == Err(QUEUE_FULL) && !changed
    case GetResponse(found, v) => found == None && v == Err(QUEUE_FULL)
    case GetSummaryResponse(_, v) => v == Err(QUEUE_FULL)
    case GetDeltaResponse(_, v) => v == Err(QUEUE_FULL)
    case _ => false
  }

  lemma RejectedPushKeeps(v: Q.Ring, item: Item)
    ensures !Q.Accepts(v, item) ==> Q.Pushed(v, item) == v
  {
  }

  lemma JudgeIsProper<S>(x: D.Executor<S>, h: D.Host<S>, item: Item)
    ensures Judge(x, h, item.event).1.Answer? ==> Proper(Settlement(item, Some(Judge(x, h, item.event).1.reply), false))
    ensures Judge(x, h, item.event).1.Drop? <==> item.event.ClientDisconnect?
    ensures Judge(x, h, item.event).1.Unreachable? <==>
              IsResponse(item.event) || (item.event.UpdateQuery? && item.event.data.UpdateCompound?)
    ensures Judge(x, h, item.event).1.Fatal? ==> item.event.GetQuery? || item.event.PutQuery? || item.event.UpdateQuery?
  {
    hide D.Conversation;
  }

  lemma RejectionIsProper(item: Item)
    requires !item.event.ClientDisconnect?
    ensures Proper(Settlement(item, QueueFullReply(item.event), true))
  {
  }

  // ---------------------------------------------------------------- the steps of one iteration

  /** Release a caller: its waiting entry goes, whatever the reply. */
  function Settle<S>(l: Loop<S>, item: Item, reply: Option<Event>, rejected: bool): Loop<S> {
    if item.id !in l.waiting then l else
    l.(waiting := l.waiting - {item.id}, settled := l.settled + [Settlement(item, reply, rejected)])
  }

  function Enqueue<S>(l: Loop<S>, item: Item): Loop<S> {
    if Q.Accepts(l.queue, item) then l.(queue := Q.Pushed(l.queue, item))
    else Settle(l, item, QueueFullReply(item.event), true)
  }

  /** Take the next event off the channel; its sender now waits. */
  function Receive<S>(l: Loop<S>): Loop<S>
    requires l.pending != []
  {
    l.(pending := l.pending[1..], waiting := l.waiting + {l.pending[0].id})
  }

  function DrainOne<S>(x: D.Executor<S>, l: Loop<S>): Loop<S>
    requires l.pending != []
  {
    var item, l1 := l.pending[0], Receive(l);
    if item.event.ClientDisconnect?
    then Settle(l1.(host := x.bookkeeping(l1.host, item.event)), item, None, false)
    else Enqueue(l1, item)
  }

  /** Up to `n` events; an empty channel ends the batch, a closed and empty one ends the loop. */
  function Drain<S>(x: D.Executor<S>, l: Loop<S>, n: nat): Loop<S>
    decreases |l.pending|
  {
    if n == 0 then l
    else if l.pending == [] then (if l.closed then l.(status := Failed) else l)
    else Drain(x, DrainOne(x, l), n - 1)
  }

  function NotificationRequest(n: Notification): DelegateRequest {
    ApplicationMessages(n.delegate, [], [ContractNotification(n.contract, n.state)])
  }

  /** What a notified delegate says goes to its client applications if any of it is meant for them. */
  function ForApps(delegate: DelegateKey, out: seq<OutboundDelegateMsg>): seq<(DelegateKey, seq<OutboundDelegateMsg>)> {
    if exists m <- out :: m.ApplicationMessage? then [(delegate, out)] else []
  }

  function NoteOne<S>(x: D.Executor<S>, l: Loop<S>): Loop<S>
    requires l.notes != []
  {
    var n := l.notes[0];
    var (h, out) := D.Conversation(x, l.host, NotificationRequest(n), None, n.delegate);
    l.(notes := l.notes[1..], noted := l.noted + [n], host := h, routed := l.routed + ForApps(n.delegate, out))
  }

  function Notes<S>(x: D.Executor<S>, l: Loop<S>, n: nat): Loop<S>
    decreases |l.notes|
  {
    if n == 0 || l.notes == [] then l else Notes(x, NoteOne(x, l), n - 1)
  }

  function Handle<S>(x: D.Executor<S>, l: Loop<S>, item: Item): Loop<S> {
    var (h, verdict) := Judge(x, l.host, item.event);
    var l1 := l.(host := h);
    match verdict
    case Answer(reply) => Settle(l1, item, Some(reply), false)
    case Drop => Settle(l1, item, None, false)
    case Fatal => l1.(inHand := Some(item), status := Failed)
    case Unreachable => l1.(inHand := Some(item), status := Panicked)
  }

  predicate CanPop(q: Q.Ring) {
    q != [] && q[0].items != []
  }

  function ServeNext<S>(x: D.Executor<S>, l: Loop<S>): Loop<S>
    requires CanPop(l.queue)
  {
    var item := l.queue[0].items[0];
    Handle(x, l.(queue := Q.Popped(l.queue), served := l.served + [item]), item)
  }

  /** What the loop sees of the outside in one iteration: what has arrived when it drains, what has
      arrived by the time it blocks, and which ready branch the blocking select takes. */
  datatype Wake = WakeEvent | WakeNote
  datatype Env = Env(arrivals: seq<Item>, notes: seq<Notification>, close: bool,
                     late: seq<Item>, lateNotes: seq<Notification>, lateClose: bool, wake: Wake)

  function Arrive<S>(l: Loop<S>, items: seq<Item>, notes: seq<Notification>, close: bool): Loop<S> {
    l.(pending := l.pending + items, notes := l.notes + notes, closed := l.closed || close)
  }

  /** Waiting with an empty queue: take whichever branch is ready, or stay blocked. */
  function Block<S>(x: D.Executor<S>, l: Loop<S>, wake: Wake): Loop<S> {
    match wake
    case WakeEvent =>
      if l.pending != [] then Enqueue(Receive(l), l.pending[0])
      else if l.closed then l.(status := Failed) else l
    case WakeNote => if l.notes != [] then NoteOne(x, l) else l
  }

  function Iterate<S>(x: D.Executor<S>, l: Loop<S>, env: Env): Loop<S> {
    if !l.status.Running? then l else
    var l1 := Drain(x, Arrive(l, env.arrivals, env.notes, env.close), MAX_DRAIN_BATCH);
    if !l1.status.Running? then l1 else
    var l2 := Notes(x, l1, MAX_DELEGATE_DRAIN_BATCH);
    if CanPop(l2.queue) then ServeNext(x, l2)
    else Block(x, Arrive(l2, env.late, env.lateNotes, env.lateClose), env.wake)
  }

  function Run<S>(x: D.Executor<S>, l: Loop<S>, envs: seq<Env>): Loop<S> {
    if envs == [] then l else Iterate(x, Run(x, l, envs[..|envs| - 1]), envs[|envs| - 1])
  }

  // ---------------------------------------------------------------- the ledger

  function ItemsOf(settled: seq<Settlement>): seq<Item> {
    if settled == [] then [] else ItemsOf(settled[..|settled| - 1]) + [settled[|settled| - 1].item]
  }

  function InHand(o: Option<Item>): seq<Item> {
    if o.Some? then [o.value] else []
  }

  /** The events whose senders are waiting. */
  function Held<S>(l: Loop<S>): seq<Item> {
    Q.Contents(l.queue) + InHand(l.inHand)
  }

  /** Every event sent so far, wherever it is now. */
  function Accounted<S>(l: Loop<S>): seq<Item> {
    l.pending + Held(l) + ItemsOf(l.settled)
  }

  function Ids(s: seq<Item>): multiset<EventId> {
    if s == [] then multiset{} else multiset{s[0].id} + Ids(s[1..])
  }

  ghost predicate Once(m: multiset<EventId>) {
    forall id :: m[id] <= 1
  }

  ghost predicate WaitingFor(waiting: set<EventId>, held: multiset<EventId>) {
    forall id :: id in waiting <==> held[id] > 0
  }

  ghost predicate History<S>(l: Loop<S>, held: seq<Item>) {
    && (forall s <- l.settled :: Proper(s))
    && (forall a <- l.served :: a in ItemsOf(l.settled) || a in held)
  }

  /** Between steps: exactly the queued events (and the one the loop stopped on) have a waiting sender. */
  ghost predicate Inv<S>(l: Loop<S>) {
    && Q.WellFormed(l.queue)
    && WaitingFor(l.waiting, Ids(Held(l)))
    && Once(Ids(Accounted(l)))
    && History(l, InHand(l.inHand))
    && (l.status.Running? ==> l.inHand.None?)
  }

  /** Within a step: as between steps, with `item` taken out and its sender still waiting. */
  ghost predicate Holding<S>(l: Loop<S>, item: Item) {
    && Q.WellFormed(l.queue)
    && WaitingFor(l.waiting, Ids(Held(l)) + multiset{item.id})
    && Once(Ids(Accounted(l)) + multiset{item.id})
    && History(l, [item])
    && l.status.Running? && l.inHand.None?
  }

  lemma {:induction false} IdsSplit(a: seq<Item>, b: seq<Item>)
    ensures Ids(a + b) == Ids(a) + Ids(b)
  {
    if a == [] {
      assert a + b == b;
    } else {
      assert (a + b)[1..] == a[1..] + b;
      IdsSplit(a[1..], b);
    }
  }

  lemma IdsOne(x: Item)
    ensures Ids([x]) == multiset{x.id}
  {
    assert [x][1..] == [];
  }

  lemma ItemsOfSnoc(settled: seq<Settlement>, s: Settlement)
    ensures ItemsOf(settled + [s]) == ItemsOf(settled) + [s.item]
  {
    assert (settled + [s])[..|settled|] == settled;
  }

  /** The ids of everything accounted for, part by part. */
  lemma IdsOfAccounted<S>(l: Loop<S>)
    ensures Ids(Accounted(l)) == Ids(l.pending) + Ids(Held(l)) + Ids(ItemsOf(l.settled))
    ensures Ids(Held(l)) == Ids(Q.Contents(l.queue)) + Ids(InHand(l.inHand))
  {
    hide Ids, Q.Contents, ItemsOf;
    IdsSplit(l.pending + Held(l), ItemsOf(l.settled));
    IdsSplit(l.pending, Held(l));
    IdsSplit(Q.Contents(l.queue), InHand(l.inHand));
  }

  /** Two states account for the same events. */
  predicate Same<S>(l: Loop<S>, w: Loop<S>) {
    multiset(Accounted(w)) == multiset(Accounted(l)) && Ids(Accounted(w)) == Ids(Accounted(l))
  }

  /** `after` accounts for everything in `before` and `item`. */
  predicate Adds<S>(before: Loop<S>, item: Item, after: Loop<S>) {
    && multiset(Accounted(after)) == multiset(Accounted(before)) + multiset{item}
    && Ids(Accounted(after)) == Ids(Accounted(before)) + multiset{item.id}
  }

  lemma SettleAdds<S>(l: Loop<S>, item: Item, reply: Option<Event>, rejected: bool)
    requires item.id in l.waiting
    ensures Adds(l, item, Settle(l, item, reply, rejected))
    ensures Held(Settle(l, item, reply, rejected)) == Held(l)
  {
    hide Ids, Q.Contents, ItemsOf;
    var w := Settle(l, item, reply, rejected);
    ItemsOfSnoc(l.settled, Settlement(item, reply, rejected));
    assert Accounted(w) == Accounted(l) + [item];
    IdsSplit(Accounted(l), [item]);
    IdsOne(item);
  }

  lemma SettleKeeps<S>(l: Loop<S>, item: Item, reply: Option<Event>, rejected: bool)
    requires Holding(l, item) && Proper(Settlement(item, reply, rejected))
    ensures Inv(Settle(l, item, reply, rejected)) && Adds(l, item, Settle(l, item, reply, rejected))
    ensures Settle(l, item, reply, rejected).status.Running?
  {
    hide Proper, Q.WellFormed, Q.Contents, ItemsOf, Ids, Accounted, Held;
    var w := Settle(l, item, reply, rejected);
    assert (Ids(Held(l)) + multiset{item.id})[item.id] > 0;
    SettleAdds(l, item, reply, rejected);
    IdsOfAccounted(l);
    ItemsOfSnoc(l.settled, Settlement(item, reply, rejected));
    assert (Ids(Accounted(l)) + multiset{item.id})[item.id] <= 1;
  }

  lemma AcceptAdds<S>(l: Loop<S>, item: Item)
    requires l.inHand.None? && Q.Accepts(l.queue, item)
    ensures Adds(l, item, Enqueue(l, item))
    ensures Ids(Held(Enqueue(l, item))) == Ids(Held(l)) + multiset{item.id}
  {
    hide Q.Contents, Q.Pushed, Q.Accepts, ItemsOf, Ids;
    var w := Enqueue(l, item);
    var a, b := Q.PushSplit(l.queue, item);
    assert Held(w) == a + ([item] + b) && Held(l) == a + b;
    IdsInsert(a, item, b);
    assert Accounted(w) == (l.pending + a) + ([item] + (b + ItemsOf(l.settled)));
    assert Accounted(l) == (l.pending + a) + (b + ItemsOf(l.settled));
    IdsInsert(l.pending + a, item, b + ItemsOf(l.settled));
  }

  lemma EnqueueKeeps<S>(l: Loop<S>, item: Item)
    requires Holding(l, item) && History(l, []) && (item.event.ClientDisconnect? ==> l.queue == [])
    ensures Inv(Enqueue(l, item)) && Adds(l, item, Enqueue(l, item)) && Enqueue(l, item).status.Running?
  {
    hide Q.WellFormed, Q.Accepts, Q.Pushed, Q.Contents, ItemsOf, Ids, Proper, QueueFullReply, Held, Accounted, Adds;
    if Q.Accepts(l.queue, item) {
      Q.PushKeeps(l.queue, item);
      AcceptAdds(l, item);
      AddsIds(l, item, Enqueue(l, item));
    } else {
      if l.queue == [] {
        Q.EmptyAcceptsAll(item);
      }
      RejectionIsProper(item);
      SettleKeeps(l, item, QueueFullReply(item.event), true);
    }
  }

  lemma AddsIds<S>(l: Loop<S>, item: Item, w: Loop<S>)
    requires Adds(l, item, w)
    ensures Ids(Accounted(w)) == Ids(Accounted(l)) + multiset{item.id}
  {
  }

  lemma IdsInsert(a: seq<Item>, x: Item, b: seq<Item>)
    ensures Ids(a + ([x] + b)) == Ids(a + b) + multiset{x.id}
    ensures multiset(a + ([x] + b)) == multiset(a + b) + multiset{x}
  {
    hide Ids;
    IdsSplit(a, [x] + b);
    IdsSplit([x], b);
    IdsSplit(a, b);
    IdsOne(x);
  }

  lemma HandleKeeps<S>(x: D.Executor<S>, l: Loop<S>, item: Item)
    requires Holding(l, item)
    ensures Inv(Handle(x, l, item)) && Adds(l, item, Handle(x, l, item))
  {
    hide Judge, Proper, Q.WellFormed, Q.Contents, ItemsOf, Ids;
    JudgeIsProper(x, l.host, item);
    var (h, verdict) := Judge(x, l.host, item.event);
    var l1 := l.(host := h);
    assert Holding(l1, item);
    if verdict.Answer? {
      SettleKeeps(l1, item, Some(verdict.reply), false);
    } else if verdict.Drop? {
      DropIsProper(item);
      SettleKeeps(l1, item, None, false);
    } else {
      var w := Handle(x, l, item);
      assert Held(l) == Q.Contents(l.queue) + [] && Held(w) == Q.Contents(l.queue) + ([item] + []);
      assert Accounted(w) == (l.pending + Q.Contents(l.queue)) + ([item] + ItemsOf(l.settled));
      assert Accounted(l) == (l.pending + Q.Contents(l.queue)) + ItemsOf(l.settled);
      IdsInsert(Q.Contents(l.queue), item, []);
      IdsInsert(l.pending + Q.Contents(l.queue), item, ItemsOf(l.settled));
    }
  }

  lemma DropIsProper(item: Item)
    requires item.event.ClientDisconnect?
    ensures Proper(Settlement(item, None, false))
  {
  }

  lemma ReceiveHolds<S>(l: Loop<S>)
    requires Inv(l) && l.status.Running? && l.pending != []
    ensures Holding(Receive(l), l.pending[0]) && Adds(Receive(l), l.pending[0], l) && History(Receive(l), [])
  {
    hide Q.WellFormed, Q.Contents, ItemsOf, Ids, Proper;
    var w, item := Receive(l), l.pending[0];
    assert Accounted(l) == [] + ([item] + Accounted(w));
    assert [] + Accounted(w) == Accounted(w);
    IdsInsert([], item, Accounted(w));
    assert Held(w) == Held(l);
    IdsOfAccounted(l);
    IdsOfAccounted(w);
  }

  lemma DrainOneKeeps<S>(x: D.Executor<S>, l: Loop<S>)
    requires Inv(l) && l.status.Running? && l.pending != []
    ensures Inv(DrainOne(x, l)) && DrainOne(x, l).status.Running?
    ensures Same(l, DrainOne(x, l))
  {
    hide Q.WellFormed, Q.Contents, Q.Accepts, Q.Pushed, ItemsOf, Ids, Proper;
    var item := l.pending[0];
    ReceiveHolds(l);
    if item.event.ClientDisconnect? {
      var l1 := Receive(l).(host := x.bookkeeping(Receive(l).host, item.event));
      assert Holding(l1, item);
      DropIsProper(item);
      SettleKeeps(l1, item, None, false);
    } else {
      EnqueueKeeps(Receive(l), item);
    }
  }

  lemma {:induction false} DrainKeeps<S>(x: D.Executor<S>, l: Loop<S>, n: nat)
    requires Inv(l) && l.status.Running?
    ensures Inv(Drain(x, l, n)) && Same(l, Drain(x, l, n))
    decreases n
  {
    hide DrainOne, Inv, Accounted;
    if n > 0 && l.pending != [] {
      DrainOneKeeps(x, l);
      DrainKeeps(x, DrainOne(x, l), n - 1);
    } else {
      FailedKeeps(l);
    }
  }

  lemma {:induction false} FailedKeeps<S>(l: Loop<S>)
    requires Inv(l) && l.status.Running?
    ensures Inv(l.(status := Failed)) && Same(l, l.(status := Failed)) && Same(l, l)
  {
    hide Q.WellFormed, Q.Contents, ItemsOf, Ids, Proper;
  }

  lemma {:induction false} NotesKeep<S>(x: D.Executor<S>, l: Loop<S>, n: nat)
    requires Inv(l)
    ensures Inv(Notes(x, l, n)) && Accounted(Notes(x, l, n)) == Accounted(l) && Notes(x, l, n).status == l.status
    decreases n
  {
    hide D.Conversation, Q.WellFormed, Q.Contents, ItemsOf, Ids, Proper;
    if n > 0 && l.notes != [] {
      NotesKeep(x, NoteOne(x, l), n - 1);
    }
  }

  lemma PopHolds<S>(l: Loop<S>)
    requires Inv(l) && l.status.Running? && l.queue != []
    ensures CanPop(l.queue)
    ensures var item := l.queue[0].items[0];
            var w := l.(queue := Q.Popped(l.queue), served := l.served + [item]);
            Holding(w, item) && Adds(w, item, l)
  {
    hide Q.WellFormed, Q.Popped, ItemsOf, Ids, Proper, Q.Contents;
    Q.PopKeeps(l.queue);
    var item := l.queue[0].items[0];
    var w := l.(queue := Q.Popped(l.queue), served := l.served + [item]);
    var a, b := Q.PopSplit(l.queue);
    PopAdds(l, w, item, a, b);
  }

  lemma PopAdds<S>(l: Loop<S>, w: Loop<S>, item: Item, a: seq<Item>, b: seq<Item>)
    requires l.inHand == w.inHand == None && l.pending == w.pending && l.settled == w.settled
    requires Q.Contents(l.queue) == [item] + a + b && Q.Contents(w.queue) == b + a
    ensures Adds(w, item, l) && Ids(Held(l)) == Ids(Held(w)) + multiset{item.id}
  {
    hide Q.Contents, ItemsOf, Ids;
    assert Held(l) == [item] + a + b && Held(w) == b + a;
    MovedIds(item, a, b);
    IdsOfAccounted(l);
    IdsOfAccounted(w);
  }

  lemma {:induction false} MovedIds(item: Item, a: seq<Item>, b: seq<Item>)
    ensures Ids([item] + a + b) == Ids(b + a) + multiset{item.id}
    ensures multiset([item] + a + b) == multiset(b + a) + multiset{item}
  {
    hide Ids;
    IdsSplit([item] + a, b);
    IdsSplit([item], a);
    IdsSplit(b, a);
    IdsOne(item);
  }

  lemma ServeKeeps<S>(x: D.Executor<S>, l: Loop<S>)
    requires Inv(l) && l.status.Running? && CanPop(l.queue)
    ensures Inv(ServeNext(x, l)) && Same(l, ServeNext(x, l))
  {
    hide Inv, Holding, Handle, Q.Popped, Accounted;
    PopHolds(l);
    var item := l.queue[0].items[0];
    HandleKeeps(x, l.(queue := Q.Popped(l.queue), served := l.served + [item]), item);
  }

  lemma BlockKeeps<S>(x: D.Executor<S>, l: Loop<S>, wake: Wake)
    requires Inv(l) && l.status.Running? && l.queue == []
    ensures Inv(Block(x, l, wake)) && Same(l, Block(x, l, wake))
  {
    hide Q.WellFormed, Q.Contents, Q.Accepts, Q.Pushed, ItemsOf, Ids, Proper, D.Conversation;
    if wake.WakeEvent? && l.pending != [] {
      ReceiveHolds(l);
      EnqueueKeeps(Receive(l), l.pending[0]);
    }
  }

  lemma ArriveKeeps<S>(l: Loop<S>, items: seq<Item>, notes: seq<Notification>, close: bool)
    requires Inv(l) && Once(Ids(Accounted(l)) + Ids(items))
    ensures Inv(Arrive(l, items, notes, close))
    ensures multiset(Accounted(Arrive(l, items, notes, close))) == multiset(Accounted(l)) + multiset(items)
    ensures Ids(Accounted(Arrive(l, items, notes, close))) == Ids(Accounted(l)) + Ids(items)
  {
    hide Q.WellFormed, Q.Contents, ItemsOf, Ids, Proper;
    var w := Arrive(l, items, notes, close);
    IdsOfAccounted(l);
    IdsOfAccounted(w);
    IdsSplit(l.pending, items);
    assert Held(w) == Held(l);
    assert Accounted(w) == l.pending + items + (Held(l) + ItemsOf(l.settled));
    assert Accounted(l) == l.pending + (Held(l) + ItemsOf(l.settled));
    assert Ids(Accounted(w)) == Ids(Accounted(l)) + Ids(items);
  }

  /** The events sent in one iteration: while the loop runs, what is there when it drains, and what
      comes while it blocks. */
  function SentIn<S>(x: D.Executor<S>, l: Loop<S>, env: Env): seq<Item> {
    if !l.status.Running? then [] else
    var l1 := Drain(x, Arrive(l, env.arrivals, env.notes, env.close), MAX_DRAIN_BATCH);
    if l1.status.Running? && !CanPop(Notes(x, l1, MAX_DELEGATE_DRAIN_BATCH).queue) then env.arrivals + env.late
    else env.arrivals
  }

  function Sent<S>(x: D.Executor<S>, l: Loop<S>, envs: seq<Env>): seq<Item> {
    if envs == [] then [] else
    var before := envs[..|envs| - 1];
    Sent(x, l, before) + SentIn(x, Run(x, l, before), envs[|envs| - 1])
  }

  lemma {:induction false} IterateKeeps<S>(x: D.Executor<S>, l: Loop<S>, env: Env)
    requires Inv(l) && Once(Ids(Accounted(l)) + Ids(SentIn(x, l, env)))
    ensures Inv(Iterate(x, l, env))
    ensures multiset(Accounted(Iterate(x, l, env))) == multiset(Accounted(l)) + multiset(SentIn(x, l, env))
    ensures Ids(Accounted(Iterate(x, l, env))) == Ids(Accounted(l)) + Ids(SentIn(x, l, env))
  {
    hide Drain, Notes, ServeNext, Block, Inv, Accounted, Ids;
    if l.status.Running? {
      var l0 := Arrive(l, env.arrivals, env.notes, env.close);
      IdsSplit(env.arrivals, env.late);
      var sent := SentIn(x, l, env);
      if sent == env.arrivals + env.late {
        assert Ids(Accounted(l)) + Ids(sent) == (Ids(Accounted(l)) + Ids(env.arrivals)) + Ids(env.late);
        OncePart(Ids(Accounted(l)) + Ids(env.arrivals), Ids(env.late));
      }
      ArriveKeeps(l, env.arrivals, env.notes, env.close);
      DrainKeeps(x, l0, MAX_DRAIN_BATCH);
      var l1 := Drain(x, l0, MAX_DRAIN_BATCH);
      if l1.status.Running? {
        NotesKeep(x, l1, MAX_DELEGATE_DRAIN_BATCH);
        var l2 := Notes(x, l1, MAX_DELEGATE_DRAIN_BATCH);
        if CanPop(l2.queue) {
          ServeKeeps(x, l2);
        } else {
          EmptyWhenStuck(l2);
          var l3 := Arrive(l2, env.late, env.lateNotes, env.lateClose);
          assert Ids(Accounted(l2)) + Ids(env.late) == Ids(Accounted(l)) + Ids(sent);
          ArriveKeeps(l2, env.late, env.lateNotes, env.lateClose);
          BlockKeeps(x, l3, env.wake);
        }
      }
    } else {
      IdsNone();
    }
  }

  lemma OncePart(a: multiset<EventId>, b: multiset<EventId>)
    requires Once(a + b)
    ensures Once(a)
  {
    forall id ensures a[id] <= 1 { assert (a + b)[id] <= 1; }
  }

  lemma IdsNone()
    ensures Ids([]) == multiset{}
  {
  }

  lemma EmptyWhenStuck<S>(l: Loop<S>)
    requires Inv(l) && !CanPop(l.queue)
    ensures l.queue == []
  {
    if l.queue != [] {
      Q.PopKeeps(l.queue);
    }
  }

  /** The loop before anything has been sent. */
  predicate Fresh<S>(l: Loop<S>) {
    l.pending == [] && l.queue == [] && l.waiting == {} && l.settled == [] && l.served == [] && l.inHand == None && l.status == Running
  }

  /** Every run, whatever arrives and whatever the executor does: if no id is sent twice, then every
      event sent is in exactly one place exactly once (in the channel, queued, settled, or the one
      the loop stopped on), exactly the queued ones and the one it stopped on still have a waiting
      sender, and every settlement is proper. */
  lemma {:induction false} LedgerBalances<S>(x: D.Executor<S>, l: Loop<S>, envs: seq<Env>)
    requires Fresh(l) && Once(Ids(Sent(x, l, envs)))
    ensures Inv(Run(x, l, envs))
    ensures multiset(Accounted(Run(x, l, envs))) == multiset(Sent(x, l, envs))
    ensures Ids(Accounted(Run(x, l, envs))) == Ids(Sent(x, l, envs))
  {
    hide Ids, Inv, Run, Sent;
    IdsNone();
    FreshIsBalanced(l);
    assert multiset{} + Ids(Sent(x, l, envs)) == Ids(Sent(x, l, envs));
    RunKeeps(x, l, envs);
  }

  lemma FreshIsBalanced<S>(l: Loop<S>)
    requires Fresh(l)
    ensures Inv(l) && Accounted(l) == []
  {
  }

  lemma {:induction false} IdTwice(s: seq<Item>, i: nat, j: nat)
    requires i < j < |s| && s[i].id == s[j].id
    ensures Ids(s)[s[i].id] >= 2
  {
    if i == 0 {
      IdOnce(s[1..], j - 1);
    } else {
      IdTwice(s[1..], i - 1, j - 1);
    }
  }

  lemma {:induction false} IdOnce(s: seq<Item>, i: nat)
    requires i < |s|
    ensures Ids(s)[s[i].id] >= 1
  {
    if i > 0 {
      IdOnce(s[1..], i - 1);
    }
  }

  /** The queue is well formed and no client disconnect has been rejected. */
  ghost predicate Spares<S>(l: Loop<S>) {
    Q.WellFormed(l.queue) && forall s <- l.settled :: s.rejected ==> !s.item.event.ClientDisconnect?
  }

  lemma {:induction false} SettleSpares<S>(l: Loop<S>, item: Item, reply: Option<Event>, rejected: bool)
    requires Spares(l) && (rejected ==> !item.event.ClientDisconnect?)
    ensures Spares(Settle(l, item, reply, rejected))
  {
    hide Q.WellFormed;
  }

  /** What can be rejected is not a disconnect, or the queue has room for it. */
  lemma {:induction false} EnqueueSpares<S>(l: Loop<S>, item: Item)
    requires Spares(l) && (item.event.ClientDisconnect? ==> l.queue == [])
    ensures Spares(Enqueue(l, item))
  {
    hide Q.WellFormed, Q.Accepts, Q.Pushed, Settle, QueueFullReply;
    Q.PushKeeps(l.queue, item);
    if l.queue == [] {
      Q.EmptyAcceptsAll(item);
    }
    if !Q.Accepts(l.queue, item) {
      SettleSpares(l, item, QueueFullReply(item.event), true);
    }
  }

  lemma {:induction false} DrainSpares<S>(x: D.Executor<S>, l: Loop<S>, n: nat)
    requires Spares(l)
    ensures Spares(Drain(x, l, n))
    decreases n
  {
    hide Q.WellFormed, Settle, Enqueue;
    if n > 0 && l.pending != [] {
      var item, l1 := l.pending[0], Receive(l);
      if item.event.ClientDisconnect? {
        SettleSpares(l1.(host := x.bookkeeping(l1.host, item.event)), item, None, false);
      } else {
        EnqueueSpares(l1, item);
      }
      DrainSpares(x, DrainOne(x, l), n - 1);
    }
  }

  lemma {:induction false} NotesSpare<S>(x: D.Executor<S>, l: Loop<S>, n: nat)
    requires Spares(l)
    ensures Spares(Notes(x, l, n))
    decreases n
  {
    hide Q.WellFormed, D.Conversation, ForApps;
    if n > 0 && l.notes != [] {
      NotesSpare(x, NoteOne(x, l), n - 1);
    }
  }

  lemma {:induction false} ServeSpares<S>(x: D.Executor<S>, l: Loop<S>)
    requires Spares(l) && CanPop(l.queue)
    ensures Spares(ServeNext(x, l))
  {
    hide Q.WellFormed, Q.Popped, Judge, Settle;
    Q.PopKeeps(l.queue);
    var item := l.queue[0].items[0];
    var l1, verdict := l.(queue := Q.Popped(l.queue), served := l.served + [item]), Judge(x, l.host, item.event);
    SettleSpares(l1.(host := verdict.0), item, if verdict.1.Answer? then Some(verdict.1.reply) else None, false);
  }

  lemma {:induction false} BlockSpares<S>(x: D.Executor<S>, l: Loop<S>, wake: Wake)
    requires Spares(l) && l.queue == []
    ensures Spares(Block(x, l, wake))
  {
    hide Q.WellFormed, Enqueue, D.Conversation, ForApps;
    if wake.WakeEvent? && l.pending != [] {
      EnqueueSpares(Receive(l), l.pending[0]);
    }
  }

  lemma {:induction false} IterateSpares<S>(x: D.Executor<S>, l: Loop<S>, env: Env)
    requires Spares(l)
    ensures Spares(Iterate(x, l, env))
  {
    hide Q.WellFormed, Drain, Notes, ServeNext, Block;
    var l0 := Arrive(l, env.arrivals, env.notes, env.close);
    DrainSpares(x, l0, MAX_DRAIN_BATCH);
    var l1 := Drain(x, l0, MAX_DRAIN_BATCH);
    NotesSpare(x, l1, MAX_DELEGATE_DRAIN_BATCH);
    var l2 := Notes(x, l1, MAX_DELEGATE_DRAIN_BATCH);
    PopOrEmpty(l2.queue);
    if CanPop(l2.queue) {
      ServeSpares(x, l2);
    } else {
      BlockSpares(x, Arrive(l2, env.late, env.lateNotes, env.lateClose), env.wake);
    }
  }

  lemma {:induction false} RunSpares<S>(x: D.Executor<S>, l: Loop<S>, envs: seq<Env>)
    requires Spares(l)
    ensures Spares(Run(x, l, envs))
    decreases |envs|
  {
    hide Spares, Iterate;
    if envs != [] {
      RunSpares(x, l, envs[..|envs| - 1]);
      IterateSpares(x, Run(x, l, envs[..|envs| - 1]), envs[|envs| - 1]);
    }
  }

  /** No client disconnect is ever rejected, even when event ids repeat. */
  lemma {:induction false} DisconnectIsNeverRejected<S>(x: D.Executor<S>, l: Loop<S>, envs: seq<Env>)
    requires Fresh(l)
    ensures forall s <- Run(x, l, envs).settled :: s.rejected ==> !s.item.event.ClientDisconnect?
  {
    hide Run;
    assert Spares(l);
    RunSpares(x, l, envs);
  }

  /** Read off the ledger: no caller is settled twice, and while the loop runs an event that has been
      received is settled or still queued with its sender waiting, never both and never neither. */
  lemma {:induction false} SettledExactlyOnce<S>(x: D.Executor<S>, l: Loop<S>, envs: seq<Env>, item: Item)
    requires Fresh(l) && Once(Ids(Sent(x, l, envs)))
    ensures var e := Run(x, l, envs);
            var settled := ItemsOf(e.settled);
            && (forall i, j :: 0 <= i < j < |settled| ==> settled[i].id != settled[j].id)
            && (item in Sent(x, l, envs) && item !in e.pending && e.status.Running? ==>
                  && (item in settled <==> item !in Q.Contents(e.queue))
                  && (item in settled <==> item.id !in e.waiting))
  {
    hide Ids, Run, Sent, Q.Contents, Q.WellFormed, ItemsOf;
    LedgerBalances(x, l, envs);
    var e := Run(x, l, envs);
    IdsOfAccounted(e);
    var settled, queued := ItemsOf(e.settled), Q.Contents(e.queue);
    forall i, j | 0 <= i < j < |settled| ensures settled[i].id != settled[j].id {
      assert Ids(Accounted(e))[settled[i].id] <= 1;
      if settled[i].id == settled[j].id {
        IdTwice(settled, i, j);
      }
    }
    if item in Sent(x, l, envs) && item !in e.pending && e.status.Running? {
      assert item in multiset(Sent(x, l, envs));
      assert item in multiset(Accounted(e));
      assert Ids(Accounted(e))[item.id] <= 1;
      if item in settled {
        var i :| 0 <= i < |settled| && settled[i] == item;
        IdOnce(settled, i);
      }
      if item in queued {
        var i :| 0 <= i < |queued| && queued[i] == item;
        IdOnce(queued, i);
      }
      IdsNone();
    }
  }

  // ---------------------------------------------------------------- progress

  /** What one drain does to the queue, as queue operations. */
  function DrainOps<S>(x: D.Executor<S>, l: Loop<S>, n: nat): seq<Q.Op>
    decreases |l.pending|
  {
    if n == 0 || l.pending == [] then [] else
    (if l.pending[0].event.ClientDisconnect? then [] else [Q.Push(l.pending[0])]) + DrainOps(x, DrainOne(x, l), n - 1)
  }

  lemma {:induction false} DrainQueue<S>(x: D.Executor<S>, l: Loop<S>, n: nat)
    requires Q.WellFormed(l.queue)
    ensures Q.Run(l.queue, DrainOps(x, l, n)) == Q.Outcome(Drain(x, l, n).queue, []) && Q.Pops(DrainOps(x, l, n)) == 0
    ensures Drain(x, l, n).served == l.served && Drain(x, l, n).notes == l.notes && Drain(x, l, n).noted == l.noted
    decreases n
  {
    hide Q.WellFormed, Q.Accepts, Q.Pushed, Q.Run, Q.Pops, QueueFullReply;
    QueueRunNone(l.queue);
    if n > 0 && l.pending != [] {
      var item, w := l.pending[0], DrainOne(x, l);
      DrainOneQueue(x, l);
      DrainQueue(x, w, n - 1);
      if !item.event.ClientDisconnect? {
        Q.RunSplit(l.queue, [Q.Push(item)], DrainOps(x, w, n - 1));
        Q.RunOne(l.queue, Q.Push(item));
      } else {
        assert DrainOps(x, l, n) == DrainOps(x, w, n - 1);
      }
    }
  }

  lemma QueueRunNone(v: Q.Ring)
    requires Q.WellFormed(v)
    ensures Q.Run(v, []) == Q.Outcome(v, []) && Q.Pops([]) == 0
  {
  }

  lemma DrainOneQueue<S>(x: D.Executor<S>, l: Loop<S>)
    requires Q.WellFormed(l.queue) && l.pending != []
    ensures DrainOne(x, l).queue == if l.pending[0].event.ClientDisconnect? then l.queue else Q.Step(l.queue, Q.Push(l.pending[0]))
    ensures Q.WellFormed(DrainOne(x, l).queue)
    ensures DrainOne(x, l).served == l.served && DrainOne(x, l).notes == l.notes && DrainOne(x, l).noted == l.noted
  {
    hide Q.WellFormed, QueueFullReply;
    Q.PushKeeps(l.queue, l.pending[0]);
  }

  lemma {:induction false} NotesQueue<S>(x: D.Executor<S>, l: Loop<S>, n: nat)
    ensures Notes(x, l, n).queue == l.queue && Notes(x, l, n).served == l.served && Notes(x, l, n).status == l.status
    ensures Notes(x, l, n).noted + Notes(x, l, n).notes == l.noted + l.notes
    ensures |Notes(x, l, n).noted| == |l.noted| + if |l.notes| < n then |l.notes| else n
    ensures Notes(x, l, n).pending == l.pending
    decreases n
  {
    hide D.Conversation;
    if n > 0 && l.notes != [] {
      NotesQueue(x, NoteOne(x, l), n - 1);
      assert l.noted + [l.notes[0]] + l.notes[1..] == l.noted + l.notes;
    }
  }

  /** What one iteration does to the queue: the drain's pushes, one pop, and at most one more push
      when the queue was empty and the loop blocked. */
  function IterationOps<S>(x: D.Executor<S>, l: Loop<S>, env: Env): seq<Q.Op> {
    var l0 := Arrive(l, env.arrivals, env.notes, env.close);
    var l2 := Notes(x, Drain(x, l0, MAX_DRAIN_BATCH), MAX_DELEGATE_DRAIN_BATCH);
    var l3 := Arrive(l2, env.late, env.lateNotes, env.lateClose);
    DrainOps(x, l0, MAX_DRAIN_BATCH) + [Q.Pop]
    + (if !CanPop(l2.queue) && env.wake.WakeEvent? && l3.pending != [] then [Q.Push(l3.pending[0])] else [])
  }

  /** An iteration that does not end the loop pops the queue exactly once and records what it popped. */
  lemma {:induction false} IterationQueue<S>(x: D.Executor<S>, l: Loop<S>, env: Env)
    requires Q.WellFormed(l.queue) && Iterate(x, l, env).status.Running?
    ensures Q.Pops(IterationOps(x, l, env)) == 1
    ensures Iterate(x, l, env).queue == Q.Run(l.queue, IterationOps(x, l, env)).final
    ensures Iterate(x, l, env).served == l.served + Q.Run(l.queue, IterationOps(x, l, env)).out
  {
    hide Drain, Notes, DrainOps, ServeNext, Block, Q.Run, Q.Pops, Q.WellFormed, Q.Popped, Q.Step, Q.Emitted;
    var l0 := Arrive(l, env.arrivals, env.notes, env.close);
    DrainQueue(x, l0, MAX_DRAIN_BATCH);
    var l1 := Drain(x, l0, MAX_DRAIN_BATCH);
    NotesQueue(x, l1, MAX_DELEGATE_DRAIN_BATCH);
    var l2 := Notes(x, l1, MAX_DELEGATE_DRAIN_BATCH);
    var l3 := Arrive(l2, env.late, env.lateNotes, env.lateClose);
    var ops := DrainOps(x, l0, MAX_DRAIN_BATCH);
    Q.RunSplit(l.queue, ops, [Q.Pop]);
    Q.RunOne(l2.queue, Q.Pop);
    PopOrEmpty(l2.queue);
    if CanPop(l2.queue) {
      ServeNextQueue(x, l2);
    } else {
      BlockQueue(x, l3, env.wake);
    }
    if !CanPop(l2.queue) && env.wake.WakeEvent? && l3.pending != [] {
      Q.RunSplit(l.queue, ops + [Q.Pop], [Q.Push(l3.pending[0])]);
      Q.RunOne([], Q.Push(l3.pending[0]));
    } else {
      assert IterationOps(x, l, env) == ops + [Q.Pop];
    }
  }

  lemma ServeNextQueue<S>(x: D.Executor<S>, l: Loop<S>)
    requires CanPop(l.queue)
    ensures ServeNext(x, l).queue == Q.Popped(l.queue) && ServeNext(x, l).served == l.served + [l.queue[0].items[0]]
  {
    hide Judge, Q.Popped;
  }

  lemma BlockQueue<S>(x: D.Executor<S>, l: Loop<S>, wake: Wake)
    requires l.queue == [] && Q.WellFormed(l.queue)
    ensures Block(x, l, wake).served == l.served
    ensures Block(x, l, wake).queue == if wake.WakeEvent? && l.pending != [] then Q.Step([], Q.Push(l.pending[0])) else []
    ensures wake.WakeEvent? && l.pending != [] ==> Q.Emitted([], Q.Push(l.pending[0])) == []
  {
    hide QueueFullReply, D.Conversation, Q.KeyOf;
    if wake.WakeEvent? && l.pending != [] {
      Q.EmptyAcceptsAll(l.pending[0]);
    }
  }

  lemma PopOrEmpty(v: Q.Ring)
    requires Q.WellFormed(v)
    ensures CanPop(v) ==> Q.Step(v, Q.Pop) == Q.Popped(v) && Q.Emitted(v, Q.Pop) == [v[0].items[0]]
    ensures !CanPop(v) ==> v == [] && Q.Step(v, Q.Pop) == [] && Q.Emitted(v, Q.Pop) == []
  {
    if v != [] {
      Q.PopKeeps(v);
    }
  }

  function RunOps<S>(x: D.Executor<S>, l: Loop<S>, envs: seq<Env>): seq<Q.Op> {
    if envs == [] then [] else
    RunOps(x, l, envs[..|envs| - 1]) + IterationOps(x, Run(x, l, envs[..|envs| - 1]), envs[|envs| - 1])
  }

  /** Over a run that does not end the loop, the loop's queue is the fair queue's own run with
      exactly one pop per iteration. */
  lemma {:induction false} RunQueue<S>(x: D.Executor<S>, l: Loop<S>, envs: seq<Env>)
    requires Q.WellFormed(l.queue)
    ensures Run(x, l, envs).status.Running? ==>
              && Q.Pops(RunOps(x, l, envs)) == |envs|
              && Run(x, l, envs).queue == Q.Run(l.queue, RunOps(x, l, envs)).final
              && Run(x, l, envs).served == l.served + Q.Run(l.queue, RunOps(x, l, envs)).out
    decreases |envs|
  {
    hide Iterate, IterationOps, Q.Run, Q.Pops, Q.WellFormed;
    QueueRunNone(l.queue);
    if envs != [] && Run(x, l, envs).status.Running? {
      var before, last := envs[..|envs| - 1], envs[|envs| - 1];
      StoppedStaysStopped(x, Run(x, l, before), last);
      RunQueue(x, l, before);
      IterationQueue(x, Run(x, l, before), last);
      Q.RunSplit(l.queue, RunOps(x, l, before), IterationOps(x, Run(x, l, before), last));
    }
  }

  lemma StoppedStaysStopped<S>(x: D.Executor<S>, l: Loop<S>, env: Env)
    ensures !l.status.Running? ==> Iterate(x, l, env) == l
  {
  }

  /** No event starves: one that is `d` deep in the lane `j`-th in line has been handled, and its
      caller settled, after `j + 5000 * d + 1` iterations, whatever arrives meanwhile. */
  lemma {:induction false} EventIsSettledInTime<S>(x: D.Executor<S>, l: Loop<S>, envs: seq<Env>, j: nat, d: nat)
    requires Inv(l) && Once(Ids(Accounted(l)) + Ids(Sent(x, l, envs)))
    requires j < |l.queue| && d < |l.queue[j].items|
    requires |envs| > j + d * Q.MAX_TOTAL_FAIR_QUEUE
    ensures Run(x, l, envs).status.Running? ==>
              l.queue[j].items[d] in Run(x, l, envs).served && l.queue[j].items[d] in ItemsOf(Run(x, l, envs).settled)
  {
    hide Q.Run, RunOps, Run, Sent, Q.Pops, Ids, Accounted;
    RunQueue(x, l, envs);
    if Run(x, l, envs).status.Running? {
      var p := Q.EveryEventIsServed(l.queue, RunOps(x, l, envs), j, d);
      RunKeeps(x, l, envs);
    }
  }

  /** Nor does the queue stand still: over `n` iterations at least `min(queued, n)` events are handled,
      whatever arrives meanwhile. */
  lemma {:induction false} EventsAreHandled<S>(x: D.Executor<S>, l: Loop<S>, envs: seq<Env>)
    requires Q.WellFormed(l.queue)
    ensures Run(x, l, envs).status.Running? ==>
              |Run(x, l, envs).served| >= |l.served| + Q.Least(|Q.Contents(l.queue)|, |envs|)
  {
    hide Run, RunOps, Q.Run, Q.Pops, Q.WellFormed, Q.Contents;
    RunQueue(x, l, envs);
    Q.PopsServe(l.queue, RunOps(x, l, envs));
  }

  lemma {:induction false} RunKeeps<S>(x: D.Executor<S>, l: Loop<S>, envs: seq<Env>)
    requires Inv(l) && Once(Ids(Accounted(l)) + Ids(Sent(x, l, envs)))
    ensures Inv(Run(x, l, envs))
    ensures multiset(Accounted(Run(x, l, envs))) == multiset(Accounted(l)) + multiset(Sent(x, l, envs))
    ensures Ids(Accounted(Run(x, l, envs))) == Ids(Accounted(l)) + Ids(Sent(x, l, envs))
    decreases |envs|
  {
    hide Iterate, SentIn, Ids, Inv, Accounted;
    IdsNone();
    if envs != [] {
      var before := envs[..|envs| - 1];
      var m := Run(x, l, before);
      var sent, now := Sent(x, l, before), SentIn(x, m, envs[|envs| - 1]);
      IdsSplit(sent, now);
      assert Ids(Accounted(l)) + Ids(sent + now) == (Ids(Accounted(l)) + Ids(sent)) + Ids(now);
      OncePart(Ids(Accounted(l)) + Ids(sent), Ids(now));
      RunKeeps(x, l, before);
      IterateKeeps(x, m, envs[|envs| - 1]);
    }
  }

  function NotesIn<S>(x: D.Executor<S>, l: Loop<S>, env: Env): seq<Notification> {
    var l2 := Notes(x, Drain(x, Arrive(l, env.arrivals, env.notes, env.close), MAX_DRAIN_BATCH), MAX_DELEGATE_DRAIN_BATCH);
    if CanPop(l2.queue) then env.notes else env.notes + env.lateNotes
  }

  lemma ServeNextNotes<S>(x: D.Executor<S>, l: Loop<S>)
    requires CanPop(l.queue)
    ensures ServeNext(x, l).notes == l.notes && ServeNext(x, l).noted == l.noted
  {
    hide Judge, Q.Popped;
  }

  lemma BlockNotes<S>(x: D.Executor<S>, l: Loop<S>, wake: Wake)
    ensures Block(x, l, wake).noted + Block(x, l, wake).notes == l.noted + l.notes
    ensures |Block(x, l, wake).noted| >= |l.noted|
  {
    hide QueueFullReply, D.Conversation, Q.Accepts, Q.Pushed;
    if wake.WakeNote? && l.notes != [] {
      assert l.noted + [l.notes[0]] + l.notes[1..] == l.noted + l.notes;
    }
  }

  lemma Regroup(a: seq<Notification>, b: seq<Notification>, c: seq<Notification>)
    ensures a + (b + c) == a + b + c
  {
  }

  lemma IterationNotes<S>(x: D.Executor<S>, l: Loop<S>, env: Env)
    requires Q.WellFormed(l.queue) && Iterate(x, l, env).status.Running?
    ensures var w := Iterate(x, l, env);
            w.noted + w.notes == l.noted + l.notes + NotesIn(x, l, env)
            && |w.noted| >= |l.noted| + (if |l.notes| < MAX_DELEGATE_DRAIN_BATCH then |l.notes| else MAX_DELEGATE_DRAIN_BATCH)
  {
    hide Drain, Notes, ServeNext, Block, Q.WellFormed;
    var l0 := Arrive(l, env.arrivals, env.notes, env.close);
    DrainQueue(x, l0, MAX_DRAIN_BATCH);
    var l1 := Drain(x, l0, MAX_DRAIN_BATCH);
    NotesQueue(x, l1, MAX_DELEGATE_DRAIN_BATCH);
    var l2 := Notes(x, l1, MAX_DELEGATE_DRAIN_BATCH);
    Regroup(l.noted, l.notes, env.notes);
    if CanPop(l2.queue) {
      ServeNextNotes(x, l2);
    } else {
      var l3 := Arrive(l2, env.late, env.lateNotes, env.lateClose);
      Regroup(l2.noted, l2.notes, env.lateNotes);
      Regroup(l.noted + l.notes, env.notes, env.lateNotes);
      BlockNotes(x, l3, env.wake);
    }
  }

  /** Notifications do not starve either: they are handled first come first served, and of those
      pending at the start at least `min(backlog, 16 n)` are handled after `n` iterations. */
  lemma {:induction false} NotificationsAreHandled<S>(x: D.Executor<S>, l: Loop<S>, envs: seq<Env>)
    requires Q.WellFormed(l.queue)
    ensures Run(x, l, envs).status.Running? ==>
              && l.noted + l.notes <= Run(x, l, envs).noted + Run(x, l, envs).notes
              && |Run(x, l, envs).noted| >= |l.noted| + Q.Least(|l.notes|, 16 * |envs|)
    decreases |envs|
  {
    hide Iterate, Q.WellFormed;
    if envs != [] && Run(x, l, envs).status.Running? {
      var before, last := envs[..|envs| - 1], envs[|envs| - 1];
      StoppedStaysStopped(x, Run(x, l, before), last);
      NotificationsAreHandled(x, l, before);
      RunQueue(x, l, before);
      IterationNotes(x, Run(x, l, before), last);
    }
  }

  // ---------------------------------------------------------------- the loop

  class ContractHandling<S> {
    const x: D.Executor<S>
    const host: D.DelegateHost<S>
    const fairQueue: Q.FairEventQueue
    var pending: seq<Item>
    var closed: bool
    var notes: seq<Notification>
    var waiting: set<EventId>
    var settled: seq<Settlement>
    var served: seq<Item>
    var noted: seq<Notification>
    var routed: seq<(DelegateKey, seq<OutboundDelegateMsg>)>
    var inHand: Option<Item>
    var status: Status

    ghost predicate Valid()
      reads this, host, fairQueue
    {
      host.x == x && fairQueue.Valid()
    }

    ghost function Value(): Loop<S>
      reads this, host, fairQueue
    {
      Loop(pending, closed, notes, fairQueue.View(), waiting, host.Value(), settled, served, noted, routed, inHand, status)
    }

    constructor (x: D.Executor<S>, h: D.Host<S>)
      ensures Valid() && fresh(host) && fresh(fairQueue) && this.x == x
      ensures Fresh(Value()) && Value().host == h
    {
      this.x := x;
      host := new D.DelegateHost(x, h);
      fairQueue := new Q.FairEventQueue();
      pending, closed, notes, waiting, settled, served, noted := [], false, [], {}, [], [], [];
      inHand, status, routed := None, Running, [];
    }

    /** Remove the sender's waiting entry and, with a reply, send it. */
    method Release(item: Item, reply: Option<Event>, rejected: bool)
      requires Valid()
      modifies this
      ensures Valid() && Value() == Settle(old(Value()), item, reply, rejected)
    {
      if item.id in waiting {
        waiting := waiting - {item.id};
        settled := settled + [Settlement(item, reply, rejected)];
      }
    }

    method SendQueueFullResponse(item: Item)
      requires Valid()
      modifies this
      ensures Valid() && Value() == Settle(old(Value()), item, QueueFullReply(item.event), true)
    {
      hide Settle, Q.ValidStore, Q.ViewOf;
      var error := ExecutorError(false, "contract queue full, try again later");
      var reply: Option<Event> := None;
      match item.event {
        case PutQuery(_, _, _, _) => reply := Some(PutResponse(Err(error), false));
        case UpdateQuery(_, _, _) => reply := Some(UpdateResponse(Err(error), false));
        case GetQuery(_, _) => reply := Some(GetResponse(None, Err(error)));
        case GetSummaryQuery(key) => reply := Some(GetSummaryResponse(key, Err(error)));
        case GetDeltaQuery(key, _) => reply := Some(GetDeltaResponse(key, Err(error)));
        case _ =>
      }
      Release(item, reply, true);
    }

    method Push(item: Item)
      requires Valid()
      modifies this, fairQueue
      ensures Valid() && Value() == Enqueue(old(Value()), item)
    {
      hide Q.Accepts, Q.Pushed, QueueFullReply, Settle, Q.ValidStore, Q.ViewOf;
      var rejected := fairQueue.TryPush(item);
      if rejected.Some? {
        assert old(fairQueue.View()) == fairQueue.View() by { RejectedPushKeeps(old(fairQueue.View()), item); }
        SendQueueFullResponse(rejected.value);
      }
    }

    method ReceiveOne()
      requires Valid() && pending != []
      modifies this, host, fairQueue
      ensures Valid() && Value() == DrainOne(x, old(Value()))
    {
      hide Q.Accepts, Q.Pushed, QueueFullReply, Q.ValidStore, Q.ViewOf;
      var item := pending[0];
      pending, waiting := pending[1..], waiting + {item.id};
      if item.event.ClientDisconnect? {
        Bookkeep(item.event);
        Release(item, None, false);
      } else {
        Push(item);
      }
    }

    method DrainChannel(batch: nat)
      requires Valid()
      modifies this, host, fairQueue
      ensures Valid() && Value() == Drain(x, old(Value()), batch)
    {
      hide DrainOne, Q.ValidStore, Q.ViewOf;
      for k := 0 to batch
        invariant Valid() && Drain(x, old(Value()), batch) == Drain(x, Value(), batch - k)
      {
        if pending == [] {
          if closed {
            status := Failed;
          }
          return;
        }
        ReceiveOne();
      }
    }

    function Host(): D.Host<S>
      reads host
    {
      D.Host(host.store, host.subscriptions)
    }

    method HandleNotification()
      requires Valid() && notes != []
      modifies this, host
      ensures Valid() && Value() == NoteOne(x, old(Value()))
    {
      hide D.Conversation, Q.ValidStore, Q.ViewOf;
      var n := notes[0];
      notes, noted := notes[1..], noted + [n];
      var request := ApplicationMessages(n.delegate, [], [ContractNotification(n.contract, n.state)]);
      var outbound := host.HandleDelegate(request, None, n.delegate);
      var hasAppMessages := exists m <- outbound :: m.ApplicationMessage?;
      if hasAppMessages {
        routed := routed + [(n.delegate, outbound)];
      }
    }

    method DrainNotifications(batch: nat)
      requires Valid()
      modifies this, host
      ensures Valid() && Value() == Notes(x, old(Value()), batch)
    {
      hide NoteOne;
      for k := 0 to batch
        invariant Valid() && Notes(x, old(Value()), batch) == Notes(x, Value(), batch - k)
      {
        if notes == [] {
          return;
        }
        HandleNotification();
      }
    }

    method Bookkeep(e: Event)
      requires Valid()
      modifies host
      ensures Valid() && Value() == old(Value()).(host := x.bookkeeping(old(Value()).host, e))
    {
      hide Q.ValidStore, Q.ViewOf;
      var h := x.bookkeeping(Host(), e);
      host.store, host.subscriptions := h.store, h.subscriptions;
    }

    method Get(e: Event) returns (verdict: Verdict)
      requires host.x == x && e.GetQuery?
      modifies host
      ensures (host.Value(), verdict) == Judge(x, old(host.Value()), e)
    {
      match x.lookup(host.store, e.instanceId)
      case Some(key) =>
        var (s, result) := x.fetch(host.store, key, e.returnCode);
        host.store := s;
        match result {
          case Ok(found) => return Answer(GetResponse(Some(key), Ok(found)));
          case Err(error) =>
            if error.fatal {
              return Fatal;
            }
            return Answer(GetResponse(Some(key), Err(error)));
        }
      case None => return Answer(GetResponse(None, Ok(StoreResponse(None, None))));
    }

    method Put(e: Event) returns (verdict: Verdict)
      requires host.x == x && e.PutQuery?
      modifies host
      ensures (host.Value(), verdict) == Judge(x, old(host.Value()), e)
    {
      var (s, result) := x.upsert(host.store, e.key, FullState(e.state), e.related, e.contract);
      host.store := s;
      match result
      case Ok(NoChange) => return Answer(PutResponse(Ok(e.state), false));
      case Ok(Updated(state)) => return Answer(PutResponse(Ok(state), true));
      case Ok(CurrentWon(state)) => return Answer(PutResponse(Ok(state), false));
      case Err(error) =>
        if error.fatal {
          return Fatal;
        }
        return Answer(PutResponse(Err(error), false));
    }

    method Update(e: Event) returns (verdict: Verdict)
      requires host.x == x && e.UpdateQuery?
      modifies host
      ensures (host.Value(), verdict) == Judge(x, old(host.Value()), e)
    {
      var change: Upsert;
      match e.data {
        case UpdateState(state) => change := FullState(state);
        case UpdateDelta(delta) => change := Delta(delta);
        case UpdateCompound(_) => return Unreachable;
      }
      var (s, result) := x.upsert(host.store, e.key, change, e.related, None);
      host.store := s;
      match result
      case Ok(NoChange) =>
        var (s', current) := x.fetch(host.store, e.key, false);
        host.store := s';
        if current.Ok? && current.value.state.Some? {
          return Answer(UpdateResponse(Ok(current.value.state.value), false));
        }
        return Answer(UpdateNoChange(e.key));
      case Ok(Updated(state)) => return Answer(UpdateResponse(Ok(state), true));
      case Ok(CurrentWon(state)) => return Answer(UpdateResponse(Ok(state), false));
      case Err(error) =>
        if error.fatal {
          return Fatal;
        }
        return Answer(UpdateResponse(Err(error), false));
    }

    method Decide(e: Event) returns (verdict: Verdict)
      requires host.x == x
      modifies host
      ensures (host.Value(), verdict) == Judge(x, old(host.Value()), e)
    {
      hide D.Conversation;
      match e
      case GetQuery(_, _) => verdict := Get(e);
      case PutQuery(_, _, _, _) => verdict := Put(e);
      case UpdateQuery(_, _, _) => verdict := Update(e);
      case DelegateQuery(req, origin) =>
        var response := host.HandleDelegate(req, origin, req.key);
        if req.RegisterDelegate? {
          var h := x.bookkeeping(Host(), e);
          host.store, host.subscriptions := h.store, h.subscriptions;
        }
        return Answer(DelegateResponse(response));
      case GetSummaryQuery(key) =>
        var (s, summary) := x.summarize(host.store, key);
        host.store := s;
        return Answer(GetSummaryResponse(key, summary));
      case GetDeltaQuery(key, theirSummary) =>
        var (s, delta) := x.delta(host.store, key, theirSummary);
        host.store := s;
        return Answer(GetDeltaResponse(key, delta));
      case QuerySubscriptions => return Answer(QuerySubscriptionsResponse);
      case RegisterSubscriberListener(_, _) => verdict := Notify(e, Answer(RegisterSubscriberListenerResponse));
      case NotifySubscriptionError(_, _) => verdict := Notify(e, Answer(NotifySubscriptionErrorResponse));
      case ClientDisconnect(_) => verdict := Notify(e, Drop);
      case _ => return Unreachable;
    }

    method Notify(e: Event, v: Verdict) returns (verdict: Verdict)
      modifies host
      ensures host.Value() == x.bookkeeping(old(host.Value()), e) && verdict == v
    {
      var h := x.bookkeeping(Host(), e);
      host.store, host.subscriptions := h.store, h.subscriptions;
      return v;
    }

    method HandleContractEvent(item: Item)
      requires Valid()
      modifies this, host
      ensures Valid() && Value() == Handle(x, old(Value()), item)
    {
      hide Judge, Q.ValidStore, Q.ViewOf;
      var verdict := Decide(item.event);
      match verdict
      case Answer(reply) => Release(item, Some(reply), false);
      case Drop => Release(item, None, false);
      case Fatal => inHand, status := Some(item), Failed;
      case Unreachable => inHand, status := Some(item), Panicked;
    }

    /** Blocked on an empty queue until a branch is ready. */
    method Wait(wake: Wake)
      requires Valid()
      modifies this, host, fairQueue
      ensures Valid() && Value() == Block(x, old(Value()), wake)
    {
      hide Enqueue, NoteOne, Q.ValidStore, Q.ViewOf;
      match wake
      case WakeEvent =>
        if pending != [] {
          var item := pending[0];
          pending, waiting := pending[1..], waiting + {item.id};
          Push(item);
        } else if closed {
          status := Failed;
        }
      case WakeNote =>
        if notes != [] {
          HandleNotification();
        }
    }

    /** Pop one event and handle it; with nothing to pop, block. */
    method ServeOrWait(env: Env)
      requires Valid()
      modifies this, host, fairQueue
      ensures Valid()
      ensures Value() == if CanPop(old(Value()).queue) then ServeNext(x, old(Value()))
                         else Block(x, Arrive(old(Value()), env.late, env.lateNotes, env.lateClose), env.wake)
    {
      hide Handle, Block, Q.Popped, Q.ValidStore, Q.ViewOf, Q.GoodLane;
      PoppedIff(fairQueue.View());
      var popped := fairQueue.Pop();
      if popped.Some? {
        served := served + [popped.value];
        HandleContractEvent(popped.value);
      } else {
        pending, notes, closed := pending + env.late, notes + env.lateNotes, closed || env.lateClose;
        Wait(env.wake);
      }
    }

    /** One turn of the loop; `env` is what the outside does meanwhile. */
    method Turn(env: Env)
      requires Valid() && status == Running
      modifies this, host, fairQueue
      ensures Valid() && Value() == Iterate(x, old(Value()), env)
    {
      hide Drain, Notes, ServeNext, Block, Q.ValidStore, Q.ViewOf;
      pending, notes, closed := pending + env.arrivals, notes + env.notes, closed || env.close;
      DrainChannel(MAX_DRAIN_BATCH);
      if status == Running {
        DrainNotifications(MAX_DELEGATE_DRAIN_BATCH);
        ServeOrWait(env);
      }
    }
  }

  lemma PoppedIff(v: Q.Ring)
    ensures v != [] && Q.GoodLane(v[0]) ==> CanPop(v)
  {
  }
}
