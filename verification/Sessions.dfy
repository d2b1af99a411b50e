/** The session actor: it knows which clients wait for which transaction, hands each result to them, and
    caches results for clients that register late. The cache is pruned by age and size, and only when a
    message arrives. */
module Sessions {
  import opened Messages

  type Tx = nat
  type ClientId = nat
  type RequestId = nat
  type Payload = nat  // a host result, not looked into

  const PENDING_RESULT_TTL := 60_000
  const MAX_PENDING_RESULTS := 2048

  datatype Cached = Cached(result: Payload, delivered: set<ClientId>, lastAccessed: nat)

  /** One result sent to a set of clients, each with the request it answers; `None` is a request id made
      up because none was on record. */
  datatype Batch = Batch(tx: Tx, to: map<ClientId, Option<RequestId>>, result: Payload)

  datatype Actor = Actor(clients: map<Tx, set<ClientId>>, requestIds: RequestIds,
                         pending: map<Tx, Cached>, sent: seq<Batch>)

  const START := Actor(map[], map[], map[], [])

  datatype Message =
    | Register(tx: Tx, client: ClientId, request: RequestId)
    | Deliver(tx: Tx, result: Payload)
    | DeliverTo(tx: Tx, result: Payload, request: RequestId)
    | Disconnect(client: ClientId)
    | Ignored

  /** A message with what is not determined by it: the times at which it is pruned and handled, the entries
      chosen among equally old ones to be evicted, and the client found for a request id. */
  datatype Step = Step(msg: Message, prunedAt: nat, now: nat, victim: Tx, room: Tx, target: Option<ClientId>)

  // ---------------------------------------------------------------- the cache

  function Waiting(a: Actor, tx: Tx): set<ClientId> {
    if tx in a.clients then a.clients[tx] else {}
  }

  predicate Active(a: Actor, tx: Tx) {
    tx in a.clients || exists p <- a.requestIds :: p.0 == tx
  }

  predicate Stale(a: Actor, tx: Tx, now: nat)
    requires tx in a.pending
  {
    !Active(a, tx) && now > a.pending[tx].lastAccessed + PENDING_RESULT_TTL
  }

  function Unexpired(a: Actor, now: nat): map<Tx, Cached> {
    map tx <- a.pending | !Stale(a, tx, now) :: a.pending[tx]
  }

  predicate Oldest(pending: map<Tx, Cached>, tx: Tx) {
    tx in pending && forall t <- pending :: pending[tx].lastAccessed <= pending[t].lastAccessed
  }

  /** One entry makes room when the cache is full. */
  function Capped(pending: map<Tx, Cached>, victim: Tx): map<Tx, Cached> {
    if |pending| < MAX_PENDING_RESULTS then pending else pending - {victim}
  }

  function Prune(a: Actor, now: nat, victim: Tx): Actor {
    a.(pending := Capped(Unexpired(a, now), victim))
  }

  /** The cache with an entry for `tx`, which is a new one unless there is one already. */
  function WithEntry(pending: map<Tx, Cached>, tx: Tx, result: Payload, now: nat, room: Tx): (r: map<Tx, Cached>)
    ensures tx in r
  {
    if tx in pending then pending[tx := pending[tx].(result := result, lastAccessed := now)]
    else Capped(pending, room)[tx := Cached(result, {}, now)]
  }

  // ---------------------------------------------------------------- messages

  type RequestIds = map<(Tx, ClientId), RequestId>

  function RequestOf(ids: RequestIds, tx: Tx, c: ClientId): Option<RequestId> {
    if (tx, c) in ids then Some(ids[(tx, c)]) else None
  }

  function Answers(ids: RequestIds, tx: Tx, to: set<ClientId>): map<ClientId, Option<RequestId>> {
    map c <- to :: RequestOf(ids, tx, c)
  }

  function Forget(ids: RequestIds, tx: Tx, to: set<ClientId>): RequestIds {
    map p <- ids | !(p.0 == tx && p.1 in to) :: ids[p]
  }

  /** Send a result to some clients and forget the requests it answers. */
  function Send(a: Actor, tx: Tx, to: set<ClientId>, result: Payload): Actor {
    if to == {} then a else
    a.(requestIds := Forget(a.requestIds, tx, to), sent := a.sent + [Batch(tx, Answers(a.requestIds, tx, to), result)])
  }

  function Unwait(a: Actor, tx: Tx, c: ClientId): Actor {
    if tx !in a.clients then a
    else if a.clients[tx] - {c} == {} then a.(clients := a.clients - {tx})
    else a.(clients := a.clients[tx := a.clients[tx] - {c}])
  }

  function RegisterClient(a: Actor, tx: Tx, c: ClientId, q: RequestId, now: nat): Actor {
    var a1 := a.(clients := a.clients[tx := Waiting(a, tx) + {c}], requestIds := a.requestIds[(tx, c) := q]);
    if tx !in a.pending then a1 else
    var e := a.pending[tx];
    var a2 := a1.(pending := a1.pending[tx := Cached(e.result, e.delivered + {c}, now)]);
    if c in e.delivered then a2 else Unwait(Send(a2, tx, {c}, e.result), tx, c)
  }

  function DeliverResult(a: Actor, tx: Tx, result: Payload, now: nat, room: Tx): Actor {
    var pending := WithEntry(a.pending, tx, result, now, room);
    var to := Waiting(a, tx) - pending[tx].delivered;
    var entry := pending[tx].(delivered := pending[tx].delivered + Waiting(a, tx));
    Send(a.(clients := a.clients - {tx}, pending := pending[tx := entry]), tx, to, result)
  }

  function DeliverToOne(a: Actor, tx: Tx, result: Payload, c: ClientId, now: nat, room: Tx): Actor {
    var pending := WithEntry(a.pending, tx, result, now, room);
    Send(Unwait(a, tx, c), tx, {c}, result)
      .(pending := pending[tx := pending[tx].(delivered := pending[tx].delivered + {c})])
  }

  function Without(clients: map<Tx, set<ClientId>>, c: ClientId): map<Tx, set<ClientId>> {
    map tx <- clients | clients[tx] - {c} != {} :: clients[tx] - {c}
  }

  function DisconnectClient(a: Actor, c: ClientId): Actor {
    var left := Without(a.clients, c);
    a.(clients := left,
       requestIds := map p <- a.requestIds | p.1 != c && (p.0 in a.clients ==> p.0 in left) :: a.requestIds[p])
  }

  function Handle(a: Actor, step: Step): Actor {
    match step.msg
    case Register(tx, c, q) => RegisterClient(a, tx, c, q, step.now)
    case Deliver(tx, result) => DeliverResult(a, tx, result, step.now, step.room)
    case DeliverTo(tx, result, _) =>
      if step.target.Some? then DeliverToOne(a, tx, result, step.target.value, step.now, step.room)
      else DeliverResult(a, tx, result, step.now, step.room)
    case Disconnect(c) => DisconnectClient(a, c)
    case Ignored => a
  }

  function Next(a: Actor, step: Step): Actor {
    Handle(Prune(a, step.prunedAt, step.victim), step)
  }

  predicate Asks(a: Actor, tx: Tx, c: ClientId, q: RequestId) {
    (tx, c) in a.requestIds && a.requestIds[(tx, c)] == q
  }

  predicate NeedsRoom(pending: map<Tx, Cached>, msg: Message) {
    (msg.Deliver? || msg.DeliverTo?) && msg.tx !in pending && |pending| >= MAX_PENDING_RESULTS
  }

  /** Evicted entries are least recently used ones, and the client of a request id is one that has it. */
  predicate Enabled(a: Actor, step: Step) {
    var cached := Unexpired(a, step.prunedAt);
    && step.prunedAt <= step.now
    && (|cached| >= MAX_PENDING_RESULTS ==> Oldest(cached, step.victim))
    && (NeedsRoom(Capped(cached, step.victim), step.msg) ==> Oldest(Capped(cached, step.victim), step.room))
    && (step.msg.DeliverTo? ==>
          if step.target.Some? then Asks(a, step.msg.tx, step.target.value, step.msg.request)
          else forall p <- a.requestIds :: !(p.0 == step.msg.tx && a.requestIds[p] == step.msg.request))
  }

  function After(a: Actor, steps: seq<Step>): Actor {
    if steps == [] then a else Next(After(a, steps[..|steps| - 1]), steps[|steps| - 1])
  }

  ghost predicate Runs(a: Actor, steps: seq<Step>) {
    steps == [] || (Runs(a, steps[..|steps| - 1]) && Enabled(After(a, steps[..|steps| - 1]), steps[|steps| - 1]))
  }

  // ---------------------------------------------------------------- the cache is bounded

  lemma {:induction false} SmallerSet(a: set<Tx>, b: set<Tx>)
    requires a <= b
    ensures |a| <= |b|
  {
    if a != {} {
      var x :| x in a;
      SmallerSet(a - {x}, b - {x});
    }
  }

  /** A prune leaves room for one more entry. */
  lemma {:induction false} PruneLeavesRoom(a: Actor, step: Step)
    requires |a.pending| <= MAX_PENDING_RESULTS && Enabled(a, step)
    ensures |Prune(a, step.prunedAt, step.victim).pending| < MAX_PENDING_RESULTS
  {
    hide Stale;
    var cached := Unexpired(a, step.prunedAt);
    assert cached.Keys <= a.pending.Keys;
    SmallerSet(cached.Keys, a.pending.Keys);
    assert (cached - {step.victim}).Keys == cached.Keys - {step.victim};
  }

  lemma {:induction false} EntryAddsOne(pending: map<Tx, Cached>, tx: Tx, result: Payload, now: nat, room: Tx, e: Cached)
    requires |pending| < MAX_PENDING_RESULTS
    ensures |WithEntry(pending, tx, result, now, room)[tx := e]| <= MAX_PENDING_RESULTS
    ensures |pending[tx := e]| <= MAX_PENDING_RESULTS
  {
    var w := WithEntry(pending, tx, result, now, room)[tx := e];
    assert w.Keys == pending.Keys + {tx} && pending[tx := e].Keys == pending.Keys + {tx};
  }

  // ---------------------------------------------------------------- what every run keeps

  /** Who waits has a request on record; no empty waiting lists; a bounded cache; and every result sent
      carries a request id that was on record. */
  ghost predicate Inv(a: Actor) {
    && Recorded(a)
    && |a.pending| <= MAX_PENDING_RESULTS
    && (forall b <- a.sent :: Correlated(b))
  }

  ghost predicate Recorded(a: Actor) {
    && (forall tx: Tx, c: ClientId :: c in Waiting(a, tx) ==> (tx, c) in a.requestIds)
    && (forall tx <- a.clients :: a.clients[tx] != {})
  }

  predicate Correlated(b: Batch) {
    forall c <- b.to :: b.to[c].Some?
  }

  /** The entry a message leaves in the cache, if it touches one. */
  lemma {:induction false} HandledPending(a: Actor, step: Step)
    ensures var w := Handle(a, step).pending;
            match step.msg
            case Register(tx, c, q) => if tx in a.pending then tx in w && w == a.pending[tx := w[tx]] else w == a.pending
            case Deliver(tx, result) => tx in w && w == WithEntry(a.pending, tx, result, step.now, step.room)[tx := w[tx]]
            case DeliverTo(tx, result, q) => tx in w && w == WithEntry(a.pending, tx, result, step.now, step.room)[tx := w[tx]]
            case Disconnect(c) => w == a.pending
            case Ignored => w == a.pending
  {
    hide WithEntry;
  }

  lemma {:induction false} BoundStep(a: Actor, step: Step)
    requires |a.pending| <= MAX_PENDING_RESULTS && Enabled(a, step)
    ensures |Next(a, step).pending| <= MAX_PENDING_RESULTS
  {
    hide Enabled, WithEntry, Prune, Handle;
    PruneLeavesRoom(a, step);
    var b, w := Prune(a, step.prunedAt, step.victim), Next(a, step).pending;
    HandledPending(b, step);
    match step.msg {
      case Register(tx, c, q) =>
        if tx in b.pending {
          EntryAddsOne(b.pending, tx, 0, 0, 0, w[tx]);
        }
      case Deliver(tx, result) => EntryAddsOne(b.pending, tx, result, step.now, step.room, w[tx]);
      case DeliverTo(tx, result, q) => EntryAddsOne(b.pending, tx, result, step.now, step.room, w[tx]);
      case Disconnect(c) =>
      case Ignored =>
    }
  }

  lemma {:induction false} SendRecorded(a: Actor, tx: Tx, to: set<ClientId>, result: Payload)
    requires Recorded(a) && Waiting(a, tx) !! to
    ensures Recorded(Send(a, tx, to, result))
  {
  }

  lemma {:induction false} UnwaitRecorded(a: Actor, tx: Tx, c: ClientId)
    requires Recorded(a)
    ensures Recorded(Unwait(a, tx, c)) && Waiting(Unwait(a, tx, c), tx) == Waiting(a, tx) - {c}
  {
  }

  /** Sending and no longer waiting can be done in either order. */
  lemma {:induction false} SendUnwait(a: Actor, tx: Tx, c: ClientId, result: Payload)
    ensures Unwait(Send(a, tx, {c}, result), tx, c) == Send(Unwait(a, tx, c), tx, {c}, result)
  {
  }

  lemma {:induction false} RecordedStep(a: Actor, step: Step)
    requires Recorded(a)
    ensures Recorded(Next(a, step))
  {
    hide Prune, WithEntry, Send, Unwait, Recorded;
    var b := Prune(a, step.prunedAt, step.victim);
    assert Recorded(b) by { PruneKeeps(a, step.prunedAt, step.victim); RecordedFrame(a, b); }
    match step.msg {
      case Register(tx, c, q) => RegisterRecorded(b, tx, c, q, step.now);
      case Deliver(tx, result) => DeliverRecorded(b, tx, result, step.now, step.room);
      case DeliverTo(tx, result, q) =>
        if step.target.Some? {
          DeliverToRecorded(b, tx, result, step.target.value, step.now, step.room);
        } else {
          DeliverRecorded(b, tx, result, step.now, step.room);
        }
      case Disconnect(c) => DisconnectRecorded(b, c);
      case Ignored =>
    }
  }

  lemma {:induction false} RecordedFrame(a: Actor, b: Actor)
    requires Recorded(a) && b.clients == a.clients && b.requestIds == a.requestIds
    ensures Recorded(b)
  {
    assert forall tx: Tx :: Waiting(b, tx) == Waiting(a, tx);
  }

  lemma {:induction false} RegisterRecorded(a: Actor, tx: Tx, c: ClientId, q: RequestId, now: nat)
    requires Recorded(a)
    ensures Recorded(RegisterClient(a, tx, c, q, now))
  {
    hide Send, Unwait;
    var a1 := a.(clients := a.clients[tx := Waiting(a, tx) + {c}], requestIds := a.requestIds[(tx, c) := q]);
    assert Recorded(a1);
    if tx in a.pending {
      var e := a.pending[tx];
      var a2 := a1.(pending := a1.pending[tx := Cached(e.result, e.delivered + {c}, now)]);
      RecordedFrame(a1, a2);
      UnwaitRecorded(a2, tx, c);
      SendRecorded(Unwait(a2, tx, c), tx, {c}, e.result);
      SendUnwait(a2, tx, c, e.result);
    }
  }

  lemma {:induction false} DeliverRecorded(a: Actor, tx: Tx, result: Payload, now: nat, room: Tx)
    requires Recorded(a)
    ensures Recorded(DeliverResult(a, tx, result, now, room))
  {
    hide Send, WithEntry;
    var pending := WithEntry(a.pending, tx, result, now, room);
    var entry := pending[tx].(delivered := pending[tx].delivered + Waiting(a, tx));
    var a1 := a.(clients := a.clients - {tx}, pending := pending[tx := entry]);
    assert Recorded(a1) && Waiting(a1, tx) == {};
    SendRecorded(a1, tx, Waiting(a, tx) - pending[tx].delivered, result);
  }

  lemma {:induction false} DeliverToRecorded(a: Actor, tx: Tx, result: Payload, c: ClientId, now: nat, room: Tx)
    requires Recorded(a)
    ensures Recorded(DeliverToOne(a, tx, result, c, now, room))
  {
    hide Send, Unwait, WithEntry;
    UnwaitRecorded(a, tx, c);
    SendRecorded(Unwait(a, tx, c), tx, {c}, result);
    RecordedFrame(Send(Unwait(a, tx, c), tx, {c}, result), DeliverToOne(a, tx, result, c, now, room));
  }

  lemma {:induction false} PruneKeeps(a: Actor, now: nat, victim: Tx)
    ensures var b := Prune(a, now, victim);
            b.clients == a.clients && b.requestIds == a.requestIds && b.sent == a.sent
            && forall tx: Tx :: Waiting(b, tx) == Waiting(a, tx)
  {
  }

  lemma {:induction false} DisconnectRecorded(a: Actor, c: ClientId)
    requires Recorded(a)
    ensures Recorded(DisconnectClient(a, c))
  {
  }

  // ---------------------------------------------------------------- who is sent what

  function DeliveredTo(pending: map<Tx, Cached>, tx: Tx): set<ClientId> {
    if tx in pending then pending[tx].delivered else {}
  }

  /** The clients a message is answered to, once the cache is pruned. */
  function Recipients(b: Actor, step: Step): set<ClientId> {
    match step.msg
    case Register(tx, c, _) => if tx in b.pending && c !in b.pending[tx].delivered then {c} else {}
    case Deliver(tx, _) => Waiting(b, tx) - DeliveredTo(b.pending, tx)
    case DeliverTo(tx, _, _) =>
      if step.target.Some? then {step.target.value} else Waiting(b, tx) - DeliveredTo(b.pending, tx)
    case Disconnect(_) => {}
    case Ignored => {}
  }

  function AnswerOf(b: Actor, step: Step): Batch {
    var to := Recipients(b, step);
    match step.msg
    case Register(tx, c, q) =>
      Batch(tx, Answers(b.requestIds[(tx, c) := q], tx, to), if tx in b.pending then b.pending[tx].result else 0)
    case Deliver(tx, result) => Batch(tx, Answers(b.requestIds, tx, to), result)
    case DeliverTo(tx, result, _) => Batch(tx, Answers(b.requestIds, tx, to), result)
    case Disconnect(_) => Batch(0, map[], 0)
    case Ignored => Batch(0, map[], 0)
  }

  lemma {:induction false} RegisterSends(b: Actor, tx: Tx, c: ClientId, q: RequestId, now: nat)
    ensures RegisterClient(b, tx, c, q, now).sent
         == if tx in b.pending && c !in b.pending[tx].delivered
            then b.sent + [Batch(tx, Answers(b.requestIds[(tx, c) := q], tx, {c}), b.pending[tx].result)] else b.sent
  {
    hide Answers, Forget;
  }

  lemma {:induction false} DeliverSends(b: Actor, tx: Tx, result: Payload, now: nat, room: Tx)
    ensures var to, w := Waiting(b, tx) - DeliveredTo(b.pending, tx), DeliverResult(b, tx, result, now, room);
            w.sent == if to == {} then b.sent else b.sent + [Batch(tx, Answers(b.requestIds, tx, to), result)]
  {
    hide Answers, Forget, Capped;
  }

  lemma {:induction false} DeliverToSends(b: Actor, tx: Tx, result: Payload, c: ClientId, now: nat, room: Tx)
    ensures DeliverToOne(b, tx, result, c, now, room).sent == b.sent + [Batch(tx, Answers(b.requestIds, tx, {c}), result)]
  {
    hide Answers, Forget, WithEntry;
  }

  lemma {:induction false} HandleSends(b: Actor, step: Step)
    ensures Handle(b, step).sent == if Recipients(b, step) == {} then b.sent else b.sent + [AnswerOf(b, step)]
  {
    hide Answers, RegisterClient, DeliverResult, DeliverToOne;
    match step.msg {
      case Register(tx, c, q) => RegisterSends(b, tx, c, q, step.now);
      case Deliver(tx, result) => DeliverSends(b, tx, result, step.now, step.room);
      case DeliverTo(tx, result, q) =>
        if step.target.Some? {
          DeliverToSends(b, tx, result, step.target.value, step.now, step.room);
        } else {
          DeliverSends(b, tx, result, step.now, step.room);
        }
      case Disconnect(c) =>
      case Ignored =>
    }
  }

  /** How often a client was sent a result of a transaction. */
  function Count(sent: seq<Batch>, tx: Tx, c: ClientId): nat {
    if sent == [] then 0 else
    var last := sent[|sent| - 1];
    Count(sent[..|sent| - 1], tx, c) + if last.tx == tx && c in last.to then 1 else 0
  }

  lemma {:induction false} CountSnoc(sent: seq<Batch>, b: Batch, tx: Tx, c: ClientId)
    ensures Count(sent + [b], tx, c) == Count(sent, tx, c) + if b.tx == tx && c in b.to then 1 else 0
  {
    assert (sent + [b])[..|sent|] == sent;
  }

  /** A cached result outlives the prune a message begins with: somebody still waits for the transaction or
      it was used within the time to live, and it is not the one that makes room. */
  predicate Survives(a: Actor, step: Step, tx: Tx) {
    && tx in a.pending && !Stale(a, tx, step.prunedAt)
    && (|Unexpired(a, step.prunedAt)| >= MAX_PENDING_RESULTS ==> step.victim != tx)
  }

  lemma {:induction false} PrunedPending(a: Actor, step: Step, tx: Tx)
    ensures var b := Prune(a, step.prunedAt, step.victim);
            && (tx in b.pending <==> Survives(a, step, tx))
            && (tx in b.pending ==> b.pending[tx] == a.pending[tx])
  {
  }

  /** Waiting when the result comes, and not sent the cached one before. */
  predicate Awaits(a: Actor, step: Step, tx: Tx, c: ClientId) {
    c in Waiting(a, tx) && !(Survives(a, step, tx) && c in a.pending[tx].delivered)
  }

  /** The guards under which a message makes the actor send a client a result of a transaction. */
  predicate SendsTo(a: Actor, step: Step, tx: Tx, c: ClientId) {
    match step.msg
    case Register(t, d, _) => t == tx && d == c && Survives(a, step, tx) && c !in a.pending[tx].delivered
    case Deliver(t, _) => t == tx && Awaits(a, step, tx, c)
    case DeliverTo(t, _, _) => t == tx && if step.target.Some? then step.target.value == c else Awaits(a, step, tx, c)
    case Disconnect(_) => false
    case Ignored => false
  }

  /** A message sends a client one result exactly under those guards, and never two. */
  lemma {:induction false} SentIff(a: Actor, step: Step, tx: Tx, c: ClientId)
    ensures Count(Next(a, step).sent, tx, c) == Count(a.sent, tx, c) + if SendsTo(a, step, tx, c) then 1 else 0
  {
    hide Prune, Survives, Handle, Count;
    var b := Prune(a, step.prunedAt, step.victim);
    PruneKeeps(a, step.prunedAt, step.victim);
    PrunedPending(a, step, tx);
    HandleSends(b, step);
    CountSnoc(b.sent, AnswerOf(b, step), tx, c);
  }

  lemma {:induction false} CorrelatedStep(a: Actor, step: Step)
    requires Recorded(a) && Enabled(a, step) && forall b <- a.sent :: Correlated(b)
    ensures forall b <- Next(a, step).sent :: Correlated(b)
  {
    hide Prune, Handle, Unexpired, Capped;
    var b := Prune(a, step.prunedAt, step.victim);
    PruneKeeps(a, step.prunedAt, step.victim);
    HandleSends(b, step);
    assert Correlated(AnswerOf(b, step));
  }

  /** Over every run of the actor. So the cache never holds more than its limit, and no request id is ever
      made up. */
  lemma {:induction false} RunKeeps(a: Actor, steps: seq<Step>)
    requires Inv(a) && Runs(a, steps)
    ensures Inv(After(a, steps))
  {
    hide Next, Enabled, Inv;
    if steps != [] {
      RunKeeps(a, steps[..|steps| - 1]);
      InvStep(After(a, steps[..|steps| - 1]), steps[|steps| - 1]);
    }
  }

  lemma {:induction false} EveryRunKeeps(steps: seq<Step>)
    requires Runs(START, steps)
    ensures Inv(After(START, steps))
  {
    assert Inv(START);
    hide Inv, Runs, After;
    RunKeeps(START, steps);
  }

  // ---------------------------------------------------------------- once per client while cached

  /** Not a delivery to one chosen client, which ignores who was sent the result before. Nothing in the
      node sends such a message. */
  predicate Ordinary(step: Step, tx: Tx) {
    !(step.msg.DeliverTo? && step.msg.tx == tx && step.target.Some?)
  }

  predicate RegistersFor(step: Step, tx: Tx, c: ClientId) {
    step.msg.Register? && step.msg.tx == tx && step.msg.client == c
  }

  ghost predicate Registers(steps: seq<Step>, tx: Tx, c: ClientId) {
    exists i :: 0 <= i < |steps| && RegistersFor(steps[i], tx, c)
  }

  /** The cached result outlives every prune of a run. */
  ghost predicate StaysCached(a: Actor, steps: seq<Step>, tx: Tx) {
    steps == [] || (StaysCached(a, steps[..|steps| - 1], tx) && Survives(After(a, steps[..|steps| - 1]), steps[|steps| - 1], tx))
  }

  /** Whoever waits for a cached result is asking for it again. */
  ghost predicate Served(a: Actor, tx: Tx) {
    tx in a.pending && Waiting(a, tx) <= a.pending[tx].delivered
  }

  /** In a cache with room, an entry for one transaction leaves the others alone. */
  lemma {:induction false} EntryKept(pending: map<Tx, Cached>, t: Tx, result: Payload, now: nat, room: Tx, tx: Tx)
    requires |pending| < MAX_PENDING_RESULTS
    ensures var w := WithEntry(pending, t, result, now, room);
            && (tx != t ==> (tx in w <==> tx in pending) && (tx in w ==> w[tx] == pending[tx]))
            && w[t].delivered == DeliveredTo(pending, t)
  {
  }

  lemma {:induction false} ServedHandle(b: Actor, step: Step, tx: Tx)
    requires Served(b, tx) && Ordinary(step, tx) && |b.pending| < MAX_PENDING_RESULTS
    ensures Served(Handle(b, step), tx)
    ensures forall c :: c in Handle(b, step).pending[tx].delivered
                   <==> c in b.pending[tx].delivered || RegistersFor(step, tx, c)
  {
    hide Forget, Answers, WithEntry;
    match step.msg {
      case Register(t, c, q) =>
      case Deliver(t, result) => EntryKept(b.pending, t, result, step.now, step.room, tx);
      case DeliverTo(t, result, q) => EntryKept(b.pending, t, result, step.now, step.room, tx);
      case Disconnect(c) =>
      case Ignored =>
    }
  }

  lemma {:induction false} ServedStep(a: Actor, step: Step, tx: Tx, c: ClientId)
    requires Inv(a) && Enabled(a, step) && Served(a, tx) && Ordinary(step, tx) && Survives(a, step, tx)
    ensures Served(Next(a, step), tx)
    ensures c in Next(a, step).pending[tx].delivered <==> c in a.pending[tx].delivered || RegistersFor(step, tx, c)
    ensures SendsTo(a, step, tx, c) <==> RegistersFor(step, tx, c) && c !in a.pending[tx].delivered
  {
    hide Prune, Handle, Enabled, Survives;
    var b := Prune(a, step.prunedAt, step.victim);
    PruneKeeps(a, step.prunedAt, step.victim);
    PrunedPending(a, step, tx);
    PruneLeavesRoom(a, step);
    ServedHandle(b, step, tx);
  }

  /** While a result stays cached, a client that has not been sent it is sent it exactly once if it
      registers, and not otherwise; a client that has been sent it is not sent it again. */
  lemma {:induction false} OnceWhileCached(a: Actor, steps: seq<Step>, tx: Tx, c: ClientId)
    requires Inv(a) && Runs(a, steps) && Served(a, tx) && StaysCached(a, steps, tx)
    requires forall step <- steps :: Ordinary(step, tx)
    ensures Served(After(a, steps), tx)
    ensures c in After(a, steps).pending[tx].delivered <==> c in a.pending[tx].delivered || Registers(steps, tx, c)
    ensures Count(After(a, steps).sent, tx, c)
         == Count(a.sent, tx, c) + if c !in a.pending[tx].delivered && Registers(steps, tx, c) then 1 else 0
  {
    hide Next, Enabled, Survives, SendsTo, Inv, Served, Count, RegistersFor;
    if steps != [] {
      var before, step := steps[..|steps| - 1], steps[|steps| - 1];
      OnceWhileCached(a, before, tx, c);
      RunKeeps(a, before);
      ServedStep(After(a, before), step, tx, c);
      SentIff(After(a, before), step, tx, c);
      RegistersNext(steps, tx, c);
    }
  }

  lemma {:induction false} RegistersNext(steps: seq<Step>, tx: Tx, c: ClientId)
    requires steps != []
    ensures Registers(steps, tx, c) <==> Registers(steps[..|steps| - 1], tx, c) || RegistersFor(steps[|steps| - 1], tx, c)
  {
    var before := steps[..|steps| - 1];
    if Registers(before, tx, c) {
      var i :| 0 <= i < |before| && RegistersFor(before[i], tx, c);
      assert RegistersFor(steps[i], tx, c);
    }
    if Registers(steps, tx, c) {
      var i :| 0 <= i < |steps| && RegistersFor(steps[i], tx, c);
      assert i < |before| ==> RegistersFor(before[i], tx, c);
    }
  }

  lemma {:induction false} InvStep(a: Actor, step: Step)
    requires Inv(a) && Enabled(a, step)
    ensures Inv(Next(a, step))
  {
    hide Next, Enabled, Recorded, Correlated;
    RecordedStep(a, step);
    BoundStep(a, step);
    CorrelatedStep(a, step);
  }

  lemma {:induction false} FirstEntry(b: Actor, tx: Tx, result: Payload, now: nat, room: Tx)
    requires tx !in b.pending && |b.pending| < MAX_PENDING_RESULTS
    ensures var w := DeliverResult(b, tx, result, now, room);
            tx in w.pending && w.pending[tx].delivered == Waiting(b, tx) && Waiting(w, tx) == {}
  {
    hide Answers, Forget;
  }

  lemma {:induction false} FirstDelivery(a: Actor, d: Step, tx: Tx)
    requires Inv(a) && Enabled(a, d) && d.msg.Deliver? && d.msg.tx == tx && !Survives(a, d, tx)
    ensures Served(Next(a, d), tx) && Next(a, d).pending[tx].delivered == Waiting(a, tx) && Inv(Next(a, d))
    ensures forall c :: SendsTo(a, d, tx, c) <==> c in Waiting(a, tx)
  {
    hide Prune, Enabled, Survives, DeliverResult, Recorded, Correlated;
    InvStep(a, d);
    PruneKeeps(a, d.prunedAt, d.victim);
    PrunedPending(a, d, tx);
    PruneLeavesRoom(a, d);
    FirstEntry(Prune(a, d.prunedAt, d.victim), tx, d.msg.result, d.now, d.room);
  }

  /** A result that enters the cache and stays there reaches each client once, and exactly those that were
      registered when it came or register while it is cached. */
  lemma {:induction false} DeliveredIff(a: Actor, d: Step, steps: seq<Step>, tx: Tx, c: ClientId)
    requires Inv(a) && Enabled(a, d) && d.msg.Deliver? && d.msg.tx == tx && !Survives(a, d, tx)
    requires forall step <- steps :: Ordinary(step, tx)
    ensures Runs(Next(a, d), steps) && StaysCached(Next(a, d), steps, tx) ==>
              Count(After(Next(a, d), steps).sent, tx, c)
                == Count(a.sent, tx, c) + if c in Waiting(a, tx) || Registers(steps, tx, c) then 1 else 0
  {
    FirstDelivery(a, d, tx);
    hide Next, Enabled, Survives, SendsTo, Inv, Served, Count;
    SentIff(a, d, tx, c);
    if Runs(Next(a, d), steps) && StaysCached(Next(a, d), steps, tx) {
      OnceWhileCached(Next(a, d), steps, tx, c);
    }
  }

  // ---------------------------------------------------------------- which request is answered

  /** The request a client last registered, if it had registered `q` before. */
  function LastRequest(steps: seq<Step>, tx: Tx, c: ClientId, q: RequestId): RequestId {
    if steps == [] then q
    else if RegistersFor(steps[|steps| - 1], tx, c) then steps[|steps| - 1].msg.request
    else LastRequest(steps[..|steps| - 1], tx, c, q)
  }

  /** Registered with a request and no result there yet. */
  predicate Pends(a: Actor, tx: Tx, c: ClientId, q: RequestId) {
    tx !in a.pending && c in Waiting(a, tx) && Asks(a, tx, c, q)
  }

  /** Neither a result for the transaction nor a disconnection of the client. */
  predicate Idle(step: Step, tx: Tx, c: ClientId) {
    match step.msg
    case Deliver(t, _) => t != tx
    case DeliverTo(t, _, _) => t != tx
    case Disconnect(d) => d != c
    case Register(_, _, _) => true
    case Ignored => true
  }

  /** What is done for another transaction does not matter. */
  lemma {:induction false} SendPends(a: Actor, t: Tx, to: set<ClientId>, result: Payload, tx: Tx, c: ClientId, q: RequestId)
    requires Pends(a, tx, c, q) && t != tx
    ensures Pends(Send(a, t, to, result), tx, c, q)
  {
    hide Answers;
  }

  lemma {:induction false} UnwaitPends(a: Actor, t: Tx, d: ClientId, tx: Tx, c: ClientId, q: RequestId)
    requires Pends(a, tx, c, q) && t != tx
    ensures Pends(Unwait(a, t, d), tx, c, q)
  {
  }

  lemma {:induction false} RegisterPends(b: Actor, t: Tx, d: ClientId, r: RequestId, now: nat, tx: Tx, c: ClientId, q: RequestId)
    requires Pends(b, tx, c, q)
    ensures Pends(RegisterClient(b, t, d, r, now), tx, c, if t == tx && d == c then r else q)
  {
    hide Send, Unwait;
    if t in b.pending {
      var e := b.pending[t];
      var a1 := b.(clients := b.clients[t := Waiting(b, t) + {d}], requestIds := b.requestIds[(t, d) := r],
                   pending := b.pending[t := Cached(e.result, e.delivered + {d}, now)]);
      assert Pends(a1, tx, c, q);
      SendPends(a1, t, {d}, e.result, tx, c, q);
      UnwaitPends(Send(a1, t, {d}, e.result), t, d, tx, c, q);
    }
  }

  lemma {:induction false} OtherEntry(b: Actor, clients: map<Tx, set<ClientId>>, t: Tx, result: Payload, now: nat, room: Tx,
                                      e: Cached, tx: Tx, c: ClientId, q: RequestId)
    requires Pends(b, tx, c, q) && t != tx && (tx in clients <==> tx in b.clients) && (tx in clients ==> clients[tx] == b.clients[tx])
    ensures Pends(b.(clients := clients, pending := WithEntry(b.pending, t, result, now, room)[t := e]), tx, c, q)
  {
  }

  lemma {:induction false} DeliverPends(b: Actor, t: Tx, result: Payload, now: nat, room: Tx, tx: Tx, c: ClientId, q: RequestId)
    requires Pends(b, tx, c, q) && t != tx
    ensures Pends(DeliverResult(b, t, result, now, room), tx, c, q)
  {
    hide Send, WithEntry, Pends;
    var pending := WithEntry(b.pending, t, result, now, room);
    var e := pending[t].(delivered := pending[t].delivered + Waiting(b, t));
    OtherEntry(b, b.clients - {t}, t, result, now, room, e, tx, c, q);
    var a1, to := b.(clients := b.clients - {t}, pending := pending[t := e]), Waiting(b, t) - pending[t].delivered;
    SendPends(a1, t, to, result, tx, c, q);
  }

  lemma {:induction false} DeliverToPends(b: Actor, t: Tx, result: Payload, d: ClientId, now: nat, room: Tx, tx: Tx, c: ClientId, q: RequestId)
    requires Pends(b, tx, c, q) && t != tx
    ensures Pends(DeliverToOne(b, t, result, d, now, room), tx, c, q)
  {
    hide Answers, Forget, WithEntry, Pends;
    var pending, w := WithEntry(b.pending, t, result, now, room), Send(Unwait(b, t, d), t, {d}, result);
    UnwaitPends(b, t, d, tx, c, q);
    SendPends(Unwait(b, t, d), t, {d}, result, tx, c, q);
    assert w.pending == b.pending;
    OtherEntry(w, w.clients, t, result, now, room, pending[t].(delivered := pending[t].delivered + {d}), tx, c, q);
  }

  lemma {:induction false} DisconnectPends(b: Actor, d: ClientId, tx: Tx, c: ClientId, q: RequestId)
    requires Pends(b, tx, c, q) && d != c
    ensures Pends(DisconnectClient(b, d), tx, c, q)
  {
    assert c in b.clients[tx] - {d};
  }

  lemma {:induction false} PendsHandle(b: Actor, step: Step, tx: Tx, c: ClientId, q: RequestId)
    requires Pends(b, tx, c, q) && Idle(step, tx, c)
    ensures Pends(Handle(b, step), tx, c, if RegistersFor(step, tx, c) then step.msg.request else q)
  {
    hide Pends, RegisterClient, DeliverResult, DeliverToOne, DisconnectClient;
    match step.msg {
      case Register(t, d, r) => RegisterPends(b, t, d, r, step.now, tx, c, q);
      case Deliver(t, result) => DeliverPends(b, t, result, step.now, step.room, tx, c, q);
      case DeliverTo(t, result, r) =>
        if step.target.Some? {
          DeliverToPends(b, t, result, step.target.value, step.now, step.room, tx, c, q);
        } else {
          DeliverPends(b, t, result, step.now, step.room, tx, c, q);
        }
      case Disconnect(d) => DisconnectPends(b, d, tx, c, q);
      case Ignored =>
    }
  }

  lemma {:induction false} PendsStep(a: Actor, step: Step, tx: Tx, c: ClientId, q: RequestId)
    requires Pends(a, tx, c, q) && Idle(step, tx, c)
    ensures Pends(Next(a, step), tx, c, if RegistersFor(step, tx, c) then step.msg.request else q)
  {
    hide Prune, Handle;
    PruneKeeps(a, step.prunedAt, step.victim);
    PrunedPending(a, step, tx);
    PendsHandle(Prune(a, step.prunedAt, step.victim), step, tx, c, q);
  }

  lemma {:induction false} PendsUntilDelivered(a: Actor, steps: seq<Step>, tx: Tx, c: ClientId, q: RequestId)
    requires Pends(a, tx, c, q) && forall step <- steps :: Idle(step, tx, c)
    ensures Pends(After(a, steps), tx, c, LastRequest(steps, tx, c, q))
  {
    hide Next, Pends, RegistersFor, Idle;
    if steps != [] {
      PendsUntilDelivered(a, steps[..|steps| - 1], tx, c, q);
      PendsStep(After(a, steps[..|steps| - 1]), steps[|steps| - 1], tx, c, LastRequest(steps[..|steps| - 1], tx, c, q));
    }
  }

  /** Between two states one result was sent, to the client among others, for its request `q`. */
  predicate Answered(a: Actor, w: Actor, tx: Tx, c: ClientId, q: RequestId) {
    && |w.sent| == |a.sent| + 1 && w.sent[..|a.sent|] == a.sent
    && w.sent[|a.sent|].tx == tx && c in w.sent[|a.sent|].to && w.sent[|a.sent|].to[c] == Some(q)
  }

  /** The answer is sent for the request the client registered last. So a request is the one answered
      exactly when the client did not register another for the same transaction meanwhile. */
  lemma {:induction false} RequestAnsweredIff(a: Actor, steps: seq<Step>, d: Step, tx: Tx, c: ClientId, q: RequestId)
    requires Pends(a, tx, c, q) && (forall step <- steps :: Idle(step, tx, c))
    requires d.msg.Deliver? && d.msg.tx == tx
    ensures Answered(After(a, steps), Next(After(a, steps), d), tx, c, LastRequest(steps, tx, c, q))
    ensures Answered(After(a, steps), Next(After(a, steps), d), tx, c, q) <==> LastRequest(steps, tx, c, q) == q
  {
    hide After, Next, LastRequest, Pends;
    PendsUntilDelivered(a, steps, tx, c, q);
    PendingIsAnswered(After(a, steps), d, tx, c, LastRequest(steps, tx, c, q));
  }

  lemma {:induction false} PendingIsAnswered(m: Actor, d: Step, tx: Tx, c: ClientId, q: RequestId)
    requires Pends(m, tx, c, q) && d.msg.Deliver? && d.msg.tx == tx
    ensures Answered(m, Next(m, d), tx, c, q)
  {
    hide Prune, Handle;
    var b := Prune(m, d.prunedAt, d.victim);
    PruneKeeps(m, d.prunedAt, d.victim);
    PrunedPending(m, d, tx);
    HandleSends(b, d);
    assert c in Recipients(b, d);
  }

  // ---------------------------------------------------------------- which result, and what stays on record

  /** The message is about the transaction. */
  predicate Concerns(msg: Message, tx: Tx) {
    (msg.Register? || msg.Deliver? || msg.DeliverTo?) && msg.tx == tx
  }

  /** The last result that came for the transaction. */
  function LastResult(steps: seq<Step>, tx: Tx): Option<Payload> {
    if steps == [] then None else
    var msg := steps[|steps| - 1].msg;
    if (msg.Deliver? || msg.DeliverTo?) && msg.tx == tx then Some(msg.result) else LastResult(steps[..|steps| - 1], tx)
  }

  /** When the transaction was last mentioned. */
  function LastMention(steps: seq<Step>, tx: Tx): Option<nat> {
    if steps == [] then None else
    var last := steps[|steps| - 1];
    if Concerns(last.msg, tx) then Some(last.now) else LastMention(steps[..|steps| - 1], tx)
  }

  lemma {:induction false} SendLeavesCache(a: Actor, tx: Tx, to: set<ClientId>, result: Payload, c: ClientId)
    ensures Send(a, tx, to, result).pending == a.pending && Unwait(a, tx, c).pending == a.pending
    ensures Send(a, tx, to, result).clients == a.clients && Unwait(a, tx, c).requestIds == a.requestIds
  {
    hide Forget, Answers;
  }

  lemma {:induction false} RegisteredEntry(b: Actor, tx: Tx, c: ClientId, q: RequestId, now: nat)
    ensures RegisterClient(b, tx, c, q, now).pending
         == if tx in b.pending then b.pending[tx := Cached(b.pending[tx].result, b.pending[tx].delivered + {c}, now)] else b.pending
  {
    hide Send, Unwait;
    if tx in b.pending {
      var a1 := b.(clients := b.clients[tx := Waiting(b, tx) + {c}], requestIds := b.requestIds[(tx, c) := q]);
      var a2 := a1.(pending := a1.pending[tx := Cached(b.pending[tx].result, b.pending[tx].delivered + {c}, now)]);
      SendLeavesCache(a2, tx, {c}, b.pending[tx].result, c);
      SendLeavesCache(Send(a2, tx, {c}, b.pending[tx].result), tx, {c}, b.pending[tx].result, c);
    }
  }

  lemma {:induction false} DeliveredEntry(b: Actor, tx: Tx, result: Payload, now: nat, room: Tx)
    ensures var pending := WithEntry(b.pending, tx, result, now, room);
            DeliverResult(b, tx, result, now, room).pending
            == pending[tx := pending[tx].(delivered := pending[tx].delivered + Waiting(b, tx))]
  {
    hide Forget, Answers, WithEntry;
  }

  lemma {:induction false} DeliveredToEntry(b: Actor, tx: Tx, result: Payload, c: ClientId, now: nat, room: Tx)
    ensures var pending := WithEntry(b.pending, tx, result, now, room);
            DeliverToOne(b, tx, result, c, now, room).pending
            == pending[tx := pending[tx].(delivered := pending[tx].delivered + {c})]
  {
    hide Send, Unwait, WithEntry;
  }

  lemma {:induction false} RenewedEntry(pending: map<Tx, Cached>, t: Tx, result: Payload, now: nat, room: Tx, tx: Tx)
    ensures var w := WithEntry(pending, t, result, now, room);
            && w[t].result == result && w[t].lastAccessed == now
            && (tx != t && tx in w ==> tx in pending && w[tx] == pending[tx])
  {
  }

  /** What a message does to a cached entry: a result renews it, a registration touches it, others leave it. */
  lemma {:induction false} EntryAfter(b: Actor, step: Step, tx: Tx)
    requires tx in Handle(b, step).pending
    ensures var e := Handle(b, step).pending[tx];
            if (step.msg.Deliver? || step.msg.DeliverTo?) && step.msg.tx == tx then e.result == step.msg.result && e.lastAccessed == step.now
            else
              && tx in b.pending && e.result == b.pending[tx].result
              && e.lastAccessed == if Concerns(step.msg, tx) then step.now else b.pending[tx].lastAccessed
  {
    hide RegisterClient, DeliverResult, DeliverToOne, WithEntry;
    match step.msg {
      case Register(t, c, q) => RegisteredEntry(b, t, c, q, step.now);
      case Deliver(t, result) =>
        DeliveredEntry(b, t, result, step.now, step.room);
        RenewedEntry(b.pending, t, result, step.now, step.room, tx);
      case DeliverTo(t, result, _) =>
        if step.target.Some? {
          DeliveredToEntry(b, t, result, step.target.value, step.now, step.room);
        } else {
          DeliveredEntry(b, t, result, step.now, step.room);
        }
        RenewedEntry(b.pending, t, result, step.now, step.room, tx);
      case Disconnect(c) =>
      case Ignored =>
    }
  }

  /** In every run: a cached result is the last that came for its transaction, and its time of use is when the
      transaction was last mentioned. */
  lemma {:induction false} CacheShowsTheLatest(steps: seq<Step>, tx: Tx)
    requires tx in After(START, steps).pending
    ensures var e := After(START, steps).pending[tx];
            LastResult(steps, tx) == Some(e.result) && LastMention(steps, tx) == Some(e.lastAccessed)
    decreases |steps|
  {
    hide Prune, Handle, Stale, Unexpired;
    if steps != [] {
      var n := |steps| - 1;
      var a, step := After(START, steps[..n]), steps[n];
      var b := Prune(a, step.prunedAt, step.victim);
      EntryAfter(b, step, tx);
      PrunedPending(a, step, tx);
      if tx in a.pending {
        CacheShowsTheLatest(steps[..n], tx);
      }
    }
  }

  /** In every run: whatever is sent is the last result that came for its transaction, the one that comes with the
      message itself included. */
  lemma {:induction false} SentIsTheLatest(steps: seq<Step>, step: Step)
    ensures var a := After(START, steps);
            var w := Next(a, step);
            w.sent == a.sent ||
            (|w.sent| == |a.sent| + 1 && w.sent[..|a.sent|] == a.sent && Concerns(step.msg, w.sent[|a.sent|].tx)
             && LastResult(steps + [step], w.sent[|a.sent|].tx) == Some(w.sent[|a.sent|].result))
  {
    hide Prune, Handle, Stale, Unexpired, After;
    var a := After(START, steps);
    var b := Prune(a, step.prunedAt, step.victim);
    PruneKeeps(a, step.prunedAt, step.victim);
    HandleSends(b, step);
    assert (steps + [step])[..|steps|] == steps;
    if step.msg.Register? && step.msg.tx in b.pending {
      PrunedPending(a, step, step.msg.tx);
      CacheShowsTheLatest(steps, step.msg.tx);
    }
  }

  /** Whom a message sends a result to is done with the transaction: it no longer waits and its request is off the
      record, so that the next result is not sent for it and the entry can expire. */
  lemma {:induction false} SentIsOffRecord(a: Actor, step: Step, tx: Tx, c: ClientId)
    requires SendsTo(a, step, tx, c)
    ensures c !in Waiting(Next(a, step), tx) && (tx, c) !in Next(a, step).requestIds
  {
    hide Prune, Survives, RegisterClient, DeliverResult, DeliverToOne;
    var b := Prune(a, step.prunedAt, step.victim);
    PruneKeeps(a, step.prunedAt, step.victim);
    PrunedPending(a, step, tx);
    match step.msg {
      case Register(t, d, q) => RegisterSendsOff(b, tx, c, q, step.now);
      case Deliver(t, result) => DeliverSendsOff(b, tx, result, step.now, step.room, c);
      case DeliverTo(t, result, q) =>
        if step.target.Some? {
          DeliverToSendsOff(b, tx, result, c, step.now, step.room);
        } else {
          DeliverSendsOff(b, tx, result, step.now, step.room, c);
        }
      case _ =>
    }
  }

  lemma {:induction false} RegisterSendsOff(b: Actor, tx: Tx, c: ClientId, q: RequestId, now: nat)
    requires tx in b.pending && c !in b.pending[tx].delivered
    ensures var w := RegisterClient(b, tx, c, q, now); c !in Waiting(w, tx) && (tx, c) !in w.requestIds
  {
    hide Answers;
  }

  lemma {:induction false} DeliverSendsOff(b: Actor, tx: Tx, result: Payload, now: nat, room: Tx, c: ClientId)
    requires c in Waiting(b, tx) && c !in DeliveredTo(b.pending, tx)
    ensures var w := DeliverResult(b, tx, result, now, room); c !in Waiting(w, tx) && (tx, c) !in w.requestIds
  {
    hide Answers, Capped;
    assert c in Waiting(b, tx) - WithEntry(b.pending, tx, result, now, room)[tx].delivered;
  }

  lemma {:induction false} DeliverToSendsOff(b: Actor, tx: Tx, result: Payload, c: ClientId, now: nat, room: Tx)
    ensures var w := DeliverToOne(b, tx, result, c, now, room); c !in Waiting(w, tx) && (tx, c) !in w.requestIds
  {
    hide Answers, WithEntry;
  }

  /** A disconnected client waits for nothing and has nothing on record; every other client waits for what it waited
      for, with the request it had. */
  lemma {:induction false} DisconnectForgets(a: Actor, c: ClientId, tx: Tx, d: ClientId)
    requires Recorded(a)
    ensures var w := DisconnectClient(a, c);
            && c !in Waiting(w, tx) && (tx, c) !in w.requestIds
            && (d != c ==> (d in Waiting(w, tx) <==> d in Waiting(a, tx)))
            && (d != c && d in Waiting(a, tx) ==> RequestOf(w.requestIds, tx, d) == RequestOf(a.requestIds, tx, d))
            && w.pending == a.pending && w.sent == a.sent
  {
    if tx in a.clients && d != c && d in a.clients[tx] {
      assert d in a.clients[tx] - {c};
    }
  }

  // ---------------------------------------------------------------- late registrations

  /** A registration is answered with the cached result, for its own request, exactly when the result outlives
      the prune and the client has not been sent it; otherwise nothing is sent. */
  lemma {:induction false} CachedIsAnsweredIff(a: Actor, step: Step, tx: Tx, c: ClientId)
    requires RegistersFor(step, tx, c)
    ensures var w := Next(a, step);
            if Survives(a, step, tx) && c !in a.pending[tx].delivered then Answered(a, w, tx, c, step.msg.request)
            else w.sent == a.sent
  {
    hide Prune, Survives, Handle;
    var b := Prune(a, step.prunedAt, step.victim);
    PruneKeeps(a, step.prunedAt, step.victim);
    PrunedPending(a, step, tx);
    HandleSends(b, step);
  }

  /** Nobody waits for the result and it was not used in the last minute. */
  predicate Expired(a: Actor, now: nat, tx: Tx) {
    tx in a.pending && !Active(a, tx) && now > a.pending[tx].lastAccessed + PENDING_RESULT_TTL
  }

  /** The cache is full of results that have not expired, and this is a least recently used one. */
  ghost predicate MayBeEvicted(a: Actor, now: nat, tx: Tx) {
    |Unexpired(a, now)| >= MAX_PENDING_RESULTS && Oldest(Unexpired(a, now), tx)
  }

  /** The same, and every other was used later. */
  ghost predicate MustBeEvicted(a: Actor, now: nat, tx: Tx) {
    && MayBeEvicted(a, now, tx)
    && forall t <- Unexpired(a, now) :: t != tx ==> a.pending[tx].lastAccessed < a.pending[t].lastAccessed
  }

  lemma {:induction false} OldestExists(pending: map<Tx, Cached>) returns (tx: Tx)
    requires pending != map[]
    ensures Oldest(pending, tx)
  {
    var t :| t in pending;
    var rest := pending - {t};
    if rest == map[] {
      assert forall u <- pending :: u != t ==> u in rest;
      tx := t;
    } else {
      var u := OldestExists(rest);
      tx := if pending[t].lastAccessed <= pending[u].lastAccessed then t else u;
      assert forall v <- pending :: v != t ==> v in rest && rest[v] == pending[v];
    }
  }

  /** Which entry is evicted is up to the order in which equally old ones are visited. */
  lemma {:induction false} VictimsOf(a: Actor, step: Step, tx: Tx)
    requires step.msg.Register? && step.prunedAt <= step.now && tx in a.pending
    ensures (forall v: Tx :: Enabled(a, step.(victim := v)) ==> Survives(a, step.(victim := v), tx))
       <==> !Expired(a, step.prunedAt, tx) && !MayBeEvicted(a, step.prunedAt, tx)
    ensures (exists v: Tx :: Enabled(a, step.(victim := v)) && Survives(a, step.(victim := v), tx))
       <==> !Expired(a, step.prunedAt, tx) && !MustBeEvicted(a, step.prunedAt, tx)
  {
    hide Active;
    var cached := Unexpired(a, step.prunedAt);
    assert tx in cached <==> !Expired(a, step.prunedAt, tx);
    assert forall t <- cached :: cached[t] == a.pending[t];
    hide Unexpired;
    if |cached| < MAX_PENDING_RESULTS {
      assert Enabled(a, step.(victim := tx));
    } else {
      assert cached != map[];
      var oldest := OldestExists(cached);
      assert Enabled(a, step.(victim := oldest));
      if MayBeEvicted(a, step.prunedAt, tx) {
        assert Enabled(a, step.(victim := tx));
        if !MustBeEvicted(a, step.prunedAt, tx) {
          var other :| other in cached && other != tx && a.pending[other].lastAccessed <= a.pending[tx].lastAccessed;
          assert Enabled(a, step.(victim := other));
        }
      }
    }
  }

  /** A client that registers for a cached result it has not been sent is certain to get it, for that request,
      exactly when the result has not expired and cannot be evicted; it can get it at all exactly when the
      result has not expired and need not be evicted. */
  lemma {:induction false} LateRegistrationIff(a: Actor, step: Step, tx: Tx, c: ClientId)
    requires RegistersFor(step, tx, c) && step.prunedAt <= step.now && tx in a.pending && c !in a.pending[tx].delivered
    ensures (forall v: Tx :: Enabled(a, step.(victim := v)) ==>
                               Answered(a, Next(a, step.(victim := v)), tx, c, step.msg.request))
       <==> !Expired(a, step.prunedAt, tx) && !MayBeEvicted(a, step.prunedAt, tx)
    ensures (exists v: Tx :: Enabled(a, step.(victim := v)) &&
                             Answered(a, Next(a, step.(victim := v)), tx, c, step.msg.request))
       <==> !Expired(a, step.prunedAt, tx) && !MustBeEvicted(a, step.prunedAt, tx)
  {
    hide Next, Enabled, Survives, Expired, MayBeEvicted, MustBeEvicted;
    VictimsOf(a, step, tx);
    forall v: Tx
      ensures Answered(a, Next(a, step.(victim := v)), tx, c, step.msg.request) <==> Survives(a, step.(victim := v), tx)
    {
      CachedIsAnsweredIff(a, step.(victim := v), tx, c);
    }
  }

  // ---------------------------------------------------------------- asking again

  /** Sent the cached result and with a request on record all the same. */
  predicate Lingers(a: Actor, tx: Tx, c: ClientId) {
    tx in a.pending && c in a.pending[tx].delivered && (tx, c) in a.requestIds
  }

  /** A client that registers again for a result it was sent is not answered, and its request stays on record. */
  lemma {:induction false} AskingAgain(a: Actor, step: Step, tx: Tx, c: ClientId)
    requires RegistersFor(step, tx, c) && Survives(a, step, tx) && c in a.pending[tx].delivered
    ensures Lingers(Next(a, step), tx, c) && Asks(Next(a, step), tx, c, step.msg.request) && Next(a, step).sent == a.sent
  {
    hide Prune, Survives;
    PruneKeeps(a, step.prunedAt, step.victim);
    PrunedPending(a, step, tx);
  }

  /** What the node sends the actor. */
  predicate FromNode(step: Step) {
    step.msg.Register? || step.msg.Deliver?
  }

  predicate NotEvicted(a: Actor, step: Step, tx: Tx) {
    |Unexpired(a, step.prunedAt)| >= MAX_PENDING_RESULTS ==> step.victim != tx
  }

  lemma {:induction false} LingeringSurvives(a: Actor, step: Step, tx: Tx, c: ClientId)
    requires Lingers(a, tx, c) && NotEvicted(a, step, tx)
    ensures Survives(a, step, tx)
  {
    hide Unexpired;
    assert Active(a, tx) by {
      assert (tx, c) in a.requestIds && (tx, c).0 == tx;
    }
  }

  lemma {:induction false} LingersHandle(b: Actor, step: Step, tx: Tx, c: ClientId)
    requires Lingers(b, tx, c) && FromNode(step) && |b.pending| < MAX_PENDING_RESULTS
    ensures Lingers(Handle(b, step), tx, c)
  {
    hide Answers, WithEntry;
    if step.msg.Deliver? {
      EntryKept(b.pending, step.msg.tx, step.msg.result, step.now, step.room, tx);
    }
  }

  lemma {:induction false} LingersStep(a: Actor, step: Step, tx: Tx, c: ClientId)
    requires Inv(a) && Enabled(a, step) && Lingers(a, tx, c) && FromNode(step) && NotEvicted(a, step, tx)
    ensures Lingers(Next(a, step), tx, c) && !SendsTo(a, step, tx, c)
  {
    hide Prune, Handle, Enabled, Survives, NotEvicted;
    LingeringSurvives(a, step, tx, c);
    PruneKeeps(a, step.prunedAt, step.victim);
    PrunedPending(a, step, tx);
    PruneLeavesRoom(a, step);
    LingersHandle(Prune(a, step.prunedAt, step.victim), step, tx, c);
  }

  /** However long the run and whatever the node sends, the request is not answered and the result does not
      expire: only eviction ends this. */
  lemma {:induction false} AskingAgainNeverExpires(a: Actor, steps: seq<Step>, tx: Tx, c: ClientId)
    requires Inv(a) && Runs(a, steps) && Lingers(a, tx, c)
    requires forall i :: 0 <= i < |steps| ==> FromNode(steps[i]) && NotEvicted(After(a, steps[..i]), steps[i], tx)
    ensures Lingers(After(a, steps), tx, c) && Count(After(a, steps).sent, tx, c) == Count(a.sent, tx, c)
  {
    hide Next, Enabled, Inv, Lingers, Count, NotEvicted, SendsTo, FromNode;
    if steps != [] {
      var n := |steps| - 1;
      var before := steps[..n];
      assert forall i :: 0 <= i < n ==> before[i] == steps[i] && before[..i] == steps[..i];
      AskingAgainNeverExpires(a, before, tx, c);
      RunKeeps(a, before);
      LingersStep(After(a, before), steps[n], tx, c);
      SentIff(After(a, before), steps[n], tx, c);
    }
  }

  lemma {:induction false} StaysUncached(a: Actor, step: Step, tx: Tx)
    requires tx !in a.pending && (step.msg.Register? || (step.msg.Deliver? && step.msg.tx != tx))
    ensures tx !in Next(a, step).pending
  {
    hide Prune, Handle;
    PrunedPending(a, step, tx);
    HandledPending(Prune(a, step.prunedAt, step.victim), step);
  }

  lemma {:induction false} RegistersUncached(a: Actor, step: Step, tx: Tx)
    requires tx !in a.pending && step.msg.Register? && step.msg.tx == tx
    ensures Pends(Next(a, step), tx, step.msg.client, step.msg.request)
  {
    hide Prune;
    PrunedPending(a, step, tx);
  }

  lemma {:induction false} AfterSplit(a: Actor, s: seq<Step>, t: seq<Step>)
    ensures After(a, s + t) == After(After(a, s), t)
  {
    hide Next;
    if t == [] {
      assert s + t == s;
    } else {
      assert (s + t)[..|s + t| - 1] == s + t[..|t| - 1];
      AfterSplit(a, s, t[..|t| - 1]);
    }
  }

  /** Registrations and results of other transactions. */
  ghost predicate NoResultOf(steps: seq<Step>, tx: Tx) {
    forall step <- steps :: step.msg.Register? || (step.msg.Deliver? && step.msg.tx != tx)
  }

  lemma {:induction false} NothingCached(steps: seq<Step>, tx: Tx)
    requires NoResultOf(steps, tx)
    ensures tx !in After(START, steps).pending
  {
    hide Next;
    if steps != [] {
      NothingCached(steps[..|steps| - 1], tx);
      StaysUncached(After(START, steps[..|steps| - 1]), steps[|steps| - 1], tx);
    }
  }

  /** The first result of a transaction is sent to a client that registered before it, for the request the
      client registered last. */
  lemma {:induction false} FirstResultIsAnswered(steps: seq<Step>, j: nat, i: nat, tx: Tx, c: ClientId, q: RequestId)
    requires j < i < |steps| && steps[j].msg == Register(tx, c, q) && steps[i].msg.Deliver? && steps[i].msg.tx == tx
    requires NoResultOf(steps[..i], tx)
    ensures var a, last := After(START, steps[..i]), LastRequest(steps[j + 1..i], tx, c, q);
            Answered(a, Next(a, steps[i]), tx, c, last) && (Answered(a, Next(a, steps[i]), tx, c, q) <==> last == q)
  {
    hide After, Next, LastRequest, Pends, Answered;
    var mid, start := steps[j + 1..i], After(START, steps[..j]);
    Between(steps, j, i, tx, c);
    NothingCached(steps[..j], tx);
    RegistersUncached(start, steps[j], tx);
    AfterSnoc(START, steps[..j], steps[j]);
    AfterSplit(START, steps[..j] + [steps[j]], mid);
    RequestAnsweredIff(Next(start, steps[j]), mid, steps[i], tx, c, q);
  }

  lemma {:induction false} Between(steps: seq<Step>, j: nat, i: nat, tx: Tx, c: ClientId)
    requires j < i < |steps| && NoResultOf(steps[..i], tx)
    ensures NoResultOf(steps[..j], tx) && (forall step <- steps[j + 1..i] :: Idle(step, tx, c))
    ensures steps[..i] == steps[..j] + [steps[j]] + steps[j + 1..i]
  {
    assert forall k :: 0 <= k < i ==> steps[..i][k] == steps[k];
  }

  lemma {:induction false} WaitingStep(a: Actor, step: Step, tx: Tx, c: ClientId)
    requires tx !in a.pending && (step.msg.Register? || (step.msg.Deliver? && step.msg.tx != tx))
    ensures c in Waiting(Next(a, step), tx) <==> c in Waiting(a, tx) || RegistersFor(step, tx, c)
  {
    hide Prune, Forget, Answers, WithEntry;
    PruneKeeps(a, step.prunedAt, step.victim);
    PrunedPending(a, step, tx);
  }

  lemma {:induction false} WaitingIff(steps: seq<Step>, tx: Tx, c: ClientId)
    requires NoResultOf(steps, tx)
    ensures c in Waiting(After(START, steps), tx) <==> Registers(steps, tx, c)
  {
    hide Next, RegistersFor;
    if steps != [] {
      WaitingIff(steps[..|steps| - 1], tx, c);
      NothingCached(steps[..|steps| - 1], tx);
      WaitingStep(After(START, steps[..|steps| - 1]), steps[|steps| - 1], tx, c);
      RegistersNext(steps, tx, c);
    }
  }

  /** The first result of a transaction is sent to exactly the clients whose registration came before it. */
  lemma {:induction false} FirstResultReachesIff(steps: seq<Step>, d: Step, tx: Tx, c: ClientId)
    requires NoResultOf(steps, tx) && d.msg.Deliver? && d.msg.tx == tx
    ensures var a := After(START, steps);
            Count(Next(a, d).sent, tx, c) == Count(a.sent, tx, c) + if Registers(steps, tx, c) then 1 else 0
  {
    hide After, Next, Count, Registers;
    NothingCached(steps, tx);
    WaitingIff(steps, tx, c);
    SentIff(After(START, steps), d, tx, c);
  }

  /** A registration that comes after the first result, with the result cached all the while, is answered at
      once, for its own request, exactly when it is the client's first for the transaction. */
  lemma {:induction false} LaterRegistrationIff(steps: seq<Step>, i: nat, j: nat, tx: Tx, c: ClientId, q: RequestId)
    requires i < j < |steps| && NoResultOf(steps[..i], tx) && steps[i].msg.Deliver? && steps[i].msg.tx == tx
    requires steps[j].msg == Register(tx, c, q) && Runs(START, steps[..j]) && forall k :: i < k < j ==> FromNode(steps[k])
    requires StaysCached(After(START, steps[..i + 1]), steps[i + 1..j], tx) && Survives(After(START, steps[..j]), steps[j], tx)
    ensures var a := After(START, steps[..j]);
            Answered(a, Next(a, steps[j]), tx, c, q) <==> !Registers(steps[..j], tx, c)
  {
    hide After, Next, Inv, Survives, Served, Answered, Registers, Enabled;
    var start, mid := After(START, steps[..i]), steps[i + 1..j];
    assert steps[..j] == steps[..i] + [steps[i]] + mid && steps[..i + 1] == steps[..i] + [steps[i]];
    RunsSplit(START, steps[..i + 1], mid);
    AfterSnoc(START, steps[..i], steps[i]);
    AfterSplit(START, steps[..i + 1], mid);
    EveryRunKeeps(steps[..i]);
    NothingCached(steps[..i], tx);
    assert !Survives(start, steps[i], tx) by { NotCached(start, steps[i], tx); }
    FirstDelivery(start, steps[i], tx);
    WaitingIff(steps[..i], tx, c);
    OnceWhileCached(Next(start, steps[i]), mid, tx, c);
    RegistersSplit(steps[..i + 1], mid, tx, c);
    RegistersSplit(steps[..i], [steps[i]], tx, c);
    NotRegistering(steps[i], tx, c);
    CachedIsAnsweredIff(After(START, steps[..j]), steps[j], tx, c);
    NotAnswered(After(START, steps[..j]), Next(After(START, steps[..j]), steps[j]), tx, c, q);
  }

  lemma {:induction false} NotCached(a: Actor, step: Step, tx: Tx)
    requires tx !in a.pending
    ensures !Survives(a, step, tx)
  {
  }

  lemma {:induction false} NotAnswered(a: Actor, w: Actor, tx: Tx, c: ClientId, q: RequestId)
    ensures w.sent == a.sent ==> !Answered(a, w, tx, c, q)
  {
  }

  lemma {:induction false} NotRegistering(step: Step, tx: Tx, c: ClientId)
    requires step.msg.Deliver?
    ensures !Registers([step], tx, c)
  {
  }

  lemma {:induction false} RegistersSplit(s: seq<Step>, t: seq<Step>, tx: Tx, c: ClientId)
    ensures Registers(s + t, tx, c) <==> Registers(s, tx, c) || Registers(t, tx, c)
  {
    if Registers(s, tx, c) {
      var k :| 0 <= k < |s| && RegistersFor(s[k], tx, c);
      assert RegistersFor((s + t)[k], tx, c);
    }
    if Registers(t, tx, c) {
      var k :| 0 <= k < |t| && RegistersFor(t[k], tx, c);
      assert RegistersFor((s + t)[|s| + k], tx, c);
    }
    if Registers(s + t, tx, c) {
      var k :| 0 <= k < |s + t| && RegistersFor((s + t)[k], tx, c);
      assert if k < |s| then RegistersFor(s[k], tx, c) else RegistersFor(t[k - |s|], tx, c);
    }
  }

  lemma {:induction false} RunsSplit(a: Actor, s: seq<Step>, t: seq<Step>)
    ensures Runs(a, s + t) <==> Runs(a, s) && Runs(After(a, s), t)
  {
    hide Enabled, After;
    if t == [] {
      assert s + t == s;
    } else {
      var before := t[..|t| - 1];
      assert (s + t)[..|s + t| - 1] == s + before;
      RunsSplit(a, s, before);
      AfterSplit(a, s, before);
    }
  }

  // ---------------------------------------------------------------- results that are not delivered

  function At(msg: Message, time: nat): Step {
    Step(msg, time, time, 0, 0, None)
  }

  lemma {:induction false} EmptyCache(a: Actor, now: nat, victim: Tx)
    requires a.pending == map[]
    ensures Prune(a, now, victim) == a
  {
    assert Unexpired(a, now) == map[];
  }

  lemma {:induction false} Three(x: Step, y: Step, z: Step)
    ensures After(START, [x]) == Next(START, x)
    ensures After(START, [x, y]) == Next(Next(START, x), y)
    ensures After(START, [x, y, z]) == Next(Next(Next(START, x), y), z)
    ensures Runs(START, [x]) <==> Enabled(START, x)
    ensures Runs(START, [x, y, z]) <==> Enabled(START, x) && Enabled(Next(START, x), y) && Enabled(Next(Next(START, x), y), z)
  {
    hide Next, Enabled;
    assert [x, y, z][..2] == [x, y] && [x, y][..1] == [x] && [x][..0] == [];
    assert After(START, []) == START && Runs(START, []);
  }

  lemma {:induction false} EmptyEnabled(a: Actor, step: Step)
    requires a.pending == map[] && step.prunedAt <= step.now && !step.msg.DeliverTo?
    ensures Enabled(a, step)
  {
    assert Unexpired(a, step.prunedAt) == map[];
  }

  /** Two requests of one client for one transaction: one answer, for the second. */
  lemma {:induction false} OverwrittenRequestIsNotAnswered()
    ensures var steps := [At(Register(0, 1, 1), 0), At(Register(0, 1, 2), 0), At(Deliver(0, 9), 0)];
            Runs(START, steps) && After(START, steps).sent == [Batch(0, map[1 := Some(2)], 9)]
  {
    hide After, Next, Runs, Enabled;
    var x, y, z := At(Register(0, 1, 1), 0), At(Register(0, 1, 2), 0), At(Deliver(0, 9), 0);
    Three(x, y, z);
    EmptyEnabled(START, x);
    RegisterUncached(START, x);
    var a1 := Next(START, x);
    assert {} + {1} == {1} && a1.clients == map[0 := {1}] && a1.requestIds == map[(0, 1) := 1];
    EmptyEnabled(a1, y);
    RegisterUncached(a1, y);
    var a2 := Next(a1, y);
    assert {1} + {1} == {1} && a2 == Actor(map[0 := {1}], map[(0, 1) := 2], map[], []);
    EmptyEnabled(a2, z);
    DeliverToSole(a2, z);
  }

  /** A client that is served and asks again: one answer, for the first request, and the second stays on
      record. */
  lemma {:induction false} ServedClientAsksInVain()
    ensures var steps := [At(Register(0, 1, 1), 0), At(Deliver(0, 9), 0), At(Register(0, 1, 2), 0)];
            var a := After(START, steps);
            Runs(START, steps) && Lingers(a, 0, 1) && Asks(a, 0, 1, 2) && |a.sent| == 1 && a.sent[0].to == map[1 := Some(1)]
  {
    hide After, Next, Runs, Enabled, Lingers, Inv;
    var x, y, z := At(Register(0, 1, 1), 0), At(Deliver(0, 9), 0), At(Register(0, 1, 2), 0);
    Three(x, y, z);
    EmptyEnabled(START, x);
    RegisterUncached(START, x);
    var a1 := Next(START, x);
    assert {} + {1} == {1} && a1 == Actor(map[0 := {1}], map[(0, 1) := 1], map[], []);
    EmptyEnabled(a1, y);
    DeliverAlone(a1, y);
    var a2 := Next(a1, y);
    EnabledAlone(a2, z);
    AskingAgain(a2, z, 0, 1);
  }

  lemma {:induction false} DeliverAlone(a: Actor, step: Step)
    requires a == Actor(map[0 := {1}], map[(0, 1) := 1], map[], []) && step.msg == Deliver(0, 9)
    ensures var w := Next(a, step);
            && w.pending == map[0 := Cached(9, {1}, step.now)]
            && |w.sent| == 1 && w.sent[0].to == map[1 := Some(1)]
  {
    EmptyCache(a, step.prunedAt, step.victim);
    hide Prune, Forget;
    HandleSends(a, step);
    assert {} + {1} == {1} && Recipients(a, step) == {1};
    assert Answers(a.requestIds, 0, {1}) == map[1 := Some(1)];
    assert Capped(map[], step.room) == map[];
  }

  lemma {:induction false} EnabledAlone(a: Actor, step: Step)
    requires |a.pending| == 1 && 0 in a.pending && a.pending[0].lastAccessed == step.prunedAt <= step.now && step.msg.Register?
    ensures Enabled(a, step) && Survives(a, step, 0)
  {
    hide Active;
    var cached := Unexpired(a, step.prunedAt);
    assert cached.Keys <= a.pending.Keys;
    SmallerSet(cached.Keys, a.pending.Keys);
  }

  lemma {:induction false} RegisterUncached(a: Actor, step: Step)
    requires a.pending == map[] && step.msg.Register?
    ensures var tx, c := step.msg.tx, step.msg.client;
            Next(a, step) == a.(clients := a.clients[tx := Waiting(a, tx) + {c}], requestIds := a.requestIds[(tx, c) := step.msg.request])
  {
    EmptyCache(a, step.prunedAt, step.victim);
    hide Prune;
  }

  lemma {:induction false} DeliverToSole(a: Actor, step: Step)
    requires a == Actor(map[0 := {1}], map[(0, 1) := 2], map[], []) && step.msg == Deliver(0, 9)
    ensures Next(a, step).sent == [Batch(0, map[1 := Some(2)], 9)]
  {
    EmptyCache(a, step.prunedAt, step.victim);
    hide Prune, Handle;
    HandleSends(a, step);
    assert Recipients(a, step) == {1};
    assert Answers(a.requestIds, 0, {1}) == map[1 := Some(2)];
  }

  lemma {:induction false} DeliverUnawaited(a: Actor, step: Step)
    requires a.clients == map[] && step.msg.Deliver? && step.msg.tx !in a.pending
    requires Unexpired(a, step.prunedAt) == a.pending && |a.pending| < MAX_PENDING_RESULTS
    ensures Next(a, step) == a.(pending := a.pending[step.msg.tx := Cached(step.msg.result, {}, step.now)])
  {
    hide Unexpired;
  }

  /** A result nobody asked for within a minute is gone: the client that registers next is not sent it. */
  lemma {:induction false} PrunedResultIsLost()
    ensures var a := After(START, [At(Deliver(0, 9), 0)]);
            var inTime, late := At(Register(0, 1, 5), 60_000), At(Register(0, 1, 5), 60_001);
            && Runs(START, [At(Deliver(0, 9), 0)]) && Enabled(a, inTime) && Enabled(a, late)
            && Answered(a, Next(a, inTime), 0, 1, 5) && Next(a, late).sent == []
  {
    var x := At(Deliver(0, 9), 0);
    Three(x, x, x);
    assert Unexpired(START, 0) == map[];
    DeliverUnawaited(START, x);
    EmptyEnabled(START, x);
    hide After, Next, Runs, Answered;
    var a := After(START, [x]);
    assert a == Actor(map[], map[], map[0 := Cached(9, {}, 0)], []);
    LateBy(a, At(Register(0, 1, 5), 60_000));
    LateBy(a, At(Register(0, 1, 5), 60_001));
  }

  lemma {:induction false} LateBy(a: Actor, step: Step)
    requires a == Actor(map[], map[], map[0 := Cached(9, {}, 0)], []) && step.msg == Register(0, 1, 5) && step.prunedAt <= step.now
    ensures Enabled(a, step)
    ensures if step.prunedAt <= 60_000 then Answered(a, Next(a, step), 0, 1, 5) else Next(a, step).sent == []
  {
    hide Next, Answered;
    var cached := Unexpired(a, step.prunedAt);
    assert cached.Keys <= a.pending.Keys;
    SmallerSet(cached.Keys, a.pending.Keys);
    assert a.pending.Keys == {0};
    CachedIsAnsweredIff(a, step, 0, 1);
  }

  /** `n` results, one a millisecond. */
  function Filling(n: nat): seq<Step> {
    if n == 0 then [] else Filling(n - 1) + [At(Deliver(n - 1, 0), n - 1)]
  }

  function Filled(n: nat): map<Tx, Cached> {
    map t: Tx | t < n :: Cached(0, {}, t)
  }

  lemma {:induction false} FilledSize(n: nat)
    ensures |Filled(n)| == n
  {
    if n > 0 {
      FilledSize(n - 1);
      assert Filled(n).Keys == Filled(n - 1).Keys + {n - 1};
    }
  }

  lemma {:induction false} FilledNone()
    ensures Filled(0) == map[]
  {
  }

  lemma {:induction false} NothingExpires(n: nat, a: Actor)
    requires n <= MAX_PENDING_RESULTS && a.pending == Filled(n)
    ensures Unexpired(a, n) == a.pending
  {
    hide Active;
  }

  lemma {:induction false} AfterSnoc(a: Actor, steps: seq<Step>, step: Step)
    ensures After(a, steps + [step]) == Next(After(a, steps), step)
    ensures Runs(a, steps + [step]) <==> Runs(a, steps) && Enabled(After(a, steps), step)
  {
    hide Next, Enabled;
    assert (steps + [step])[..|steps|] == steps;
  }

  lemma {:induction false} FillOne(n: nat, a: Actor, step: Step)
    requires n < MAX_PENDING_RESULTS && a == Actor(map[], map[], Filled(n), []) && step == At(Deliver(n, 0), n)
    ensures Next(a, step) == Actor(map[], map[], Filled(n + 1), []) && Enabled(a, step)
  {
    hide Next, Unexpired;
    FilledSize(n);
    NothingExpires(n, a);
    DeliverUnawaited(a, step);
    assert Filled(n)[n := Cached(0, {}, n)] == Filled(n + 1);
  }

  lemma {:induction false} FillingFills(n: nat)
    requires n <= MAX_PENDING_RESULTS
    ensures After(START, Filling(n)) == Actor(map[], map[], Filled(n), []) && Runs(START, Filling(n))
  {
    hide Next, Enabled, Filled;
    if n == 0 {
      FilledNone();
    } else {
      FillingFills(n - 1);
      hide After, Runs;
      var before, step := Filling(n - 1), At(Deliver(n - 1, 0), n - 1);
      FillOne(n - 1, After(START, before), step);
      AfterSnoc(START, before, step);
    }
  }

  lemma {:induction false} FullCacheGivesUpOldest(n: nat, a: Actor, step: Step)
    requires n == MAX_PENDING_RESULTS && a == Actor(map[], map[], Filled(n), []) && step == At(Register(0, 1, 5), n)
    ensures Enabled(a, step) && 0 in a.pending && Next(a, step).sent == []
  {
    FilledSize(n);
    NothingExpires(n, a);
    assert Oldest(a.pending, 0);
    hide Prune, Handle, Unexpired, Filled;
    PruneKeeps(a, n, 0);
    PrunedPending(a, step, 0);
    HandleSends(Prune(a, n, 0), step);
  }

  /** A full cache gives up its oldest result to make room, even for the message that asks for it. */
  lemma {:induction false} EvictedResultIsLost()
    ensures var a, step := After(START, Filling(MAX_PENDING_RESULTS)), At(Register(0, 1, 5), MAX_PENDING_RESULTS);
            && Runs(START, Filling(MAX_PENDING_RESULTS)) && Enabled(a, step)
            && 0 in a.pending && Next(a, step).sent == []
  {
    hide Filled, Filling, After, Runs, Enabled, Next;
    var n := MAX_PENDING_RESULTS;
    FillingFills(n);
    FullCacheGivesUpOldest(n, After(START, Filling(n)), At(Register(0, 1, 5), n));
  }

  // ---------------------------------------------------------------- the actor in place

  class SessionActor {
    var clientTransactions: map<Tx, set<ClientId>>
    var clientRequestIds: RequestIds
    var pendingResults: map<Tx, Cached>
    var responses: seq<Batch>

    constructor ()
      ensures View() == START
    {
      clientTransactions, clientRequestIds, pendingResults, responses := map[], map[], map[], [];
    }

    ghost function View(): Actor
      reads this
    {
      Actor(clientTransactions, clientRequestIds, pendingResults, responses)
    }

    /** The first entry with the least time, in whatever order they are visited. */
    method LeastRecentlyUsed() returns (oldest: Tx)
      requires pendingResults != map[]
      ensures Oldest(pendingResults, oldest)
    {
      oldest :| oldest in pendingResults;
      var todo := pendingResults.Keys;
      while todo != {}
        invariant oldest in pendingResults && todo <= pendingResults.Keys
        invariant forall t <- pendingResults :: t in todo || pendingResults[oldest].lastAccessed <= pendingResults[t].lastAccessed
        decreases todo
      {
        var t :| t in todo;
        todo := todo - {t};
        if pendingResults[t].lastAccessed < pendingResults[oldest].lastAccessed {
          oldest := t;
        }
      }
    }

    method EnforcePendingCapacity() returns (ghost victim: Tx)
      modifies this`pendingResults
      ensures pendingResults == Capped(old(pendingResults), victim)
      ensures |old(pendingResults)| >= MAX_PENDING_RESULTS ==> Oldest(old(pendingResults), victim)
    {
      victim := 0;
      if |pendingResults| < MAX_PENDING_RESULTS {
        return;
      }
      var oldest := LeastRecentlyUsed();
      victim := oldest;
      pendingResults := pendingResults - {oldest};
    }

    method DropStale(now: nat)
      modifies this`pendingResults
      ensures pendingResults == Unexpired(old(View()), now)
    {
      hide Active;
      ghost var before := View();
      var activeTxs := clientTransactions.Keys + set p <- clientRequestIds.Keys :: p.0;
      ActiveIs(before, activeTxs);
      var todo := pendingResults.Keys;
      while todo != {}
        invariant todo <= before.pending.Keys
        invariant forall t :: t in pendingResults <==> t in before.pending && (t in todo || !Stale(before, t, now))
        invariant forall t <- pendingResults :: pendingResults[t] == before.pending[t]
        decreases todo
      {
        var tx :| tx in todo;
        todo := todo - {tx};
        if tx !in activeTxs && now > pendingResults[tx].lastAccessed + PENDING_RESULT_TTL {
          pendingResults := pendingResults - {tx};
        }
      }
      assert pendingResults == Unexpired(before, now);
    }

    method PrunePendingResults(now: nat) returns (ghost victim: Tx)
      modifies this`pendingResults
      ensures View() == Prune(old(View()), now, victim)
      ensures var cached := Unexpired(old(View()), now);
              |cached| >= MAX_PENDING_RESULTS ==> Oldest(cached, victim)
    {
      hide Unexpired, Capped, Oldest;
      DropStale(now);
      victim := EnforcePendingCapacity();
    }

    /** Send a result to each of some clients and forget the requests it answers. */
    method DeliverResultToClients(tx: Tx, waiting: set<ClientId>, result: Payload)
      requires waiting != {}
      modifies this`clientRequestIds, this`responses
      ensures View() == Send(old(View()), tx, waiting, result)
    {
      var to: map<ClientId, Option<RequestId>>, todo := map[], waiting;
      ghost var ids := clientRequestIds;
      while todo != {}
        invariant todo <= waiting && to.Keys == waiting - todo
        invariant forall c <- to :: to[c] == RequestOf(ids, tx, c)
        invariant clientRequestIds == Forget(ids, tx, waiting - todo)
        invariant responses == old(responses)
        decreases todo
      {
        var c :| c in todo;
        ghost var done := waiting - todo;
        var request := if (tx, c) in clientRequestIds then Some(clientRequestIds[(tx, c)]) else None;
        to := to[c := request];
        clientRequestIds := clientRequestIds - {(tx, c)};
        todo := todo - {c};
        assert waiting - todo == done + {c};
      }
      assert waiting - {} == waiting && to == Answers(ids, tx, waiting);
      responses := responses + [Batch(tx, to, result)];
    }

    method CleanupTransactionEntry(tx: Tx, c: ClientId)
      modifies this`clientTransactions
      ensures View() == Unwait(old(View()), tx, c)
    {
      if tx in clientTransactions {
        clientTransactions := clientTransactions[tx := clientTransactions[tx] - {c}];
        if clientTransactions[tx] == {} {
          clientTransactions := clientTransactions - {tx};
          assert clientTransactions == old(clientTransactions) - {tx};
        }
      }
    }

    method RegisterTransaction(tx: Tx, c: ClientId, q: RequestId, now: nat)
      modifies this
      ensures View() == RegisterClient(old(View()), tx, c, q, now)
    {
      hide Send, Unwait;
      var clients := if tx in clientTransactions then clientTransactions[tx] else {};
      clientTransactions := clientTransactions[tx := clients + {c}];
      clientRequestIds := clientRequestIds[(tx, c) := q];
      if tx in pendingResults {
        var entry := pendingResults[tx];
        pendingResults := pendingResults[tx := entry.(lastAccessed := now, delivered := entry.delivered + {c})];
        if c !in entry.delivered {
          DeliverResultToClients(tx, {c}, entry.result);
          CleanupTransactionEntry(tx, c);
        }
      }
    }

    /** An entry for the transaction, with the new result and time. */
    method CacheResult(tx: Tx, result: Payload, now: nat) returns (ghost room: Tx)
      modifies this`pendingResults
      ensures pendingResults == WithEntry(old(pendingResults), tx, result, now, room)
      ensures |old(pendingResults)| >= MAX_PENDING_RESULTS && tx !in old(pendingResults) ==> Oldest(old(pendingResults), room)
    {
      room := 0;
      if tx !in pendingResults && |pendingResults| >= MAX_PENDING_RESULTS {
        room := EnforcePendingCapacity();
      }
      if tx !in pendingResults {
        pendingResults := pendingResults[tx := Cached(result, {}, now)];
      }
      pendingResults := pendingResults[tx := pendingResults[tx].(result := result, lastAccessed := now)];
      assert pendingResults == WithEntry(old(pendingResults), tx, result, now, room);
    }

    /** Of the waiting clients, those not yet served; and all that are served then. */
    static method Claim(waiting: set<ClientId>, served: set<ClientId>) returns (recipients: set<ClientId>, delivered: set<ClientId>)
      ensures recipients == waiting - served && delivered == served + waiting
    {
      recipients, delivered := {}, served;
      var todo := waiting;
      while todo != {}
        invariant todo <= waiting && delivered == served + (waiting - todo) && recipients == (waiting - todo) - served
        decreases todo
      {
        var c :| c in todo;
        todo := todo - {c};
        if c !in delivered {
          delivered := delivered + {c};
          recipients := recipients + {c};
        }
      }
    }

    method HandleResultDelivery(tx: Tx, result: Payload, now: nat) returns (ghost room: Tx)
      modifies this
      ensures View() == DeliverResult(old(View()), tx, result, now, room)
      ensures |old(pendingResults)| >= MAX_PENDING_RESULTS && tx !in old(pendingResults) ==> Oldest(old(pendingResults), room)
    {
      hide Send, WithEntry, DeliverResult, Oldest, Waiting;
      ghost var before := View();
      room := CacheResult(tx, result, now);
      var entry := pendingResults[tx];
      ghost var cached := pendingResults;
      var waiting := if tx in clientTransactions then clientTransactions[tx] else {};
      WaitingIs(before, tx);
      clientTransactions := clientTransactions - {tx};
      var recipients, delivered := Claim(waiting, entry.delivered);
      pendingResults := pendingResults[tx := entry.(delivered := delivered)];
      ghost var marked := View();
      assert marked == before.(clients := before.clients - {tx},
                               pending := cached[tx := cached[tx].(delivered := cached[tx].delivered + waiting)]);
      DeliveryIs(before, tx, result, now, room, cached, waiting);
      if recipients != {} {
        DeliverResultToClients(tx, recipients, result);
      } else {
        NoRecipients(View(), tx, result);
      }
    }

    /** A client whose request on record for the transaction has this id. */
    method FindClient(tx: Tx, q: RequestId) returns (target: Option<ClientId>)
      ensures target.Some? ==> Asks(View(), tx, target.value, q)
      ensures target == None ==> forall p <- clientRequestIds :: !(p.0 == tx && clientRequestIds[p] == q)
    {
      var todo := clientRequestIds.Keys;
      while todo != {}
        invariant todo <= clientRequestIds.Keys
        invariant forall p <- clientRequestIds :: p in todo || !(p.0 == tx && clientRequestIds[p] == q)
        decreases todo
      {
        var p :| p in todo;
        todo := todo - {p};
        if p.0 == tx && clientRequestIds[p] == q {
          return Some(p.1);
        }
      }
      target := None;
    }

    method HandleDeliveryWithRequestId(tx: Tx, result: Payload, q: RequestId, now: nat)
      returns (target: Option<ClientId>, ghost room: Tx)
      modifies this
      ensures target.Some? ==> Asks(old(View()), tx, target.value, q)
      ensures target == None ==> forall p <- old(clientRequestIds) :: !(p.0 == tx && old(clientRequestIds)[p] == q)
      ensures View() == if target.Some? then DeliverToOne(old(View()), tx, result, target.value, now, room)
                        else DeliverResult(old(View()), tx, result, now, room)
      ensures |old(pendingResults)| >= MAX_PENDING_RESULTS && tx !in old(pendingResults) ==> Oldest(old(pendingResults), room)
    {
      hide WithEntry, Forget, Answers;
      target := FindClient(tx, q);
      if target.Some? {
        var c := target.value;
        CleanupTransactionEntry(tx, c);
        DeliverResultToClients(tx, {c}, result);
        room := CacheResult(tx, result, now);
        pendingResults := pendingResults[tx := pendingResults[tx].(delivered := pendingResults[tx].delivered + {c})];
      } else {
        room := HandleResultDelivery(tx, result, now);
      }
    }

    method CleanupClientTransactions(c: ClientId)
      modifies this
      ensures View() == DisconnectClient(old(View()), c)
    {
      hide DisconnectClient, Retained, RetainedIds;
      ghost var clients, ids := clientTransactions, clientRequestIds;
      var todo := clientTransactions.Keys;
      RetainsAll(clients, ids, c);
      while todo != {}
        invariant todo <= clients.Keys && pendingResults == old(pendingResults) && responses == old(responses)
        invariant Retained(clients, clientTransactions, todo, c) && RetainedIds(clients, ids, clientRequestIds, todo, c)
        decreases todo
      {
        var tx :| tx in todo;
        RetainsNext(clients, clientTransactions, ids, clientRequestIds, todo, tx, c);
        todo := todo - {tx};
        var left := clientTransactions[tx] - {c};
        if left == {} {
          clientRequestIds := map p <- clientRequestIds | p.0 != tx :: clientRequestIds[p];
          clientTransactions := clientTransactions - {tx};
        } else {
          clientTransactions := clientTransactions[tx := left];
        }
      }
      RetainedEnds(clients, clientTransactions, ids, clientRequestIds, c);
      clientRequestIds := map p <- clientRequestIds | p.1 != c :: clientRequestIds[p];
      DisconnectIs(old(View()), c, clientRequestIds);
    }

    /** One message: prune, then handle it. */
    method ProcessMessage(msg: Message, prunedAt: nat, now: nat) returns (ghost step: Step)
      requires prunedAt <= now
      modifies this
      ensures step.msg == msg && step.prunedAt == prunedAt && step.now == now
      ensures Enabled(old(View()), step) && View() == Next(old(View()), step)
    {
      hide Unexpired, Capped, Oldest, RegisterClient, DeliverResult, DeliverToOne, DisconnectClient;
      ghost var room: Tx := 0;
      var target: Option<ClientId> := None;
      ghost var victim := PrunePendingResults(prunedAt);
      ghost var pruned := pendingResults;
      match msg {
        case Register(tx, c, q) => RegisterTransaction(tx, c, q, now);
        case Deliver(tx, result) => room := HandleResultDelivery(tx, result, now);
        case DeliverTo(tx, result, q) => target, room := HandleDeliveryWithRequestId(tx, result, q, now);
        case Disconnect(c) => CleanupClientTransactions(c);
        case Ignored =>
      }
      step := Step(msg, prunedAt, now, victim, room, target);
    }
  }

  /** The waiting clients with `c` taken out, except in the transactions still to visit. */
  ghost predicate Retained(clients: map<Tx, set<ClientId>>, now: map<Tx, set<ClientId>>, todo: set<Tx>, c: ClientId) {
    && (forall tx :: tx in now <==> tx in clients && (tx in todo || clients[tx] - {c} != {}))
    && (forall tx <- now :: now[tx] == if tx in todo then clients[tx] else clients[tx] - {c})
  }

  /** The requests on record, less those of visited transactions that nobody else waits for. */
  ghost predicate RetainedIds(clients: map<Tx, set<ClientId>>, ids: RequestIds, now: RequestIds, todo: set<Tx>, c: ClientId) {
    && (forall p :: p in now <==> p in ids && !(p.0 in clients && p.0 !in todo && clients[p.0] - {c} == {}))
    && (forall p <- now :: now[p] == ids[p])
  }

  lemma {:induction false} RetainsAll(clients: map<Tx, set<ClientId>>, ids: RequestIds, c: ClientId)
    ensures Retained(clients, clients, clients.Keys, c) && RetainedIds(clients, ids, ids, clients.Keys, c)
  {
  }

  lemma {:induction false} RetainsNext(clients: map<Tx, set<ClientId>>, now: map<Tx, set<ClientId>>, ids: RequestIds,
                                       nowIds: RequestIds, todo: set<Tx>, tx: Tx, c: ClientId)
    requires Retained(clients, now, todo, c) && RetainedIds(clients, ids, nowIds, todo, c) && tx in todo && todo <= clients.Keys
    ensures tx in now
    ensures if now[tx] - {c} == {}
            then Retained(clients, now - {tx}, todo - {tx}, c)
                 && RetainedIds(clients, ids, map p <- nowIds | p.0 != tx :: nowIds[p], todo - {tx}, c)
            else Retained(clients, now[tx := now[tx] - {c}], todo - {tx}, c) && RetainedIds(clients, ids, nowIds, todo - {tx}, c)
  {
  }

  lemma {:induction false} RetainedEnds(clients: map<Tx, set<ClientId>>, now: map<Tx, set<ClientId>>, ids: RequestIds,
                                        nowIds: RequestIds, c: ClientId)
    requires Retained(clients, now, {}, c) && RetainedIds(clients, ids, nowIds, {}, c)
    ensures now == Without(clients, c)
    ensures forall p :: p in nowIds <==> p in ids && !(p.0 in clients && clients[p.0] - {c} == {})
    ensures forall p <- nowIds :: nowIds[p] == ids[p]
  {
  }

  lemma {:induction false} DisconnectIs(a: Actor, c: ClientId, ids: RequestIds)
    requires forall p :: p in ids <==> p in a.requestIds && p.1 != c && !(p.0 in a.clients && a.clients[p.0] - {c} == {})
    requires forall p <- ids :: ids[p] == a.requestIds[p]
    ensures DisconnectClient(a, c) == a.(clients := Without(a.clients, c), requestIds := ids)
  {
    assert DisconnectClient(a, c).requestIds == ids;
  }

  lemma {:induction false} ActiveIs(a: Actor, active: set<Tx>)
    requires active == a.clients.Keys + set p <- a.requestIds.Keys :: p.0
    ensures forall tx :: tx in active <==> Active(a, tx)
  {
  }

  lemma {:induction false} DeliveryIs(a: Actor, tx: Tx, result: Payload, now: nat, room: Tx, pending: map<Tx, Cached>, waiting: set<ClientId>)
    requires pending == WithEntry(a.pending, tx, result, now, room) && waiting == Waiting(a, tx)
    ensures DeliverResult(a, tx, result, now, room)
         == Send(a.(clients := a.clients - {tx}, pending := pending[tx := pending[tx].(delivered := pending[tx].delivered + waiting)]),
                 tx, waiting - pending[tx].delivered, result)
  {
    hide Send, WithEntry;
  }

  lemma {:induction false} WaitingIs(a: Actor, tx: Tx)
    ensures Waiting(a, tx) == if tx in a.clients then a.clients[tx] else {}
  {
  }

  lemma {:induction false} NoRecipients(a: Actor, tx: Tx, result: Payload)
    ensures Send(a, tx, {}, result) == a
  {
  }
}
