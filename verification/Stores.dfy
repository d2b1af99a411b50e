/** What an executor that keeps its word does: the laws of the contract store behind the executor
    interface, and what they make of the requests a delegate's round serves. */
module Stores {
  import opened Messages
  import opened D = DelegateLoop

  /** What a store means. `value` is the state on record, `code` the contract, `unreadable` the error a read
      runs into, `merge` what the contract makes of a change or why it refuses it; `summary` and `difference`
      are what the contract computes of its state, `listeners` who is told of changes. */
  datatype Meaning<!S> = Meaning(
    value: (S, ContractInstanceId) -> Option<Blob>,
    code: (S, ContractKey) -> Option<ContractContainer>,
    unreadable: (S, ContractKey, bool) -> Option<ExecutorError>,
    merge: (S, ContractKey, Upsert, Blob, Option<ContractContainer>) -> Result<Blob, ExecutorError>,
    summary: (S, ContractKey) -> Result<Blob, ExecutorError>,
    difference: (S, ContractKey, Blob) -> Result<Blob, ExecutorError>,
    listeners: S -> set<(ContractInstanceId, ClientId)>)

  predicate Known<S>(x: Executor<S>, s: S, id: ContractInstanceId) {
    x.lookup(s, id).Some?
  }

  /** The contract is known and has this state. */
  predicate Holds<S>(x: Executor<S>, m: Meaning<S>, s: S, id: ContractInstanceId, v: Blob) {
    Known(x, s, id) && m.value(s, id) == Some(v)
  }

  /** From `s` to `t` the contract keeps its state, and stays known if it was. */
  predicate Kept<S>(x: Executor<S>, m: Meaning<S>, s: S, t: S, id: ContractInstanceId) {
    m.value(t, id) == m.value(s, id) && (Known(x, s, id) ==> Known(x, t, id))
  }

  /** No contract state changes and no listener is added; one whose channel is closed may go. */
  ghost predicate Unchanged<S>(x: Executor<S>, m: Meaning<S>, s: S, t: S) {
    && m.listeners(t) <= m.listeners(s)
    && forall id :: Kept(x, m, s, t, id) && (Known(x, t, id) ==> Known(x, s, id))
  }

  /** A read changes nothing and shows what is on record, the code only when asked for. */
  ghost predicate Reads<S>(x: Executor<S>, m: Meaning<S>, s: S, key: ContractKey, code: bool) {
    && Unchanged(x, m, s, x.fetch(s, key, code).0)
    && x.fetch(s, key, code).1 ==
       match m.unreadable(s, key, code)
       case Some(error) => Err(error)
       case None => Ok(StoreResponse(m.value(s, key.id), if code then m.code(s, key) else None))
  }

  /** What a write reports when the state was `was` and is now `v`. */
  predicate Reports(was: Option<Blob>, v: Blob, r: Result<UpsertResult, ExecutorError>) {
    if was == Some(v) then r == Ok(NoChange) || r == Ok(CurrentWon(v)) else r == Ok(Updated(v))
  }

  /** A write touches its own contract only. It leaves what the contract makes of the change, or, if the
      contract refuses, what was there. */
  ghost predicate Writes<S>(x: Executor<S>, m: Meaning<S>, s: S, key: ContractKey, change: Upsert, related: Blob,
                            contract: Option<ContractContainer>) {
    var (t, r) := x.upsert(s, key, change, related, contract);
    && m.listeners(t) <= m.listeners(s)
    && (forall id :: id != key.id ==> Kept(x, m, s, t, id) && (Known(x, t, id) ==> Known(x, s, id)))
    && (match m.merge(s, key, change, related, contract)
        case Ok(v) => Holds(x, m, t, key.id, v) && Reports(m.value(s, key.id), v, r)
        case Err(error) => r == Err(error) && Kept(x, m, s, t, key.id))
  }

  /** Registering a listener adds it unless a limit is reached, a disconnect removes all of a client's. */
  ghost predicate Books<S>(x: Executor<S>, m: Meaning<S>, h: Host<S>, e: Event) {
    var s, t := h.store, x.bookkeeping(h, e).store;
    && (forall id :: Kept(x, m, s, t, id) && (Known(x, t, id) ==> Known(x, s, id)))
    && (match e
        case RegisterSubscriberListener(id, c) =>
          m.listeners(s) <= m.listeners(t) <= m.listeners(s) + {(id, c)}
        case ClientDisconnect(c) => m.listeners(t) == set p <- m.listeners(s) | p.1 != c
        case _ => m.listeners(t) <= m.listeners(s))
  }

  /** An executor that keeps its word. Running a delegate is left open: it may write any contract,
      but it adds no listener. */
  ghost predicate Lawful<S(!new)>(x: Executor<S>, m: Meaning<S>) {
    && (forall s, id :: Known(x, s, id) ==> x.lookup(s, id).value.id == id)
    && (forall s, key, code :: Reads(x, m, s, key, code))
    && (forall s, key, change, related, contract :: Writes(x, m, s, key, change, related, contract))
    && (forall s, key :: Unchanged(x, m, s, x.summarize(s, key).0) && x.summarize(s, key).1 == m.summary(s, key))
    && (forall s, key, summary ::
          Unchanged(x, m, s, x.delta(s, key, summary).0) && x.delta(s, key, summary).1 == m.difference(s, key, summary))
    && (forall h: Host<S>, e :: Books(x, m, h, e))
    && (forall h: Host<S>, req, origin :: m.listeners(x.run(h, req, origin).0.store) <= m.listeners(h.store))
  }

  /** A state update replaces the state and a delta changes it; nothing else is an update. */
  function AsUpsert(data: UpdateData): Option<Upsert> {
    match data
    case UpdateState(state) => Some(FullState(state))
    case UpdateDelta(delta) => Some(Delta(delta))
    case UpdateCompound(_) => None
  }

  // ---------------------------------------------------------------- one request of a delegate

  /** The contract a request would write. */
  function WriteTarget(m: OutboundDelegateMsg): Option<ContractInstanceId> {
    match m
    case PutContractRequest(contract, _, _, _) => Some(contract.key.id)
    case UpdateContractRequest(id, _, _) => Some(id)
    case _ => None
  }

  /** What a reply reports. */
  function Report(reply: InboundDelegateMsg): Result<(), string> {
    match reply
    case PutContractResponse(_, result, _) => result
    case UpdateContractResponse(_, result, _) => result
    case SubscribeContractResponse(_, result, _) => result
    case _ => Err("")
  }

  /** What the contract makes of the request, or why nothing comes of it. */
  function Made<S>(x: Executor<S>, m: Meaning<S>, s: S, req: OutboundDelegateMsg): Result<Blob, string> {
    match req
    case PutContractRequest(contract, state, related, _) =>
      Told(m.merge(s, contract.key, FullState(state), related, Some(contract)))
    case UpdateContractRequest(id, data, _) =>
      if !Known(x, s, id) then Err("Contract not found")
      else if AsUpsert(data).None? then Err("Unsupported UpdateData variant")
      else Told(m.merge(s, x.lookup(s, id).value, AsUpsert(data).value, [], None))
    case _ => Err("")
  }

  function Told(r: Result<Blob, ExecutorError>): Result<Blob, string> {
    match r
    case Ok(v) => Ok(v)
    case Err(error) => Err(error.cause)
  }

  /** A put or update is granted exactly when the contract accepts the change, and then it is what the store
      holds; otherwise the store keeps what it had. Nothing else changes a contract. */
  lemma {:induction false} ServedWrite<S(!new)>(x: Executor<S>, m: Meaning<S>, h: Host<S>, me: DelegateKey, req: OutboundDelegateMsg)
    requires Lawful(x, m) && IsContractRequest(req)
    ensures var (w, reply) := Serve(x, h, me, req);
            && (forall id: ContractInstanceId :: Some(id) != WriteTarget(req) ==> Kept(x, m, h.store, w.store, id))
            && (WriteTarget(req).Some? ==>
                  var id, made := WriteTarget(req).value, Made(x, m, h.store, req);
                  && Report(reply) == (if made.Ok? then Ok(()) else Err(made.error))
                  && (if made.Ok? then Holds(x, m, w.store, id, made.value) else Kept(x, m, h.store, w.store, id)))
  {
    match req
    case PutContractRequest(contract, state, related, _) =>
      assert Writes(x, m, h.store, contract.key, FullState(state), related, Some(contract));
    case GetContractRequest(id, _) =>
      if Known(x, h.store, id) {
        assert Reads(x, m, h.store, x.lookup(h.store, id).value, false);
      }
    case UpdateContractRequest(id, data, _) =>
      if Known(x, h.store, id) && AsUpsert(data).Some? {
        assert Writes(x, m, h.store, x.lookup(h.store, id).value, AsUpsert(data).value, [], None);
      }
    case _ =>
  }

  /** A get is answered with the state on record, or with nothing when the contract is unknown or its state
      cannot be read. */
  lemma {:induction false} ServedGet<S(!new)>(x: Executor<S>, m: Meaning<S>, h: Host<S>, me: DelegateKey, req: OutboundDelegateMsg)
    requires Lawful(x, m) && req.GetContractRequest?
    ensures var id, reply := req.contractId, Serve(x, h, me, req).1;
            reply.GetContractResponse? &&
            reply.state == if Readable(x, m, h.store, id) then m.value(h.store, id) else None
  {
    if Known(x, h.store, req.contractId) {
      assert Reads(x, m, h.store, x.lookup(h.store, req.contractId).value, false);
    }
  }

  predicate Readable<S>(x: Executor<S>, m: Meaning<S>, s: S, id: ContractInstanceId) {
    Known(x, s, id) && m.unreadable(s, x.lookup(s, id).value, false).None?
  }

  // ---------------------------------------------------------------- a whole round

  predicate Requests(ms: seq<OutboundDelegateMsg>) {
    forall m <- ms :: IsContractRequest(m)
  }

  /** Request `i` of a batch writes the contract and is granted. */
  predicate WritesAt<S>(x: Executor<S>, h: Host<S>, me: DelegateKey, ms: seq<OutboundDelegateMsg>, i: nat, id: ContractInstanceId)
    requires Requests(ms) && i < |ms|
  {
    WriteTarget(ms[i]) == Some(id) && Report(ServeAll(x, h, me, ms).1[i]).Ok?
  }

  /** The store when request `i` of a batch is served. */
  function StoreAt<S>(x: Executor<S>, h: Host<S>, me: DelegateKey, ms: seq<OutboundDelegateMsg>, i: nat): S
    requires Requests(ms) && i <= |ms|
  {
    ServeAll(x, h, me, ms[..i]).0.store
  }

  /** Request `i` of a batch is served as it would be alone, on what the earlier ones left. */
  lemma {:induction false} ServedInTurn<S>(x: Executor<S>, h: Host<S>, me: DelegateKey, ms: seq<OutboundDelegateMsg>, i: nat)
    requires Requests(ms) && i < |ms|
    ensures ServeAll(x, h, me, ms).1[i] == Serve(x, ServeAll(x, h, me, ms[..i]).0, me, ms[i]).1
    ensures ServeAll(x, h, me, ms[..i + 1]).0 == Serve(x, ServeAll(x, h, me, ms[..i]).0, me, ms[i]).0
    ensures ServeAll(x, h, me, ms[..i + 1]).1 == ServeAll(x, h, me, ms).1[..i + 1]
  {
    hide Serve;
    var a, b := ms[..i + 1], ms[i + 1..];
    assert ms == a + b && a[..i] == ms[..i];
    ServeAllSplit(x, h, me, a, b);
  }

  /** A contract no request of the batch has written keeps its state. */
  lemma {:induction false} UnwrittenIsKept<S(!new)>(x: Executor<S>, m: Meaning<S>, h: Host<S>, me: DelegateKey,
                                                    ms: seq<OutboundDelegateMsg>, lo: nat, hi: nat, id: ContractInstanceId)
    requires Lawful(x, m) && Requests(ms) && lo <= hi <= |ms|
    requires forall i :: lo <= i < hi ==> !WritesAt(x, h, me, ms, i, id)
    ensures Kept(x, m, StoreAt(x, h, me, ms, lo), StoreAt(x, h, me, ms, hi), id)
    decreases hi
  {
    hide Lawful, Serve, ServeAll, Report, WriteTarget, Made;
    if lo < hi {
      UnwrittenIsKept(x, m, h, me, ms, lo, hi - 1, id);
      assert !WritesAt(x, h, me, ms, hi - 1, id);
      var before := ServeAll(x, h, me, ms[..hi - 1]).0;
      ServedInTurn(x, h, me, ms, hi - 1);
      ServedWrite(x, m, before, me, ms[hi - 1]);
      assert Kept(x, m, before.store, Serve(x, before, me, ms[hi - 1]).0.store, id);
    }
  }

  /** The last granted write of a contract in a batch is what its store holds afterwards. */
  lemma {:induction false} LastWriteStands<S(!new)>(x: Executor<S>, m: Meaning<S>, h: Host<S>, me: DelegateKey,
                                                    ms: seq<OutboundDelegateMsg>, i: nat, hi: nat, id: ContractInstanceId)
    requires Lawful(x, m) && Requests(ms) && i < hi <= |ms| && WritesAt(x, h, me, ms, i, id)
    requires forall j :: i < j < hi ==> !WritesAt(x, h, me, ms, j, id)
    ensures var made := Made(x, m, StoreAt(x, h, me, ms, i), ms[i]);
            made.Ok? && Holds(x, m, StoreAt(x, h, me, ms, hi), id, made.value)
  {
    hide Lawful, Serve, ServeAll, Report, WriteTarget, Made;
    ServedInTurn(x, h, me, ms, i);
    ServedWrite(x, m, ServeAll(x, h, me, ms[..i]).0, me, ms[i]);
    UnwrittenIsKept(x, m, h, me, ms, i + 1, hi, id);
  }

  /** Request `i` is the last granted write of the contract before request `hi`. */
  ghost predicate LastWrite<S>(x: Executor<S>, h: Host<S>, me: DelegateKey, ms: seq<OutboundDelegateMsg>, i: nat, hi: nat,
                               id: ContractInstanceId)
    requires Requests(ms) && hi <= |ms|
  {
    i < hi && WritesAt(x, h, me, ms, i, id) && forall j :: i < j < hi ==> !WritesAt(x, h, me, ms, j, id)
  }

  /** A get of a round is answered with what the round's last granted put of the contract left, and with what
      was there before the round if there was none; the round's updates come later. */
  lemma {:induction false} RoundGetSeesPuts<S(!new)>(x: Executor<S>, m: Meaning<S>, h: Host<S>, me: DelegateKey,
                                                     values: seq<OutboundDelegateMsg>, g: nat)
    requires Lawful(x, m) && g < |Ordered(values)| && Ordered(values)[g].GetContractRequest?
    ensures var ms := Ordered(values);
            var id, reply, s := ms[g].contractId, ServeAll(x, h, me, ms).1[g], StoreAt(x, h, me, ms, g);
            && reply.GetContractResponse? && reply.state == (if Readable(x, m, s, id) then m.value(s, id) else None)
            && (forall i: nat :: LastWrite(x, h, me, ms, i, g, id) ==>
                                   ms[i].PutContractRequest? && Ok(m.value(s, id)) == Left(Made(x, m, StoreAt(x, h, me, ms, i), ms[i])))
            && ((forall i: nat :: !LastWrite(x, h, me, ms, i, g, id)) ==> m.value(s, id) == m.value(h.store, id))
  {
    hide Lawful, Serve, ServeAll, Report, WriteTarget, Made, Ordered, Readable;
    var ms := Ordered(values);
    var id, s := ms[g].contractId, StoreAt(x, h, me, ms, g);
    ServedInTurn(x, h, me, ms, g);
    ServedGet(x, m, ServeAll(x, h, me, ms[..g]).0, me, ms[g]);
    OrderedIsStableSort(values);
    forall i: nat | LastWrite(x, h, me, ms, i, g, id)
      ensures ms[i].PutContractRequest? && Ok(m.value(s, id)) == Left(Made(x, m, StoreAt(x, h, me, ms, i), ms[i]))
    {
      LastWriteStands(x, m, h, me, ms, i, g, id);
      PutBeforeGet(ms, i, g, id);
    }
    if forall i: nat :: !LastWrite(x, h, me, ms, i, g, id) {
      NoLastWrite(x, h, me, ms, g, id);
      UnwrittenIsKept(x, m, h, me, ms, 0, g, id);
      NothingServed(x, h, me, ms);
    }
  }

  function Left(made: Result<Blob, string>): Result<Option<Blob>, string> {
    if made.Ok? then Ok(Some(made.value)) else Err(made.error)
  }

  lemma {:induction false} PutBeforeGet(ms: seq<OutboundDelegateMsg>, i: nat, g: nat, id: ContractInstanceId)
    requires i < g < |ms| && WriteTarget(ms[i]) == Some(id) && ms[g].GetContractRequest?
    requires Rank(ClassOf(ms[i])) <= Rank(ClassOf(ms[g]))
    ensures ms[i].PutContractRequest?
  {
  }

  lemma {:induction false} NothingServed<S>(x: Executor<S>, h: Host<S>, me: DelegateKey, ms: seq<OutboundDelegateMsg>)
    requires Requests(ms)
    ensures StoreAt(x, h, me, ms, 0) == h.store
  {
  }

  lemma {:induction false} NoLastWrite<S>(x: Executor<S>, h: Host<S>, me: DelegateKey, ms: seq<OutboundDelegateMsg>, hi: nat,
                                          id: ContractInstanceId)
    requires Requests(ms) && hi <= |ms| && forall i: nat :: !LastWrite(x, h, me, ms, i, hi, id)
    ensures forall i :: 0 <= i < hi ==> !WritesAt(x, h, me, ms, i, id)
  {
    hide WritesAt;
    var n := hi;
    while n > 0
      invariant 0 <= n <= hi && forall i :: n <= i < hi ==> !WritesAt(x, h, me, ms, i, id)
    {
      assert !LastWrite(x, h, me, ms, n - 1, hi, id);
      n := n - 1;
    }
  }

  // ---------------------------------------------------------------- subscriptions

  predicate Registered<S>(h: Host<S>, d: DelegateKey, id: ContractInstanceId) {
    id in h.subscriptions && d in h.subscriptions[id]
  }

  predicate SubscribesTo(m: OutboundDelegateMsg, id: ContractInstanceId) {
    m.SubscribeContractRequest? && m.contractId == id
  }

  /** A subscription is granted exactly when the contract is known, and registers the asking delegate; no other
      request registers anybody, and none takes a registration back. */
  lemma {:induction false} ServedSubscribe<S>(x: Executor<S>, h: Host<S>, me: DelegateKey, req: OutboundDelegateMsg,
                                              d: DelegateKey, id: ContractInstanceId)
    requires IsContractRequest(req)
    ensures var (w, reply) := Serve(x, h, me, req);
            && (SubscribesTo(req, id) ==> Report(reply) == if Known(x, h.store, id) then Ok(()) else Err("Contract not found"))
            && (Registered(w, d, id) <==> Registered(h, d, id) || (d == me && SubscribesTo(req, id) && Report(reply).Ok?))
  {
  }

  /** After a batch a delegate is registered for a contract exactly when it was before, or it is the one that
      asked and some subscription for the contract was granted. */
  lemma {:induction false} SubscribedIff<S>(x: Executor<S>, h: Host<S>, me: DelegateKey, ms: seq<OutboundDelegateMsg>,
                                            d: DelegateKey, id: ContractInstanceId)
    requires Requests(ms)
    ensures var (w, replies) := ServeAll(x, h, me, ms);
            Registered(w, d, id) <==>
              Registered(h, d, id) || (d == me && exists i :: 0 <= i < |ms| && SubscribesTo(ms[i], id) && Report(replies[i]).Ok?)
    decreases |ms|
  {
    hide Serve, Report, SubscribesTo, Registered;
    if ms != [] {
      var before, last := ms[..|ms| - 1], ms[|ms| - 1];
      SubscribedIff(x, h, me, before, d, id);
      ServedSubscribe(x, ServeAll(x, h, me, before).0, me, last, d, id);
      var earlier, replies := ServeAll(x, h, me, before).1, ServeAll(x, h, me, ms).1;
      assert forall i :: 0 <= i < |before| ==> before[i] == ms[i] && earlier[i] == replies[i];
    }
  }

  /** And a subscription of the batch is granted exactly when the contract is known when its turn comes. */
  lemma {:induction false} GrantedIffKnown<S>(x: Executor<S>, h: Host<S>, me: DelegateKey, ms: seq<OutboundDelegateMsg>, i: nat)
    requires Requests(ms) && i < |ms| && ms[i].SubscribeContractRequest?
    ensures Report(ServeAll(x, h, me, ms).1[i]).Ok? <==> Known(x, StoreAt(x, h, me, ms, i), ms[i].contractId)
  {
    hide Serve, ServeAll, Report;
    ServedInTurn(x, h, me, ms, i);
    ServedSubscribe(x, ServeAll(x, h, me, ms[..i]).0, me, ms[i], me, ms[i].contractId);
  }

  // ---------------------------------------------------------------- whole conversations

  /** Running delegates leaves the contract alone: none writes it from within. */
  ghost predicate Aloof<S(!new)>(x: Executor<S>, m: Meaning<S>, id: ContractInstanceId) {
    forall h: Host<S>, req, origin :: Kept(x, m, h.store, x.run(h, req, origin).0.store, id)
  }

  /** The round asked for a write of the contract and was granted it. */
  predicate RoundWrites(r: Round, id: ContractInstanceId) {
    var ms := Ordered(r.values);
    |r.replies| == |ms| && exists i :: 0 <= i < |ms| && WriteTarget(ms[i]) == Some(id) && Report(r.replies[i]).Ok?
  }

  /** No delegate writes the contract in the conversation. */
  ghost predicate Spared<S(!new)>(x: Executor<S>, m: Meaning<S>, h: Host<S>, req: DelegateRequest,
                                  origin: Option<ContractInstanceId>, me: DelegateKey, id: ContractInstanceId) {
    && Aloof(x, m, id)
    && forall r <- Converse(x, h, req, origin, me, ParamsOf(req), MAX_CONTRACT_REQUEST_ITERATIONS).1 :: !RoundWrites(r, id)
  }

  lemma {:induction false} RelayKeeps<S(!new)>(x: Executor<S>, m: Meaning<S>, h: Host<S>, sends: seq<OutboundDelegateMsg>,
                                               id: ContractInstanceId)
    requires Aloof(x, m, id) && forall s <- sends :: ClassOf(s) == Send
    ensures Kept(x, m, h.store, Relay(x, h, sends).0.store, id)
    decreases |sends|
  {
    hide ClassOf;
    if sends != [] {
      RelayKeeps(x, m, h, sends[..|sends| - 1], id);
    }
  }

  lemma {:induction false} TurnKeeps<S(!new)>(x: Executor<S>, m: Meaning<S>, h: Host<S>, req: DelegateRequest,
      origin: Option<ContractInstanceId>, me: DelegateKey, id: ContractInstanceId)
    requires Lawful(x, m) && Aloof(x, m, id) && !RoundWrites(Turn(x, h, req, origin, me).1, id)
    ensures Kept(x, m, h.store, Turn(x, h, req, origin, me).0.store, id)
  {
    hide Lawful, ServeAll, Relay, Ordered, Pick, Report, WriteTarget;
    var (h1, response) := x.run(h, req, origin);
    if Values(response).Some? && !Quiet(Values(response).value) {
      var values := Values(response).value;
      var ms := Ordered(values);
      var (h2, replies) := ServeAll(x, h1, me, ms);
      forall i | 0 <= i < |ms| ensures !WritesAt(x, h1, me, ms, i, id) {
        assert WriteTarget(ms[i]) != Some(id) || !Report(replies[i]).Ok?;
      }
      UnwrittenIsKept(x, m, h1, me, ms, 0, |ms|, id);
      NothingServed(x, h1, me, ms);
      assert ms[..|ms|] == ms;
      RelayKeeps(x, m, h2, Pick(Send, values), id);
    }
  }

  /** A conversation in which no delegate writes the contract leaves it as it was. */
  lemma {:induction false} ConverseKeeps<S(!new)>(x: Executor<S>, m: Meaning<S>, h: Host<S>, req: DelegateRequest,
      origin: Option<ContractInstanceId>, me: DelegateKey, params: Blob, left: nat, id: ContractInstanceId)
    requires Lawful(x, m) && Aloof(x, m, id)
    requires forall r <- Converse(x, h, req, origin, me, params, left).1 :: !RoundWrites(r, id)
    ensures Kept(x, m, h.store, Converse(x, h, req, origin, me, params, left).0.store, id)
    decreases left
  {
    hide Lawful, Aloof, Turn, Quiet, RoundWrites;
    if left > 0 {
      var (h1, r) := Turn(x, h, req, origin, me);
      var rounds := Converse(x, h, req, origin, me, params, left).1;
      assert r == rounds[0];
      TurnKeeps(x, m, h, req, origin, me, id);
      if !Quiet(r.values) {
        var next := ApplicationMessages(me, params, r.replies);
        var rest := Converse(x, h1, next, origin, me, params, left - 1).1;
        assert rounds == [r] + rest;
        forall q <- rest ensures !RoundWrites(q, id) {
          assert q in rounds;
        }
        ConverseKeeps(x, m, h1, next, origin, me, params, left - 1, id);
      }
    }
  }

  lemma {:induction false} SparedIsKept<S(!new)>(x: Executor<S>, m: Meaning<S>, h: Host<S>, req: DelegateRequest,
      origin: Option<ContractInstanceId>, me: DelegateKey, id: ContractInstanceId)
    requires Lawful(x, m) && Spared(x, m, h, req, origin, me, id)
    ensures Kept(x, m, h.store, Conversation(x, h, req, origin, me).0.store, id)
  {
    hide Lawful, Aloof, Converse, RoundWrites;
    ConverseKeeps(x, m, h, req, origin, me, ParamsOf(req), MAX_CONTRACT_REQUEST_ITERATIONS, id);
  }

  // ---------------------------------------------------------------- listeners

  /** The listeners after an event is booked, if no limit is reached. */
  function Booked(listeners: set<(ContractInstanceId, ClientId)>, e: Event): set<(ContractInstanceId, ClientId)> {
    match e
    case RegisterSubscriberListener(id, c) => listeners + {(id, c)}
    case ClientDisconnect(c) => set p <- listeners | p.1 != c
    case _ => listeners
  }

  /** Registrations meet no limit and no channel closes: only a disconnect removes a listener. */
  ghost predicate Generous<S(!new)>(x: Executor<S>, m: Meaning<S>) {
    && (forall h: Host<S>, e :: m.listeners(x.bookkeeping(h, e).store) == Booked(m.listeners(h.store), e))
    && (forall h: Host<S>, req, origin :: m.listeners(x.run(h, req, origin).0.store) == m.listeners(h.store))
    && (forall s, key, code :: m.listeners(x.fetch(s, key, code).0) == m.listeners(s))
    && (forall s, key, change, related, contract :: m.listeners(x.upsert(s, key, change, related, contract).0) == m.listeners(s))
    && (forall s, key :: m.listeners(x.summarize(s, key).0) == m.listeners(s))
    && (forall s, key, summary :: m.listeners(x.delta(s, key, summary).0) == m.listeners(s))
  }

  /** `a` is at most `b`, and all of it if the executor is generous. */
  ghost predicate AtMost<S(!new)>(x: Executor<S>, m: Meaning<S>, a: set<(ContractInstanceId, ClientId)>,
                                  b: set<(ContractInstanceId, ClientId)>) {
    a <= b && (Generous(x, m) ==> a == b)
  }

  lemma {:induction false} ServeAllListeners<S(!new)>(x: Executor<S>, m: Meaning<S>, h: Host<S>, me: DelegateKey,
                                                      ms: seq<OutboundDelegateMsg>)
    requires Lawful(x, m) && Requests(ms)
    ensures AtMost(x, m, m.listeners(ServeAll(x, h, me, ms).0.store), m.listeners(h.store))
    decreases |ms|
  {
    hide Lawful, Generous, Serve;
    if ms != [] {
      ServeAllListeners(x, m, h, me, ms[..|ms| - 1]);
      ServeListeners(x, m, ServeAll(x, h, me, ms[..|ms| - 1]).0, me, ms[|ms| - 1]);
    }
  }

  lemma {:induction false} ServeListeners<S(!new)>(x: Executor<S>, m: Meaning<S>, h: Host<S>, me: DelegateKey, req: OutboundDelegateMsg)
    requires Lawful(x, m) && IsContractRequest(req)
    ensures AtMost(x, m, m.listeners(Serve(x, h, me, req).0.store), m.listeners(h.store))
  {
    match req
    case PutContractRequest(contract, state, related, _) =>
      assert Writes(x, m, h.store, contract.key, FullState(state), related, Some(contract));
    case GetContractRequest(id, _) =>
      if Known(x, h.store, id) {
        assert Reads(x, m, h.store, x.lookup(h.store, id).value, false);
      }
    case UpdateContractRequest(id, data, _) =>
      if Known(x, h.store, id) && AsUpsert(data).Some? {
        assert Writes(x, m, h.store, x.lookup(h.store, id).value, AsUpsert(data).value, [], None);
      }
    case _ =>
  }

  lemma {:induction false} RunListeners<S(!new)>(x: Executor<S>, m: Meaning<S>, h: Host<S>, req: DelegateRequest, origin: Option<ContractInstanceId>)
    requires Lawful(x, m)
    ensures AtMost(x, m, m.listeners(x.run(h, req, origin).0.store), m.listeners(h.store))
  {
  }

  lemma {:induction false} RelayListeners<S(!new)>(x: Executor<S>, m: Meaning<S>, h: Host<S>, sends: seq<OutboundDelegateMsg>)
    requires Lawful(x, m) && forall s <- sends :: ClassOf(s) == Send
    ensures AtMost(x, m, m.listeners(Relay(x, h, sends).0.store), m.listeners(h.store))
    decreases |sends|
  {
    hide Lawful, Generous, ClassOf, Delivery;
    if sends != [] {
      RelayListeners(x, m, h, sends[..|sends| - 1]);
      RunListeners(x, m, Relay(x, h, sends[..|sends| - 1]).0, Delivery(sends[|sends| - 1]), None);
    }
  }

  lemma {:induction false} TurnListeners<S(!new)>(x: Executor<S>, m: Meaning<S>, h: Host<S>, req: DelegateRequest,
      origin: Option<ContractInstanceId>, me: DelegateKey)
    requires Lawful(x, m)
    ensures AtMost(x, m, m.listeners(Turn(x, h, req, origin, me).0.store), m.listeners(h.store))
  {
    hide Lawful, Generous, ServeAll, Relay, Ordered, Pick;
    var (h1, response) := x.run(h, req, origin);
    RunListeners(x, m, h, req, origin);
    if Values(response).Some? && !Quiet(Values(response).value) {
      var values := Values(response).value;
      ServeAllListeners(x, m, h1, me, Ordered(values));
      RelayListeners(x, m, ServeAll(x, h1, me, Ordered(values)).0, Pick(Send, values));
    }
  }

  /** No conversation adds a listener. */
  lemma {:induction false} ConverseListeners<S(!new)>(x: Executor<S>, m: Meaning<S>, h: Host<S>, req: DelegateRequest,
      origin: Option<ContractInstanceId>, me: DelegateKey, params: Blob, left: nat)
    requires Lawful(x, m)
    ensures AtMost(x, m, m.listeners(Converse(x, h, req, origin, me, params, left).0.store), m.listeners(h.store))
    decreases left
  {
    hide Lawful, Generous, Turn, Quiet;
    if left > 0 {
      TurnListeners(x, m, h, req, origin, me);
      var (h1, r) := Turn(x, h, req, origin, me);
      if !Quiet(r.values) {
        ConverseListeners(x, m, h1, ApplicationMessages(me, params, r.replies), origin, me, params, left - 1);
      }
    }
  }
}
