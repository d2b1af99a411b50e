/** Running a delegate: its outputs are sorted into classes, contract requests are served against the
    store, messages to other delegates are delivered, and the replies go back to the delegate, for at
    most 100 executions. The executor and every delegate are arbitrary. */
module DelegateLoop {
  import opened Messages

  const MAX_CONTRACT_REQUEST_ITERATIONS: nat := 100

  datatype HostResponse = DelegateValues(values: seq<OutboundDelegateMsg>) | HostOk | HostOther

  /** What the executor owns: its store `S`, and the global registry of delegate subscriptions. */
  datatype Host<S> = Host(store: S, subscriptions: map<ContractInstanceId, set<DelegateKey>>)

  /** The executor as an interface over an arbitrary store. Running a delegate may change everything. */
  datatype Executor<!S> = Executor(
    lookup: (S, ContractInstanceId) -> Option<ContractKey>,
    fetch: (S, ContractKey, bool) -> (S, Result<StoreResponse, ExecutorError>),
    upsert: (S, ContractKey, Upsert, Blob, Option<ContractContainer>) -> (S, Result<UpsertResult, ExecutorError>),
    run: (Host<S>, DelegateRequest, Option<ContractInstanceId>) -> (Host<S>, Result<HostResponse, ExecutorError>),
    summarize: (S, ContractKey) -> (S, Result<Blob, ExecutorError>),
    delta: (S, ContractKey, Blob) -> (S, Result<Blob, ExecutorError>),
    bookkeeping: (Host<S>, Event) -> Host<S>)

  /** The classes outputs are sorted into; `Own` is what the delegate says to its client. */
  datatype Class = Put | Get | Update | Subscribe | Send | Own

  function ClassOf(m: OutboundDelegateMsg): Class {
    match m
    case PutContractRequest(_, _, _, _) => Put
    case GetContractRequest(_, _) => Get
    case UpdateContractRequest(_, _, _) => Update
    case SubscribeContractRequest(_, _) => Subscribe
    case SendDelegateMessage(_, _) => Send
    case ApplicationMessage(_) => Own
    case RequestUserInput(_) => Own
    case ContextUpdated(_) => Own
  }

  predicate IsContractRequest(m: OutboundDelegateMsg) { ClassOf(m) != Send && ClassOf(m) != Own }

  /** The messages of one class, in the order they were emitted. */
  function Pick(c: Class, s: seq<OutboundDelegateMsg>): (r: seq<OutboundDelegateMsg>)
    ensures forall m <- r :: m in s && ClassOf(m) == c
  {
    if s == [] then [] else
    var last := s[|s| - 1];
    Pick(c, s[..|s| - 1]) + (if ClassOf(last) == c then [last] else [])
  }

  // ---------------------------------------------------------------- one request

  function Outcome<T>(r: Result<T, ExecutorError>): Result<(), string> {
    if r.Ok? then Ok(()) else Err(r.error.cause)
  }

  /** Serving one contract request of delegate `me`: the new host and the reply. */
  function Serve<S>(x: Executor<S>, h: Host<S>, me: DelegateKey, m: OutboundDelegateMsg): (Host<S>, InboundDelegateMsg)
    requires IsContractRequest(m)
  {
    match m
    case PutContractRequest(contract, state, related, context) =>
      var (store, r) := x.upsert(h.store, contract.key, FullState(state), related, Some(contract));
      (h.(store := store), PutContractResponse(contract.key.id, Outcome(r), context))
    case GetContractRequest(id, context) =>
      (match x.lookup(h.store, id)
       case None => (h, GetContractResponse(id, None, context))
       case Some(key) =>
         var (store, r) := x.fetch(h.store, key, false);
         (h.(store := store), GetContractResponse(id, if r.Ok? then r.value.state else None, context)))
    case UpdateContractRequest(id, update, context) =>
      if x.lookup(h.store, id).None? then
        (h, UpdateContractResponse(id, Err("Contract not found"), context))
      else if update.UpdateCompound? then
        (h, UpdateContractResponse(id, Err("Unsupported UpdateData variant"), context))
      else
        var change := if update.UpdateState? then FullState(update.state) else Delta(update.delta);
        var (store, r) := x.upsert(h.store, x.lookup(h.store, id).value, change, [], None);
        (h.(store := store), UpdateContractResponse(id, Outcome(r), context))
    case SubscribeContractRequest(id, context) =>
      if x.lookup(h.store, id).None? then
        (h, SubscribeContractResponse(id, Err("Contract not found"), context))
      else
        var now := (if id in h.subscriptions then h.subscriptions[id] else {}) + {me};
        (h.(subscriptions := h.subscriptions[id := now]), SubscribeContractResponse(id, Ok(()), context))
  }

  /** Serving requests one at a time, in the order given. */
  function ServeAll<S>(x: Executor<S>, h: Host<S>, me: DelegateKey, ms: seq<OutboundDelegateMsg>)
    : (r: (Host<S>, seq<InboundDelegateMsg>))
    requires forall m <- ms :: IsContractRequest(m)
    ensures |r.1| == |ms|
  {
    if ms == [] then (h, []) else
    var (h1, replies) := ServeAll(x, h, me, ms[..|ms| - 1]);
    var (h2, reply) := Serve(x, h1, me, ms[|ms| - 1]);
    (h2, replies + [reply])
  }

  lemma {:induction false} ServeAllSplit<S>(x: Executor<S>, h: Host<S>, me: DelegateKey,
                                            a: seq<OutboundDelegateMsg>, b: seq<OutboundDelegateMsg>)
    requires forall m <- a :: IsContractRequest(m)
    requires forall m <- b :: IsContractRequest(m)
    ensures var (ha, ra) := ServeAll(x, h, me, a);
            var (hb, rb) := ServeAll(x, ha, me, b);
            ServeAll(x, h, me, a + b) == (hb, ra + rb)
  {
    if b == [] {
      var (ha, ra) := ServeAll(x, h, me, a);
      assert a + b == a && ra + [] == ra;
    } else {
      var b' := b[..|b| - 1];
      assert (a + b)[..|a + b| - 1] == a + b' && (a + b)[|a + b| - 1] == b[|b| - 1];
      ServeAllSplit(x, h, me, a, b');
      var (ha, ra) := ServeAll(x, h, me, a);
      var (hb', rb') := ServeAll(x, ha, me, b');
      var (hb, reply) := Serve(x, hb', me, b[|b| - 1]);
      assert ra + (rb' + [reply]) == (ra + rb') + [reply];
    }
  }

  /** A reply answers a request when it is of the same kind and names its contract and context. */
  predicate Answers(reply: InboundDelegateMsg, m: OutboundDelegateMsg) {
    match m
    case PutContractRequest(contract, _, _, context) =>
      reply.PutContractResponse? && reply.contractId == contract.key.id && reply.context == context
    case GetContractRequest(id, context) =>
      reply.GetContractResponse? && reply.contractId == id && reply.context == context
    case UpdateContractRequest(id, _, context) =>
      reply.UpdateContractResponse? && reply.contractId == id && reply.context == context
    case SubscribeContractRequest(id, context) =>
      reply.SubscribeContractResponse? && reply.contractId == id && reply.context == context
    case _ => false
  }

  lemma ReplyAnswers<S>(x: Executor<S>, h: Host<S>, me: DelegateKey, m: OutboundDelegateMsg)
    requires IsContractRequest(m)
    ensures Answers(Serve(x, h, me, m).1, m)
  {
  }

  /** Exactly one reply per request, in the same order, on every error path. */
  lemma {:induction false} OneReplyPerRequest<S>(x: Executor<S>, h: Host<S>, me: DelegateKey, ms: seq<OutboundDelegateMsg>)
    requires forall m <- ms :: IsContractRequest(m)
    ensures |ServeAll(x, h, me, ms).1| == |ms|
    ensures forall i :: 0 <= i < |ms| ==> Answers(ServeAll(x, h, me, ms).1[i], ms[i])
  {
    if ms != [] {
      var ms' := ms[..|ms| - 1];
      OneReplyPerRequest(x, h, me, ms');
      ReplyAnswers(x, ServeAll(x, h, me, ms').0, me, ms[|ms| - 1]);
    }
  }

  // ---------------------------------------------------------------- the order of one round

  /** The contract requests of a round in the order they are served. */
  function Ordered(values: seq<OutboundDelegateMsg>): (r: seq<OutboundDelegateMsg>)
    ensures forall m <- r :: IsContractRequest(m)
  {
    Pick(Put, values) + Pick(Get, values) + Pick(Update, values) + Pick(Subscribe, values)
  }

  function Rank(c: Class): nat {
    match c
    case Put => 0
    case Get => 1
    case Update => 2
    case Subscribe => 3
    case Send => 4
    case Own => 5
  }

  lemma {:induction false} PickCount(c: Class, s: seq<OutboundDelegateMsg>, m: OutboundDelegateMsg)
    ensures multiset(Pick(c, s))[m] == if ClassOf(m) == c then multiset(s)[m] else 0
  {
    hide ClassOf;
    if s != [] {
      var before, last := s[..|s| - 1], s[|s| - 1];
      PickCount(c, before, m);
      assert s == before + [last];
      CountNext(before, last, m);
      CountNext(Pick(c, before), last, m);
      PickSnoc(c, before, last);
      hide Pick;
    }
  }

  lemma {:induction false} CountNext(s: seq<OutboundDelegateMsg>, last: OutboundDelegateMsg, m: OutboundDelegateMsg)
    ensures multiset(s + [last])[m] == multiset(s)[m] + if last == m then 1 else 0
  {
  }

  lemma {:induction false} PickSnoc(c: Class, s: seq<OutboundDelegateMsg>, last: OutboundDelegateMsg)
    ensures Pick(c, s + [last]) == if ClassOf(last) == c then Pick(c, s) + [last] else Pick(c, s)
  {
    hide ClassOf;
    assert (s + [last])[..|s|] == s;
  }

  lemma {:induction false} PickSplit(c: Class, a: seq<OutboundDelegateMsg>, b: seq<OutboundDelegateMsg>)
    ensures Pick(c, a + b) == Pick(c, a) + Pick(c, b)
  {
    if b == [] {
      assert a + b == a;
    } else {
      assert (a + b)[..|a + b| - 1] == a + b[..|b| - 1];
      PickSplit(c, a, b[..|b| - 1]);
    }
  }

  lemma {:induction false} PickPure(c: Class, d: Class, s: seq<OutboundDelegateMsg>)
    requires forall m <- s :: ClassOf(m) == d
    ensures Pick(c, s) == if c == d then s else []
  {
    hide ClassOf;
    if s != [] {
      var before, last := s[..|s| - 1], s[|s| - 1];
      PickPure(c, d, before);
      assert s == before + [last] && ClassOf(last) == d;
    }
  }

  lemma OrderedCount(values: seq<OutboundDelegateMsg>, m: OutboundDelegateMsg)
    ensures multiset(Ordered(values))[m] == if IsContractRequest(m) then multiset(values)[m] else 0
  {
    PickCount(Put, values, m);
    PickCount(Get, values, m);
    PickCount(Update, values, m);
    PickCount(Subscribe, values, m);
  }

  lemma OrderedPick(values: seq<OutboundDelegateMsg>, c: Class)
    requires c != Send && c != Own
    ensures Pick(c, Ordered(values)) == Pick(c, values)
  {
    hide Pick, ClassOf;
    var p, g, u, s := Pick(Put, values), Pick(Get, values), Pick(Update, values), Pick(Subscribe, values);
    PickSplit(c, p + g + u, s);
    PickSplit(c, p + g, u);
    PickSplit(c, p, g);
    PickPure(c, Put, p);
    PickPure(c, Get, g);
    PickPure(c, Update, u);
    PickPure(c, Subscribe, s);
  }

  /** The order is the stable sort of the round's contract requests by class PUT, GET, UPDATE,
      SUBSCRIBE: a permutation of them, sorted by class, each class in the order it was emitted. */
  lemma OrderedIsStableSort(values: seq<OutboundDelegateMsg>)
    ensures forall m :: multiset(Ordered(values))[m] == if IsContractRequest(m) then multiset(values)[m] else 0
    ensures forall i, j :: 0 <= i < j < |Ordered(values)| ==>
                             Rank(ClassOf(Ordered(values)[i])) <= Rank(ClassOf(Ordered(values)[j]))
    ensures forall c: Class :: c != Send && c != Own ==> Pick(c, Ordered(values)) == Pick(c, values)
  {
    forall m ensures multiset(Ordered(values))[m] == if IsContractRequest(m) then multiset(values)[m] else 0 {
      OrderedCount(values, m);
    }
    forall c: Class | c != Send && c != Own ensures Pick(c, Ordered(values)) == Pick(c, values) {
      OrderedPick(values, c);
    }
    SortedByClass(Pick(Put, values), Pick(Get, values), Pick(Update, values), Pick(Subscribe, values));
  }

  lemma SortedByClass(p: seq<OutboundDelegateMsg>, g: seq<OutboundDelegateMsg>, u: seq<OutboundDelegateMsg>, s: seq<OutboundDelegateMsg>)
    requires forall m <- p :: ClassOf(m) == Put
    requires forall m <- g :: ClassOf(m) == Get
    requires forall m <- u :: ClassOf(m) == Update
    requires forall m <- s :: ClassOf(m) == Subscribe
    ensures var all := p + g + u + s;
            forall i, j :: 0 <= i < j < |all| ==> Rank(ClassOf(all[i])) <= Rank(ClassOf(all[j]))
  {
    var all := p + g + u + s;
    forall i | 0 <= i < |all|
      ensures Rank(ClassOf(all[i])) == if i < |p| then 0 else if i < |p + g| then 1 else if i < |p + g + u| then 2 else 3
    {
      assert all[i] == if i < |p| then p[i] else if i < |p + g| then g[i - |p|]
                       else if i < |p + g + u| then u[i - |p + g|] else s[i - |p + g + u|];
    }
  }

  // ---------------------------------------------------------------- whole conversations

  /** What a target delegate's output contributes: everything but further delegate messages. */
  function WithoutSends(values: seq<OutboundDelegateMsg>): (r: seq<OutboundDelegateMsg>)
    ensures forall m :: m in r <==> m in values && ClassOf(m) != Send
  {
    if values == [] then [] else
    var last := values[|values| - 1];
    WithoutSends(values[..|values| - 1]) + (if ClassOf(last) == Send then [] else [last])
  }

  lemma {:induction false} WithoutSendsSplit(a: seq<OutboundDelegateMsg>, b: seq<OutboundDelegateMsg>)
    ensures WithoutSends(a + b) == WithoutSends(a) + WithoutSends(b)
  {
    if b == [] {
      assert a + b == a;
    } else {
      assert (a + b)[..|a + b| - 1] == a + b[..|b| - 1];
      WithoutSendsSplit(a, b[..|b| - 1]);
    }
  }

  function Delivery(m: OutboundDelegateMsg): DelegateRequest
    requires ClassOf(m) == Send
  {
    ApplicationMessages(m.target, [], [DelegateMessage(m.target, m.payload)])
  }

  /** Delivering messages to other delegates one after the other: everything the targets output. */
  function Relay<S>(x: Executor<S>, h: Host<S>, ms: seq<OutboundDelegateMsg>): (Host<S>, seq<OutboundDelegateMsg>)
    requires forall m <- ms :: ClassOf(m) == Send
  {
    if ms == [] then (h, []) else
    var (h1, out) := Relay(x, h, ms[..|ms| - 1]);
    var (h2, r) := x.run(h1, Delivery(ms[|ms| - 1]), None);
    (h2, if r.Ok? && r.value.DelegateValues? then out + r.value.values else out)
  }

  /** One execution of the delegate: what it was asked, what it output, the replies to its contract
      requests and what the delegates it wrote to output. */
  datatype Round = Round(request: DelegateRequest, values: seq<OutboundDelegateMsg>,
                         replies: seq<InboundDelegateMsg>, targets: seq<OutboundDelegateMsg>)

  predicate Quiet(values: seq<OutboundDelegateMsg>) {
    Ordered(values) == [] && Pick(Send, values) == []
  }

  function Values(r: Result<HostResponse, ExecutorError>): Option<seq<OutboundDelegateMsg>> {
    if r.Ok? && r.value.DelegateValues? then Some(r.value.values)
    else if r.Ok? && r.value.HostOk? then Some([])
    else None
  }

  /** One turn: run the delegate, serve its contract requests, deliver its messages. A failed
      execution counts as one that output nothing. */
  function Turn<S>(x: Executor<S>, h: Host<S>, req: DelegateRequest, origin: Option<ContractInstanceId>, me: DelegateKey)
    : (Host<S>, Round)
  {
    var (h1, response) := x.run(h, req, origin);
    match Values(response)
    case None => (h1, Round(req, [], [], []))
    case Some(values) =>
      if Quiet(values) then (h1, Round(req, values, [], [])) else
      var (h2, replies) := ServeAll(x, h1, me, Ordered(values));
      var (h3, targets) := Relay(x, h2, Pick(Send, values));
      (h3, Round(req, values, replies, targets))
  }

  /** The rounds of a conversation with at most `left` executions, and the host it leaves behind. */
  function Converse<S>(x: Executor<S>, h: Host<S>, req: DelegateRequest, origin: Option<ContractInstanceId>,
                       me: DelegateKey, params: Blob, left: nat): (Host<S>, seq<Round>)
    decreases left, req
  {
    if left == 0 then (h, []) else
    var (h1, r) := Turn(x, h, req, origin, me);
    if Quiet(r.values) then (h1, [r]) else
    var (h2, rest) := Converse(x, h1, ApplicationMessages(me, params, r.replies), origin, me, params, left - 1);
    (h2, [r] + rest)
  }

  /** What the client gets: per round, the delegate's own messages and then what its targets said. */
  function Said(rounds: seq<Round>): seq<OutboundDelegateMsg> {
    if rounds == [] then [] else
    var last := rounds[|rounds| - 1];
    Said(rounds[..|rounds| - 1]) + (Pick(Own, last.values) + WithoutSends(last.targets))
  }

  function ParamsOf(req: DelegateRequest): Blob {
    if req.ApplicationMessages? then req.params else []
  }

  /** One reply per contract request of the round, in serving order. */
  predicate AllAnswered(r: Round) {
    |r.replies| == |Ordered(r.values)| && forall j :: 0 <= j < |r.replies| ==> Answers(r.replies[j], Ordered(r.values)[j])
  }

  /** From the second round on the delegate is shown exactly the replies to its previous round. */
  predicate Chained(me: DelegateKey, params: Blob, rounds: seq<Round>) {
    forall i :: 0 < i < |rounds| ==> rounds[i].request == ApplicationMessages(me, params, rounds[i - 1].replies)
  }

  lemma ChainedCons(me: DelegateKey, params: Blob, r: Round, rest: seq<Round>)
    requires Chained(me, params, rest)
    requires rest != [] ==> rest[0].request == ApplicationMessages(me, params, r.replies)
    ensures Chained(me, params, [r] + rest)
  {
    var rounds := [r] + rest;
    forall i | 0 < i < |rounds|
      ensures rounds[i].request == ApplicationMessages(me, params, rounds[i - 1].replies)
    {
      assert rounds[i] == rest[i - 1] && (i > 1 ==> rounds[i - 1] == rest[i - 2]);
    }
  }

  lemma TurnIsAnswered<S>(x: Executor<S>, h: Host<S>, req: DelegateRequest, origin: Option<ContractInstanceId>, me: DelegateKey)
    ensures AllAnswered(Turn(x, h, req, origin, me).1) && Turn(x, h, req, origin, me).1.request == req
  {
    var (h1, response) := x.run(h, req, origin);
    if Values(response).Some? {
      OneReplyPerRequest(x, h1, me, Ordered(Values(response).value));
    }
  }

  /** A delegate runs at most `left` times, first on the request and then on the replies to its
      previous round. A round that asks for nothing is the last one, and unless the limit cut it
      short, the last round asks for nothing. */
  lemma {:induction false} ConversationIsChained<S>(x: Executor<S>, h: Host<S>, req: DelegateRequest,
      origin: Option<ContractInstanceId>, me: DelegateKey, params: Blob, left: nat)
    ensures var rounds := Converse(x, h, req, origin, me, params, left).1;
            && |rounds| <= left
            && (left > 0 ==> rounds != [] && rounds[0].request == req)
            && Chained(me, params, rounds)
            && (forall r <- rounds :: AllAnswered(r))
            && (forall i :: 0 <= i < |rounds| && Quiet(rounds[i].values) ==> i == |rounds| - 1)
            && (0 < |rounds| < left ==> Quiet(rounds[|rounds| - 1].values))
    decreases left
  {
    hide Turn, AllAnswered, Quiet;
    if left > 0 {
      var (h1, r) := Turn(x, h, req, origin, me);
      TurnIsAnswered(x, h, req, origin, me);
      if !Quiet(r.values) {
        var next := ApplicationMessages(me, params, r.replies);
        ConversationIsChained(x, h1, next, origin, me, params, left - 1);
        ChainedCons(me, params, r, Converse(x, h1, next, origin, me, params, left - 1).1);
      }
    }
  }

  /** Whatever a client asks, later rounds run with the parameters of the first request, and with none if it
      has none. */
  lemma {:induction false} ParametersAreKept<S>(x: Executor<S>, h: Host<S>, req: DelegateRequest,
      origin: Option<ContractInstanceId>, me: DelegateKey, left: nat, i: nat)
    requires 0 < i < |Converse(x, h, req, origin, me, ParamsOf(req), left).1|
    ensures var rounds := Converse(x, h, req, origin, me, ParamsOf(req), left).1;
            && rounds[i].request == ApplicationMessages(me, if rounds[0].request.ApplicationMessages? then rounds[0].request.params else [],
                                                        rounds[i - 1].replies)
            && rounds[0].request == req
  {
    hide Converse;
    ConversationIsChained(x, h, req, origin, me, ParamsOf(req), left);
  }

  /** An executor whose store records what delegates are run with. */
  function Recorder(): Executor<seq<DelegateRequest>> {
    Executor(
      (s: seq<DelegateRequest>, id: ContractInstanceId) => None,
      (s: seq<DelegateRequest>, k: ContractKey, code: bool) => (s, Ok(StoreResponse(None, None))),
      (s: seq<DelegateRequest>, k: ContractKey, u: Upsert, related: Blob, c: Option<ContractContainer>) => (s, Ok(NoChange)),
      (h: Host<seq<DelegateRequest>>, req: DelegateRequest, origin: Option<ContractInstanceId>) =>
        (h.(store := h.store + [req]), Ok(HostOk)),
      (s: seq<DelegateRequest>, k: ContractKey) => (s, Ok([])),
      (s: seq<DelegateRequest>, k: ContractKey, summary: Blob) => (s, Ok([])),
      (h: Host<seq<DelegateRequest>>, e: Event) => h)
  }

  /** Each message reaches the delegate it is for, once, in order, with its payload and without parameters. */
  lemma {:induction false} MessagesAreDelivered(h: Host<seq<DelegateRequest>>, ms: seq<OutboundDelegateMsg>)
    requires forall m <- ms :: m.SendDelegateMessage?
    ensures var log := Relay(Recorder(), h, ms).0.store;
            && |log| == |h.store| + |ms| && log[..|h.store|] == h.store
            && forall i :: 0 <= i < |ms| ==>
                             log[|h.store| + i] == ApplicationMessages(ms[i].target, [], [DelegateMessage(ms[i].target, ms[i].payload)])
    decreases |ms|
  {
    if ms != [] {
      MessagesAreDelivered(h, ms[..|ms| - 1]);
    }
  }

  /** The client never sees a delegate-to-delegate message. It sees a contract request exactly when
      some target delegate output one. */
  lemma {:induction false} WhatTheClientSees(rounds: seq<Round>)
    ensures forall m <- Said(rounds) :: ClassOf(m) != Send
    ensures (exists m <- Said(rounds) :: IsContractRequest(m))
            <==> exists r <- rounds :: exists m <- r.targets :: IsContractRequest(m)
  {
    if rounds != [] {
      var before, last := rounds[..|rounds| - 1], rounds[|rounds| - 1];
      WhatTheClientSees(before);
      if m :| m in last.targets && IsContractRequest(m) {
        assert m in WithoutSends(last.targets);
        assert last in rounds;
      }
      if m :| m in Said(rounds) && IsContractRequest(m) {
        assert m in Said(before) || m in last.targets;
        assert last in rounds && forall r <- before :: r in rounds;
      }
      if r, m :| r in rounds && m in r.targets && IsContractRequest(m) {
        assert r in before || r == last;
        if r in before {
          var m' :| m' in Said(before) && IsContractRequest(m');
          assert m' in Said(rounds);
        } else {
          assert m in WithoutSends(last.targets);
          assert m in Said(rounds);
        }
      }
    }
  }

  /** The client gets exactly what the delegate says to it in some round and what its targets say to anybody but
      other delegates. */
  lemma {:induction false} SaidExactly(rounds: seq<Round>, m: OutboundDelegateMsg)
    ensures m in Said(rounds) <==>
              exists r <- rounds :: (m in r.values && ClassOf(m) == Own) || (m in r.targets && ClassOf(m) != Send)
  {
    hide ClassOf;
    if rounds != [] {
      var before, last := rounds[..|rounds| - 1], rounds[|rounds| - 1];
      SaidExactly(before, m);
      PickedExactly(Own, last.values, m);
      assert rounds == before + [last];
    }
  }

  lemma {:induction false} PickedExactly(c: Class, s: seq<OutboundDelegateMsg>, m: OutboundDelegateMsg)
    ensures m in Pick(c, s) <==> m in s && ClassOf(m) == c
  {
    hide ClassOf;
    if s != [] {
      PickedExactly(c, s[..|s| - 1], m);
      assert s == s[..|s| - 1] + [s[|s| - 1]];
    }
  }

  /** An executor whose delegates answer every message with its payload. */
  function Echo(): Executor<()> {
    Executor(
      (s: (), id: ContractInstanceId) => None,
      (s: (), k: ContractKey, code: bool) => (s, Ok(StoreResponse(None, None))),
      (s: (), k: ContractKey, u: Upsert, related: Blob, c: Option<ContractContainer>) => (s, Ok(NoChange)),
      (h: Host<()>, req: DelegateRequest, origin: Option<ContractInstanceId>) =>
        (h, if req.ApplicationMessages? && |req.inbound| == 1 && req.inbound[0].DelegateMessage? && origin == None
            then Ok(DelegateValues([ApplicationMessage(req.inbound[0].payload)])) else Ok(HostOk)),
      (s: (), k: ContractKey) => (s, Ok([])),
      (s: (), k: ContractKey, summary: Blob) => (s, Ok([])),
      (h: Host<()>, e: Event) => h)
  }

  /** What the targets answer comes back whole and in the order the messages were sent. */
  lemma {:induction false} AnswersComeBackInOrder(h: Host<()>, ms: seq<OutboundDelegateMsg>)
    requires forall m <- ms :: m.SendDelegateMessage?
    ensures var out := Relay(Echo(), h, ms).1;
            |out| == |ms| && forall i :: 0 <= i < |ms| ==> out[i] == ApplicationMessage(ms[i].payload)
    decreases |ms|
  {
    hide Echo, Delivery;
    if ms != [] {
      var n := |ms| - 1;
      AnswersComeBackInOrder(h, ms[..n]);
      EchoAnswers(Relay(Echo(), h, ms[..n]).0, ms[n]);
    }
  }

  lemma {:induction false} EchoAnswers(h: Host<()>, m: OutboundDelegateMsg)
    requires m.SendDelegateMessage?
    ensures Echo().run(h, Delivery(m), None) == (h, Ok(DelegateValues([ApplicationMessage(m.payload)])))
  {
  }

  /** A whole conversation: what is left of the host, and what the client gets. */
  function Conversation<S>(x: Executor<S>, h: Host<S>, req: DelegateRequest, origin: Option<ContractInstanceId>, me: DelegateKey)
    : (Host<S>, seq<OutboundDelegateMsg>)
  {
    var (h1, rounds) := Converse(x, h, req, origin, me, ParamsOf(req), MAX_CONTRACT_REQUEST_ITERATIONS);
    (h1, Said(rounds))
  }

  // ---------------------------------------------------------------- contract requests can reach the client

  /** An executor whose delegate 1 answers any message with a contract request. */
  function RelayingExecutor(): Executor<()> {
    Executor(
      (s: (), id: ContractInstanceId) => None,
      (s: (), k: ContractKey, code: bool) => (s, Ok(StoreResponse(None, None))),
      (s: (), k: ContractKey, u: Upsert, related: Blob, c: Option<ContractContainer>) => (s, Ok(NoChange)),
      (h: Host<()>, req: DelegateRequest, origin: Option<ContractInstanceId>) =>
        (h, Ok(if req.key == 1 then DelegateValues([GetContractRequest(7, [])])
               else if req.RegisterDelegate? then DelegateValues([SendDelegateMessage(1, [])])
               else HostOk)),
      (s: (), k: ContractKey) => (s, Ok([])),
      (s: (), k: ContractKey, summary: Blob) => (s, Ok([])),
      (h: Host<()>, e: Event) => h)
  }

  /** The documented "contract requests are filtered out" fails: a target's request is passed on to
      the client and never served. */
  lemma ContractRequestsCanReachTheClient()
    ensures var h := Host((), map[]);
            Conversation(RelayingExecutor(), h, RegisterDelegate(0), None, 0) == (h, [GetContractRequest(7, [])])
  {
    hide RelayingExecutor, Turn, Quiet, Said;
    var x, h := RelayingExecutor(), Host((), map[]);
    FirstTurn(h);
    SecondTurn(h);
    SaidInBoth();
    assert Converse(x, h, SECOND.request, None, 0, [], 99) == (h, [SECOND]);
    assert [FIRST] + [SECOND] == [FIRST, SECOND];
    assert Converse(x, h, FIRST.request, None, 0, [], 100).1 == [FIRST, SECOND];
  }

  const ASKED := GetContractRequest(7, [])
  const FIRST := Round(RegisterDelegate(0), [SendDelegateMessage(1, [])], [], [ASKED])
  const SECOND := Round(ApplicationMessages(0, [], []), [], [], [])

  lemma FirstTurn(h: Host<()>)
    ensures Turn(RelayingExecutor(), h, FIRST.request, None, 0) == (h, FIRST) && !Quiet(FIRST.values)
  {
    hide RelayingExecutor, Pick, Relay;
    var x, send := RelayingExecutor(), SendDelegateMessage(1, []);
    RelayingRuns(h);
    PicksOfOne(send);
    RelayOne(x, h, send);
    assert Ordered([send]) == [] && [] + [ASKED] == [ASKED];
  }

  lemma RelayingRuns(h: Host<()>)
    ensures RelayingExecutor().run(h, FIRST.request, None) == (h, Ok(DelegateValues(FIRST.values)))
    ensures RelayingExecutor().run(h, Delivery(SendDelegateMessage(1, [])), None) == (h, Ok(DelegateValues([ASKED])))
    ensures RelayingExecutor().run(h, SECOND.request, None) == (h, Ok(HostOk))
  {
  }

  lemma SecondTurn(h: Host<()>)
    ensures Turn(RelayingExecutor(), h, SECOND.request, None, 0) == (h, SECOND) && Quiet(SECOND.values)
  {
    hide RelayingExecutor;
    RelayingRuns(h);
  }

  lemma SaidInBoth()
    ensures Said([FIRST, SECOND]) == [ASKED]
  {
    hide Said, Pick, WithoutSends;
    SaidNothing();
    SaidSnoc([], FIRST);
    SaidSnoc([FIRST], SECOND);
    assert [] + [FIRST] == [FIRST] && [FIRST] + [SECOND] == [FIRST, SECOND];
    PicksOfOne(SendDelegateMessage(1, []));
    PicksOfNone(Own);
    WithoutSendsOne(ASKED);
    WithoutSendsNone();
  }

  lemma {:induction false} PicksOfNone(c: Class)
    ensures Pick(c, []) == []
  {
  }

  lemma RelayOne<S>(x: Executor<S>, h: Host<S>, m: OutboundDelegateMsg)
    requires ClassOf(m) == Send
    ensures var (h1, r) := x.run(h, Delivery(m), None);
            Relay(x, h, [m]) == (h1, if r.Ok? && r.value.DelegateValues? then [] + r.value.values else [])
  {
    assert [m][..0] == [] && Relay(x, h, [m][..0]) == (h, []);
  }

  lemma WithoutSendsNone()
    ensures WithoutSends([]) == []
  {
  }

  lemma WithoutSendsOne(m: OutboundDelegateMsg)
    ensures WithoutSends([m]) == if ClassOf(m) == Send then [] else [m]
  {
    assert [m][..0] == [] && WithoutSends([m][..0]) == [];
  }

  lemma PicksOfOne(m: OutboundDelegateMsg)
    ensures forall c: Class :: Pick(c, [m]) == if c == ClassOf(m) then [m] else []
  {
    forall c: Class ensures Pick(c, [m]) == if c == ClassOf(m) then [m] else [] {
      assert [m][..0] == [];
      assert Pick(c, [m][..0]) == [];
    }
  }

  // ---------------------------------------------------------------- the loop

  class DelegateHost<S> {
    const x: Executor<S>
    var store: S
    var subscriptions: map<ContractInstanceId, set<DelegateKey>>

    function Value(): Host<S>
      reads this
    {
      Host(store, subscriptions)
    }

    constructor (x: Executor<S>, h: Host<S>)
      ensures this.x == x && Value() == h
    {
      this.x := x;
      store, subscriptions := h.store, h.subscriptions;
    }

    method Execute(req: DelegateRequest, origin: Option<ContractInstanceId>)
      returns (response: Result<HostResponse, ExecutorError>)
      modifies this
      ensures (Value(), response) == x.run(old(Value()), req, origin)
    {
      var (h, r) := x.run(Host(store, subscriptions), req, origin);
      store, subscriptions, response := h.store, h.subscriptions, r;
    }

    /** Sort a round's outputs into classes. */
    method Classify(values: seq<OutboundDelegateMsg>)
      returns (puts: seq<OutboundDelegateMsg>, gets: seq<OutboundDelegateMsg>, updates: seq<OutboundDelegateMsg>,
               subscribes: seq<OutboundDelegateMsg>, sends: seq<OutboundDelegateMsg>, own: seq<OutboundDelegateMsg>)
      ensures puts == Pick(Put, values) && gets == Pick(Get, values) && updates == Pick(Update, values)
      ensures subscribes == Pick(Subscribe, values) && sends == Pick(Send, values) && own == Pick(Own, values)
    {
      puts, gets, updates, subscribes, sends, own := [], [], [], [], [], [];
      for i := 0 to |values|
        invariant puts == Pick(Put, values[..i]) && gets == Pick(Get, values[..i]) && updates == Pick(Update, values[..i])
        invariant subscribes == Pick(Subscribe, values[..i]) && sends == Pick(Send, values[..i]) && own == Pick(Own, values[..i])
      {
        assert values[..i + 1][..i] == values[..i];
        var m := values[i];
        match m
        case GetContractRequest(_, _) => gets := gets + [m];
        case PutContractRequest(_, _, _, _) => puts := puts + [m];
        case UpdateContractRequest(_, _, _) => updates := updates + [m];
        case SubscribeContractRequest(_, _) => subscribes := subscribes + [m];
        case SendDelegateMessage(_, _) => sends := sends + [m];
        case ApplicationMessage(_) => own := own + [m];
        case RequestUserInput(_) => own := own + [m];
        case ContextUpdated(_) => own := own + [m];
      }
      assert values[..|values|] == values;
    }

    method ServePuts(me: DelegateKey, reqs: seq<OutboundDelegateMsg>) returns (replies: seq<InboundDelegateMsg>)
      requires forall m <- reqs :: ClassOf(m) == Put
      modifies this
      ensures (Value(), replies) == ServeAll(x, old(Value()), me, reqs)
    {
      replies := [];
      for i := 0 to |reqs|
        invariant (Value(), replies) == ServeAll(x, old(Value()), me, reqs[..i])
      {
        assert reqs[..i + 1][..i] == reqs[..i];
        var req := reqs[i];
        assert ClassOf(req) == Put;
        var (s, result) := x.upsert(store, req.contract.key, FullState(req.state), req.related, Some(req.contract));
        store := s;
        var putResult := match result case Ok(_) => Ok(()) case Err(e) => Err(e.cause);
        replies := replies + [PutContractResponse(req.contract.key.id, putResult, req.context)];
      }
      assert reqs[..|reqs|] == reqs;
    }

    method ServeGets(me: DelegateKey, reqs: seq<OutboundDelegateMsg>) returns (replies: seq<InboundDelegateMsg>)
      requires forall m <- reqs :: ClassOf(m) == Get
      modifies this
      ensures (Value(), replies) == ServeAll(x, old(Value()), me, reqs)
    {
      replies := [];
      for i := 0 to |reqs|
        invariant (Value(), replies) == ServeAll(x, old(Value()), me, reqs[..i])
      {
        assert reqs[..i + 1][..i] == reqs[..i];
        var req := reqs[i];
        assert ClassOf(req) == Get;
        var state: Option<Blob> := None;
        match x.lookup(store, req.contractId) {
          case Some(fullKey) =>
            var (s, result) := x.fetch(store, fullKey, false);
            store := s;
            if result.Ok? {
              state := result.value.state;
            }
          case None =>
        }
        replies := replies + [GetContractResponse(req.contractId, state, req.context)];
      }
      assert reqs[..|reqs|] == reqs;
    }

    method ServeUpdates(me: DelegateKey, reqs: seq<OutboundDelegateMsg>) returns (replies: seq<InboundDelegateMsg>)
      requires forall m <- reqs :: ClassOf(m) == Update
      modifies this
      ensures (Value(), replies) == ServeAll(x, old(Value()), me, reqs)
    {
      replies := [];
      for i := 0 to |reqs|
        invariant (Value(), replies) == ServeAll(x, old(Value()), me, reqs[..i])
      {
        assert reqs[..i + 1][..i] == reqs[..i];
        var req := reqs[i];
        assert ClassOf(req) == Update;
        var change: Upsert;
        match x.lookup(store, req.contractId) {
          case None =>
            replies := replies + [UpdateContractResponse(req.contractId, Err("Contract not found"), req.context)];
            continue;
          case Some(fullKey) =>
            match req.update {
              case UpdateState(state) => change := FullState(state);
              case UpdateDelta(delta) => change := Delta(delta);
              case UpdateCompound(_) =>
                replies := replies + [UpdateContractResponse(req.contractId, Err("Unsupported UpdateData variant"), req.context)];
                continue;
            }
            var (s, result) := x.upsert(store, fullKey, change, [], None);
            store := s;
            var updateResult := match result case Ok(_) => Ok(()) case Err(e) => Err(e.cause);
            replies := replies + [UpdateContractResponse(req.contractId, updateResult, req.context)];
        }
      }
      assert reqs[..|reqs|] == reqs;
    }

    method ServeSubscribes(me: DelegateKey, reqs: seq<OutboundDelegateMsg>) returns (replies: seq<InboundDelegateMsg>)
      requires forall m <- reqs :: ClassOf(m) == Subscribe
      modifies this
      ensures (Value(), replies) == ServeAll(x, old(Value()), me, reqs)
    {
      replies := [];
      for i := 0 to |reqs|
        invariant (Value(), replies) == ServeAll(x, old(Value()), me, reqs[..i])
      {
        assert reqs[..i + 1][..i] == reqs[..i];
        assert ClassOf(reqs[i]) == Subscribe;
        var id, context := reqs[i].contractId, reqs[i].context;
        var result: Result<(), string>;
        if x.lookup(store, id).Some? {
          var registered := if id in subscriptions then subscriptions[id] else {};
          subscriptions := subscriptions[id := registered + {me}];
          result := Ok(());
        } else {
          result := Err("Contract not found");
        }
        replies := replies + [SubscribeContractResponse(id, result, context)];
      }
      assert reqs[..|reqs|] == reqs;
    }

    method ClientVisible(values: seq<OutboundDelegateMsg>) returns (visible: seq<OutboundDelegateMsg>)
      ensures visible == WithoutSends(values)
    {
      visible := [];
      for i := 0 to |values|
        invariant visible == WithoutSends(values[..i])
      {
        assert values[..i + 1][..i] == values[..i];
        if !values[i].SendDelegateMessage? {
          visible := visible + [values[i]];
        }
      }
      assert values[..|values|] == values;
    }

    /** Deliver delegate-to-delegate messages; returns what of the targets' output is passed on. */
    method Deliver(sends: seq<OutboundDelegateMsg>) returns (passed: seq<OutboundDelegateMsg>, ghost targets: seq<OutboundDelegateMsg>)
      requires forall m <- sends :: ClassOf(m) == Send
      modifies this
      ensures (Value(), targets) == Relay(x, old(Value()), sends)
      ensures passed == WithoutSends(targets)
    {
      passed, targets := [], [];
      for i := 0 to |sends|
        invariant (Value(), targets) == Relay(x, old(Value()), sends[..i])
        invariant passed == WithoutSends(targets)
      {
        assert sends[..i + 1][..i] == sends[..i];
        assert ClassOf(sends[i]) == Send;
        var request := ApplicationMessages(sends[i].target, [], [DelegateMessage(sends[i].target, sends[i].payload)]);
        var response := Execute(request, None);
        if response.Ok? && response.value.DelegateValues? {
          var visible := ClientVisible(response.value.values);
          WithoutSendsSplit(targets, response.value.values);
          passed, targets := passed + visible, targets + response.value.values;
        }
      }
      assert sends[..|sends|] == sends;
    }

    /** One turn's contract requests and delegate messages, in the order the loop takes them. */
    method ServeRound(me: DelegateKey, values: seq<OutboundDelegateMsg>)
      returns (quiet: bool, own: seq<OutboundDelegateMsg>, replies: seq<InboundDelegateMsg>,
               passed: seq<OutboundDelegateMsg>, ghost targets: seq<OutboundDelegateMsg>)
      modifies this
      ensures quiet == Quiet(values) && own == Pick(Own, values) && passed == WithoutSends(targets)
      ensures quiet ==> Value() == old(Value()) && replies == [] && targets == []
      ensures !quiet ==> var (h, rs) := ServeAll(x, old(Value()), me, Ordered(values));
                         replies == rs && (Value(), targets) == Relay(x, h, Pick(Send, values))
    {
      hide ServeAll, Pick, Relay, WithoutSends, ClassOf;
      var puts, gets, updates, subscribes, sends;
      puts, gets, updates, subscribes, sends, own := Classify(values);
      quiet := gets == [] && puts == [] && updates == [] && subscribes == [] && sends == [];
      replies, passed, targets := [], [], [];
      if quiet {
        WithoutSendsNone();
        return;
      }
      ghost var h := Value();
      var r := ServePuts(me, puts);
      replies := replies + r;
      r := ServeGets(me, gets);
      replies := replies + r;
      ServeAllSplit(x, h, me, puts, gets);
      r := ServeUpdates(me, updates);
      replies := replies + r;
      ServeAllSplit(x, h, me, puts + gets, updates);
      r := ServeSubscribes(me, subscribes);
      replies := replies + r;
      ServeAllSplit(x, h, me, puts + gets + updates, subscribes);
      passed, targets := Deliver(sends);
    }

    /** One turn of the loop: `last` when it asked for nothing or failed. */
    method TakeTurn(req: DelegateRequest, origin: Option<ContractInstanceId>, me: DelegateKey)
      returns (last: bool, said: seq<OutboundDelegateMsg>, replies: seq<InboundDelegateMsg>, ghost r: Round)
      modifies this
      ensures (Value(), r) == Turn(x, old(Value()), req, origin, me)
      ensures last == Quiet(r.values) && replies == r.replies
      ensures said == Pick(Own, r.values) + WithoutSends(r.targets)
    {
      hide ServeAll, Relay, ClassOf;
      r := Round(req, [], [], []);
      var response := Execute(req, origin);
      var values := [];
      match response {
        case Ok(DelegateValues(vs)) => values := vs;
        case Ok(HostOk) =>
        case _ => return true, [], [], r;
      }
      var quiet, own, rs, passed, targets := ServeRound(me, values);
      return quiet, own + passed, rs, Round(req, values, rs, targets);
    }

    method HandleDelegate(req: DelegateRequest, origin: Option<ContractInstanceId>, me: DelegateKey)
      returns (messages: seq<OutboundDelegateMsg>)
      modifies this
      ensures (Value(), messages) == Conversation(x, old(Value()), req, origin, me)
    {
      messages := Loop(req, origin, me, MAX_CONTRACT_REQUEST_ITERATIONS);
    }

    method Loop(req: DelegateRequest, origin: Option<ContractInstanceId>, me: DelegateKey, limit: nat)
      returns (messages: seq<OutboundDelegateMsg>)
      modifies this
      ensures var (h, rounds) := Converse(x, old(Value()), req, origin, me, ParamsOf(req), limit);
              Value() == h && messages == Said(rounds)
    {
      hide Turn, Quiet, Pick, WithoutSends, Converse, Said;
      SaidNothing();
      var params := match req case ApplicationMessages(_, p, _) => p case _ => [];
      var current, iterations := req, 0;
      messages := [];
      ghost var whole := Converse(x, Value(), req, origin, me, params, limit);
      ghost var done: seq<Round> := [];
      assert [] + whole.1 == whole.1;
      while true
        invariant 0 <= iterations <= limit
        invariant messages == Said(done)
        invariant whole.0 == Converse(x, Value(), current, origin, me, params, limit - iterations).0
        invariant whole.1 == done + Converse(x, Value(), current, origin, me, params, limit - iterations).1
        decreases limit - iterations
      {
        iterations := iterations + 1;
        ConverseUnfolds(x, Value(), current, origin, me, params, limit - iterations + 1);
        if iterations > limit {
          assert done + [] == done;
          return;
        }
        var last, said, replies, r := TakeTurn(current, origin, me);
        messages := messages + said;
        SaidSnoc(done, r);
        if last {
          return;
        }
        current := ApplicationMessages(me, params, replies);
        ghost var rest := Converse(x, Value(), current, origin, me, params, limit - iterations).1;
        assert done + ([r] + rest) == (done + [r]) + rest;
        done := done + [r];
      }
    }
  }

  lemma SaidNothing()
    ensures Said([]) == []
  {
  }

  lemma ConverseUnfolds<S>(x: Executor<S>, h: Host<S>, req: DelegateRequest, origin: Option<ContractInstanceId>,
                           me: DelegateKey, params: Blob, left: nat)
    ensures left == 0 ==> Converse(x, h, req, origin, me, params, left) == (h, [])
    ensures left > 0 ==>
              var (h1, r) := Turn(x, h, req, origin, me);
              Converse(x, h, req, origin, me, params, left) ==
              if Quiet(r.values) then (h1, [r]) else
              var (h2, rest) := Converse(x, h1, ApplicationMessages(me, params, r.replies), origin, me, params, left - 1);
              (h2, [r] + rest)
  {
    hide Turn, Quiet;
  }

  lemma SaidSnoc(done: seq<Round>, r: Round)
    ensures Said(done + [r]) == Said(done) + (Pick(Own, r.values) + WithoutSends(r.targets))
  {
    assert (done + [r])[..|done|] == done;
  }
}
