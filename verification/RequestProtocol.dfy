/** Client requests: route through the de-duplicating router, register for the result, start the
    operation. Requests, results, completions and failures interleave; a completion is three separate
    steps on the router's maps, as in the source, where each map is locked on its own. Registrations and
    results go to the session actor through one channel. */
module RequestProtocol {
  import opened Messages
  import A = Sessions

  type Resource = nat
  type Tx = A.Tx

  /** One request of a client. */
  datatype Waiter = Waiter(client: A.ClientId, request: A.RequestId)

  // ---------------------------------------------------------------- the router

  datatype Router = Router(byResource: map<Resource, Tx>, byTx: map<Tx, Resource>, waiters: map<Tx, seq<Waiter>>)

  predicate Joins(r: Router, res: Resource) {
    res in r.byResource && r.byResource[res] in r.byTx
  }

  /** Join the operation in flight for the resource, or claim the resource for transaction `newTx`. */
  function Route(r: Router, res: Resource, who: Waiter, newTx: Tx): (Router, Tx, bool) {
    if Joins(r, res) then
      var tx := r.byResource[res];
      var now := (if tx in r.waiters then r.waiters[tx] else []) + [who];
      (r.(waiters := r.waiters[tx := now]), tx, false)
    else
      (Router(r.byResource[res := newTx], r.byTx[newTx := res], r.waiters[newTx := [who]]), newTx, true)
  }

  /** The three steps of a completion: take the transaction's reverse entry, remove the resource it
      named, remove the waiters. */
  function TakeTx(r: Router, tx: Tx): Router {
    r.(byTx := r.byTx - {tx})
  }

  function DropResource(r: Router, res: Resource): Router {
    r.(byResource := r.byResource - {res})
  }

  function DropWaiters(r: Router, tx: Tx): Router {
    r.(waiters := r.waiters - {tx})
  }

  function Complete(r: Router, tx: Tx): Router {
    var r1 := TakeTx(r, tx);
    DropWaiters(if tx in r.byTx then DropResource(r1, r.byTx[tx]) else r1, tx)
  }

  /** The two maps are each other's inverse: one live transaction per resource. */
  predicate Inverse(r: Router) {
    && (forall res <- r.byResource :: r.byResource[res] in r.byTx && r.byTx[r.byResource[res]] == res)
    && (forall tx <- r.byTx :: r.byTx[tx] in r.byResource && r.byResource[r.byTx[tx]] == tx)
  }

  lemma CompleteIsIdempotent(r: Router, tx: Tx)
    ensures Complete(Complete(r, tx), tx) == Complete(r, tx)
  {
    var c := Complete(r, tx);
    assert Complete(c, tx).byTx == c.byTx && Complete(c, tx).waiters == c.waiters;
  }

  lemma CompleteUndoesClaim(r: Router, res: Resource, who: Waiter, newTx: Tx)
    requires res !in r.byResource && newTx !in r.byTx && newTx !in r.waiters
    ensures Complete(Route(r, res, who, newTx).0, newTx) == r
  {
    var r2 := Complete(Route(r, res, who, newTx).0, newTx);
    assert r2.byResource == r.byResource && r2.byTx == r.byTx && r2.waiters == r.waiters;
  }

  /** One call at a time, routing and completing keep the maps inverse, a request starts an operation
      exactly when none is in flight for its resource, completing what was just claimed undoes it,
      and completing twice is completing once. */
  lemma RouterRoundTrip(r: Router, res: Resource, who: Waiter, newTx: Tx, tx: Tx)
    requires Inverse(r) && newTx !in r.byTx && newTx !in r.waiters
    ensures Inverse(Route(r, res, who, newTx).0) && Inverse(Complete(r, tx))
    ensures Route(r, res, who, newTx).2 <==> res !in r.byResource
    ensures Route(r, res, who, newTx).2 ==> Complete(Route(r, res, who, newTx).0, newTx) == r
    ensures Complete(Complete(r, tx), tx) == Complete(r, tx)
  {
    CompleteIsIdempotent(r, tx);
    if res !in r.byResource {
      CompleteUndoesClaim(r, res, who, newTx);
    }
  }

  class RequestRouter {
    var byResource: map<Resource, Tx>
    var byTx: map<Tx, Resource>
    var waiters: map<Tx, seq<Waiter>>

    ghost function Value(): Router
      reads this
    {
      Router(byResource, byTx, waiters)
    }

    constructor ()
      ensures Value() == Router(map[], map[], map[])
    {
      byResource, byTx, waiters := map[], map[], map[];
    }

    /** `newTx` is the transaction that `create_transaction_for_request` makes if one is needed. */
    method RouteRequest(res: Resource, who: Waiter, newTx: Tx) returns (tx: Tx, shouldStart: bool)
      modifies this
      ensures (Value(), tx, shouldStart) == Route(old(Value()), res, who, newTx)
    {
      if res in byResource {
        var existing := byResource[res];
        if existing !in byTx {
          byResource := byResource[res := newTx];
          byTx := byTx[newTx := res];
          waiters := waiters[newTx := [who]];
          return newTx, true;
        }
        var joined := if existing in waiters then waiters[existing] else [];
        waiters := waiters[existing := joined + [who]];
        return existing, false;
      } else {
        byResource := byResource[res := newTx];
        byTx := byTx[newTx := res];
        waiters := waiters[newTx := [who]];
        return newTx, true;
      }
    }

    method CompleteOperation(tx: Tx)
      modifies this
      ensures Value() == Complete(old(Value()), tx)
    {
      if tx in byTx {
        var res := byTx[tx];
        byTx := byTx - {tx};
        byResource := byResource - {res};
      }
      waiters := waiters - {tx};
    }
  }

  // ---------------------------------------------------------------- the protocol

  datatype Phase = Routed | Registered | Launched | Refused

  /** A request in flight: its transaction, and whether it is the one to start the operation. */
  datatype Request = Request(tx: Tx, starts: bool, phase: Phase)

  /** A completion in progress; `resource` is what its first step found. */
  datatype Completion = Completion(tx: Tx, resource: Option<Resource>, dropped: bool)

  /** `owner` is the request each transaction was made for, `launched` the one that started it,
      `begun` are the transactions some completion has started on. `mail` is what was sent to the
      session actor, in order; `lost` are the requests whose registration did not reach it. */
  datatype System = System(
    router: Router, nextTx: Tx, requests: map<Waiter, Request>, registered: set<(Tx, Waiter)>, lost: set<Waiter>,
    owner: map<Tx, Waiter>, launched: map<Tx, Waiter>,
    completions: map<nat, Completion>, begun: set<Tx>, mail: seq<A.Message>)

  datatype Step =
    | RouteStep(who: Waiter, res: Resource)   // PUT, UPDATE or GET through the router
    | DirectStep(who: Waiter)                 // own transaction: SUBSCRIBE, local-only PUT, no router
    | RegisterStep(who: Waiter, told: bool)   // `told` is false when the actor's channel stayed full
    | RefuseStep(who: Waiter)                 // registration failed, the request returns an error
    | LaunchStep(who: Waiter)
    | ResultStep(tx: Tx, result: A.Payload)   // a result or an error is sent to the session actor
    | BeginStep(c: nat, tx: Tx)               // finished, failed to start, or timed out
    | DropResourceStep(c: nat)
    | DropWaitersStep(c: nat)

  const START := System(Router(map[], map[], map[]), 0, map[], {}, {}, map[], map[], map[], {}, [])

  predicate Enabled(s: System, step: Step) {
    match step
    case RouteStep(who, _) => who !in s.requests
    case DirectStep(who) => who !in s.requests
    case RegisterStep(who, _) => who in s.requests && s.requests[who].phase == Routed
    case RefuseStep(who) => who in s.requests && s.requests[who].phase == Routed
    case LaunchStep(who) => who in s.requests && s.requests[who].phase == Registered && s.requests[who].starts
    case ResultStep(tx, _) => tx in s.launched
    case BeginStep(c, tx) => c !in s.completions && tx in s.launched
    case DropResourceStep(c) => c in s.completions && !s.completions[c].dropped
    case DropWaitersStep(c) => c in s.completions && s.completions[c].dropped
  }

  function Registration(tx: Tx, who: Waiter): A.Message {
    A.Register(tx, who.client, who.request)
  }

  function Next(s: System, step: Step): System
    requires Enabled(s, step)
  {
    match step
    case RouteStep(who, res) =>
      var (r, tx, starts) := Route(s.router, res, who, s.nextTx);
      s.(router := r, nextTx := s.nextTx + 1, requests := s.requests[who := Request(tx, starts, Routed)],
         owner := if starts then s.owner[tx := who] else s.owner)
    case DirectStep(who) =>
      s.(nextTx := s.nextTx + 1, requests := s.requests[who := Request(s.nextTx, true, Routed)],
         owner := s.owner[s.nextTx := who])
    case RegisterStep(who, told) =>
      var w := s.(requests := s.requests[who := s.requests[who].(phase := Registered)]);
      if told then w.(registered := s.registered + {(s.requests[who].tx, who)},
                      mail := s.mail + [Registration(s.requests[who].tx, who)])
      else w.(lost := s.lost + {who})
    case RefuseStep(who) => s.(requests := s.requests[who := s.requests[who].(phase := Refused)])
    case LaunchStep(who) =>
      s.(requests := s.requests[who := s.requests[who].(phase := Launched)],
         launched := s.launched[s.requests[who].tx := who])
    case ResultStep(tx, result) => s.(mail := s.mail + [A.Deliver(tx, result)])
    case BeginStep(c, tx) =>
      var found := if tx in s.router.byTx then Some(s.router.byTx[tx]) else None;
      s.(router := TakeTx(s.router, tx), completions := s.completions[c := Completion(tx, found, false)],
         begun := s.begun + {tx})
    case DropResourceStep(c) =>
      var k := s.completions[c];
      s.(router := if k.resource.Some? then DropResource(s.router, k.resource.value) else s.router,
         completions := s.completions[c := k.(dropped := true)])
    case DropWaitersStep(c) =>
      s.(router := DropWaiters(s.router, s.completions[c].tx), completions := s.completions - {c})
  }

  /** The state a run reaches from the start; `None` if some step was not possible. */
  function After(steps: seq<Step>): Option<System> {
    if steps == [] then Some(START) else
    var before, last := After(steps[..|steps| - 1]), steps[|steps| - 1];
    if before.Some? && Enabled(before.value, last) then Some(Next(before.value, last)) else None
  }

  // ---------------------------------------------------------------- what every reachable state keeps

  ghost predicate Bounded(s: System) {
    && (forall res <- s.router.byResource :: s.router.byResource[res] < s.nextTx)
    && (forall tx <- s.owner :: tx < s.nextTx)
  }

  ghost predicate RequestsOk(s: System) {
    forall who <- s.requests :: RequestOk(s, who, s.requests[who])
  }

  ghost predicate RequestOk(s: System, who: Waiter, r: Request) {
    && r.tx in s.owner
    && (r.starts ==> s.owner[r.tx] == who)
    && (r.phase == Registered || r.phase == Launched ==> (r.tx, who) in s.registered || who in s.lost)
    && (r.phase == Launched <==> r.tx in s.launched && s.launched[r.tx] == who)
  }

  ghost predicate OwnersOk(s: System) {
    && (forall tx <- s.owner :: s.owner[tx] in s.requests && s.requests[s.owner[tx]].tx == tx && s.requests[s.owner[tx]].starts)
    && (forall tx <- s.router.byTx :: tx in s.owner)
    && (forall tx <- s.launched :: tx in s.owner && s.launched[tx] == s.owner[tx])
  }

  ghost predicate BegunOk(s: System) {
    forall tx <- s.begun :: tx in s.launched && tx !in s.router.byTx
  }

  ghost predicate RouterOk(s: System) {
    forall res <- s.router.byResource ::
      var tx := s.router.byResource[res];
      if tx in s.router.byTx then s.router.byTx[tx] == res else tx in s.begun
  }

  /** A completion that has yet to remove the resource it found. */
  ghost predicate WillDrop(s: System, tx: Tx, res: Resource) {
    exists c <- s.completions :: s.completions[c] == Completion(tx, Some(res), false)
  }

  ghost predicate Completing(s: System, tx: Tx) {
    exists c <- s.completions :: s.completions[c].tx == tx
  }

  /** What is left of a transaction after its completion began will be removed by one in progress. */
  ghost predicate TidyOk(s: System) {
    && (forall res <- s.router.byResource :: s.router.byResource[res] in s.begun ==> WillDrop(s, s.router.byResource[res], res))
    && (forall tx <- s.router.waiters :: tx in s.begun ==> Completing(s, tx))
    && (forall tx <- s.router.waiters :: tx < s.nextTx)
  }

  /** The start of an operation was announced to the actor before, unless that message was lost. */
  ghost predicate Announced(s: System, tx: Tx, mail: seq<A.Message>) {
    tx in s.launched && (s.launched[tx] in s.lost || Registration(tx, s.launched[tx]) in mail)
  }

  /** Registrations are in the mail, and results come after the registration of the starting request. */
  ghost predicate MailOk(s: System) {
    && (forall p <- s.registered :: Registration(p.0, p.1) in s.mail)
    && (forall i :: 0 <= i < |s.mail| ==> s.mail[i].Register? || s.mail[i].Deliver?)
    && (forall i :: 0 <= i < |s.mail| && s.mail[i].Deliver? ==> Announced(s, s.mail[i].tx, s.mail[..i]))
  }

  ghost predicate Core(s: System) {
    Bounded(s) && RequestsOk(s) && OwnersOk(s) && BegunOk(s) && RouterOk(s)
  }

  ghost predicate Inv(s: System) {
    Core(s) && TidyOk(s) && MailOk(s)
  }

  /** Requests keep their transaction and role; only their phase changes. */
  predicate SameRoles(s: System, w: System) {
    forall q <- s.requests :: q in w.requests && w.requests[q].tx == s.requests[q].tx && w.requests[q].starts == s.requests[q].starts
  }

  lemma OwnersFrame(s: System, w: System)
    requires OwnersOk(s) && SameRoles(s, w) && w.owner == s.owner && w.router.byTx == s.router.byTx
    requires forall tx <- w.launched :: tx in s.owner && w.launched[tx] == s.owner[tx]
    ensures OwnersOk(w)
  {
  }

  /** A transaction made for a new request that starts it. */
  lemma OwnersGrow(s: System, w: System, who: Waiter, tx: Tx)
    requires OwnersOk(s) && SameRoles(s, w) && tx !in s.owner && w.owner == s.owner[tx := who] && w.launched == s.launched
    requires who in w.requests && w.requests[who].tx == tx && w.requests[who].starts
    requires forall t <- w.router.byTx :: t == tx || t in s.router.byTx
    ensures OwnersOk(w)
  {
  }

  lemma RouteRequests(s: System, who: Waiter, res: Resource)
    requires RequestsOk(s) && s.nextTx !in s.owner && s.nextTx !in s.launched && who !in s.requests
    requires Joins(s.router, res) ==>
               s.router.byResource[res] in s.owner
               && (s.router.byResource[res] in s.launched ==> s.launched[s.router.byResource[res]] in s.requests)
    ensures RequestsOk(Next(s, RouteStep(who, res)))
  {
    var w := Next(s, RouteStep(who, res));
    forall q | q in w.requests ensures RequestOk(w, q, w.requests[q]) {
      assert q != who ==> RequestOk(s, q, s.requests[q]);
    }
  }

  lemma RouteRouter(s: System, who: Waiter, res: Resource)
    requires Bounded(s) && BegunOk(s) && RouterOk(s) && s.nextTx !in s.owner && who !in s.requests
    requires forall tx <- s.router.byTx :: tx in s.owner
    requires forall tx <- s.launched :: tx in s.owner
    ensures var w := Next(s, RouteStep(who, res));
            Bounded(w) && BegunOk(w) && RouterOk(w) && w.launched == s.launched && SameRoles(s, w)
    ensures var w := Next(s, RouteStep(who, res));
            forall t <- w.router.byTx :: t in s.router.byTx || (t == s.nextTx && !Joins(s.router, res))
  {
  }

  lemma RouteKeeps(s: System, who: Waiter, res: Resource)
    requires Core(s) && Enabled(s, RouteStep(who, res))
    ensures Core(Next(s, RouteStep(who, res)))
  {
    hide RequestsOk, Bounded, BegunOk, RouterOk, SameRoles;
    assert s.nextTx !in s.owner by { OwnedBelow(s); }
    assert s.nextTx !in s.launched;
    RouteRequests(s, who, res);
    RouteRouter(s, who, res);
    var w := Next(s, RouteStep(who, res));
    if Joins(s.router, res) {
      OwnersFrame(s, w);
    } else {
      OwnersGrow(s, w, who, s.nextTx);
    }
  }

  lemma OwnedBelow(s: System)
    requires Bounded(s)
    ensures forall tx <- s.owner :: tx < s.nextTx
  {
  }

  lemma DirectRequests(s: System, who: Waiter)
    requires RequestsOk(s) && s.nextTx !in s.owner && s.nextTx !in s.launched && who !in s.requests
    ensures RequestsOk(Next(s, DirectStep(who)))
  {
    var w := Next(s, DirectStep(who));
    forall q | q in w.requests ensures RequestOk(w, q, w.requests[q]) {
      assert q != who ==> RequestOk(s, q, s.requests[q]);
    }
  }

  lemma DirectKeeps(s: System, who: Waiter)
    requires Core(s) && Enabled(s, DirectStep(who))
    ensures Core(Next(s, DirectStep(who)))
  {
    hide RequestsOk;
    assert s.nextTx !in s.owner && s.nextTx !in s.launched;
    DirectRequests(s, who);
    OwnersGrow(s, Next(s, DirectStep(who)), who, s.nextTx);
  }

  /** Steps that only change one request's phase. */
  lemma PhaseKeeps(s: System, step: Step)
    requires Core(s) && Enabled(s, step) && (step.RegisterStep? || step.RefuseStep? || step.LaunchStep?)
    ensures Core(Next(s, step))
  {
    hide RequestsOk, RouterOk;
    var w := Next(s, step);
    assert RequestsOk(w) by { PhaseRequests(s, step); }
    assert BegunOk(w) by { PhaseRequests(s, step); }
    assert OwnersOk(w) by {
      PhaseOwners(s, step);
      OwnersFrame(s, w);
    }
    assert RouterOk(w) by { SameRouterOk(s, w); }
  }

  lemma SameRouterOk(s: System, w: System)
    requires RouterOk(s) && w.router == s.router && w.begun == s.begun
    ensures RouterOk(w)
  {
  }

  lemma PhaseRequests(s: System, step: Step)
    requires RequestsOk(s) && BegunOk(s) && Enabled(s, step) && (step.RegisterStep? || step.RefuseStep? || step.LaunchStep?)
    requires forall tx <- s.launched :: tx in s.owner && s.launched[tx] == s.owner[tx]
    ensures RequestsOk(Next(s, step)) && BegunOk(Next(s, step))
  {
    var w := Next(s, step);
    assert RequestOk(s, step.who, s.requests[step.who]);
    forall q | q in w.requests ensures RequestOk(w, q, w.requests[q]) {
      assert RequestOk(s, q, s.requests[q]);
    }
  }

  lemma PhaseOwners(s: System, step: Step)
    requires RequestsOk(s) && Enabled(s, step) && (step.RegisterStep? || step.RefuseStep? || step.LaunchStep?)
    requires forall tx <- s.launched :: tx in s.owner && s.launched[tx] == s.owner[tx]
    ensures var w := Next(s, step);
            SameRoles(s, w) && w.owner == s.owner && w.router == s.router && w.begun == s.begun
            && forall tx <- w.launched :: tx in s.owner && w.launched[tx] == s.owner[tx]
  {
    hide RequestsOk;
    OneRequest(s, step.who);
  }

  /** Requests stay in order while only router and completions change. */
  lemma {:induction false} SameRequests(s: System, w: System)
    requires RequestsOk(s) && w.requests == s.requests && w.registered == s.registered && w.lost == s.lost
    requires w.owner == s.owner && w.launched == s.launched
    ensures RequestsOk(w)
  {
    forall q | q in w.requests ensures RequestOk(w, q, w.requests[q]) {
      assert RequestOk(s, q, s.requests[q]);
    }
  }

  lemma BeginKeeps(s: System, c: nat, tx: Tx)
    requires Core(s) && Enabled(s, BeginStep(c, tx))
    ensures Core(Next(s, BeginStep(c, tx)))
  {
    hide RequestsOk;
    SameRequests(s, Next(s, BeginStep(c, tx)));
  }

  lemma DropKeeps(s: System, step: Step)
    requires Core(s) && Enabled(s, step) && (step.DropResourceStep? || step.DropWaitersStep?)
    ensures Core(Next(s, step))
  {
    hide RequestsOk;
    SameRequests(s, Next(s, step));
  }

  lemma {:induction false} ResultKeeps(s: System, tx: Tx, result: A.Payload)
    requires Core(s) && Enabled(s, ResultStep(tx, result))
    ensures Core(Next(s, ResultStep(tx, result)))
  {
    hide RequestsOk;
    SameRequests(s, Next(s, ResultStep(tx, result)));
  }

  // ---------------------------------------------------------------- what completions leave behind

  lemma {:induction false} RouteTidy(s: System, who: Waiter, res: Resource)
    requires Core(s) && TidyOk(s) && Enabled(s, RouteStep(who, res))
    ensures TidyOk(Next(s, RouteStep(who, res)))
  {
    hide RequestsOk;
    var w := Next(s, RouteStep(who, res));
    assert s.nextTx !in s.begun;
    assert forall tx, r :: WillDrop(s, tx, r) ==> WillDrop(w, tx, r);
    assert forall tx :: Completing(s, tx) ==> Completing(w, tx);
  }

  lemma {:induction false} BeginTidy(s: System, c: nat, tx: Tx)
    requires Core(s) && TidyOk(s) && Enabled(s, BeginStep(c, tx))
    ensures TidyOk(Next(s, BeginStep(c, tx)))
  {
    hide RequestsOk, OwnersOk;
    var w := Next(s, BeginStep(c, tx));
    assert w.completions[c].tx == tx;
    assert forall t, r :: WillDrop(s, t, r) ==> WillDrop(w, t, r) by { CompletionsKept(s, w); }
    assert forall t :: Completing(s, t) ==> Completing(w, t) by { CompletionsKept(s, w); }
    forall r | r in w.router.byResource && w.router.byResource[r] in w.begun ensures WillDrop(w, w.router.byResource[r], r) {
      if w.router.byResource[r] == tx && tx !in s.begun {
        assert w.completions[c] == Completion(tx, Some(r), false);
      }
    }
  }

  lemma {:induction false} CompletionsKept(s: System, w: System)
    requires forall c <- s.completions :: c in w.completions && w.completions[c] == s.completions[c]
    ensures forall t, r :: WillDrop(s, t, r) ==> WillDrop(w, t, r)
    ensures forall t :: Completing(s, t) ==> Completing(w, t)
  {
    forall t, r | WillDrop(s, t, r) ensures WillDrop(w, t, r) {
      var c :| c in s.completions && s.completions[c] == Completion(t, Some(r), false);
      assert w.completions[c] == Completion(t, Some(r), false);
    }
    forall t | Completing(s, t) ensures Completing(w, t) {
      var c :| c in s.completions && s.completions[c].tx == t;
      assert w.completions[c].tx == t;
    }
  }

  lemma {:induction false} DropResourceTidy(s: System, c: nat)
    requires TidyOk(s) && Enabled(s, DropResourceStep(c))
    ensures TidyOk(Next(s, DropResourceStep(c)))
  {
    var w := Next(s, DropResourceStep(c));
    forall r | r in w.router.byResource && w.router.byResource[r] in w.begun ensures WillDrop(w, w.router.byResource[r], r) {
      var k :| k in s.completions && s.completions[k] == Completion(s.router.byResource[r], Some(r), false);
      assert k != c && w.completions[k] == s.completions[k];
    }
    forall tx | tx in w.router.waiters && tx in w.begun ensures Completing(w, tx) {
      var k :| k in s.completions && s.completions[k].tx == tx;
      assert w.completions[k].tx == tx;
    }
  }

  lemma {:induction false} DropWaitersTidy(s: System, c: nat)
    requires TidyOk(s) && Enabled(s, DropWaitersStep(c))
    ensures TidyOk(Next(s, DropWaitersStep(c)))
  {
    var w := Next(s, DropWaitersStep(c));
    forall r | r in w.router.byResource && w.router.byResource[r] in w.begun ensures WillDrop(w, w.router.byResource[r], r) {
      var k :| k in s.completions && s.completions[k] == Completion(s.router.byResource[r], Some(r), false);
      assert k != c && w.completions[k] == s.completions[k];
    }
    forall tx | tx in w.router.waiters && tx in w.begun ensures Completing(w, tx) {
      var k :| k in s.completions && s.completions[k].tx == tx;
      assert k != c && w.completions[k].tx == tx;
    }
  }

  lemma {:induction false} TidyStep(s: System, step: Step)
    requires Core(s) && TidyOk(s) && Enabled(s, step)
    ensures TidyOk(Next(s, step))
  {
    hide Core, TidyOk;
    match step {
      case RouteStep(who, res) => RouteTidy(s, who, res);
      case BeginStep(c, tx) => BeginTidy(s, c, tx);
      case DropResourceStep(c) => DropResourceTidy(s, c);
      case DropWaitersStep(c) => DropWaitersTidy(s, c);
      case DirectStep(_) => TidyFrame(s, Next(s, step));
      case RegisterStep(_, _) => TidyFrame(s, Next(s, step));
      case RefuseStep(_) => TidyFrame(s, Next(s, step));
      case LaunchStep(_) => TidyFrame(s, Next(s, step));
      case ResultStep(_, _) => TidyFrame(s, Next(s, step));
    }
  }

  lemma {:induction false} TidyFrame(s: System, w: System)
    requires TidyOk(s) && w.router == s.router && w.begun == s.begun && w.completions == s.completions && s.nextTx <= w.nextTx
    ensures TidyOk(w)
  {
    CompletionsKept(s, w);
  }

  // ---------------------------------------------------------------- the mail

  lemma {:induction false} MailFrame(s: System, w: System)
    requires MailOk(s) && w.mail == s.mail && w.registered == s.registered && s.lost <= w.lost
    requires forall tx <- s.launched :: tx in w.launched && w.launched[tx] == s.launched[tx]
    ensures MailOk(w)
  {
    assert forall tx, mail :: Announced(s, tx, mail) ==> Announced(w, tx, mail);
  }

  lemma {:induction false} MailGrows(s: System, w: System, m: A.Message)
    requires MailOk(s) && w.mail == s.mail + [m] && w.launched == s.launched && w.lost == s.lost
    requires forall p <- w.registered :: p in s.registered || m == Registration(p.0, p.1)
    requires m.Register? || (m.Deliver? && Announced(s, m.tx, s.mail))
    ensures MailOk(w)
  {
    forall i | 0 <= i < |w.mail| && w.mail[i].Deliver? ensures Announced(w, w.mail[i].tx, w.mail[..i]) {
      assert w.mail[..i] == s.mail[..i];
      assert i < |s.mail| ==> Announced(s, s.mail[i].tx, s.mail[..i]);
      assert i == |s.mail| ==> s.mail[..i] == s.mail;
    }
  }

  lemma {:induction false} MailStep(s: System, step: Step)
    requires Core(s) && MailOk(s) && Enabled(s, step)
    ensures MailOk(Next(s, step))
  {
    hide MailOk, Core;
    var w := Next(s, step);
    match step {
      case RegisterStep(who, told) =>
        if told {
          MailGrows(s, w, Registration(s.requests[who].tx, who));
        } else {
          MailFrame(s, w);
        }
      case ResultStep(tx, result) =>
        LaunchedIsAnnounced(s, tx);
        MailGrows(s, w, A.Deliver(tx, result));
      case LaunchStep(who) =>
        LaunchIsNew(s, who);
        MailFrame(s, w);
      case RouteStep(_, _) => MailFrame(s, w);
      case DirectStep(_) => MailFrame(s, w);
      case RefuseStep(_) => MailFrame(s, w);
      case BeginStep(_, _) => MailFrame(s, w);
      case DropResourceStep(_) => MailFrame(s, w);
      case DropWaitersStep(_) => MailFrame(s, w);
    }
  }

  lemma {:induction false} LaunchedIsAnnounced(s: System, tx: Tx)
    requires Core(s) && MailOk(s) && tx in s.launched
    ensures Announced(s, tx, s.mail)
  {
    hide RouterOk, Bounded, BegunOk, RequestsOk;
    OneRequest(s, s.launched[tx]);
  }

  lemma {:induction false} LaunchIsNew(s: System, who: Waiter)
    requires Core(s) && Enabled(s, LaunchStep(who))
    ensures s.requests[who].tx !in s.launched
  {
    hide RouterOk, Bounded, BegunOk, RequestsOk;
    OneRequest(s, who);
  }

  /** The invariant holds in every state any interleaving reaches. */
  lemma {:induction false} InvHolds(steps: seq<Step>)
    requires After(steps).Some?
    ensures Inv(After(steps).value)
  {
    hide Next, Inv, Enabled;
    if steps == [] {
      StartOk();
    } else {
      InvHolds(steps[..|steps| - 1]);
      StepKeeps(After(steps[..|steps| - 1]).value, steps[|steps| - 1]);
    }
  }

  lemma StepKeeps(s: System, step: Step)
    requires Inv(s) && Enabled(s, step)
    ensures Inv(Next(s, step))
  {
    hide Next, Core, TidyOk, MailOk, Enabled;
    TidyStep(s, step);
    MailStep(s, step);
    match step {
      case RouteStep(who, res) => RouteKeeps(s, who, res);
      case DirectStep(who) => DirectKeeps(s, who);
      case RegisterStep(_, _) => PhaseKeeps(s, step);
      case RefuseStep(_) => PhaseKeeps(s, step);
      case LaunchStep(_) => PhaseKeeps(s, step);
      case ResultStep(tx, result) => ResultKeeps(s, tx, result);
      case BeginStep(c, tx) => BeginKeeps(s, c, tx);
      case DropResourceStep(_) => DropKeeps(s, step);
      case DropWaitersStep(_) => DropKeeps(s, step);
    }
  }

  lemma StartOk()
    ensures Inv(START)
  {
  }

  // ---------------------------------------------------------------- what it means for clients

  /** In every interleaving, even with instant completion: the client whose request started an
      operation was registered for its result first, and no operation is started twice. */
  lemma {:induction false} StarterIsRegistered(steps: seq<Step>, who: Waiter)
    requires After(steps).Some? && who in After(steps).value.requests
    ensures var s := After(steps).value;
            var r := s.requests[who];
            && (r.phase == Launched ==> (r.tx, who) in s.registered || who in s.lost)
            && (r.phase == Launched <==> r.tx in s.launched && s.launched[r.tx] == who)
            && (r.starts && r.phase != Launched ==> r.tx !in s.launched && r.tx !in s.begun)
  {
    hide TidyOk, MailOk;
    InvHolds(steps);
    var s := After(steps).value;
    assert RequestOk(s, who, s.requests[who]);
  }

  /** Once no completion of a transaction is in progress any more, nothing of it is left in the router, and
      no later request joins it. */
  lemma {:induction false} CompletedIsForgotten(steps: seq<Step>, tx: Tx)
    requires After(steps).Some? && tx in After(steps).value.begun && !Completing(After(steps).value, tx)
    ensures var r := After(steps).value.router;
            tx !in r.byTx && tx !in r.waiters && forall res <- r.byResource :: r.byResource[res] != tx
  {
    hide RequestsOk, OwnersOk, MailOk;
    InvHolds(steps);
  }

  /** Once a completion of `tx` has begun, no later request is routed to `tx`: it joins another live
      operation for the resource or starts a new one. */
  lemma NobodyJoinsACompleted(steps: seq<Step>, tx: Tx, who: Waiter, res: Resource)
    requires After(steps).Some? && tx in After(steps).value.begun
    requires Enabled(After(steps).value, RouteStep(who, res))
    ensures var s := After(steps).value;
            var r := Next(s, RouteStep(who, res)).requests[who];
            && r.tx != tx
            && (r.starts ==> r.tx == s.nextTx)
            && (!r.starts ==> r.tx in s.router.byTx && s.router.byTx[r.tx] == res)
  {
    hide RequestsOk;
    InvHolds(steps);
    var s := After(steps).value;
    assert tx in s.launched && tx in s.owner && tx < s.nextTx;
  }

  /** A failed registration leaks: its transaction stays live, unstarted, in every continuation. */
  lemma {:induction false} RefusedIsStuckForever(steps: seq<Step>, more: seq<Step>, tx: Tx)
    requires After(steps).Some? && After(steps + more).Some? && tx in After(steps).value.router.byTx
    requires OwnerRefused(After(steps).value, tx)
    ensures var s := After(steps + more).value;
            tx in s.router.byTx && tx !in s.launched && OwnerRefused(s, tx)
    decreases |more|
  {
    if more == [] {
      assert steps + more == steps;
      InvHolds(steps);
      var s := After(steps).value;
      assert RequestOk(s, s.owner[tx], s.requests[s.owner[tx]]);
    } else {
      var most, last := more[..|more| - 1], more[|more| - 1];
      assert (steps + more)[..|steps + more| - 1] == steps + most;
      RefusedIsStuckForever(steps, most, tx);
      InvHolds(steps + most);
      RefusedStays(After(steps + most).value, last, tx);
    }
  }

  predicate OwnerRefused(s: System, tx: Tx) {
    tx in s.owner && s.owner[tx] in s.requests && s.requests[s.owner[tx]] == Request(tx, true, Refused)
  }

  lemma {:induction false} OneRequest(s: System, who: Waiter)
    requires RequestsOk(s) && who in s.requests
    ensures RequestOk(s, who, s.requests[who])
  {
  }

  lemma {:induction false} OwnedIsOld(s: System, tx: Tx)
    requires Bounded(s) && tx in s.owner
    ensures tx < s.nextTx
  {
  }

  lemma RefusedStays(s: System, step: Step, tx: Tx)
    requires Inv(s) && Enabled(s, step) && tx in s.router.byTx && tx !in s.launched && OwnerRefused(s, tx)
    ensures var w := Next(s, step);
            tx in w.router.byTx && tx !in w.launched && OwnerRefused(w, tx)
  {
    hide TidyOk, MailOk, RequestsOk, BegunOk, RouterOk, OwnersOk, Bounded;
    OwnedIsOld(s, tx);
    if step.LaunchStep? {
      assert RequestOk(s, step.who, s.requests[step.who]) by { OneRequest(s, step.who); }
    }
  }

  /** An unstarted live transaction can still be started exactly when its request's registration has
      not failed. */
  lemma StartableIffNotRefused(steps: seq<Step>, tx: Tx)
    requires After(steps).Some? && tx in After(steps).value.router.byTx && tx !in After(steps).value.launched
    ensures !OwnerRefused(After(steps).value, tx) <==>
              exists more :: After(steps + more).Some? && tx in After(steps + more).value.launched
  {
    InvHolds(steps);
    var s := After(steps).value;
    var who := s.owner[tx];
    assert RequestOk(s, who, s.requests[who]);
    if OwnerRefused(s, tx) {
      forall more | After(steps + more).Some? ensures tx !in After(steps + more).value.launched {
        RefusedIsStuckForever(steps, more, tx);
      }
    } else if s.requests[who].phase == Registered {
      Extend(steps, LaunchStep(who));
      assert tx in After(steps + [LaunchStep(who)]).value.launched;
    } else {
      var register := RegisterStep(who, true);
      Extend(steps, register);
      Extend(steps + [register], LaunchStep(who));
      assert steps + [register] + [LaunchStep(who)] == steps + [register, LaunchStep(who)];
      assert tx in After(steps + [register, LaunchStep(who)]).value.launched;
    }
  }

  /** The first request of client `n`. */
  function W(n: nat): Waiter {
    Waiter(n, n)
  }

  /** Meanwhile it swallows requests for its resource: request 2 joins an operation nobody started. */
  lemma RefusedBlocksTheResource()
    ensures var s := After([RouteStep(W(1), 7), RefuseStep(W(1)), RouteStep(W(2), 7)]);
            s.Some? && W(2) in s.value.requests && s.value.requests[W(2)] == Request(0, false, Routed) && s.value.launched == map[]
  {
    hide After;
    NoSteps();
    var one, refuse, two := RouteStep(W(1), 7), RefuseStep(W(1)), RouteStep(W(2), 7);
    Extend([], one);
    assert [] + [one] == [one] && [one] + [refuse] == [one, refuse] && [one, refuse] + [two] == [one, refuse, two];
    Extend([one], refuse);
    Extend([one, refuse], two);
  }

  const LAUNCH_ONE := [RouteStep(W(1), 7), RegisterStep(W(1), true), LaunchStep(W(1))]

  lemma LaunchOne()
    ensures var s := After(LAUNCH_ONE);
            s == Some(START.(router := Router(map[7 := 0], map[0 := 7], map[0 := [W(1)]]), nextTx := 1,
                             requests := map[W(1) := Request(0, true, Launched)], registered := {(0, W(1))},
                             owner := map[0 := W(1)], launched := map[0 := W(1)], mail := [Registration(0, W(1))]))
  {
    Extend([], RouteStep(W(1), 7));
    Extend([RouteStep(W(1), 7)], RegisterStep(W(1), true));
    Extend([RouteStep(W(1), 7), RegisterStep(W(1), true)], LaunchStep(W(1)));
    var s1 := Next(START, RouteStep(W(1), 7));
    assert s1.router == Router(map[7 := 0], map[0 := 7], map[0 := [W(1)]]);
    assert s1.requests == map[W(1) := Request(0, true, Routed)] && s1.owner == map[0 := W(1)];
    var s3 := Next(Next(s1, RegisterStep(W(1), true)), LaunchStep(W(1)));
    assert s3.requests == map[W(1) := Request(0, true, Launched)] && s3.launched == map[0 := W(1)];
    assert s3.registered == {(0, W(1))} && s3.mail == [Registration(0, W(1))] && s3.lost == {};
  }

  lemma {:induction false} NoSteps()
    ensures After([]) == Some(START)
  {
  }

  lemma Extend(steps: seq<Step>, step: Step)
    requires After(steps).Some? && Enabled(After(steps).value, step)
    ensures After(steps + [step]) == Some(Next(After(steps).value, step))
  {
    assert (steps + [step])[..|steps|] == steps;
  }

  predicate Waits(s: System, tx: Tx, who: Waiter) {
    tx in s.router.waiters && who in s.router.waiters[tx]
  }

  /** The waiters of a live transaction are the requests routed to it; a completion is of a transaction no longer live. */
  ghost predicate WaitersOk(s: System) {
    && (forall tx <- s.router.byTx, who :: Waits(s, tx, who) <==> who in s.requests && s.requests[who].tx == tx)
    && (forall c <- s.completions :: s.completions[c].tx in s.begun)
  }

  lemma {:induction false} WaitersRoute(s: System, who: Waiter, res: Resource)
    requires Core(s) && WaitersOk(s) && Enabled(s, RouteStep(who, res))
    ensures WaitersOk(Next(s, RouteStep(who, res)))
  {
    hide RequestsOk, RouterOk, BegunOk;
    var w := Next(s, RouteStep(who, res));
    var tx := w.requests[who].tx;
    forall q | q in s.requests ensures s.requests[q].tx < s.nextTx {
      OneRequest(s, q);
      OwnedIsOld(s, s.requests[q].tx);
    }
    forall t <- w.router.byTx, q ensures Waits(w, t, q) <==> q in w.requests && w.requests[q].tx == t {
      if t != tx {
        assert Waits(w, t, q) <==> Waits(s, t, q);
      }
    }
  }

  lemma {:induction false} WaitersDirect(s: System, who: Waiter)
    requires Core(s) && WaitersOk(s) && Enabled(s, DirectStep(who))
    ensures WaitersOk(Next(s, DirectStep(who)))
  {
    hide RequestsOk, RouterOk, BegunOk;
    var w := Next(s, DirectStep(who));
    if s.nextTx in s.router.byTx {
      OwnedIsOld(s, s.nextTx);
    }
    forall t <- w.router.byTx, q ensures Waits(w, t, q) <==> q in w.requests && w.requests[q].tx == t {
      assert Waits(w, t, q) <==> Waits(s, t, q);
    }
  }

  /** Steps that route nothing leave the waiters of live transactions alone. */
  lemma {:induction false} WaitersStay(s: System, step: Step)
    requires BegunOk(s) && WaitersOk(s) && Enabled(s, step) && !step.RouteStep? && !step.DirectStep?
    ensures WaitersOk(Next(s, step))
  {
    var w := Next(s, step);
    forall t <- w.router.byTx, q ensures Waits(w, t, q) <==> q in w.requests && w.requests[q].tx == t {
      assert t in s.router.byTx;
      assert Waits(w, t, q) <==> Waits(s, t, q);
    }
  }

  lemma {:induction false} WaitersStep(s: System, step: Step)
    requires Inv(s) && WaitersOk(s) && Enabled(s, step)
    ensures WaitersOk(Next(s, step))
  {
    hide WaitersOk, Next, TidyOk, MailOk, RequestsOk, RouterOk, BegunOk, OwnersOk, Bounded;
    match step {
      case RouteStep(who, res) => WaitersRoute(s, who, res);
      case DirectStep(who) => WaitersDirect(s, who);
      case _ => WaitersStay(s, step);
    }
  }

  /** In every run the waiters on record for a live transaction are exactly the requests routed to it, the one that
      claimed the resource and those that joined. */
  lemma {:induction false} WaitersHold(steps: seq<Step>)
    requires After(steps).Some?
    ensures WaitersOk(After(steps).value)
  {
    hide Next, Inv, Enabled;
    if steps != [] {
      WaitersHold(steps[..|steps| - 1]);
      InvHolds(steps[..|steps| - 1]);
      WaitersStep(After(steps[..|steps| - 1]).value, steps[|steps| - 1]);
    }
  }

  /** At most one live transaction per resource. */
  predicate Deduplicated(s: System) {
    forall tx <- s.router.byTx :: s.router.byTx[tx] in s.router.byResource && s.router.byResource[s.router.byTx[tx]] == tx
  }

  /** The second step of a completion is about to remove a mapping that now belongs to a newer,
      live transaction. */
  predicate RemovesNewer(s: System, step: Step)
    requires Enabled(s, step)
  {
    step.DropResourceStep? && s.completions[step.c].resource.Some? && Joins(s.router, s.completions[step.c].resource.value)
  }

  /** De-duplication survives a step exactly when the step is not that one. */
  lemma DeduplicationIsLostExactly(steps: seq<Step>, step: Step)
    requires After(steps).Some? && Enabled(After(steps).value, step) && Deduplicated(After(steps).value)
    ensures Deduplicated(Next(After(steps).value, step)) <==> !RemovesNewer(After(steps).value, step)
  {
    hide RequestsOk, TidyOk, MailOk, BegunOk, After;
    InvHolds(steps);
    var s := After(steps).value;
    var w := Next(s, step);
    assert s.nextTx !in s.router.byTx;
    if RemovesNewer(s, step) {
      var res := s.completions[step.c].resource.value;
      var tx := s.router.byResource[res];
      assert tx in w.router.byTx && w.router.byTx[tx] == res && res !in w.router.byResource;
    }
  }

  /** It can happen: a request routed between the first two steps of a completion loses its mapping,
      and the next request starts a second operation for the same resource. */
  lemma TwoOperationsForOneResource()
    ensures var s := After(LAUNCH_ONE + [BeginStep(0, 0)] + [RouteStep(W(2), 7)] + [DropResourceStep(0)] + [RouteStep(W(3), 7)]);
            && s.Some? && s.value.router.byTx == map[1 := 7, 2 := 7]
            && W(2) in s.value.requests && s.value.requests[W(2)] == Request(1, true, Routed)
            && W(3) in s.value.requests && s.value.requests[W(3)] == Request(2, true, Routed)
  {
    LaunchOne();
    var a := LAUNCH_ONE + [BeginStep(0, 0)];
    Extend(LAUNCH_ONE, BeginStep(0, 0));
    Extend(a, RouteStep(W(2), 7));
    Extend(a + [RouteStep(W(2), 7)], DropResourceStep(0));
    assert After(a + [RouteStep(W(2), 7)] + [DropResourceStep(0)]).value.router.byResource == map[];
    Extend(a + [RouteStep(W(2), 7)] + [DropResourceStep(0)], RouteStep(W(3), 7));
    assert After(a).value.router.byTx == map[];
  }

  // ---------------------------------------------------------------- with the session actor

  /** The actor handles the mail in order, at whatever times. */
  ghost predicate Handles(timed: seq<A.Step>, mail: seq<A.Message>) {
    |timed| == |mail| && forall k :: 0 <= k < |mail| ==> timed[k].msg == mail[k]
  }

  ghost predicate FirstResult(mail: seq<A.Message>, i: nat, tx: Tx) {
    && i < |mail| && mail[i].Deliver? && mail[i].tx == tx
    && forall k :: 0 <= k < i && mail[k].Deliver? ==> mail[k].tx != tx
  }

  /** When the first result of an operation reaches the actor, it sends the client that started the
      operation exactly one response, whenever the messages are handled. The response is for the request
      that client last registered for the transaction: for the one that started the operation exactly when
      the client joined it with no other in the meantime. */
  lemma {:induction false} StarterIsAnswered(steps: seq<Step>, tx: Tx, timed: seq<A.Step>, i: nat) returns (j: nat)
    requires After(steps).Some? && FirstResult(After(steps).value.mail, i, tx) && Handles(timed, After(steps).value.mail)
    requires tx in After(steps).value.launched && After(steps).value.launched[tx] !in After(steps).value.lost
    ensures j < i && After(steps).value.mail[j] == Registration(tx, After(steps).value.launched[tx])
    ensures var who, a := After(steps).value.launched[tx], A.After(A.START, timed[..i]);
            var w, last := A.Next(a, timed[i]), A.LastRequest(timed[j + 1..i], tx, who.client, who.request);
            && A.Answered(a, w, tx, who.client, last)
            && (A.Answered(a, w, tx, who.client, who.request) <==> last == who.request)
  {
    hide Core, TidyOk, After, A.After, A.Next, A.LastRequest, A.Answered;
    InvHolds(steps);
    var s := After(steps).value;
    var who := s.launched[tx];
    assert Announced(s, tx, s.mail[..i]);
    j :| 0 <= j < i && s.mail[j] == Registration(tx, who);
    A.FirstResultIsAnswered(timed, j, i, tx, who.client, who.request);
  }

  /** The same for any request that was registered for the operation, one that joined it among them. Before
      the first result it is answered with that result, unless the client registers another meanwhile. After
      it, with the result still cached, it is answered at once exactly when it is the client's first. */
  lemma {:induction false} RegisteredIsAnswered(steps: seq<Step>, tx: Tx, timed: seq<A.Step>, i: nat, j: nat, who: Waiter)
    requires After(steps).Some? && FirstResult(After(steps).value.mail, i, tx) && Handles(timed, After(steps).value.mail)
    requires j < |timed| && timed[j].msg == Registration(tx, who)
    ensures j < i ==>
              var a, last := A.After(A.START, timed[..i]), A.LastRequest(timed[j + 1..i], tx, who.client, who.request);
              && A.Answered(a, A.Next(a, timed[i]), tx, who.client, last)
              && (A.Answered(a, A.Next(a, timed[i]), tx, who.client, who.request) <==> last == who.request)
    ensures i < j && A.Runs(A.START, timed[..j]) && A.StaysCached(A.After(A.START, timed[..i + 1]), timed[i + 1..j], tx)
            && A.Survives(A.After(A.START, timed[..j]), timed[j], tx) ==>
              var a := A.After(A.START, timed[..j]);
              A.Answered(a, A.Next(a, timed[j]), tx, who.client, who.request) <==> !A.Registers(timed[..j], tx, who.client)
  {
    hide Core, TidyOk, After, A.After, A.Next, A.LastRequest, A.Answered, A.Runs, A.StaysCached, A.Survives, A.Registers;
    InvHolds(steps);
    if j < i {
      A.FirstResultIsAnswered(timed, j, i, tx, who.client, who.request);
    } else if A.Runs(A.START, timed[..j]) && A.StaysCached(A.After(A.START, timed[..i + 1]), timed[i + 1..j], tx)
              && A.Survives(A.After(A.START, timed[..j]), timed[j], tx) {
      A.LaterRegistrationIff(timed, i, j, tx, who.client, who.request);
    }
  }
}
