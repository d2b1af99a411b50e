/** The random event generator of the simulations. Every peer runs it with the same seed, so that each
    knows which contracts exist; only the requests addressed to a peer are returned to it. */
module EventGenerator {
  import opened Messages

  type Bytes = seq<nat>

  datatype Contract = Contract(code: Bytes, params: Bytes)

  datatype Request =
    | Put(contract: Contract, bytes: Bytes)
    | Get(contract: Contract)
    | Update(contract: Contract, bytes: Bytes)
    | Subscribe(contract: Contract, bytes: Bytes)

  /** A random source with state of type `R`: a byte, a number below a bound, an index into a list. */
  datatype Rng<!R> = Rng(u8: R -> (nat, R), range: (R, nat) -> (nat, R), choose: (R, nat) -> (Option<nat>, R))

  ghost predicate GoodRng<R(!new)>(g: Rng<R>) {
    && (forall r :: g.u8(r).0 < 256)
    && (forall r, n :: n > 0 ==> g.range(r, n).0 < n)
    && (forall r, n :: if n == 0 then g.choose(r, n).0 == None
                       else g.choose(r, n).0.Some? && g.choose(r, n).0.value < n)
  }

  /** What all peers are meant to share. */
  datatype Core<R> = Core(rng: R, contracts: seq<Contract>)

  datatype Params = Params(numPeers: nat, maxIterations: nat, maxContracts: nat)

  function Draw<R>(g: Rng<R>, r: R, n: nat): (Bytes, R) {
    if n == 0 then ([], r) else
    var (bs, r') := Draw(g, r, n - 1);
    var (b, r'') := g.u8(r');
    (bs + [b], r'')
  }

  function ByteVec<R>(g: Rng<R>, r: R): (Bytes, R) {
    var (len, r') := g.u8(r);
    Draw(g, r', len + 1)
  }

  function Choose<R(!new)>(g: Rng<R>, r: R, cs: seq<Contract>): (Option<Contract>, R)
    requires GoodRng(g)
  {
    var (i, r') := g.choose(r, |cs|);
    (if i.Some? then Some(cs[i.value]) else None, r')
  }

  datatype Outcome<R> = Outcome(core: Core<R>, request: Option<Request>)

  /** The peer an iteration addresses, what it rolls, and the state after the two draws. */
  datatype Roll<R> = Roll(target: nat, value: nat, rng: R)

  function Rolled<R>(g: Rng<R>, p: Params, c: Core<R>): Roll<R> {
    var (target, r) := g.range(c.rng, p.numPeers);
    var (value, r') := g.range(r, 100);
    Roll(target, value, r')
  }

  /** One iteration on peer `peer`, which owns `owned`. */
  function Iterate<R(!new)>(g: Rng<R>, p: Params, peer: nat, owned: set<Contract>, c: Core<R>): Outcome<R>
    requires GoodRng(g)
  {
    var roll := Rolled(g, p, c);
    var mine := roll.target == peer;
    if roll.value < 5 then
      if p.maxContracts <= |c.contracts| then Outcome(c.(rng := roll.rng), None) else
      var (code, r1) := ByteVec(g, roll.rng);
      var (params, r2) := ByteVec(g, r1);
      var (bytes, r3) := ByteVec(g, r2);
      var contract := Contract(code, params);
      Outcome(Core(r3, c.contracts + [contract]), if mine then Some(Put(contract, bytes)) else None)
    else if roll.value < 20 then
      var (existing, r1) := Choose(g, roll.rng, c.contracts);
      if existing == None || !mine then Outcome(c.(rng := r1), None) else
      var (bytes, r2) := ByteVec(g, r1);
      Outcome(c.(rng := r2), Some(Put(existing.value, bytes)))
    else if roll.value < 35 then
      var (existing, r1) := Choose(g, roll.rng, c.contracts);
      Outcome(c.(rng := r1), if existing == None || !mine then None else Some(Get(existing.value)))
    else if roll.value < 80 then
      var (bytes, r1) := ByteVec(g, roll.rng);
      var (existing, r2) := Choose(g, r1, c.contracts);
      Outcome(c.(rng := r2),
              if existing == None || !mine || existing.value !in owned then None
              else Some(Update(existing.value, bytes)))
    else
      var (bytes, r1) := ByteVec(g, roll.rng);
      var (existing, r2) := Choose(g, r1, c.contracts);
      Outcome(c.(rng := r2), if existing == None || !mine then None else Some(Subscribe(existing.value, bytes)))
  }

  /** The event that only the addressed peer draws bytes for: a put to a contract that exists. */
  predicate PutsExisting<R>(g: Rng<R>, p: Params, peer: nat, c: Core<R>) {
    var roll := Rolled(g, p, c);
    5 <= roll.value < 20 && c.contracts != [] && roll.target == peer
  }

  // ---------------------------------------------------------------- many iterations

  /** What a peer's shared part is after `n` iterations. What the peer owns has no part in it. */
  function CoreAfter<R(!new)>(g: Rng<R>, p: Params, peer: nat, c: Core<R>, n: nat): Core<R>
    requires GoodRng(g)
  {
    if n == 0 then c else Iterate(g, p, peer, {}, CoreAfter(g, p, peer, c, n - 1)).core
  }

  lemma {:induction false} OwnershipDoesNotMatter<R(!new)>(g: Rng<R>, p: Params, peer: nat, owned: set<Contract>, c: Core<R>)
    requires GoodRng(g)
    ensures Iterate(g, p, peer, owned, c).core == Iterate(g, p, peer, {}, c).core
  {
    hide Choose, ByteVec;
  }

  lemma {:induction false} CoreAfterSplit<R(!new)>(g: Rng<R>, p: Params, peer: nat, c: Core<R>, m: nat, n: nat)
    requires GoodRng(g)
    ensures CoreAfter(g, p, peer, c, m + n) == CoreAfter(g, p, peer, CoreAfter(g, p, peer, c, m), n)
  {
    hide Iterate;
    if n > 0 {
      CoreAfterSplit(g, p, peer, c, m, n - 1);
    }
  }

  /** Drawing bytes leaves a different state behind. */
  ghost predicate Moves<R(!new)>(g: Rng<R>) {
    forall r :: ByteVec(g, r).1 != r
  }

  /** One iteration keeps two peers together exactly when it is not a put to an existing contract
      addressed to one of them. */
  lemma {:induction false} OneStepTogetherIff<R(!new)>(g: Rng<R>, p: Params, a: nat, b: nat, c: Core<R>)
    requires GoodRng(g) && Moves(g) && a != b
    ensures Iterate(g, p, a, {}, c).core == Iterate(g, p, b, {}, c).core
       <==> !PutsExisting(g, p, a, c) && !PutsExisting(g, p, b, c)
  {
    hide ByteVec;
    var roll := Rolled(g, p, c);
    if 5 <= roll.value < 20 {
      var r := Choose(g, roll.rng, c.contracts).1;
      assert ByteVec(g, r).1 != r;
    }
  }

  ghost predicate TogetherUpTo<R(!new)>(g: Rng<R>, p: Params, a: nat, b: nat, c: Core<R>, n: nat)
    requires GoodRng(g)
  {
    forall m :: 0 <= m <= n ==> CoreAfter(g, p, a, c, m) == CoreAfter(g, p, b, c, m)
  }

  /** No put to an existing contract was addressed to either peer in the first `n` iterations. */
  ghost predicate NoPutsUpTo<R(!new)>(g: Rng<R>, p: Params, a: nat, b: nat, c: Core<R>, n: nat)
    requires GoodRng(g)
  {
    forall m :: 0 <= m < n ==>
      !PutsExisting(g, p, a, CoreAfter(g, p, a, c, m)) && !PutsExisting(g, p, b, CoreAfter(g, p, a, c, m))
  }

  /** Two peers with the same seed stay together for as long as neither of them is addressed by a put to an
      existing contract, and part at the first one that addresses either. */
  lemma {:induction false} LockstepIff<R(!new)>(g: Rng<R>, p: Params, a: nat, b: nat, c: Core<R>, n: nat)
    requires GoodRng(g) && Moves(g) && a != b
    ensures TogetherUpTo(g, p, a, b, c, n) <==> NoPutsUpTo(g, p, a, b, c, n)
  {
    hide Iterate, PutsExisting, Moves;
    if n > 0 {
      LockstepIff(g, p, a, b, c, n - 1);
      if TogetherUpTo(g, p, a, b, c, n - 1) {
        assert CoreAfter(g, p, a, c, n - 1) == CoreAfter(g, p, b, c, n - 1);
        OneStepTogetherIff(g, p, a, b, CoreAfter(g, p, a, c, n - 1));
        NoPutsNext(g, p, a, b, c, n);
        TogetherNext(g, p, a, b, c, n);
      }
    }
  }

  /** Staying together needs nothing of the random source, and nothing of the peers. */
  lemma {:induction false} OneStepTogether<R(!new)>(g: Rng<R>, p: Params, a: nat, b: nat, c: Core<R>)
    requires GoodRng(g) && !PutsExisting(g, p, a, c) && !PutsExisting(g, p, b, c)
    ensures Iterate(g, p, a, {}, c).core == Iterate(g, p, b, {}, c).core
  {
    hide ByteVec;
  }

  lemma {:induction false} LockstepHolds<R(!new)>(g: Rng<R>, p: Params, a: nat, b: nat, c: Core<R>, n: nat)
    requires GoodRng(g) && NoPutsUpTo(g, p, a, b, c, n)
    ensures TogetherUpTo(g, p, a, b, c, n)
  {
    hide Iterate, PutsExisting;
    if n > 0 {
      NoPutsNext(g, p, a, b, c, n);
      LockstepHolds(g, p, a, b, c, n - 1);
      assert CoreAfter(g, p, a, c, n - 1) == CoreAfter(g, p, b, c, n - 1);
      OneStepTogether(g, p, a, b, CoreAfter(g, p, a, c, n - 1));
      TogetherNext(g, p, a, b, c, n);
    }
  }

  lemma {:induction false} NoPutsNext<R(!new)>(g: Rng<R>, p: Params, a: nat, b: nat, c: Core<R>, n: nat)
    requires GoodRng(g) && n > 0
    ensures NoPutsUpTo(g, p, a, b, c, n)
       <==> && NoPutsUpTo(g, p, a, b, c, n - 1)
            && !PutsExisting(g, p, a, CoreAfter(g, p, a, c, n - 1))
            && !PutsExisting(g, p, b, CoreAfter(g, p, a, c, n - 1))
  {
    hide PutsExisting, CoreAfter;
  }

  lemma {:induction false} TogetherNext<R(!new)>(g: Rng<R>, p: Params, a: nat, b: nat, c: Core<R>, n: nat)
    requires GoodRng(g) && n > 0
    ensures TogetherUpTo(g, p, a, b, c, n)
       <==> TogetherUpTo(g, p, a, b, c, n - 1) && CoreAfter(g, p, a, c, n) == CoreAfter(g, p, b, c, n)
  {
    hide CoreAfter;
  }

  // ---------------------------------------------------------------- one call

  datatype Generated<R> = Generated(core: Core<R>, iteration: nat, request: Option<Request>)

  /** Iterations until one yields a request for this peer, or until they run out. */
  function Generate<R(!new)>(g: Rng<R>, p: Params, peer: nat, owned: set<Contract>, c: Core<R>, iteration: nat): (out: Generated<R>)
    requires GoodRng(g)
    ensures iteration <= out.iteration && (out.request.Some? ==> iteration < out.iteration)
    decreases p.maxIterations - iteration
  {
    if iteration >= p.maxIterations then Generated(c, iteration, None) else
    var once := Iterate(g, p, peer, owned, c);
    if once.request.Some? then Generated(once.core, iteration + 1, once.request)
    else Generate(g, p, peer, owned, once.core, iteration + 1)
  }

  /** However the calls are cut, the shared part depends on the number of iterations alone. */
  lemma {:induction false} CallsAreIterations<R(!new)>(g: Rng<R>, p: Params, peer: nat, owned: set<Contract>, c: Core<R>, iteration: nat)
    requires GoodRng(g)
    ensures var out := Generate(g, p, peer, owned, c, iteration);
            && iteration <= out.iteration && (iteration <= p.maxIterations ==> out.iteration <= p.maxIterations)
            && out.core == CoreAfter(g, p, peer, c, out.iteration - iteration)
            && (out.request == None ==> out.iteration >= p.maxIterations)
    decreases p.maxIterations - iteration
  {
    hide Iterate;
    if iteration < p.maxIterations {
      var once := Iterate(g, p, peer, owned, c);
      OwnershipDoesNotMatter(g, p, peer, owned, c);
      assert CoreAfter(g, p, peer, c, 1) == once.core by { assert CoreAfter(g, p, peer, c, 0) == c; }
      if once.request == None {
        CallsAreIterations(g, p, peer, owned, once.core, iteration + 1);
        CoreAfterSplit(g, p, peer, c, 1, Generate(g, p, peer, owned, c, iteration).iteration - iteration - 1);
      }
    }
  }

  /** A session: one call after another, with whatever the peer owns by then. */
  function Session<R(!new)>(g: Rng<R>, p: Params, peer: nat, c: Core<R>, calls: seq<set<Contract>>): Generated<R>
    requires GoodRng(g)
  {
    if calls == [] then Generated(c, 0, None) else
    var before := Session(g, p, peer, c, calls[..|calls| - 1]);
    Generate(g, p, peer, calls[|calls| - 1], before.core, before.iteration)
  }

  lemma {:induction false} CallContinues<R(!new)>(g: Rng<R>, p: Params, peer: nat, owned: set<Contract>, c: Core<R>, n: nat)
    requires GoodRng(g) && n <= p.maxIterations
    ensures var out := Generate(g, p, peer, owned, CoreAfter(g, p, peer, c, n), n);
            out.core == CoreAfter(g, p, peer, c, out.iteration) && out.iteration <= p.maxIterations
  {
    hide Generate, CoreAfter, GoodRng;
    var mid := CoreAfter(g, p, peer, c, n);
    CallsAreIterations(g, p, peer, owned, mid, n);
    var k := Generate(g, p, peer, owned, mid, n).iteration - n;
    CoreAfterSplit(g, p, peer, c, n, k);
  }

  lemma {:induction false} SessionIsIterations<R(!new)>(g: Rng<R>, p: Params, peer: nat, c: Core<R>, calls: seq<set<Contract>>)
    requires GoodRng(g)
    ensures var out := Session(g, p, peer, c, calls);
            out.core == CoreAfter(g, p, peer, c, out.iteration) && out.iteration <= p.maxIterations
  {
    hide Generate, GoodRng;
    if calls == [] {
      assert CoreAfter(g, p, peer, c, 0) == c;
    } else {
      hide CoreAfter;
      SessionIsIterations(g, p, peer, c, calls[..|calls| - 1]);
      CallContinues(g, p, peer, calls[|calls| - 1], c, Session(g, p, peer, c, calls[..|calls| - 1]).iteration);
    }
  }

  /** Two peers that have done equally many iterations, in whatever calls, know the same contracts and
      have the same random state, unless a put to an existing contract has addressed one of them. */
  lemma {:induction false} SessionsAgree<R(!new)>(g: Rng<R>, p: Params, a: nat, b: nat, c: Core<R>,
                                                  calls: seq<set<Contract>>, calls': seq<set<Contract>>)
    requires GoodRng(g)
    requires Session(g, p, a, c, calls).iteration == Session(g, p, b, c, calls').iteration
    requires NoPutsUpTo(g, p, a, b, c, Session(g, p, a, c, calls).iteration)
    ensures Session(g, p, a, c, calls).core == Session(g, p, b, c, calls').core
  {
    hide Session, CoreAfter, NoPutsUpTo;
    SessionIsIterations(g, p, a, c, calls);
    SessionIsIterations(g, p, b, c, calls');
    LockstepHolds(g, p, a, b, c, Session(g, p, a, c, calls).iteration);
  }

  /** With no iterations to do, a session does nothing at all: it cannot tell whether peers agree. */
  lemma {:induction false} IdleSession<R(!new)>(g: Rng<R>, p: Params, peer: nat, c: Core<R>, calls: seq<set<Contract>>)
    requires GoodRng(g) && p.maxIterations == 0
    ensures Session(g, p, peer, c, calls) == Generated(c, 0, None)
  {
    if calls != [] {
      IdleSession(g, p, peer, c, calls[..|calls| - 1]);
    }
  }

  // ---------------------------------------------------------------- the requests that come out

  /** The contract an iteration draws: none for a roll that makes a new one. */
  function Drawn<R(!new)>(g: Rng<R>, p: Params, c: Core<R>): Option<Contract>
    requires GoodRng(g)
  {
    var roll := Rolled(g, p, c);
    if roll.value < 5 then None
    else if roll.value < 35 then Choose(g, roll.rng, c.contracts).0
    else Choose(g, ByteVec(g, roll.rng).1, c.contracts).0
  }

  /** An iteration that addresses the peer yields a request unless it would make one contract too many, there is
      no contract yet, or it is an update of a contract the peer does not own. */
  predicate Yields<R(!new)>(g: Rng<R>, p: Params, peer: nat, owned: set<Contract>, c: Core<R>)
    requires GoodRng(g)
  {
    var roll := Rolled(g, p, c);
    && roll.target == peer
    && (roll.value < 5 ==> |c.contracts| < p.maxContracts)
    && (roll.value >= 5 ==> c.contracts != [])
    && (35 <= roll.value < 80 ==> Drawn(g, p, c).Some? && Drawn(g, p, c).value in owned)
  }

  /** The roll decides the kind of the request: 20 in 100 puts, 15 gets, 45 updates, 20 subscriptions. */
  predicate OfKind(value: nat, r: Request) {
    match r
    case Put(_, _) => value < 20
    case Get(_) => 20 <= value < 35
    case Update(_, _) => 35 <= value < 80
    case Subscribe(_, _) => 80 <= value < 100
  }

  predicate Payload(bytes: Bytes) {
    0 < |bytes| <= 256 && forall b <- bytes :: b < 256
  }

  /** Everything a request carries was drawn, and nothing is empty. */
  predicate Filled(r: Request) {
    r.Get? || Payload(r.bytes)
  }

  lemma {:induction false} DrawnBytes<R(!new)>(g: Rng<R>, r: R, n: nat)
    requires GoodRng(g)
    ensures |Draw(g, r, n).0| == n && forall b <- Draw(g, r, n).0 :: b < 256
  {
    if n > 0 {
      DrawnBytes(g, r, n - 1);
    }
  }

  lemma {:induction false} ByteVecIsPayload<R(!new)>(g: Rng<R>, r: R)
    requires GoodRng(g)
    ensures Payload(ByteVec(g, r).0)
  {
    hide Draw;
    DrawnBytes(g, g.u8(r).1, g.u8(r).0 + 1);
  }

  /** A new contract is drawn code first, then parameters, then the state to put. */
  function NewPut<R>(g: Rng<R>, r: R): Request {
    var code := ByteVec(g, r);
    var params := ByteVec(g, code.1);
    Put(Contract(code.0, params.0), ByteVec(g, params.1).0)
  }

  /** What one iteration returns, and to whom. */
  lemma {:induction false} YieldsExactly<R(!new)>(g: Rng<R>, p: Params, peer: nat, owned: set<Contract>, c: Core<R>)
    requires GoodRng(g)
    ensures var out, value := Iterate(g, p, peer, owned, c), Rolled(g, p, c).value;
            && (out.request.Some? <==> Yields(g, p, peer, owned, c))
            && (out.request.Some? ==>
                  && OfKind(value, out.request.value) && Filled(out.request.value)
                  && (if value < 5 then out.core.contracts == c.contracts + [out.request.value.contract]
                                        && out.request.value == NewPut(g, Rolled(g, p, c).rng)
                      else out.core.contracts == c.contracts && Some(out.request.value.contract) == Drawn(g, p, c)))
  {
    hide ByteVec, Payload;
    var roll := Rolled(g, p, c);
    assert roll.value == g.range(g.range(c.rng, p.numPeers).1, 100).0 < 100;
    ByteVecIsPayload(g, roll.rng);
    ByteVecIsPayload(g, ByteVec(g, ByteVec(g, roll.rng).1).1);
    ByteVecIsPayload(g, Choose(g, roll.rng, c.contracts).1);
  }

  lemma {:induction false} DrawnExists<R(!new)>(g: Rng<R>, p: Params, c: Core<R>)
    requires GoodRng(g)
    ensures Drawn(g, p, c).Some? ==> Drawn(g, p, c).value in c.contracts
    ensures var roll := Rolled(g, p, c);
            var r := if roll.value < 35 then roll.rng else ByteVec(g, roll.rng).1;
            roll.value >= 5 && c.contracts != [] ==> Drawn(g, p, c) == Some(c.contracts[g.choose(r, |c.contracts|).0.value])
  {
    hide ByteVec;
  }

  /** A call returns the first request its iterations yield, and nothing if they run out without one. */
  lemma {:induction false} CallReturnsTheFirst<R(!new)>(g: Rng<R>, p: Params, peer: nat, owned: set<Contract>, c: Core<R>, iteration: nat)
    requires GoodRng(g)
    ensures var out := Generate(g, p, peer, owned, c, iteration);
            && (forall m: nat :: m < out.iteration - iteration ==>
                  (Yields(g, p, peer, owned, CoreAfter(g, p, peer, c, m)) <==> out.request.Some? && m == out.iteration - iteration - 1))
            && (out.request.Some? ==>
                  out.request == Iterate(g, p, peer, owned, CoreAfter(g, p, peer, c, out.iteration - iteration - 1)).request)
    decreases p.maxIterations - iteration
  {
    hide Iterate, Yields;
    if iteration < p.maxIterations {
      var once := Iterate(g, p, peer, owned, c);
      YieldsExactly(g, p, peer, owned, c);
      OwnershipDoesNotMatter(g, p, peer, owned, c);
      assert CoreAfter(g, p, peer, c, 0) == c;
      if once.request == None {
        CallReturnsTheFirst(g, p, peer, owned, once.core, iteration + 1);
        var out := Generate(g, p, peer, owned, c, iteration);
        forall m: nat | 0 < m < out.iteration - iteration
          ensures CoreAfter(g, p, peer, c, m) == CoreAfter(g, p, peer, once.core, m - 1)
        {
          CoreAfterSplit(g, p, peer, c, 1, m - 1);
          assert CoreAfter(g, p, peer, c, 1) == once.core;
        }
      }
    }
  }

  /** What happens to a peer: it is asked for its next event, or told that a get was answered. */
  datatype Act = Ask | Answer(contract: Contract)

  /** A returned request, with the act that asked for it and the iteration that yielded it. */
  datatype Returned = Returned(act: nat, iteration: nat, request: Request)

  datatype Life<R> = Life(core: Core<R>, iteration: nat, owned: set<Contract>, returned: seq<Returned>)

  function Live<R(!new)>(g: Rng<R>, p: Params, peer: nat, c: Core<R>, acts: seq<Act>): Life<R>
    requires GoodRng(g)
  {
    if acts == [] then Life(c, 0, {}, []) else
    var n := |acts| - 1;
    var life := Live(g, p, peer, c, acts[..n]);
    match acts[n]
    case Answer(k) => life.(owned := life.owned + {k})
    case Ask =>
      var out := Generate(g, p, peer, life.owned, life.core, life.iteration);
      Life(out.core, out.iteration, life.owned,
           if out.request.Some? then life.returned + [Returned(n, out.iteration - 1, out.request.value)] else life.returned)
  }

  /** The request was addressed to this peer, is of the kind rolled, and is about a contract that exists by then;
      an update is about one this peer was answered for earlier. */
  ghost predicate Valid<R(!new)>(g: Rng<R>, p: Params, peer: nat, c: Core<R>, acts: seq<Act>, r: Returned)
    requires GoodRng(g)
  {
    var before, roll := CoreAfter(g, p, peer, c, r.iteration), Rolled(g, p, CoreAfter(g, p, peer, c, r.iteration));
    && r.act < |acts| && acts[r.act] == Ask
    && roll.target == peer && OfKind(roll.value, r.request) && Filled(r.request)
    && (if roll.value < 5 then CoreAfter(g, p, peer, c, r.iteration + 1).contracts == before.contracts + [r.request.contract]
        else r.request.contract in before.contracts)
    && (r.request.Update? ==> Answer(r.request.contract) in acts[..r.act])
  }

  /** Every request a peer is ever given is valid, and no iteration gives two. */
  lemma {:induction false} RequestsAreValid<R(!new)>(g: Rng<R>, p: Params, peer: nat, c: Core<R>, acts: seq<Act>)
    requires GoodRng(g)
    ensures var life := Live(g, p, peer, c, acts);
            && life.core == CoreAfter(g, p, peer, c, life.iteration) && life.iteration <= p.maxIterations
            && (forall k :: k in life.owned <==> Answer(k) in acts)
            && (forall r <- life.returned :: Valid(g, p, peer, c, acts, r) && r.iteration < life.iteration)
            && (forall i, j :: 0 <= i < j < |life.returned| ==> life.returned[i].iteration < life.returned[j].iteration)
    decreases |acts|
  {
    hide Generate, CoreAfter, Iterate, Valid;
    if acts == [] {
      NoIterations(g, p, peer, c);
    } else {
      var n := |acts| - 1;
      var before := acts[..n];
      var was := Live(g, p, peer, c, before);
      RequestsAreValid(g, p, peer, c, before);
      assert acts == before + [acts[n]];
      forall r <- was.returned ensures Valid(g, p, peer, c, acts, r) {
        StaysValid(g, p, peer, c, before, acts[n], r);
      }
      if acts[n] == Ask {
        AskIsValid(g, p, peer, c, before, was);
      }
    }
  }

  lemma {:induction false} NoIterations<R(!new)>(g: Rng<R>, p: Params, peer: nat, c: Core<R>)
    requires GoodRng(g)
    ensures CoreAfter(g, p, peer, c, 0) == c
  {
  }

  lemma {:induction false} StaysValid<R(!new)>(g: Rng<R>, p: Params, peer: nat, c: Core<R>, before: seq<Act>, last: Act, r: Returned)
    requires GoodRng(g) && Valid(g, p, peer, c, before, r)
    ensures Valid(g, p, peer, c, before + [last], r)
  {
    hide CoreAfter, Rolled, OfKind, Filled;
    assert (before + [last])[..r.act] == before[..r.act];
  }

  lemma {:induction false} AskIsValid<R(!new)>(g: Rng<R>, p: Params, peer: nat, c: Core<R>, before: seq<Act>, life: Life<R>)
    requires GoodRng(g) && life.core == CoreAfter(g, p, peer, c, life.iteration) && life.iteration <= p.maxIterations
    requires forall k :: k in life.owned <==> Answer(k) in before
    ensures var out := Generate(g, p, peer, life.owned, life.core, life.iteration);
            && out.core == CoreAfter(g, p, peer, c, out.iteration) && life.iteration <= out.iteration <= p.maxIterations
            && (out.request.Some? ==>
                  && life.iteration < out.iteration
                  && Valid(g, p, peer, c, before + [Ask], Returned(|before|, out.iteration - 1, out.request.value)))
  {
    hide Generate, CoreAfter, Iterate, Rolled, OfKind, Filled, Choose, Drawn;
    var out := Generate(g, p, peer, life.owned, life.core, life.iteration);
    CallContinues(g, p, peer, life.owned, c, life.iteration);
    CallReturnsTheFirst(g, p, peer, life.owned, life.core, life.iteration);
    if out.request.Some? {
      var m := out.iteration - 1;
      CoreAfterSplit(g, p, peer, c, life.iteration, m - life.iteration);
      var mid := CoreAfter(g, p, peer, c, m);
      YieldsExactly(g, p, peer, life.owned, mid);
      DrawnExists(g, p, mid);
      OwnershipDoesNotMatter(g, p, peer, life.owned, mid);
      OneMoreIteration(g, p, peer, c, m);
      UpdateIsOwned(g, p, peer, life.owned, mid);
      assert (before + [Ask])[..|before|] == before;
    }
  }

  lemma {:induction false} OneMoreIteration<R(!new)>(g: Rng<R>, p: Params, peer: nat, c: Core<R>, n: nat)
    requires GoodRng(g)
    ensures CoreAfter(g, p, peer, c, n + 1) == Iterate(g, p, peer, {}, CoreAfter(g, p, peer, c, n)).core
  {
    hide Iterate;
  }

  lemma {:induction false} UpdateIsOwned<R(!new)>(g: Rng<R>, p: Params, peer: nat, owned: set<Contract>, c: Core<R>)
    requires GoodRng(g)
    ensures var r := Iterate(g, p, peer, owned, c).request;
            r.Some? && r.value.Update? ==> r.value.contract in owned
  {
    hide ByteVec, Choose;
  }

  // ---------------------------------------------------------------- two peers that part

  /** A source that counts its draws; the tenth is a five, every other draw is a zero. */
  function Counting(): Rng<int> {
    Rng((r: int) => (0, r + 1),
        (r: int, n: nat) => (if r == 9 && n > 5 then 5 else 0, r + 1),
        (r: int, n: nat) => (if n == 0 then None else Some(0), r + 1))
  }

  lemma {:induction false} CountingBytes(r: int)
    ensures ByteVec(Counting(), r) == ([0], r + 2)
  {
    var g := Counting();
    assert Draw(g, r + 1, 0) == ([], r + 1);
    assert [] + [0] == [0] && Draw(g, r + 1, 1) == ([0], r + 2);
  }

  /** The first event creates a contract, the second puts it again, addressed to peer 0: peer 0 draws two
      numbers that peer 1 does not, and the two no longer share a random state. */
  lemma {:induction false} PutPartsThePeers()
    ensures var g, p, c := Counting(), Params(2, 10, 1), Core(0, []);
            && GoodRng(g) && Moves(g)
            && CoreAfter(g, p, 0, c, 2).rng == 13 && CoreAfter(g, p, 1, c, 2).rng == 11
  {
    var g, p, c := Counting(), Params(2, 10, 1), Core(0, []);
    forall r ensures ByteVec(g, r) == ([0], r + 2) {
      CountingBytes(r);
    }
    assert GoodRng(g);
    var c1 := Core(8, [Contract([0], [0])]);
    forall peer | peer == 0 || peer == 1 ensures CoreAfter(g, p, peer, c, 1) == c1 {
      assert CoreAfter(g, p, peer, c, 0) == c;
      assert Rolled(g, p, c) == Roll(0, 0, 2);
    }
    assert Rolled(g, p, c1) == Roll(0, 5, 10);
    assert Choose(g, 10, c1.contracts).1 == 11;
  }

  // ---------------------------------------------------------------- the generator in place

  class Generator<R(!new)> {
    const g: Rng<R>
    const params: Params
    const thisPeer: nat
    var rng: R
    var currentIteration: nat
    var ownsContracts: set<Contract>
    var existingContracts: seq<Contract>

    constructor (g: Rng<R>, params: Params, thisPeer: nat, seed: R)
      ensures this.g == g && this.params == params && this.thisPeer == thisPeer
      ensures View() == Core(seed, []) && currentIteration == 0 && ownsContracts == {}
    {
      this.g, this.params, this.thisPeer := g, params, thisPeer;
      rng, currentIteration, ownsContracts, existingContracts := seed, 0, {}, [];
    }

    ghost function View(): Core<R>
      reads this
    {
      Core(rng, existingContracts)
    }

    method RandomByteVec() returns (bytes: Bytes)
      modifies this`rng
      ensures (bytes, rng) == ByteVec(g, old(rng))
    {
      var (len, start) := g.u8(rng);
      bytes, rng := [], start;
      var i := 0;
      while i < len + 1
        invariant 0 <= i <= len + 1 && (bytes, rng) == Draw(g, start, i)
      {
        var (b, r) := g.u8(rng);
        bytes, rng := bytes + [b], r;
        i := i + 1;
      }
    }

    method ChooseExisting() returns (contract: Option<Contract>)
      requires GoodRng(g)
      modifies this`rng
      ensures (contract, rng) == Choose(g, old(rng), existingContracts)
    {
      var (i, r) := g.choose(rng, |existingContracts|);
      rng := r;
      contract := if i.Some? then Some(existingContracts[i.value]) else None;
    }

    /** One pass of the loop body. */
    method Pass() returns (request: Option<Request>)
      requires GoodRng(g)
      modifies this`rng, this`existingContracts
      ensures Outcome(View(), request) == Iterate(g, params, thisPeer, ownsContracts, old(View()))
    {
      hide ByteVec, Choose;
      var (target, r) := g.range(rng, params.numPeers);
      var forThisPeer := target == thisPeer;
      var (value, r') := g.range(r, 100);
      rng := r';
      if value < 5 {
        if params.maxContracts <= |existingContracts| {
          return None;
        }
        var code := RandomByteVec();
        var contractParams := RandomByteVec();
        var bytes := RandomByteVec();
        var contract := Contract(code, contractParams);
        existingContracts := existingContracts + [contract];
        request := if forThisPeer then Some(Put(contract, bytes)) else None;
      } else if value < 20 {
        var contract := ChooseExisting();
        if contract == None || !forThisPeer {
          return None;
        }
        var bytes := RandomByteVec();
        request := Some(Put(contract.value, bytes));
      } else if value < 35 {
        var contract := ChooseExisting();
        request := if contract == None || !forThisPeer then None else Some(Get(contract.value));
      } else if value < 80 {
        var bytes := RandomByteVec();
        var contract := ChooseExisting();
        if contract == None || !forThisPeer || contract.value !in ownsContracts {
          return None;
        }
        request := Some(Update(contract.value, bytes));
      } else {
        var bytes := RandomByteVec();
        var contract := ChooseExisting();
        request := if contract == None || !forThisPeer then None else Some(Subscribe(contract.value, bytes));
      }
    }

    method GenEvent() returns (request: Option<Request>)
      requires GoodRng(g)
      modifies this`rng, this`existingContracts, this`currentIteration
      ensures Generated(View(), currentIteration, request)
           == Generate(g, params, thisPeer, ownsContracts, old(View()), old(currentIteration))
      ensures request.Some? && request.value.Update? ==> request.value.contract in ownsContracts
    {
      hide Iterate;
      request := None;
      while currentIteration < params.maxIterations
        invariant request == None
        invariant Generate(g, params, thisPeer, ownsContracts, View(), currentIteration)
               == Generate(g, params, thisPeer, ownsContracts, old(View()), old(currentIteration))
        decreases params.maxIterations - currentIteration
      {
        currentIteration := currentIteration + 1;
        UpdateIsOwned(g, params, thisPeer, ownsContracts, View());
        request := Pass();
        if request.Some? {
          return;
        }
      }
    }

    /** A get that is answered makes this peer an owner. */
    method Answered(contract: Contract)
      modifies this`ownsContracts
      ensures ownsContracts == old(ownsContracts) + {contract}
    {
      ownsContracts := ownsContracts + {contract};
    }
  }
}
