/** The life of an operation: pushed, popped while a message is processed, completed, and swept by the
    garbage-collection task once it has run for too long. The five per-type maps are one set here: the
    type is part of the transaction id. */
module OpLifecycle {
  import opened Bits
  import opened Messages
  import opened Transactions

  const ABSOLUTE_MULTIPLIER := 5

  /** What the operation manager holds. */
  datatype Ops = Ops(store: set<Transaction>, underProgress: set<Transaction>, completed: set<Transaction>)

  /** With the channel to the collector and the collector's own `ttlSet` and `delayed`. `clock` is the
      latest time seen. */
  datatype State = State(ops: Ops, pending: seq<Transaction>, ttlSet: set<Transaction>, delayed: seq<Transaction>,
                         clock: nat)

  const START := State(Ops({}, {}, {}), [], {}, [], 0)

  // ---------------------------------------------------------------- the manager's operations

  function Push(s: State, tx: Transaction, now: nat): State {
    var o := s.ops;
    if tx in o.completed then s
    else if tx in o.underProgress && TimedOut(tx, now) then
      s.(ops := o.(underProgress := o.underProgress - {tx}, completed := o.completed + {tx}))
    else
      s.(ops := o.(underProgress := o.underProgress - {tx}, store := o.store + {tx}), pending := s.pending + [tx])
  }

  datatype PopResult = Found(present: bool) | Running | Completed

  function Pop(s: State, tx: Transaction, now: nat): (State, PopResult) {
    var o := s.ops;
    if tx in o.completed then (s, Completed)
    else if tx in o.underProgress then
      if TimedOut(tx, now) then (s.(ops := o.(completed := o.completed + {tx})), Completed) else (s, Running)
    else
      (s.(ops := o.(store := o.store - {tx}, underProgress := o.underProgress + {tx})), Found(tx in o.store))
  }

  function Finish(s: State, tx: Transaction): State {
    s.(ops := s.ops.(underProgress := s.ops.underProgress - {tx}, completed := s.ops.completed + {tx}))
  }

  // ---------------------------------------------------------------- the collector

  /** The set is ordered by id alone, so a second transaction with the same id is not inserted. */
  function Tracked(ttlSet: set<Transaction>, tx: Transaction): set<Transaction> {
    if exists t <- ttlSet :: t.id == tx.id then ttlSet else ttlSet + {tx}
  }

  function Receive(s: State): State {
    if s.pending == [] then s else s.(pending := s.pending[1..], ttlSet := Tracked(s.ttlSet, s.pending[0]))
  }

  datatype Swept = Swept(ops: Ops, delayed: seq<Transaction>, reported: seq<Transaction>)

  /** A transaction held back by an earlier sweep. */
  function RetryOne(w: Swept, tx: Transaction): Swept {
    var o := w.ops;
    if tx in o.completed then w.(ops := o.(completed := o.completed - {tx}))
    else if tx in o.store then
      Swept(o.(store := o.store - {tx}, underProgress := o.underProgress - {tx}), w.delayed, w.reported + [tx])
    else w.(delayed := w.delayed + [tx])
  }

  function Retry(o: Ops, held: seq<Transaction>): Swept {
    if held == [] then Swept(o, [], []) else RetryOne(Retry(o, held[..|held| - 1]), held[|held| - 1])
  }

  /** A transaction that is not after the cutoff. One in progress is held back while it is after the
      absolute cutoff. */
  function SweepOne(w: Swept, tx: Transaction, absolute: Transaction): Swept {
    var o := w.ops;
    if tx in o.underProgress && Before(absolute, tx) then w.(delayed := w.delayed + [tx])
    else Swept(Ops(o.store - {tx}, o.underProgress - {tx}, o.completed - {tx}), w.delayed,
               w.reported + if tx in o.store then [tx] else [])
  }

  function Sweep(w: Swept, aged: seq<Transaction>, absolute: Transaction): Swept {
    if aged == [] then w else SweepOne(Sweep(w, aged[..|aged| - 1], absolute), aged[|aged| - 1], absolute)
  }

  function Expired(ttlSet: set<Transaction>, older: Transaction): set<Transaction> {
    set tx <- ttlSet | !Before(older, tx)
  }

  /** One tick. The two cutoffs are made from ids drawn one after the other; `aged` lists the expired
      transactions in the order in which they are visited. */
  function Tick(s: State, first: Ulid, second: Ulid, aged: seq<Transaction>): State {
    var older, absolute := Cutoff(first, 1), Cutoff(second, ABSOLUTE_MULTIPLIER);
    var w := Sweep(Retry(s.ops, s.delayed), aged, absolute);
    State(w.ops, s.pending, s.ttlSet - Expired(s.ttlSet, older), w.delayed, second / P80)
  }

  // ---------------------------------------------------------------- runs

  datatype Step =
    | DoPush(tx: Transaction, now: nat)
    | DoPop(tx: Transaction, now: nat)
    | DoFinish(tx: Transaction)
    | DoReceive
    | DoTick(first: Ulid, second: Ulid, aged: seq<Transaction>)

  predicate Visits(aged: seq<Transaction>, expired: set<Transaction>) {
    (forall tx <- aged :: tx in expired) && (forall tx <- expired :: tx in aged)
  }

  /** Time does not run backwards, and it is more than five minutes past 1970. */
  predicate Enabled(s: State, step: Step) {
    match step
    case DoPush(_, now) => s.clock <= now
    case DoPop(_, now) => s.clock <= now
    case DoFinish(_) => true
    case DoReceive => true
    case DoTick(first, second, aged) =>
      && s.clock <= first / P80 <= second / P80
      && TTL_MS * ABSOLUTE_MULTIPLIER <= first / P80
      && Visits(aged, Expired(s.ttlSet, Cutoff(first, 1)))
  }

  function Next(s: State, step: Step): State {
    match step
    case DoPush(tx, now) => Push(s, tx, now).(clock := now)
    case DoPop(tx, now) => Pop(s, tx, now).0.(clock := now)
    case DoFinish(tx) => Finish(s, tx)
    case DoReceive => Receive(s)
    case DoTick(first, second, aged) => Tick(s, first, second, aged)
  }

  function After(s: State, steps: seq<Step>): State {
    if steps == [] then s else Next(After(s, steps[..|steps| - 1]), steps[|steps| - 1])
  }

  ghost predicate Runs(s: State, steps: seq<Step>) {
    steps == [] || (Runs(s, steps[..|steps| - 1]) && Enabled(After(s, steps[..|steps| - 1]), steps[|steps| - 1]))
  }

  // ---------------------------------------------------------------- what a tick does to one transaction

  /** What the collector's work says about one transaction. */
  datatype Fate = Fate(stored: bool, running: bool, completed: bool, held: nat, reported: nat)

  ghost function FateOf(w: Swept, tx: Transaction): Fate {
    Fate(tx in w.ops.store, tx in w.ops.underProgress, tx in w.ops.completed, multiset(w.delayed)[tx], multiset(w.reported)[tx])
  }

  /** One look at a held-back transaction: a completed one is forgotten, a stored one times out, any other
      is held back again. */
  function LookedAt(f: Fate): Fate {
    if f.completed then f.(completed := false)
    else if f.stored then f.(stored := false, running := false, reported := f.reported + 1)
    else f.(held := f.held + 1)
  }

  function LookedAtTimes(f: Fate, n: nat): Fate {
    if n == 0 then f else LookedAt(LookedAtTimes(f, n - 1))
  }

  /** The loop over the held-back transactions looks at each as often as it is listed, and does not let one
      affect another. */
  lemma {:induction false} RetryExact(o: Ops, held: seq<Transaction>, tx: Transaction)
    ensures FateOf(Retry(o, held), tx)
         == LookedAtTimes(Fate(tx in o.store, tx in o.underProgress, tx in o.completed, 0, 0), multiset(held)[tx])
  {
    hide RetryOne, FateOf, LookedAt;
    if held == [] {
      NoLook(o, tx);
    } else {
      var before, last := held[..|held| - 1], held[|held| - 1];
      RetryExact(o, before, tx);
      assert held == before + [last];
      assert multiset(held)[tx] == multiset(before)[tx] + if last == tx then 1 else 0;
      LookOne(Retry(o, before), last, tx);
    }
  }

  lemma {:induction false} NoLook(o: Ops, tx: Transaction)
    ensures FateOf(Swept(o, [], []), tx) == Fate(tx in o.store, tx in o.underProgress, tx in o.completed, 0, 0)
  {
  }

  lemma {:induction false} LookOne(w: Swept, last: Transaction, tx: Transaction)
    ensures FateOf(RetryOne(w, last), tx) == if last == tx then LookedAt(FateOf(w, tx)) else FateOf(w, tx)
  {
  }

  lemma {:induction false} RetryEffect(o: Ops, held: seq<Transaction>, tx: Transaction)
    ensures var w := Retry(o, held);
            && (tx in w.ops.store ==> tx in o.store)
            && (tx in w.ops.completed ==> tx in o.completed)
            && (tx in w.ops.underProgress ==> tx in o.underProgress)
            && (tx in o.underProgress && tx !in w.ops.underProgress ==> tx in o.store)
            && (tx !in held ==>
                  && (tx in w.ops.store <==> tx in o.store)
                  && (tx in w.ops.underProgress <==> tx in o.underProgress)
                  && (tx in w.ops.completed <==> tx in o.completed))
            && (tx in w.delayed ==> tx in held)
            && (tx in w.reported ==> tx in o.store && tx in held)
            && (tx in o.store && tx !in w.ops.store ==> tx in w.reported)
  {
    if held != [] {
      RetryEffect(o, held[..|held| - 1], tx);
    }
  }

  lemma {:induction false} SweepEffect(w: Swept, aged: seq<Transaction>, absolute: Transaction, tx: Transaction)
    ensures var r := Sweep(w, aged, absolute);
            && (tx !in aged || (tx in w.ops.underProgress && Before(absolute, tx)) ==>
                  && (tx in r.ops.store <==> tx in w.ops.store)
                  && (tx in r.ops.underProgress <==> tx in w.ops.underProgress)
                  && (tx in r.ops.completed <==> tx in w.ops.completed)
                  && (tx in r.reported ==> tx in w.reported))
            && (tx in aged && !(tx in w.ops.underProgress && Before(absolute, tx)) ==>
                  tx !in r.ops.store && tx !in r.ops.underProgress && tx !in r.ops.completed)
            && (tx in r.delayed <==> tx in w.delayed || (tx in aged && tx in w.ops.underProgress && Before(absolute, tx)))
            && (tx in w.reported ==> tx in r.reported)
            && (tx in r.reported ==> tx in w.reported || (tx in aged && tx in w.ops.store))
            && (tx in w.ops.store && tx !in r.ops.store ==> tx in r.reported)
  {
    if aged != [] {
      SweepEffect(w, aged[..|aged| - 1], absolute, tx);
    }
  }

  // ---------------------------------------------------------------- what every run keeps

  /** An id names one operation. */
  predicate Names(all: set<Transaction>) {
    forall a <- all, b <- all :: a.id == b.id ==> a == b
  }

  /** A popped operation is not stored; a stored one is known to the collector, or about to be; what is
      held back has timed out. */
  ghost predicate Inv(s: State, all: set<Transaction>) {
    && Names(all) && s.ttlSet <= all && s.ops.store <= all
    && (forall tx :: tx in s.pending ==> tx in all)
    && s.ops.store !! s.ops.underProgress
    && (forall tx :: tx in s.ops.store ==> tx in s.pending || tx in s.ttlSet)
    && (forall tx :: tx in s.delayed ==> Timestamp(tx) + TTL_MS <= s.clock)
  }

  predicate PushesFrom(step: Step, all: set<Transaction>) {
    step.DoPush? ==> step.tx in all
  }

  lemma {:induction false} ReceiveKeeps(s: State, all: set<Transaction>)
    requires Inv(s, all)
    ensures Inv(Receive(s), all)
  {
    if s.pending != [] {
      var tx, rest := s.pending[0], s.pending[1..];
      assert forall t :: t in s.pending ==> t == tx || t in rest;
      assert tx in Tracked(s.ttlSet, tx);
    }
  }

  lemma {:induction false} TickKeeps(s: State, step: Step, all: set<Transaction>)
    requires Inv(s, all) && step.DoTick? && Enabled(s, step)
    ensures Inv(Next(s, step), all)
  {
    hide Retry, Sweep, Cutoff, Before, Timestamp, Names;
    var first, second, aged := step.first, step.second, step.aged;
    var older, absolute := Cutoff(first, 1), Cutoff(second, ABSOLUTE_MULTIPLIER);
    var s', w := Next(s, step), Retry(s.ops, s.delayed);
    forall tx: Transaction
      ensures tx in s'.ops.store ==> tx in s.ops.store && tx !in s'.ops.underProgress && tx !in aged
      ensures tx in s'.delayed ==> Timestamp(tx) + TTL_MS <= s'.clock
    {
      RetryEffect(s.ops, s.delayed, tx);
      SweepEffect(w, aged, absolute, tx);
      CutoffIsAge(tx, first, 1);
    }
  }

  lemma {:induction false} StepKeeps(s: State, step: Step, all: set<Transaction>)
    requires Inv(s, all) && Enabled(s, step) && PushesFrom(step, all)
    ensures Inv(Next(s, step), all)
  {
    hide Timestamp, TimedOut, Names;
    if step.DoTick? {
      TickKeeps(s, step, all);
    } else if step.DoReceive? {
      ReceiveKeeps(s, all);
    }
  }

  /** The invariant, over every run. */
  lemma {:induction false} RunKeeps(s: State, steps: seq<Step>, all: set<Transaction>)
    requires Inv(s, all) && Runs(s, steps) && forall step <- steps :: PushesFrom(step, all)
    ensures Inv(After(s, steps), all)
  {
    hide Inv, Enabled, Next;
    if steps != [] {
      RunKeeps(s, steps[..|steps| - 1], all);
      StepKeeps(After(s, steps[..|steps| - 1]), steps[|steps| - 1], all);
    }
  }

  /** In particular from the start, where nothing is known. */
  lemma {:induction false} EveryRunKeeps(steps: seq<Step>, all: set<Transaction>)
    requires Names(all) && Runs(START, steps) && forall step <- steps :: PushesFrom(step, all)
    ensures Inv(After(START, steps), all)
  {
    assert Inv(START, all);
    hide Inv, Runs, After;
    RunKeeps(START, steps, all);
  }

  // ---------------------------------------------------------------- no early and no late time-outs

  /** What a tick takes out of the store has timed out; once the channel is drained, what it leaves there
      is not older than the time to live. So no stored operation outlives it by more than a tick. */
  lemma {:induction false} TickTimesOut(s: State, step: Step, all: set<Transaction>, tx: Transaction)
    requires Inv(s, all) && step.DoTick? && Enabled(s, step)
    ensures tx in s.ops.store && tx !in Next(s, step).ops.store ==> TimedOut(tx, step.first / P80)
    ensures s.pending == [] && tx in Next(s, step).ops.store ==> Timestamp(tx) + TTL_MS >= step.first / P80
  {
    hide Retry, Sweep, Cutoff, Before, Timestamp, Names;
    var absolute := Cutoff(step.second, ABSOLUTE_MULTIPLIER);
    RetryEffect(s.ops, s.delayed, tx);
    SweepEffect(Retry(s.ops, s.delayed), step.aged, absolute, tx);
    CutoffIsAge(tx, step.first, 1);
    NotAfter(tx, Cutoff(step.first, 1));
  }

  lemma {:induction false} NotAfter(a: Transaction, b: Transaction)
    ensures Before(a, b) ==> !Before(b, a)
  {
  }

  // ---------------------------------------------------------------- operations that never come back

  /** No step of the manager's concerns the transaction, except for popping it again. */
  predicate Abandoned(step: Step, tx: Transaction) {
    && (step.DoPush? ==> step.tx != tx)
    && (step.DoFinish? ==> step.tx != tx)
  }

  /** In progress and off the collector's set: nothing but the manager can end this. */
  ghost predicate Stuck(s: State, tx: Transaction) {
    tx in s.ops.underProgress && tx !in s.ttlSet && tx !in s.pending
  }

  lemma {:induction false} StuckStep(s: State, step: Step, all: set<Transaction>, tx: Transaction)
    requires Inv(s, all) && Enabled(s, step) && Abandoned(step, tx) && Stuck(s, tx)
    ensures Stuck(Next(s, step), tx)
  {
    hide Retry, Sweep, Cutoff, Before, Timestamp, TimedOut, Names;
    if step.DoTick? {
      RetryEffect(s.ops, s.delayed, tx);
      SweepEffect(Retry(s.ops, s.delayed), step.aged, Cutoff(step.second, ABSOLUTE_MULTIPLIER), tx);
    }
  }

  lemma {:induction false} StuckForever(s: State, steps: seq<Step>, all: set<Transaction>, tx: Transaction)
    requires Inv(s, all) && Runs(s, steps) && Stuck(s, tx)
    requires forall step <- steps :: PushesFrom(step, all) && Abandoned(step, tx)
    ensures Stuck(After(s, steps), tx)
  {
    hide Inv, Enabled, Next, Stuck;
    if steps != [] {
      var before := steps[..|steps| - 1];
      StuckForever(s, before, all, tx);
      RunKeeps(s, before, all);
      StuckStep(After(s, before), steps[|steps| - 1], all, tx);
    }
  }

  predicate Untouched(step: Step, tx: Transaction) {
    Abandoned(step, tx) && (step.DoPop? ==> step.tx != tx)
  }

  lemma {:induction false} CollectedStep(s: State, step: Step, tx: Transaction)
    requires tx !in s.ops.underProgress && Untouched(step, tx)
    ensures tx !in Next(s, step).ops.underProgress
  {
    hide TimedOut, Retry, Sweep, Cutoff, Before;
    if step.DoTick? {
      RetryEffect(s.ops, s.delayed, tx);
      SweepEffect(Retry(s.ops, s.delayed), step.aged, Cutoff(step.second, ABSOLUTE_MULTIPLIER), tx);
    }
  }

  lemma {:induction false} CollectedStays(s: State, steps: seq<Step>, tx: Transaction)
    requires tx !in s.ops.underProgress && forall step <- steps :: Untouched(step, tx)
    ensures tx !in After(s, steps).ops.underProgress
  {
    hide Next;
    if steps != [] {
      CollectedStays(s, steps[..|steps| - 1], tx);
      CollectedStep(After(s, steps[..|steps| - 1]), steps[|steps| - 1], tx);
    }
  }

  /** An operation abandoned while in progress is collected exactly when the first sweep that reaches it
      already finds it beyond the absolute cutoff. Otherwise it is held back, and no later sweep compares
      it with that cutoff again, however old it gets. */
  lemma {:induction false} NeverCollectedIff(s: State, tick: Step, steps: seq<Step>, all: set<Transaction>, tx: Transaction)
    requires Inv(s, all) && tick.DoTick? && Enabled(s, tick) && Runs(Next(s, tick), steps)
    requires tx in s.ops.underProgress && tx in s.ttlSet && tx !in s.pending && tx in tick.aged
    requires forall step <- steps :: PushesFrom(step, all) && Untouched(step, tx)
    ensures tx in After(Next(s, tick), steps).ops.underProgress
       <==> Before(Cutoff(tick.second, 5), tx)
  {
    var s' := Next(s, tick);
    FirstSweep(s, tick, all, tx);
    hide Next, Inv, After, Before, Cutoff;
    if Before(Cutoff(tick.second, ABSOLUTE_MULTIPLIER), tx) {
      StuckForever(s', steps, all, tx);
    } else {
      CollectedStays(s', steps, tx);
    }
  }

  lemma {:induction false} FirstSweep(s: State, tick: Step, all: set<Transaction>, tx: Transaction)
    requires Inv(s, all) && tick.DoTick? && Enabled(s, tick)
    requires tx in s.ops.underProgress && tx in s.ttlSet && tx !in s.pending && tx in tick.aged
    ensures Inv(Next(s, tick), all)
    ensures if Before(Cutoff(tick.second, ABSOLUTE_MULTIPLIER), tx) then Stuck(Next(s, tick), tx)
            else tx !in Next(s, tick).ops.underProgress
  {
    TickKeeps(s, tick, all);
    hide Retry, Sweep, Cutoff, Before, Names;
    RetryEffect(s.ops, s.delayed, tx);
    SweepEffect(Retry(s.ops, s.delayed), tick.aged, Cutoff(tick.second, ABSOLUTE_MULTIPLIER), tx);
  }

  const T0 := 1_000_000_000_000
  const ABANDONED := Transaction(T0 * P80, None)

  function PoppedOnce(): State {
    Next(Next(Next(START, DoPush(ABANDONED, T0)), DoPop(ABANDONED, T0)), DoReceive)
  }

  // ---------------------------------------------------------------- popping and pushing back

  /** Popping a stored operation finds it. While it is out it is running, and once it has timed out it counts as
      completed. Pushing it back in time restores what was there; pushed back too late it is gone and completed. */
  lemma {:induction false} PopThenPush(s: State, tx: Transaction, t1: nat, t2: nat)
    requires tx in s.ops.store && tx !in s.ops.underProgress && tx !in s.ops.completed
    ensures var (s1, r) := Pop(s, tx, t1);
            && r == Found(true)
            && Pop(s1, tx, t2).1 == (if TimedOut(tx, t2) then Completed else Running)
            && (!TimedOut(tx, t2) ==> Pop(s1, tx, t2).0 == s1 && Push(s1, tx, t2) == s.(pending := s.pending + [tx]))
            && (TimedOut(tx, t2) ==>
                  Push(s1, tx, t2) == s.(ops := s.ops.(store := s.ops.store - {tx}, completed := s.ops.completed + {tx})))
  {
    hide TimedOut;
    var s1, o := Pop(s, tx, t1).0, s.ops;
    assert (o.store - {tx}) + {tx} == o.store && (o.underProgress + {tx}) - {tx} == o.underProgress;
  }

  /** Popping what is neither stored, running nor completed finds nothing, and from then on it counts as running. */
  lemma {:induction false} PopOfNothing(s: State, tx: Transaction, t1: nat, t2: nat)
    requires tx !in s.ops.store && tx !in s.ops.underProgress && tx !in s.ops.completed
    ensures Pop(s, tx, t1).1 == Found(false)
    ensures !TimedOut(tx, t2) ==> Pop(Pop(s, tx, t1).0, tx, t2).1 == Running
  {
    hide TimedOut;
  }

  /** The collector hears of operations in the order in which they were pushed: after `n` receptions the first `n`
      are tracked and the rest still wait. */
  lemma {:induction false} HeardInOrder(s: State, steps: seq<Step>)
    requires |steps| <= |s.pending| && forall step <- steps :: step.DoReceive?
    ensures After(s, steps).pending == s.pending[|steps|..]
    ensures forall i :: 0 <= i < |steps| ==> Follows(After(s, steps).ttlSet, s.pending[i])
    decreases |steps|
  {
    hide Follows, Receive;
    if steps != [] {
      var n := |steps| - 1;
      HeardInOrder(s, steps[..n]);
      var a := After(s, steps[..n]);
      assert steps[n] in steps && After(s, steps) == Receive(a);
      assert a.pending[0] == s.pending[n] && a.pending[1..] == s.pending[|steps|..];
      HearOne(a, s.pending[n]);
      forall i | 0 <= i < |steps| ensures Follows(After(s, steps).ttlSet, s.pending[i]) {
        HearOne(a, s.pending[i]);
      }
    } else {
      assert s.pending[0..] == s.pending;
    }
  }

  /** The collector follows an operation with this id. */
  predicate Follows(ttlSet: set<Transaction>, tx: Transaction) {
    exists t <- ttlSet :: t.id == tx.id
  }

  lemma {:induction false} HearOne(s: State, tx: Transaction)
    requires s.pending != []
    ensures Receive(s).pending == s.pending[1..]
    ensures Follows(s.ttlSet, tx) || tx == s.pending[0] ==> Follows(Receive(s).ttlSet, tx)
  {
    var w := Receive(s);
    if Follows(s.ttlSet, tx) {
      var t :| t in s.ttlSet && t.id == tx.id;
      assert t in w.ttlSet;
    } else if tx == s.pending[0] {
      assert tx in w.ttlSet;
    }
  }

  // ---------------------------------------------------------------- finished operations

  /** The tick that drops a finished operation from the record: one it was held back for, or the one that sweeps it. */
  predicate Forgets(s: State, step: Step, tx: Transaction) {
    && step.DoTick?
    && (tx in s.delayed || (tx in step.aged && !(tx in s.ops.underProgress && Before(Cutoff(step.second, ABSOLUTE_MULTIPLIER), tx))))
  }

  lemma {:induction false} RetryForgets(o: Ops, held: seq<Transaction>, tx: Transaction)
    requires tx in o.completed
    ensures tx in Retry(o, held).ops.completed <==> tx !in held
    ensures tx !in held ==> (tx in Retry(o, held).ops.underProgress <==> tx in o.underProgress)
  {
    if held != [] {
      var before, last := held[..|held| - 1], held[|held| - 1];
      RetryForgets(o, before, tx);
      assert held == before + [last];
    }
  }

  lemma {:induction false} ForgottenIff(s: State, step: Step, tx: Transaction)
    requires tx in s.ops.completed
    ensures tx in Next(s, step).ops.completed <==> !Forgets(s, step, tx)
  {
    hide Retry, Sweep, Cutoff, Before;
    if step.DoTick? {
      var w := Retry(s.ops, s.delayed);
      RetryForgets(s.ops, s.delayed, tx);
      SweepEffect(w, step.aged, Cutoff(step.second, ABSOLUTE_MULTIPLIER), tx);
    }
  }

  /** A finished operation is done with: until a tick forgets it, pushing it is ignored, popping it is answered
      with its completion, and it is not stored unless it was. */
  lemma {:induction false} FinishedIsDone(s: State, tx: Transaction, steps: seq<Step>, now: nat)
    requires forall i :: 0 <= i < |steps| ==> !Forgets(After(Finish(s, tx), steps[..i]), steps[i], tx)
    ensures var w := After(Finish(s, tx), steps);
            && Push(w, tx, now) == w && Pop(w, tx, now) == (w, Completed)
            && tx in w.ops.completed && (tx in w.ops.store ==> tx in s.ops.store) && tx !in w.ops.underProgress
    decreases |steps|
  {
    if steps != [] {
      hide Forgets, Next, Push, Pop;
      var n := |steps| - 1;
      var before := After(Finish(s, tx), steps[..n]);
      assert forall i :: 0 <= i < n ==> steps[..n][..i] == steps[..i];
      FinishedIsDone(s, tx, steps[..n], now);
      FinishedStep(before, steps[n], tx);
    }
    DoneWith(After(Finish(s, tx), steps), tx, now);
  }

  lemma {:induction false} DoneWith(s: State, tx: Transaction, now: nat)
    requires tx in s.ops.completed
    ensures Push(s, tx, now) == s && Pop(s, tx, now) == (s, Completed)
  {
  }

  lemma {:induction false} FinishedStep(s: State, step: Step, tx: Transaction)
    requires tx in s.ops.completed && tx !in s.ops.underProgress && !Forgets(s, step, tx)
    ensures var w := Next(s, step);
            tx in w.ops.completed && tx !in w.ops.underProgress && (tx in w.ops.store ==> tx in s.ops.store)
  {
    hide Forgets, Tick, TimedOut, Tracked;
    ForgottenIff(s, step, tx);
    if step.DoTick? {
      TickAddsNothing(s, step, tx);
    }
  }

  lemma {:induction false} TickAddsNothing(s: State, step: Step, tx: Transaction)
    requires step.DoTick?
    ensures tx in Next(s, step).ops.store ==> tx in s.ops.store
    ensures tx in Next(s, step).ops.underProgress ==> tx in s.ops.underProgress
  {
    hide Retry, Sweep, Cutoff, Before;
    RetryEffect(s.ops, s.delayed, tx);
    SweepEffect(Retry(s.ops, s.delayed), step.aged, Cutoff(step.second, ABSOLUTE_MULTIPLIER), tx);
  }

  /** Pushed, popped and abandoned: swept after a minute, and after eleven days it is still in progress. */
  lemma {:induction false} AbandonedOperationStays()
    ensures var tick, late := DoTick((T0 + 60_001) * P80, (T0 + 60_001) * P80, [ABANDONED]),
                              DoTick((T0 + 1_000_000_000) * P80, (T0 + 1_000_000_000) * P80, []);
            && Enabled(PoppedOnce(), tick) && Enabled(Next(PoppedOnce(), tick), late)
            && ABANDONED in Next(Next(PoppedOnce(), tick), late).ops.underProgress
            && Timestamp(ABANDONED) + TTL_MS * ABSOLUTE_MULTIPLIER < (T0 + 1_000_000_000)
  {
    var tx, s := ABANDONED, PoppedOnce();
    assert s.ops == Ops({}, {tx}, {}) && s.ttlSet == {tx} && s.pending == [] && s.delayed == [] by {
      assert [tx][1..] == [];
    }
    var u, v := (T0 + 60_001) * P80, (T0 + 1_000_000_000) * P80;
    var tick, late := DoTick(u, u, [tx]), DoTick(v, v, []);
    assert u / P80 == T0 + 60_001 && v / P80 == T0 + 1_000_000_000 && Timestamp(tx) == T0;
    CutoffIsAge(tx, u, 1);
    CutoffIsAge(tx, u, ABSOLUTE_MULTIPLIER);
    NotAfter(tx, Cutoff(u, 1));
    hide Cutoff, Before, Timestamp;
    assert Expired(s.ttlSet, Cutoff(u, 1)) == {tx};
    assert Inv(s, {tx});
    FirstSweep(s, tick, {tx}, tx);
    var s' := Next(s, tick);
    assert s'.ttlSet == {};
    StuckStep(s', late, {tx}, tx);
  }

  // ---------------------------------------------------------------- the manager in place

  class OpManager {
    var store: set<Transaction>
    var underProgress: set<Transaction>
    var completed: set<Transaction>
    var pending: seq<Transaction>
    var ttlSet: set<Transaction>
    var delayed: seq<Transaction>
    ghost var clock: nat

    constructor ()
      ensures View() == START
    {
      store, underProgress, completed := {}, {}, {};
      pending, ttlSet, delayed, clock := [], {}, [], 0;
    }

    ghost function View(): State
      reads this
    {
      State(Ops(store, underProgress, completed), pending, ttlSet, delayed, clock)
    }

    method PushOp(tx: Transaction, now: nat)
      modifies this
      ensures View() == Next(old(View()), DoPush(tx, now))
    {
      clock := now;
      if tx in completed {
        return;
      }
      if tx in underProgress {
        underProgress := underProgress - {tx};
        if TimedOut(tx, now) {
          completed := completed + {tx};
          return;
        }
      }
      pending := pending + [tx];
      store := store + {tx};
    }

    method PopOp(tx: Transaction, now: nat) returns (r: PopResult)
      modifies this
      ensures View() == Next(old(View()), DoPop(tx, now)) && r == Pop(old(View()), tx, now).1
    {
      clock := now;
      if tx in completed {
        return Completed;
      }
      if tx in underProgress {
        if TimedOut(tx, now) {
          completed := completed + {tx};
          return Completed;
        }
        return Running;
      }
      r := Found(tx in store);
      store := store - {tx};
      underProgress := underProgress + {tx};
    }

    method Complete(tx: Transaction)
      modifies this
      ensures View() == Next(old(View()), DoFinish(tx))
    {
      underProgress := underProgress - {tx};
      completed := completed + {tx};
    }

    method ReceiveOne()
      modifies this
      ensures View() == Next(old(View()), DoReceive)
    {
      if pending != [] {
        var tx := pending[0];
        pending := pending[1..];
        if !exists t <- ttlSet :: t.id == tx.id {
          ttlSet := ttlSet + {tx};
        }
      }
    }

    ghost function Work(reported: seq<Transaction>): Swept
      reads this
    {
      Swept(Ops(store, underProgress, completed), delayed, reported)
    }

    /** The transactions held back by earlier sweeps. */
    method RetryDelayed() returns (reported: seq<Transaction>)
      modifies this`store, this`underProgress, this`completed, this`delayed
      ensures Work(reported) == Retry(old(View()).ops, old(delayed))
    {
      var held := delayed;
      delayed, reported := [], [];
      var i := 0;
      while i < |held|
        invariant 0 <= i <= |held| && Work(reported) == Retry(old(View()).ops, held[..i])
      {
        var tx := held[i];
        assert held[..i + 1][..i] == held[..i];
        i := i + 1;
        if tx in completed {
          completed := completed - {tx};
          continue;
        }
        if tx in store {
          store := store - {tx};
          underProgress := underProgress - {tx};
          completed := completed - {tx};
          reported := reported + [tx];
        } else {
          delayed := delayed + [tx];
        }
      }
      assert held[..|held|] == held;
    }

    /** The transactions of the set that are not after the cutoff, in whatever order. */
    method SweepExpired(older: Transaction, absolute: Transaction, before: seq<Transaction>)
      returns (reported: seq<Transaction>, ghost aged: seq<Transaction>)
      modifies this`store, this`underProgress, this`completed, this`delayed, this`ttlSet
      ensures Work(reported) == Sweep(old(Work(before)), aged, absolute)
      ensures ttlSet == old(ttlSet) - Expired(old(ttlSet), older)
      ensures Visits(aged, Expired(old(ttlSet), older))
    {
      hide Before;
      var todo := set tx <- ttlSet | !Before(older, tx);
      ttlSet := ttlSet - todo;
      ghost var all := todo;
      reported, aged := before, [];
      while todo != {}
        invariant ttlSet == old(ttlSet) - all
        invariant todo <= all && (forall tx <- all :: tx in aged || tx in todo) && (forall tx <- aged :: tx in all)
        invariant Work(reported) == Sweep(old(Work(before)), aged, absolute)
        decreases todo
      {
        var tx :| tx in todo;
        todo := todo - {tx};
        assert (aged + [tx])[..|aged|] == aged;
        aged := aged + [tx];
        if tx in underProgress {
          if Before(absolute, tx) {
            delayed := delayed + [tx];
            continue;
          }
          underProgress := underProgress - {tx};
        }
        completed := completed - {tx};
        reported := reported + if tx in store then [tx] else [];
        store := store - {tx};
      }
    }

    /** One tick of the collector, with the two ids its cutoffs are made from. */
    method Collect(first: Ulid, second: Ulid) returns (reported: seq<Transaction>, ghost aged: seq<Transaction>)
      modifies this
      ensures Visits(aged, Expired(old(ttlSet), Cutoff(first, 1)))
      ensures View() == Next(old(View()), DoTick(first, second, aged))
    {
      hide Retry, Sweep, Cutoff, Before;
      reported := RetryDelayed();
      reported, aged := SweepExpired(Cutoff(first, 1), Cutoff(second, ABSOLUTE_MULTIPLIER), reported);
      clock := second / P80;
    }
  }
}
