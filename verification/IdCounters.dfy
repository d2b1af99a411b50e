/** Request, client and event ids: one counter per thread and kind, each starting in the block of the index
    its thread had when it first drew. Indices are handed out lazily from one shared counter; seeding a
    thread pins its index to zero, and a counter can be reset to the start of its thread's block. */
module IdCounters {
  const BLOCK := 1_000_000

  type Thread = nat

  datatype Kind = Request | Client | EventKind

  function Offset(k: Kind): nat {
    if k.EventKind? then 0 else 1
  }

  /** A counter from one start to the next: whose it is, its block, and how far it has come. */
  datatype Count = Count(kind: Kind, thread: Thread, block: nat, drawn: nat)

  /** An id, with the count it was drawn from. */
  datatype Issue = Issue(kind: Kind, thread: Thread, id: nat, count: nat)

  /** `cells` is the count each thread and kind is at. `owner` records which thread an index was handed to. */
  datatype State = State(nextIndex: nat, index: map<Thread, nat>, counts: seq<Count>, cells: map<(Kind, Thread), nat>,
                         owner: map<nat, Thread>, issued: seq<Issue>)

  const START := State(0, map[], [], map[], map[], [])

  /** The index of a thread, handed out on first use. */
  function Indexed(s: State, t: Thread): (r: State)
    ensures t in r.index
  {
    if t in s.index then s
    else s.(nextIndex := s.nextIndex + 1, index := s.index[t := s.nextIndex], owner := s.owner[s.nextIndex := t])
  }

  /** A count from the start of the thread's block. */
  function Restarted(s: State, k: Kind, t: Thread): (r: State)
    ensures (k, t) in r.cells && r.cells[(k, t)] < |r.counts|
  {
    var s' := Indexed(s, t);
    s'.(counts := s'.counts + [Count(k, t, s'.index[t], 0)], cells := s'.cells[(k, t) := |s'.counts|])
  }

  /** Counters are started on first use. */
  function Started(s: State, k: Kind, t: Thread): State {
    if (k, t) in s.cells then s else Restarted(s, k, t)
  }

  function Value(c: Count): nat {
    Offset(c.kind) + c.block * BLOCK + c.drawn
  }

  function First(c: Count): nat {
    Offset(c.kind) + c.block * BLOCK
  }

  /** Every cell is at a count of its own thread and kind. */
  ghost predicate Linked(s: State) {
    forall key :: key in s.cells ==>
      s.cells[key] < |s.counts| && s.counts[s.cells[key]].kind == key.0 && s.counts[s.cells[key]].thread == key.1
  }

  function Draw(s: State, k: Kind, t: Thread): State
    requires Linked(s)
  {
    var s' := Started(s, k, t);
    var g := s'.cells[(k, t)];
    var c := s'.counts[g];
    s'.(counts := s'.counts[g := c.(drawn := c.drawn + 1)], issued := s'.issued + [Issue(k, t, Value(c), g)])
  }

  datatype Step = DrawId(kind: Kind, thread: Thread) | SetSeed(thread: Thread) | ClearSeed(thread: Thread)
                | ResetCounter(kind: Kind, thread: Thread)

  function Next(s: State, step: Step): (r: State)
    requires Linked(s)
    ensures Linked(r)
  {
    match step
    case DrawId(k, t) => Draw(s, k, t)
    case SetSeed(t) => s.(index := s.index[t := 0])
    case ClearSeed(t) => s.(index := s.index - {t})
    case ResetCounter(k, t) => Restarted(s, k, t)
  }

  function After(steps: seq<Step>): (r: State)
    ensures Linked(r)
  {
    if steps == [] then START else Next(After(steps[..|steps| - 1]), steps[|steps| - 1])
  }

  // ---------------------------------------------------------------- what every run keeps

  predicate OwnedBy(s: State, i: nat, t: Thread) {
    i in s.owner && s.owner[i] == t
  }

  /** An index other than zero belongs to the thread it was handed to; zero too, if no thread was seeded. */
  ghost predicate Owned(s: State, seeded: bool) {
    && (forall i :: i in s.owner ==> i < s.nextIndex)
    && (forall t :: t in s.index ==> OwnedBy(s, s.index[t], t) || (seeded && s.index[t] == 0))
    && (forall c <- s.counts :: OwnedBy(s, c.block, c.thread) || (seeded && c.block == 0))
  }

  /** An issued id lies between the start of its count's block and where the count stands now. */
  ghost predicate InBlock(s: State, e: Issue) {
    && e.count < |s.counts| && s.counts[e.count].kind == e.kind && s.counts[e.count].thread == e.thread
    && First(s.counts[e.count]) <= e.id < Value(s.counts[e.count])
  }

  ghost predicate Ordered(e: Issue, f: Issue) {
    e.count == f.count ==> e.id < f.id
  }

  /** A count issues in order, and every id from the first of its block to where it stands now. */
  ghost predicate Logged(s: State) {
    && (forall i :: 0 <= i < |s.issued| ==> InBlock(s, s.issued[i]))
    && (forall i, j :: 0 <= i < j < |s.issued| ==> Ordered(s.issued[i], s.issued[j]))
    && (forall g: nat, id: nat :: g < |s.counts| && First(s.counts[g]) <= id < Value(s.counts[g]) ==> IssueOf(s, g, id) in s.issued)
  }

  function IssueOf(s: State, g: nat, id: nat): Issue
    requires g < |s.counts|
  {
    Issue(s.counts[g].kind, s.counts[g].thread, id, g)
  }

  ghost predicate Seedless(steps: seq<Step>) {
    forall step <- steps :: !step.SetSeed?
  }

  ghost predicate Resetless(steps: seq<Step>) {
    forall step <- steps :: !step.ResetCounter?
  }

  lemma {:induction false} IndexedOwned(s: State, t: Thread, seeded: bool)
    requires Owned(s, seeded)
    ensures Owned(Indexed(s, t), seeded)
  {
  }

  lemma {:induction false} RestartedOwned(s: State, k: Kind, t: Thread, seeded: bool)
    requires Owned(s, seeded)
    ensures Owned(Restarted(s, k, t), seeded)
  {
    hide Indexed;
    IndexedOwned(s, t, seeded);
  }

  lemma {:induction false} OwnedStep(s: State, step: Step, seeded: bool)
    requires Linked(s) && Owned(s, seeded) && (step.SetSeed? ==> seeded)
    ensures Owned(Next(s, step), seeded)
  {
    hide Restarted;
    if step.DrawId? || step.ResetCounter? {
      RestartedOwned(s, step.kind, step.thread, seeded);
    }
  }

  lemma {:induction false} RestartedLogged(s: State, k: Kind, t: Thread)
    requires Logged(s)
    ensures Logged(Restarted(s, k, t))
  {
    var r := Restarted(s, k, t);
    assert r.issued == s.issued && r.counts[..|s.counts|] == s.counts;
    assert forall e :: InBlock(s, e) ==> InBlock(r, e);
    assert forall g: nat, id: nat :: g < |s.counts| ==> IssueOf(r, g, id) == IssueOf(s, g, id);
  }

  /** One more id from count `g`. */
  lemma {:induction false} LoggedNext(s: State, w: State, g: nat)
    requires Logged(s) && g < |s.counts| && w.counts == s.counts[g := s.counts[g].(drawn := s.counts[g].drawn + 1)]
    requires w.issued == s.issued + [Issue(s.counts[g].kind, s.counts[g].thread, Value(s.counts[g]), g)]
    ensures Logged(w)
  {
    var n, last := |s.issued|, w.issued[|s.issued|];
    assert forall e :: InBlock(s, e) ==> InBlock(w, e);
    assert InBlock(w, last);
    forall i | 0 <= i < |w.issued| ensures InBlock(w, w.issued[i]) {
      assert i < n ==> InBlock(s, s.issued[i]);
    }
    forall i, j | 0 <= i < j < |w.issued| ensures Ordered(w.issued[i], w.issued[j]) {
      assert InBlock(s, s.issued[i]);
      assert j < n ==> Ordered(s.issued[i], s.issued[j]);
    }
    forall h: nat, id: nat | h < |w.counts| && First(w.counts[h]) <= id < Value(w.counts[h]) ensures IssueOf(w, h, id) in w.issued {
      assert IssueOf(w, h, id) == IssueOf(s, h, id);
      if id == Value(s.counts[h]) {
        assert h == g && last == IssueOf(w, h, id);
      }
    }
  }

  lemma {:induction false} DrawLogged(s: State, k: Kind, t: Thread)
    requires Linked(s) && Logged(s) && (k, t) in s.cells
    ensures Logged(Draw(s, k, t))
  {
    hide Logged;
    LoggedNext(s, Draw(s, k, t), s.cells[(k, t)]);
  }

  lemma {:induction false} LoggedStep(s: State, step: Step)
    requires Linked(s) && Logged(s)
    ensures Logged(Next(s, step))
  {
    hide Restarted, Logged, Linked;
    match step {
      case DrawId(k, t) =>
        var s' := Started(s, k, t);
        if (k, t) !in s.cells {
          RestartedLogged(s, k, t);
          RestartedLinked(s, k, t);
        }
        DrawLogged(s', k, t);
      case ResetCounter(k, t) => RestartedLogged(s, k, t);
      case SetSeed(t) => SameLog(s, Next(s, step));
      case ClearSeed(t) => SameLog(s, Next(s, step));
    }
  }

  lemma {:induction false} RestartedLinked(s: State, k: Kind, t: Thread)
    requires Linked(s)
    ensures Linked(Restarted(s, k, t)) && Restarted(s, k, t).issued == s.issued
    ensures (k, t) !in s.cells ==> Draw(Restarted(s, k, t), k, t) == Draw(s, k, t)
  {
  }

  lemma {:induction false} SameLog(s: State, w: State)
    requires Logged(s) && w.issued == s.issued && w.counts == s.counts
    ensures Logged(w)
  {
    assert forall e :: InBlock(s, e) ==> InBlock(w, e);
    assert forall g: nat, id: nat :: g < |s.counts| ==> IssueOf(w, g, id) == IssueOf(s, g, id);
  }

  /** Over every interleaving of draws, seedings, clearings and resets on any number of threads. */
  lemma {:induction false} RunKeeps(steps: seq<Step>)
    ensures Logged(After(steps)) && Owned(After(steps), !Seedless(steps))
  {
    RunOwned(steps, !Seedless(steps));
    hide Next, Owned;
    if steps != [] {
      RunKeeps(steps[..|steps| - 1]);
      LoggedStep(After(steps[..|steps| - 1]), steps[|steps| - 1]);
    }
  }

  lemma {:induction false} RunOwned(steps: seq<Step>, seeded: bool)
    requires seeded || Seedless(steps)
    ensures Owned(After(steps), seeded)
  {
    hide Next;
    if steps != [] {
      RunOwned(steps[..|steps| - 1], seeded);
      OwnedStep(After(steps[..|steps| - 1]), steps[|steps| - 1], seeded);
    }
  }

  // ---------------------------------------------------------------- when ids are unique

  /** No two ids of a kind are the same. */
  ghost predicate Unique(s: State, k: Kind) {
    forall i, j :: 0 <= i < j < |s.issued| ==> s.issued[i].kind == s.issued[j].kind == k ==> s.issued[i].id != s.issued[j].id
  }

  predicate Used(s: State, k: Kind, g: nat) {
    g < |s.counts| && s.counts[g].kind == k && s.counts[g].drawn > 0
  }

  /** The ids of one count all lie before those of the other. */
  predicate Apart(c: Count, d: Count) {
    Value(c) <= First(d) || Value(d) <= First(c)
  }

  ghost predicate AllApart(s: State, k: Kind) {
    forall g: nat, h: nat :: Used(s, k, g) && Used(s, k, h) && g != h ==> Apart(s.counts[g], s.counts[h])
  }

  lemma {:induction false} OverlapRepeats(s: State, k: Kind, g: nat, h: nat)
    requires Logged(s) && Used(s, k, g) && Used(s, k, h) && g != h && !Apart(s.counts[g], s.counts[h])
    ensures !Unique(s, k)
  {
    var id := if First(s.counts[g]) < First(s.counts[h]) then First(s.counts[h]) else First(s.counts[g]);
    var e, f := IssueOf(s, g, id), IssueOf(s, h, id);
    assert e in s.issued && f in s.issued;
    var i :| 0 <= i < |s.issued| && s.issued[i] == e;
    var j :| 0 <= j < |s.issued| && s.issued[j] == f;
    assert s.issued[if i < j then i else j].id == s.issued[if i < j then j else i].id;
  }

  lemma {:induction false} ApartAreUnique(s: State, k: Kind)
    requires Logged(s) && AllApart(s, k)
    ensures Unique(s, k)
  {
    forall i, j | 0 <= i < j < |s.issued| && s.issued[i].kind == s.issued[j].kind == k
      ensures s.issued[i].id != s.issued[j].id
    {
      var e, f := s.issued[i], s.issued[j];
      assert InBlock(s, e) && InBlock(s, f) && Ordered(e, f);
      if e.count != f.count {
        assert Used(s, k, e.count) && Used(s, k, f.count);
      }
    }
  }

  /** In every run the ids of a kind are unique exactly when the counts they were drawn from do not overlap,
      from the start of the block to where the counter has come. */
  lemma {:induction false} UniqueIff(steps: seq<Step>, k: Kind)
    ensures Unique(After(steps), k) <==> AllApart(After(steps), k)
  {
    hide Unique, After, Owned, Logged, Apart;
    var s := After(steps);
    RunKeeps(steps);
    if AllApart(s, k) {
      ApartAreUnique(s, k);
    } else {
      var g: nat, h: nat :| Used(s, k, g) && Used(s, k, h) && g != h && !Apart(s.counts[g], s.counts[h]);
      OverlapRepeats(s, k, g, h);
    }
  }

  /** No count has left its block. */
  ghost predicate WithinBlocks(s: State, k: Kind) {
    forall g: nat :: Used(s, k, g) ==> s.counts[g].drawn <= BLOCK
  }

  lemma {:induction false} BlocksAreApart(c: Count, d: Count)
    requires c.kind == d.kind && c.block != d.block && c.drawn <= BLOCK && d.drawn <= BLOCK
    ensures Apart(c, d)
  {
  }

  /** Counts of two threads can only share block zero, and without seeding not even that. */
  lemma {:induction false} SharedBlockIsZero(steps: seq<Step>, g: nat, h: nat)
    requires g < |After(steps).counts| && h < |After(steps).counts|
    requires After(steps).counts[g].thread != After(steps).counts[h].thread
    requires After(steps).counts[g].block == After(steps).counts[h].block
    ensures !Seedless(steps) && After(steps).counts[g].block == 0
  {
    hide After, Logged;
    RunKeeps(steps);
    assert After(steps).counts[g] in After(steps).counts && After(steps).counts[h] in After(steps).counts;
  }

  /** Without resets each thread has one count of a kind. */
  ghost predicate OneCount(s: State) {
    forall g :: 0 <= g < |s.counts| ==>
      (s.counts[g].kind, s.counts[g].thread) in s.cells && s.cells[(s.counts[g].kind, s.counts[g].thread)] == g
  }

  lemma {:induction false} OneCountStep(s: State, step: Step)
    requires Linked(s) && OneCount(s) && !step.ResetCounter?
    ensures OneCount(Next(s, step))
  {
  }

  lemma {:induction false} ResetlessOneCount(steps: seq<Step>)
    requires Resetless(steps)
    ensures OneCount(After(steps))
  {
    hide Next;
    if steps != [] {
      ResetlessOneCount(steps[..|steps| - 1]);
      OneCountStep(After(steps[..|steps| - 1]), steps[|steps| - 1]);
    }
  }

  /** So in a process that neither seeds a thread nor resets a counter, all ids of a kind are unique. */
  lemma {:induction false} UnseededIdsAreUnique(steps: seq<Step>, k: Kind)
    requires Seedless(steps) && Resetless(steps) && WithinBlocks(After(steps), k)
    ensures Unique(After(steps), k)
  {
    var s := After(steps);
    hide Unique, After, Logged;
    RunKeeps(steps);
    ResetlessOneCount(steps);
    forall g: nat, h: nat | Used(s, k, g) && Used(s, k, h) && g != h ensures Apart(s.counts[g], s.counts[h]) {
      if s.counts[g].block == s.counts[h].block {
        SharedBlockIsZero(steps, g, h);
      }
      BlocksAreApart(s.counts[g], s.counts[h]);
    }
    ApartAreUnique(s, k);
  }

  /** The reserved first client id is never drawn, seeded, reset or not. */
  lemma {:induction false} FirstIsReserved(steps: seq<Step>, i: nat)
    requires i < |After(steps).issued| && After(steps).issued[i].kind.Client?
    ensures After(steps).issued[i].id != 0
  {
    hide After, Owned;
    RunKeeps(steps);
    assert InBlock(After(steps), After(steps).issued[i]);
  }

  lemma {:induction false} FourSteps(a: Step, b: Step, c: Step, d: Step)
    ensures After([a, b, c, d]) == Next(Next(Next(Next(START, a), b), c), d)
  {
    hide Next;
    assert [a, b, c, d][..3] == [a, b, c] && [a, b, c][..2] == [a, b] && [a, b][..1] == [a] && [a][..0] == [];
    assert After([]) == START;
    assert After([a]) == Next(START, a);
    assert After([a, b]) == Next(After([a]), b);
    assert After([a, b, c]) == Next(After([a, b]), c);
  }

  /** Two seeded threads draw the same request id. */
  lemma {:induction false} SeededThreadsCollide()
    ensures var s := After([SetSeed(1), SetSeed(2), DrawId(Request, 1), DrawId(Request, 2)]);
            |s.issued| == 2 && s.issued[0].id == s.issued[1].id == 1
  {
    hide After;
    FourSteps(SetSeed(1), SetSeed(2), DrawId(Request, 1), DrawId(Request, 2));
    var s2 := Next(Next(START, SetSeed(1)), SetSeed(2));
    assert s2 == START.(index := map[1 := 0, 2 := 0]);
    var s3 := Next(s2, DrawId(Request, 1));
    assert s3.index == s2.index && s3.cells == map[(Request, 1) := 0] && s3.issued == [Issue(Request, 1, 1, 0)];
  }

  /** `n` request ids drawn on thread 1. */
  function Draws(n: nat): seq<Step> {
    seq(n, i => DrawId(Request, 1))
  }

  lemma {:induction false} DrawsCount(n: nat)
    requires n > 0
    ensures var s := After(Draws(n));
            && s.nextIndex == 1 && s.index == map[1 := 0]
            && s.counts == [Count(Request, 1, 0, n)] && s.cells == map[(Request, 1) := 0]
  {
    assert Draws(n)[..n - 1] == Draws(n - 1) && Draws(n)[n - 1] == DrawId(Request, 1);
    if n > 1 {
      DrawsCount(n - 1);
      hide After;
      OneMore(After(Draws(n - 1)), n - 1);
    } else {
      assert Draws(0) == [] && After([]) == START;
    }
  }

  lemma {:induction false} OneMore(s: State, n: nat)
    requires s.counts == [Count(Request, 1, 0, n)] && s.cells == map[(Request, 1) := 0]
    ensures var w := Next(s, DrawId(Request, 1));
            w.counts == [Count(Request, 1, 0, n + 1)] && w.cells == s.cells && w.index == s.index && w.nextIndex == s.nextIndex
  {
  }

  /** A thread that draws past its block meets the first id of the next one, and not before. */
  lemma {:induction false} LeavingTheBlockCollides(n: nat)
    requires n > 0
    ensures Unique(After(Draws(n) + [DrawId(Request, 2)]), Request) <==> n <= BLOCK
  {
    hide Next, Unique, Draws;
    DrawsCount(n);
    var s, steps := After(Draws(n)), Draws(n) + [DrawId(Request, 2)];
    assert steps[..|steps| - 1] == Draws(n);
    SecondThread(s, n);
    UniqueIff(steps, Request);
    var w := After(steps);
    assert w == Next(s, DrawId(Request, 2));
    hide After;
    assert Used(w, Request, 0) && Used(w, Request, 1);
  }

  lemma {:induction false} SecondThread(s: State, n: nat)
    requires s.nextIndex == 1 && s.index == map[1 := 0]
    requires s.counts == [Count(Request, 1, 0, n)] && s.cells == map[(Request, 1) := 0]
    ensures Next(s, DrawId(Request, 2)).counts == [Count(Request, 1, 0, n), Count(Request, 2, 1, 1)]
  {
  }

  // ---------------------------------------------------------------- starting over

  /** After a reset the next id is the first of the block of the index the thread has by now: its multiple of the
      block size for events, one more for requests and clients. */
  lemma {:induction false} ResetDrawsFirst(s: State, k: Kind, t: Thread)
    requires Linked(s)
    ensures var w := Next(Next(s, ResetCounter(k, t)), DrawId(k, t));
            var index := if t in s.index then s.index[t] else s.nextIndex;
            && |w.issued| == |s.issued| + 1 && w.issued[..|s.issued|] == s.issued
            && w.issued[|s.issued|].kind == k && w.issued[|s.issued|].thread == t
            && w.issued[|s.issued|].id == index * 1_000_000 + if k.EventKind? then 0 else 1
  {
  }

  /** A cleared thread starts its next counters in a block that has not been handed out; a counter that it has
      already started goes on where it was. */
  lemma {:induction false} ClearedStartsAfresh(s: State, k: Kind, t: Thread)
    requires Linked(s)
    ensures var w := Next(Next(s, ClearSeed(t)), DrawId(k, t));
            && |w.issued| == |s.issued| + 1
            && w.issued[|s.issued|].id == if (k, t) in s.cells then Value(s.counts[s.cells[(k, t)]])
                                          else s.nextIndex * 1_000_000 + if k.EventKind? then 0 else 1
  {
  }

  // ---------------------------------------------------------------- the counters in place

  /** The next id of each counter. */
  ghost function Standing(s: State): map<(Kind, Thread), nat>
    requires Linked(s)
  {
    map key <- s.cells :: Value(s.counts[s.cells[key]])
  }

  lemma {:induction false} RestartedStands(s: State, k: Kind, t: Thread)
    requires Linked(s)
    ensures var w := Restarted(s, k, t);
            && Linked(w) && w.index == Indexed(s, t).index && w.nextIndex == Indexed(s, t).nextIndex
            && Standing(w) == Standing(s)[(k, t) := Offset(k) + w.index[t] * BLOCK]
  {
    hide Linked, Standing, Indexed;
    IndexedSame(s, t);
    AppendStands(Indexed(s, t), Count(k, t, Indexed(s, t).index[t], 0));
  }

  lemma {:induction false} IndexedSame(s: State, t: Thread)
    requires Linked(s)
    ensures Indexed(s, t).counts == s.counts && Indexed(s, t).cells == s.cells && Indexed(s, t).issued == s.issued
    ensures Linked(Indexed(s, t)) && Standing(Indexed(s, t)) == Standing(s)
  {
  }

  lemma {:induction false} AppendStands(s: State, c: Count)
    requires Linked(s)
    ensures var w := s.(counts := s.counts + [c], cells := s.cells[(c.kind, c.thread) := |s.counts|]);
            Linked(w) && Standing(w) == Standing(s)[(c.kind, c.thread) := Value(c)]
  {
    hide Linked, Value, Standing;
    var w := s.(counts := s.counts + [c], cells := s.cells[(c.kind, c.thread) := |s.counts|]);
    AppendLinked(s, c);
    SameKeys(s);
    SameKeys(w);
    forall key | key in w.cells ensures Standing(w)[key] == Standing(s)[(c.kind, c.thread) := Value(c)][key] {
      StandsAt(w, key);
      if key != (c.kind, c.thread) {
        StandsAt(s, key);
      }
    }
  }

  lemma {:induction false} StandsAt(s: State, key: (Kind, Thread))
    requires Linked(s) && key in s.cells
    ensures s.cells[key] < |s.counts| && key in Standing(s) && Standing(s)[key] == Value(s.counts[s.cells[key]])
  {
  }

  lemma {:induction false} AppendLinked(s: State, c: Count)
    requires Linked(s)
    ensures Linked(s.(counts := s.counts + [c], cells := s.cells[(c.kind, c.thread) := |s.counts|]))
  {
  }

  lemma {:induction false} SameKeys(s: State)
    requires Linked(s)
    ensures Standing(s).Keys == s.cells.Keys
  {
  }

  /** A draw moves one counter and no other. */
  lemma {:induction false} DrawStands(s: State, k: Kind, t: Thread)
    requires Linked(s) && (k, t) in s.cells
    ensures var w := Draw(s, k, t);
            && Linked(w) && w.index == s.index && w.nextIndex == s.nextIndex
            && Standing(w) == Standing(s)[(k, t) := Standing(s)[(k, t)] + 1]
            && w.issued == s.issued + [Issue(k, t, Standing(s)[(k, t)], s.cells[(k, t)])]
  {
    var w := Draw(s, k, t);
    assert Standing(w).Keys == Standing(s).Keys;
  }

  /** The shared counter and the thread-local cells of one process. */
  class IdSource {
    var nextIndex: nat
    var index: map<Thread, nat>
    var counters: map<(Kind, Thread), nat>
    ghost var model: State

    /** Each counter stands where the model says. */
    ghost predicate Valid()
      reads this
    {
      && Linked(model)
      && nextIndex == model.nextIndex && index == model.index
      && counters == Standing(model)
    }

    constructor ()
      ensures Valid() && model == START
    {
      nextIndex, index, counters, model := 0, map[], map[], START;
    }

    method ThreadIndex(t: Thread) returns (i: nat)
      requires Valid()
      modifies this
      ensures Valid() && model == Indexed(old(model), t) && i == model.index[t] && counters == old(counters)
    {
      model := Indexed(model, t);
      if t !in index {
        index := index[t := nextIndex];
        nextIndex := nextIndex + 1;
      }
      i := index[t];
    }

    method Reset(k: Kind, t: Thread)
      requires Valid()
      modifies this
      ensures Valid() && model == Next(old(model), ResetCounter(k, t))
    {
      hide Indexed, Restarted, Standing, Linked;
      ghost var before := model;
      var i := ThreadIndex(t);
      counters := counters[(k, t) := Offset(k) + i * BLOCK];
      RestartedStands(before, k, t);
      model := Restarted(before, k, t);
    }

    method NextId(k: Kind, t: Thread) returns (id: nat)
      requires Valid()
      modifies this
      ensures Valid() && model == Next(old(model), DrawId(k, t))
      ensures exists g :: model.issued == old(model).issued + [Issue(k, t, id, g)]
    {
      hide Restarted, Draw, Linked, Standing;
      ghost var before := model;
      SameKeys(model);
      if (k, t) !in counters {
        RestartedLinked(model, k, t);
        Reset(k, t);
        SameKeys(model);
      }
      DrawStands(model, k, t);
      id := counters[(k, t)];
      counters := counters[(k, t) := id + 1];
      model := Draw(model, k, t);
    }

    method Seed(t: Thread)
      requires Valid()
      modifies this
      ensures Valid() && model == Next(old(model), SetSeed(t))
    {
      index := index[t := 0];
      model := Next(model, SetSeed(t));
    }

    method Clear(t: Thread)
      requires Valid()
      modifies this
      ensures Valid() && model == Next(old(model), ClearSeed(t))
    {
      index := index - {t};
      model := Next(model, ClearSeed(t));
    }
  }
}
