/** The simulation clock: a base time and a counter that every id drawn advances by one, so that ids drawn
    in one simulation come in order whatever their random bits, types and parents are. */
module SimulatedTime {
  import opened Messages
  import opened Bits
  import opened Transactions

  datatype Clock = Clock(base: Option<nat>, counter: nat)

  /** The time for reading; `system` is the operating system's time. */
  function TimeOf(c: Clock, system: nat): nat {
    match c.base
    case None => system
    case Some(base) => if base + c.counter > U64_MAX then U64_MAX else base + c.counter
  }

  /** Drawing a time advances the counter. */
  function Advance(c: Clock): Clock {
    if c.base.Some? then c.(counter := c.counter + 1) else c
  }

  datatype Draw = Draw(ty: TxType, bytes: seq<nat>, parent: Option<Ulid>)

  predicate GoodDraws(ds: seq<Draw>) {
    forall i :: 0 <= i < |ds| ==> RandomBytes(ds[i].bytes)
  }

  function Issue(c: Clock, d: Draw): Transaction
    requires RandomBytes(d.bytes)
  {
    Typed(d.ty, NewUlid(TimeOf(c, 0), d.bytes), d.parent)
  }

  function After(c: Clock, n: nat): Clock {
    if n == 0 then c else Advance(After(c, n - 1))
  }

  /** The transactions a simulation issues, one per draw. */
  function Issued(c: Clock, ds: seq<Draw>): seq<Transaction>
    requires GoodDraws(ds)
  {
    if ds == [] then [] else
    Issued(c, ds[..|ds| - 1]) + [Issue(After(c, |ds| - 1), ds[|ds| - 1])]
  }

  lemma {:induction false} AfterCounts(c: Clock, n: nat)
    ensures After(c, n) == if c.base.Some? then c.(counter := c.counter + n) else c
  {
    if n > 0 {
      AfterCounts(c, n - 1);
    }
  }

  lemma {:induction false} IssuedAt(c: Clock, ds: seq<Draw>, k: nat)
    requires GoodDraws(ds) && k < |ds|
    ensures |Issued(c, ds)| == |ds| && Issued(c, ds)[k] == Issue(After(c, k), ds[k])
  {
    hide Issue, After;
    if k < |ds| - 1 {
      IssuedAt(c, ds[..|ds| - 1], k);
    } else if |ds| > 1 {
      IssuedAt(c, ds[..|ds| - 1], 0);
    }
  }

  lemma {:induction false} IssuedLength(c: Clock, ds: seq<Draw>)
    requires GoodDraws(ds)
    ensures |Issued(c, ds)| == |ds|
  {
    hide Issue, After;
    if ds != [] {
      IssuedLength(c, ds[..|ds| - 1]);
    }
  }

  /** The time the `k`-th transaction was issued at, while the clock does not saturate. */
  lemma {:induction false} IssueTime(c: Clock, ds: seq<Draw>, k: nat)
    requires GoodDraws(ds) && k < |ds| && c.base.Some? && c.base.value + c.counter + k <= U64_MAX
    ensures |Issued(c, ds)| == |ds| && Timestamp(Issued(c, ds)[k]) == (c.base.value + c.counter + k) % P48
    ensures TypeOf(Issued(c, ds)[k]) == Some(ds[k].ty) && Issued(c, ds)[k].parent == ds[k].parent
  {
    hide Timestamp, TypeOf, Issued;
    IssuedAt(c, ds, k);
    AfterCounts(c, k);
  }

  /** A clock past the last 64-bit time stands still there. */
  lemma {:induction false} SaturatedTime(c: Clock, ds: seq<Draw>, k: nat)
    requires GoodDraws(ds) && k < |ds| && c.base.Some? && c.base.value + c.counter + k > U64_MAX
    ensures |Issued(c, ds)| == |ds| && Timestamp(Issued(c, ds)[k]) == U64_MAX % P48
  {
    hide Timestamp, TypeOf, Issued;
    IssuedAt(c, ds, k);
    AfterCounts(c, k);
  }

  /** Of two transactions of a simulation the one issued first is the lesser, exactly when the clock did
      not pass a multiple of 2^48 milliseconds between them; they differ in any case. */
  lemma {:induction false} InOrderIff(c: Clock, ds: seq<Draw>, i: nat, j: nat)
    requires GoodDraws(ds) && i < j < |ds| && j - i < P48
    requires c.base.Some? && c.base.value + c.counter + j <= U64_MAX
    ensures |Issued(c, ds)| == |ds|
    ensures Before(Issued(c, ds)[i], Issued(c, ds)[j])
       <==> (c.base.value + c.counter + i) / P48 == (c.base.value + c.counter + j) / P48
    ensures Issued(c, ds)[i].id != Issued(c, ds)[j].id
  {
    hide Issued;
    IssueTime(c, ds, i);
    IssueTime(c, ds, j);
    var a, b := Issued(c, ds)[i], Issued(c, ds)[j];
    Wraps(c.base.value + c.counter + i, c.base.value + c.counter + j);
    OlderIsBefore(a, b);
    OlderIsBefore(b, a);
  }

  lemma {:induction false} Wraps(s: nat, t: nat)
    requires s < t && t - s < P48
    ensures s % P48 < t % P48 <==> s / P48 == t / P48
    ensures s % P48 != t % P48
  {
    var q, r := s / P48, s % P48;
    if r + (t - s) < P48 {
      Quotient(q, r + (t - s));
    } else {
      Quotient(q + 1, r + (t - s) - P48);
    }
  }

  lemma {:induction false} Quotient(q: nat, r: nat)
    requires r < P48
    ensures (q * P48 + r) / P48 == q && (q * P48 + r) % P48 == r
  {
  }

  /** Below 2^48 milliseconds, that is until the year 10889, the whole simulation is in order. */
  lemma {:induction false} SimulationIsInOrder(c: Clock, ds: seq<Draw>)
    requires GoodDraws(ds) && c.base.Some? && c.base.value + c.counter + |ds| <= P48
    ensures |Issued(c, ds)| == |ds|
    ensures forall i, j :: 0 <= i < j < |ds| ==> Before(Issued(c, ds)[i], Issued(c, ds)[j])
  {
    hide Issued, Before;
    IssuedLength(c, ds);
    forall i, j | 0 <= i < j < |ds| ensures Before(Issued(c, ds)[i], Issued(c, ds)[j]) {
      InOrderIff(c, ds, i, j);
    }
  }

  /** One millisecond before the limit the next id drawn is the lesser one. */
  lemma {:induction false} OrderIsLostAtTheLimit(d: Draw, d': Draw)
    requires RandomBytes(d.bytes) && RandomBytes(d'.bytes)
    ensures var txs := Issued(Clock(Some(P48 - 1), 0), [d, d']);
            |txs| == 2 && Before(txs[1], txs[0])
  {
    hide Issued;
    var c, ds := Clock(Some(P48 - 1), 0), [d, d'];
    InOrderIff(c, ds, 0, 1);
  }

  /** Comparing transactions of one simulation as equal is having them equal, parents included. */
  lemma {:induction false} ComparesEqualIffEqual(c: Clock, ds: seq<Draw>, i: nat, j: nat)
    requires GoodDraws(ds) && i < |ds| && j < |ds| && |ds| <= P48
    requires c.base.Some? && c.base.value + c.counter + |ds| <= U64_MAX
    ensures |Issued(c, ds)| == |ds|
    ensures Issued(c, ds)[i].id == Issued(c, ds)[j].id <==> Issued(c, ds)[i] == Issued(c, ds)[j]
    ensures Issued(c, ds)[i] == Issued(c, ds)[j] <==> i == j
  {
    hide Issued;
    IssuedAt(c, ds, i);
    if i < j {
      InOrderIff(c, ds, i, j);
    } else if j < i {
      InOrderIff(c, ds, j, i);
    }
  }

  /** In general the order ignores the parent and equality does not. */
  lemma {:induction false} EqualOrderUnequalTransactions(id: Ulid)
    ensures var a, b := Transaction(id, None), Transaction(id, Some(id));
            !Before(a, b) && !Before(b, a) && a != b
  {
  }

  // ---------------------------------------------------------------- ages inside a simulation

  /** A transaction has timed out exactly when at least sixty thousand ids have been drawn since it. */
  lemma {:induction false} TimedOutIff(c: Clock, ds: seq<Draw>, k: nat)
    requires GoodDraws(ds) && k < |ds| && c.base.Some? && c.base.value + c.counter + |ds| < P48
    ensures |Issued(c, ds)| == |ds|
    ensures TimedOut(Issued(c, ds)[k], TimeOf(After(c, |ds|), 0)) <==> |ds| - k >= TTL_MS
  {
    hide Issued;
    IssueTime(c, ds, k);
    AfterCounts(c, |ds|);
  }

  /** A cutoff drawn next separates the transactions by the number of ids drawn since. */
  lemma {:induction false} CutoffSeparates(c: Clock, ds: seq<Draw>, k: nat, bytes: seq<nat>, multiplier: nat)
    requires GoodDraws(ds) && k < |ds| && RandomBytes(bytes)
    requires c.base.Some? && TTL_MS * multiplier <= c.base.value + c.counter + |ds| < P48
    ensures |Issued(c, ds)| == |ds|
    ensures var cutoff := Cutoff(NewUlid(TimeOf(After(c, |ds|), 0), bytes), multiplier);
            && (!Before(cutoff, Issued(c, ds)[k]) ==> |ds| - k >= TTL_MS * multiplier)
            && (|ds| - k > TTL_MS * multiplier ==> Before(Issued(c, ds)[k], cutoff))
  {
    hide Issued, Cutoff, Before, NewUlid, Timestamp, After;
    IssueTime(c, ds, k);
    AfterCounts(c, |ds|);
    var drawn := NewUlid(TimeOf(After(c, |ds|), 0), bytes);
    assert drawn / P80 == c.base.value + c.counter + |ds|;
    CutoffIsAge(Issued(c, ds)[k], drawn, multiplier);
  }

  // ---------------------------------------------------------------- the clock in place

  class SimClock {
    var base: Option<nat>
    var counter: nat

    constructor ()
      ensures View() == Clock(None, 0)
    {
      base, counter := None, 0;
    }

    ghost function View(): Clock
      reads this
    {
      Clock(base, counter)
    }

    method SetTimeMs(time: nat)
      requires time <= U64_MAX
      modifies this
      ensures View() == Clock(Some(time), 0)
    {
      base, counter := Some(time), 0;
    }

    method ClearTime()
      modifies this
      ensures View() == Clock(None, 0)
    {
      base, counter := None, 0;
    }

    method ReadTimeMs(system: nat) returns (time: nat)
      ensures time == TimeOf(View(), system) && (base.None? ==> time == system)
    {
      if base.None? {
        return system;
      }
      time := base.value + counter;
      if time > U64_MAX {
        time := U64_MAX;
      }
    }

    method CurrentTimeMs(system: nat) returns (time: nat)
      modifies this
      ensures time == TimeOf(old(View()), system) && View() == Advance(old(View()))
    {
      time := ReadTimeMs(system);
      if base.Some? {
        counter := counter + 1;
      }
    }

    /** `bytes` is what the generator fills in and `standard` is the library's own id; the former is used
        as soon as the generator is seeded or the time is simulated. */
    method DrawUlid(seeded: bool, system: nat, bytes: seq<nat>, standard: Ulid) returns (id: Ulid)
      requires RandomBytes(bytes)
      modifies this
      ensures seeded || old(base).Some? ==>
                id == NewUlid(TimeOf(old(View()), system), bytes) && View() == Advance(old(View()))
      ensures !seeded && old(base).None? ==> id == standard && View() == old(View())
    {
      if seeded || base.Some? {
        var time := CurrentTimeMs(system);
        id := NewUlid(time, bytes);
      } else {
        id := standard;
      }
    }

    /** Issuing the draws of a simulation one by one gives the transactions of `Issued`. */
    method IssueAll(ds: seq<Draw>) returns (txs: seq<Transaction>)
      requires GoodDraws(ds) && base.Some?
      modifies this
      ensures txs == Issued(old(View()), ds) && View() == After(old(View()), |ds|)
    {
      hide Issue;
      txs := [];
      var i := 0;
      ghost var c := View();
      while i < |ds|
        invariant 0 <= i <= |ds| && base.Some?
        invariant txs == Issued(c, ds[..i]) && View() == After(c, i)
      {
        var id := DrawUlid(false, 0, ds[i].bytes, 0);
        var tx := Typed(ds[i].ty, id, ds[i].parent);
        IssueIs(After(c, i), ds[i]);
        assert ds[..i + 1][..i] == ds[..i];
        txs := txs + [tx];
        i := i + 1;
      }
      assert ds[..|ds|] == ds;
    }
  }

  lemma {:induction false} IssueIs(c: Clock, d: Draw)
    requires RandomBytes(d.bytes)
    ensures Issue(c, d) == Typed(d.ty, NewUlid(TimeOf(c, 0), d.bytes), d.parent)
  {
  }
}
