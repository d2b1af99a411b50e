/** A random-order iterator over a source that can be read only once, forwards. Items read on the way
    to a picked index are memorized until their own index is picked. The picks are arbitrary. */
module Shuffle {
  import opened Messages

  function Indices(n: nat): (s: set<nat>)
    ensures |s| == n
    ensures forall i :: i in s <==> 0 <= i < n
  {
    if n == 0 then {} else
    var s := Indices(n - 1);
    assert n - 1 !in s;
    s + {n - 1}
  }

  lemma {:induction false} Smaller(a: set<nat>, b: set<nat>)
    requires a <= b
    ensures |a| <= |b|
    ensures |a| == |b| ==> a == b
  {
    if a != {} {
      var x :| x in a;
      Smaller(a - {x}, b - {x});
    }
  }

  /** Whenever the rejection loop runs there is an index left to pick, so a fair draw ends it. */
  lemma UnpickedExists(done: set<nat>, size: nat)
    requires done <= Indices(size) && |done| < size
    ensures exists i :: i in Indices(size) && i !in done
  {
    if Indices(size) <= done {
      Smaller(Indices(size), done);
    }
  }

  /** What is memorized: the items read so far, at their own indices, less those handed out. */
  ghost predicate Remembers<T>(memorized: map<nat, T>, source: seq<T>, read: nat, done: set<nat>) {
    && read <= |source|
    && (forall i: nat :: i in memorized <==> i < read && i !in done)
    && (forall i: nat :: i in memorized ==> memorized[i] == source[i])
  }

  /** Handing out an item leaves the rest remembered. */
  lemma Recall<T>(memorized: map<nat, T>, source: seq<T>, read: nat, done: set<nat>, pick: nat)
    requires Remembers(memorized, source, read, done)
    ensures pick in memorized ==> pick < read <= |source| && memorized[pick] == source[pick]
    ensures Remembers(memorized - {pick}, source, read, done + {pick})
  {
  }

  lemma NothingRead<T>(source: seq<T>)
    ensures Remembers(map[], source, 0, {})
  {
  }

  function At<T>(source: seq<T>, i: nat): Option<T> {
    if i < |source| then Some(source[i]) else None
  }

  /** How often `x` occurs at the indices below `n` that have not been picked. */
  ghost function Left<T>(source: seq<T>, done: set<nat>, n: nat, x: T): nat
    requires n <= |source|
  {
    if n == 0 then 0 else
    Left(source, done, n - 1, x) + if n - 1 !in done && source[n - 1] == x then 1 else 0
  }

  /** Nothing picked: the whole source is left. Everything picked: nothing is. */
  lemma {:induction false} LeftBounds<T>(source: seq<T>, n: nat, all: set<nat>, x: T)
    requires n <= |source| && forall i: nat :: i < n ==> i in all
    ensures Left(source, {}, n, x) == multiset(source[..n])[x]
    ensures Left(source, all, n, x) == 0
  {
    if n > 0 {
      LeftBounds(source, n - 1, all, x);
      assert source[..n] == source[..n - 1] + [source[n - 1]];
    }
  }

  /** A pick moves exactly one item out of what is left. */
  lemma {:induction false} LeftPick<T>(source: seq<T>, done: set<nat>, n: nat, pick: nat, x: T)
    requires n <= |source| && pick !in done
    ensures Left(source, done, n, x)
         == Left(source, done + {pick}, n, x) + if pick < n && source[pick] == x then 1 else 0
  {
    if n > 0 {
      LeftPick(source, done, n - 1, pick, x);
    }
  }

  /** Draws that bring up every index, which is what makes the rejection loop end. */
  ghost predicate Fair(draws: seq<nat>, size: nat) {
    forall i :: i in draws <==> i in Indices(size)
  }

  lemma {:induction false} FairFinds(draws: seq<nat>, done: set<nat>, size: nat)
    requires Fair(draws, size) && done <= Indices(size) && |done| < size
    ensures exists k :: 0 <= k < |draws| && draws[k] !in done
    ensures forall d <- draws :: d in Indices(size)
  {
    UnpickedExists(done, size);
    var i :| i in Indices(size) && i !in done;
    assert i in draws;
  }

  class Shuffle<T> {
    const size: nat
    var inner: seq<T>
    var memorized: map<nat, T>
    var done: set<nat>
    var doneCounter: nat
    var counter: nat
    ghost const source: seq<T>

    ghost predicate Valid()
      reads this
    {
      && done <= Indices(size) && |done| == counter <= size && doneCounter <= size
      && ValidReading(done)
    }

    /** With an exact hint, what is memorized are the indices below `doneCounter` that were not picked. */
    lemma MemorizedKeys()
      requires Valid() && |source| == size
      ensures memorized.Keys == Indices(doneCounter) - done
    {
      hide Indices;
      assert |source| - |inner| == doneCounter;
      forall i: nat ensures i in memorized.Keys <==> i in Indices(doneCounter) - done {
        assert i in Indices(doneCounter) <==> i < doneCounter;
      }
    }

    /** The reading position and the memory agree, for the picks in `taken`. */
    ghost predicate ValidReading(taken: set<nat>)
      reads this
    {
      && |inner| <= |source| && inner == source[|source| - |inner|..]
      && Remembers(memorized, source, |source| - |inner|, taken)
      && (if inner == [] then doneCounter >= |source| else doneCounter == |source| - |inner|)
      && (inner != [] ==> forall i :: i in taken ==> i < doneCounter)
    }

    /** `upper` is the upper end of the source's size hint; a hint that is not exact is a panic. */
    constructor (items: seq<T>, lower: nat, upper: Option<nat>)
      requires upper == Some(lower)
      ensures Valid() && source == items && size == lower && done == {}
    {
      size, inner, source := lower, items, items;
      memorized, done, doneCounter, counter := map[], {}, 0, 0;
      new;
      assert items[0..] == items && |source| - |inner| == 0;
      NothingRead(items);
    }

    /** Draw until an index comes up that was not picked before. */
    method Pick(draws: seq<nat>) returns (pick: nat)
      requires exists k :: 0 <= k < |draws| && draws[k] !in done
      modifies this`done
      ensures pick in draws && pick !in old(done) && done == old(done) + {pick}
    {
      ghost var last :| 0 <= last < |draws| && draws[last] !in done;
      var i := 0;
      while draws[i] in done
        invariant 0 <= i <= last && done == old(done)
        decreases last - i
      {
        i := i + 1;
      }
      pick := draws[i];
      done := done + {pick};
    }

    /** Read the source as far as `pick`, memorizing each item under its index. */
    method ReadTo(pick: nat, ghost taken: set<nat>)
      requires ValidReading(taken) && pick !in memorized && pick !in taken
      modifies this`inner, this`memorized, this`doneCounter
      ensures ValidReading(taken) && (inner != [] ==> pick < doneCounter)
      ensures pick in memorized <==> pick < |source|
      ensures doneCounter == pick + 1
    {
      var i := doneCounter;
      while i <= pick
        invariant |inner| <= |source| && inner == source[|source| - |inner|..]
        invariant Remembers(memorized, source, |source| - |inner|, taken)
        invariant if inner == [] then i >= |source| else i == |source| - |inner|
        invariant inner != [] ==> old(inner) != [] && old(doneCounter) <= i <= pick + 1
        invariant pick < |source| ==> i <= pick + 1
        decreases pick + 1 - i
      {
        if inner != [] {
          memorized := memorized[i := inner[0]];
          inner := inner[1..];
        }
        i := i + 1;
      }
      doneCounter := pick + 1;
    }

    /** One item of the source per call, at an index not returned before, until `size` calls have been
        made. A source shorter than its hint gives `None` for the indices it does not have. */
    method Next(draws: seq<nat>) returns (item: Option<T>, ghost pick: nat)
      requires Valid() && Fair(draws, size)
      modifies this
      ensures Valid()
      ensures old(counter) == size ==> item == None && done == old(done)
      ensures old(counter) < size ==>
                && pick < size && pick !in old(done) && done == old(done) + {pick}
                && counter == old(counter) + 1 && item == At(source, pick)
    {
      hide Remembers, Indices, Fair;
      pick := 0;
      if counter == size {
        return None, 0;
      }
      FairFinds(draws, done, size);
      var chosen := Pick(draws);
      pick := chosen;
      if chosen in memorized {
        Recall(memorized, source, |source| - |inner|, old(done), chosen);
        item := Some(memorized[chosen]);
        memorized := memorized - {chosen};
      } else {
        ReadTo(chosen, old(done));
        Recall(memorized, source, |source| - |inner|, old(done), chosen);
        item := if chosen in memorized then Some(memorized[chosen]) else None;
        memorized := memorized - {chosen};
      }
      counter := counter + 1;
      assert counter <= size by { Smaller(done, Indices(size)); }
    }
  }

  /** Each item of the source has been handed out or is left to pick. */
  ghost predicate Balanced<T(!new)>(items: seq<T>, done: set<nat>, out: seq<T>) {
    forall x: T :: multiset(out)[x] + Left(items, done, |items|, x) == multiset(items)[x]
  }

  lemma BalancedBounds<T(!new)>(items: seq<T>, done: set<nat>, out: seq<T>)
    ensures Balanced(items, {}, [])
    ensures Balanced(items, done, out) && done == Indices(|items|) ==> multiset(out) == multiset(items)
  {
    forall x: T {
      LeftBounds(items, |items|, Indices(|items|), x);
    }
    assert items[..|items|] == items;
  }

  lemma BalancedPick<T(!new)>(items: seq<T>, done: set<nat>, out: seq<T>, pick: nat)
    requires Balanced(items, done, out) && pick < |items| && pick !in done
    ensures Balanced(items, done + {pick}, out + [items[pick]])
  {
    forall x: T ensures multiset(out + [items[pick]])[x] + Left(items, done + {pick}, |items|, x) == multiset(items)[x] {
      LeftPick(items, done, |items|, pick, x);
      assert multiset(out)[x] + Left(items, done, |items|, x) == multiset(items)[x];
    }
  }

  /** Draining the iterator gives the source back in the order of the picks, each item exactly once. */
  method Collect<T(!new)>(items: seq<T>, draws: nat -> seq<nat>) returns (out: seq<T>, ghost picks: seq<nat>)
    requires forall k :: Fair(draws(k), |items|)
    ensures multiset(out) == multiset(items)
    ensures |out| == |picks| == |items|
    ensures forall k :: 0 <= k < |out| ==> picks[k] < |items| && out[k] == items[picks[k]]
  {
    hide Balanced, Remembers, Indices;
    var it := new Shuffle(items, |items|, Some(|items|));
    out, picks := [], [];
    BalancedBounds(items, {}, []);
    while true
      invariant fresh(it) && it.Valid() && it.source == items && it.size == |items|
      invariant |out| == |picks| == it.counter
      invariant forall k :: 0 <= k < |out| ==> picks[k] < |items| && out[k] == items[picks[k]]
      invariant Balanced(items, it.done, out)
      decreases |items| - it.counter
    {
      ghost var before, given := it.done, out;
      var item, pick := it.Next(draws(|out|));
      if item == None {
        break;
      }
      out, picks := out + [item.value], picks + [pick];
      BalancedPick(items, before, given, pick);
    }
    Smaller(it.done, Indices(|items|));
    BalancedBounds(items, it.done, out);
  }
}
