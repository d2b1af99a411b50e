/** Event ids come from the per-thread counters, so the contract loop's assumption that no id is sent twice
    holds in a node that does not seed its threads or reset its counters. */
module EventIds {
  import opened Messages
  import C = IdCounters
  import D = DelegateLoop
  import L = ContractLoop

  /** Each event sent carries an id drawn for it: `drawn[i]` is the draw of event `i`. */
  ghost predicate DrawnFor(items: seq<Item>, s: C.State, drawn: seq<nat>) {
    && |drawn| == |items|
    && (forall i :: 0 <= i < |items| ==>
          drawn[i] < |s.issued| && s.issued[drawn[i]].kind.EventKind? && s.issued[drawn[i]].id == items[i].id)
    && (forall i, j :: 0 <= i < j < |items| ==> drawn[i] != drawn[j])
  }

  ghost predicate DistinctIds(items: seq<Item>) {
    forall i, j :: 0 <= i < j < |items| ==> items[i].id != items[j].id
  }

  lemma {:induction false} DrawnAreDistinct(items: seq<Item>, s: C.State, drawn: seq<nat>)
    requires DrawnFor(items, s, drawn) && C.Unique(s, C.EventKind)
    ensures DistinctIds(items)
  {
    forall i, j | 0 <= i < j < |items| ensures items[i].id != items[j].id {
      var a, b := drawn[i], drawn[j];
      assert s.issued[if a < b then a else b].id != s.issued[if a < b then b else a].id;
    }
  }

  lemma {:induction false} IdsCount(items: seq<Item>, id: EventId)
    requires L.Ids(items)[id] > 0
    ensures exists i :: 0 <= i < |items| && items[i].id == id
  {
    if items[0].id != id {
      IdsCount(items[1..], id);
      var i :| 0 <= i < |items[1..]| && items[1..][i].id == id;
      assert items[i + 1].id == id;
    }
  }

  lemma {:induction false} DistinctIsOnce(items: seq<Item>)
    requires DistinctIds(items)
    ensures L.Once(L.Ids(items))
  {
    if items != [] {
      DistinctIsOnce(items[1..]);
      var id := items[0].id;
      if L.Ids(items[1..])[id] > 0 {
        IdsCount(items[1..], id);
      }
    }
  }

  /** The whole contract side: in a node that neither seeds threads nor resets counters and has not used up
      a block of event ids, every event sent is in exactly one place exactly once, and no caller is settled
      twice. */
  lemma {:induction false} NodeSettlesExactlyOnce<S>(x: D.Executor<S>, l: L.Loop<S>, envs: seq<L.Env>, draws: seq<C.Step>,
                                                     drawn: seq<nat>, item: Item)
    requires L.Fresh(l) && C.Seedless(draws) && C.Resetless(draws) && C.WithinBlocks(C.After(draws), C.EventKind)
    requires DrawnFor(L.Sent(x, l, envs), C.After(draws), drawn)
    ensures multiset(L.Accounted(L.Run(x, l, envs))) == multiset(L.Sent(x, l, envs))
    ensures var e := L.Run(x, l, envs);
            var settled := L.ItemsOf(e.settled);
            && DistinctIds(settled)
            && (item in L.Sent(x, l, envs) && item !in e.pending && e.status.Running? ==>
                  (item in settled <==> item.id !in e.waiting))
  {
    hide L.Run, L.Sent, L.Ids, L.Accounted, L.ItemsOf, C.After, C.WithinBlocks, C.Unique, L.Inv;
    C.UnseededIdsAreUnique(draws, C.EventKind);
    DrawnAreDistinct(L.Sent(x, l, envs), C.After(draws), drawn);
    DistinctIsOnce(L.Sent(x, l, envs));
    L.LedgerBalances(x, l, envs);
    L.SettledExactlyOnce(x, l, envs, item);
  }
}
