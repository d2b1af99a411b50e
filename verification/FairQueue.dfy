/** The per-contract fair queue in front of the contract executor.

    `FairEventQueue` is the queue as it is stored: a map of per-contract queues, a default queue,
    the round-robin ring and a running total. A `Ring` is the simple form it refines: a sequence of
    non-empty lanes, one per waiting key, in the order they will be served. */
module FairQueue {
  import opened Messages

  const MAX_QUEUED_PER_CONTRACT: nat := 100
  const MAX_TOTAL_FAIR_QUEUE: nat := 5000

  datatype QueueKey = Contract(id: ContractInstanceId) | Default

  /** The contract an event is queued under, if it has one. */
  function ExtractContractId(e: Event): Option<ContractInstanceId> {
    match e
    case PutQuery(key, _, _, _) => Some(key.id)
    case UpdateQuery(key, _, _) => Some(key.id)
    case GetSummaryQuery(key) => Some(key.id)
    case GetDeltaQuery(key, _) => Some(key.id)
    case GetQuery(id, _) => Some(id)
    case RegisterSubscriberListener(id, _) => Some(id)
    case NotifySubscriptionError(id, _) => Some(id)
    case _ => None
  }

  function KeyOf(item: Item): QueueKey {
    match ExtractContractId(item.event)
    case Some(id) => Contract(id)
    case None => Default
  }

  /** The event is about the contract. */
  predicate Names(e: Event, id: ContractInstanceId) {
    if e.PutQuery? || e.UpdateQuery? || e.GetSummaryQuery? || e.GetDeltaQuery? then e.key.id == id
    else (e.GetQuery? || e.RegisterSubscriberListener? || e.NotifySubscriptionError?) && e.instanceId == id
  }

  /** Two events share a lane exactly when they are about the same contract, or neither is about any. */
  lemma {:induction false} SameLaneIff(a: Item, b: Item)
    ensures KeyOf(a) == KeyOf(b) <==> forall id :: Names(a.event, id) <==> Names(b.event, id)
  {
    LaneNames(a);
    LaneNames(b);
    if KeyOf(a).Contract? {
      assert Names(a.event, KeyOf(a).id);
    } else if KeyOf(b).Contract? {
      assert Names(b.event, KeyOf(b).id);
    }
  }

  lemma {:induction false} LaneNames(a: Item)
    ensures forall id :: Names(a.event, id) <==> KeyOf(a) == Contract(id)
  {
  }

  // ---------------------------------------------------------------- the simple form

  datatype Lane = Lane(key: QueueKey, items: seq<Item>)
  type Ring = seq<Lane>

  /** The position of a key's lane, or the length of the ring if the key is not waiting. */
  function Find(v: Ring, k: QueueKey): (i: nat)
    ensures i <= |v|
    ensures i < |v| ==> v[i].key == k
    ensures forall j :: 0 <= j < i ==> v[j].key != k
  {
    if v == [] || v[0].key == k then 0 else 1 + Find(v[1..], k)
  }

  function LaneOf(v: Ring, k: QueueKey): seq<Item> {
    var i := Find(v, k);
    if i < |v| then v[i].items else []
  }

  /** Everything queued, lane by lane in ring order. */
  function Contents(v: Ring): seq<Item> {
    if v == [] then [] else v[0].items + Contents(v[1..])
  }

  predicate DistinctKeys(v: Ring) {
    forall i, j :: 0 <= i < j < |v| ==> v[i].key != v[j].key
  }

  predicate GoodLane(l: Lane) {
    0 < |l.items| <= MAX_QUEUED_PER_CONTRACT && forall x <- l.items :: KeyOf(x) == l.key
  }

  predicate GoodLanes(v: Ring) {
    forall i :: 0 <= i < |v| ==> GoodLane(v[i])
  }

  predicate WellFormed(v: Ring) {
    DistinctKeys(v) && GoodLanes(v) && |Contents(v)| <= MAX_TOTAL_FAIR_QUEUE
  }

  predicate Accepts(v: Ring, item: Item) {
    |Contents(v)| < MAX_TOTAL_FAIR_QUEUE && |LaneOf(v, KeyOf(item))| < MAX_QUEUED_PER_CONTRACT
  }

  function Pushed(v: Ring, item: Item): Ring {
    var k := KeyOf(item);
    var i := Find(v, k);
    if !Accepts(v, item) then v
    else if i < |v| then v[i := Lane(k, v[i].items + [item])]
    else v + [Lane(k, [item])]
  }

  function Popped(v: Ring): Ring
    requires v != [] && v[0].items != []
  {
    if |v[0].items| == 1 then v[1..] else v[1..] + [Lane(v[0].key, v[0].items[1..])]
  }

  lemma {:induction false} ContentsSplit(a: Ring, b: Ring)
    ensures Contents(a + b) == Contents(a) + Contents(b)
  {
    if a == [] {
      assert a + b == b;
    } else {
      assert (a + b)[1..] == a[1..] + b;
      ContentsSplit(a[1..], b);
    }
  }

  lemma ContentsOne(l: Lane)
    ensures Contents([l]) == l.items
  {
    assert Contents([l]) == l.items + Contents([l][1..]);
  }

  lemma ContentsReplace(v: Ring, i: nat, l: Lane)
    requires i < |v|
    ensures Contents(v) == Contents(v[..i]) + v[i].items + Contents(v[i + 1..])
    ensures Contents(v[i := l]) == Contents(v[..i]) + l.items + Contents(v[i + 1..])
  {
    assert v == v[..i] + [v[i]] + v[i + 1..] && v[i := l] == v[..i] + [l] + v[i + 1..];
    ContentsSplit(v[..i] + [v[i]], v[i + 1..]);
    ContentsSplit(v[..i], [v[i]]);
    ContentsSplit(v[..i] + [l], v[i + 1..]);
    ContentsSplit(v[..i], [l]);
    ContentsOne(v[i]);
    ContentsOne(l);
  }

  lemma PushDistinct(v: Ring, item: Item)
    requires DistinctKeys(v)
    ensures DistinctKeys(Pushed(v, item))
  {
  }

  lemma PushGood(v: Ring, item: Item)
    requires GoodLanes(v)
    ensures GoodLanes(Pushed(v, item))
  {
    var k := KeyOf(item);
    var i := Find(v, k);
    if Accepts(v, item) && i < |v| {
      assert GoodLane(v[i]);
      assert GoodLane(Lane(k, v[i].items + [item]));
    } else {
      assert GoodLane(Lane(k, [item]));
    }
  }

  /** A push inserts the item at one place of the contents. */
  lemma PushSplit(v: Ring, item: Item) returns (a: seq<Item>, b: seq<Item>)
    requires Accepts(v, item)
    ensures Contents(v) == a + b && Contents(Pushed(v, item)) == a + [item] + b
  {
    hide KeyOf;
    var k := KeyOf(item);
    var i := Find(v, k);
    if i < |v| {
      ContentsReplace(v, i, Lane(k, v[i].items + [item]));
      a, b := Contents(v[..i]) + v[i].items, Contents(v[i + 1..]);
    } else {
      ContentsSplit(v, [Lane(k, [item])]);
      ContentsOne(Lane(k, [item]));
      a, b := Contents(v), [];
    }
  }

  /** A pop takes out the head of the first lane and moves the rest of that lane to the back. */
  lemma PopSplit(v: Ring) returns (a: seq<Item>, b: seq<Item>)
    requires v != [] && v[0].items != []
    ensures Contents(v) == [v[0].items[0]] + a + b && Contents(Popped(v)) == b + a
  {
    a, b := v[0].items[1..], Contents(v[1..]);
    assert v[0].items == [v[0].items[0]] + a;
    if a == [] {
      assert b + a == b;
    } else {
      ContentsSplit(v[1..], [Lane(v[0].key, a)]);
      ContentsOne(Lane(v[0].key, a));
    }
  }

  lemma PushContents(v: Ring, item: Item)
    requires Accepts(v, item)
    ensures multiset(Contents(Pushed(v, item))) == multiset(Contents(v)) + multiset{item}
    ensures |Contents(Pushed(v, item))| == |Contents(v)| + 1
  {
    var a, b := PushSplit(v, item);
  }

  /** A push keeps the ring well formed, and either changes nothing or adds exactly the one item. */
  lemma PushKeeps(v: Ring, item: Item)
    requires WellFormed(v)
    ensures WellFormed(Pushed(v, item))
    ensures Accepts(v, item) ==> multiset(Contents(Pushed(v, item))) == multiset(Contents(v)) + multiset{item}
    ensures Accepts(v, item) ==> |Contents(Pushed(v, item))| == |Contents(v)| + 1
    ensures !Accepts(v, item) ==> Pushed(v, item) == v
  {
    PushDistinct(v, item);
    PushGood(v, item);
    if Accepts(v, item) {
      PushContents(v, item);
    }
  }

  lemma PopDistinct(v: Ring)
    requires DistinctKeys(v) && v != [] && v[0].items != []
    ensures DistinctKeys(Popped(v))
  {
    assert forall j :: 0 <= j < |v| - 1 ==> Popped(v)[j] == v[j + 1];
  }

  lemma PopGood(v: Ring)
    requires GoodLanes(v) && v != []
    ensures GoodLane(v[0]) && GoodLanes(Popped(v))
  {
    assert GoodLane(v[0]);
    if |v[0].items| > 1 {
      assert GoodLane(Lane(v[0].key, v[0].items[1..]));
    }
  }

  lemma PopContents(v: Ring)
    requires v != [] && v[0].items != []
    ensures multiset(Contents(v)) == multiset(Contents(Popped(v))) + multiset{v[0].items[0]}
    ensures |Contents(v)| == |Contents(Popped(v))| + 1
  {
    var a, b := PopSplit(v);
  }

  /** A pop keeps the ring well formed and takes out exactly the head of the first lane. */
  lemma PopKeeps(v: Ring)
    requires WellFormed(v) && v != []
    ensures GoodLane(v[0])
    ensures WellFormed(Popped(v))
    ensures multiset(Contents(v)) == multiset(Contents(Popped(v))) + multiset{v[0].items[0]}
    ensures |Contents(v)| == |Contents(Popped(v))| + 1
  {
    PopGood(v);
    PopDistinct(v);
    PopContents(v);
  }

  /** No more lanes than items. */
  lemma {:induction false} RingIsShort(v: Ring)
    requires GoodLanes(v)
    ensures |v| <= |Contents(v)|
  {
    if v != [] {
      assert GoodLane(v[0]);
      RingIsShort(v[1..]);
    }
  }

  lemma {:induction false} FindUnique(v: Ring, i: nat)
    requires DistinctKeys(v) && i < |v|
    ensures Find(v, v[i].key) == i
  {
  }

  // ---------------------------------------------------------------- runs

  datatype Op = Push(item: Item) | Pop

  datatype Outcome = Outcome(final: Ring, out: seq<Item>)

  function Step(v: Ring, op: Op): (w: Ring)
    requires WellFormed(v)
    ensures WellFormed(w)
  {
    match op
    case Push(item) => PushKeeps(v, item); Pushed(v, item)
    case Pop => if v == [] then v else PopKeeps(v); Popped(v)
  }

  function Emitted(v: Ring, op: Op): seq<Item>
    requires WellFormed(v)
  {
    if op.Pop? && v != [] then assert GoodLane(v[0]); [v[0].items[0]] else []
  }

  /** All items popped by a run, in order, and the queue it ends in. */
  function Run(v: Ring, ops: seq<Op>): (r: Outcome)
    requires WellFormed(v)
    ensures WellFormed(r.final)
    decreases |ops|
  {
    if ops == [] then Outcome(v, []) else
    var rest := Run(Step(v, ops[0]), ops[1..]);
    Outcome(rest.final, Emitted(v, ops[0]) + rest.out)
  }

  function Pops(ops: seq<Op>): nat {
    if ops == [] then 0 else (if ops[0].Pop? then 1 else 0) + Pops(ops[1..])
  }

  lemma {:induction false} RunSplit(v: Ring, a: seq<Op>, b: seq<Op>)
    requires WellFormed(v)
    ensures Run(v, a + b).final == Run(Run(v, a).final, b).final
    ensures Run(v, a + b).out == Run(v, a).out + Run(Run(v, a).final, b).out
    ensures Pops(a + b) == Pops(a) + Pops(b)
    decreases |a|
  {
    hide WellFormed, Step, Emitted;
    if a == [] {
      assert a + b == b;
    } else {
      assert (a + b)[1..] == a[1..] + b;
      RunSplit(Step(v, a[0]), a[1..], b);
    }
  }

  lemma RunOne(v: Ring, op: Op)
    requires WellFormed(v)
    ensures Run(v, [op]) == Outcome(Step(v, op), Emitted(v, op)) && Pops([op]) == if op.Pop? then 1 else 0
  {
    hide WellFormed, Step, Emitted;
    assert [op][1..] == [];
    assert Run(Step(v, op), [op][1..]) == Outcome(Step(v, op), []);
  }

  function Least(a: nat, b: nat): nat {
    if a < b then a else b
  }

  /** Whatever is pushed meanwhile, a pop serves an event as long as there are any: of those waiting at
      the start, or as many others, one for each pop. */
  lemma {:induction false} PopsServe(v: Ring, ops: seq<Op>)
    requires WellFormed(v)
    ensures |Run(v, ops).out| >= Least(|Contents(v)|, Pops(ops))
    decreases |ops|
  {
    hide WellFormed, Contents;
    if ops != [] {
      PopsServe(Step(v, ops[0]), ops[1..]);
      StepCounts(v, ops[0]);
    }
  }

  lemma {:induction false} StepCounts(v: Ring, op: Op)
    requires WellFormed(v)
    ensures |Contents(Step(v, op))| + |Emitted(v, op)| >= |Contents(v)|
    ensures op.Pop? && |Contents(v)| > 0 ==> |Emitted(v, op)| == 1
    ensures op.Push? ==> Emitted(v, op) == []
  {
    match op {
      case Push(item) => PushKeeps(v, item);
      case Pop => if v != [] { PopKeeps(v); }
    }
  }

  /** Where an event stands after one step that does not serve it. */
  lemma StepMoves(v: Ring, op: Op, j: nat, d: nat) returns (j': nat, d': nat)
    requires WellFormed(v) && j < |v| && d < |v[j].items|
    requires op.Pop? ==> j > 0 || d > 0
    ensures j' < |Step(v, op)| && d' < |Step(v, op)[j'].items|
    ensures Step(v, op)[j'].items[d'] == v[j].items[d]
    ensures op.Push? ==> j' == j && d' == d
    ensures op.Pop? && j > 0 ==> j' == j - 1 && d' == d
    ensures op.Pop? && j == 0 ==> j' < MAX_TOTAL_FAIR_QUEUE && d' == d - 1
  {
    RingIsShort(v);
    if op.Push? {
      j', d' := j, d;
    } else if j > 0 {
      j', d' := j - 1, d;
    } else {
      j', d' := |v| - 1, d - 1;
    }
  }

  lemma {:induction false} FirstStep(v: Ring, ops: seq<Op>)
    requires WellFormed(v) && v != [] && ops != []
    ensures WellFormed(Step(v, ops[0])) && Run(v, ops).out == Emitted(v, ops[0]) + Run(Step(v, ops[0]), ops[1..]).out
    ensures GoodLane(v[0]) && Emitted(v, ops[0]) == if ops[0].Pop? then [v[0].items[0]] else []
  {
    hide Accepts, Pushed, Popped;
    match ops[0] {
      case Push(item) => PushKeeps(v, item);
      case Pop => PopKeeps(v);
    }
  }

  /** An event `d` places deep in a lane that is `j`-th in the ring leaves the queue after at least
      `j` and at most `j + 5000 * d` other pops, whatever is pushed meanwhile. */
  lemma {:induction false} EveryEventIsServed(v: Ring, ops: seq<Op>, j: nat, d: nat) returns (p: nat)
    requires WellFormed(v) && j < |v| && d < |v[j].items|
    requires Pops(ops) > j + d * 5000
    ensures j <= p <= j + d * 5000
    ensures p < |Run(v, ops).out| && Run(v, ops).out[p] == v[j].items[d]
    decreases |ops|
  {
    hide WellFormed, Step, Run, Emitted;
    FirstStep(v, ops);
    if ops[0].Pop? && j == 0 && d == 0 {
      p := 0;
    } else {
      var j', d' := StepMoves(v, ops[0], j, d);
      p := EveryEventIsServed(Step(v, ops[0]), ops[1..], j', d');
      p := p + |Emitted(v, ops[0])|;
    }
  }

  /** Round robin: the next `|v|` pops serve every waiting key once, in ring order, one event each. */
  lemma RoundRobin(v: Ring, ops: seq<Op>)
    requires WellFormed(v) && Pops(ops) >= |v|
    ensures |Run(v, ops).out| >= |v|
    ensures forall i :: 0 <= i < |v| ==> GoodLane(v[i]) && Run(v, ops).out[i] == v[i].items[0]
  {
    hide Run, Pops, Contents, DistinctKeys;
    var out := Run(v, ops).out;
    forall i | 0 <= i < |v|
      ensures i < |out| && GoodLane(v[i]) && out[i] == v[i].items[0]
    {
      assert GoodLane(v[i]);
      var p := EveryEventIsServed(v, ops, i, 0);
    }
    if v != [] {
      assert GoodLane(v[|v| - 1]);
    }
  }

  function OfKey(items: seq<Item>, k: QueueKey): seq<Item> {
    if items == [] then [] else (if KeyOf(items[0]) == k then [items[0]] else []) + OfKey(items[1..], k)
  }

  /** The item a step takes in for one key, if any. */
  function TakenIn(v: Ring, op: Op, k: QueueKey): seq<Item> {
    if op.Push? && KeyOf(op.item) == k && Accepts(v, op.item) then [op.item] else []
  }

  /** The items a run accepts for one key, in the order they arrive. */
  function AcceptedFor(v: Ring, ops: seq<Op>, k: QueueKey): seq<Item>
    requires WellFormed(v)
    decreases |ops|
  {
    if ops == [] then [] else TakenIn(v, ops[0], k) + AcceptedFor(Step(v, ops[0]), ops[1..], k)
  }

  lemma LaneAfter(w: Ring, i: nat, k: QueueKey)
    requires DistinctKeys(w)
    requires if i < |w| then w[i].key == k else forall j :: 0 <= j < |w| ==> w[j].key != k
    ensures LaneOf(w, k) == if i < |w| then w[i].items else []
  {
    if i < |w| {
      FindUnique(w, i);
    }
  }

  lemma PushFifo(v: Ring, item: Item, k: QueueKey)
    requires DistinctKeys(v)
    ensures LaneOf(v, k) + TakenIn(v, Push(item), k) == LaneOf(Pushed(v, item), k)
  {
    hide KeyOf, Contents;
    PushDistinct(v, item);
    var w := Pushed(v, item);
    var i := Find(v, k);
    LaneAfter(w, if i == |v| && KeyOf(item) != k then |w| else i, k);
  }

  lemma PopFifoHead(v: Ring)
    requires DistinctKeys(v) && v != [] && v[0].items != []
    requires DistinctKeys(Popped(v))
    ensures v[0].items == [v[0].items[0]] + LaneOf(Popped(v), v[0].key)
  {
    var w := Popped(v);
    assert forall j :: 0 <= j < |v| - 1 ==> w[j] == v[j + 1];
    LaneAfter(w, |v| - 1, v[0].key);
  }

  lemma PopFifoOther(v: Ring, k: QueueKey)
    requires DistinctKeys(v) && v != [] && v[0].items != [] && v[0].key != k
    requires DistinctKeys(Popped(v))
    ensures LaneOf(v, k) == LaneOf(Popped(v), k)
  {
    var w, i := Popped(v), Find(v, k);
    assert forall j :: 0 <= j < |v| - 1 ==> w[j] == v[j + 1];
    LaneAfter(w, if i < |v| then i - 1 else |w|, k);
  }

  lemma PopFifo(v: Ring, k: QueueKey)
    requires WellFormed(v) && v != []
    ensures GoodLane(v[0])
    ensures LaneOf(v, k) == (if v[0].key == k then [v[0].items[0]] else []) + LaneOf(Popped(v), k)
  {
    PopKeeps(v);
    assert DistinctKeys(v) && DistinctKeys(Popped(v)) && v[0].items != [];
    hide WellFormed, Popped, DistinctKeys, GoodLane, Contents;
    if v[0].key == k {
      PopFifoHead(v);
      FindUnique(v, 0);
    } else {
      PopFifoOther(v, k);
    }
  }

  lemma OfKeyOne(x: Item, k: QueueKey)
    ensures OfKey([x], k) == if KeyOf(x) == k then [x] else []
  {
    assert [x][1..] == [];
  }

  lemma FifoStep(v: Ring, op: Op, k: QueueKey)
    requires WellFormed(v)
    ensures LaneOf(v, k) + TakenIn(v, op, k) == OfKey(Emitted(v, op), k) + LaneOf(Step(v, op), k)
  {
    if v == [] && op.Pop? {
      assert LaneOf(v, k) == [];
    } else {
      hide WellFormed, LaneOf, OfKey, Pushed, Popped, KeyOf, Accepts;
      if op.Push? {
        PushFifo(v, op.item, k);
        OfKeyNone(k);
      } else {
        PopFifo(v, k);
        OfKeyOne(v[0].items[0], k);
        HeadIsOfKey(v);
      }
    }
  }

  lemma {:induction false} OfKeyNone(k: QueueKey)
    ensures OfKey([], k) == []
  {
  }

  lemma {:induction false} HeadIsOfKey(v: Ring)
    requires WellFormed(v) && v != []
    ensures v[0].items != [] && KeyOf(v[0].items[0]) == v[0].key
  {
    hide KeyOf, Contents;
    assert GoodLane(v[0]);
  }

  lemma {:induction false} OfKeySplit(a: seq<Item>, b: seq<Item>, k: QueueKey)
    ensures OfKey(a + b, k) == OfKey(a, k) + OfKey(b, k)
  {
    if a == [] {
      assert a + b == b && OfKey([], k) + OfKey(b, k) == OfKey(b, k);
    } else {
      hide OfKey, KeyOf;
      assert (a + b)[1..] == a[1..] + b;
      OfKeySplit(a[1..], b, k);
      OfKeyCons(a, k);
      OfKeyCons(a + b, k);
    }
  }

  lemma {:induction false} OfKeyCons(items: seq<Item>, k: QueueKey)
    requires items != []
    ensures OfKey(items, k) == (if KeyOf(items[0]) == k then [items[0]] else []) + OfKey(items[1..], k)
  {
    hide KeyOf;
  }

  lemma FifoJoin(l: seq<Item>, t: seq<Item>, a: seq<Item>, e: seq<Item>, m: seq<Item>, o: seq<Item>, f: seq<Item>)
    requires l + t == e + m && m + a == o + f
    ensures l + (t + a) == (e + o) + f
  {
    calc {
      l + (t + a);
      (l + t) + a;
      e + (m + a);
      (e + o) + f;
    }
  }

  /** First in, first out per key with nothing lost or invented: what a key held at the start
      followed by what was accepted for it is what left the queue followed by what it still holds. */
  lemma {:induction false} FifoPerKey(v: Ring, ops: seq<Op>, k: QueueKey)
    requires WellFormed(v)
    ensures LaneOf(v, k) + AcceptedFor(v, ops, k) == OfKey(Run(v, ops).out, k) + LaneOf(Run(v, ops).final, k)
    decreases |ops|
  {
    if ops != [] {
      var w := Step(v, ops[0]);
      FifoPerKey(w, ops[1..], k);
      FifoStep(v, ops[0], k);
      OfKeySplit(Emitted(v, ops[0]), Run(w, ops[1..]).out, k);
      FifoJoin(LaneOf(v, k), TakenIn(v, ops[0], k), AcceptedFor(w, ops[1..], k), OfKey(Emitted(v, ops[0]), k),
               LaneOf(w, k), OfKey(Run(w, ops[1..]).out, k), LaneOf(Run(w, ops[1..]).final, k));
    }
  }

  /** A push to an empty queue is never refused. */
  lemma EmptyAcceptsAll(item: Item)
    ensures Accepts([], item) && Pushed([], item) == [Lane(KeyOf(item), [item])]
  {
    assert [] + [Lane(KeyOf(item), [item])] == [Lane(KeyOf(item), [item])];
  }

  // ---------------------------------------------------------------- the queue as stored

  datatype Store = Store(contracts: map<ContractInstanceId, seq<Item>>, def: seq<Item>, ring: seq<QueueKey>, total: nat)

  function Stored(st: Store, k: QueueKey): seq<Item> {
    match k
    case Contract(c) => if c in st.contracts then st.contracts[c] else []
    case Default => st.def
  }

  /** The ring a store stands for. */
  function ViewOf(st: Store): (v: Ring)
    ensures |v| == |st.ring|
    ensures forall i :: 0 <= i < |v| ==> v[i] == Lane(st.ring[i], Stored(st, st.ring[i]))
  {
    seq(|st.ring|, i requires 0 <= i < |st.ring| => Lane(st.ring[i], Stored(st, st.ring[i])))
  }

  /** The ring is well formed, every stored queue is in it, and the running total is right. */
  ghost predicate ValidStore(st: Store) {
    WellFormed(ViewOf(st)) && KeysInRing(st) && st.total == |Contents(ViewOf(st))|
  }

  predicate KeysInRing(st: Store) {
    (forall c <- st.contracts :: Contract(c) in st.ring) && (st.def != [] ==> Default in st.ring)
  }

  lemma StoredIsLane(st: Store, k: QueueKey)
    requires ValidStore(st)
    ensures LaneOf(ViewOf(st), k) == Stored(st, k)
    ensures Find(ViewOf(st), k) < |st.ring| <==> Stored(st, k) != []
  {
    var v := ViewOf(st);
    var i := Find(v, k);
    if i < |v| {
      assert GoodLane(v[i]);
    } else {
      assert forall j :: 0 <= j < |st.ring| ==> v[j].key == st.ring[j];
    }
  }

  /** Put `queue` in the place where `k` is stored. */
  function WithQueue(st: Store, k: QueueKey, queue: seq<Item>): Store {
    match k
    case Contract(c) => st.(contracts := if queue == [] then st.contracts - {c} else st.contracts[c := queue])
    case Default => st.(def := queue)
  }

  /** What `try_push` stores when it accepts. */
  function StoredPush(st: Store, item: Item): Store {
    var k := KeyOf(item);
    var queue := Stored(st, k);
    WithQueue(st, k, queue + [item]).(ring := if queue == [] then st.ring + [k] else st.ring, total := st.total + 1)
  }

  /** What `pop` stores when the first key in the ring has an item. */
  function StoredPop(st: Store): Store
    requires st.ring != [] && Stored(st, st.ring[0]) != []
  {
    var k := st.ring[0];
    var queue := Stored(st, k);
    WithQueue(st, k, queue[1..])
      .(ring := if |queue| == 1 then st.ring[1..] else st.ring[1..] + [k], total := if st.total > 0 then st.total - 1 else 0)
  }

  /** Leading keys without an item are dropped, with whatever is stored for them. */
  function Skipped(st: Store): (r: Store)
    ensures r.ring == [] || Stored(r, r.ring[0]) != []
    decreases |st.ring|
  {
    if st.ring == [] || Stored(st, st.ring[0]) != [] then st
    else Skipped(WithQueue(st, st.ring[0], []).(ring := st.ring[1..]))
  }

  lemma StoredAfter(st: Store, k: QueueKey, queue: seq<Item>, q: QueueKey, ring: seq<QueueKey>, total: nat)
    ensures Stored(WithQueue(st, k, queue).(ring := ring, total := total), q) == if q == k then queue else Stored(st, q)
  {
  }

  lemma PushView(st: Store, item: Item)
    requires Accepts(ViewOf(st), item) && DistinctKeys(ViewOf(st))
    requires LaneOf(ViewOf(st), KeyOf(item)) == Stored(st, KeyOf(item))
    requires Find(ViewOf(st), KeyOf(item)) < |st.ring| <==> Stored(st, KeyOf(item)) != []
    ensures ViewOf(StoredPush(st, item)) == Pushed(ViewOf(st), item)
  {
    var v, k, after := ViewOf(st), KeyOf(item), StoredPush(st, item);
    var i := Find(v, k);
    forall j | 0 <= j < |after.ring| ensures ViewOf(after)[j] == Pushed(v, item)[j] {
      StoredAfter(st, k, Stored(st, k) + [item], after.ring[j], after.ring, after.total);
      if j < |v| && j != i {
        assert v[j].key != k;
      }
    }
  }

  predicate HasRoom(st: Store, item: Item) {
    st.total < MAX_TOTAL_FAIR_QUEUE && |Stored(st, KeyOf(item))| < MAX_QUEUED_PER_CONTRACT
  }

  lemma PushKeysInRing(st: Store, item: Item)
    requires KeysInRing(st) && (Stored(st, KeyOf(item)) != [] ==> KeyOf(item) in st.ring)
    ensures KeysInRing(StoredPush(st, item))
  {
  }

  lemma PushRefines(st: Store, item: Item)
    requires ValidStore(st)
    ensures HasRoom(st, item) <==> Accepts(ViewOf(st), item)
    ensures HasRoom(st, item) ==> ViewOf(StoredPush(st, item)) == Pushed(ViewOf(st), item)
    ensures HasRoom(st, item) ==> ValidStore(StoredPush(st, item))
  {
    StoredIsLane(st, KeyOf(item));
    if HasRoom(st, item) {
      PushView(st, item);
      PushKeeps(ViewOf(st), item);
      PushKeysInRing(st, item);
    }
  }

  lemma PopView(st: Store)
    requires st.ring != [] && Stored(st, st.ring[0]) != [] && st.total > 0
    requires DistinctKeys(ViewOf(st))
    ensures ViewOf(StoredPop(st)) == Popped(ViewOf(st))
  {
    var v, k, after := ViewOf(st), st.ring[0], StoredPop(st);
    forall j | 0 <= j < |after.ring| ensures ViewOf(after)[j] == Popped(v)[j] {
      StoredAfter(st, k, Stored(st, k)[1..], after.ring[j], after.ring, after.total);
      if j + 1 < |v| {
        assert v[j + 1].key != v[0].key;
      }
    }
  }

  lemma PopKeysInRing(st: Store)
    requires st.ring != [] && Stored(st, st.ring[0]) != [] && st.total > 0
    requires KeysInRing(st)
    ensures KeysInRing(StoredPop(st))
  {
    var after := StoredPop(st);
    forall q | q in st.ring && q != st.ring[0] ensures q in after.ring {
      var j :| 0 < j < |st.ring| && st.ring[j] == q;
      assert after.ring[j - 1] == q;
    }
    assert |Stored(st, st.ring[0])| > 1 ==> after.ring[|after.ring| - 1] == st.ring[0];
  }

  lemma PopRefines(st: Store)
    requires ValidStore(st) && st.ring != []
    ensures Stored(st, st.ring[0]) != [] && st.total > 0
    ensures GoodLane(ViewOf(st)[0]) && ViewOf(StoredPop(st)) == Popped(ViewOf(st)) && ValidStore(StoredPop(st))
  {
    PopKeeps(ViewOf(st));
    PopView(st);
    PopKeysInRing(st);
  }

  class FairEventQueue {
    var contractQueues: map<ContractInstanceId, seq<Item>>
    var defaultQueue: seq<Item>
    var roundRobin: seq<QueueKey>
    var totalQueued: nat

    ghost function Fields(): Store
      reads this
    {
      Store(contractQueues, defaultQueue, roundRobin, totalQueued)
    }

    ghost function View(): Ring
      reads this
    {
      ViewOf(Fields())
    }

    ghost predicate Valid()
      reads this
    {
      ValidStore(Fields())
    }

    constructor ()
      ensures Valid() && View() == []
    {
      contractQueues, defaultQueue, roundRobin, totalQueued := map[], [], [], 0;
    }

    method TryPush(item: Item) returns (rejected: Option<Item>)
      requires Valid()
      modifies this
      ensures Valid() && View() == Pushed(old(View()), item)
      ensures rejected == if Accepts(old(View()), item) then None else Some(item)
    {
      rejected := StorePush(item);
      PushRefines(old(Fields()), item);
    }

    method StorePush(item: Item) returns (rejected: Option<Item>)
      modifies this
      ensures Fields() == if HasRoom(old(Fields()), item) then StoredPush(old(Fields()), item) else old(Fields())
      ensures rejected == if HasRoom(old(Fields()), item) then None else Some(item)
    {
      if totalQueued >= MAX_TOTAL_FAIR_QUEUE {
        return Some(item);
      }
      match ExtractContractId(item.event)
      case Some(contractId) =>
        var queue := if contractId in contractQueues then contractQueues[contractId] else [];
        if |queue| >= MAX_QUEUED_PER_CONTRACT {
          return Some(item);
        }
        if queue == [] {
          roundRobin := roundRobin + [Contract(contractId)];
        }
        contractQueues := contractQueues[contractId := queue + [item]];
        totalQueued := totalQueued + 1;
        return None;
      case None =>
        if |defaultQueue| >= MAX_QUEUED_PER_CONTRACT {
          return Some(item);
        }
        if defaultQueue == [] {
          roundRobin := roundRobin + [Default];
        }
        defaultQueue := defaultQueue + [item];
        totalQueued := totalQueued + 1;
        return None;
    }

    /** On a valid queue the first key of the ring always has an item: nothing is skipped, and
        `None` means empty. */
    method Pop() returns (popped: Option<Item>)
      requires Valid()
      modifies this
      ensures Valid()
      ensures old(View()) == [] ==> popped == None && View() == []
      ensures old(View()) != [] ==>
                && GoodLane(old(View())[0])
                && popped == Some(old(View())[0].items[0])
                && View() == Popped(old(View()))
    {
      if roundRobin != [] {
        PopRefines(Fields());
      }
      popped := StorePop();
    }

    /** The loop of `pop`, for every stored state: keys whose queue is missing or empty are skipped. */
    method StorePop() returns (popped: Option<Item>)
      modifies this
      ensures var st := Skipped(old(Fields()));
              if st.ring == [] then popped == None && Fields() == st
              else popped == Some(Stored(st, st.ring[0])[0]) && Fields() == StoredPop(st)
    {
      while roundRobin != []
        invariant Skipped(Fields()) == Skipped(old(Fields()))
        decreases |roundRobin|
      {
        var key := roundRobin[0];
        ghost var before := Fields();
        roundRobin := roundRobin[1..];
        match key {
          case Contract(contractId) =>
            if contractId in contractQueues {
              var queue := contractQueues[contractId];
              if queue != [] {
                totalQueued := if totalQueued > 0 then totalQueued - 1 else 0;
                if |queue| == 1 {
                  contractQueues := contractQueues - {contractId};
                } else {
                  contractQueues := contractQueues[contractId := queue[1..]];
                  roundRobin := roundRobin + [key];
                }
                return Some(queue[0]);
              }
              contractQueues := contractQueues - {contractId};
            }
          case Default =>
            if defaultQueue != [] {
              var item := defaultQueue[0];
              defaultQueue := defaultQueue[1..];
              totalQueued := if totalQueued > 0 then totalQueued - 1 else 0;
              if defaultQueue != [] {
                roundRobin := roundRobin + [Default];
              }
              return Some(item);
            }
        }
        assert Fields() == WithQueue(before, key, []).(ring := roundRobin);
      }
      return None;
    }
  }
}
