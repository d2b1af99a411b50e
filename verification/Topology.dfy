/** The network monitor's peer table: adjacency lists, histories and location histories updated in
    place by connection events. The adjacency lists refine a plain set of undirected edges. */
module Topology {
  import opened Messages

  type PeerId = string
  type Location = real
  type Time = nat

  datatype Connection = Connection(transaction: Option<string>, id: PeerId, location: Location)
  datatype ChangeKind = Added | Removed
  datatype ChangeInfo = ChangeInfo(kind: ChangeKind, from: Connection, to: Connection, timestamp: Time)
  datatype Move = Move(location: Location, timestamp: Time)

  datatype Peer = Peer(id: PeerId, currentLocation: Location, since: Time, connections: seq<Connection>,
                       history: seq<ChangeInfo>, locationHistory: seq<Move>)

  type Peers = map<PeerId, Peer>

  /** A transaction as it comes off the wire: absent, a string, or bytes that decode to a string. */
  datatype RawTransaction = Absent | Text(text: string) | Bytes(decoded: string)

  datatype AddedConnection = AddedConnection(transaction: RawTransaction, from: PeerId, fromLocation: Location,
                                             to: PeerId, toLocation: Location)

  datatype Change = AddedChange(added: AddedConnection) | RemovedChange(from: PeerId, at: PeerId) | OtherChange
  datatype PeerChange = PeerChange(change: Change, currentState: seq<AddedConnection>)

  /** The empty string is falsy, an empty byte array is not. */
  predicate HasTransaction(t: RawTransaction) {
    match t
    case Absent => false
    case Text(s) => s != ""
    case Bytes(_) => true
  }

  function Decoded(t: RawTransaction): Option<string> {
    match t
    case Absent => None
    case Text(s) => Some(s)
    case Bytes(s) => Some(s)
  }

  // ---------------------------------------------------------------- one event on the table

  predicate Knows(conns: seq<Connection>, id: PeerId) {
    exists c <- conns :: c.id == id
  }

  /** A peer that reports a location and a connection to `other`. */
  function Reported(peers: Peers, me: PeerId, location: Location, other: Connection, now: Time): Peer {
    if me in peers then
      var p := peers[me];
      var p1 := if p.currentLocation == location then p
                else p.(locationHistory := p.locationHistory + [Move(p.currentLocation, now)], currentLocation := location);
      if Knows(p1.connections, other.id) then p1 else p1.(connections := p1.connections + [other])
    else Peer(me, location, now, [other], [], [])
  }

  predicate SameChange(item: ChangeInfo, info: ChangeInfo) {
    && item.from.transaction == info.from.transaction
    && ((item.from.id == info.from.id && item.to.id == info.to.id) || (item.from.id == info.to.id && item.to.id == info.from.id))
  }

  predicate IsPresent(history: seq<ChangeInfo>, info: ChangeInfo) {
    exists item <- history :: SameChange(item, info)
  }

  function Record(peers: Peers, id: PeerId, info: ChangeInfo): Peers
    requires id in peers
  {
    peers[id := peers[id].(history := peers[id].history + [info])]
  }

  function InfoOf(a: AddedConnection, now: Time): ChangeInfo {
    var t := Decoded(a.transaction);
    ChangeInfo(Added, Connection(t, a.from, a.fromLocation), Connection(t, a.to, a.toLocation), now)
  }

  /** Both ends report; what comes before the history is written. */
  function BothReport(peers: Peers, a: AddedConnection, now: Time): Peers {
    var info := InfoOf(a, now);
    var p1 := peers[a.from := Reported(peers, a.from, a.fromLocation, info.to, now)];
    p1[a.to := Reported(p1, a.to, a.toLocation, info.from, now)]
  }

  function AddConnection(peers: Peers, a: AddedConnection, now: Time): Peers {
    var info, p2 := InfoOf(a, now), BothReport(peers, a, now);
    if IsPresent(p2[a.from].history, info) then p2 else Record(Record(p2, a.from, info), a.to, info)
  }

  function WithoutFirst(conns: seq<Connection>, id: PeerId): seq<Connection> {
    if conns == [] then [] else if conns[0].id == id then conns[1..] else [conns[0]] + WithoutFirst(conns[1..], id)
  }

  function Disconnect(peers: Peers, me: PeerId, other: PeerId): Peers
    requires me in peers
  {
    peers[me := peers[me].(connections := WithoutFirst(peers[me].connections, other))]
  }

  /** The table after a removal, and whether it threw on an unknown peer. */
  function RemoveConnection(peers: Peers, from: PeerId, at: PeerId, now: Time): (Peers, bool) {
    if from !in peers then (peers, true) else
    var p1 := Disconnect(peers, from, at);
    if at !in p1 then (p1, true) else
    var p2 := Disconnect(p1, at, from);
    var info := ChangeInfo(Removed, Connection(None, from, p2[from].currentLocation), Connection(None, at, p2[at].currentLocation), now);
    (Record(Record(p2, from, info), at, info), false)
  }

  // ---------------------------------------------------------------- sequences of events

  datatype Op = Add(added: AddedConnection, now: Time) | Remove(from: PeerId, at: PeerId, now: Time)

  function Apply(peers: Peers, op: Op): Peers {
    match op
    case Add(a, now) => AddConnection(peers, a, now)
    case Remove(from, at, now) => RemoveConnection(peers, from, at, now).0
  }

  function ApplyAll(peers: Peers, ops: seq<Op>): Peers {
    if ops == [] then peers else Apply(ApplyAll(peers, ops[..|ops| - 1]), ops[|ops| - 1])
  }

  function Adds(items: seq<AddedConnection>, now: Time): seq<Op> {
    seq(|items|, i requires 0 <= i < |items| => Add(items[i], now))
  }

  /** The operations one message amounts to: an added connection without a transaction is skipped, and
      a removal that throws takes the current-state list down with it. */
  function ChangeOps(known: set<PeerId>, c: PeerChange, now: Time): seq<Op> {
    match c.change
    case AddedChange(a) => (if HasTransaction(a.transaction) then [Add(a, now)] else []) + Adds(c.currentState, now)
    case RemovedChange(from, at) =>
      if from in known && at in known then [Remove(from, at, now)] + Adds(c.currentState, now) else [Remove(from, at, now)]
    case OtherChange => Adds(c.currentState, now)
  }

  // ---------------------------------------------------------------- the edge set

  type Edge = set<PeerId>
  datatype Graph = Graph(peers: set<PeerId>, edges: set<Edge>)

  function Between(a: PeerId, b: PeerId): Edge {
    {a, b}
  }

  function GraphApply(g: Graph, op: Op): Graph {
    match op
    case Add(a, _) => Graph(g.peers + {a.from, a.to}, g.edges + {Between(a.from, a.to)})
    case Remove(from, at, _) => g.(edges := g.edges - {Between(from, at)})
  }

  function GraphApplyAll(g: Graph, ops: seq<Op>): Graph {
    if ops == [] then g else GraphApply(GraphApplyAll(g, ops[..|ops| - 1]), ops[|ops| - 1])
  }

  predicate NoRepeats(conns: seq<Connection>) {
    forall i, j :: 0 <= i < j < |conns| ==> conns[i].id != conns[j].id
  }

  function ConnsOf(peers: Peers, a: PeerId): seq<Connection> {
    if a in peers then peers[a].connections else []
  }

  /** The adjacency lists are duplicate-free and list exactly the edges, all between known peers. */
  ghost predicate Lists(peers: Peers, g: Graph) {
    && peers.Keys == g.peers
    && (forall a :: NoRepeats(ConnsOf(peers, a)))
    && (forall a, b :: Knows(ConnsOf(peers, a), b) <==> Between(a, b) in g.edges)
    && (forall a, b :: Between(a, b) in g.edges ==> a in g.peers && b in g.peers)
  }

  lemma BetweenIs(a: PeerId, b: PeerId, c: PeerId, d: PeerId)
    ensures Between(a, b) == Between(c, d) <==> (a == c && b == d) || (a == d && b == c)
  {
    if Between(a, b) == Between(c, d) {
      assert a in Between(c, d) && b in Between(c, d) && c in Between(a, b) && d in Between(a, b);
    }
  }

  lemma ReportedConns(peers: Peers, me: PeerId, location: Location, other: Connection, now: Time, b: PeerId)
    requires NoRepeats(ConnsOf(peers, me))
    ensures NoRepeats(Reported(peers, me, location, other, now).connections)
    ensures Knows(Reported(peers, me, location, other, now).connections, b) <==> Knows(ConnsOf(peers, me), b) || b == other.id
  {
    var before, after := ConnsOf(peers, me), Reported(peers, me, location, other, now).connections;
    if after == before + [other] {
      assert forall c :: c in after <==> c in before || c == other;
      assert other in after;
      assert forall i :: 0 <= i < |before| ==> before[i] in before;
    } else if after == [other] {
      assert other in after;
    }
  }

  /** After both ends have reported, the two are connected and nothing else has changed. */
  lemma BothReportConns(peers: Peers, a: AddedConnection, now: Time, q: PeerId, b: PeerId)
    requires NoRepeats(ConnsOf(peers, q))
    ensures NoRepeats(ConnsOf(BothReport(peers, a, now), q))
    ensures Knows(ConnsOf(BothReport(peers, a, now), q), b) <==>
              Knows(ConnsOf(peers, q), b) || (q == a.from && b == a.to) || (q == a.to && b == a.from)
  {
    hide Reported, NoRepeats, Knows;
    var info := InfoOf(a, now);
    var p1 := peers[a.from := Reported(peers, a.from, a.fromLocation, info.to, now)];
    if q == a.from {
      ReportedConns(peers, q, a.fromLocation, info.to, now, b);
    }
    if q == a.to {
      ReportedConns(p1, q, a.toLocation, info.from, now, b);
    }
  }

  lemma HistoryLeavesConns(peers: Peers, a: AddedConnection, now: Time)
    ensures AddConnection(peers, a, now).Keys == peers.Keys + {a.from, a.to}
    ensures forall q :: ConnsOf(AddConnection(peers, a, now), q) == ConnsOf(BothReport(peers, a, now), q)
  {
    hide Reported, IsPresent;
  }

  lemma AddLists(peers: Peers, g: Graph, a: AddedConnection, now: Time)
    requires Lists(peers, g)
    ensures Lists(AddConnection(peers, a, now), GraphApply(g, Add(a, now)))
  {
    hide NoRepeats, Knows, AddConnection, BothReport, Between;
    var w, h := AddConnection(peers, a, now), GraphApply(g, Add(a, now));
    HistoryLeavesConns(peers, a, now);
    forall q ensures NoRepeats(ConnsOf(w, q)) {
      BothReportConns(peers, a, now, q, q);
    }
    forall q, b
      ensures Knows(ConnsOf(w, q), b) <==> Between(q, b) in h.edges
      ensures Between(q, b) in h.edges ==> q in h.peers && b in h.peers
    {
      BothReportConns(peers, a, now, q, b);
      BetweenIs(q, b, a.from, a.to);
    }
  }

  lemma {:induction false} WithoutFirstConns(conns: seq<Connection>, id: PeerId)
    requires NoRepeats(conns)
    ensures NoRepeats(WithoutFirst(conns, id))
    ensures forall c :: c in WithoutFirst(conns, id) <==> c in conns && c.id != id
  {
    hide NoRepeats;
    if conns != [] {
      var first, rest := conns[0], conns[1..];
      assert conns == [first] + rest;
      NoRepeatsCons(first, rest);
      if first.id != id {
        WithoutFirstConns(rest, id);
        var left := WithoutFirst(rest, id);
        forall i | 0 <= i < |left| ensures left[i].id != first.id {
          assert left[i] in left;
        }
        NoRepeatsCons(first, left);
      }
    }
  }

  lemma {:induction false} NoRepeatsCons(first: Connection, rest: seq<Connection>)
    ensures NoRepeats([first] + rest) <==> NoRepeats(rest) && forall i :: 0 <= i < |rest| ==> rest[i].id != first.id
  {
    var conns := [first] + rest;
    if NoRepeats(conns) {
      forall i | 0 <= i < |rest| ensures rest[i].id != first.id {
        assert conns[0] == first && conns[i + 1] == rest[i];
      }
      forall i, j | 0 <= i < j < |rest| ensures rest[i].id != rest[j].id {
        assert conns[i + 1] == rest[i] && conns[j + 1] == rest[j];
      }
    }
    if NoRepeats(rest) && forall i :: 0 <= i < |rest| ==> rest[i].id != first.id {
      forall i, j | 0 <= i < j < |conns| ensures conns[i].id != conns[j].id {
        assert conns[j] == rest[j - 1] && conns[i] == if i == 0 then first else rest[i - 1];
      }
    }
  }

  lemma DisconnectConns(peers: Peers, me: PeerId, other: PeerId, q: PeerId, b: PeerId)
    requires me in peers && NoRepeats(ConnsOf(peers, q))
    ensures NoRepeats(ConnsOf(Disconnect(peers, me, other), q))
    ensures Knows(ConnsOf(Disconnect(peers, me, other), q), b) <==> Knows(ConnsOf(peers, q), b) && !(q == me && b == other)
  {
    if q == me {
      WithoutFirstConns(peers[me].connections, other);
    }
  }

  lemma RemoveConns(peers: Peers, from: PeerId, at: PeerId, now: Time, q: PeerId, b: PeerId)
    requires NoRepeats(ConnsOf(peers, q))
    ensures NoRepeats(ConnsOf(RemoveConnection(peers, from, at, now).0, q))
    ensures Knows(ConnsOf(RemoveConnection(peers, from, at, now).0, q), b) <==>
              Knows(ConnsOf(peers, q), b) && !(from in peers && q == from && b == at)
              && !(from in peers && at in peers && q == at && b == from)
  {
    hide WithoutFirst, NoRepeats, Knows;
    if from in peers {
      DisconnectConns(peers, from, at, q, b);
      if at in peers {
        DisconnectConns(Disconnect(peers, from, at), at, from, q, b);
      }
    }
  }

  lemma RemoveLists(peers: Peers, g: Graph, from: PeerId, at: PeerId, now: Time)
    requires Lists(peers, g)
    ensures Lists(RemoveConnection(peers, from, at, now).0, GraphApply(g, Remove(from, at, now)))
    ensures RemoveConnection(peers, from, at, now).1 <==> from !in g.peers || at !in g.peers
  {
    hide NoRepeats, Knows, Between, WithoutFirst;
    var w, h := RemoveConnection(peers, from, at, now).0, GraphApply(g, Remove(from, at, now));
    forall q ensures NoRepeats(ConnsOf(w, q)) {
      RemoveConns(peers, from, at, now, q, q);
    }
    forall q, b
      ensures Knows(ConnsOf(w, q), b) <==> Between(q, b) in h.edges
      ensures Between(q, b) in h.edges ==> q in h.peers && b in h.peers
    {
      RemoveConns(peers, from, at, now, q, b);
      BetweenIs(q, b, from, at);
    }
  }

  /** After any sequence of events, with removals of unknown peers that throw part way among them, the
      adjacency lists are duplicate-free, symmetric and closed over the known peers, and hold
      exactly the edges got by replaying the events as set insertions and deletions. */
  lemma {:induction false} ListsRefineEdges(peers: Peers, g: Graph, ops: seq<Op>)
    requires Lists(peers, g)
    ensures Lists(ApplyAll(peers, ops), GraphApplyAll(g, ops))
  {
    hide Lists, AddConnection, RemoveConnection, GraphApply;
    if ops != [] {
      var before, last := ops[..|ops| - 1], ops[|ops| - 1];
      ListsRefineEdges(peers, g, before);
      var p, h := ApplyAll(peers, before), GraphApplyAll(g, before);
      match last
      case Add(a, now) => AddLists(p, h, a, now);
      case Remove(from, at, now) => RemoveLists(p, h, from, at, now);
    }
  }

  lemma ListsAreSymmetric(peers: Peers, g: Graph, a: PeerId, b: PeerId)
    requires Lists(peers, g)
    ensures Knows(ConnsOf(peers, a), b) <==> Knows(ConnsOf(peers, b), a)
    ensures Knows(ConnsOf(peers, a), b) ==> a in peers && b in peers
  {
    hide Knows, NoRepeats;
    BetweenIs(a, b, b, a);
  }

  // ---------------------------------------------------------------- histories

  function HistoryOf(peers: Peers, a: PeerId): seq<ChangeInfo> {
    if a in peers then peers[a].history else []
  }

  predicate IsAbout(e: ChangeInfo, a: PeerId, b: PeerId) {
    Between(e.from.id, e.to.id) == Between(a, b)
  }

  /** The entries about one pair of peers, in order. */
  function About(history: seq<ChangeInfo>, a: PeerId, b: PeerId): (r: seq<ChangeInfo>)
    ensures forall e :: e in r <==> e in history && IsAbout(e, a, b)
  {
    if history == [] then [] else
    var last := history[|history| - 1];
    About(history[..|history| - 1], a, b) + (if IsAbout(last, a, b) then [last] else [])
  }

  lemma AboutSnoc(history: seq<ChangeInfo>, e: ChangeInfo, a: PeerId, b: PeerId)
    ensures About(history + [e], a, b) == About(history, a, b) + (if IsAbout(e, a, b) then [e] else [])
  {
    assert (history + [e])[..|history|] == history;
  }

  /** No two Added entries with the same transaction. */
  predicate AddedOnce(entries: seq<ChangeInfo>) {
    forall i, j :: 0 <= i < j < |entries| && entries[i].kind == Added && entries[j].kind == Added ==>
                     entries[i].from.transaction != entries[j].from.transaction
  }

  ghost predicate Paired(peers: Peers) {
    forall a, b :: a != b ==> About(HistoryOf(peers, a), a, b) == About(HistoryOf(peers, b), a, b)
  }

  ghost predicate Unrepeated(peers: Peers) {
    forall a, b :: a != b ==> AddedOnce(About(HistoryOf(peers, a), a, b))
  }

  /** `after` is `before` with `info` entered in the history of both its ends. */
  ghost predicate Entered(before: Peers, after: Peers, info: ChangeInfo) {
    forall q :: HistoryOf(after, q) == (if q == info.from.id then HistoryOf(before, q) + [info] else HistoryOf(before, q))
                                       + (if q == info.to.id then [info] else [])
  }

  ghost predicate SameHistories(before: Peers, after: Peers) {
    forall q :: HistoryOf(after, q) == HistoryOf(before, q)
  }

  lemma AddHistory(peers: Peers, a: AddedConnection, now: Time)
    ensures var info, w := InfoOf(a, now), AddConnection(peers, a, now);
            if IsPresent(HistoryOf(peers, a.from), info) then SameHistories(peers, w) else Entered(peers, w, info)
  {
    hide IsPresent, Knows;
    var p2 := BothReport(peers, a, now);
    assert SameHistories(peers, p2);
  }

  lemma RemoveHistory(peers: Peers, from: PeerId, at: PeerId, now: Time)
    ensures var (w, threw) := RemoveConnection(peers, from, at, now);
            if threw then SameHistories(peers, w)
            else from in peers && at in peers
                 && Entered(peers, w, ChangeInfo(Removed, Connection(None, from, peers[from].currentLocation),
                                                 Connection(None, at, peers[at].currentLocation), now))
  {
    hide WithoutFirst;
  }

  lemma AboutAfter(before: Peers, after: Peers, info: ChangeInfo, a: PeerId, b: PeerId)
    requires Entered(before, after, info) && a != b
    ensures About(HistoryOf(after, a), a, b) == About(HistoryOf(before, a), a, b) + (if IsAbout(info, a, b) then [info] else [])
    ensures About(HistoryOf(after, b), a, b) == About(HistoryOf(before, b), a, b) + (if IsAbout(info, a, b) then [info] else [])
  {
    hide About;
    BetweenIs(info.from.id, info.to.id, a, b);
    AboutAfterAt(before, after, info, a, b, a);
    AboutAfterAt(before, after, info, a, b, b);
  }

  lemma AboutAfterAt(before: Peers, after: Peers, info: ChangeInfo, a: PeerId, b: PeerId, q: PeerId)
    requires Entered(before, after, info) && a != b && (q == a || q == b)
    ensures About(HistoryOf(after, q), a, b) == About(HistoryOf(before, q), a, b) + (if IsAbout(info, a, b) then [info] else [])
  {
    hide About;
    BetweenIs(info.from.id, info.to.id, a, b);
    var h := HistoryOf(before, q);
    AboutSnoc(h, info, a, b);
    AboutSnoc(h + [info], info, a, b);
    assert h + [] == h && h + [info] + [] == h + [info];
    assert HistoryOf(after, q) == (if q == info.from.id then h + [info] else h) + (if q == info.to.id then [info] else []);
  }

  lemma PairedKept(before: Peers, after: Peers, info: ChangeInfo)
    requires Paired(before) && Entered(before, after, info)
    ensures Paired(after)
  {
    hide About, HistoryOf;
    forall a, b | a != b ensures About(HistoryOf(after, a), a, b) == About(HistoryOf(after, b), a, b) {
      AboutAfter(before, after, info, a, b);
    }
  }

  /** A change is in one end's history exactly when it is in the other's, so looking at one end is enough. */
  lemma PresentOnBothSides(peers: Peers, info: ChangeInfo)
    requires Paired(peers) && info.from.id != info.to.id
    ensures IsPresent(HistoryOf(peers, info.from.id), info) <==> IsPresent(HistoryOf(peers, info.to.id), info)
  {
    hide HistoryOf;
    var a, b := info.from.id, info.to.id;
    PresentIsAbout(HistoryOf(peers, a), info);
    PresentIsAbout(HistoryOf(peers, b), info);
  }

  lemma PresentIsAbout(history: seq<ChangeInfo>, info: ChangeInfo)
    ensures IsPresent(history, info) <==>
              exists e <- About(history, info.from.id, info.to.id) :: e.from.transaction == info.from.transaction
  {
    forall e | e in history ensures SameChange(e, info) <==>
                IsAbout(e, info.from.id, info.to.id) && e.from.transaction == info.from.transaction
    {
      BetweenIs(e.from.id, e.to.id, info.from.id, info.to.id);
    }
    if IsPresent(history, info) {
      var e :| e in history && SameChange(e, info);
      assert e in About(history, info.from.id, info.to.id);
    }
  }

  lemma UnrepeatedKept(before: Peers, after: Peers, info: ChangeInfo)
    requires Paired(before) && Unrepeated(before) && Entered(before, after, info)
    requires info.kind == Added ==> !IsPresent(HistoryOf(before, info.from.id), info)
    ensures Unrepeated(after)
  {
    hide About, HistoryOf;
    forall a, b | a != b ensures AddedOnce(About(HistoryOf(after, a), a, b)) {
      AboutAfter(before, after, info, a, b);
      if IsAbout(info, a, b) && info.kind == Added {
        BetweenIs(info.from.id, info.to.id, a, b);
        PresentOnBothSides(before, info);
        PresentIsAbout(HistoryOf(before, a), info);
        var old_ := About(HistoryOf(before, a), a, b);
        AboutEitherWay(HistoryOf(before, a), a, b, info.from.id, info.to.id);
        assert forall e <- old_ :: e.from.transaction != info.from.transaction;
      }
    }
  }

  lemma {:induction false} AboutEitherWay(history: seq<ChangeInfo>, a: PeerId, b: PeerId, c: PeerId, d: PeerId)
    requires Between(a, b) == Between(c, d)
    ensures About(history, a, b) == About(history, c, d)
  {
    if history != [] {
      AboutEitherWay(history[..|history| - 1], a, b, c, d);
    }
  }

  lemma SameHistoriesKeep(before: Peers, after: Peers)
    requires Paired(before) && Unrepeated(before) && SameHistories(before, after)
    ensures Paired(after) && Unrepeated(after)
  {
    hide About, HistoryOf, AddedOnce;
  }

  /** After any sequence of events, for any two peers: the entries about the pair are the same
      sequence in both histories, with at most one Added entry per transaction. */
  lemma {:induction false} HistoriesAgree(peers: Peers, ops: seq<Op>)
    requires Paired(peers) && Unrepeated(peers)
    ensures Paired(ApplyAll(peers, ops)) && Unrepeated(ApplyAll(peers, ops))
  {
    hide Paired, Unrepeated, AddConnection, RemoveConnection, IsPresent;
    if ops != [] {
      var before, last := ops[..|ops| - 1], ops[|ops| - 1];
      HistoriesAgree(peers, before);
      var p, w := ApplyAll(peers, before), ApplyAll(peers, ops);
      match last
      case Add(a, now) =>
        AddHistory(p, a, now);
        if IsPresent(HistoryOf(p, a.from), InfoOf(a, now)) {
          SameHistoriesKeep(p, w);
        } else {
          PairedKept(p, w, InfoOf(a, now));
          UnrepeatedKept(p, w, InfoOf(a, now));
        }
      case Remove(from, at, now) =>
        RemoveHistory(p, from, at, now);
        if RemoveConnection(p, from, at, now).1 {
          SameHistoriesKeep(p, w);
        } else {
          var info := ChangeInfo(Removed, Connection(None, from, p[from].currentLocation), Connection(None, at, p[at].currentLocation), now);
          PairedKept(p, w, info);
          UnrepeatedKept(p, w, info);
        }
    }
  }

  // ---------------------------------------------------------------- locations

  /** Where a peer has been, up to now. */
  function Trail(peers: Peers, q: PeerId): seq<Location> {
    if q in peers then Places(peers[q].locationHistory) + [peers[q].currentLocation] else []
  }

  function Places(moves: seq<Move>): seq<Location> {
    if moves == [] then [] else Places(moves[..|moves| - 1]) + [moves[|moves| - 1].location]
  }

  function Visit(trail: seq<Location>, place: Location): seq<Location> {
    if trail != [] && trail[|trail| - 1] == place then trail else trail + [place]
  }

  /** A sequence of places with immediate repetitions dropped. */
  function Destutter(places: seq<Location>): seq<Location> {
    if places == [] then [] else Visit(Destutter(places[..|places| - 1]), places[|places| - 1])
  }

  /** What the events say about a peer's location, in order. */
  function Reports(ops: seq<Op>, q: PeerId): seq<Location> {
    if ops == [] then [] else Reports(ops[..|ops| - 1], q) + ReportsOf(ops[|ops| - 1], q)
  }

  function ReportsOf(op: Op, q: PeerId): seq<Location> {
    if op.Remove? then [] else
    (if q == op.added.from then [op.added.fromLocation] else []) + (if q == op.added.to then [op.added.toLocation] else [])
  }

  lemma DestutterSnoc(places: seq<Location>, place: Location)
    ensures Destutter(places + [place]) == Visit(Destutter(places), place)
  {
    assert (places + [place])[..|places|] == places;
  }

  lemma PlacesSnoc(moves: seq<Move>, m: Move)
    ensures Places(moves + [m]) == Places(moves) + [m.location]
  {
    assert (moves + [m])[..|moves|] == moves;
  }

  lemma ReportedTrail(peers: Peers, me: PeerId, location: Location, other: Connection, now: Time)
    ensures var p := Reported(peers, me, location, other, now);
            Places(p.locationHistory) + [p.currentLocation] == Visit(Trail(peers, me), location)
  {
    hide Knows;
    if me in peers {
      PlacesSnoc(peers[me].locationHistory, Move(peers[me].currentLocation, now));
    }
  }

  lemma AddTrail(peers: Peers, a: AddedConnection, now: Time, q: PeerId)
    ensures var t1 := if q == a.from then Visit(Trail(peers, q), a.fromLocation) else Trail(peers, q);
            Trail(AddConnection(peers, a, now), q) == if q == a.to then Visit(t1, a.toLocation) else t1
  {
    hide Reported, IsPresent, Places, Visit;
    var info := InfoOf(a, now);
    var p1 := peers[a.from := Reported(peers, a.from, a.fromLocation, info.to, now)];
    ReportedTrail(peers, a.from, a.fromLocation, info.to, now);
    ReportedTrail(p1, a.to, a.toLocation, info.from, now);
    assert Trail(AddConnection(peers, a, now), q) == Trail(BothReport(peers, a, now), q);
  }

  lemma RemoveTrail(peers: Peers, from: PeerId, at: PeerId, now: Time, q: PeerId)
    ensures Trail(RemoveConnection(peers, from, at, now).0, q) == Trail(peers, q)
  {
    hide WithoutFirst, Places;
  }

  /** A peer's location history with its current location is the sequence of locations reported for
      it, with immediate repetitions dropped. */
  lemma {:induction false} TrailIsWhatWasReported(ops: seq<Op>, q: PeerId)
    ensures Trail(ApplyAll(map[], ops), q) == Destutter(Reports(ops, q))
  {
    hide Trail, AddConnection, RemoveConnection, Destutter, Visit;
    DestutterNone();
    TrailNone(q);
    if ops != [] {
      var before, last := ops[..|ops| - 1], ops[|ops| - 1];
      TrailIsWhatWasReported(before, q);
      var p, r := ApplyAll(map[], before), Reports(before, q);
      match last
      case Add(a, now) =>
        AddTrail(p, a, now, q);
        DestutterBoth(r, a, now, q);
      case Remove(from, at, now) =>
        RemoveTrail(p, from, at, now, q);
        assert r + [] == r;
    }
  }

  lemma {:induction false} DestutterBoth(r: seq<Location>, a: AddedConnection, now: Time, q: PeerId)
    ensures var t1 := if q == a.from then Visit(Destutter(r), a.fromLocation) else Destutter(r);
            Destutter(r + ReportsOf(Add(a, now), q)) == if q == a.to then Visit(t1, a.toLocation) else t1
  {
    hide Destutter, Visit;
    var mid := if q == a.from then r + [a.fromLocation] else r;
    DestutterSnoc(r, a.fromLocation);
    DestutterSnoc(mid, a.toLocation);
    assert r + ReportsOf(Add(a, now), q) == if q == a.to then mid + [a.toLocation] else mid;
  }

  lemma DestutterNone()
    ensures Destutter([]) == []
  {
  }

  lemma TrailNone(q: PeerId)
    ensures Trail(map[], q) == []
  {
  }

  /** A reported connection is entered in the histories exactly when the history of its first end holds no
      entry, of either kind, for the pair and the transaction. */
  lemma {:induction false} UnrecordedIff(peers: Peers, a: AddedConnection, now: Time)
    ensures SameHistories(peers, AddConnection(peers, a, now)) <==> IsPresent(HistoryOf(peers, a.from), InfoOf(a, now))
  {
    hide IsPresent, AddConnection;
    AddHistory(peers, a, now);
    var w, info := AddConnection(peers, a, now), InfoOf(a, now);
    if Entered(peers, w, info) {
      assert |HistoryOf(w, a.from)| > |HistoryOf(peers, a.from)|;
    }
  }

  /** A reconnection reported without a transaction goes unrecorded once the pair has a removal on
      record: the edge is back, the histories do not say so. */
  lemma SilentReconnection(peers: Peers, g: Graph, a: AddedConnection, now: Time, removal: ChangeInfo)
    requires Lists(peers, g) && Decoded(a.transaction) == None
    requires removal in HistoryOf(peers, a.from) && removal.kind == Removed && removal.from.transaction == None
    requires IsAbout(removal, a.from, a.to)
    ensures SameHistories(peers, AddConnection(peers, a, now))
    ensures Knows(ConnsOf(AddConnection(peers, a, now), a.from), a.to)
    ensures Knows(ConnsOf(AddConnection(peers, a, now), a.to), a.from)
  {
    AddHistory(peers, a, now);
    BetweenIs(removal.from.id, removal.to.id, a.from, a.to);
    assert SameChange(removal, InfoOf(a, now));
    HistoryLeavesConns(peers, a, now);
    BothReportConns(peers, a, now, a.from, a.to);
    BothReportConns(peers, a, now, a.to, a.from);
  }

  // ---------------------------------------------------------------- whole sessions

  datatype Message = Message(change: PeerChange, now: Time)

  function AfterMessages(ms: seq<Message>): Peers {
    if ms == [] then map[] else
    var before, m := AfterMessages(ms[..|ms| - 1]), ms[|ms| - 1];
    ApplyAll(before, ChangeOps(before.Keys, m.change, m.now))
  }

  /** The operations of a session, over the peers the edge-set replay knows. */
  function GraphAfter(ms: seq<Message>): Graph {
    if ms == [] then Graph({}, {}) else
    var before, m := GraphAfter(ms[..|ms| - 1]), ms[|ms| - 1];
    GraphApplyAll(before, ChangeOps(before.peers, m.change, m.now))
  }

  /** After any session the peer table refines the edge set replayed on its own, and the histories agree. */
  lemma {:induction false} SessionRefinesGraph(ms: seq<Message>)
    ensures Lists(AfterMessages(ms), GraphAfter(ms)) && Paired(AfterMessages(ms)) && Unrepeated(AfterMessages(ms))
  {
    hide Lists, Paired, Unrepeated, ApplyAll, GraphApplyAll, ChangeOps;
    if ms == [] {
      EmptyTable();
    } else {
      var before, m := AfterMessages(ms[..|ms| - 1]), ms[|ms| - 1];
      SessionRefinesGraph(ms[..|ms| - 1]);
      KnownPeers(before, GraphAfter(ms[..|ms| - 1]));
      var ops := ChangeOps(before.Keys, m.change, m.now);
      ListsRefineEdges(before, GraphAfter(ms[..|ms| - 1]), ops);
      HistoriesAgree(before, ops);
    }
  }

  // ---------------------------------------------------------------- what listed connections and entries say

  /** `c` is one end of a reported connection: its id, the location reported for it and the transaction. */
  predicate IsEnd(a: AddedConnection, c: Connection, id: PeerId, location: Location) {
    && c.id == id && c.location == location
    && (match a.transaction
        case Absent => c.transaction == None
        case Text(t) => c.transaction == Some(t)
        case Bytes(t) => c.transaction == Some(t))
  }

  /** `c` is what the reported connection says about the far end, seen from `q`. */
  predicate FarEnd(a: AddedConnection, q: PeerId, c: Connection) {
    (q == a.from && IsEnd(a, c, a.to, a.toLocation)) || (q == a.to && IsEnd(a, c, a.from, a.fromLocation))
  }

  /** Operation `k` listed the connection: it reports it, and the two were not connected then. */
  ghost predicate ListedBy(ops: seq<Op>, k: nat, q: PeerId, c: Connection) {
    && k < |ops| && ops[k].Add? && FarEnd(ops[k].added, q, c)
    && !Knows(ConnsOf(ApplyAll(map[], ops[..k]), q), c.id)
  }

  lemma {:induction false} AddedConns(peers: Peers, a: AddedConnection, now: Time, q: PeerId, c: Connection)
    requires c in ConnsOf(AddConnection(peers, a, now), q)
    ensures c in ConnsOf(peers, q) || (FarEnd(a, q, c) && !Knows(ConnsOf(peers, q), c.id))
  {
    hide AddConnection, Knows;
    HistoryLeavesConns(peers, a, now);
    var info := InfoOf(a, now);
    var p1 := peers[a.from := Reported(peers, a.from, a.fromLocation, info.to, now)];
    ReportedAdds(peers, a.from, a.fromLocation, info.to, now, c);
    ReportedAdds(p1, a.to, a.toLocation, info.from, now, c);
    ReportedKeeps(peers, a.from, a.fromLocation, info.to, now, c.id);
  }

  lemma {:induction false} ReportedAdds(peers: Peers, me: PeerId, location: Location, other: Connection, now: Time, c: Connection)
    ensures c in Reported(peers, me, location, other, now).connections ==>
              c in ConnsOf(peers, me) || (c == other && !Knows(ConnsOf(peers, me), other.id))
  {
  }

  lemma {:induction false} ReportedKeeps(peers: Peers, me: PeerId, location: Location, other: Connection, now: Time, id: PeerId)
    ensures Knows(ConnsOf(peers, me), id) ==> Knows(Reported(peers, me, location, other, now).connections, id)
  {
    if Knows(ConnsOf(peers, me), id) {
      var c :| c in ConnsOf(peers, me) && c.id == id;
      assert c in Reported(peers, me, location, other, now).connections;
    }
  }

  lemma {:induction false} DisconnectedConns(peers: Peers, me: PeerId, other: PeerId, q: PeerId, c: Connection)
    requires me in peers && NoRepeats(ConnsOf(peers, q))
    ensures NoRepeats(ConnsOf(Disconnect(peers, me, other), q))
    ensures c in ConnsOf(Disconnect(peers, me, other), q) ==> c in ConnsOf(peers, q)
  {
    hide WithoutFirst, NoRepeats;
    if q == me {
      WithoutFirstConns(peers[q].connections, other);
    }
  }

  lemma {:induction false} RemovedConns(peers: Peers, from: PeerId, at: PeerId, now: Time, q: PeerId, c: Connection)
    requires NoRepeats(ConnsOf(peers, q)) && c in ConnsOf(RemoveConnection(peers, from, at, now).0, q)
    ensures c in ConnsOf(peers, q)
  {
    hide WithoutFirst, NoRepeats;
    if from in peers {
      DisconnectedConns(peers, from, at, q, c);
      if at in peers {
        DisconnectedConns(Disconnect(peers, from, at), at, from, q, c);
      }
    }
  }

  /** Every connection a peer lists is the far end of the event that listed it, with the location reported for
      it there and that event's transaction. */
  lemma {:induction false} ListedAsReported(ops: seq<Op>, q: PeerId, c: Connection)
    requires c in ConnsOf(ApplyAll(map[], ops), q)
    ensures exists k: nat :: ListedBy(ops, k, q, c)
    decreases |ops|
  {
    hide AddConnection, RemoveConnection, NoRepeats, FarEnd, Knows, Lists;
    if ops != [] {
      var n := |ops| - 1;
      var before, peers := ops[..n], ApplyAll(map[], ops[..n]);
      EmptyTable();
      ListsRefineEdges(map[], Graph({}, {}), before);
      NoRepeatsIn(peers, GraphApplyAll(Graph({}, {}), before), q);
      match ops[n] {
        case Add(a, now) => AddedConns(peers, a, now, q, c);
        case Remove(from, at, now) => RemovedConns(peers, from, at, now, q, c);
      }
      if c in ConnsOf(peers, q) {
        ListedAsReported(before, q, c);
        var k: nat :| ListedBy(before, k, q, c);
        assert before[..k] == ops[..k] && ListedBy(ops, k, q, c);
      } else {
        assert ListedBy(ops, n, q, c);
      }
    }
  }

  lemma {:induction false} NoRepeatsIn(peers: Peers, g: Graph, q: PeerId)
    requires Lists(peers, g)
    ensures NoRepeats(ConnsOf(peers, q))
  {
    hide NoRepeats, Knows;
  }

  lemma {:induction false} VisitedStays(places: seq<Location>, place: Location)
    requires place in places
    ensures place in Destutter(places)
  {
    var last := places[|places| - 1];
    assert places == places[..|places| - 1] + [last];
    if place != last {
      VisitedStays(places[..|places| - 1], place);
    }
  }

  lemma {:induction false} ReportedPlace(ops: seq<Op>, k: nat, id: PeerId, location: Location)
    requires k < |ops| && location in ReportsOf(ops[k], id)
    ensures location in Reports(ops, id)
    decreases |ops|
  {
    if k < |ops| - 1 {
      ReportedPlace(ops[..|ops| - 1], k, id, location);
    }
  }

  /** So the location shown for a connection is one the far end has had. */
  lemma {:induction false} ListedWhereItWas(ops: seq<Op>, q: PeerId, c: Connection)
    requires c in ConnsOf(ApplyAll(map[], ops), q)
    ensures c.location in Trail(ApplyAll(map[], ops), c.id)
  {
    hide ApplyAll, Knows, Trail, Destutter, Reports;
    ListedAsReported(ops, q, c);
    var k: nat :| ListedBy(ops, k, q, c);
    ReportedPlace(ops, k, c.id, c.location);
    VisitedStays(Reports(ops, c.id), c.location);
    TrailIsWhatWasReported(ops, c.id);
  }

  /** An entry says what its event said: an addition the two ends, their reported locations, transaction and time;
      a removal the two peers, where they were then, and the time. */
  ghost predicate EnteredBy(ops: seq<Op>, k: nat, q: PeerId, e: ChangeInfo) {
    && k < |ops| && (q == e.from.id || q == e.to.id)
    && (match ops[k]
        case Add(a, now) =>
          e.kind == Added && e.timestamp == now
          && IsEnd(a, e.from, a.from, a.fromLocation) && IsEnd(a, e.to, a.to, a.toLocation)
        case Remove(from, at, now) =>
          && e.kind == Removed && e.timestamp == now && e.from.transaction == None && e.to.transaction == None
          && e.from.id == from && e.to.id == at
          && IsAt(ApplyAll(map[], ops[..k]), from, e.from.location) && IsAt(ApplyAll(map[], ops[..k]), at, e.to.location))
  }

  predicate IsAt(peers: Peers, id: PeerId, location: Location) {
    Trail(peers, id) != [] && Trail(peers, id)[|Trail(peers, id)| - 1] == location
  }

  lemma {:induction false} InfoSays(a: AddedConnection, now: Time)
    ensures var e := InfoOf(a, now);
            && e.kind == Added && e.timestamp == now
            && IsEnd(a, e.from, a.from, a.fromLocation) && IsEnd(a, e.to, a.to, a.toLocation)
  {
  }

  lemma {:induction false} NewEntry(ops: seq<Op>, q: PeerId, e: ChangeInfo)
    requires ops != [] && e in HistoryOf(ApplyAll(map[], ops), q)
    ensures e in HistoryOf(ApplyAll(map[], ops[..|ops| - 1]), q) || EnteredBy(ops, |ops| - 1, q, e)
  {
    hide AddConnection, RemoveConnection, IsPresent, Places, IsEnd, InfoOf, HistoryOf;
    var n := |ops| - 1;
    var peers := ApplyAll(map[], ops[..n]);
    match ops[n]
    case Add(a, now) =>
      InfoSays(a, now);
      AddHistory(peers, a, now);
      EntersOne(peers, ApplyAll(map[], ops), InfoOf(a, now), q, e);
    case Remove(from, at, now) =>
      RemoveHistory(peers, from, at, now);
      if !RemoveConnection(peers, from, at, now).1 {
        var info := ChangeInfo(Removed, Connection(None, from, peers[from].currentLocation),
                               Connection(None, at, peers[at].currentLocation), now);
        EntersOne(peers, ApplyAll(map[], ops), info, q, e);
      }
  }

  lemma {:induction false} EntersOne(before: Peers, after: Peers, info: ChangeInfo, q: PeerId, e: ChangeInfo)
    requires SameHistories(before, after) || Entered(before, after, info)
    requires e in HistoryOf(after, q)
    ensures e in HistoryOf(before, q) || (e == info && (q == info.from.id || q == info.to.id))
  {
    hide HistoryOf;
  }

  /** Every entry of every history was entered by an event, at both its ends, and says what that event said. */
  lemma {:induction false} EntriesAsReported(ops: seq<Op>, q: PeerId, e: ChangeInfo)
    requires e in HistoryOf(ApplyAll(map[], ops), q)
    ensures exists k: nat :: EnteredBy(ops, k, q, e)
    decreases |ops|
  {
    hide Apply, HistoryOf, IsEnd, IsAt;
    if ops == [] {
      NoEntries(q);
    } else {
      var n := |ops| - 1;
      NewEntry(ops, q, e);
      if e in HistoryOf(ApplyAll(map[], ops[..n]), q) {
        EntriesAsReported(ops[..n], q, e);
        var k: nat :| EnteredBy(ops[..n], k, q, e);
        assert ops[..n][..k] == ops[..k] && EnteredBy(ops, k, q, e);
      }
    }
  }

  lemma {:induction false} NoEntries(q: PeerId)
    ensures HistoryOf(map[], q) == []
  {
  }

  /** The operation names the peer. */
  predicate Mentions(op: Op, q: PeerId) {
    op.Add? && (op.added.from == q || op.added.to == q)
  }

  /** Operation `k` is the first that names the peer. */
  ghost predicate FirstMention(ops: seq<Op>, k: nat, q: PeerId) {
    k < |ops| && Mentions(ops[k], q) && forall j :: 0 <= j < k ==> !Mentions(ops[j], q)
  }

  ghost predicate MentionedAt(ops: seq<Op>, q: PeerId, time: Time) {
    exists k :: 0 <= k < |ops| && Mentions(ops[k], q) && ops[k].now == time
  }

  /** A peer is filed under its own id, since the first event that names it, and each move on its record has the
      time of an event that names it. */
  ghost predicate Filed(ops: seq<Op>, q: PeerId, p: Peer) {
    && p.id == q && (exists k: nat :: FirstMention(ops, k, q) && p.since == ops[k].now)
    && forall m <- p.locationHistory :: MentionedAt(ops, q, m.timestamp)
  }

  /** `w` is `p` with moves made at one time. */
  predicate Moves(p: Peer, w: Peer, now: Time) {
    && w.id == p.id && w.since == p.since && p.locationHistory <= w.locationHistory
    && forall i :: |p.locationHistory| <= i < |w.locationHistory| ==> w.locationHistory[i].timestamp == now
  }

  lemma {:induction false} ReportMoves(peers: Peers, me: PeerId, location: Location, other: Connection, now: Time)
    ensures Moves(if me in peers then peers[me] else Peer(me, location, now, [], [], []), Reported(peers, me, location, other, now), now)
  {
    hide Knows;
  }

  lemma {:induction false} AddMoves(peers: Peers, a: AddedConnection, now: Time, q: PeerId)
    requires q == a.from || q == a.to
    ensures q in AddConnection(peers, a, now)
    ensures q in peers ==> Moves(peers[q], AddConnection(peers, a, now)[q], now)
    ensures q !in peers ==> exists l: Location :: Moves(Peer(q, l, now, [], [], []), AddConnection(peers, a, now)[q], now)
  {
    hide Reported, IsPresent;
    var info := InfoOf(a, now);
    var p1 := peers[a.from := Reported(peers, a.from, a.fromLocation, info.to, now)];
    ReportMoves(peers, a.from, a.fromLocation, info.to, now);
    ReportMoves(p1, a.to, a.toLocation, info.from, now);
    if q !in peers {
      var l := if q == a.from then a.fromLocation else a.toLocation;
      assert Moves(Peer(q, l, now, [], [], []), AddConnection(peers, a, now)[q], now);
    }
  }

  lemma {:induction false} Unmentioned(peers: Peers, op: Op, q: PeerId)
    requires !Mentions(op, q)
    ensures q in Apply(peers, op) <==> q in peers
    ensures q in peers ==> Moves(peers[q], Apply(peers, op)[q], op.now) && Apply(peers, op)[q].locationHistory == peers[q].locationHistory
  {
    hide Reported, IsPresent, WithoutFirst;
  }

  lemma {:induction false} KnownIffMentioned(ops: seq<Op>, q: PeerId)
    ensures q in ApplyAll(map[], ops) <==> exists k :: 0 <= k < |ops| && Mentions(ops[k], q)
    decreases |ops|
  {
    hide Apply, Mentions;
    if ops != [] {
      var n := |ops| - 1;
      KnownIffMentioned(ops[..n], q);
      if Mentions(ops[n], q) {
        MentionAdds(ApplyAll(map[], ops[..n]), ops[n], q);
      } else {
        Unmentioned(ApplyAll(map[], ops[..n]), ops[n], q);
      }
      assert forall k :: 0 <= k < n ==> ops[..n][k] == ops[k];
    }
  }

  lemma {:induction false} MentionAdds(peers: Peers, op: Op, q: PeerId)
    requires Mentions(op, q)
    ensures q in Apply(peers, op)
    ensures q in peers ==> Moves(peers[q], Apply(peers, op)[q], op.now)
    ensures q !in peers ==> exists l: Location :: Moves(Peer(q, l, op.now, [], [], []), Apply(peers, op)[q], op.now)
  {
    hide AddConnection, Moves;
    AddMoves(peers, op.added, op.now, q);
  }

  lemma {:induction false} MentionedLater(ops: seq<Op>, op: Op, q: PeerId, time: Time)
    ensures MentionedAt(ops + [op], q, time) <==> MentionedAt(ops, q, time) || (Mentions(op, q) && op.now == time)
  {
    hide Mentions;
    var all := ops + [op];
    if MentionedAt(ops, q, time) {
      var k :| 0 <= k < |ops| && Mentions(ops[k], q) && ops[k].now == time;
      assert all[k] == ops[k];
    }
    if Mentions(op, q) && op.now == time {
      assert all[|ops|] == op;
    }
  }

  lemma {:induction false} StaysFiled(ops: seq<Op>, op: Op, q: PeerId, p: Peer, w: Peer)
    requires Filed(ops, q, p) && Moves(p, w, op.now) && (Mentions(op, q) || w.locationHistory == p.locationHistory)
    ensures Filed(ops + [op], q, w)
  {
    hide Mentions, MentionedAt;
    var all := ops + [op];
    var k: nat :| FirstMention(ops, k, q) && p.since == ops[k].now;
    assert forall j :: 0 <= j <= k ==> all[j] == ops[j];
    assert FirstMention(all, k, q);
    forall i | 0 <= i < |w.locationHistory| ensures MentionedAt(all, q, w.locationHistory[i].timestamp) {
      MentionedLater(ops, op, q, w.locationHistory[i].timestamp);
      if i < |p.locationHistory| {
        assert w.locationHistory[i] == p.locationHistory[i];
      }
    }
  }

  /** Every peer of every table is filed as it was reported. */
  lemma {:induction false} PeersAreFiled(ops: seq<Op>, q: PeerId)
    requires q in ApplyAll(map[], ops)
    ensures Filed(ops, q, ApplyAll(map[], ops)[q])
    decreases |ops|
  {
    hide Apply, Mentions, Filed, Moves;
    if ops != [] {
      var n := |ops| - 1;
      var before, op := ops[..n], ops[n];
      var peers, w := ApplyAll(map[], before), ApplyAll(map[], ops);
      assert ops == before + [op];
      if Mentions(op, q) {
        MentionAdds(peers, op, q);
      } else {
        Unmentioned(peers, op, q);
      }
      if q in peers {
        PeersAreFiled(before, q);
        StaysFiled(before, op, q, peers[q], w[q]);
      } else {
        KnownIffMentioned(before, q);
        var l: Location :| Moves(Peer(q, l, op.now, [], [], []), w[q], op.now);
        FirstFiled(before, op, q, l, w[q]);
      }
    }
  }

  lemma {:induction false} FirstFiled(ops: seq<Op>, op: Op, q: PeerId, l: Location, w: Peer)
    requires Mentions(op, q) && Moves(Peer(q, l, op.now, [], [], []), w, op.now)
    requires forall k :: 0 <= k < |ops| ==> !Mentions(ops[k], q)
    ensures Filed(ops + [op], q, w)
  {
    hide Mentions, MentionedAt;
    var all := ops + [op];
    assert all[|ops|] == op && forall j :: 0 <= j < |ops| ==> all[j] == ops[j];
    assert FirstMention(all, |ops|, q);
    MentionedLater(ops, op, q, op.now);
    assert forall m <- w.locationHistory :: m.timestamp == op.now;
  }

  // ---------------------------------------------------------------- what a message does

  /** The operations of a whole session. */
  function SessionOps(ms: seq<Message>): seq<Op> {
    if ms == [] then [] else
    var m := ms[|ms| - 1];
    SessionOps(ms[..|ms| - 1]) + ChangeOps(AfterMessages(ms[..|ms| - 1]).Keys, m.change, m.now)
  }

  lemma {:induction false} ApplyAllSplit(peers: Peers, a: seq<Op>, b: seq<Op>)
    ensures ApplyAll(peers, a + b) == ApplyAll(ApplyAll(peers, a), b)
    decreases |b|
  {
    hide Apply;
    if b == [] {
      assert a + b == a;
    } else {
      assert (a + b)[..|a + b| - 1] == a + b[..|b| - 1];
      ApplyAllSplit(peers, a, b[..|b| - 1]);
    }
  }

  /** A session is its operations from the empty table, so what holds after operations holds after sessions. */
  lemma {:induction false} SessionIsItsOps(ms: seq<Message>)
    ensures AfterMessages(ms) == ApplyAll(map[], SessionOps(ms))
  {
    hide ApplyAll, ChangeOps;
    if ms == [] {
      ApplyNone(map[]);
    } else {
      SessionIsItsOps(ms[..|ms| - 1]);
      var m := ms[|ms| - 1];
      ApplyAllSplit(map[], SessionOps(ms[..|ms| - 1]), ChangeOps(AfterMessages(ms[..|ms| - 1]).Keys, m.change, m.now));
    }
  }

  predicate Links(a: AddedConnection, x: PeerId, y: PeerId) {
    (a.from == x && a.to == y) || (a.from == y && a.to == x)
  }

  predicate Names(c: Change, x: PeerId, y: PeerId) {
    c.RemovedChange? && ((c.from == x && c.at == y) || (c.from == y && c.at == x))
  }

  lemma {:induction false} GraphAdds(g: Graph, items: seq<AddedConnection>, now: Time, x: PeerId, y: PeerId)
    ensures Between(x, y) in GraphApplyAll(g, Adds(items, now)).edges <==>
              Between(x, y) in g.edges || exists i :: 0 <= i < |items| && Links(items[i], x, y)
    decreases |items|
  {
    hide Between;
    if items == [] {
      assert Adds(items, now) == [];
    } else {
      var n := |items| - 1;
      assert Adds(items, now)[..n] == Adds(items[..n], now) && Adds(items, now)[n] == Add(items[n], now);
      GraphAdds(g, items[..n], now, x, y);
      BetweenIs(x, y, items[n].from, items[n].to);
    }
  }

  /** What a message does to the graph: a removal takes its edge out; then, unless that removal named an unknown
      peer, the current state is put in; an addition counts only if it comes with a transaction. */
  lemma {:induction false} MessageEdges(g: Graph, c: PeerChange, now: Time, x: PeerId, y: PeerId)
    ensures var known := c.change.RemovedChange? ==> c.change.from in g.peers && c.change.at in g.peers;
            Between(x, y) in GraphApplyAll(g, ChangeOps(g.peers, c, now)).edges <==>
              || (Between(x, y) in g.edges && !Names(c.change, x, y))
              || (known && exists i :: 0 <= i < |c.currentState| && Links(c.currentState[i], x, y))
              || (c.change.AddedChange? && Links(c.change.added, x, y)
                  && (c.change.added.transaction.Bytes? || (c.change.added.transaction.Text? && c.change.added.transaction.text != "")))
  {
    hide Between, GraphApplyAll, Adds;
    var rest := Adds(c.currentState, now);
    GraphNone(g);
    assert [] + rest == rest;
    match c.change
    case AddedChange(a) =>
      GraphFirst(g, Add(a, now), rest);
      GraphAdds(GraphApply(g, Add(a, now)), c.currentState, now, x, y);
      GraphAdds(g, c.currentState, now, x, y);
      BetweenIs(x, y, a.from, a.to);
    case RemovedChange(from, at) =>
      var op := Remove(from, at, now);
      GraphFirst(g, op, rest);
      GraphFirst(g, op, []);
      GraphNone(GraphApply(g, op));
      assert [op] + [] == [op];
      GraphAdds(GraphApply(g, op), c.currentState, now, x, y);
      BetweenIs(x, y, from, at);
    case OtherChange => GraphAdds(g, c.currentState, now, x, y);
  }

  lemma {:induction false} GraphNone(g: Graph)
    ensures GraphApplyAll(g, []) == g
  {
  }

  lemma {:induction false} GraphFirst(g: Graph, op: Op, rest: seq<Op>)
    ensures GraphApplyAll(g, [op] + rest) == GraphApplyAll(GraphApply(g, op), rest)
    decreases |rest|
  {
    hide GraphApply;
    if rest == [] {
      assert [op] + rest == [op] && [op][..0] == [];
      assert GraphApplyAll(g, [op][..0]) == g;
    } else {
      assert ([op] + rest)[..|rest|] == [op] + rest[..|rest| - 1];
      GraphFirst(g, op, rest[..|rest| - 1]);
    }
  }

  // ---------------------------------------------------------------- a reconnection nobody records

  const LINK := AddedConnection(Text("t"), "a", 0.0, "b", 0.5)
  const CONNECT := Message(PeerChange(AddedChange(LINK), []), 0)
  const PART := Message(PeerChange(RemovedChange("a", "b"), []), 1)
  const RECONNECT := Message(PeerChange(OtherChange, [LINK.(transaction := Absent)]), 2)

  lemma {:induction false} OneOp(before: Peers, m: Message, op: Op)
    requires ChangeOps(before.Keys, m.change, m.now) == [op]
    ensures ApplyAll(before, ChangeOps(before.Keys, m.change, m.now)) == Apply(before, op)
  {
    assert [op][..0] == [];
    assert ApplyAll(before, []) == before;
  }

  lemma {:induction false} ThreeMessages(x: Message, y: Message, z: Message)
    ensures var p := map[]; AfterMessages([x]) == ApplyAll(p, ChangeOps(p.Keys, x.change, x.now))
    ensures var p := AfterMessages([x]); AfterMessages([x, y]) == ApplyAll(p, ChangeOps(p.Keys, y.change, y.now))
    ensures var p := AfterMessages([x, y]); AfterMessages([x, y, z]) == ApplyAll(p, ChangeOps(p.Keys, z.change, z.now))
  {
    hide ApplyAll, ChangeOps;
    assert [x, y, z][..2] == [x, y] && [x, y][..1] == [x] && [x][..0] == [];
    assert AfterMessages([]) == map[];
  }

  lemma {:induction false} FirstEntries(a: AddedConnection, now: Time)
    requires a.from != a.to
    ensures var w := AddConnection(map[], a, now);
            && a.from in w && a.to in w
            && HistoryOf(w, a.from) == [InfoOf(a, now)] && HistoryOf(w, a.to) == [InfoOf(a, now)]
  {
    hide AddConnection, IsPresent;
    AddHistory(map[], a, now);
    NothingPresent(InfoOf(a, now));
    BothKnown(map[], a, now);
  }

  lemma {:induction false} PartingEntries(peers: Peers, from: PeerId, at: PeerId, now: Time) returns (removal: ChangeInfo)
    requires from in peers && at in peers && from != at
    ensures var w := RemoveConnection(peers, from, at, now).0;
            HistoryOf(w, from) == HistoryOf(peers, from) + [removal] && HistoryOf(w, at) == HistoryOf(peers, at) + [removal]
    ensures removal.kind == Removed && removal.from.transaction == None && IsAbout(removal, from, at)
  {
    hide RemoveConnection, IsAbout;
    RemoveKnown(peers, from, at, now);
    RemoveHistory(peers, from, at, now);
    removal := ChangeInfo(Removed, Connection(None, from, peers[from].currentLocation),
                          Connection(None, at, peers[at].currentLocation), now);
    AboutItself(removal);
  }

  lemma {:induction false} SessionIsThreeOps()
    ensures var p1 := AddConnection(map[], LINK, 0);
            var p2 := RemoveConnection(p1, "a", "b", 1).0;
            && AfterMessages([CONNECT, PART]) == p2
            && AfterMessages([CONNECT, PART, RECONNECT]) == AddConnection(p2, LINK.(transaction := Absent), 2)
  {
    hide AfterMessages, ApplyAll, AddConnection, RemoveConnection, Adds;
    ThreeMessages(CONNECT, PART, RECONNECT);
    NoAdds(0);
    NoAdds(1);
    OneOp(map[], CONNECT, Add(LINK, 0));
    var p1 := AfterMessages([CONNECT]);
    BothKnown(map[], LINK, 0);
    OneOp(p1, PART, Remove("a", "b", 1));
    OneAdd(LINK.(transaction := Absent), 2);
    OneOp(AfterMessages([CONNECT, PART]), RECONNECT, Add(LINK.(transaction := Absent), 2));
  }

  lemma {:induction false} NoAdds(now: Time)
    ensures forall ops: seq<Op> :: ops + Adds([], now) == ops
  {
  }

  lemma {:induction false} OneAdd(a: AddedConnection, now: Time)
    ensures Adds([a], now) == [Add(a, now)]
  {
  }

  /** Connected in a transaction, parted, and in the next current state again: the edge is there, and both
      histories end with the removal. */
  lemma {:induction false} ReconnectionIsNotRecorded()
    ensures var peers := AfterMessages([CONNECT, PART, RECONNECT]);
            && Knows(ConnsOf(peers, "a"), "b") && Knows(ConnsOf(peers, "b"), "a")
            && |HistoryOf(peers, "a")| == 2 && HistoryOf(peers, "a")[1].kind == Removed
            && |HistoryOf(peers, "b")| == 2 && HistoryOf(peers, "b")[1].kind == Removed
  {
    hide AfterMessages, AddConnection, RemoveConnection, Lists, Knows, GraphAfter, IsAbout, ConnsOf;
    SessionIsThreeOps();
    FirstEntries(LINK, 0);
    var p1 := AddConnection(map[], LINK, 0);
    var removal := PartingEntries(p1, "a", "b", 1);
    var p2, again := RemoveConnection(p1, "a", "b", 1).0, LINK.(transaction := Absent);
    SessionRefinesGraph([CONNECT, PART]);
    SilentReconnection(p2, GraphAfter([CONNECT, PART]), again, 2, removal);
  }

  lemma {:induction false} NothingPresent(info: ChangeInfo)
    ensures !IsPresent([], info)
  {
  }

  lemma {:induction false} AboutItself(e: ChangeInfo)
    ensures IsAbout(e, e.from.id, e.to.id)
  {
  }

  lemma {:induction false} BothKnown(peers: Peers, a: AddedConnection, now: Time)
    ensures a.from in AddConnection(peers, a, now) && a.to in AddConnection(peers, a, now)
  {
    hide IsPresent, Knows;
  }

  lemma {:induction false} RemoveKnown(peers: Peers, from: PeerId, at: PeerId, now: Time)
    requires from in peers && at in peers
    ensures !RemoveConnection(peers, from, at, now).1
  {
    hide WithoutFirst;
  }

  lemma KnownPeers(peers: Peers, g: Graph)
    requires Lists(peers, g)
    ensures peers.Keys == g.peers
  {
  }

  lemma EmptyTable()
    ensures Lists(map[], Graph({}, {})) && Paired(map[]) && Unrepeated(map[])
  {
  }

  // ---------------------------------------------------------------- the table

  class PeerTable {
    var peers: Peers

    constructor ()
      ensures peers == map[]
    {
      peers := map[];
    }

    method Report(me: PeerId, location: Location, other: Connection, now: Time)
      modifies this
      ensures peers == old(peers)[me := Reported(old(peers), me, location, other, now)]
    {
      hide Knows, WithoutFirst;
      if me in peers {
        ghost var p := peers[me];
        if peers[me].currentLocation != location {
          peers := peers[me := peers[me].(locationHistory := peers[me].locationHistory + [Move(peers[me].currentLocation, now)])];
          peers := peers[me := peers[me].(currentLocation := location)];
          p := p.(locationHistory := p.locationHistory + [Move(p.currentLocation, now)], currentLocation := location);
        }
        assert peers == old(peers)[me := p];
        var found := Find(peers[me].connections, other.id);
        if found == |peers[me].connections| {
          peers := peers[me := peers[me].(connections := peers[me].connections + [other])];
        }
        assert peers == old(peers)[me := Reported(old(peers), me, location, other, now)];
      } else {
        peers := peers[me := Peer(me, location, now, [other], [], [])];
      }
    }

    /** The index of the first connection to a peer, or the length of the list. */
    method Find(conns: seq<Connection>, id: PeerId) returns (i: nat)
      ensures i <= |conns|
      ensures i < |conns| <==> Knows(conns, id)
      ensures WithoutFirst(conns, id) == if i < |conns| then conns[..i] + conns[i + 1..] else conns
    {
      i := 0;
      while i < |conns|
        invariant i <= |conns|
        invariant forall j :: 0 <= j < i ==> conns[j].id != id
        invariant WithoutFirst(conns, id) == conns[..i] + WithoutFirst(conns[i..], id)
      {
        assert conns[i..][1..] == conns[i + 1..];
        if conns[i].id == id {
          return;
        }
        assert conns[..i] + [conns[i]] == conns[..i + 1];
        i := i + 1;
      }
    }

    method HandleAddedConnection(a: AddedConnection, skipNonTransaction: bool, now: Time)
      modifies this
      ensures peers == if skipNonTransaction && !HasTransaction(a.transaction) then old(peers) else AddConnection(old(peers), a, now)
    {
      hide Reported, IsPresent;
      var truthy := match a.transaction case Absent => false case Text(s) => s != "" case Bytes(_) => true;
      if !truthy && skipNonTransaction {
        return;
      }
      var transaction := match a.transaction case Text(s) => Some(s) case Bytes(s) => Some(s) case Absent => None;
      var from, to := Connection(transaction, a.from, a.fromLocation), Connection(transaction, a.to, a.toLocation);
      Report(a.from, a.fromLocation, to, now);
      Report(a.to, a.toLocation, from, now);
      var info := ChangeInfo(Added, from, to, now);
      var present := Recorded(peers[a.from].history, info);
      if !present {
        peers := peers[a.from := peers[a.from].(history := peers[a.from].history + [info])];
        peers := peers[a.to := peers[a.to].(history := peers[a.to].history + [info])];
      }
    }

    method Recorded(history: seq<ChangeInfo>, info: ChangeInfo) returns (present: bool)
      ensures present == IsPresent(history, info)
    {
      for i := 0 to |history|
        invariant forall j :: 0 <= j < i ==> !SameChange(history[j], info)
      {
        var item := history[i];
        if (item.from.id == info.from.id && item.to.id == info.to.id && item.from.transaction == info.from.transaction) ||
           (item.from.id == info.to.id && item.to.id == info.from.id && item.from.transaction == info.from.transaction) {
          assert item in history && SameChange(item, info);
          return true;
        }
      }
      return false;
    }

    method HandleRemovedConnection(from: PeerId, at: PeerId, now: Time) returns (threw: bool)
      modifies this
      ensures (peers, threw) == RemoveConnection(old(peers), from, at, now)
    {
      hide WithoutFirst;
      if from !in peers {
        return true;
      }
      var conns := peers[from].connections;
      var index := Find(conns, at);
      if index < |conns| {
        peers := peers[from := peers[from].(connections := conns[..index] + conns[index + 1..])];
      }
      assert peers == Disconnect(old(peers), from, at);
      if at !in peers {
        return true;
      }
      ghost var p1 := peers;
      conns := peers[at].connections;
      index := Find(conns, from);
      if index < |conns| {
        peers := peers[at := peers[at].(connections := conns[..index] + conns[index + 1..])];
      }
      assert peers == Disconnect(p1, at, from);
      var info := ChangeInfo(Removed, Connection(None, from, peers[from].currentLocation), Connection(None, at, peers[at].currentLocation), now);
      peers := peers[from := peers[from].(history := peers[from].history + [info])];
      peers := peers[at := peers[at].(history := peers[at].history + [info])];
      return false;
    }

    method HandleCurrentState(items: seq<AddedConnection>, now: Time)
      modifies this
      ensures peers == ApplyAll(old(peers), Adds(items, now))
    {
      hide AddConnection;
      ghost var ops := Adds(items, now);
      for i := 0 to |items|
        invariant peers == ApplyAll(old(peers), ops[..i])
      {
        assert ops[..i + 1][..i] == ops[..i];
        HandleAddedConnection(items[i], false, now);
      }
      assert ops[..|ops|] == ops;
    }

    method HandleChange(c: PeerChange, now: Time)
      modifies this
      ensures peers == ApplyAll(old(peers), ChangeOps(old(peers).Keys, c, now))
    {
      hide AddConnection, RemoveConnection, Adds, ApplyAll;
      ghost var rest := Adds(c.currentState, now);
      assert [] + rest == rest;
      match c.change {
        case AddedChange(a) =>
          HandleAddedConnection(a, true, now);
          ApplyFirst(old(peers), Add(a, now), rest);
        case RemovedChange(from, at) =>
          ThrowsOnUnknown(peers, from, at, now);
          ApplyFirst(peers, Remove(from, at, now), rest);
          ApplyFirst(peers, Remove(from, at, now), []);
          ApplyNone(Apply(peers, Remove(from, at, now)));
          assert [Remove(from, at, now)] + [] == [Remove(from, at, now)];
          var threw := HandleRemovedConnection(from, at, now);
          if threw {
            return;
          }
        case OtherChange =>
      }
      HandleCurrentState(c.currentState, now);
    }
  }

  lemma ApplyNone(peers: Peers)
    ensures ApplyAll(peers, []) == peers
  {
  }

  lemma {:induction false} ApplyFirst(peers: Peers, op: Op, rest: seq<Op>)
    ensures ApplyAll(peers, [op] + rest) == ApplyAll(Apply(peers, op), rest)
  {
    hide Apply;
    if rest == [] {
      assert [op] + rest == [op];
      assert [op][..0] == [] && ApplyAll(peers, [op][..0]) == peers;
    } else {
      assert ([op] + rest)[..|rest|] == [op] + rest[..|rest| - 1];
      ApplyFirst(peers, op, rest[..|rest| - 1]);
    }
  }

  lemma ThrowsOnUnknown(peers: Peers, from: PeerId, at: PeerId, now: Time)
    ensures RemoveConnection(peers, from, at, now).1 <==> from !in peers || at !in peers
  {
    hide WithoutFirst;
  }
}
