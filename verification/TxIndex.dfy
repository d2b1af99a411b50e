/** The network monitor's two indices over reported transaction events: by transaction and by contract.
    Seven handlers fill them, with three different rules for what is appended where. */
module TxIndex {
  import opened Messages

  datatype Kind =
    | PutRequest | PutSuccess | BroadcastEmitted | BroadcastReceived
    | GetContract | Subscribed | Update

  /** A reported event before parsing. A peer is printed as its name, then its location in brackets;
      `targets` has one element except for an emitted broadcast. `location` is the printed number. */
  datatype Report = Report(kind: Kind, tx: string, contract: string, targets: seq<string>, requester: string,
                           upstream: string, change: string, timestamp: int, location: string)

  datatype Entry = Entry(change: string, tx: string, contract: string, targets: seq<string>, requester: string,
                         requesterLocation: string, uniqueId: string, timestamp: int, location: string)

  type Index = map<string, seq<Entry>>

  datatype State = State(txs: Index, contracts: Index)

  // ---------------------------------------------------------------- parsing

  predicate OccursAt(s: string, sep: string, i: nat) {
    i + |sep| <= |s| && s[i..i + |sep|] == sep
  }

  function FindFrom(s: string, sep: string, i: nat): (r: Option<nat>)
    requires i <= |s|
    ensures r.Some? ==> OccursAt(s, sep, r.value)
    decreases |s| - i
  {
    if OccursAt(s, sep, i) then Some(i)
    else if i == |s| then None
    else FindFrom(s, sep, i + 1)
  }

  /** The pieces of `s` between occurrences of a separator. */
  function Split(s: string, sep: string): (r: seq<string>)
    requires sep != ""
    ensures |r| > 0
    decreases |s|
  {
    match FindFrom(s, sep, 0)
    case None => [s]
    case Some(i) => [s[..i]] + Split(s[i + |sep|..], sep)
  }

  const AT := " (@"
  const AT_SPACE := " (@ "

  /** The text of a printed location; reading it throws when the separator is missing. */
  function LocationOf(peer: string, sep: string): Option<string>
    requires sep != ""
  {
    var parts := Split(peer, sep);
    if |parts| < 2 then None else Some(Split(parts[1], ")")[0])
  }

  function NameOf(peer: string): string {
    Split(peer, AT)[0]
  }

  predicate IsBroadcast(k: Kind) {
    k.BroadcastEmitted? || k.BroadcastReceived?
  }

  predicate Deduplicates(k: Kind) {
    k.PutRequest? || k.PutSuccess? || IsBroadcast(k)
  }

  function UniqueId(r: Report, contract: string, requester: string): string {
    var target := if r.targets == [] then "undefined" else r.targets[0];
    if IsBroadcast(r.kind) then r.tx + contract + target + requester
    else if Deduplicates(r.kind) then r.tx + contract + target + requester + r.change
    else r.tx + contract + r.location + requester + r.change
  }

  /** The record a report stands for, or `None` when parsing it throws. */
  function Build(r: Report): Option<Entry> {
    var place := LocationOf(r.requester, if IsBroadcast(r.kind) then AT else AT_SPACE);
    var other := match r.kind
      case BroadcastEmitted => LocationOf(r.upstream, AT)
      case GetContract => if r.targets == [] then None else LocationOf(r.targets[0], AT_SPACE)
      case _ => Some("");
    if place == None || other == None then None else
    var contract := if r.kind.Update? then NameOf(r.contract) else r.contract;
    var targets := if r.kind.GetContract? then [NameOf(r.targets[0])] else r.targets;
    var requester := NameOf(r.requester);
    Some(Entry(r.change, r.tx, contract, targets, requester, place.value,
               UniqueId(r, contract, requester), r.timestamp, r.location))
  }

  // ---------------------------------------------------------------- one report

  function List(index: Index, key: string): seq<Entry> {
    if key in index then index[key] else []
  }

  predicate Seen(list: seq<Entry>, id: string) {
    exists i | 0 <= i < |list| :: list[i].uniqueId == id
  }

  /** What a report leaves behind: `Replace` starts the transaction's list anew, `Orphan` is a broadcast
      whose handler throws after the first append, because the contract has no list. */
  datatype Effect = Replace | Append | Orphan

  datatype Record = Record(entry: Entry, effect: Effect)

  datatype Outcome = Outcome(state: State, threw: bool, recorded: Option<Record>)

  function Push(index: Index, key: string, e: Entry): Index {
    index[key := List(index, key) + [e]]
  }

  function Handle(s: State, r: Report): Outcome {
    match Build(r)
    case None => Outcome(s, true, None)
    case Some(e) =>
      if Deduplicates(r.kind) && Seen(List(s.txs, e.tx), e.uniqueId) then Outcome(s, false, None)
      else if Deduplicates(r.kind) && !r.kind.PutRequest? && e.tx !in s.txs then Outcome(s, true, None)
      else
        var txs := if r.kind.PutRequest? then s.txs[e.tx := [e]] else Push(s.txs, e.tx, e);
        if IsBroadcast(r.kind) && e.contract !in s.contracts then
          Outcome(State(txs, s.contracts), true, Some(Record(e, Orphan)))
        else
          Outcome(State(txs, Push(s.contracts, e.contract, e)), false,
                  Some(Record(e, if r.kind.PutRequest? then Replace else Append)))
  }

  // ---------------------------------------------------------------- whole sessions

  function Run(rs: seq<Report>): State {
    if rs == [] then State(map[], map[]) else
    Handle(Run(rs[..|rs| - 1]), rs[|rs| - 1]).state
  }

  /** What a session recorded, in order: one log behind both indices. */
  function Log(rs: seq<Report>): seq<Record> {
    if rs == [] then [] else
    var out := Handle(Run(rs[..|rs| - 1]), rs[|rs| - 1]);
    Logged(Log(rs[..|rs| - 1]), out.recorded)
  }

  /** A transaction's list according to the log: everything since its list was last started anew. */
  function Since(log: seq<Record>, tx: string): seq<Entry> {
    if log == [] then [] else
    var before, last := Since(log[..|log| - 1], tx), log[|log| - 1];
    if last.entry.tx != tx then before
    else if last.effect.Replace? then [last.entry]
    else before + [last.entry]
  }

  /** A contract's list according to the log: everything but the orphans. */
  function Kept(log: seq<Record>, contract: string): seq<Entry> {
    if log == [] then [] else
    var before, last := Kept(log[..|log| - 1], contract), log[|log| - 1];
    if last.entry.contract != contract || last.effect.Orphan? then before else before + [last.entry]
  }

  function Logged(log: seq<Record>, recorded: Option<Record>): seq<Record> {
    if recorded.Some? then log + [recorded.value] else log
  }

  /** The indices agree with a log. */
  ghost predicate Views(s: State, log: seq<Record>, tx: string, contract: string) {
    && List(s.txs, tx) == Since(log, tx) && (tx in s.txs <==> Since(log, tx) != [])
    && List(s.contracts, contract) == Kept(log, contract)
    && (contract in s.contracts <==> Kept(log, contract) != [])
  }

  lemma HandleViews(s: State, log: seq<Record>, r: Report, tx: string, contract: string)
    requires Views(s, log, tx, contract)
    ensures Views(Handle(s, r).state, Logged(log, Handle(s, r).recorded), tx, contract)
  {
    hide Build, Seen, Since, Kept;
    var out := Handle(s, r);
    if out.recorded.Some? {
      SinceNext(log, out.recorded.value, tx);
      KeptNext(log, out.recorded.value, contract);
    }
  }

  lemma SinceNext(log: seq<Record>, rec: Record, tx: string)
    ensures Since(log + [rec], tx)
         == if rec.entry.tx != tx then Since(log, tx)
            else if rec.effect.Replace? then [rec.entry]
            else Since(log, tx) + [rec.entry]
  {
    assert (log + [rec])[..|log|] == log;
  }

  lemma KeptNext(log: seq<Record>, rec: Record, contract: string)
    ensures Kept(log + [rec], contract)
         == if rec.entry.contract != contract || rec.effect.Orphan? then Kept(log, contract)
            else Kept(log, contract) + [rec.entry]
  {
    assert (log + [rec])[..|log|] == log;
  }

  /** Both indices are views of the one log, for every session. */
  lemma {:induction false} IndicesAreViews(rs: seq<Report>, tx: string, contract: string)
    ensures Views(Run(rs), Log(rs), tx, contract)
  {
    hide Handle, Since, Kept;
    if rs == [] {
      EmptyViews(tx, contract);
    } else {
      IndicesAreViews(rs[..|rs| - 1], tx, contract);
      HandleViews(Run(rs[..|rs| - 1]), Log(rs[..|rs| - 1]), rs[|rs| - 1], tx, contract);
    }
  }

  lemma EmptyViews(tx: string, contract: string)
    ensures Views(State(map[], map[]), [], tx, contract)
  {
  }

  // ---------------------------------------------------------------- when the two indices agree

  function OfContract(list: seq<Entry>, contract: string): seq<Entry> {
    if list == [] then [] else
    OfContract(list[..|list| - 1], contract)
      + if list[|list| - 1].contract == contract then [list[|list| - 1]] else []
  }

  function OfTx(list: seq<Entry>, tx: string): seq<Entry> {
    if list == [] then [] else
    OfTx(list[..|list| - 1], tx) + if list[|list| - 1].tx == tx then [list[|list| - 1]] else []
  }

  /** The entries for a transaction and a contract that its list lost when it was last started anew. */
  function Lost(log: seq<Record>, tx: string, contract: string): nat {
    if log == [] then 0 else
    var before, last := log[..|log| - 1], log[|log| - 1];
    if last.entry.tx == tx && last.effect.Replace? then |OfTx(Kept(before, contract), tx)|
    else Lost(before, tx, contract)
  }

  /** The entries for a transaction and a contract, since then, that never reached the contract's list. */
  function Orphans(log: seq<Record>, tx: string, contract: string): nat {
    if log == [] then 0 else
    var before, last := log[..|log| - 1], log[|log| - 1];
    if last.entry.tx != tx then Orphans(before, tx, contract)
    else if last.effect.Replace? then 0
    else Orphans(before, tx, contract) + if last.effect.Orphan? && last.entry.contract == contract then 1 else 0
  }

  /** Orphans of a contract come before everything on its list. */
  predicate Orderly(log: seq<Record>, contract: string) {
    log == [] ||
    var before, last := log[..|log| - 1], log[|log| - 1];
    && Orderly(before, contract)
    && (last.effect.Orphan? && last.entry.contract == contract ==> Kept(before, contract) == [])
  }

  lemma {:induction false} LogIsOrderly(rs: seq<Report>, contract: string)
    ensures Orderly(Log(rs), contract)
  {
    hide Build, Seen, Deduplicates, Kept, Since;
    if rs != [] {
      LogIsOrderly(rs[..|rs| - 1], contract);
      IndicesAreViews(rs[..|rs| - 1], "", contract);
      var log, out := Log(rs[..|rs| - 1]), Handle(Run(rs[..|rs| - 1]), rs[|rs| - 1]);
      if out.recorded.Some? {
        assert (log + [out.recorded.value])[..|log|] == log;
      }
    }
  }

  lemma OfTxSnoc(list: seq<Entry>, e: Entry, tx: string)
    ensures OfTx(list + [e], tx) == if e.tx == tx then OfTx(list, tx) + [e] else OfTx(list, tx)
  {
    assert (list + [e])[..|list|] == list;
  }

  lemma OfContractSnoc(list: seq<Entry>, e: Entry, contract: string)
    ensures OfContract(list + [e], contract)
         == if e.contract == contract then OfContract(list, contract) + [e] else OfContract(list, contract)
  {
    assert (list + [e])[..|list|] == list;
  }

  /** The transaction's view of a contract is the contract's view of the transaction, less what was lost,
      or with orphans before it; never both. */
  ghost predicate Related(log: seq<Record>, tx: string, contract: string) {
    Offset(OfContract(Since(log, tx), contract), OfTx(Kept(log, contract), tx),
           Lost(log, tx, contract), Orphans(log, tx, contract))
  }

  ghost predicate Offset(byTx: seq<Entry>, byContract: seq<Entry>, lost: nat, orphans: nat) {
    && lost <= |byContract|
    && (orphans > 0 ==> lost == 0)
    && |byTx| == orphans + |byContract| - lost
    && byTx[orphans..] == byContract[lost..]
  }

  lemma OffsetAppend(byTx: seq<Entry>, byContract: seq<Entry>, lost: nat, orphans: nat, e: Entry)
    requires Offset(byTx, byContract, lost, orphans)
    ensures Offset(byTx + [e], byContract + [e], lost, orphans)
    ensures byContract == [] ==> Offset(byTx + [e], byContract, lost, orphans + 1)
  {
    assert (byTx + [e])[orphans..] == byTx[orphans..] + [e];
    assert (byContract + [e])[lost..] == byContract[lost..] + [e];
  }

  lemma OffsetRestart(byContract: seq<Entry>, e: Entry)
    ensures Offset([], byContract, |byContract|, 0)
    ensures Offset([e], byContract + [e], |byContract|, 0)
  {
    assert (byContract + [e])[|byContract|..] == [e];
  }

  lemma {:induction false} LogRelates(log: seq<Record>, tx: string, contract: string)
    requires Orderly(log, contract)
    ensures Related(log, tx, contract)
  {
    hide Related, Kept;
    if log == [] {
      EmptyRelated(tx, contract);
    } else {
      var before, last := log[..|log| - 1], log[|log| - 1];
      LogRelates(before, tx, contract);
      RelatedNext(before, last, tx, contract);
      assert log == before + [last];
    }
  }

  lemma EmptyRelated(tx: string, contract: string)
    ensures Related([], tx, contract)
  {
  }

  lemma CountsNext(log: seq<Record>, rec: Record, tx: string, contract: string)
    ensures Lost(log + [rec], tx, contract)
         == if rec.entry.tx == tx && rec.effect.Replace? then |OfTx(Kept(log, contract), tx)| else Lost(log, tx, contract)
    ensures Orphans(log + [rec], tx, contract)
         == if rec.entry.tx != tx then Orphans(log, tx, contract)
            else if rec.effect.Replace? then 0
            else Orphans(log, tx, contract) + if rec.effect.Orphan? && rec.entry.contract == contract then 1 else 0
  {
    hide OfTx, Kept;
    assert (log + [rec])[..|log|] == log;
  }

  lemma RelatedNext(log: seq<Record>, rec: Record, tx: string, contract: string)
    requires Related(log, tx, contract)
    requires rec.effect.Orphan? && rec.entry.contract == contract ==> Kept(log, contract) == []
    ensures Related(log + [rec], tx, contract)
  {
    hide OfTx, OfContract, Since, Kept, Lost, Orphans, Offset;
    var e := rec.entry;
    SinceNext(log, rec, tx);
    KeptNext(log, rec, contract);
    CountsNext(log, rec, tx, contract);
    OfTxSnoc(Kept(log, contract), e, tx);
    OfContractSnoc(Since(log, tx), e, contract);
    OfContractSnoc([], e, contract);
    NothingOf(tx, contract);
    assert [] + [e] == [e];
    OffsetAppend(OfContract(Since(log, tx), contract), OfTx(Kept(log, contract), tx),
                 Lost(log, tx, contract), Orphans(log, tx, contract), e);
    OffsetRestart(OfTx(Kept(log, contract), tx), e);
  }

  lemma NothingOf(tx: string, contract: string)
    ensures OfTx([], tx) == [] && OfContract([], contract) == []
  {
  }

  /** After any session, the two indices agree about a transaction and a contract exactly when nothing
      was lost to a restarted list and no broadcast was recorded half way. */
  lemma IndicesAgreeIff(rs: seq<Report>, tx: string, contract: string)
    ensures OfContract(List(Run(rs).txs, tx), contract) == OfTx(List(Run(rs).contracts, contract), tx)
       <==> Lost(Log(rs), tx, contract) == 0 && Orphans(Log(rs), tx, contract) == 0
    ensures Related(Log(rs), tx, contract)
  {
    hide Run, Log, Since, Kept, OfTx, OfContract, Lost, Orphans;
    LogIsOrderly(rs, contract);
    LogRelates(Log(rs), tx, contract);
    IndicesAreViews(rs, tx, contract);
  }

  predicate Agree(s: State, tx: string, contract: string) {
    OfContract(List(s.txs, tx), contract) == OfTx(List(s.contracts, contract), tx)
  }

  /** A report that its handler records: it parses, it is not a repetition, and the transaction has a list
      where one is needed. */
  predicate Records(s: State, r: Report) {
    && Build(r).Some?
    && (Deduplicates(r.kind) ==>
          !Seen(List(s.txs, r.tx), Build(r).value.uniqueId) && (r.kind.PutRequest? || r.tx in s.txs))
  }

  /** The guard of the step that breaks agreement: a put request that restarts a list with entries for the
      contract on it, or a broadcast for a contract without a list. */
  predicate Breaks(s: State, r: Report, tx: string, contract: string) {
    && r.tx == tx && Records(s, r)
    && if r.kind.PutRequest? then OfContract(List(s.txs, tx), contract) != []
       else IsBroadcast(r.kind) && r.contract == contract && contract !in s.contracts
  }

  lemma {:induction false} BuildKeepsTx(r: Report)
    ensures Build(r).Some? ==> Build(r).value.tx == r.tx && (IsBroadcast(r.kind) ==> Build(r).value.contract == r.contract)
  {
  }

  lemma {:induction false} RecordedIff(s: State, r: Report)
    ensures Handle(s, r).recorded.Some? <==> Records(s, r)
    ensures Records(s, r) ==>
              var rec := Handle(s, r).recorded.value;
              && rec.entry == Build(r).value && rec.entry.tx == r.tx
              && (rec.effect.Replace? <==> r.kind.PutRequest?)
              && (rec.effect.Orphan? <==> IsBroadcast(r.kind) && r.contract !in s.contracts)
  {
    hide Build, Seen;
    BuildKeepsTx(r);
  }

  lemma AgreementKeptIff(s: State, r: Report, tx: string, contract: string)
    requires Agree(s, tx, contract)
    ensures Agree(Handle(s, r).state, tx, contract) <==> !Breaks(s, r, tx, contract)
  {
    hide Build, Seen, OfTx, OfContract;
    RecordedIff(s, r);
    BuildKeepsTx(r);
    var recorded := Handle(s, r).recorded;
    if recorded.Some? {
      var e := recorded.value.entry;
      OfTxSnoc(List(s.contracts, contract), e, tx);
      OfContractSnoc(List(s.txs, tx), e, contract);
      OfContractSnoc([], e, contract);
      NothingOf(tx, contract);
      assert [] + [e] == [e];
    }
  }

  /** No handler threw after its first append. */
  ghost predicate NoHalfRecords(rs: seq<Report>) {
    forall i :: 0 <= i < |rs| ==>
      var recorded := Handle(Run(rs[..i]), rs[i]).recorded;
      recorded.Some? ==> !recorded.value.effect.Orphan?
  }

  lemma {:induction false} NoOrphans(rs: seq<Report>, tx: string, contract: string)
    requires NoHalfRecords(rs)
    ensures Orphans(Log(rs), tx, contract) == 0
  {
    hide Handle, Run;
    if rs != [] {
      var n := |rs| - 1;
      assert forall i :: 0 <= i < n ==> rs[..n][..i] == rs[..i];
      NoOrphans(rs[..n], tx, contract);
      var recorded := Handle(Run(rs[..n]), rs[n]).recorded;
      if recorded.Some? {
        CountsNext(Log(rs[..n]), recorded.value, tx, contract);
      }
    }
  }

  /** In a session in which no handler threw half way, a transaction's entries for a contract are a suffix of
      the contract's entries for the transaction. */
  lemma {:induction false} SuffixWithoutHalfRecords(rs: seq<Report>, tx: string, contract: string)
    requires NoHalfRecords(rs)
    ensures var byTx, byContract := OfContract(List(Run(rs).txs, tx), contract), OfTx(List(Run(rs).contracts, contract), tx);
            |byTx| <= |byContract| && byTx == byContract[|byContract| - |byTx|..]
  {
    hide Run, Log, Since, Kept, OfTx, OfContract, Lost, Orphans, NoHalfRecords;
    NoOrphans(rs, tx, contract);
    IndicesAgreeIff(rs, tx, contract);
    IndicesAreViews(rs, tx, contract);
  }

  /** A put request for the transaction, if any, is the first report of it. */
  ghost predicate PutComesFirst(rs: seq<Report>, tx: string) {
    forall i, j :: 0 <= i < j < |rs| && rs[j].kind.PutRequest? && rs[j].tx == tx ==> rs[i].tx != tx
  }

  lemma {:induction false} UnreportedHasNoList(rs: seq<Report>, tx: string)
    requires forall i :: 0 <= i < |rs| ==> rs[i].tx != tx
    ensures tx !in Run(rs).txs
  {
    hide LocationOf, NameOf, UniqueId, Seen;
    if rs != [] {
      UnreportedHasNoList(rs[..|rs| - 1], tx);
    }
  }

  /** A transaction that begins with its only put request, in a session without half records, is indexed
      alike on both sides. */
  lemma {:induction false} PutFirstAgrees(rs: seq<Report>, tx: string, contract: string)
    requires NoHalfRecords(rs) && PutComesFirst(rs, tx)
    ensures Agree(Run(rs), tx, contract)
  {
    hide Handle, OfTx, OfContract, NoHalfRecords, PutComesFirst;
    if rs == [] {
      NothingOf(tx, contract);
    } else {
      var before, r := rs[..|rs| - 1], rs[|rs| - 1];
      LastReport(rs, tx);
      PutFirstAgrees(before, tx, contract);
      AgreementKeptIff(Run(before), r, tx, contract);
      NothingBreaks(Run(before), r, tx, contract);
      NothingOf(tx, contract);
    }
  }

  lemma {:induction false} LastReport(rs: seq<Report>, tx: string)
    requires rs != [] && NoHalfRecords(rs) && PutComesFirst(rs, tx)
    ensures NoHalfRecords(rs[..|rs| - 1]) && PutComesFirst(rs[..|rs| - 1], tx)
    ensures var recorded := Handle(Run(rs[..|rs| - 1]), rs[|rs| - 1]).recorded;
            recorded.Some? ==> !recorded.value.effect.Orphan?
    ensures rs[|rs| - 1].kind.PutRequest? && rs[|rs| - 1].tx == tx ==> tx !in Run(rs[..|rs| - 1]).txs
  {
    hide Handle, Run;
    var n := |rs| - 1;
    assert forall i :: 0 <= i < n ==> rs[..n][..i] == rs[..i];
    if rs[n].kind.PutRequest? && rs[n].tx == tx {
      UnreportedHasNoList(rs[..n], tx);
    }
  }

  /** What it takes to break agreement, read off the report. */
  lemma {:induction false} NothingBreaks(s: State, r: Report, tx: string, contract: string)
    ensures Breaks(s, r, tx, contract) ==>
              || (r.kind.PutRequest? && r.tx == tx && OfContract(List(s.txs, tx), contract) != [])
              || (Handle(s, r).recorded.Some? && Handle(s, r).recorded.value.effect.Orphan?)
  {
    hide Build, Seen, OfContract, Handle;
    RecordedIff(s, r);
  }

  // ---------------------------------------------------------------- repeated reports

  /** Handling a report a second time changes nothing, exactly for the four deduplicating handlers and
      for reports that do not parse. */
  lemma RepeatIsIgnoredIff(s: State, r: Report)
    ensures Handle(Handle(s, r).state, r).state == Handle(s, r).state <==> Deduplicates(r.kind) || Build(r) == None
  {
    hide Build;
    if Build(r).Some? {
      var e, once := Build(r).value, Handle(s, r);
      if Deduplicates(r.kind) {
        if once.recorded.Some? {
          var list := List(once.state.txs, e.tx);
          assert list[|list| - 1].uniqueId == e.uniqueId;
        }
      } else {
        assert |List(Handle(once.state, r).state.txs, e.tx)| == |List(once.state.txs, e.tx)| + 1;
      }
    }
  }

  // ---------------------------------------------------------------- printing and parsing

  /** How the node prints a peer. */
  function Printed(name: string, location: string): string {
    name + AT_SPACE + location + ")"
  }

  predicate Contains(s: string, sep: string) {
    exists i :: 0 <= i <= |s| && OccursAt(s, sep, i)
  }

  lemma {:induction false} FirstOccurrence(s: string, sep: string, lo: nat, i: nat)
    requires lo <= i <= |s| && OccursAt(s, sep, i) && forall j :: lo <= j < i ==> !OccursAt(s, sep, j)
    ensures FindFrom(s, sep, lo) == Some(i)
    decreases i - lo
  {
    if lo < i {
      FirstOccurrence(s, sep, lo + 1, i);
    }
  }

  lemma {:induction false} NoOccurrence(s: string, sep: string, lo: nat)
    requires lo <= |s| && !Contains(s, sep)
    ensures FindFrom(s, sep, lo) == None
    decreases |s| - lo
  {
    assert !OccursAt(s, sep, lo);
    if lo < |s| {
      NoOccurrence(s, sep, lo + 1);
    }
  }

  /** The separator is first found where the name ends, unless the name contains it. */
  lemma {:induction false} SeparatorEndsName(name: string, rest: string, sep: string)
    requires (sep == AT || sep == AT_SPACE) && !Contains(name, AT)
    ensures FindFrom(name + sep + rest, sep, 0) == Some(|name|)
  {
    var s := name + sep + rest;
    assert s[|name|..|name| + |sep|] == sep;
    forall j | 0 <= j < |name| ensures !OccursAt(s, sep, j) {
      if OccursAt(s, sep, j) {
        assert s[j..j + |sep|][0] == ' ' && s[j..j + |sep|][1] == '(' && s[j..j + |sep|][2] == '@';
        assert s[j] == ' ' && s[j + 1] == '(' && s[j + 2] == '@';
        assert s[|name|] == sep[0] == ' ' && s[|name| + 1] == sep[1] == '(';
        assert j + 2 < |name| && s[j..j + 3] == name[j..j + 3] && OccursAt(name, AT, j);
      }
    }
    FirstOccurrence(s, sep, 0, |name|);
  }

  /** The name is read back exactly when it does not contain the separator. */
  lemma {:induction false} NameReadBackIff(name: string, location: string)
    ensures NameOf(Printed(name, location)) == name <==> !Contains(name, AT)
  {
    var s := Printed(name, location);
    if Contains(name, AT) {
      var i :| 0 <= i <= |name| && OccursAt(name, AT, i);
      assert s[i..i + 3] == name[i..i + 3];
      FoundByThen(s, AT, 0, i);
    } else {
      assert s == name + AT + (" " + location + ")");
      SeparatorEndsName(name, " " + location + ")", AT);
    }
  }

  lemma {:induction false} FoundByThen(s: string, sep: string, lo: nat, i: nat)
    requires lo <= i <= |s| && OccursAt(s, sep, i)
    ensures FindFrom(s, sep, lo).Some? && FindFrom(s, sep, lo).value <= i
    decreases i - lo
  {
    if lo < i {
      FoundByThen(s, sep, lo + 1, i);
    }
  }

  /** The location is read back, by the two broadcasts with the blank before it. */
  lemma {:induction false} LocationReadBack(name: string, location: string)
    requires !Contains(name, AT) && '(' !in location && ')' !in location
    ensures LocationOf(Printed(name, location), AT_SPACE) == Some(location)
    ensures LocationOf(Printed(name, location), AT) == Some(" " + location)
  {
    ReadAfter(name, location, AT_SPACE);
    ReadAfter(name, " " + location, AT);
    assert Printed(name, location) == name + AT_SPACE + (location + ")") == name + AT + ((" " + location) + ")");
  }

  lemma {:induction false} ReadAfter(name: string, location: string, sep: string)
    requires !Contains(name, AT) && (sep == AT || sep == AT_SPACE) && '(' !in location && ')' !in location
    ensures LocationOf(name + sep + (location + ")"), sep) == Some(location)
  {
    var rest := location + ")";
    var s := name + sep + rest;
    SeparatorEndsName(name, rest, sep);
    assert s[|name| + |sep|..] == rest && s[..|name|] == name;
    NoBracket(rest, sep);
    NoOccurrence(rest, sep, 0);
    assert Split(rest, sep) == [rest];
    assert Split(s, sep)[1] == rest;
    forall j | 0 <= j < |location| ensures !OccursAt(rest, ")", j) {
      assert rest[j] == location[j] && rest[j..j + 1] == [rest[j]] && location[j] != ')';
    }
    assert rest[|location|..|location| + 1] == ")";
    FirstOccurrence(rest, ")", 0, |location|);
    assert Split(rest, ")")[0] == rest[..|location|] == location;
  }

  lemma {:induction false} NoBracket(s: string, sep: string)
    requires '(' !in s && (sep == AT || sep == AT_SPACE)
    ensures !Contains(s, sep)
  {
    forall j | 0 <= j <= |s| ensures !OccursAt(s, sep, j) {
      if j + |sep| <= |s| {
        assert s[j..j + |sep|][1] == s[j + 1] && s[j + 1] in s && sep[1] == '(';
      }
    }
  }

  /** A report of a printed peer is recorded with that peer's name and location and with what else it reports: a
      get names the peer asked, an update the contract without its location. */
  lemma {:induction false} PrintedReportIsRecorded(r: Report, name: string, location: string, other: string, otherLocation: string)
    requires !Contains(name, AT) && '(' !in location && ')' !in location && r.requester == Printed(name, location)
    requires !Contains(other, AT) && '(' !in otherLocation && ')' !in otherLocation
    requires r.kind.BroadcastEmitted? ==> r.upstream == Printed(other, otherLocation)
    requires r.kind.GetContract? ==> r.targets == [Printed(other, otherLocation)]
    requires r.kind.Update? ==> r.contract == Printed(other, otherLocation)
    ensures Build(r).Some?
    ensures var e := Build(r).value;
            && e.change == r.change && e.tx == r.tx && e.timestamp == r.timestamp && e.location == r.location
            && e.requester == name && e.requesterLocation == (if IsBroadcast(r.kind) then " " + location else location)
            && e.contract == (if r.kind.Update? then other else r.contract)
            && e.targets == if r.kind.GetContract? then [other] else r.targets
  {
    hide LocationOf, NameOf, UniqueId, Contains;
    LocationReadBack(name, location);
    LocationReadBack(other, otherLocation);
    NameReadBackIff(name, location);
    NameReadBackIff(other, otherLocation);
  }

  lemma {:induction false} LocatedIff(peer: string, sep: string)
    requires sep != ""
    ensures LocationOf(peer, sep).Some? <==> Contains(peer, sep)
  {
    if Contains(peer, sep) {
      var i :| 0 <= i <= |peer| && OccursAt(peer, sep, i);
      FoundByThen(peer, sep, 0, i);
    } else {
      NoOccurrence(peer, sep, 0);
    }
  }

  /** A report parses exactly when every peer whose location it reads is printed with one. */
  lemma {:induction false} ParsesIff(r: Report)
    ensures Build(r).Some? <==>
              && Contains(r.requester, if IsBroadcast(r.kind) then AT else AT_SPACE)
              && (r.kind.BroadcastEmitted? ==> Contains(r.upstream, AT))
              && (r.kind.GetContract? ==> r.targets != [] && Contains(r.targets[0], AT_SPACE))
  {
    hide LocationOf, NameOf, UniqueId, Contains;
    LocatedIff(r.requester, if IsBroadcast(r.kind) then AT else AT_SPACE);
    LocatedIff(r.upstream, AT);
    if r.targets != [] {
      LocatedIff(r.targets[0], AT_SPACE);
    }
  }

  /** A handler throws exactly on a report that does not parse, on a put success or broadcast of a transaction
      without a list, and on a new broadcast for a contract without one. */
  lemma {:induction false} ThrowsIff(s: State, r: Report)
    ensures Handle(s, r).threw <==>
              || Build(r) == None
              || ((r.kind.PutSuccess? || IsBroadcast(r.kind)) && r.tx !in s.txs)
              || (IsBroadcast(r.kind) && r.contract !in s.contracts && !Seen(List(s.txs, r.tx), Build(r).value.uniqueId))
  {
    hide LocationOf, NameOf, UniqueId;
  }

  // ---------------------------------------------------------------- what counts as a repetition

  predicate SameParties(r: Report, q: Report) {
    r.tx == q.tx && r.contract == q.contract && r.targets == q.targets && r.requester == q.requester
  }

  /** Two put reports of the same parties are repetitions of each other exactly when they report the same change;
      two broadcasts always are. */
  lemma {:induction false} SameIdIff(r: Report, q: Report)
    requires SameParties(r, q) && Build(r).Some? && Build(q).Some? && Deduplicates(r.kind) && Deduplicates(q.kind)
    requires IsBroadcast(r.kind) == IsBroadcast(q.kind)
    ensures Build(r).value.uniqueId == Build(q).value.uniqueId <==> IsBroadcast(r.kind) || r.change == q.change
  {
    hide LocationOf, NameOf;
    var base := r.tx + r.contract + (if r.targets == [] then "undefined" else r.targets[0]) + NameOf(r.requester);
    if !IsBroadcast(r.kind) {
      assert (base + r.change)[|base|..] == r.change && (base + q.change)[|base|..] == q.change;
    }
  }

  /** A put's success is recorded after its request, in whatever state the request was. */
  lemma {:induction false} SuccessIsRecorded(s: State, r: Report, q: Report)
    requires SameParties(r, q) && r.kind.PutRequest? && q.kind.PutSuccess? && r.change != q.change
    requires Handle(s, r).recorded.Some? && Build(q).Some?
    ensures var w := Handle(Handle(s, r).state, q);
            && w.recorded == Some(Record(Build(q).value, Append)) && !w.threw
            && List(w.state.txs, r.tx) == [Build(r).value, Build(q).value]
            && var list := List(w.state.contracts, r.contract);
               |list| >= 2 && list[|list| - 2..] == [Build(r).value, Build(q).value]
  {
    hide LocationOf, NameOf, UniqueId;
    SameIdIff(r, q);
    var a, b := Build(r).value, Build(q).value;
    var t := Handle(s, r).state;
    assert List(t.txs, r.tx) == [a] && !Seen(List(t.txs, r.tx), b.uniqueId);
    var list := List(s.contracts, r.contract);
    assert (list + [a] + [b])[|list|..] == [a, b];
  }

  /** The parts of an id are run together, so different reports can pass for repetitions; when the parts have
      the same lengths they cannot. */
  lemma {:induction false} EqualLengthsTellApart(r: Report, q: Report)
    requires Build(r).Some? && Build(q).Some? && r.kind == q.kind && Deduplicates(r.kind) && r.targets != [] && q.targets != []
    requires |r.tx| == |q.tx| && |r.contract| == |q.contract| && |r.targets[0]| == |q.targets[0]|
    requires |NameOf(r.requester)| == |NameOf(q.requester)|
    ensures Build(r).value.uniqueId == Build(q).value.uniqueId <==>
              && r.tx == q.tx && r.contract == q.contract && r.targets[0] == q.targets[0]
              && NameOf(r.requester) == NameOf(q.requester) && (IsBroadcast(r.kind) || r.change == q.change)
  {
    hide LocationOf, NameOf;
    var a := r.tx + r.contract + r.targets[0] + NameOf(r.requester) + (if IsBroadcast(r.kind) then "" else r.change);
    var b := q.tx + q.contract + q.targets[0] + NameOf(q.requester) + (if IsBroadcast(q.kind) then "" else q.change);
    assert Build(r).value.uniqueId == a && Build(q).value.uniqueId == b;
    PartsOf(r.tx, r.contract, r.targets[0], NameOf(r.requester), if IsBroadcast(r.kind) then "" else r.change, a);
    PartsOf(q.tx, q.contract, q.targets[0], NameOf(q.requester), if IsBroadcast(q.kind) then "" else q.change, b);
  }

  lemma {:induction false} PartsOf(a: string, b: string, c: string, d: string, e: string, s: string)
    requires s == a + b + c + d + e
    ensures a == s[..|a|] && b == s[|a|..|a + b|] && c == s[|a + b|..|a + b + c|] && d == s[|a + b + c|..|a + b + c + d|]
    ensures e == s[|a + b + c + d|..]
  {
  }

  // ---------------------------------------------------------------- two sessions that disagree

  /** Puts of contract "cq" to peer "r" and of contract "c" to peer "qr" pass for the same. */
  lemma {:induction false} DifferentPutsOneId()
    ensures var r, q := Sample(PutRequest, "cq", "x").(targets := ["r"]), Sample(PutRequest, "c", "x").(targets := ["qr"]);
            && Handle(State(map[], map[]), r).recorded.Some? && Build(q).Some?
            && Handle(Handle(State(map[], map[]), r).state, q).recorded == None
  {
    hide LocationOf, NameOf;
    SampleLocation(AT_SPACE);
    var r, q := Sample(PutRequest, "cq", "x").(targets := ["r"]), Sample(PutRequest, "c", "x").(targets := ["qr"]);
    assert "t" + "cq" + "r" == "t" + "c" + "qr";
    assert Build(r).value.uniqueId == Build(q).value.uniqueId;
    var t := Handle(State(map[], map[]), r).state;
    assert t.txs["t"][0].uniqueId == Build(q).value.uniqueId;
  }

  /** A report by the peer printed as `p (@ 0)`. */
  function Sample(kind: Kind, contract: string, change: string): Report {
    Report(kind, "t", contract, ["q"], "p (@ 0)", "", change, 0, "0")
  }

  lemma {:induction false} SampleLocation(sep: string)
    requires sep == AT || sep == AT_SPACE
    ensures LocationOf("p (@ 0)", sep).Some?
  {
    var s := "p (@ 0)";
    assert s[0..|sep|][0] == 'p' && !OccursAt(s, sep, 0);
    assert s[1..4] == AT && s[1..5] == AT_SPACE;
    assert FindFrom(s, sep, 0) == FindFrom(s, sep, 1) == Some(1);
  }

  lemma {:induction false} SampleParses(kind: Kind, contract: string, change: string)
    requires kind.PutRequest? || kind.Subscribed? || kind.BroadcastReceived?
    requires |contract| == 1
    ensures var e := Build(Sample(kind, contract, change));
            e.Some? && e.value.tx == "t" && e.value.contract == contract
            && |e.value.uniqueId| > 1 && e.value.uniqueId[1] == contract[0]
  {
    hide LocationOf, Split;
    SampleLocation(if IsBroadcast(kind) then AT else AT_SPACE);
  }

  /** Two put requests under one transaction: the transaction's list forgets the first contract, whose
      own list still has it. */
  lemma SecondPutForgets(r0: Report, r1: Report, e0: Entry, e1: Entry)
    requires r0.kind.PutRequest? && r1.kind.PutRequest? && Build(r0) == Some(e0) && Build(r1) == Some(e1)
    requires e0.tx == e1.tx && e0.contract != e1.contract && e0.uniqueId != e1.uniqueId
    ensures OfContract(List(Run([r0, r1]).txs, e0.tx), e0.contract) == []
    ensures OfTx(List(Run([r0, r1]).contracts, e0.contract), e0.tx) == [e0]
  {
    hide Build;
    TwoSteps(r0, r1);
    var s0 := Handle(State(map[], map[]), r0).state;
    assert s0.txs == map[e0.tx := [e0]] && s0.contracts[e0.contract] == [e0];
    assert Handle(s0, r1).state.txs[e0.tx] == [e1];
    assert [e1][..0] == [] && [e0][..0] == [];
  }

  lemma SecondPutForgetsTheFirst()
    ensures var rs := [Sample(PutRequest, "c", "x"), Sample(PutRequest, "d", "x")];
            && OfContract(List(Run(rs).txs, "t"), "c") == []
            && |OfTx(List(Run(rs).contracts, "c"), "t")| == 1
  {
    hide Build, Run, OfTx, OfContract;
    var r0, r1 := Sample(PutRequest, "c", "x"), Sample(PutRequest, "d", "x");
    SampleParses(PutRequest, "c", "x");
    SampleParses(PutRequest, "d", "x");
    SecondPutForgets(r0, r1, Build(r0).value, Build(r1).value);
  }

  /** A broadcast for a contract that was never recorded: the handler throws with the record on the
      transaction's list only. */
  lemma BroadcastHalfWay(r0: Report, r1: Report, e0: Entry, e1: Entry)
    requires r0.kind.Subscribed? && r1.kind.BroadcastReceived? && Build(r0) == Some(e0) && Build(r1) == Some(e1)
    requires e0.tx == e1.tx && e0.contract != e1.contract && e0.uniqueId != e1.uniqueId
    ensures Handle(Run([r0]), r1).threw
    ensures OfContract(List(Run([r0, r1]).txs, e1.tx), e1.contract) == [e1]
    ensures OfTx(List(Run([r0, r1]).contracts, e1.contract), e1.tx) == []
  {
    hide Build;
    TwoSteps(r0, r1);
    var s0 := Handle(State(map[], map[]), r0).state;
    assert s0.txs[e0.tx] == [e0] && s0.contracts.Keys == {e0.contract};
    assert Handle(s0, r1).state.txs[e0.tx] == [e0, e1];
    OfContractSnoc([e0], e1, e1.contract);
    OfContractSnoc([], e0, e1.contract);
    assert [e0] + [e1] == [e0, e1] && [] + [e0] == [e0];
  }

  lemma BroadcastIsRecordedHalfWay()
    ensures var rs := [Sample(Subscribed, "c", "x"), Sample(BroadcastReceived, "d", "x")];
            && |OfContract(List(Run(rs).txs, "t"), "d")| == 1
            && OfTx(List(Run(rs).contracts, "d"), "t") == []
  {
    hide Build, Run, OfTx, OfContract;
    var r0, r1 := Sample(Subscribed, "c", "x"), Sample(BroadcastReceived, "d", "x");
    SampleParses(Subscribed, "c", "x");
    SampleParses(BroadcastReceived, "d", "x");
    BroadcastHalfWay(r0, r1, Build(r0).value, Build(r1).value);
  }

  lemma TwoSteps(r0: Report, r1: Report)
    ensures Run([r0]) == Handle(State(map[], map[]), r0).state
    ensures Run([r0, r1]) == Handle(Handle(State(map[], map[]), r0).state, r1).state
  {
    hide Handle;
    assert [r0, r1][..1] == [r0] && [r0][..0] == [];
  }

  // ---------------------------------------------------------------- the indices in place

  class TransactionIndex {
    var allTx: Index
    var allContracts: Index

    constructor ()
      ensures allTx == map[] && allContracts == map[]
    {
      allTx, allContracts := map[], map[];
    }

    ghost function View(): State
      reads this
    {
      State(allTx, allContracts)
    }

    method PutRequest(r: Report) returns (threw: bool)
      requires r.kind.PutRequest?
      modifies this
      ensures View() == Handle(old(View()), r).state && threw == Handle(old(View()), r).threw
    {
      var parsed := Build(r);
      if parsed == None {
        return true;
      }
      var data := parsed.value;
      if data.tx in allTx && Seen(allTx[data.tx], data.uniqueId) {
        return false;
      }
      allTx := allTx[data.tx := [data]];
      if data.contract !in allContracts {
        allContracts := allContracts[data.contract := []];
      }
      allContracts := allContracts[data.contract := allContracts[data.contract] + [data]];
      threw := false;
      assert allContracts == Push(old(allContracts), data.contract, data);
    }

    method PutSuccess(r: Report) returns (threw: bool)
      requires r.kind.PutSuccess?
      modifies this
      ensures View() == Handle(old(View()), r).state && threw == Handle(old(View()), r).threw
    {
      var parsed := Build(r);
      if parsed == None {
        return true;
      }
      var data := parsed.value;
      if data.tx in allTx && Seen(allTx[data.tx], data.uniqueId) {
        return false;
      }
      if data.tx !in allTx {
        return true;
      }
      allTx := allTx[data.tx := allTx[data.tx] + [data]];
      if data.contract !in allContracts {
        allContracts := allContracts[data.contract := []];
      }
      allContracts := allContracts[data.contract := allContracts[data.contract] + [data]];
      threw := false;
      assert allContracts == Push(old(allContracts), data.contract, data);
    }

    /** Emitted and received broadcasts: the missing contract is logged, and the append still throws. */
    method Broadcast(r: Report) returns (threw: bool)
      requires IsBroadcast(r.kind)
      modifies this
      ensures View() == Handle(old(View()), r).state && threw == Handle(old(View()), r).threw
    {
      var parsed := Build(r);
      if parsed == None {
        return true;
      }
      var data := parsed.value;
      if data.tx in allTx && Seen(allTx[data.tx], data.uniqueId) {
        return false;
      }
      if data.tx !in allTx {
        return true;
      }
      allTx := allTx[data.tx := allTx[data.tx] + [data]];
      if data.contract !in allContracts {
        return true;
      }
      allContracts := allContracts[data.contract := allContracts[data.contract] + [data]];
      threw := false;
    }

    /** Gets, subscriptions and updates append to both lists, whatever is there. */
    method Append(r: Report) returns (threw: bool)
      requires !Deduplicates(r.kind)
      modifies this
      ensures View() == Handle(old(View()), r).state && threw == Handle(old(View()), r).threw
    {
      var parsed := Build(r);
      if parsed == None {
        return true;
      }
      var data := parsed.value;
      if data.tx in allTx {
        allTx := allTx[data.tx := allTx[data.tx] + [data]];
      } else {
        allTx := allTx[data.tx := [data]];
      }
      if data.contract in allContracts {
        allContracts := allContracts[data.contract := allContracts[data.contract] + [data]];
      } else {
        allContracts := allContracts[data.contract := [data]];
      }
      threw := false;
      assert [] + [data] == [data];
    }
  }
}
