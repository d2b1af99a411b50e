/** The gateway list: merging two lists without repeating an address, and the `--gateway` entries of the
    command line, whose keys are written to one file per address. */
module Gateways {
  import opened Messages

  type SocketAddr = string
  type Key = string

  datatype Address = Hostname(name: string) | HostAddress(socket: SocketAddr)

  /** `CliKey` is the file the command line writes for an address; the name encodes the address. */
  datatype KeyPath = CliKey(socket: SocketAddr) | OtherPath(path: string)

  datatype Gateway = Gateway(address: Address, keyPath: KeyPath, location: Option<real>)

  function Addresses(s: seq<Gateway>): set<Address> {
    set g <- s :: g.address
  }

  /** The entries whose address does not occur earlier. */
  function Dedup(s: seq<Gateway>): seq<Gateway> {
    if s == [] then [] else
    var before, g := s[..|s| - 1], s[|s| - 1];
    if g.address in Addresses(before) then Dedup(before) else Dedup(before) + [g]
  }

  function Merge(a: seq<Gateway>, b: seq<Gateway>): seq<Gateway> {
    Dedup(a + b)
  }

  predicate Distinct(s: seq<Gateway>) {
    forall i, j :: 0 <= i < j < |s| ==> s[i].address != s[j].address
  }

  function Without(s: seq<Gateway>, drop: set<Address>): seq<Gateway> {
    if s == [] then [] else
    var g := s[|s| - 1];
    Without(s[..|s| - 1], drop) + if g.address in drop then [] else [g]
  }

  /** The first entry for an address. */
  function Lookup(s: seq<Gateway>, a: Address): Option<Gateway> {
    if s == [] then None
    else if s[0].address == a then Some(s[0])
    else Lookup(s[1..], a)
  }

  // ---------------------------------------------------------------- laws of the merge

  lemma AddressesSplit(a: seq<Gateway>, b: seq<Gateway>)
    ensures Addresses(a + b) == Addresses(a) + Addresses(b)
  {
    forall x ensures x in Addresses(a + b) <==> x in Addresses(a) + Addresses(b) {
      if x in Addresses(a) {
        var i :| 0 <= i < |a| && a[i].address == x;
        assert (a + b)[i].address == x;
      }
      if x in Addresses(b) {
        var i :| 0 <= i < |b| && b[i].address == x;
        assert (a + b)[|a| + i].address == x;
      }
    }
  }

  lemma {:induction false} DedupNone()
    ensures Addresses([]) == {} && Dedup([]) == []
  {
  }

  lemma {:induction false} DedupNext(s: seq<Gateway>, i: nat)
    requires i < |s|
    ensures Addresses(s[..i + 1]) == Addresses(s[..i]) + {s[i].address}
    ensures Dedup(s[..i + 1]) == if s[i].address in Addresses(s[..i]) then Dedup(s[..i]) else Dedup(s[..i]) + [s[i]]
  {
    assert s[..i + 1] == s[..i] + [s[i]] && s[..i + 1][..i] == s[..i];
    AddressesSplit(s[..i], [s[i]]);
    assert Addresses([s[i]]) == {s[i].address};
  }

  /** No address twice, no address lost. */
  lemma {:induction false} DedupIsDistinct(s: seq<Gateway>)
    ensures Distinct(Dedup(s)) && Addresses(Dedup(s)) == Addresses(s)
  {
    if s != [] {
      var before, g := s[..|s| - 1], s[|s| - 1];
      DedupIsDistinct(before);
      assert s == before + [g];
      AddressesSplit(before, [g]);
      AddressesSplit(Dedup(before), [g]);
      if g.address !in Addresses(before) {
        assert forall i :: 0 <= i < |Dedup(before)| ==> Dedup(before)[i].address in Addresses(Dedup(before));
      }
    }
  }

  lemma {:induction false} DistinctIsKept(s: seq<Gateway>)
    requires Distinct(s)
    ensures Dedup(s) == s
  {
    if s != [] {
      DistinctIsKept(s[..|s| - 1]);
    }
  }

  /** The left list comes through on its own; of the right list, what the left does not have. */
  lemma {:induction false} MergeSplit(a: seq<Gateway>, b: seq<Gateway>)
    ensures Merge(a, b) == Dedup(a) + Without(Dedup(b), Addresses(a))
  {
    if b == [] {
      assert a + b == a;
    } else {
      var before, g := b[..|b| - 1], b[|b| - 1];
      MergeSplit(a, before);
      assert (a + b)[..|a + b| - 1] == a + before;
      AddressesSplit(a, before);
      if g.address !in Addresses(before) {
        assert (Dedup(before) + [g])[..|Dedup(before)|] == Dedup(before);
      }
    }
  }

  /** Merging is idempotent and associative, and a list that was merged before can be merged again. */
  lemma MergeLaws(a: seq<Gateway>, b: seq<Gateway>, c: seq<Gateway>)
    ensures Merge(Dedup(a), b) == Merge(a, b) == Merge(a, Dedup(b))
    ensures Merge(Merge(a, b), c) == Merge(a, Merge(b, c))
    ensures Merge(Merge(a, b), b) == Merge(a, b) == Merge(a, Merge(a, b))
  {
    hide Dedup;
    MergeAbsorbs(a, b);
    MergeAbsorbs(a + b, c);
    MergeAbsorbs(a, b + c);
    assert a + b + c == a + (b + c);
    MergeTwice(a, b);
  }

  lemma MergeAbsorbs(a: seq<Gateway>, b: seq<Gateway>)
    ensures Merge(Dedup(a), b) == Merge(a, b) == Merge(a, Dedup(b))
  {
    hide Dedup, Merge, Without;
    DedupIsDistinct(a);
    DedupIsDistinct(b);
    DistinctIsKept(Dedup(a));
    DistinctIsKept(Dedup(b));
    MergeSplit(Dedup(a), b);
    MergeSplit(a, b);
    MergeSplit(a, Dedup(b));
  }

  /** A list whose addresses the left list has adds nothing. */
  lemma MergeCovered(a: seq<Gateway>, b: seq<Gateway>)
    requires Addresses(b) <= Addresses(a)
    ensures Merge(a, b) == Dedup(a)
  {
    hide Dedup, Merge, Addresses;
    MergeSplit(a, b);
    DedupIsDistinct(b);
    NothingLeft(Dedup(b), Addresses(a));
  }

  lemma MergeTwice(a: seq<Gateway>, b: seq<Gateway>)
    ensures Merge(Merge(a, b), b) == Merge(a, b) == Merge(a, Merge(a, b))
  {
    hide Dedup, Addresses;
    AddressesSplit(a, b);
    MergeAbsorbs(a + b, b);
    MergeCovered(a + b, b);
    MergeAbsorbs(a, a + b);
    assert a + (a + b) == (a + a) + b;
    MergeAbsorbs(a + a, b);
    MergeCovered(a, a);
    MergeAbsorbs(a, b);
  }

  lemma {:induction false} NothingLeft(s: seq<Gateway>, drop: set<Address>)
    requires Addresses(s) <= drop
    ensures Without(s, drop) == []
  {
    if s != [] {
      assert s[|s| - 1].address in Addresses(s);
      forall x | x in Addresses(s[..|s| - 1]) ensures x in Addresses(s) {
        var i :| 0 <= i < |s| - 1 && s[i].address == x;
        assert s[i] in s;
      }
      NothingLeft(s[..|s| - 1], drop);
    }
  }

  lemma {:induction false} LookupSplit(a: seq<Gateway>, b: seq<Gateway>, x: Address)
    ensures Lookup(a + b, x) == if x in Addresses(a) then Lookup(a, x) else Lookup(b, x)
    ensures Lookup(a, x).Some? <==> x in Addresses(a)
  {
    if a == [] {
      assert a + b == b;
    } else {
      LookupSplit(a[1..], b, x);
      assert (a + b)[1..] == a[1..] + b;
      assert a == [a[0]] + a[1..];
      AddressesSplit([a[0]], a[1..]);
      assert a[0].address in Addresses([a[0]]);
    }
  }

  /** An address resolves to the same entry before and after. */
  lemma {:induction false} LookupKept(s: seq<Gateway>, x: Address)
    ensures Lookup(Dedup(s), x) == Lookup(s, x)
  {
    if s != [] {
      var before, g := s[..|s| - 1], s[|s| - 1];
      LookupKept(before, x);
      DedupIsDistinct(before);
      LookupSplit(before, [g], x);
      LookupSplit(Dedup(before), [g], x);
      assert s == before + [g];
    }
  }

  /** On a collision the left list's entry is the one that stays; every other address resolves as the
      right list had it. */
  lemma LeftWins(a: seq<Gateway>, b: seq<Gateway>, x: Address)
    ensures Lookup(Merge(a, b), x) == if x in Addresses(a) then Lookup(a, x) else Lookup(b, x)
  {
    LookupKept(a + b, x);
    LookupSplit(a, b, x);
  }

  // ---------------------------------------------------------------- the list in place

  class GatewayList {
    var gateways: seq<Gateway>

    constructor (gateways: seq<Gateway>)
      ensures this.gateways == gateways
    {
      this.gateways := gateways;
    }

    method MergeAndDeduplicate(other: seq<Gateway>)
      modifies this
      ensures gateways == Merge(old(gateways), other)
    {
      hide Dedup, Addresses;
      DedupNone();
      var seen: set<Address>, merged := {}, [];
      var chain := gateways + other;
      var i := 0;
      while i < |chain|
        invariant 0 <= i <= |chain|
        invariant seen == Addresses(chain[..i]) && merged == Dedup(chain[..i])
      {
        var gw := chain[i];
        DedupNext(chain, i);
        if gw.address !in seen {
          seen := seen + {gw.address};
          merged := merged + [gw];
        }
        i := i + 1;
      }
      assert chain[..|chain|] == chain;
      gateways := merged;
    }
  }

  // ---------------------------------------------------------------- `--gateway` entries

  datatype Entry = Entry(socket: SocketAddr, key: Key)

  type Files = map<KeyPath, Key>

  function CliGateway(e: Entry): Gateway {
    Gateway(HostAddress(e.socket), CliKey(e.socket), None)
  }

  function CliGateways(es: seq<Entry>): seq<Gateway> {
    seq(|es|, i requires 0 <= i < |es| => CliGateway(es[i]))
  }

  /** Starting up deletes the key files of earlier runs. */
  function Cleaned(files: Files): Files {
    map p | p in files && p.OtherPath? :: files[p]
  }

  /** Parsing an entry writes its key. */
  function Written(files: Files, es: seq<Entry>): Files {
    if es == [] then files else
    var e := es[|es| - 1];
    Written(files, es[..|es| - 1])[CliKey(e.socket) := e.key]
  }

  /** Every entry parsed, or the first entry that does not parse. */
  function ParseAll(entries: seq<string>, parse: string -> Result<Entry, string>): Result<seq<Entry>, string> {
    if entries == [] then Ok([]) else
    var before := ParseAll(entries[..|entries| - 1], parse);
    if before.Err? then before else
    var last := parse(entries[|entries| - 1]);
    if last.Err? then Err(last.error) else Ok(before.value + [last.value])
  }

  predicate Names(es: seq<Entry>, a: SocketAddr) {
    exists i :: 0 <= i < |es| && es[i].socket == a
  }

  function FirstKey(es: seq<Entry>, a: SocketAddr): Key
    requires Names(es, a)
  {
    if es[0].socket == a then es[0].key else FirstKey(es[1..], a)
  }

  function LastKey(es: seq<Entry>, a: SocketAddr): Key
    requires Names(es, a)
  {
    if es[|es| - 1].socket == a then es[|es| - 1].key else LastKey(es[..|es| - 1], a)
  }

  /** The key the node will use for an address: what is in the file its entry points at. */
  function KeyInUse(gateways: seq<Gateway>, files: Files, a: SocketAddr): Option<Key> {
    match Lookup(gateways, HostAddress(a))
    case None => None
    case Some(g) => if g.keyPath in files then Some(files[g.keyPath]) else None
  }

  /** Skipping a repeated entry in the command-line loop changes nothing that the merge would not do. */
  lemma SkippingIsRedundant(es: seq<Entry>, loaded: seq<Gateway>)
    ensures Merge(Dedup(CliGateways(es)), loaded) == Merge(CliGateways(es), loaded)
  {
    MergeAbsorbs(CliGateways(es), loaded);
  }

  lemma CliAddresses(es: seq<Entry>, a: SocketAddr)
    ensures HostAddress(a) in Addresses(CliGateways(es)) <==> Names(es, a)
  {
    var gs := CliGateways(es);
    if Names(es, a) {
      var i :| 0 <= i < |es| && es[i].socket == a;
      assert gs[i].address == HostAddress(a) && gs[i] in gs;
    }
  }

  lemma {:induction false} CliLookup(es: seq<Entry>, a: SocketAddr)
    requires Names(es, a)
    ensures Lookup(CliGateways(es), HostAddress(a)) == Some(Gateway(HostAddress(a), CliKey(a), None))
  {
    if es[0].socket != a {
      assert Names(es[1..], a) by {
        var i :| 0 <= i < |es| && es[i].socket == a;
        assert es[1..][i - 1].socket == a;
      }
      CliLookup(es[1..], a);
      assert CliGateways(es)[1..] == CliGateways(es[1..]);
    }
  }

  lemma {:induction false} LastWriteStays(files: Files, es: seq<Entry>, a: SocketAddr)
    requires Names(es, a)
    ensures CliKey(a) in Written(files, es) && Written(files, es)[CliKey(a)] == LastKey(es, a)
  {
    if es[|es| - 1].socket != a {
      assert Names(es[..|es| - 1], a) by {
        var i :| 0 <= i < |es| && es[i].socket == a;
        assert es[..|es| - 1][i].socket == a;
      }
      LastWriteStays(files, es[..|es| - 1], a);
    }
  }

  /** A command-line address takes the place of a loaded one, but of several command-line keys for one
      address the last is used, although the first entry is the one kept. So the first entry wins
      exactly when the last repeats its key. */
  lemma KeyOfCliGateway(files: Files, es: seq<Entry>, loaded: seq<Gateway>, a: SocketAddr)
    requires Names(es, a)
    ensures KeyInUse(Merge(CliGateways(es), loaded), Written(files, es), a) == Some(LastKey(es, a))
    ensures KeyInUse(Merge(CliGateways(es), loaded), Written(files, es), a) == Some(FirstKey(es, a))
       <==> FirstKey(es, a) == LastKey(es, a)
  {
    CliAddresses(es, a);
    LeftWins(CliGateways(es), loaded, HostAddress(a));
    CliLookup(es, a);
    LastWriteStays(files, es, a);
  }

  function FileAt(files: Files, p: KeyPath): Option<Key> {
    if p in files then Some(files[p]) else None
  }

  /** What start-up leaves in a file: the command line's own files hold the last key given for their address, or
      are gone; every other file is left as it was. */
  lemma {:induction false} FilesAfterStartup(files: Files, es: seq<Entry>, p: KeyPath)
    ensures FileAt(Written(Cleaned(files), es), p) ==
            match p
            case OtherPath(_) => FileAt(files, p)
            case CliKey(a) => if Names(es, a) then Some(LastKey(es, a)) else None
    decreases |es|
  {
    if es != [] {
      var before, last := es[..|es| - 1], es[|es| - 1];
      FilesAfterStartup(files, before, p);
      if p.CliKey? {
        assert Names(es, p.socket) <==> Names(before, p.socket) || last.socket == p.socket by {
          assert es == before + [last];
          if Names(before, p.socket) {
            var i :| 0 <= i < |before| && before[i].socket == p.socket;
            assert es[i].socket == p.socket;
          }
        }
      }
    }
  }

  /** A loaded gateway that is not named on the command line keeps its entry and its own key file. */
  lemma {:induction false} LoadedGatewayIsKept(files: Files, es: seq<Entry>, loaded: seq<Gateway>, g: Gateway)
    requires Lookup(loaded, g.address) == Some(g) && g.keyPath.OtherPath? && g.address !in Addresses(CliGateways(es))
    ensures Lookup(Merge(CliGateways(es), loaded), g.address) == Some(g)
    ensures FileAt(Written(Cleaned(files), es), g.keyPath) == FileAt(files, g.keyPath)
  {
    hide Written, Cleaned, Dedup, CliGateways;
    FilesAfterStartup(files, es, g.keyPath);
    LeftWins(CliGateways(es), loaded, g.address);
  }

  /** Two keys for one address: the second entry is skipped, and its key is the one used. */
  lemma SkippedEntryReplacesTheKey(files: Files)
    ensures var es := [Entry("10.0.0.1:31337", "a"), Entry("10.0.0.1:31337", "b")];
            && Merge(CliGateways(es), []) == [CliGateway(es[0])]
            && KeyInUse(Merge(CliGateways(es), []), Written(files, es), "10.0.0.1:31337") == Some("b")
  {
    var es := [Entry("10.0.0.1:31337", "a"), Entry("10.0.0.1:31337", "b")];
    var gs := CliGateways(es);
    assert Names(es, "10.0.0.1:31337") by { assert es[0].socket == "10.0.0.1:31337"; }
    KeyOfCliGateway(files, es, [], "10.0.0.1:31337");
    assert gs + [] == gs == [CliGateway(es[0])] + [CliGateway(es[0])];
    assert Dedup(gs[..1]) == [gs[0]] by { assert gs[..1][..0] == []; }
    assert gs[0] in gs[..1];
  }

  class Startup {
    var gateways: GatewayList
    var files: Files

    constructor (loaded: GatewayList, files: Files)
      ensures gateways == loaded && this.files == files
    {
      this.gateways, this.files := loaded, files;
    }

    /** The loop over the `--gateway` entries, and the merge that follows it. */
    method AddCliGateways(entries: seq<string>, parse: string -> Result<Entry, string>)
      returns (r: Result<seq<Entry>, string>, ghost at: nat)
      modifies this
      ensures r == ParseAll(entries, parse)
      ensures r.Err? ==>
                && gateways == old(gateways)
                && at < |entries| && parse(entries[at]) == Err(r.error) && ParseAll(entries[..at], parse).Ok?
                && files == Written(Cleaned(old(files)), ParseAll(entries[..at], parse).value)
      ensures r.Ok? ==> gateways.gateways == Merge(CliGateways(r.value), old(gateways.gateways))
      ensures r.Ok? ==> files == Written(Cleaned(old(files)), r.value)
    {
      hide Dedup, CliGateways, Addresses, Written, ParseAll, Merge;
      EmptyCli(Cleaned(files), parse);
      files := map p | p in files && p.OtherPath? :: files[p];
      var cli: seq<Gateway>, seenAddrs: set<Address> := [], {};
      var parsed: seq<Entry>, i := [], 0;
      while i < |entries|
        invariant 0 <= i <= |entries| && unchanged(this`gateways)
        invariant ParseAll(entries[..i], parse) == Ok(parsed)
        invariant files == Written(Cleaned(old(files)), parsed)
        invariant cli == Dedup(CliGateways(parsed)) && seenAddrs == Addresses(CliGateways(parsed))
      {
        var e := parse(entries[i]);
        ParseNext(entries, parse, i);
        if e.Err? {
          FirstFailure(entries, parse, i + 1);
          return Err(e.error), i;
        }
        CliNext(Cleaned(old(files)), parsed, e.value);
        files := files[CliKey(e.value.socket) := e.value.key];
        var gw := CliGateway(e.value);
        parsed := parsed + [e.value];
        if gw.address !in seenAddrs {
          seenAddrs := seenAddrs + {gw.address};
          cli := cli + [gw];
        }
        i := i + 1;
      }
      assert entries[..|entries|] == entries;
      MergeAbsorbs(CliGateways(parsed), gateways.gateways);
      var merged := new GatewayList(cli);
      merged.MergeAndDeduplicate(gateways.gateways);
      gateways := merged;
      r, at := Ok(parsed), 0;
    }
  }

  lemma EmptyCli(files: Files, parse: string -> Result<Entry, string>)
    ensures ParseAll([], parse) == Ok([]) && Written(files, []) == files
    ensures Dedup(CliGateways([])) == [] && Addresses(CliGateways([])) == {}
  {
  }

  lemma ParseNext(entries: seq<string>, parse: string -> Result<Entry, string>, i: nat)
    requires i < |entries| && ParseAll(entries[..i], parse).Ok?
    ensures ParseAll(entries[..i + 1], parse)
         == match parse(entries[i]) {
              case Err(error) => Err(error)
              case Ok(e) => Ok(ParseAll(entries[..i], parse).value + [e])
            }
  {
    assert entries[..i + 1][..i] == entries[..i];
  }

  lemma CliNext(files: Files, es: seq<Entry>, e: Entry)
    ensures Written(files, es + [e]) == Written(files, es)[CliKey(e.socket) := e.key]
    ensures Addresses(CliGateways(es + [e])) == Addresses(CliGateways(es)) + {CliGateway(e).address}
    ensures Dedup(CliGateways(es + [e]))
         == Dedup(CliGateways(es)) + if CliGateway(e).address in Addresses(CliGateways(es)) then [] else [CliGateway(e)]
  {
    var gs := CliGateways(es);
    assert (es + [e])[..|es|] == es;
    assert CliGateways(es + [e]) == gs + [CliGateway(e)] && (gs + [CliGateway(e)])[..|gs|] == gs;
    AddressesSplit(gs, [CliGateway(e)]);
  }

  lemma {:induction false} FirstFailure(entries: seq<string>, parse: string -> Result<Entry, string>, n: nat)
    requires n <= |entries| && ParseAll(entries[..n], parse).Err?
    ensures ParseAll(entries, parse) == ParseAll(entries[..n], parse)
    decreases |entries|
  {
    if n == |entries| {
      assert entries[..n] == entries;
    } else {
      assert entries[..|entries| - 1][..n] == entries[..n];
      FirstFailure(entries[..|entries| - 1], parse, n);
    }
  }
}
