/** The dual-stack cryptokey-routing table and the session builder that fills it. */
module PeerNets {
  import opened Wrappers
  import opened Prefixes
  import opened RadixTries

  datatype PeerId = Sentinel | Peer(index: nat)

  /** One compressed trie per address family. */
  datatype PeerNet = PeerNet(v4: LCTrie<PeerId>, v6: LCTrie<PeerId>) {
    predicate Valid() {
      WellFormed(v4, Width(V4)) && WellFormed(v6, Width(V6))
    }

    function Lookup(ip: Addr): PeerId
      requires Valid()
    {
      match ip.family
      case V4 => Find(v4, ip.bits)
      case V6 => Find(v6, ip.bits)
    }
  }

  type Assignment = (IpNet, PeerId)

  /** The table a list of inserts describes: every family's catch-all starts at the sentinel, and inserting a prefix
      again overwrites. */
  function TableOf(log: seq<Assignment>, sentinel: PeerId): map<Prefix, PeerId> {
    if log == [] then map[Prefix(V4, []) := sentinel, Prefix(V6, []) := sentinel]
    else TableOf(log[..|log| - 1], sentinel)[log[|log| - 1].0 := log[|log| - 1].1]
  }

  /** The trie holds exactly the entries of its family. */
  ghost predicate Holds(t: Trie<PeerId>, f: Family, table: map<Prefix, PeerId>) {
    && t.Node? && t.val.Some? && Depth(t) <= Width(f)
    && forall bits: Bits ::
         Get(t, bits) == if Prefix(f, bits) in table then Some(table[Prefix(f, bits)]) else None
  }

  class PeerNetBuilder {
    var v4: Trie<PeerId>
    var v6: Trie<PeerId>
    ghost var log: seq<Assignment>
    ghost var sentinel: PeerId

    ghost predicate Valid()
      reads this
    {
      Holds(v4, V4, TableOf(log, sentinel)) && Holds(v6, V6, TableOf(log, sentinel))
    }

    constructor (sentinel: PeerId)
      ensures Valid() && log == [] && this.sentinel == sentinel
    {
      v4 := RadixTries.Insert(Leaf, [], sentinel);
      v6 := RadixTries.Insert(Leaf, [], sentinel);
      log := [];
      this.sentinel := sentinel;
      new;
      RootHolds(sentinel, V4);
      RootHolds(sentinel, V6);
    }

    method Insert(prefix: IpNet, id: PeerId)
      requires Valid()
      modifies this
      ensures Valid() && log == old(log) + [(prefix, id)] && sentinel == old(sentinel)
    {
      ghost var before := TableOf(log, sentinel);
      match prefix.family {
        case V4 =>
          InsertHolds(v4, before, prefix, id);
          OtherHolds(v6, V6, before, prefix, id);
          v4 := RadixTries.Insert(v4, prefix.bits, id);
        case V6 =>
          InsertHolds(v6, before, prefix, id);
          OtherHolds(v4, V4, before, prefix, id);
          v6 := RadixTries.Insert(v6, prefix.bits, id);
      }
      log := log + [(prefix, id)];
      assert log[..|log| - 1] == old(log);
      assert TableOf(log, sentinel) == before[prefix := id];
    }

    method Build() returns (net: PeerNet)
      requires Valid()
      ensures net.Valid()
      ensures forall a: Addr :: Some(net.Lookup(a)) == Prefixes.Lookup(TableOf(log, sentinel), a)
    {
      net := PeerNet(Compress(v4, v4.val.value), Compress(v6, v6.val.value));
      CompressWellFormed(v4, v4.val.value, Width(V4));
      CompressWellFormed(v6, v6.val.value, Width(V6));
      forall a: Addr ensures Some(net.Lookup(a)) == Prefixes.Lookup(TableOf(log, sentinel), a) {
        FindIsLookup(if a.family.V4? then v4 else v6, TableOf(log, sentinel), a);
      }
    }
  }

  lemma RootHolds(sentinel: PeerId, f: Family)
    ensures Holds(RadixTries.Insert(Leaf, [], sentinel), f, TableOf([], sentinel))
  {
    var t := RadixTries.Insert(Leaf, [], sentinel);
    forall bits: Bits ensures Get(t, bits) == if bits == [] then Some(sentinel) else None {
      InsertIsUpdate(Leaf, [], sentinel, bits);
    }
  }

  lemma InsertHolds(t: Trie<PeerId>, table: map<Prefix, PeerId>, prefix: IpNet, id: PeerId)
    requires Holds(t, prefix.family, table)
    ensures Holds(RadixTries.Insert(t, prefix.bits, id), prefix.family, table[prefix := id])
  {
    var t1 := RadixTries.Insert(t, prefix.bits, id);
    InsertDepth(t, prefix.bits, id, Width(prefix.family));
    InsertIsUpdate(t, prefix.bits, id, []);
    forall bits: Bits
      ensures Get(t1, bits) == if bits == prefix.bits then Some(id) else Get(t, bits)
    {
      InsertIsUpdate(t, prefix.bits, id, bits);
    }
  }

  lemma OtherHolds(t: Trie<PeerId>, f: Family, table: map<Prefix, PeerId>, prefix: IpNet, id: PeerId)
    requires Holds(t, f, table) && prefix.family != f
    ensures Holds(t, f, table[prefix := id])
  {
  }

  /** Compressing the trie of a family and looking an address up gives the longest match in the table. */
  lemma FindIsLookup(t: Trie<PeerId>, table: map<Prefix, PeerId>, a: Addr)
    requires Holds(t, a.family, table)
    ensures WellFormed(Compress(t, t.val.value), |a.bits|)
    ensures Some(Find(Compress(t, t.val.value), a.bits)) == Prefixes.Lookup(table, a)
  {
    CompressPreserves(t, t.val.value, a.bits);
    var n := MatchLen(table, a);
    assert Get(t, a.bits[..0]).Some? by { assert a.bits[..0] == []; }
    assert Lead(a, 0) in table;
    forall l: nat | n < l <= |a.bits| ensures Get(t, a.bits[..l]).None? {
      assert Lead(a, l) !in table;
    }
    DescendIsLongest(t, a.bits, t.val.value, n);
  }

  // ---------------------------------------------------------------- the table against a plain scan of the inserts

  /** The winner of a scan of all inserts: the longest matching prefix, the latest one on a tie; -1 if none matches.
      */
  function Winner(log: seq<Assignment>, a: Addr): (r: int)
    ensures -1 <= r < |log|
    ensures r >= 0 ==> Covers(log[r].0, a)
    ensures forall i :: 0 <= i < |log| && Covers(log[i].0, a) ==>
              0 <= r && |log[i].0.bits| <= |log[r].0.bits| && (|log[i].0.bits| == |log[r].0.bits| ==> i <= r)
  {
    if log == [] then -1 else
    var last := |log| - 1;
    var r := Winner(log[..last], a);
    if Covers(log[last].0, a) && (r < 0 || |log[last].0.bits| >= |log[r].0.bits|) then last else r
  }

  lemma {:induction false} TableEntry(log: seq<Assignment>, sentinel: PeerId, i: nat)
    requires i < |log| && forall j :: i < j < |log| ==> log[j].0 != log[i].0
    ensures log[i].0 in TableOf(log, sentinel) && TableOf(log, sentinel)[log[i].0] == log[i].1
  {
    if i < |log| - 1 {
      TableEntry(log[..|log| - 1], sentinel, i);
    }
  }

  predicate Inserted(log: seq<Assignment>, key: Prefix) {
    exists i :: 0 <= i < |log| && log[i].0 == key
  }

  lemma InsertedSnoc(log: seq<Assignment>, last: Assignment, key: Prefix)
    ensures Inserted(log + [last], key) <==> Inserted(log, key) || last.0 == key
  {
    var all := log + [last];
    if Inserted(log, key) {
      var i :| 0 <= i < |log| && log[i].0 == key;
      assert all[i].0 == key;
    }
    assert all[|log|].0 == last.0;
  }

  lemma {:induction false} TableKeys(log: seq<Assignment>, sentinel: PeerId, key: Prefix)
    ensures key in TableOf(log, sentinel) <==> key.bits == [] || Inserted(log, key)
    ensures !Inserted(log, key) && key.bits == [] ==> TableOf(log, sentinel)[key] == sentinel
  {
    if log != [] {
      var short, last := log[..|log| - 1], log[|log| - 1];
      TableKeys(short, sentinel, key);
      InsertedSnoc(short, last, key);
      assert log == short + [last];
    } else {
      assert key.family == V4 || key.family == V6;
      assert key.bits == [] <==> key == Prefix(key.family, []);
    }
  }

  /** Looking an address up gives the winner of the scan, and the sentinel when nothing matches. */
  lemma LookupIsWinner(log: seq<Assignment>, sentinel: PeerId, a: Addr)
    ensures var r := Winner(log, a);
            Prefixes.Lookup(TableOf(log, sentinel), a) == Some(if r < 0 then sentinel else log[r].1)
  {
    var table, r := TableOf(log, sentinel), Winner(log, a);
    var n := if r < 0 then 0 else |log[r].0.bits|;
    TableKeys(log, sentinel, Lead(a, n));
    forall l: nat | n < l <= |a.bits| ensures Lead(a, l) !in table {
      TableKeys(log, sentinel, Lead(a, l));
      assert Covers(Lead(a, l), a);
    }
    if r < 0 {
      assert Covers(Lead(a, 0), a) && !Inserted(log, Lead(a, 0));
    } else {
      CoversIsLead(log[r].0, a);
      assert forall j :: r < j < |log| && Covers(log[j].0, a) ==> |log[j].0.bits| != |log[r].0.bits|;
      TableEntry(log, sentinel, r);
    }
    MatchLenIs(table, a, n);
  }

  function OfFamily(log: seq<Assignment>, f: Family): seq<Assignment> {
    if log == [] then []
    else OfFamily(log[..|log| - 1], f) + (if log[|log| - 1].0.family == f then [log[|log| - 1]] else [])
  }

  /** The two families never interfere: dropping every insert of the other family changes no lookup. */
  lemma {:induction false} FamiliesIndependent(log: seq<Assignment>, sentinel: PeerId, a: Addr)
    ensures Prefixes.Lookup(TableOf(OfFamily(log, a.family), sentinel), a) == Prefixes.Lookup(TableOf(log, sentinel), a)
  {
    forall key: Prefix | key.family == a.family
      ensures var mine, all := TableOf(OfFamily(log, a.family), sentinel), TableOf(log, sentinel);
              (key in mine <==> key in all) && (key in all ==> mine[key] == all[key])
    {
      SameEntries(log, sentinel, key);
    }
    MatchLenIs(TableOf(OfFamily(log, a.family), sentinel), a, MatchLen(TableOf(log, sentinel), a));
  }

  lemma {:induction false} SameEntries(log: seq<Assignment>, sentinel: PeerId, key: Prefix)
    ensures var mine, all := TableOf(OfFamily(log, key.family), sentinel), TableOf(log, sentinel);
            (key in mine <==> key in all) && (key in all ==> mine[key] == all[key])
  {
    if log != [] {
      var short, last := log[..|log| - 1], log[|log| - 1];
      SameEntries(short, sentinel, key);
      if last.0.family == key.family {
        TableSnoc(OfFamily(short, key.family), last, sentinel);
      } else {
        assert OfFamily(log, key.family) == OfFamily(short, key.family);
      }
    }
  }

  lemma TableSnoc(log: seq<Assignment>, last: Assignment, sentinel: PeerId)
    ensures TableOf(log + [last], sentinel) == TableOf(log, sentinel)[last.0 := last.1]
  {
    assert (log + [last])[..|log|] == log;
  }

  // ---------------------------------------------------------------- build_sessions

  datatype PeerConfig = PeerConfig(
    publicKey: seq<int>,
    endpoint: Option<SocketAddr>,
    allowedIps: seq<IpNet>,
    persistentKeepalive: Option<nat>)

  /** The session manager's peer list; a peer's id is its position. */
  class SessionConfig {
    var peers: seq<PeerConfig>

    constructor ()
      ensures peers == []
    {
      peers := [];
    }

    method InsertPeer(p: PeerConfig) returns (id: PeerId)
      modifies this
      ensures peers == old(peers) + [p] && id == Peer(|old(peers)|)
    {
      id := Peer(|peers|);
      peers := peers + [p];
    }
  }

  function Assigned(nets: seq<IpNet>, id: PeerId): (r: seq<Assignment>)
    ensures |r| == |nets|
  {
    seq(|nets|, i requires 0 <= i < |nets| => (nets[i], id))
  }

  /** All inserts for a list of peers, in order. */
  function Inserts(peers: seq<PeerConfig>): seq<Assignment> {
    if peers == [] then []
    else
      var last := |peers| - 1;
      Inserts(peers[..last]) + Assigned(peers[last].allowedIps, Peer(last))
  }

  /** The inner loop: one peer's prefixes. */
  method InsertAll(builder: PeerNetBuilder, nets: seq<IpNet>, id: PeerId)
    requires builder.Valid()
    modifies builder
    ensures builder.Valid() && builder.sentinel == old(builder.sentinel)
    ensures builder.log == old(builder.log) + Assigned(nets, id)
  {
    for m := 0 to |nets|
      invariant builder.Valid() && builder.sentinel == old(builder.sentinel)
      invariant builder.log == old(builder.log) + Assigned(nets, id)[..m]
    {
      builder.Insert(nets[m], id);
      assert Assigned(nets, id)[..m + 1] == Assigned(nets, id)[..m] + [(nets[m], id)];
    }
    assert Assigned(nets, id)[..|nets|] == Assigned(nets, id);
  }

  /** The body of the outer loop: the peer itself, then its prefixes. */
  method AddPeer(config: SessionConfig, builder: PeerNetBuilder, peer: PeerConfig) returns (id: PeerId)
    requires builder.Valid()
    modifies config, builder
    ensures config.peers == old(config.peers) + [peer] && id == Peer(|old(config.peers)|)
    ensures builder.Valid() && builder.sentinel == old(builder.sentinel)
    ensures builder.log == old(builder.log) + Assigned(peer.allowedIps, id)
  {
    id := config.InsertPeer(peer);
    InsertAll(builder, peer.allowedIps, id);
  }

  method BuildSessions(peers: seq<PeerConfig>) returns (config: SessionConfig, net: PeerNet, peerIds: seq<PeerId>)
    ensures fresh(config) && config.peers == peers
    ensures |peerIds| == |peers| && forall i :: 0 <= i < |peers| ==> peerIds[i] == Peer(i)
    ensures net.Valid()
    ensures forall a: Addr :: Some(net.Lookup(a)) == Prefixes.Lookup(TableOf(Inserts(peers), Sentinel), a)
  {
    config := new SessionConfig();
    peerIds := [];
    var builder := new PeerNetBuilder(Sentinel);
    for n := 0 to |peers|
      invariant fresh(builder) && fresh(config) && builder.Valid() && builder.sentinel == Sentinel
      invariant config.peers == peers[..n]
      invariant |peerIds| == n && forall i :: 0 <= i < n ==> peerIds[i] == Peer(i)
      invariant builder.log == Inserts(peers[..n])
    {
      var id := AddPeer(config, builder, peers[n]);
      peerIds := peerIds + [id];
      assert peers[..n + 1][..n] == peers[..n];
    }
    assert peers[..|peers|] == peers;
    net := builder.Build();
  }

  /** Peer `i` owns the address: one of its prefixes covers it, no peer has a longer one that does, and no later
      peer has one as long. */
  ghost predicate Owns(peers: seq<PeerConfig>, i: nat, a: Addr) {
    i < |peers| && exists p :: p in peers[i].allowedIps && Covers(p, a) && Beats(peers, i, p, a)
  }

  ghost predicate Beats(peers: seq<PeerConfig>, i: nat, p: IpNet, a: Addr) {
    forall j, q :: 0 <= j < |peers| && q in peers[j].allowedIps && Covers(q, a) ==>
      |q.bits| < |p.bits| || (|q.bits| == |p.bits| && j <= i)
  }

  ghost predicate Unowned(peers: seq<PeerConfig>, a: Addr) {
    forall j, q :: 0 <= j < |peers| && q in peers[j].allowedIps ==> !Covers(q, a)
  }

  lemma {:induction false} InsertsSound(peers: seq<PeerConfig>, n: nat)
    requires n < |Inserts(peers)|
    ensures var (net, id) := Inserts(peers)[n];
            id.Peer? && id.index < |peers| && net in peers[id.index].allowedIps
  {
    var last := |peers| - 1;
    var short := Inserts(peers[..last]);
    if n < |short| {
      InsertsSound(peers[..last], n);
      var id := short[n].1;
      assert peers[..last][id.index] == peers[id.index];
    } else {
      assert Inserts(peers)[n] == Assigned(peers[last].allowedIps, Peer(last))[n - |short|];
    }
  }

  lemma {:induction false} InsertsOrdered(peers: seq<PeerConfig>, m: nat, n: nat)
    requires m <= n < |Inserts(peers)|
    ensures Inserts(peers)[m].1.Peer? && Inserts(peers)[n].1.Peer?
    ensures Inserts(peers)[m].1.index <= Inserts(peers)[n].1.index < |peers|
  {
    InsertsSound(peers, m);
    InsertsSound(peers, n);
    var last := |peers| - 1;
    var short := Inserts(peers[..last]);
    if n < |short| {
      InsertsOrdered(peers[..last], m, n);
    } else {
      assert Inserts(peers)[n] == Assigned(peers[last].allowedIps, Peer(last))[n - |short|];
    }
  }

  lemma {:induction false} InsertsComplete(peers: seq<PeerConfig>, j: nat, q: IpNet) returns (n: nat)
    requires j < |peers| && q in peers[j].allowedIps
    ensures n < |Inserts(peers)| && Inserts(peers)[n] == (q, Peer(j))
  {
    var last := |peers| - 1;
    var short := Inserts(peers[..last]);
    if j < last {
      n := InsertsComplete(peers[..last], j, q);
    } else {
      var k :| 0 <= k < |peers[last].allowedIps| && peers[last].allowedIps[k] == q;
      n := |short| + k;
      assert Inserts(peers)[n] == Assigned(peers[last].allowedIps, Peer(last))[k];
    }
  }

  /** An address is looked up as peer `i` exactly if peer `i` owns it, and as the sentinel exactly if nobody's
      prefixes cover it. */
  lemma LookupIsOwner(peers: seq<PeerConfig>, a: Addr)
    ensures var r := Prefixes.Lookup(TableOf(Inserts(peers), Sentinel), a);
            && (forall i: nat :: r == Some(Peer(i)) <==> Owns(peers, i, a))
            && (r == Some(Sentinel) <==> Unowned(peers, a))
  {
    var log := Inserts(peers);
    var w := Winner(log, a);
    LookupIsWinner(log, Sentinel, a);
    if w < 0 {
      forall j, q | 0 <= j < |peers| && q in peers[j].allowedIps ensures !Covers(q, a) {
        var n := InsertsComplete(peers, j, q);
      }
    } else {
      InsertsSound(peers, w);
      var (p, id) := log[w];
      forall j, q | 0 <= j < |peers| && q in peers[j].allowedIps && Covers(q, a)
        ensures |q.bits| < |p.bits| || (|q.bits| == |p.bits| && j <= id.index)
      {
        var n := InsertsComplete(peers, j, q);
        if |q.bits| == |p.bits| {
          InsertsOrdered(peers, n, w);
        }
      }
      assert Owns(peers, id.index, a);
      forall i: nat | Owns(peers, i, a) ensures i == id.index {
        OwnerUnique(peers, i, id.index, a);
      }
    }
  }

  lemma OwnerUnique(peers: seq<PeerConfig>, i: nat, j: nat, a: Addr)
    requires Owns(peers, i, a) && Owns(peers, j, a)
    ensures i == j
  {
  }
}
