/** Where every address is sent once the routes are up. If nothing fails and nobody interferes during the commands
    of a procedure (`Quiet`, which says nothing of any other tick), the procedure overlays the table with entries of
    its own wherever the table has none, so forwarding follows from comparing match lengths. */
module RouteForwarding {
  import opened Wrappers
  import opened Prefixes
  import opened Kernel
  import opened Routes
  import opened RouteUndo

  /** The entries `keys -> hop`. */
  function AllTo(keys: seq<Prefix>, hop: Hop): Table {
    map p | p in keys :: hop
  }

  /** The length of the longest of `keys` that covers the address; -1 if none does. */
  function LongestIn(keys: seq<Prefix>, a: Addr): (r: int)
    ensures -1 <= r <= |a.bits|
    ensures r >= 0 ==> Lead(a, r) in keys
    ensures forall l: nat :: r < l <= |a.bits| ==> Lead(a, l) !in keys
  {
    MatchLen(map p | p in keys :: (), a)
  }

  lemma AllToLookup(keys: seq<Prefix>, hop: Hop, a: Addr)
    ensures MatchLen(AllTo(keys, hop), a) == LongestIn(keys, a)
    ensures LongestIn(keys, a) >= 0 ==> Lookup(AllTo(keys, hop), a) == Some(hop)
  {
    MatchLenIs(AllTo(keys, hop), a, LongestIn(keys, a));
  }

  /** The table says how to reach the address in terms that can be re-added. */
  predicate Usable(t: Table, a: Addr) {
    Lookup(t, a).Some? && Lookup(t, a).value != Opaque
  }

  function EndpointIps(eps: seq<SocketAddr>, f: Family): set<Addr> {
    set ep | ep in eps && ep.ip.family == f :: ep.ip
  }

  /** The entries of the endpoint bypass: each reachable endpoint, by the hop it has already. */
  function BypassEntries(t: Table, eps: seq<SocketAddr>, f: Family): Table {
    map a | a in EndpointIps(eps, f) && Usable(t, a) :: Lookup(t, a).value
  }

  /** Entries that repeat what an address's lookup gives anyway change no lookup at all. */
  lemma PinningIsNeutral(t: Table, pins: Table, a: Addr)
    requires forall p :: p in pins ==> |p.bits| == Width(p.family) && Lookup(t, p) == Some(pins[p])
    ensures Lookup(pins + t, a) == Lookup(t, a)
    ensures MatchLen(pins + t, a) == if a in pins then |a.bits| else MatchLen(t, a)
  {
    OverlayLookup(t, pins, a);
    if a in pins {
      HostEntryWins(pins, a);
    } else {
      forall l: nat | l <= |a.bits| ensures Lead(a, l) !in pins {
        if l == |a.bits| {
          assert Lead(a, l) == a;
        }
      }
      MatchLenIs(pins, a, -1);
    }
  }

  // ---------------------------------------------------------------- the procedures as overlays

  lemma QuietAdd(w: World, k: Kernel, key: Prefix, hop: Hop)
    requires Quiet(w, k.clock, k.clock + 1)
    ensures var (k1, added) := Add(w, k, key, hop);
            k1.clock == k.clock + 1 && k1.table == map[key := hop] + k.table && k1.foreign == k.foreign
  {
    QuietTick(w, k);
    if key in k.table {
      assert map[key := hop] + k.table == k.table;
    }
  }

  lemma AllToCons(keys: seq<Prefix>, hop: Hop, t: Table)
    requires keys != []
    ensures AllTo(keys, hop) + t == AllTo(keys[1..], hop) + (map[keys[0] := hop] + t)
  {
    assert forall p :: p in keys <==> p == keys[0] || p in keys[1..];
  }

  lemma QuietAddAll(w: World, k: Kernel, keys: seq<Prefix>, hop: Hop, purpose: Purpose)
    requires Quiet(w, k.clock, AddAll(w, k, keys, hop, purpose).k.clock)
    ensures var q := AddAll(w, k, keys, hop, purpose);
            q.k.table == AllTo(keys, hop) + k.table && q.k.foreign == k.foreign
    decreases |keys|
  {
    if keys == [] {
      assert AllTo(keys, hop) + k.table == k.table;
    } else {
      QuietAdd(w, k, keys[0], hop);
      var p := AddOne(w, k, keys[0], hop, purpose);
      QuietAddAll(w, p.k, keys[1..], hop, purpose);
      AllToCons(keys, hop, k.table);
    }
  }

  lemma QuietBypassOne(w: World, k: Kernel, ep: SocketAddr, f: Family)
    requires Quiet(w, k.clock, BypassOne(w, k, ep, f).k.clock)
    ensures var q := BypassOne(w, k, ep, f);
            q.k.table == BypassEntries(k.table, [ep], f) + k.table && q.k.foreign == k.foreign
  {
    var pins := BypassEntries(k.table, [ep], f);
    assert EndpointIps([ep], f) == if ep.ip.family == f then {ep.ip} else {};
    if ep.ip.family == f {
      BypassTicks(w, k, ep, f);
      QuietTick(w, k);
    }
    if ep.ip.family == f && Usable(k.table, ep.ip) {
      var hop := Lookup(k.table, ep.ip).value;
      assert RouteVia(InfoOf(w, hop)) == Some(hop);
      QuietAdd(w, k.(clock := k.clock + 1), ep.ip, hop);
      assert pins == map[ep.ip := hop];
    } else {
      assert pins == map[];
      assert pins + k.table == k.table;
    }
  }

  lemma BypassTicks(w: World, k: Kernel, ep: SocketAddr, f: Family)
    requires ep.ip.family == f
    ensures BypassOne(w, k, ep, f).k.clock >= k.clock + 1
  {
  }

  lemma QuietBypass(w: World, k: Kernel, eps: seq<SocketAddr>, f: Family)
    requires Quiet(w, k.clock, Bypass(w, k, eps, f).k.clock)
    ensures var q := Bypass(w, k, eps, f);
            q.k.table == BypassEntries(k.table, eps, f) + k.table && q.k.foreign == k.foreign
    decreases |eps|
  {
    if eps == [] {
      assert BypassEntries(k.table, eps, f) + k.table == k.table;
    } else {
      var p := BypassOne(w, k, eps[0], f);
      QuietBypassOne(w, k, eps[0], f);
      QuietBypass(w, p.k, eps[1..], f);
      BypassEntriesCons(k.table, p.k.table, eps, f);
    }
  }

  lemma BypassEntriesCons(t: Table, t1: Table, eps: seq<SocketAddr>, f: Family)
    requires eps != [] && t1 == BypassEntries(t, [eps[0]], f) + t
    ensures BypassEntries(t1, eps[1..], f) + t1 == BypassEntries(t, eps, f) + t
  {
    forall a: Addr ensures Lookup(t1, a) == Lookup(t, a) {
      PinningIsNeutral(t, BypassEntries(t, [eps[0]], f), a);
    }
    SameLookupsSameEntries(t, t1, eps[1..], f);
    EntriesSplit(t, eps, f);
  }

  lemma SameLookupsSameEntries(t: Table, t1: Table, eps: seq<SocketAddr>, f: Family)
    requires forall a: Addr :: Lookup(t1, a) == Lookup(t, a)
    ensures BypassEntries(t1, eps, f) == BypassEntries(t, eps, f)
  {
  }

  lemma EntriesSplit(t: Table, eps: seq<SocketAddr>, f: Family)
    requires eps != []
    ensures BypassEntries(t, eps[1..], f) + (BypassEntries(t, [eps[0]], f) + t) == BypassEntries(t, eps, f) + t
  {
    EndpointIpsCons(eps, f);
  }

  lemma EndpointIpsCons(eps: seq<SocketAddr>, f: Family)
    requires eps != []
    ensures EndpointIps(eps, f) == EndpointIps([eps[0]], f) + EndpointIps(eps[1..], f)
  {
    assert forall ep :: ep in eps <==> ep == eps[0] || ep in eps[1..];
  }

  /** Installing the endpoint bypass changes where no address goes; it only makes the endpoints' entries full-width.
      */
  lemma BypassIsNeutral(w: World, k: Kernel, eps: seq<SocketAddr>, f: Family, a: Addr)
    requires Quiet(w, k.clock, Bypass(w, k, eps, f).k.clock)
    ensures var q := Bypass(w, k, eps, f);
            && q.k.foreign == k.foreign
            && Lookup(q.k.table, a) == Lookup(k.table, a)
            && MatchLen(q.k.table, a)
               == if a in EndpointIps(eps, f) && Usable(k.table, a) then |a.bits| else MatchLen(k.table, a)
  {
    QuietBypass(w, k, eps, f);
    PinningIsNeutral(k.table, BypassEntries(k.table, eps, f), a);
  }

  lemma AddAllForwarding(w: World, k: Kernel, keys: seq<Prefix>, hop: Hop, purpose: Purpose, a: Addr)
    requires Quiet(w, k.clock, AddAll(w, k, keys, hop, purpose).k.clock)
    ensures var q := AddAll(w, k, keys, hop, purpose);
            var m0, m1 := MatchLen(k.table, a), LongestIn(keys, a);
            && q.k.foreign == k.foreign
            && Lookup(q.k.table, a) == (if m0 >= m1 then Lookup(k.table, a) else Some(hop))
            && MatchLen(q.k.table, a) == (if m0 >= m1 then m0 else m1)
  {
    QuietAddAll(w, k, keys, hop, purpose);
    AllToLookup(keys, hop, a);
    OverlayLookup(k.table, AllTo(keys, hop), a);
  }

  // ---------------------------------------------------------------- set-up for AllowedIPs

  /** The endpoints that `setup_routes` keeps out of the tunnel. */
  predicate BypassedBySetup(t: Table, allowedIps: seq<IpNet>, eps: seq<SocketAddr>, a: Addr) {
    HasCatchall(allowedIps, a.family) && a in EndpointIps(eps, a.family) && Usable(t, a)
  }

  lemma BypassIfForwarding(c: bool, w: World, k: Kernel, eps: seq<SocketAddr>, f: Family, a: Addr)
    requires Quiet(w, k.clock, BypassIf(c, w, k, eps, f).k.clock)
    ensures var q := BypassIf(c, w, k, eps, f);
            && q.k.foreign == k.foreign
            && Lookup(q.k.table, a) == Lookup(k.table, a)
            && MatchLen(q.k.table, a)
               == if c && a in EndpointIps(eps, f) && Usable(k.table, a) then |a.bits| else MatchLen(k.table, a)
  {
    if c {
      BypassIsNeutral(w, k, eps, f, a);
    }
  }

  /** Where set-up sends an address: a bypassed endpoint and every original route at least as long as the longest
      matching tunnel prefix stay; everything else a tunnel prefix covers goes to the tunnel. */
  ghost predicate AfterSetup(t0: Table, t1: Table, tun: string, allowedIps: seq<IpNet>, eps: seq<SocketAddr>, a: Addr) {
    var m0, mt := MatchLen(t0, a), LongestIn(TunKeys(allowedIps), a);
    var bypassed := BypassedBySetup(t0, allowedIps, eps, a);
    && Lookup(t1, a) == (if bypassed || m0 >= mt then Lookup(t0, a) else Some(Iface(tun)))
    && MatchLen(t1, a) == (if bypassed then |a.bits| else if m0 >= mt then m0 else mt)
  }

  /** Set-up for AllowedIPs forwards every address so, if it is not disturbed. */
  lemma SetupForwarding(w: World, k: Kernel, tun: string, allowedIps: seq<IpNet>, eps: seq<SocketAddr>, a: Addr)
    requires Quiet(w, k.clock, Setup(w, k, tun, allowedIps, eps).k.clock)
    ensures var q := Setup(w, k, tun, allowedIps, eps);
            q.k.foreign == k.foreign && AfterSetup(k.table, q.k.table, tun, allowedIps, eps, a)
  {
    BypassIfForwarding(HasCatchall(allowedIps, V4), w, k, eps, V4, a);
    var p := BypassIf(HasCatchall(allowedIps, V4), w, k, eps, V4);
    BypassIfForwarding(HasCatchall(allowedIps, V6), w, p.k, eps, V6, a);
    var q := BypassIf(HasCatchall(allowedIps, V6), w, p.k, eps, V6);
    AddAllForwarding(w, q.k, TunKeys(allowedIps), Iface(tun), ToTun(tun), a);
  }

  lemma {:induction false} TunKeysHold(allowedIps: seq<IpNet>, key: Prefix)
    ensures key in TunKeys(allowedIps)
       <==> (key in allowedIps && key.bits != []) || (|key.bits| == 1 && HasCatchall(allowedIps, key.family))
  {
    if allowedIps != [] {
      var net, rest := allowedIps[0], allowedIps[1..];
      TunKeysHold(rest, key);
      assert forall n :: n in allowedIps <==> n == net || n in rest;
      assert HasCatchall(allowedIps, key.family)
        <==> (net.family == key.family && net.bits == []) || HasCatchall(rest, key.family);
      NetKeysHold(net, key);
    }
  }

  lemma NetKeysHold(net: IpNet, key: Prefix)
    ensures key in NetKeys(net)
       <==> if net.bits == [] then net.family == key.family && |key.bits| == 1 else key == net
  {
    if net.bits == [] && net.family == key.family && |key.bits| == 1 {
      assert key.bits == [key.bits[0]];
      assert key == if key.bits[0] then Halves(net.family)[1] else Halves(net.family)[0];
    }
  }

  /** A catch-all in AllowedIPs captures the family: reachable endpoints keep their hop, everything the default
      route or no route served goes to the tunnel, a strictly longer original route still wins, and the default
      entry stays. */
  lemma CatchallCapture(w: World, k: Kernel, tun: string, allowedIps: seq<IpNet>, eps: seq<SocketAddr>, f: Family)
    requires Quiet(w, k.clock, Setup(w, k, tun, allowedIps, eps).k.clock) && Prefix(f, []) in allowedIps
    ensures var t := Setup(w, k, tun, allowedIps, eps).k.table;
            && (forall a: Addr :: a in EndpointIps(eps, f) && Usable(k.table, a) ==> Lookup(t, a) == Lookup(k.table, a))
            && (forall a: Addr | a.family == f && MatchLen(k.table, a) <= 0 ::
                  (a in EndpointIps(eps, f) && Usable(k.table, a)) || Lookup(t, a) == Some(Iface(tun)))
            && (forall a: Addr | a.family == f && MatchLen(k.table, a) > LongestIn(TunKeys(allowedIps), a) ::
                  Lookup(t, a) == Lookup(k.table, a))
            && SameAt(t, k.table, Prefix(f, []))
  {
    var t := Setup(w, k, tun, allowedIps, eps).k.table;
    forall a: Addr | a.family == f
      ensures 1 <= LongestIn(TunKeys(allowedIps), a)
      ensures Lookup(t, a)
           == if BypassedBySetup(k.table, allowedIps, eps, a)
                 || MatchLen(k.table, a) >= LongestIn(TunKeys(allowedIps), a)
              then Lookup(k.table, a) else Some(Iface(tun))
    {
      TunKeysHold(allowedIps, Lead(a, 1));
      SetupForwarding(w, k, tun, allowedIps, eps, a);
    }
    SetupKeepsDefault(w, k, tun, allowedIps, eps, f);
  }

  lemma BypassIfKeepsDefault(c: bool, w: World, k: Kernel, eps: seq<SocketAddr>, f: Family, key: Prefix)
    requires Quiet(w, k.clock, BypassIf(c, w, k, eps, f).k.clock) && key.bits == []
    ensures SameAt(BypassIf(c, w, k, eps, f).k.table, k.table, key)
  {
    if c {
      QuietBypass(w, k, eps, f);
    }
  }

  lemma SetupKeepsDefault(w: World, k: Kernel, tun: string, allowedIps: seq<IpNet>, eps: seq<SocketAddr>, f: Family)
    requires Quiet(w, k.clock, Setup(w, k, tun, allowedIps, eps).k.clock)
    ensures SameAt(Setup(w, k, tun, allowedIps, eps).k.table, k.table, Prefix(f, []))
  {
    var p := BypassIf(HasCatchall(allowedIps, V4), w, k, eps, V4);
    BypassIfKeepsDefault(HasCatchall(allowedIps, V4), w, k, eps, V4, Prefix(f, []));
    var q := BypassIf(HasCatchall(allowedIps, V6), w, p.k, eps, V6);
    BypassIfKeepsDefault(HasCatchall(allowedIps, V6), w, p.k, eps, V6, Prefix(f, []));
    QuietAddAll(w, q.k, TunKeys(allowedIps), Iface(tun), ToTun(tun));
    TunKeysHold(allowedIps, Prefix(f, []));
    assert Prefix(f, []) !in AllTo(TunKeys(allowedIps), Iface(tun));
  }

  // ---------------------------------------------------------------- families the TUN has no address of

  lemma HalvesMatch(f: Family, a: Addr)
    ensures LongestIn(Halves(f), a) == if a.family == f then 1 else -1
  {
    if a.family == f {
      assert Lead(a, 1) == if a.bits[0] then Halves(f)[1] else Halves(f)[0];
      assert Lead(a, 1) in Halves(f);
    }
  }

  /** How long a match the passthroughs give an address, when the probe resolves. */
  function EscapeLen(t: Table, f: Family, a: Addr): int {
    if Usable(t, Probe(f)) then LongestIn(BlackholeExemptions(f), a) else -1
  }

  lemma ExemptionLengths(f: Family, a: Addr)
    ensures var m := LongestIn(BlackholeExemptions(f), a); m == -1 || (a.family == f && 8 <= m)
  {
  }

  lemma QuietProbe(w: World, k: Kernel, a: Addr)
    requires w.env(k.clock) == map[] && w.getOk(k.clock)
    ensures var (k1, info) := Get(w, k, a);
            && k1 == k.(clock := k.clock + 1)
            && (if info.Some? then RouteVia(info.value) else None)
               == if Usable(k.table, a) then Lookup(k.table, a) else None
  {
    QuietTick(w, k);
  }

  /** With the probe's hop in hand, the passthroughs are the exemptions sent to that hop. */
  lemma UsableProbe(w: World, k: Kernel, f: Family)
    requires w.env(k.clock) == map[] && w.getOk(k.clock)
    ensures var k1 := k.(clock := k.clock + 1);
            Passthroughs(w, k, f)
            == if BlackholeExemptions(f) == [] then Progress(k, [])
               else if !Usable(k.table, Probe(f)) then Progress(k1, [])
               else AddAll(w, k1, BlackholeExemptions(f), Lookup(k.table, Probe(f)).value, Escape)
  {
    QuietProbe(w, k, Probe(f));
  }

  lemma NoExemptions(a: Addr)
    ensures LongestIn(BlackholeExemptions(V6), a) == -1
  {
  }

  lemma PassthroughsForwarding(w: World, k: Kernel, f: Family, a: Addr)
    requires Quiet(w, k.clock, Passthroughs(w, k, f).k.clock)
    ensures var q := Passthroughs(w, k, f);
            var m0, me := MatchLen(k.table, a), EscapeLen(k.table, f, a);
            && q.k.foreign == k.foreign
            && Lookup(q.k.table, a) == (if m0 >= me then Lookup(k.table, a) else Lookup(k.table, Probe(f)))
            && MatchLen(q.k.table, a) == (if m0 >= me then m0 else me)
  {
    if f.V6? {
      NoExemptions(a);
    } else {
      ProbeTicks(w, k);
      UsableProbe(w, k, f);
      if Usable(k.table, Probe(f)) {
        var k1 := k.(clock := k.clock + 1);
        AddAllForwarding(w, k1, BlackholeExemptions(f), Lookup(k.table, Probe(f)).value, Escape, a);
      }
    }
  }

  lemma ProbeTicks(w: World, k: Kernel)
    ensures Passthroughs(w, k, V4).k.clock >= k.clock + 1
  {
  }

  /** Where set-up of an unconfigured family sends an address; `me` is the longest matching exempt prefix. Addresses
      of the other family are not affected. */
  ghost predicate AfterUnconfigured(t0: Table, t: Table, f: Family, tun: string, eps: seq<SocketAddr>, a: Addr) {
    var m0, me := MatchLen(t0, a), EscapeLen(t0, f, a);
    && Lookup(t, a)
       == (if a.family != f || (a in EndpointIps(eps, f) && Usable(t0, a)) || (m0 >= me && m0 >= 1)
           then Lookup(t0, a)
           else if me >= 1 then Lookup(t0, Probe(f))
           else Some(Iface(tun)))
    && (a.family != f ==> MatchLen(t, a) == MatchLen(t0, a))
  }

  /** Tables `t0` to `t`: the bypass, the passthroughs and the halves, as seen from the address. */
  lemma UnconfiguredOf(t0: Table, t1: Table, t2: Table, t: Table, f: Family, tun: string, eps: seq<SocketAddr>, a: Addr)
    requires Lookup(t1, a) == Lookup(t0, a) && Lookup(t1, Probe(f)) == Lookup(t0, Probe(f))
    requires MatchLen(t1, a) == if a in EndpointIps(eps, f) && Usable(t0, a) then |a.bits| else MatchLen(t0, a)
    requires var m1, me := MatchLen(t1, a), EscapeLen(t1, f, a);
             && Lookup(t2, a) == (if m1 >= me then Lookup(t1, a) else Lookup(t1, Probe(f)))
             && MatchLen(t2, a) == (if m1 >= me then m1 else me)
    requires var m2, mh := MatchLen(t2, a), if a.family == f then 1 else -1;
             && Lookup(t, a) == (if m2 >= mh then Lookup(t2, a) else Some(Iface(tun)))
             && MatchLen(t, a) == (if m2 >= mh then m2 else mh)
    ensures AfterUnconfigured(t0, t, f, tun, eps, a)
  {
    ExemptionLengths(f, a);
  }

  lemma UnconfiguredForwarding(w: World, k: Kernel, f: Family, tun: string, eps: seq<SocketAddr>, a: Addr)
    requires Quiet(w, k.clock, Unconfigured(w, k, f, tun, eps).k.clock)
    ensures var q := Unconfigured(w, k, f, tun, eps);
            q.k.foreign == k.foreign && AfterUnconfigured(k.table, q.k.table, f, tun, eps, a)
  {
    BypassIsNeutral(w, k, eps, f, a);
    BypassIsNeutral(w, k, eps, f, Probe(f));
    var p := Bypass(w, k, eps, f);
    PassthroughsForwarding(w, p.k, f, a);
    var q := Passthroughs(w, p.k, f);
    HalvesMatch(f, a);
    AddAllForwarding(w, q.k, Halves(f), Iface(tun), ToTun(tun), a);
    UnconfiguredOf(k.table, p.k.table, q.k.table, Unconfigured(w, k, f, tun, eps).k.table, f, tun, eps, a);
  }

  // ---------------------------------------------------------------- the whole start-up

  predicate HasFamily(cfg: Config, f: Family) {
    if f.V4? then cfg.hasV4 else cfg.hasV6
  }

  /** Where the steps for unconfigured families send an address, from the table `t0` before them to `t` after them. */
  ghost predicate AfterOwnStep(t0: Table, t: Table, cfg: Config, a: Addr) {
    var m1, me := MatchLen(t0, a), EscapeLen(t0, a.family, a);
    Lookup(t, a)
    == if HasFamily(cfg, a.family) || (a in EndpointIps(cfg.endpoints, a.family) && Usable(t0, a))
          || (m1 >= me && m1 >= 1)
       then Lookup(t0, a)
       else if me >= 1 then Lookup(t0, Probe(a.family))
       else Some(Iface(cfg.tunName))
  }

  lemma OwnStep(w: World, k: Kernel, f: Family, cfg: Config, a: Addr)
    requires var c := !HasFamily(cfg, f); Quiet(w, k.clock, UnconfiguredIf(c, w, k, f, cfg).k.clock)
    ensures var q := UnconfiguredIf(!HasFamily(cfg, f), w, k, f, cfg);
            && q.k.foreign == k.foreign
            && (a.family == f ==> AfterOwnStep(k.table, q.k.table, cfg, a))
            && (a.family != f ==>
                  Lookup(q.k.table, a) == Lookup(k.table, a) && MatchLen(q.k.table, a) == MatchLen(k.table, a))
  {
    if !HasFamily(cfg, f) {
      UnconfiguredForwarding(w, k, f, cfg.tunName, cfg.endpoints, a);
    }
  }

  /** An address whose own lookup, and whose probe's, did not change meets the own step as from the start. */
  lemma SameOwnStep(t0: Table, t1: Table, t: Table, cfg: Config, a: Addr)
    requires AfterOwnStep(t1, t, cfg, a)
    requires Lookup(t1, a) == Lookup(t0, a) && MatchLen(t1, a) == MatchLen(t0, a)
    requires Lookup(t1, Probe(a.family)) == Lookup(t0, Probe(a.family))
    ensures AfterOwnStep(t0, t, cfg, a)
  {
  }

  /** The two steps for unconfigured families, one after the other: the other family's step does not interfere. */
  lemma OwnSteps(w: World, k: Kernel, q: Progress, e: Progress, cfg: Config, a: Addr)
    requires q == UnconfiguredIf(!cfg.hasV4, w, k, V4, cfg) && e == UnconfiguredIf(!cfg.hasV6, w, q.k, V6, cfg)
    requires Quiet(w, k.clock, e.k.clock)
    ensures e.k.foreign == k.foreign && AfterOwnStep(k.table, e.k.table, cfg, a)
  {
    OwnStep(w, k, V4, cfg, a);
    OwnStep(w, q.k, V6, cfg, a);
    if a.family.V6? {
      OwnStep(w, k, V4, cfg, Probe(V6));
      SameOwnStep(k.table, q.k.table, e.k.table, cfg, a);
    }
  }

  /** The forwarding of a family after start-up is that of `setup_routes`, followed by its own unconfigured-family
      step if the TUN has no address of it. */
  lemma StartForwarding(w: World, k: Kernel, cfg: Config, a: Addr)
    requires Quiet(w, k.clock, Start(w, k, cfg).k.clock)
    ensures var q := Start(w, k, cfg);
            && q.k.foreign == k.foreign
            && AfterOwnStep(Setup(w, k, cfg.tunName, cfg.allowedIps, cfg.endpoints).k.table, q.k.table, cfg, a)
  {
    var p := Setup(w, k, cfg.tunName, cfg.allowedIps, cfg.endpoints);
    var q := UnconfiguredIf(!cfg.hasV4, w, p.k, V4, cfg);
    var e := UnconfiguredIf(!cfg.hasV6, w, q.k, V6, cfg);
    SetupForwarding(w, k, cfg.tunName, cfg.allowedIps, cfg.endpoints, a);
    OwnSteps(w, p.k, q, e, cfg, a);
  }

  /** The tiers of a family the TUN has no address of. The longest match wins; on a tie an original route beats an
      AllowedIP, an AllowedIP beats an exempt range, and an exempt range beats the halves. An endpoint that has a
      hop to re-add after the tunnel routes for AllowedIPs keeps that hop. */
  ghost predicate Tiered(t0: Table, t: Table, cfg: Config, a: Addr) {
    var m0, mt := MatchLen(t0, a), LongestIn(TunKeys(cfg.allowedIps), a);
    var me := LongestIn(BlackholeExemptions(a.family), a);
    if a in EndpointIps(cfg.endpoints, a.family) && (m0 < mt || Usable(t0, a)) then
      Lookup(t, a) == if m0 >= mt then Lookup(t0, a) else Some(Iface(cfg.tunName))
    else if m0 >= mt && m0 >= me && m0 >= 1 then
      Lookup(t, a) == Lookup(t0, a)
    else if me > mt then
      Prefix(a.family, []) in t0 && Lookup(t, a) == Some(t0[Prefix(a.family, [])])
    else
      Lookup(t, a) == Some(Iface(cfg.tunName))
  }

  lemma TiersOf(t0: Table, t1: Table, t: Table, cfg: Config, a: Addr)
    requires AfterSetup(t0, t1, cfg.tunName, cfg.allowedIps, cfg.endpoints, a)
    requires AfterSetup(t0, t1, cfg.tunName, cfg.allowedIps, cfg.endpoints, Probe(a.family))
    requires AfterOwnStep(t1, t, cfg, a)
    requires !HasFamily(cfg, a.family) && !HasCatchall(cfg.allowedIps, a.family)
    requires a.family == V4 ==>
               && MatchLen(t0, Probe(V4)) == 0 && Usable(t0, Probe(V4))
               && LongestIn(TunKeys(cfg.allowedIps), Probe(V4)) <= 0
    ensures Tiered(t0, t, cfg, a)
  {
    ExemptionLengths(a.family, a);
    assert Lead(Probe(a.family), 0) == Prefix(a.family, []);
  }

  /** Three-tier forwarding of a family the TUN has no address of and AllowedIPs have no catch-all for, when the probe
      resolves through the default route. */
  lemma ThreeTiers(w: World, k: Kernel, cfg: Config, a: Addr)
    requires Quiet(w, k.clock, Start(w, k, cfg).k.clock)
    requires !HasFamily(cfg, a.family) && !HasCatchall(cfg.allowedIps, a.family)
    requires a.family == V4 ==>
               && MatchLen(k.table, Probe(V4)) == 0 && Usable(k.table, Probe(V4))
               && LongestIn(TunKeys(cfg.allowedIps), Probe(V4)) <= 0
    ensures Tiered(k.table, Start(w, k, cfg).k.table, cfg, a)
  {
    SetupForwarding(w, k, cfg.tunName, cfg.allowedIps, cfg.endpoints, a);
    SetupForwarding(w, k, cfg.tunName, cfg.allowedIps, cfg.endpoints, Probe(a.family));
    StartForwarding(w, k, cfg, a);
    var t1 := Setup(w, k, cfg.tunName, cfg.allowedIps, cfg.endpoints).k.table;
    TiersOf(k.table, t1, Start(w, k, cfg).k.table, cfg, a);
  }

  predicate KeepsHop(t0: Table, cfg: Config, a: Addr) {
    Prefix(a.family, []) in cfg.allowedIps || MatchLen(t0, a) >= LongestIn(TunKeys(cfg.allowedIps), a)
  }

  lemma EndpointOf(t0: Table, t1: Table, t: Table, cfg: Config, a: Addr)
    requires AfterSetup(t0, t1, cfg.tunName, cfg.allowedIps, cfg.endpoints, a) && AfterOwnStep(t1, t, cfg, a)
    requires a in EndpointIps(cfg.endpoints, a.family) && Usable(t0, a)
    ensures Lookup(t, a) == if KeepsHop(t0, cfg, a) then Lookup(t0, a) else Some(Iface(cfg.tunName))
  {
  }

  /** An endpoint whose original hop can be re-added keeps it through start-up if and only if AllowedIPs have a
      catch-all of its family, so that it is bypassed before anything is captured, or no AllowedIPs prefix covers it
      more closely than its original route. Otherwise it is sent into its own tunnel: the bypass for an unconfigured
      family comes too late and pins what AllowedIPs have captured. */
  lemma EndpointKeepsHopIff(w: World, k: Kernel, cfg: Config, a: Addr)
    requires Quiet(w, k.clock, Start(w, k, cfg).k.clock)
    requires exists ep :: ep in cfg.endpoints && ep.ip == a
    requires Lookup(k.table, a) !in {None, Some(Opaque), Some(Iface(cfg.tunName))}
    ensures var t := Start(w, k, cfg).k.table;
            && (Lookup(t, a) == Lookup(k.table, a) <==> KeepsHop(k.table, cfg, a))
            && (!KeepsHop(k.table, cfg, a) ==> Lookup(t, a) == Some(Iface(cfg.tunName)))
  {
    SetupForwarding(w, k, cfg.tunName, cfg.allowedIps, cfg.endpoints, a);
    StartForwarding(w, k, cfg, a);
    var t1 := Setup(w, k, cfg.tunName, cfg.allowedIps, cfg.endpoints).k.table;
    EndpointOf(k.table, t1, Start(w, k, cfg).k.table, cfg, a);
  }

  /** The failing family in its plainest form: the catch-all written as its two halves, over a default route. */
  lemma HalvesCaptureEndpoint(w: World, k: Kernel, cfg: Config, a: Addr, g: string)
    requires Quiet(w, k.clock, Start(w, k, cfg).k.clock)
    requires k.table == map[Prefix(V4, []) := Gateway(g)]
    requires cfg.allowedIps == [Prefix(V4, [false]), Prefix(V4, [true])]
    requires a.family == V4 && a in EndpointIps(cfg.endpoints, V4)
    ensures Lookup(k.table, a) == Some(Gateway(g))
    ensures Lookup(Start(w, k, cfg).k.table, a) == Some(Iface(cfg.tunName))
  {
    HalvesOverDefault(k.table, cfg.allowedIps, a, g);
    EndpointKeepsHopIff(w, k, cfg, a);
  }

  lemma HalvesOverDefault(t: Table, allowedIps: seq<IpNet>, a: Addr, g: string)
    requires t == map[Prefix(V4, []) := Gateway(g)] && a.family == V4
    requires allowedIps == [Prefix(V4, [false]), Prefix(V4, [true])]
    ensures MatchLen(t, a) == 0 && Lookup(t, a) == Some(Gateway(g))
    ensures !HasCatchall(allowedIps, V4) && LongestIn(TunKeys(allowedIps), a) >= 1
  {
    assert Lead(a, 0) in t;
    MatchLenIs(t, a, 0);
    TunKeysHold(allowedIps, Lead(a, 1));
    assert Lead(a, 1) == if a.bits[0] then allowedIps[1] else allowedIps[0];
  }

  lemma EscapesOf(t0: Table, t1: Table, t: Table, cfg: Config, a: Addr)
    requires AfterSetup(t0, t1, cfg.tunName, cfg.allowedIps, cfg.endpoints, a)
    requires AfterSetup(t0, t1, cfg.tunName, cfg.allowedIps, cfg.endpoints, Probe(a.family))
    requires AfterOwnStep(t1, t, cfg, a) && !HasFamily(cfg, a.family)
    requires MatchLen(t0, a) == 0 && MatchLen(t0, Probe(a.family)) == 0
    requires Usable(t0, a) && Lookup(t0, a) != Some(Iface(cfg.tunName))
    requires 1 <= LongestIn(BlackholeExemptions(a.family), a)
    requires LongestIn(TunKeys(cfg.allowedIps), a) < LongestIn(BlackholeExemptions(a.family), a)
    requires a !in EndpointIps(cfg.endpoints, a.family)
    ensures Lookup(t, a) == Lookup(t0, a)
       <==> LongestIn(TunKeys(cfg.allowedIps), Probe(a.family)) <= 0
            || BypassedBySetup(t0, cfg.allowedIps, cfg.endpoints, Probe(a.family))
  {
    assert Lead(Probe(a.family), 0) == Lead(a, 0);
  }

  /** An address in an exempt range that the default route served, like the probe, keeps its hop if and only if no
      prefix sent to the tunnel covers the probe, or the probe's address is itself a bypassed endpoint. */
  lemma ExemptEscapesIff(w: World, k: Kernel, cfg: Config, a: Addr)
    requires Quiet(w, k.clock, Start(w, k, cfg).k.clock) && !HasFamily(cfg, a.family)
    requires MatchLen(k.table, a) == 0 && MatchLen(k.table, Probe(a.family)) == 0
    requires Usable(k.table, a) && Lookup(k.table, a) != Some(Iface(cfg.tunName))
    requires 1 <= LongestIn(BlackholeExemptions(a.family), a)
    requires LongestIn(TunKeys(cfg.allowedIps), a) < LongestIn(BlackholeExemptions(a.family), a)
    requires a !in EndpointIps(cfg.endpoints, a.family)
    ensures var probe := Probe(a.family);
            Lookup(Start(w, k, cfg).k.table, a) == Lookup(k.table, a)
            <==> LongestIn(TunKeys(cfg.allowedIps), probe) <= 0
                 || BypassedBySetup(k.table, cfg.allowedIps, cfg.endpoints, probe)
  {
    SetupForwarding(w, k, cfg.tunName, cfg.allowedIps, cfg.endpoints, a);
    SetupForwarding(w, k, cfg.tunName, cfg.allowedIps, cfg.endpoints, Probe(a.family));
    StartForwarding(w, k, cfg, a);
    var t1 := Setup(w, k, cfg.tunName, cfg.allowedIps, cfg.endpoints).k.table;
    EscapesOf(k.table, t1, Start(w, k, cfg).k.table, cfg, a);
  }

  /** With a catch-all in AllowedIPs and no TUN address of the family, the halves are in place before the probe is
      asked: an exempt range that the default route served is sent into the tunnel instead of past it. */
  lemma ExemptionsLostUnderCatchall(w: World, k: Kernel, cfg: Config, a: Addr)
    requires Quiet(w, k.clock, Start(w, k, cfg).k.clock)
    requires !HasFamily(cfg, a.family) && HasCatchall(cfg.allowedIps, a.family)
    requires MatchLen(k.table, a) <= 0 && MatchLen(k.table, Probe(a.family)) <= 0
    requires a !in EndpointIps(cfg.endpoints, a.family) && Probe(a.family) !in EndpointIps(cfg.endpoints, a.family)
    ensures Lookup(Start(w, k, cfg).k.table, a) == Some(Iface(cfg.tunName))
  {
    TunKeysHold(cfg.allowedIps, Lead(a, 1));
    TunKeysHold(cfg.allowedIps, Lead(Probe(a.family), 1));
    SetupForwarding(w, k, cfg.tunName, cfg.allowedIps, cfg.endpoints, a);
    SetupForwarding(w, k, cfg.tunName, cfg.allowedIps, cfg.endpoints, Probe(a.family));
    StartForwarding(w, k, cfg, a);
  }
}
