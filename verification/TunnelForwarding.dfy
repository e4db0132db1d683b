/** Forwarding over the whole life of a tunnel: start-up, then any passes of the loop, while the rest of the host
    changes its own routes at every command. */
module TunnelForwarding {
  import opened Wrappers
  import opened Prefixes
  import opened Kernel
  import opened Routes
  import opened RouteUndo
  import opened RouteRecheck
  import opened RouteForwarding
  import opened PeerNets
  import opened Tunnel

  // ---------------------------------------------------------------- what start-up records

  /** What a record made for this configuration can be. */
  predicate MadeFor(cfg: Config, r: AddedRoute) {
    match r
    case Host(ip, _) => ip in EndpointIps(cfg.endpoints, ip.family)
    case Net(bits, tun, f) => tun == cfg.tunName && (Prefix(f, bits) in TunKeys(cfg.allowedIps) || |bits| == 1)
    case Passthrough(bits, f) => !HasFamily(cfg, f) && Prefix(f, bits) in BlackholeExemptions(f)
  }

  ghost predicate AllMadeFor(cfg: Config, routes: seq<AddedRoute>) {
    forall r :: r in routes ==> MadeFor(cfg, r)
  }

  lemma BypassRecords(w: World, k: Kernel, cfg: Config, eps: seq<SocketAddr>, f: Family)
    requires forall ep :: ep in eps ==> ep in cfg.endpoints
    ensures forall r :: r in Bypass(w, k, eps, f).routes ==> r.Host? && MadeFor(cfg, r)
    decreases |eps|
  {
    if eps != [] {
      var p := BypassOne(w, k, eps[0], f);
      assert eps[0] in cfg.endpoints;
      BypassRecords(w, p.k, cfg, eps[1..], f);
    }
  }

  lemma {:induction false} AddAllRecords(w: World, k: Kernel, keys: seq<Prefix>, hop: Hop, purpose: Purpose)
    ensures forall r :: r in AddAll(w, k, keys, hop, purpose).routes ==>
              KeyOf(r) in keys && r == RecordFor(KeyOf(r), purpose)
    decreases |keys|
  {
    if keys != [] {
      var p := AddOne(w, k, keys[0], hop, purpose);
      AddAllRecords(w, p.k, keys[1..], hop, purpose);
    }
  }

  lemma SetupRecords(w: World, k: Kernel, cfg: Config)
    ensures var q := Setup(w, k, cfg.tunName, cfg.allowedIps, cfg.endpoints);
            forall r :: r in q.routes ==> MadeFor(cfg, r) && !r.Passthrough?
  {
    BypassRecords(w, k, cfg, cfg.endpoints, V4);
    var p := BypassIf(HasCatchall(cfg.allowedIps, V4), w, k, cfg.endpoints, V4);
    BypassRecords(w, p.k, cfg, cfg.endpoints, V6);
    var q := BypassIf(HasCatchall(cfg.allowedIps, V6), w, p.k, cfg.endpoints, V6);
    AddAllRecords(w, q.k, TunKeys(cfg.allowedIps), Iface(cfg.tunName), ToTun(cfg.tunName));
  }

  lemma UnconfiguredRecords(w: World, k: Kernel, cfg: Config, f: Family)
    ensures AllMadeFor(cfg, UnconfiguredIf(!HasFamily(cfg, f), w, k, f, cfg).routes)
  {
    if !HasFamily(cfg, f) {
      BypassRecords(w, k, cfg, cfg.endpoints, f);
      var p := Bypass(w, k, cfg.endpoints, f);
      PassthroughRecords(w, p.k, cfg, f);
      var q := Passthroughs(w, p.k, f);
      AddAllRecords(w, q.k, Halves(f), Iface(cfg.tunName), ToTun(cfg.tunName));
    }
  }

  lemma PassthroughCases(w: World, k: Kernel, f: Family) returns (k1: Kernel, hop: Hop)
    ensures || Passthroughs(w, k, f).routes == []
            || Passthroughs(w, k, f) == AddAll(w, k1, BlackholeExemptions(f), hop, Escape)
  {
    k1, hop := k, Opaque;
    var (t, info) := Get(w, k, Probe(f));
    if info.Some? && RouteVia(info.value).Some? {
      k1, hop := t, RouteVia(info.value).value;
    }
  }

  lemma PassthroughRecords(w: World, k: Kernel, cfg: Config, f: Family)
    requires !HasFamily(cfg, f)
    ensures AllMadeFor(cfg, Passthroughs(w, k, f).routes)
  {
    ExemptionFamily(f);
    var k1, hop := PassthroughCases(w, k, f);
    EscapeRecords(w, k1, cfg, f, BlackholeExemptions(f), hop);
  }

  lemma EscapeRecords(w: World, k: Kernel, cfg: Config, f: Family, keys: seq<Prefix>, hop: Hop)
    requires !HasFamily(cfg, f)
    requires forall key :: key in keys ==> key.family == f && key in BlackholeExemptions(f)
    ensures AllMadeFor(cfg, AddAll(w, k, keys, hop, Escape).routes)
  {
    AddAllRecords(w, k, keys, hop, Escape);
  }

  lemma ExemptionFamily(f: Family)
    ensures forall p :: p in BlackholeExemptions(f) ==> p.family == f
  {
  }

  /** Every record of start-up is a bypass of a configured endpoint, a tunnel route for AllowedIPs or a half, or the
      escape of an exempt range in a family the TUN has no address of. */
  lemma StartRecords(w: World, k: Kernel, cfg: Config)
    ensures AllMadeFor(cfg, Start(w, k, cfg).routes)
  {
    SetupRecords(w, k, cfg);
    var a := Setup(w, k, cfg.tunName, cfg.allowedIps, cfg.endpoints);
    UnconfiguredRecords(w, a.k, cfg, V4);
    var b := UnconfiguredIf(!cfg.hasV4, w, a.k, V4, cfg);
    UnconfiguredRecords(w, b.k, cfg, V6);
  }

  lemma SameKinds(cfg: Config, before: seq<AddedRoute>, after: seq<AddedRoute>)
    requires SameButGateways(before, after)
    ensures AllMadeFor(cfg, before) ==> AllMadeFor(cfg, after)
    ensures forall r :: r in before && !r.Host? ==> r in after
  {
    forall r | r in before && !r.Host? ensures r in after {
      var i :| 0 <= i < |before| && before[i] == r;
      assert after[i] == r;
    }
    if AllMadeFor(cfg, before) {
      forall r | r in after ensures MadeFor(cfg, r) {
        var i :| 0 <= i < |after| && after[i] == r;
        assert before[i] in before && MadeFor(cfg, before[i]);
      }
    }
  }

  // ---------------------------------------------------------------- capture for life

  /** The longest tunnel prefix of the address, where the host's own table had nothing as long, has been recorded. */
  lemma LongestTunKeyRecorded(w: World, t0: Table, cfg: Config, a: Addr) returns (r: AddedRoute)
    requires var k := Kernel(t0, t0, {}, 0);
             Quiet(w, 0, Setup(w, k, cfg.tunName, cfg.allowedIps, cfg.endpoints).k.clock)
    requires a !in EndpointIps(cfg.endpoints, a.family)
    requires MatchLen(t0, a) < LongestIn(TunKeys(cfg.allowedIps), a)
    ensures r in Setup(w, Kernel(t0, t0, {}, 0), cfg.tunName, cfg.allowedIps, cfg.endpoints).routes
    ensures r == Net(Lead(a, LongestIn(TunKeys(cfg.allowedIps), a)).bits, cfg.tunName, a.family)
  {
    var k, n := Kernel(t0, t0, {}, 0), LongestIn(TunKeys(cfg.allowedIps), a);
    var p := Setup(w, k, cfg.tunName, cfg.allowedIps, cfg.endpoints);
    SetupForwarding(w, k, cfg.tunName, cfg.allowedIps, cfg.endpoints, a);
    SetupRecorded(w, t0, cfg);
    SetupRecords(w, k, cfg);
    r := RecordOf(w, t0, p.k, p.routes, a, n);
    NetRecord(cfg, r, a, n);
  }

  lemma SetupRecorded(w: World, t0: Table, cfg: Config)
    ensures var p := Setup(w, Kernel(t0, t0, {}, 0), cfg.tunName, cfg.allowedIps, cfg.endpoints);
            Recorded(w, t0, p.k, p.routes)
  {
    InitialState(w, t0);
    SetupKeeps(w, t0, Kernel(t0, t0, {}, 0), cfg.tunName, cfg.allowedIps, cfg.endpoints);
  }

  lemma NetRecord(cfg: Config, r: AddedRoute, a: Addr, n: nat)
    requires n <= |a.bits| && KeyOf(r) == Lead(a, n) && MadeFor(cfg, r) && !r.Passthrough?
    requires a !in EndpointIps(cfg.endpoints, a.family)
    ensures r == Net(Lead(a, n).bits, cfg.tunName, a.family)
  {
    assert r.Host? ==> r.ip == a;
  }

  lemma SetupInStart(w: World, k: Kernel, cfg: Config)
    ensures var p, q := Setup(w, k, cfg.tunName, cfg.allowedIps, cfg.endpoints), Start(w, k, cfg);
            p.k.clock <= q.k.clock && forall r :: r in p.routes ==> r in q.routes
  {
  }

  /** A live entry that is not the host's own has its record. */
  lemma RecordOf(w: World, t0: Table, k: Kernel, routes: seq<AddedRoute>, a: Addr, n: nat) returns (r: AddedRoute)
    requires Recorded(w, t0, k, routes) && n <= |a.bits|
    requires MatchLen(k.table, a) == n && MatchLen(k.foreign, a) < n
    ensures r in routes && KeyOf(r) == Lead(a, n)
  {
    var key := Lead(a, n);
    assert key in k.table && key !in k.foreign && key in Keys(routes);
    r :| r in routes && KeyOf(r) == key;
  }

  /** No record is longer than the tunnel route, for such an address. */
  lemma RecordMisses(cfg: Config, s: AddedRoute, a: Addr, n: nat, l: nat)
    requires MadeFor(cfg, s) && 1 <= n < l <= |a.bits| && a !in EndpointIps(cfg.endpoints, a.family)
    requires LongestIn(TunKeys(cfg.allowedIps), a) <= n
    requires HasFamily(cfg, a.family) || LongestIn(BlackholeExemptions(a.family), a) <= n
    ensures KeyOf(s) != Lead(a, l)
  {
    match s {
      case Host(ip, _) => assert |Lead(a, l).bits| == |a.bits| ==> Lead(a, l) == a;
      case Net(_, _, _) => assert Lead(a, l) !in TunKeys(cfg.allowedIps);
      case Passthrough(_, _) => assert !HasFamily(cfg, a.family) ==> Lead(a, l) !in BlackholeExemptions(a.family);
    }
  }

  /** In a state of the running tunnel, a tunnel route that no longer route of the host, no passthrough and no bypass
      overrides carries the address. */
  lemma NetCarries(w: World, t0: Table, cfg: Config, k: Kernel, routes: seq<AddedRoute>, a: Addr, n: nat)
    requires Running(w, t0, k, routes) && AllMadeFor(cfg, routes)
    requires 1 <= n <= |a.bits| && Net(a.bits[..n], cfg.tunName, a.family) in routes
    requires a !in EndpointIps(cfg.endpoints, a.family) && MatchLen(k.foreign, a) < n
    requires LongestIn(TunKeys(cfg.allowedIps), a) <= n
    requires HasFamily(cfg, a.family) || LongestIn(BlackholeExemptions(a.family), a) <= n
    ensures Lookup(k.table, a) == Some(Iface(cfg.tunName))
  {
    var r := Net(a.bits[..n], cfg.tunName, a.family);
    assert Truthful(k.table, r) && KeyOf(r) == Lead(a, n);
    forall l: nat | n < l <= |a.bits| ensures Lead(a, l) !in k.table {
      var key := Lead(a, l);
      assert key !in k.foreign;
      forall s | s in routes ensures KeyOf(s) != key {
        assert MadeFor(cfg, s);
        RecordMisses(cfg, s, a, n, l);
      }
      assert key !in k.owned && SameAt(k.table, k.foreign, key);
    }
    MatchLenIs(k.table, a, n);
  }

  /** Capture for life. If nothing interferes with start-up, an address that is no endpoint, that AllowedIPs cover
      more closely than the host's own routes do, and that no exempt range covers more closely still, goes into the
      tunnel in every reachable state in which the host's own routes are still shorter: whatever fails and whatever
      the rest of the host has changed in the meantime. */
  lemma CaptureForLife(w: World, t0: Table, cfg: Config, rt: seq<PeerRuntime>, arms: seq<Arm>, a: Addr)
    requires Quiet(w, 0, Start(w, Kernel(t0, t0, {}, 0), cfg).k.clock)
    requires a !in EndpointIps(cfg.endpoints, a.family)
    requires MatchLen(t0, a) < LongestIn(TunKeys(cfg.allowedIps), a)
    requires HasFamily(cfg, a.family)
             || LongestIn(BlackholeExemptions(a.family), a) <= LongestIn(TunKeys(cfg.allowedIps), a)
    ensures var s := AfterLoop(w, t0, cfg, rt, arms);
            MatchLen(s.k.foreign, a) < LongestIn(TunKeys(cfg.allowedIps), a) ==>
              Lookup(s.k.table, a) == Some(Iface(cfg.tunName))
  {
    var s0, s := Initial(w, t0, cfg, rt), AfterLoop(w, t0, cfg, rt, arms);
    var n := LongestIn(TunKeys(cfg.allowedIps), a);
    SetupInStart(w, Kernel(t0, t0, {}, 0), cfg);
    var r := LongestTunKeyRecorded(w, t0, cfg, a);
    assert r in s0.routes;
    TunKeysHold(cfg.allowedIps, Lead(a, n));
    StartRecords(w, Kernel(t0, t0, {}, 0), cfg);
    LoopInvariant(w, t0, cfg, rt, arms);
    SameKinds(cfg, s0.routes, s.routes);
    if MatchLen(s.k.foreign, a) < n {
      NetCarries(w, t0, cfg, s.k, s.routes, a, n);
    }
  }

  /** How closely the routes for an AllowedIPs prefix match: a catch-all is added as two halves. */
  function RouteLen(p: IpNet): nat {
    if p.bits == [] then 1 else |p.bits|
  }

  lemma CoveredLength(allowedIps: seq<IpNet>, p: IpNet, a: Addr)
    requires p in allowedIps && Covers(p, a)
    ensures RouteLen(p) <= LongestIn(TunKeys(allowedIps), a)
  {
    CoversIsLead(p, a);
    TunKeysHold(allowedIps, Lead(a, RouteLen(p)));
  }

  lemma CoveredIn(w: World, t0: Table, cfg: Config, rt: seq<PeerRuntime>, arms: seq<Arm>, p: IpNet, a: Addr)
    requires Quiet(w, 0, Start(w, Kernel(t0, t0, {}, 0), cfg).k.clock)
    requires p in cfg.allowedIps && Covers(p, a) && MatchLen(t0, a) < RouteLen(p)
    requires a !in EndpointIps(cfg.endpoints, a.family)
    requires HasFamily(cfg, a.family) || LongestIn(BlackholeExemptions(a.family), a) <= RouteLen(p)
    ensures var s := AfterLoop(w, t0, cfg, rt, arms);
            MatchLen(s.k.foreign, a) < RouteLen(p) ==> Lookup(s.k.table, a) == Some(Iface(cfg.tunName))
  {
    CoveredLength(cfg.allowedIps, p, a);
    CaptureForLife(w, t0, cfg, rt, arms, a);
  }

  /** What a peer may be sent is captured: in the tunnel to `peers`, if nothing interferes with start-up, an address
      covered by AllowedIPs of some peer more closely than by the host's own routes, and than by an exempt range,
      goes into the tunnel in every reachable state, unless it is an endpoint. */
  lemma CoveredIsCaptured(w: World, t0: Table, tunName: string, tunAddrs: seq<IpNet>, peers: seq<PeerConfig>,
                          now0: nat, arms: seq<Arm>, cfg: Config, i: nat, p: IpNet, a: Addr)
    requires cfg == ConfigOf(tunName, tunAddrs, peers) && Quiet(w, 0, Start(w, Kernel(t0, t0, {}, 0), cfg).k.clock)
    requires i < |peers| && p in peers[i].allowedIps && Covers(p, a) && MatchLen(t0, a) < RouteLen(p)
    requires forall j :: 0 <= j < |peers| && peers[j].endpoint.Some? ==> peers[j].endpoint.value.ip != a
    requires HasFamily(cfg, a.family) || LongestIn(BlackholeExemptions(a.family), a) <= RouteLen(p)
    ensures var s := AfterLoop(w, t0, cfg, SlotsOf(peers, now0), arms);
            MatchLen(s.k.foreign, a) < RouteLen(p) ==> Lookup(s.k.table, a) == Some(Iface(tunName))
  {
    ConfigHolds(tunName, tunAddrs, peers);
    CoveredIn(w, t0, cfg, SlotsOf(peers, now0), arms, p, a);
  }

  lemma NothingCovered(allowedIps: seq<IpNet>, a: Addr)
    requires forall p :: p in allowedIps ==> !Covers(p, a)
    ensures LongestIn(TunKeys(allowedIps), a) == -1
  {
    assert Covers(Prefix(a.family, []), a);
    assert forall l: nat :: l <= |a.bits| ==> Covers(Lead(a, l), a);
    var n := LongestIn(TunKeys(allowedIps), a);
    if n >= 0 {
      TunKeysHold(allowedIps, Lead(a, n));
    }
  }

  lemma UncoveredIn(w: World, t0: Table, cfg: Config, a: Addr)
    requires Quiet(w, 0, Start(w, Kernel(t0, t0, {}, 0), cfg).k.clock)
    requires a !in EndpointIps(cfg.endpoints, a.family) && LongestIn(TunKeys(cfg.allowedIps), a) == -1
    ensures var t := Start(w, Kernel(t0, t0, {}, 0), cfg).k.table;
            if HasFamily(cfg, a.family) then Lookup(t, a) == Lookup(t0, a)
            else MatchLen(t0, a) <= 0 && LongestIn(BlackholeExemptions(a.family), a) < 0 ==>
                   Lookup(t, a) == Some(Iface(cfg.tunName))
  {
    SetupForwarding(w, Kernel(t0, t0, {}, 0), cfg.tunName, cfg.allowedIps, cfg.endpoints, a);
    StartForwarding(w, Kernel(t0, t0, {}, 0), cfg, a);
  }

  /** What no peer may be sent is left alone if the TUN has an address of its family. Otherwise it must not leak: what
      only a default route served goes into the tunnel, exempt ranges apart. */
  lemma UncoveredFollowsTheFamily(w: World, t0: Table, tunName: string, tunAddrs: seq<IpNet>, peers: seq<PeerConfig>,
                                  cfg: Config, a: Addr)
    requires cfg == ConfigOf(tunName, tunAddrs, peers) && Quiet(w, 0, Start(w, Kernel(t0, t0, {}, 0), cfg).k.clock)
    requires forall j :: 0 <= j < |peers| && peers[j].endpoint.Some? ==> peers[j].endpoint.value.ip != a
    requires forall j, p :: 0 <= j < |peers| && p in peers[j].allowedIps ==> !Covers(p, a)
    ensures var t := Start(w, Kernel(t0, t0, {}, 0), cfg).k.table;
            if exists n :: n in tunAddrs && n.family == a.family then Lookup(t, a) == Lookup(t0, a)
            else MatchLen(t0, a) <= 0 && LongestIn(BlackholeExemptions(a.family), a) < 0 ==>
                   Lookup(t, a) == Some(Iface(tunName))
  {
    ConfigMisses(tunName, tunAddrs, peers, cfg, a);
    UncoveredIn(w, t0, cfg, a);
  }

  lemma ConfigMisses(tunName: string, tunAddrs: seq<IpNet>, peers: seq<PeerConfig>, cfg: Config, a: Addr)
    requires cfg == ConfigOf(tunName, tunAddrs, peers)
    requires forall j :: 0 <= j < |peers| && peers[j].endpoint.Some? ==> peers[j].endpoint.value.ip != a
    requires forall j, p :: 0 <= j < |peers| && p in peers[j].allowedIps ==> !Covers(p, a)
    ensures a !in EndpointIps(cfg.endpoints, a.family) && LongestIn(TunKeys(cfg.allowedIps), a) == -1
    ensures cfg.tunName == tunName && (HasFamily(cfg, a.family) <==> exists n :: n in tunAddrs && n.family == a.family)
  {
    ConfigHolds(tunName, tunAddrs, peers);
    NothingCovered(cfg.allowedIps, a);
  }

  // ---------------------------------------------------------------- bypasses follow the network

  lemma PassKeepsAgreement(w: World, t0: Table, index: map<SocketAddr, nat>, host: Option<nat>, s: Loop, arm: Arm)
    requires Running(w, t0, s.k, s.routes) && AllAgree(s.k, s.routes)
    requires AddsOk(w, s.k.clock, Pass(w, index, host, s, arm).k.clock)
    ensures var e := Pass(w, index, host, s, arm); AllAgree(e.k, e.routes)
  {
    if arm.TunFailed? || arm.ReplyFailed? || (arm.Timer? && TickRechecks(s.routes, host)) {
      RecheckConverges(w, t0, s.k, s.routes);
    }
  }

  lemma {:induction false} PassesKeepAgreement(w: World, t0: Table, index: map<SocketAddr, nat>, host: Option<nat>,
                                                s: Loop, arms: seq<Arm>)
    requires Running(w, t0, s.k, s.routes) && AllAgree(s.k, s.routes)
    requires AddsOk(w, s.k.clock, Passes(w, index, host, s, arms).k.clock)
    ensures var e := Passes(w, index, host, s, arms); AllAgree(e.k, e.routes)
    decreases |arms|
  {
    if arms != [] {
      PassKeepsRoutes(w, t0, index, host, s, arms[0]);
      PassKeepsAgreement(w, t0, index, host, s, arms[0]);
      PassesKeepAgreement(w, t0, index, host, Pass(w, index, host, s, arms[0]), arms[1..]);
    }
  }

  /** Where adds fail only on existing keys, records and kernel agree in every reachable state, and every endpoint
      whose record stores a gateway is forwarded to it, whatever networks the host moves through and whatever else
      it changes. */
  lemma EndpointsForwarded(w: World, t0: Table, cfg: Config, rt: seq<PeerRuntime>, arms: seq<Arm>)
    requires AddsOk(w, 0, AfterLoop(w, t0, cfg, rt, arms).k.clock)
    ensures var s := AfterLoop(w, t0, cfg, rt, arms);
            && AllAgree(s.k, s.routes)
            && (forall r :: r in s.routes && r.Host? && r.gateway.Some? ==>
                  Lookup(s.k.table, r.ip) == Some(Gateway(r.gateway.value)))
  {
    var s0, s := Initial(w, t0, cfg, rt), AfterLoop(w, t0, cfg, rt, arms);
    StartKeeps(w, t0, cfg);
    PassesKeepAgreement(w, t0, EndpointIndex(rt), FirstHost(s0.routes), s0, arms);
    forall r | r in s.routes && r.Host? && r.gateway.Some?
      ensures Lookup(s.k.table, r.ip) == Some(Gateway(r.gateway.value))
    {
      AgreementForwards(s.k, s.routes, r);
    }
  }

  /** From `s` to `e` every bypass has moved to the default gateways read in between, and every endpoint with a
      gateway goes there. */
  ghost predicate Follows(w: World, s: Loop, e: Loop) {
    && |e.routes| == |s.routes| && AllAgree(e.k, e.routes)
    && (forall i :: 0 <= i < |s.routes| ==> e.routes[i] == Followed(w, s.k, s.routes[i]))
    && (forall r :: r in e.routes && r.Host? && r.gateway.Some? ==>
          Lookup(e.k.table, r.ip) == Some(Gateway(r.gateway.value)))
  }

  /** The passes that re-check the routes: failed sends, and ticks while the first bypass stores no gateway. */
  ghost predicate Rechecking(routes: seq<AddedRoute>, arm: Arm) {
    arm.TunFailed? || arm.ReplyFailed? || (arm.Timer? && exists i: nat :: FirstAt(routes, i) && routes[i].gateway.None?)
  }

  lemma PassFollows(w: World, t0: Table, index: map<SocketAddr, nat>, r0: seq<AddedRoute>, s: Loop, arm: Arm)
    requires Running(w, t0, s.k, s.routes) && AllAgree(s.k, s.routes) && Rechecking(s.routes, arm)
    requires SameButGateways(r0, s.routes) && AddsOk(w, s.k.clock, Pass(w, index, FirstHost(r0), s, arm).k.clock)
    ensures Follows(w, s, Pass(w, index, FirstHost(r0), s, arm))
  {
    if arm.Timer? {
      var i: nat :| FirstAt(s.routes, i) && s.routes[i].gateway.None?;
      PassRechecksIff(w, index, r0, s, arm, i);
    }
    RecheckConverges(w, t0, s.k, s.routes);
  }

  /** Where adds fail only on existing keys: after any run, the next pass that re-checks makes every bypass, and every
      endpoint, follow the default gateways it reads, with interference at every tick. */
  lemma FollowsTheNetwork(w: World, t0: Table, cfg: Config, rt: seq<PeerRuntime>, arms: seq<Arm>, last: Arm)
    requires Rechecking(AfterLoop(w, t0, cfg, rt, arms).routes, last)
    requires AddsOk(w, 0, AfterLoop(w, t0, cfg, rt, arms + [last]).k.clock)
    ensures Follows(w, AfterLoop(w, t0, cfg, rt, arms), AfterLoop(w, t0, cfg, rt, arms + [last]))
  {
    LoopSteps(w, t0, cfg, rt, arms, last);
    EndpointsForwarded(w, t0, cfg, rt, arms);
    LoopInvariant(w, t0, cfg, rt, arms);
    PassFollows(w, t0, EndpointIndex(rt), Initial(w, t0, cfg, rt).routes, AfterLoop(w, t0, cfg, rt, arms), last);
  }

  // ---------------------------------------------------------------- a bypass that is lost for good

  /** The host moves from gateway `a` to `b` just before tick 4 and back just before tick 8; the add of tick 7
      fails. */
  function MovingWorld(a: string, b: string): World {
    World(n => n != 7, n => true, g => None,
          n => if n == 4 then map[Prefix(V4, []) := Some(Gateway(b))]
               else if n == 8 then map[Prefix(V4, []) := Some(Gateway(a))]
               else map[])
  }

  ghost predicate Moves(w: World, a: string, b: string) {
    && !w.addOk(7) && (forall n: nat :: n < 7 ==> w.addOk(n)) && (forall n: nat :: w.getOk(n))
    && w.env(4) == map[Prefix(V4, []) := Some(Gateway(b))] && w.env(8) == map[Prefix(V4, []) := Some(Gateway(a))]
    && forall n: nat :: n != 4 && n != 8 ==> w.env(n) == map[]
  }

  function OnePeer(ip: Addr, tun: string): Config {
    Config(tun, [Prefix(V4, [])], [SocketAddr(ip, 51820)], true, true)
  }

  /** The state after start-up in that world. */
  function Laid(ip: Addr, tun: string, a: string): Progress {
    var t0: Table := map[Prefix(V4, []) := Gateway(a)];
    var x, y := Prefix(V4, [false]), Prefix(V4, [true]);
    Progress(Kernel(t0[ip := Gateway(a)][x := Iface(tun)][y := Iface(tun)], t0, {ip} + {x} + {y}, 4),
             [Host(ip, Some(a)), Net([false], tun, V4), Net([true], tun, V4)])
  }

  lemma MovingBypass(w: World, ip: Addr, a: string, b: string)
    requires ip.family == V4 && Moves(w, a, b)
    ensures var t0: Table := map[Prefix(V4, []) := Gateway(a)];
            Bypass(w, Kernel(t0, t0, {}, 0), [SocketAddr(ip, 51820)], V4)
            == Progress(Kernel(t0[ip := Gateway(a)], t0, {ip}, 2), [Host(ip, Some(a))])
  {
    var t0: Table := map[Prefix(V4, []) := Gateway(a)];
    var k, eps := Kernel(t0, t0, {}, 0), [SocketAddr(ip, 51820)];
    assert Lead(ip, 0) in t0;
    MatchLenIs(t0, ip, 0);
    QuietTick(w, k);
    QuietTick(w, k.(clock := 1));
    assert BypassOne(w, k, eps[0], V4)
        == Progress(Kernel(t0[ip := Gateway(a)], t0, {ip}, 2), [Host(ip, Some(a))]);
    assert eps[1..] == [];
  }

  lemma QuietAddOne(w: World, k: Kernel, key: Prefix, tun: string)
    requires w.env(k.clock) == map[] && w.addOk(k.clock) && key !in k.table
    ensures AddOne(w, k, key, Iface(tun), ToTun(tun))
         == Progress(k.(clock := k.clock + 1, table := k.table[key := Iface(tun)], owned := k.owned + {key}),
                     [Net(key.bits, tun, key.family)])
  {
    QuietTick(w, k);
  }

  lemma AddTwo(w: World, k: Kernel, x: Prefix, y: Prefix, tun: string)
    requires w.env(k.clock) == map[] && w.addOk(k.clock) && w.env(k.clock + 1) == map[] && w.addOk(k.clock + 1)
    requires x !in k.table && y !in k.table && x != y
    ensures AddAll(w, k, [x, y], Iface(tun), ToTun(tun))
         == Progress(k.(clock := k.clock + 2, table := k.table[x := Iface(tun)][y := Iface(tun)],
                        owned := k.owned + {x} + {y}),
                     [Net(x.bits, tun, x.family), Net(y.bits, tun, y.family)])
  {
    QuietAddOne(w, k, x, tun);
    var k1 := AddOne(w, k, x, Iface(tun), ToTun(tun)).k;
    QuietAddOne(w, k1, y, tun);
    assert [x, y][1..] == [y] && [y][1..] == [];
    assert AddAll(w, k1, [y], Iface(tun), ToTun(tun)) == AddOne(w, k1, y, Iface(tun), ToTun(tun)) by {
      var p := AddOne(w, k1, y, Iface(tun), ToTun(tun));
      assert p.routes + [] == p.routes;
    }
  }

  lemma OneCatchall(nets: seq<IpNet>)
    requires nets == [Prefix(V4, [])]
    ensures HasCatchall(nets, V4) && !HasCatchall(nets, V6)
    ensures TunKeys(nets) == [Prefix(V4, [false]), Prefix(V4, [true])]
  {
    assert nets[0] in nets;
  }

  lemma MovingSetup(w: World, t0: Table, nets: seq<IpNet>, eps: seq<SocketAddr>, ip: Addr, tun: string, a: string,
                    b: string)
    requires ip.family == V4 && Moves(w, a, b) && t0 == map[Prefix(V4, []) := Gateway(a)]
    requires nets == [Prefix(V4, [])] && eps == [SocketAddr(ip, 51820)]
    ensures Setup(w, Kernel(t0, t0, {}, 0), tun, nets, eps) == Laid(ip, tun, a)
  {
    OneCatchall(nets);
    MovingBypass(w, ip, a, b);
    MovingNets(w, ip, tun, a, b);
    var p := Progress(Kernel(t0[ip := Gateway(a)], t0, {ip}, 2), [Host(ip, Some(a))]);
    assert p.routes + [] == p.routes;
  }

  lemma MovingNets(w: World, ip: Addr, tun: string, a: string, b: string)
    requires ip.family == V4 && Moves(w, a, b)
    ensures var t0: Table := map[Prefix(V4, []) := Gateway(a)];
            var x, y := Prefix(V4, [false]), Prefix(V4, [true]);
            AddAll(w, Kernel(t0[ip := Gateway(a)], t0, {ip}, 2), [x, y], Iface(tun), ToTun(tun))
            == Progress(Laid(ip, tun, a).k, [Net([false], tun, V4), Net([true], tun, V4)])
  {
    var t0: Table := map[Prefix(V4, []) := Gateway(a)];
    var x, y := Prefix(V4, [false]), Prefix(V4, [true]);
    assert x.bits != y.bits && x != ip && y != ip;
    AddTwo(w, Kernel(t0[ip := Gateway(a)], t0, {ip}, 2), x, y, tun);
  }

  /** Start-up in that world: the bypass through `a`, then the two halves. */
  lemma MovingStart(w: World, t0: Table, cfg: Config, ip: Addr, a: string, b: string)
    requires ip.family == V4 && Moves(w, a, b) && t0 == map[Prefix(V4, []) := Gateway(a)]
    requires cfg == OnePeer(ip, cfg.tunName)
    ensures Start(w, Kernel(t0, t0, {}, 0), cfg) == Laid(ip, cfg.tunName, a)
  {
    MovingSetup(w, t0, cfg.allowedIps, cfg.endpoints, ip, cfg.tunName, a, b);
    NoUnconfigured(w, Kernel(t0, t0, {}, 0), cfg);
  }

  lemma NoUnconfigured(w: World, k: Kernel, cfg: Config)
    requires cfg.hasV4 && cfg.hasV6
    ensures Start(w, k, cfg) == Setup(w, k, cfg.tunName, cfg.allowedIps, cfg.endpoints)
  {
    var p := Setup(w, k, cfg.tunName, cfg.allowedIps, cfg.endpoints);
    assert p.routes + [] + [] == p.routes;
  }

  lemma PatchOne(t: Table, key: Prefix, g: string, owned: set<Prefix>)
    requires key !in owned
    ensures Patched(t, map[key := Some(Gateway(g))], owned) == t[key := Gateway(g)]
  {
  }

  /** The two reads of a re-check while the host replaces the IPv4 default just before the first. */
  lemma MovingReads(w: World, k: Kernel, g: string)
    requires w.env(k.clock) == map[Prefix(V4, []) := Some(Gateway(g))] && w.env(k.clock + 1) == map[]
    requires w.getOk(k.clock) && Prefix(V4, []) !in k.owned
    ensures var (k1, now) := ReadDefaults(w, k);
            && now.v4 == Some(g) && k1.clock == k.clock + 2 && k1.owned == k.owned
            && k1.table == k.table[Prefix(V4, []) := Gateway(g)]
  {
    PatchOne(k.table, Prefix(V4, []), g, k.owned);
    QuietTick(w, Tick(w, k));
    ReadsTheDefaults(w, k);
  }

  /** The delete succeeds, the add fails: the record keeps its gateway, and the route is gone. */
  lemma FailedReadd(w: World, k: Kernel, r: AddedRoute, now: Defaults)
    requires Stale(r, now) && now.Of(r.ip.family).Some?
    requires w.env(k.clock) == map[] && w.env(k.clock + 1) == map[] && !w.addOk(k.clock + 1)
    ensures RecheckOne(w, k, r, now) == (k.(table := k.table - {r.ip}, clock := k.clock + 2), r)
  {
    QuietTick(w, k);
    QuietTick(w, Delete(w, k, r.ip));
  }

  lemma MovesAway(w: World, k: Kernel, r: AddedRoute, rest: seq<AddedRoute>, g: string)
    requires w.env(k.clock) == map[Prefix(V4, []) := Some(Gateway(g))] && w.getOk(k.clock)
    requires w.env(k.clock + 1) == w.env(k.clock + 2) == w.env(k.clock + 3) == map[] && !w.addOk(k.clock + 3)
    requires Prefix(V4, []) !in k.owned && r.Host? && r.ip.family == V4 && r.gateway != Some(g)
    requires forall s :: s in rest ==> s.Net?
    ensures var q := Recheck(w, k, [r] + rest);
            && q.routes == [r] + rest && q.k.clock == k.clock + 4 && q.k.owned == k.owned
            && r.ip !in q.k.table
  {
    MovingReads(w, k, g);
    var (k1, now) := ReadDefaults(w, k);
    FailedReadd(w, k1, r, now);
    var k2 := RecheckOne(w, k1, r, now).0;
    assert ([r] + rest)[1..] == rest;
    NothingToDo(w, k2, rest, now);
  }

  lemma MovesBack(w: World, k: Kernel, r: AddedRoute, rest: seq<AddedRoute>, g: string)
    requires w.env(k.clock) == map[Prefix(V4, []) := Some(Gateway(g))] && w.env(k.clock + 1) == map[]
    requires w.getOk(k.clock)
    requires Prefix(V4, []) !in k.owned && r.Host? && r.ip.family == V4 && r.gateway == Some(g) && r.ip !in k.table
    requires forall s :: s in rest ==> s.Net?
    ensures var q := Recheck(w, k, [r] + rest);
            && q.routes == [r] + rest && DefaultGateway(q.k.table, V4) == Some(g) && r.ip !in q.k.table
  {
    MovingReads(w, k, g);
    var (k1, now) := ReadDefaults(w, k);
    NothingToDo(w, k1, [r] + rest, now);
  }

  /** The failing family of `RecheckAgreesIff` and `StaysMissing` is reachable from start-up: one endpoint, a
      catch-all and a default route through `a`. The host moves to `b` and the re-add fails; the host moves back to
      `a`. The record then stores `a`, the default is `a`, and the bypass is missing. */
  lemma LostBypass(ip: Addr, tun: string, a: string, b: string, rt: seq<PeerRuntime>)
    requires ip.family == V4 && a != b
    ensures var t0: Table := map[Prefix(V4, []) := Gateway(a)];
            var s := AfterLoop(MovingWorld(a, b), t0, OnePeer(ip, tun), rt, [TunFailed, TunFailed]);
            && |s.routes| == 3 && s.routes[0] == Host(ip, Some(a))
            && DefaultGateway(s.k.table, V4) == Some(a) && ip !in s.k.table
  {
    LostBypassIn(MovingWorld(a, b), map[Prefix(V4, []) := Gateway(a)], OnePeer(ip, tun), ip, a, b, rt);
  }

  lemma LostBypassIn(w: World, t0: Table, cfg: Config, ip: Addr, a: string, b: string, rt: seq<PeerRuntime>)
    requires ip.family == V4 && a != b && Moves(w, a, b) && t0 == map[Prefix(V4, []) := Gateway(a)]
    requires cfg == OnePeer(ip, cfg.tunName)
    ensures Lost(AfterLoop(w, t0, cfg, rt, [TunFailed, TunFailed]), ip, a)
  {
    var p := Laid(ip, cfg.tunName, a);
    MovingStart(w, t0, cfg, ip, a, b);
    LostFrom(w, Loop(p.k, p.routes, rt), ip, a, b);
  }

  /** The record of the endpoint stores gateway `a`, which is the default gateway, but its route is gone. */
  ghost predicate Lost(s: Loop, ip: Addr, a: string) {
    && |s.routes| == 3 && s.routes[0] == Host(ip, Some(a))
    && DefaultGateway(s.k.table, V4) == Some(a) && ip !in s.k.table
  }

  lemma LostFrom(w: World, s: Loop, ip: Addr, a: string, b: string)
    requires ip.family == V4 && a != b && Moves(w, a, b)
    requires s.k.clock == 4 && Prefix(V4, []) !in s.k.owned
    requires |s.routes| == 3 && s.routes[0] == Host(ip, Some(a)) && s.routes[1].Net? && s.routes[2].Net?
    ensures Lost(LoopFrom(w, s, [TunFailed, TunFailed]), ip, a)
  {
    AwayAndBack(w, Progress(s.k, s.routes), ip, a, b);
    TwoFailedSends(w, EndpointIndex(s.rt), FirstHost(s.routes), s);
  }

  lemma AwayAndBack(w: World, p: Progress, ip: Addr, a: string, b: string)
    requires ip.family == V4 && a != b && Moves(w, a, b)
    requires p.k.clock == 4 && Prefix(V4, []) !in p.k.owned
    requires |p.routes| == 3 && p.routes[0] == Host(ip, Some(a)) && p.routes[1].Net? && p.routes[2].Net?
    ensures var q := Recheck(w, p.k, p.routes);
            var e := Recheck(w, q.k, q.routes);
            && e.routes == p.routes && DefaultGateway(e.k.table, V4) == Some(a) && ip !in e.k.table
  {
    var r, rest := Host(ip, Some(a)), p.routes[1..];
    assert p.routes == [r] + rest;
    MovesAway(w, p.k, r, rest, b);
    var q := Recheck(w, p.k, p.routes);
    MovesBack(w, q.k, r, rest, a);
  }

  lemma TwoFailedSends(w: World, index: map<SocketAddr, nat>, host: Option<nat>, s: Loop)
    ensures Passes(w, index, host, s, [TunFailed, TunFailed]) == Rechecked(w, Rechecked(w, s))
  {
    var s1 := Rechecked(w, s);
    assert [TunFailed, TunFailed][1..] == [TunFailed] && [TunFailed][1..] == [];
    assert Passes(w, index, host, s1, [TunFailed]) == Rechecked(w, s1);
  }
}
