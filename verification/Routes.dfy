/** Route management for the tunnel: what each procedure does to the kernel table, and which routes it records.

    Each procedure appears twice: as a function on values, about which the properties are proved, and as a method that
    changes the machine command by command and is proved to compute that function. */
module Routes {
  import opened Wrappers
  import opened Prefixes
  import opened Kernel

  datatype AddedRoute =
    | Net(prefix: Bits, tunName: string, family: Family)
    | Host(ip: Addr, gateway: Option<string>)
    | Passthrough(prefix: Bits, family: Family)

  /** The table key a record stands for. */
  function KeyOf(r: AddedRoute): Prefix {
    match r
    case Net(p, _, f) => Prefix(f, p)
    case Host(ip, _) => ip
    case Passthrough(p, f) => Prefix(f, p)
  }

  /** The kernel after a procedure, and the routes the procedure recorded. */
  datatype Progress = Progress(k: Kernel, routes: seq<AddedRoute>)

  function Append(routes: seq<AddedRoute>, p: Progress): Progress {
    Progress(p.k, routes + p.routes)
  }

  lemma AppendTwice(r: seq<AddedRoute>, s: seq<AddedRoute>, p: Progress)
    ensures Append(r + s, p) == Append(r, Append(s, p))
  {
    assert (r + s) + p.routes == r + (s + p.routes);
  }

  // ---------------------------------------------------------------- constants

  function BlackholeExemptions(f: Family): seq<Prefix> {
    match f
    case V4 => [
      Prefix(V4, ToBits(10, 8)),        // 10.0.0.0/8
      Prefix(V4, ToBits(401, 10)),      // 100.64.0.0/10
      Prefix(V4, ToBits(2753, 12)),     // 172.16.0.0/12
      Prefix(V4, ToBits(49320, 16))]    // 192.168.0.0/16
    case V6 => []
  }

  /** 1.1.1.1 and 2606:4700:4700::1111. */
  function ProbeNumber(f: Family): nat {
    match f
    case V4 => 0x0101_0101
    case V6 => 0x2606_4700_4700_0000_0000_0000_0000_1111
  }

  function Probe(f: Family): Addr {
    Prefix(f, ToBits(ProbeNumber(f), Width(f)))
  }

  function Halves(f: Family): seq<Prefix> {
    [Prefix(f, [false]), Prefix(f, [true])]
  }

  // ---------------------------------------------------------------- what the procedures do

  predicate HasCatchall(allowedIps: seq<IpNet>, f: Family) {
    exists n :: n in allowedIps && n.family == f && n.bits == []
  }

  /** How a route found by `route get` is re-added for a more specific key: by gateway first, then by interface. */
  function RouteVia(info: RouteInfo): Option<Hop> {
    if info.gateway.Some? then Some(Gateway(info.gateway.value))
    else if info.iface.Some? then Some(Iface(info.iface.value))
    else None
  }

  function BypassOne(w: World, k: Kernel, ep: SocketAddr, f: Family): (q: Progress)
    ensures q.k.clock >= k.clock
  {
    if ep.ip.family != f then Progress(k, []) else
    var (k1, info) := Get(w, k, ep.ip);
    if info.None? || RouteVia(info.value).None? then Progress(k1, []) else
    var (k2, added) := Add(w, k1, ep.ip, RouteVia(info.value).value);
    Progress(k2, if added then [Host(ep.ip, info.value.gateway)] else [])
  }

  function Bypass(w: World, k: Kernel, eps: seq<SocketAddr>, f: Family): (q: Progress)
    ensures q.k.clock >= k.clock
    decreases |eps|
  {
    if eps == [] then Progress(k, []) else
    var p := BypassOne(w, k, eps[0], f);
    Append(p.routes, Bypass(w, p.k, eps[1..], f))
  }

  /** Why a prefix is added: to reach the tunnel, or to escape it. */
  datatype Purpose = ToTun(tunName: string) | Escape

  function RecordFor(key: Prefix, purpose: Purpose): AddedRoute {
    match purpose
    case ToTun(tun) => Net(key.bits, tun, key.family)
    case Escape => Passthrough(key.bits, key.family)
  }

  function AddOne(w: World, k: Kernel, key: Prefix, hop: Hop, purpose: Purpose): (q: Progress)
    ensures q.k.clock >= k.clock
  {
    var (k1, added) := Add(w, k, key, hop);
    Progress(k1, if added then [RecordFor(key, purpose)] else [])
  }

  function AddAll(w: World, k: Kernel, keys: seq<Prefix>, hop: Hop, purpose: Purpose): (q: Progress)
    ensures q.k.clock >= k.clock
    decreases |keys|
  {
    if keys == [] then Progress(k, []) else
    var p := AddOne(w, k, keys[0], hop, purpose);
    Append(p.routes, AddAll(w, p.k, keys[1..], hop, purpose))
  }

  /** The keys routed to the tunnel for one AllowedIPs prefix: a catch-all becomes its two halves. */
  function NetKeys(net: IpNet): seq<Prefix> {
    if net.bits == [] then Halves(net.family) else [net]
  }

  function TunKeys(allowedIps: seq<IpNet>): seq<Prefix> {
    if allowedIps == [] then []
    else NetKeys(allowedIps[0]) + TunKeys(allowedIps[1..])
  }

  function BypassIf(c: bool, w: World, k: Kernel, eps: seq<SocketAddr>, f: Family): (q: Progress)
    ensures q.k.clock >= k.clock
  {
    if c then Bypass(w, k, eps, f) else Progress(k, [])
  }

  function Setup(w: World, k: Kernel, tun: string, allowedIps: seq<IpNet>, eps: seq<SocketAddr>): (q: Progress)
    ensures q.k.clock >= k.clock
  {
    var a := BypassIf(HasCatchall(allowedIps, V4), w, k, eps, V4);
    var b := BypassIf(HasCatchall(allowedIps, V6), w, a.k, eps, V6);
    var c := AddAll(w, b.k, TunKeys(allowedIps), Iface(tun), ToTun(tun));
    Progress(c.k, a.routes + b.routes + c.routes)
  }

  function Passthroughs(w: World, k: Kernel, f: Family): (q: Progress)
    ensures q.k.clock >= k.clock
  {
    if BlackholeExemptions(f) == [] then Progress(k, []) else
    var (k1, info) := Get(w, k, Probe(f));
    if info.None? || RouteVia(info.value).None? then Progress(k1, [])
    else AddAll(w, k1, BlackholeExemptions(f), RouteVia(info.value).value, Escape)
  }

  function Unconfigured(w: World, k: Kernel, f: Family, tun: string, eps: seq<SocketAddr>): (q: Progress)
    ensures q.k.clock >= k.clock
  {
    var a := Bypass(w, k, eps, f);
    var b := Passthroughs(w, a.k, f);
    var c := AddAll(w, b.k, Halves(f), Iface(tun), ToTun(tun));
    Progress(c.k, a.routes + b.routes + c.routes)
  }

  /** What the routes of one tunnel are made from. `hasV4` and `hasV6` say which families the TUN has an address of.
      */
  datatype Config =
    Config(tunName: string, allowedIps: seq<IpNet>, endpoints: seq<SocketAddr>, hasV4: bool, hasV6: bool)

  function UnconfiguredIf(c: bool, w: World, k: Kernel, f: Family, cfg: Config): (q: Progress)
    ensures q.k.clock >= k.clock
  {
    if c then Unconfigured(w, k, f, cfg.tunName, cfg.endpoints) else Progress(k, [])
  }

  /** All routes set up at start. */
  function Start(w: World, k: Kernel, cfg: Config): (q: Progress)
    ensures q.k.clock >= k.clock
  {
    var a := Setup(w, k, cfg.tunName, cfg.allowedIps, cfg.endpoints);
    var b := UnconfiguredIf(!cfg.hasV4, w, a.k, V4, cfg);
    var c := UnconfiguredIf(!cfg.hasV6, w, b.k, V6, cfg);
    Progress(c.k, a.routes + b.routes + c.routes)
  }

  function CurrentDefault(w: World, k: Kernel, f: Family): (Kernel, Option<string>) {
    var (k1, info) := GetDefault(w, k, f);
    (k1, if info.Some? then info.value.gateway else None)
  }

  /** The default gateways found at the start of a re-check. */
  datatype Defaults = Defaults(v4: Option<string>, v6: Option<string>) {
    function Of(f: Family): Option<string> {
      if f.V4? then v4 else v6
    }
  }

  function RecheckOne(w: World, k: Kernel, r: AddedRoute, now: Defaults): (q: (Kernel, AddedRoute))
    ensures q.0.clock >= k.clock
  {
    if !r.Host? || r.gateway == now.Of(r.ip.family) then (k, r) else
    var current := now.Of(r.ip.family);
    var k1 := Delete(w, k, KeyOf(r));
    if current.None? then (k1, r.(gateway := None)) else
    var (k2, installed) := Add(w, k1, KeyOf(r), Gateway(current.value));
    (k2, if installed then r.(gateway := current) else r)
  }

  function RecheckAll(w: World, k: Kernel, routes: seq<AddedRoute>, now: Defaults): (q: Progress)
    ensures q.k.clock >= k.clock
    decreases |routes|
  {
    if routes == [] then Progress(k, []) else
    var (k1, r) := RecheckOne(w, k, routes[0], now);
    Append([r], RecheckAll(w, k1, routes[1..], now))
  }

  /** The two reads with which every re-check begins. */
  function ReadDefaults(w: World, k: Kernel): (q: (Kernel, Defaults))
    ensures q.0.clock == k.clock + 2
  {
    var (k1, v4) := CurrentDefault(w, k, V4);
    var (k2, v6) := CurrentDefault(w, k1, V6);
    (k2, Defaults(v4, v6))
  }

  function Recheck(w: World, k: Kernel, routes: seq<AddedRoute>): (q: Progress)
    ensures q.k.clock >= k.clock + 2
  {
    var (k1, now) := ReadDefaults(w, k);
    RecheckAll(w, k1, routes, now)
  }

  function Cleanup(w: World, k: Kernel, routes: seq<AddedRoute>): Kernel
    decreases |routes|
  {
    if routes == [] then k else Cleanup(w, Delete(w, k, KeyOf(routes[0])), routes[1..])
  }

  // ---------------------------------------------------------------- the procedures themselves

  method BypassEndpoint(m: Machine, ep: SocketAddr, f: Family) returns (routes: seq<AddedRoute>)
    modifies m
    ensures Progress(m.kernel, routes) == BypassOne(m.world, old(m.kernel), ep, f)
  {
    routes := [];
    if ep.ip.family != f {
      return;
    }
    var info := m.RouteGet(ep.ip);
    if info.None? {
      return;
    }
    var added := false;
    if info.value.gateway.Some? {
      added := m.RouteAdd(ep.ip, Gateway(info.value.gateway.value));
    } else if info.value.iface.Some? {
      added := m.RouteAdd(ep.ip, Iface(info.value.iface.value));
    }
    if added {
      routes := [Host(ep.ip, info.value.gateway)];
    }
  }

  method InstallEndpointBypass(m: Machine, peerEndpoints: seq<SocketAddr>, f: Family) returns (routes: seq<AddedRoute>)
    modifies m
    ensures Progress(m.kernel, routes) == Bypass(m.world, old(m.kernel), peerEndpoints, f)
  {
    routes := [];
    ghost var goal := Bypass(m.world, m.kernel, peerEndpoints, f);
    for i := 0 to |peerEndpoints|
      invariant goal == Append(routes, Bypass(m.world, m.kernel, peerEndpoints[i..], f))
    {
      assert peerEndpoints[i..][1..] == peerEndpoints[i + 1..];
      var added := BypassEndpoint(m, peerEndpoints[i], f);
      AppendTwice(routes, added, Bypass(m.world, m.kernel, peerEndpoints[i + 1..], f));
      routes := routes + added;
    }
  }

  /** `add_net`, and the body of the passthrough loop: one `route add` and its record. */
  method AddRecorded(m: Machine, key: Prefix, hop: Hop, purpose: Purpose) returns (routes: seq<AddedRoute>)
    modifies m
    ensures Progress(m.kernel, routes) == AddOne(m.world, old(m.kernel), key, hop, purpose)
  {
    var added := m.RouteAdd(key, hop);
    routes := if added then [RecordFor(key, purpose)] else [];
  }

  method AddEscapes(m: Machine, keys: seq<Prefix>, hop: Hop) returns (routes: seq<AddedRoute>)
    modifies m
    ensures Progress(m.kernel, routes) == AddAll(m.world, old(m.kernel), keys, hop, Escape)
  {
    routes := [];
    ghost var goal := AddAll(m.world, m.kernel, keys, hop, Escape);
    for i := 0 to |keys|
      invariant goal == Append(routes, AddAll(m.world, m.kernel, keys[i..], hop, Escape))
    {
      assert keys[i..][1..] == keys[i + 1..];
      var added := AddRecorded(m, keys[i], hop, Escape);
      AppendTwice(routes, added, AddAll(m.world, m.kernel, keys[i + 1..], hop, Escape));
      routes := routes + added;
    }
  }

  method InstallPassthroughs(m: Machine, f: Family) returns (routes: seq<AddedRoute>)
    modifies m
    ensures Progress(m.kernel, routes) == Passthroughs(m.world, old(m.kernel), f)
  {
    routes := [];
    if BlackholeExemptions(f) == [] {
      return;
    }
    var info := m.RouteGet(Probe(f));
    if info.None? {
      return;
    }
    if info.value.gateway.Some? {
      routes := AddEscapes(m, BlackholeExemptions(f), Gateway(info.value.gateway.value));
    } else if info.value.iface.Some? {
      routes := AddEscapes(m, BlackholeExemptions(f), Iface(info.value.iface.value));
    }
  }

  method AddHalves(m: Machine, tun: string, f: Family) returns (routes: seq<AddedRoute>)
    modifies m
    ensures Progress(m.kernel, routes) == AddAll(m.world, old(m.kernel), Halves(f), Iface(tun), ToTun(tun))
  {
    var low := AddRecorded(m, Prefix(f, [false]), Iface(tun), ToTun(tun));
    ghost var k1 := m.kernel;
    var high := AddRecorded(m, Prefix(f, [true]), Iface(tun), ToTun(tun));
    routes := low + high;
    assert AddAll(m.world, k1, [Prefix(f, [true])], Iface(tun), ToTun(tun)) == Progress(m.kernel, high + []);
    assert Halves(f)[1..] == [Prefix(f, [true])];
    assert high + [] == high;
  }

  lemma AddAllAppend(w: World, k: Kernel, xs: seq<Prefix>, ys: seq<Prefix>, hop: Hop, purpose: Purpose)
    ensures var p := AddAll(w, k, xs, hop, purpose);
            AddAll(w, k, xs + ys, hop, purpose) == Append(p.routes, AddAll(w, p.k, ys, hop, purpose))
    decreases |xs|
  {
    if xs == [] {
      assert xs + ys == ys;
    } else {
      assert (xs + ys)[1..] == xs[1..] + ys;
      var p := AddOne(w, k, xs[0], hop, purpose);
      AddAllAppend(w, p.k, xs[1..], ys, hop, purpose);
      var q := AddAll(w, p.k, xs[1..], hop, purpose);
      AppendTwice(p.routes, q.routes, AddAll(w, q.k, ys, hop, purpose));
    }
  }

  method AddNet(m: Machine, tun: string, net: IpNet) returns (routes: seq<AddedRoute>)
    modifies m
    ensures Progress(m.kernel, routes) == AddAll(m.world, old(m.kernel), NetKeys(net), Iface(tun), ToTun(tun))
  {
    if net.bits == [] {
      routes := AddHalves(m, tun, net.family);
    } else {
      routes := AddRecorded(m, net, Iface(tun), ToTun(tun));
      assert routes + [] == routes && [net][1..] == [];
    }
  }

  method AddNets(m: Machine, tun: string, allowedIps: seq<IpNet>) returns (routes: seq<AddedRoute>)
    modifies m
    ensures Progress(m.kernel, routes) == AddAll(m.world, old(m.kernel), TunKeys(allowedIps), Iface(tun), ToTun(tun))
  {
    routes := [];
    ghost var goal := AddAll(m.world, m.kernel, TunKeys(allowedIps), Iface(tun), ToTun(tun));
    for i := 0 to |allowedIps|
      invariant goal == Append(routes, AddAll(m.world, m.kernel, TunKeys(allowedIps[i..]), Iface(tun), ToTun(tun)))
    {
      assert allowedIps[i..][1..] == allowedIps[i + 1..];
      AddAllAppend(m.world, m.kernel, NetKeys(allowedIps[i]), TunKeys(allowedIps[i + 1..]), Iface(tun), ToTun(tun));
      var added := AddNet(m, tun, allowedIps[i]);
      AppendTwice(routes, added, AddAll(m.world, m.kernel, TunKeys(allowedIps[i + 1..]), Iface(tun), ToTun(tun)));
      routes := routes + added;
    }
  }

  method BypassIfCatchall(m: Machine, allowedIps: seq<IpNet>, peerEndpoints: seq<SocketAddr>, f: Family)
    returns (routes: seq<AddedRoute>)
    modifies m
    ensures Progress(m.kernel, routes)
         == BypassIf(HasCatchall(allowedIps, f), m.world, old(m.kernel), peerEndpoints, f)
  {
    routes := [];
    if HasCatchall(allowedIps, f) {
      routes := InstallEndpointBypass(m, peerEndpoints, f);
    }
  }

  method SetupRoutes(m: Machine, tun: string, allowedIps: seq<IpNet>, peerEndpoints: seq<SocketAddr>)
    returns (routes: seq<AddedRoute>)
    modifies m
    ensures Progress(m.kernel, routes) == Setup(m.world, old(m.kernel), tun, allowedIps, peerEndpoints)
  {
    routes := BypassIfCatchall(m, allowedIps, peerEndpoints, V4);
    var more := BypassIfCatchall(m, allowedIps, peerEndpoints, V6);
    routes := routes + more;
    var nets := AddNets(m, tun, allowedIps);
    routes := routes + nets;
  }

  method SetupUnconfiguredFamily(m: Machine, f: Family, tun: string, peerEndpoints: seq<SocketAddr>)
    returns (routes: seq<AddedRoute>)
    modifies m
    ensures Progress(m.kernel, routes) == Unconfigured(m.world, old(m.kernel), f, tun, peerEndpoints)
  {
    routes := InstallEndpointBypass(m, peerEndpoints, f);
    var passes := InstallPassthroughs(m, f);
    routes := routes + passes;
    var halves := AddHalves(m, tun, f);
    routes := routes + halves;
  }

  method CurrentDefaultGateway(m: Machine, f: Family) returns (g: Option<string>)
    modifies m
    ensures (m.kernel, g) == CurrentDefault(m.world, old(m.kernel), f)
  {
    var info := m.RouteGetDefault(f);
    g := if info.Some? then info.value.gateway else None;
  }

  /** Owns the recorded routes for as long as the tunnel runs, and removes them at the end. */
  class CleanupGuard {
    var addedRoutes: seq<AddedRoute>

    constructor (routes: seq<AddedRoute>)
      ensures addedRoutes == routes
    {
      addedRoutes := routes;
    }

    method RecheckRoutes(m: Machine)
      modifies m, this
      ensures Progress(m.kernel, addedRoutes) == Recheck(m.world, old(m.kernel), old(addedRoutes))
    {
      var v4 := CurrentDefaultGateway(m, V4);
      var v6 := CurrentDefaultGateway(m, V6);
      ghost var given, goal := addedRoutes, RecheckAll(m.world, m.kernel, addedRoutes, Defaults(v4, v6));
      for i := 0 to |addedRoutes|
        invariant |addedRoutes| == |given| && addedRoutes[i..] == given[i..]
        invariant goal == Append(addedRoutes[..i], RecheckAll(m.world, m.kernel, given[i..], Defaults(v4, v6)))
      {
        assert addedRoutes[i] == given[i..][0] && given[i..][1..] == given[i + 1..];
        ghost var before := addedRoutes[..i];
        RecheckRoute(m, i, Defaults(v4, v6));
        assert addedRoutes[..i + 1] == before + [addedRoutes[i]];
        AppendTwice(before, [addedRoutes[i]], RecheckAll(m.world, m.kernel, given[i + 1..], Defaults(v4, v6)));
      }
    }

    method RecheckRoute(m: Machine, i: nat, now: Defaults)
      requires i < |addedRoutes|
      modifies m, this
      ensures |addedRoutes| == |old(addedRoutes)|
      ensures addedRoutes[..i] == old(addedRoutes[..i]) && addedRoutes[i + 1..] == old(addedRoutes[i + 1..])
      ensures (m.kernel, addedRoutes[i]) == RecheckOne(m.world, old(m.kernel), old(addedRoutes[i]), now)
    {
      var r := addedRoutes[i];
      if !r.Host? {
        return;
      }
      var current := now.Of(r.ip.family);
      if r.gateway == current {
        return;
      }
      m.RouteDelete(KeyOf(r));
      var installed := true;
      if current.Some? {
        installed := m.RouteAdd(KeyOf(r), Gateway(current.value));
      }
      if installed {
        addedRoutes := addedRoutes[i := r.(gateway := current)];
      }
    }

    method CleanupRoutes(m: Machine)
      modifies m
      ensures m.kernel == Cleanup(m.world, old(m.kernel), addedRoutes)
    {
      for i := 0 to |addedRoutes|
        invariant Cleanup(m.world, m.kernel, addedRoutes[i..]) == Cleanup(m.world, old(m.kernel), addedRoutes)
      {
        m.RouteDelete(KeyOf(addedRoutes[i]));
      }
    }
  }

  /** The guard takes over the routes of one unconfigured family. */
  method ExtendUnconfigured(m: Machine, guard: CleanupGuard, c: bool, f: Family, cfg: Config)
    modifies m, guard
    ensures Progress(m.kernel, guard.addedRoutes)
         == Append(old(guard.addedRoutes), UnconfiguredIf(c, m.world, old(m.kernel), f, cfg))
  {
    if c {
      var more := SetupUnconfiguredFamily(m, f, cfg.tunName, cfg.endpoints);
      guard.addedRoutes := guard.addedRoutes + more;
    } else {
      assert guard.addedRoutes + [] == guard.addedRoutes;
    }
  }

  method StartRoutes(m: Machine, cfg: Config) returns (guard: CleanupGuard)
    modifies m
    ensures fresh(guard)
    ensures Progress(m.kernel, guard.addedRoutes) == Start(m.world, old(m.kernel), cfg)
  {
    var routes := SetupRoutes(m, cfg.tunName, cfg.allowedIps, cfg.endpoints);
    guard := new CleanupGuard(routes);
    ExtendUnconfigured(m, guard, !cfg.hasV4, V4, cfg);
    ExtendUnconfigured(m, guard, !cfg.hasV6, V6, cfg);
  }
}
