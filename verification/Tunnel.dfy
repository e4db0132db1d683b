/** The tunnel's event loop: per-peer keepalive state, the endpoint index, and the routes it guards. */
module Tunnel {
  import opened Wrappers
  import opened Prefixes
  import opened Kernel
  import opened Routes
  import opened RouteUndo
  import opened PeerNets

  /** Times are readings of a monotone clock; `keepalive` is an interval. */
  datatype PeerRuntime = PeerRuntime(id: PeerId, endpoint: Option<SocketAddr>, keepalive: Option<nat>, lastSent: nat)

  /** One pass of the select loop, by its outcome. `TunSent` carries the reading taken after the send; `ReplyFailed`
      and `TunFailed` are sends that failed. Passes that touch neither peers nor routes are `Other`. */
  datatype Arm = Timer(now: nat) | TunSent(dst: SocketAddr, now: nat) | TunFailed | ReplyFailed | Other

  /** The loop's state. */
  datatype Loop = Loop(k: Kernel, routes: seq<AddedRoute>, rt: seq<PeerRuntime>)

  // ---------------------------------------------------------------- peers

  /** One slot per configured peer, in the order of the configuration. */
  function RuntimeOf(peers: seq<PeerConfig>, ids: seq<PeerId>, now: nat): (r: seq<PeerRuntime>)
    requires |ids| == |peers|
    ensures |r| == |peers|
  {
    seq(|peers|, i requires 0 <= i < |peers| =>
      PeerRuntime(ids[i], peers[i].endpoint, peers[i].persistentKeepalive, now))
  }

  /** The ids that the session builder hands out, in the order of the configuration. */
  function IdsOf(peers: seq<PeerConfig>): (r: seq<PeerId>)
    ensures |r| == |peers|
  {
    seq(|peers|, i requires 0 <= i => Peer(i))
  }

  function AllowedIpsOf(peers: seq<PeerConfig>): seq<IpNet> {
    if peers == [] then []
    else AllowedIpsOf(peers[..|peers| - 1]) + peers[|peers| - 1].allowedIps
  }

  function EndpointsOf(peers: seq<PeerConfig>): seq<SocketAddr> {
    if peers == [] then []
    else
      var ep := peers[|peers| - 1].endpoint;
      EndpointsOf(peers[..|peers| - 1]) + if ep.Some? then [ep.value] else []
  }

  /** What the routes of the tunnel are made from: the peers, and the addresses given to the TUN. */
  function ConfigOf(tunName: string, tunAddrs: seq<IpNet>, peers: seq<PeerConfig>): Config {
    Config(tunName, AllowedIpsOf(peers), EndpointsOf(peers),
           exists n :: n in tunAddrs && n.family == V4, exists n :: n in tunAddrs && n.family == V6)
  }

  /** The state from which a tunnel to these peers runs. */
  function SlotsOf(peers: seq<PeerConfig>, now: nat): (r: seq<PeerRuntime>)
    ensures |r| == |peers|
  {
    RuntimeOf(peers, IdsOf(peers), now)
  }

  /** The routes come from the peers and from nothing else: exactly the prefixes some peer lists and the endpoints
      some peer has. */
  lemma {:induction false} ConfigHolds(tunName: string, tunAddrs: seq<IpNet>, peers: seq<PeerConfig>)
    ensures var cfg := ConfigOf(tunName, tunAddrs, peers);
            && (forall p :: p in cfg.allowedIps <==> exists i :: 0 <= i < |peers| && p in peers[i].allowedIps)
            && (forall ep :: ep in cfg.endpoints <==> exists i :: 0 <= i < |peers| && peers[i].endpoint == Some(ep))
  {
    if peers != [] {
      var last := |peers| - 1;
      ConfigHolds(tunName, tunAddrs, peers[..last]);
      assert forall i :: 0 <= i < last ==> peers[..last][i] == peers[i];
    }
  }

  /** Prefixes and endpoints are gathered in the order of the peers. */
  lemma ConfigInOrder(peers: seq<PeerConfig>, p: PeerConfig)
    ensures AllowedIpsOf(peers + [p]) == AllowedIpsOf(peers) + p.allowedIps && AllowedIpsOf([]) == []
    ensures EndpointsOf(peers + [p]) == EndpointsOf(peers) + (if p.endpoint.Some? then [p.endpoint.value] else [])
    ensures EndpointsOf([]) == []
  {
    assert (peers + [p])[..|peers|] == peers;
  }

  function Elapsed(now: nat, since: nat): nat {
    if now >= since then now - since else 0
  }

  predicate Due(p: PeerRuntime, now: nat) {
    p.keepalive.Some? && Elapsed(now, p.lastSent) >= p.keepalive.value
  }

  function Ticked(p: PeerRuntime, now: nat): PeerRuntime {
    if Due(p, now) then p.(lastSent := now) else p
  }

  function TickAll(rt: seq<PeerRuntime>, now: nat): (r: seq<PeerRuntime>)
    ensures |r| == |rt|
  {
    seq(|rt|, i requires 0 <= i < |rt| => Ticked(rt[i], now))
  }

  /** The reverse index: endpoints to slots, a later slot overwriting an earlier one. */
  function EndpointIndex(rt: seq<PeerRuntime>): map<SocketAddr, nat> {
    if rt == [] then map[] else
    var last := |rt| - 1;
    var m := EndpointIndex(rt[..last]);
    if rt[last].endpoint.Some? then m[rt[last].endpoint.value := last] else m
  }

  /** `i` is the last peer configured with this endpoint. */
  ghost predicate LastWith(rt: seq<PeerRuntime>, ep: SocketAddr, i: nat) {
    i < |rt| && rt[i].endpoint == Some(ep) && forall j :: i < j < |rt| ==> rt[j].endpoint != Some(ep)
  }

  lemma {:induction false} IndexIsLast(rt: seq<PeerRuntime>, ep: SocketAddr)
    ensures ep in EndpointIndex(rt) ==> LastWith(rt, ep, EndpointIndex(rt)[ep])
    ensures ep !in EndpointIndex(rt) ==> forall i :: 0 <= i < |rt| ==> rt[i].endpoint != Some(ep)
  {
    if rt != [] {
      var last := |rt| - 1;
      IndexIsLast(rt[..last], ep);
    }
  }

  function CountSend(rt: seq<PeerRuntime>, index: map<SocketAddr, nat>, dst: SocketAddr, now: nat): seq<PeerRuntime> {
    if dst in index && index[dst] < |rt| then rt[index[dst] := rt[index[dst]].(lastSent := now)] else rt
  }

  // ---------------------------------------------------------------- the loop

  /** The position of the first host route, fixed when the loop starts. */
  function FirstHost(routes: seq<AddedRoute>): (r: Option<nat>)
    ensures r.Some? ==> r.value < |routes| && routes[r.value].Host?
    ensures r.Some? ==> forall i :: 0 <= i < r.value ==> !routes[i].Host?
    ensures r.None? ==> forall i :: 0 <= i < |routes| ==> !routes[i].Host?
  {
    if routes == [] then None
    else if routes[0].Host? then Some(0)
    else
      var r := FirstHost(routes[1..]);
      if r.Some? then
        assert routes[1..][r.value] == routes[r.value + 1];
        Some(r.value + 1)
      else None
  }

  /** The tick re-checks the routes only while the first bypass has no gateway. */
  predicate TickRechecks(routes: seq<AddedRoute>, host: Option<nat>) {
    host.Some? && host.value < |routes| && routes[host.value].Host? && routes[host.value].gateway.None?
  }

  function Rechecked(w: World, s: Loop): (e: Loop)
    ensures e.k.clock >= s.k.clock
  {
    var q := Recheck(w, s.k, s.routes);
    Loop(q.k, q.routes, s.rt)
  }

  function Pass(w: World, index: map<SocketAddr, nat>, host: Option<nat>, s: Loop, arm: Arm): (e: Loop)
    ensures e.k.clock >= s.k.clock && |e.rt| == |s.rt|
  {
    match arm
    case Timer(now) =>
      var s1 := if TickRechecks(s.routes, host) then Rechecked(w, s) else s;
      s1.(rt := TickAll(s1.rt, now))
    case TunSent(dst, now) => s.(rt := CountSend(s.rt, index, dst, now))
    case TunFailed => Rechecked(w, s)
    case ReplyFailed => Rechecked(w, s)
    case Other => s
  }

  function Passes(w: World, index: map<SocketAddr, nat>, host: Option<nat>, s: Loop, arms: seq<Arm>): (e: Loop)
    ensures e.k.clock >= s.k.clock
    decreases |arms|
  {
    if arms == [] then s else Passes(w, index, host, Pass(w, index, host, s, arms[0]), arms[1..])
  }

  /** The loop's state at the moment it starts. */
  function Initial(w: World, t0: Table, cfg: Config, rt: seq<PeerRuntime>): Loop {
    var p := Start(w, Kernel(t0, t0, {}, 0), cfg);
    Loop(p.k, p.routes, rt)
  }

  /** A run of the loop from state `s`, where the endpoint index and the first bypass are those of `s`. */
  function LoopFrom(w: World, s: Loop, arms: seq<Arm>): Loop {
    Passes(w, EndpointIndex(s.rt), FirstHost(s.routes), s, arms)
  }

  function AfterLoop(w: World, t0: Table, cfg: Config, rt: seq<PeerRuntime>, arms: seq<Arm>): Loop {
    LoopFrom(w, Initial(w, t0, cfg, rt), arms)
  }

  // ---------------------------------------------------------------- the loop itself

  /** Collects the reverse index. */
  method BuildIndex(rt: seq<PeerRuntime>) returns (index: map<SocketAddr, nat>)
    ensures index == EndpointIndex(rt)
    ensures forall ep :: ep in index ==> LastWith(rt, ep, index[ep])
    ensures forall i :: 0 <= i < |rt| && rt[i].endpoint.Some? ==> rt[i].endpoint.value in index
  {
    index := map[];
    for i := 0 to |rt|
      invariant index == EndpointIndex(rt[..i])
      invariant forall ep :: ep in index ==> LastWith(rt[..i], ep, index[ep])
      invariant forall j :: 0 <= j < i && rt[j].endpoint.Some? ==> rt[j].endpoint.value in index
    {
      assert rt[..i + 1][..i] == rt[..i];
      if rt[i].endpoint.Some? {
        index := index[rt[i].endpoint.value := i];
      }
    }
    assert rt[..|rt|] == rt;
  }

  /** The keepalive part of the tick arm; `fired` lists the peers a keepalive was attempted for: those that have been
      silent for at least their interval. They alone are stamped. */
  method TickPeers(rt: array<PeerRuntime>, now: nat) returns (fired: seq<nat>)
    modifies rt
    ensures rt[..] == TickAll(old(rt[..]), now)
    ensures forall i :: i in fired <==>
              && 0 <= i < rt.Length && old(rt[..])[i].keepalive.Some?
              && (if now >= old(rt[..])[i].lastSent then now - old(rt[..])[i].lastSent else 0)
                 >= old(rt[..])[i].keepalive.value
    ensures forall i :: 0 <= i < rt.Length ==>
              rt[i] == if i in fired then old(rt[..])[i].(lastSent := now) else old(rt[..])[i]
  {
    fired := [];
    for i := 0 to rt.Length
      invariant forall j :: 0 <= j < i ==> rt[j] == Ticked(old(rt[..])[j], now)
      invariant forall j :: i <= j < rt.Length ==> rt[j] == old(rt[..])[j]
      invariant forall j :: j in fired <==> 0 <= j < i && Due(old(rt[..])[j], now)
    {
      if rt[i].keepalive.Some? && Elapsed(now, rt[i].lastSent) >= rt[i].keepalive.value {
        fired := fired + [i];
        rt[i] := rt[i].(lastSent := now);
      }
    }
  }

  method SelectLoop(m: Machine, guard: CleanupGuard, rt: array<PeerRuntime>, index: map<SocketAddr, nat>,
                    host: Option<nat>, arms: seq<Arm>)
    modifies m, guard, rt
    ensures Loop(m.kernel, guard.addedRoutes, rt[..])
         == Passes(m.world, index, host, Loop(old(m.kernel), old(guard.addedRoutes), old(rt[..])), arms)
  {
    ghost var goal := Passes(m.world, index, host, Loop(m.kernel, guard.addedRoutes, rt[..]), arms);
    for n := 0 to |arms|
      invariant goal == Passes(m.world, index, host, Loop(m.kernel, guard.addedRoutes, rt[..]), arms[n..])
    {
      assert arms[n..][1..] == arms[n + 1..];
      OnePass(m, guard, rt, index, host, arms[n]);
    }
  }

  method OnePass(m: Machine, guard: CleanupGuard, rt: array<PeerRuntime>, index: map<SocketAddr, nat>,
                 host: Option<nat>, arm: Arm)
    modifies m, guard, rt
    ensures Loop(m.kernel, guard.addedRoutes, rt[..])
         == Pass(m.world, index, host, Loop(old(m.kernel), old(guard.addedRoutes), old(rt[..])), arm)
  {
    match arm {
      case Timer(now) =>
        if TickRechecks(guard.addedRoutes, host) {
          guard.RecheckRoutes(m);
        }
        var fired := TickPeers(rt, now);
      case TunSent(dst, now) =>
        if dst in index && index[dst] < rt.Length {
          rt[index[dst]] := rt[index[dst]].(lastSent := now);
        }
      case TunFailed => guard.RecheckRoutes(m);
      case ReplyFailed => guard.RecheckRoutes(m);
      case Other =>
    }
  }

  /** Allocates one slot per peer. */
  method MakeSlots(peers: seq<PeerConfig>, ids: seq<PeerId>, now0: nat) returns (rt: array<PeerRuntime>)
    requires |ids| == |peers|
    ensures fresh(rt) && rt[..] == RuntimeOf(peers, ids, now0)
  {
    rt := new PeerRuntime[|peers|](i requires 0 <= i < |peers| =>
      PeerRuntime(ids[i], peers[i].endpoint, peers[i].persistentKeepalive, now0));
  }

  /** Gathers the prefixes and the endpoints of all peers, in order. */
  method CollectRoutes(peers: seq<PeerConfig>) returns (allowedIps: seq<IpNet>, endpoints: seq<SocketAddr>)
    ensures allowedIps == AllowedIpsOf(peers) && endpoints == EndpointsOf(peers)
  {
    allowedIps, endpoints := [], [];
    for i := 0 to |peers|
      invariant allowedIps == AllowedIpsOf(peers[..i]) && endpoints == EndpointsOf(peers[..i])
    {
      assert peers[..i + 1][..i] == peers[..i];
      allowedIps := allowedIps + peers[i].allowedIps;
      if peers[i].endpoint.Some? {
        endpoints := endpoints + [peers[i].endpoint.value];
      }
    }
    assert peers[..|peers|] == peers;
  }

  /** From the first route to the last one deleted. */
  method RunLoop(m: Machine, cfg: Config, rt: array<PeerRuntime>, arms: seq<Arm>)
    requires m.kernel == Kernel(m.kernel.table, m.kernel.table, {}, 0)
    modifies m, rt
    ensures var s := AfterLoop(m.world, old(m.kernel).table, cfg, old(rt[..]), arms);
            rt[..] == s.rt && m.kernel == Cleanup(m.world, s.k, s.routes)
    ensures m.kernel.table == m.kernel.foreign
  {
    ghost var t0 := m.kernel.table;
    var index := BuildIndex(rt[..]);
    var guard := StartRoutes(m, cfg);
    var host := FirstHost(guard.addedRoutes);
    SelectLoop(m, guard, rt, index, host, arms);
    UndoExact(m.world, t0, cfg, old(rt[..]), arms);
    guard.CleanupRoutes(m);
  }

  /** The whole tunnel, from the list of peers to the last route deleted: afterwards the machine's table is the
      host's own again. `net` and `rt` are the cryptokey-routing table and the slots that the loop worked with. */
  method RunTunnel(m: Machine, tunName: string, tunAddrs: seq<IpNet>, peers: seq<PeerConfig>, now0: nat,
                   arms: seq<Arm>)
    returns (net: PeerNet, rt: array<PeerRuntime>)
    requires m.kernel == Kernel(m.kernel.table, m.kernel.table, {}, 0)
    modifies m
    ensures net.Valid()
    ensures forall a: Addr :: Some(net.Lookup(a)) == Prefixes.Lookup(TableOf(Inserts(peers), Sentinel), a)
    ensures var cfg := ConfigOf(tunName, tunAddrs, peers);
            var s := AfterLoop(m.world, old(m.kernel).table, cfg, SlotsOf(peers, now0), arms);
            fresh(rt) && rt[..] == s.rt && m.kernel == Cleanup(m.world, s.k, s.routes)
    ensures m.kernel.table == m.kernel.foreign
  {
    var config, peerNet, ids := BuildSessions(peers);
    net := peerNet;
    assert ids == IdsOf(peers);
    rt := MakeSlots(peers, ids, now0);
    var allowedIps, endpoints := CollectRoutes(peers);
    var hasV4, hasV6 := exists n :: n in tunAddrs && n.family == V4, exists n :: n in tunAddrs && n.family == V6;
    RunLoop(m, Config(tunName, allowedIps, endpoints, hasV4, hasV6), rt, arms);
  }

  // ---------------------------------------------------------------- routes over whole runs

  lemma PassKeepsRoutes(w: World, t0: Table, index: map<SocketAddr, nat>, host: Option<nat>, s: Loop, arm: Arm)
    requires Running(w, t0, s.k, s.routes)
    ensures var e := Pass(w, index, host, s, arm);
            Running(w, t0, e.k, e.routes) && SameButGateways(s.routes, e.routes)
  {
    RecheckKeeps(w, t0, s.k, s.routes);
    RecheckShape(w, s.k, s.routes);
  }

  lemma {:induction false} PassesKeepRoutes(w: World, t0: Table, index: map<SocketAddr, nat>, host: Option<nat>,
                                            s: Loop, arms: seq<Arm>)
    requires Running(w, t0, s.k, s.routes)
    ensures var e := Passes(w, index, host, s, arms);
            Running(w, t0, e.k, e.routes) && SameButGateways(s.routes, e.routes)
    decreases |arms|
  {
    if arms != [] {
      var s1 := Pass(w, index, host, s, arms[0]);
      PassKeepsRoutes(w, t0, index, host, s, arms[0]);
      PassesKeepRoutes(w, t0, index, host, s1, arms[1..]);
    }
  }

  /** Every reachable state of the loop, whatever fails and whatever the host does meanwhile: recorded keys are
      distinct and are exactly what the program added, the records never name a gateway the kernel contradicts, and
      the index of the first bypass stays valid. */
  lemma LoopInvariant(w: World, t0: Table, cfg: Config, rt: seq<PeerRuntime>, arms: seq<Arm>)
    ensures var s0, s := Initial(w, t0, cfg, rt), AfterLoop(w, t0, cfg, rt, arms);
            && Running(w, t0, s.k, s.routes) && SameButGateways(s0.routes, s.routes)
            && (FirstHost(s0.routes).Some? ==>
                  FirstHost(s0.routes).value < |s.routes| && s.routes[FirstHost(s0.routes).value].Host?)
  {
    var s0 := Initial(w, t0, cfg, rt);
    StartKeeps(w, t0, cfg);
    PassesKeepRoutes(w, t0, EndpointIndex(rt), FirstHost(s0.routes), s0, arms);
  }

  /** Undo is exact: after any run, clean-up leaves the table that the rest of the host alone would have made; if
      the host never touched a recorded key, that is the initial table with the host's changes. */
  lemma UndoExact(w: World, t0: Table, cfg: Config, rt: seq<PeerRuntime>, arms: seq<Arm>)
    ensures var s := AfterLoop(w, t0, cfg, rt, arms);
            var e := Cleanup(w, s.k, s.routes);
            && e.table == e.foreign
            && ((forall n: nat, key :: n < e.clock && key in w.env(n) ==> key !in Keys(s.routes)) ==>
                  e.table == EnvTable(w, t0, e.clock))
  {
    LoopInvariant(w, t0, cfg, rt, arms);
    var s := AfterLoop(w, t0, cfg, rt, arms);
    CleanupUndoes(w, t0, s.k, s.routes);
  }

  lemma {:induction false} EnvTableQuiet(w: World, t: Table, n: nat)
    requires forall m: nat :: m < n ==> w.env(m) == map[]
    ensures EnvTable(w, t, n) == t
  {
    if n > 0 {
      EnvTableQuiet(w, t, n - 1);
      assert Patched(t, map[], {}) == t;
    }
  }

  /** If nobody else changes the table, it is afterwards what it was before the tunnel, whatever has failed. */
  lemma UndoRestores(w: World, t0: Table, cfg: Config, rt: seq<PeerRuntime>, arms: seq<Arm>)
    requires var s := AfterLoop(w, t0, cfg, rt, arms);
             forall n: nat :: n < Cleanup(w, s.k, s.routes).clock ==> w.env(n) == map[]
    ensures var s := AfterLoop(w, t0, cfg, rt, arms); Cleanup(w, s.k, s.routes).table == t0
  {
    UndoExact(w, t0, cfg, rt, arms);
    var s := AfterLoop(w, t0, cfg, rt, arms);
    EnvTableQuiet(w, t0, Cleanup(w, s.k, s.routes).clock);
  }

  /** The first bypass of a list of records is at position `i`. */
  ghost predicate FirstAt(routes: seq<AddedRoute>, i: nat) {
    i < |routes| && routes[i].Host? && forall j :: 0 <= j < i ==> !routes[j].Host?
  }

  lemma FirstHostIs(r0: seq<AddedRoute>, routes: seq<AddedRoute>, i: nat)
    requires SameButGateways(r0, routes) && FirstAt(routes, i)
    ensures FirstHost(r0) == Some(i)
  {
    assert r0[i].Host? && forall j :: 0 <= j < i ==> !r0[j].Host?;
  }

  /** What a pass does to the kernel and the records. `host` was taken from the records of the start. A tick re-checks
      exactly while the first bypass stores no gateway, a failed send always, and nothing else does. */
  lemma PassRechecksIff(w: World, index: map<SocketAddr, nat>, r0: seq<AddedRoute>, s: Loop, arm: Arm, i: nat)
    requires SameButGateways(r0, s.routes) && FirstAt(s.routes, i)
    ensures var e, q := Pass(w, index, FirstHost(r0), s, arm), Recheck(w, s.k, s.routes);
            if arm.TunFailed? || arm.ReplyFailed? || (arm.Timer? && s.routes[i].gateway.None?)
            then e.k == q.k && e.routes == q.routes
            else e.k == s.k && e.routes == s.routes
  {
    FirstHostIs(r0, s.routes, i);
  }

  /** With no bypass at all ticks re-check nothing. */
  lemma NoBypassNoRecheck(w: World, index: map<SocketAddr, nat>, host: Option<nat>, s: Loop, now: nat)
    requires forall i :: 0 <= i < |s.routes| ==> !s.routes[i].Host?
    ensures var e := Pass(w, index, host, s, Timer(now)); e.k == s.k && e.routes == s.routes
  {
  }

  /** While the first bypass has a gateway, ticks re-check nothing: whatever other bypass is torn down stays so,
      until a send fails. */
  lemma {:induction false} TicksBlind(w: World, index: map<SocketAddr, nat>, r0: seq<AddedRoute>, s: Loop, i: nat,
                                      arms: seq<Arm>)
    requires SameButGateways(r0, s.routes) && FirstAt(s.routes, i) && s.routes[i].gateway.Some?
    requires forall a :: a in arms ==> !a.TunFailed? && !a.ReplyFailed?
    ensures var e := Passes(w, index, FirstHost(r0), s, arms); e.k == s.k && e.routes == s.routes
    decreases |arms|
  {
    if arms != [] {
      assert arms[0] in arms;
      PassRechecksIff(w, index, r0, s, arms[0], i);
      TicksBlind(w, index, r0, Pass(w, index, FirstHost(r0), s, arms[0]), i, arms[1..]);
    }
  }

  lemma {:induction false} PassesSnoc(w: World, index: map<SocketAddr, nat>, host: Option<nat>, s: Loop,
                                      arms: seq<Arm>, last: Arm)
    ensures Passes(w, index, host, s, arms + [last]) == Pass(w, index, host, Passes(w, index, host, s, arms), last)
    decreases |arms|
  {
    if arms == [] {
      assert [] + [last] == [last] && [last][1..] == [];
      assert Passes(w, index, host, Pass(w, index, host, s, last), []) == Pass(w, index, host, s, last);
    } else {
      assert (arms + [last])[0] == arms[0] && (arms + [last])[1..] == arms[1..] + [last];
      PassesSnoc(w, index, host, Pass(w, index, host, s, arms[0]), arms[1..], last);
    }
  }

  /** The loop starts from the start-up state, and every further pass acts on the state before it. */
  lemma LoopSteps(w: World, t0: Table, cfg: Config, rt: seq<PeerRuntime>, arms: seq<Arm>, last: Arm)
    ensures AfterLoop(w, t0, cfg, rt, []) == Initial(w, t0, cfg, rt)
    ensures AfterLoop(w, t0, cfg, rt, arms + [last])
         == Pass(w, EndpointIndex(rt), FirstHost(Initial(w, t0, cfg, rt).routes), AfterLoop(w, t0, cfg, rt, arms), last)
  {
    var s := Initial(w, t0, cfg, rt);
    PassesSnoc(w, EndpointIndex(rt), FirstHost(s.routes), s, arms, last);
  }

  // ---------------------------------------------------------------- keepalive timing

  /** The peers' part of the loop, on its own. */
  function PeerPass(index: map<SocketAddr, nat>, rt: seq<PeerRuntime>, arm: Arm): seq<PeerRuntime> {
    match arm
    case Timer(now) => TickAll(rt, now)
    case TunSent(dst, now) => CountSend(rt, index, dst, now)
    case _ => rt
  }

  function PeerPasses(index: map<SocketAddr, nat>, rt: seq<PeerRuntime>, arms: seq<Arm>): seq<PeerRuntime>
    decreases |arms|
  {
    if arms == [] then rt else PeerPasses(index, PeerPass(index, rt, arms[0]), arms[1..])
  }

  /** Routes and re-checks never disturb the keepalive state. */
  lemma {:induction false} PeersIndependent(w: World, index: map<SocketAddr, nat>, host: Option<nat>, s: Loop,
                                            arms: seq<Arm>)
    ensures Passes(w, index, host, s, arms).rt == PeerPasses(index, s.rt, arms)
    decreases |arms|
  {
    if arms != [] {
      PeersIndependent(w, index, host, Pass(w, index, host, s, arms[0]), arms[1..]);
    }
  }

  /** Clock readings never go back, starting from `now`. */
  predicate Monotone(now: nat, arms: seq<Arm>)
    decreases |arms|
  {
    arms == [] ||
    match arms[0]
    case Timer(t) => now <= t && Monotone(t, arms[1..])
    case TunSent(_, t) => now <= t && Monotone(t, arms[1..])
    case _ => Monotone(now, arms[1..])
  }

  /** Every reading is at most `d` after the previous tick's, `tick`; so is the next tick. */
  predicate TicksWithin(tick: nat, d: nat, arms: seq<Arm>)
    decreases |arms|
  {
    arms == [] ||
    match arms[0]
    case Timer(t) => t <= tick + d && TicksWithin(t, d, arms[1..])
    case TunSent(_, t) => t <= tick + d && TicksWithin(tick, d, arms[1..])
    case _ => TicksWithin(tick, d, arms[1..])
  }

  /** The reading of the last tick. */
  function LastTick(tick: nat, arms: seq<Arm>): nat
    decreases |arms|
  {
    if arms == [] then tick
    else LastTick(if arms[0].Timer? then arms[0].now else tick, arms[1..])
  }

  lemma {:induction false} SilenceAtTicks(index: map<SocketAddr, nat>, rt: seq<PeerRuntime>, arms: seq<Arm>, i: nat,
                                          now: nat, tick: nat, interval: nat)
    requires i < |rt| && rt[i].keepalive == Some(interval) && interval > 0 && tick < rt[i].lastSent + interval
    requires tick <= now && Monotone(now, arms)
    ensures var e := PeerPasses(index, rt, arms);
            |e| == |rt| && LastTick(tick, arms) < e[i].lastSent + interval
    decreases |arms|
  {
    if arms != [] {
      match arms[0] {
        case Timer(t) => SilenceAtTicks(index, TickAll(rt, t), arms[1..], i, t, t, interval);
        case TunSent(dst, t) => SilenceAtTicks(index, CountSend(rt, index, dst, t), arms[1..], i, t, tick, interval);
        case _ => SilenceAtTicks(index, rt, arms[1..], i, now, tick, interval);
      }
    }
  }

  lemma {:induction false} TicksWithinNow(tick: nat, d: nat, arms: seq<Arm>, more: nat)
    requires TicksWithin(tick, d, arms + [Timer(more)])
    ensures more <= LastTick(tick, arms) + d
    decreases |arms|
  {
    if arms != [] {
      assert (arms + [Timer(more)])[1..] == arms[1..] + [Timer(more)];
      TicksWithinNow(if arms[0].Timer? then arms[0].now else tick, d, arms[1..], more);
    } else {
      assert arms + [Timer(more)] == [Timer(more)];
    }
  }

  /** In every reachable state of the loop, started at time `now0`: for a peer with interval K > 0 the last tick
      came less than K after the peer's `last_sent`, and any time `t` up to the next tick comes less than K + d
      after it. */
  lemma SilenceBounded(w: World, t0: Table, cfg: Config, peers: seq<PeerConfig>, arms: seq<Arm>, i: nat, now0: nat,
                       d: nat, t: nat, interval: nat)
    requires i < |peers| && peers[i].persistentKeepalive == Some(interval) && interval > 0
    requires Monotone(now0, arms) && TicksWithin(now0, d, arms + [Timer(t)])
    ensures var e := AfterLoop(w, t0, cfg, SlotsOf(peers, now0), arms).rt;
            && |e| == |peers|
            && LastTick(now0, arms) < e[i].lastSent + interval && t < e[i].lastSent + interval + d
  {
    var rt := SlotsOf(peers, now0);
    var s := Initial(w, t0, cfg, rt);
    PeersIndependent(w, EndpointIndex(rt), FirstHost(s.routes), s, arms);
    SilenceAtTicks(EndpointIndex(rt), rt, arms, i, now0, now0, interval);
    TicksWithinNow(now0, d, arms, t);
  }

  /** What moved the peer's `last_sent`, and when: keepalive attempts and counted sends. */
  datatype Activity = Activity(time: nat, attempt: bool)

  function ActivityOf(index: map<SocketAddr, nat>, rt: seq<PeerRuntime>, arm: Arm, i: nat): seq<Activity>
    requires i < |rt|
  {
    match arm
    case Timer(now) => if Due(rt[i], now) then [Activity(now, true)] else []
    case TunSent(dst, now) => if dst in index && index[dst] == i then [Activity(now, false)] else []
    case _ => []
  }

  /** What a run of the loop from state `s` does for peer `i`. */
  function Activities(w: World, index: map<SocketAddr, nat>, host: Option<nat>, s: Loop, arms: seq<Arm>, i: nat)
    : seq<Activity>
    requires i < |s.rt|
    decreases |arms|
  {
    if arms == [] then []
    else
      ActivityOf(index, s.rt, arms[0], i)
      + Activities(w, index, host, Pass(w, index, host, s, arms[0]), arms[1..], i)
  }

  /** Every attempt comes at least `interval` after `since` and after everything earlier in the list. */
  ghost predicate Spaced(a: seq<Activity>, since: nat, interval: nat) {
    && (forall n :: 0 <= n < |a| && a[n].attempt ==> a[n].time >= since + interval)
    && (forall m, n :: 0 <= m < n < |a| && a[n].attempt ==> a[n].time >= a[m].time + interval)
  }

  lemma SpacedCons(first: Activity, rest: seq<Activity>, since: nat, interval: nat)
    requires Spaced(rest, first.time, interval) && first.time >= since + (if first.attempt then interval else 0)
    ensures Spaced([first] + rest, since, interval)
  {
    var a := [first] + rest;
    assert forall n :: 0 < n < |a| ==> a[n] == rest[n - 1];
  }

  /** The reading at which a pass ends, and the earliest one the next may have. */
  function ReadingAfter(now: nat, arm: Arm): nat {
    match arm
    case Timer(t) => t
    case TunSent(_, t) => t
    case _ => now
  }

  lemma PassActivity(w: World, index: map<SocketAddr, nat>, host: Option<nat>, s: Loop, arm: Arm, i: nat, now: nat)
    requires i < |s.rt| && s.rt[i].lastSent <= now <= ReadingAfter(now, arm)
    ensures var rt, first := Pass(w, index, host, s, arm).rt, ActivityOf(index, s.rt, arm, i);
            && rt[i].keepalive == s.rt[i].keepalive && rt[i].lastSent <= ReadingAfter(now, arm)
            && if first == [] then rt[i] == s.rt[i] else
                 && |first| == 1 && rt[i].lastSent == first[0].time
                 && first[0].time >= s.rt[i].lastSent
                 && (first[0].attempt ==>
                       s.rt[i].keepalive.Some? && first[0].time >= s.rt[i].lastSent + s.rt[i].keepalive.value)
  {
  }

  lemma {:induction false} SpacedFrom(w: World, index: map<SocketAddr, nat>, host: Option<nat>, s: Loop, arms: seq<Arm>,
                                      i: nat, now: nat)
    requires i < |s.rt| && s.rt[i].keepalive.Some?
    requires s.rt[i].lastSent <= now && Monotone(now, arms)
    ensures Spaced(Activities(w, index, host, s, arms, i), s.rt[i].lastSent, s.rt[i].keepalive.value)
    decreases |arms|
  {
    if arms != [] {
      var s1 := Pass(w, index, host, s, arms[0]);
      var now1 := ReadingAfter(now, arms[0]);
      assert now <= now1 && Monotone(now1, arms[1..]);
      PassActivity(w, index, host, s, arms[0], i, now);
      SpacedFrom(w, index, host, s1, arms[1..], i, now1);
      var first, rest := ActivityOf(index, s.rt, arms[0], i), Activities(w, index, host, s1, arms[1..], i);
      if first == [] {
        assert first + rest == rest;
      } else {
        assert first == [first[0]];
        SpacedCons(first[0], rest, s.rt[i].lastSent, s.rt[i].keepalive.value);
      }
    }
  }

  /** What the whole run does for peer `i`. */
  function PeerActivities(w: World, t0: Table, cfg: Config, peers: seq<PeerConfig>, now0: nat, arms: seq<Arm>, i: nat)
    : seq<Activity>
    requires i < |peers|
  {
    var s := Initial(w, t0, cfg, SlotsOf(peers, now0));
    Activities(w, EndpointIndex(s.rt), FirstHost(s.routes), s, arms, i)
  }

  /** Over every run of the loop: every keepalive attempt comes at least one interval after the start, after every
      earlier attempt and after every earlier counted send. */
  lemma AttemptsSpaced(w: World, t0: Table, cfg: Config, peers: seq<PeerConfig>, arms: seq<Arm>, i: nat, now0: nat,
                       interval: nat)
    requires i < |peers| && peers[i].persistentKeepalive == Some(interval) && Monotone(now0, arms)
    ensures Spaced(PeerActivities(w, t0, cfg, peers, now0, arms, i), now0, interval)
  {
    var s := Initial(w, t0, cfg, SlotsOf(peers, now0));
    SpacedFrom(w, EndpointIndex(s.rt), FirstHost(s.routes), s, arms, i, now0);
  }

  function LastTime(a: seq<Activity>, start: nat): nat {
    if a == [] then start else a[|a| - 1].time
  }

  lemma {:induction false} LastSentFrom(w: World, index: map<SocketAddr, nat>, host: Option<nat>, s: Loop,
                                        arms: seq<Arm>, i: nat)
    requires i < |s.rt|
    ensures var e := Passes(w, index, host, s, arms);
            |e.rt| == |s.rt| && e.rt[i].lastSent == LastTime(Activities(w, index, host, s, arms, i), s.rt[i].lastSent)
    decreases |arms|
  {
    if arms != [] {
      var s1 := Pass(w, index, host, s, arms[0]);
      LastSentFrom(w, index, host, s1, arms[1..], i);
      var first, rest := ActivityOf(index, s.rt, arms[0], i), Activities(w, index, host, s1, arms[1..], i);
      assert s1.rt[i].lastSent == LastTime(first, s.rt[i].lastSent);
      assert rest == [] ==> first + rest == first;
    }
  }

  /** In every reachable state `last_sent` is the time of the peer's last activity, or of the start: nothing else
      moves it. */
  lemma LastSentIsLastActivity(w: World, t0: Table, cfg: Config, peers: seq<PeerConfig>, arms: seq<Arm>, i: nat,
                               now0: nat)
    requires i < |peers|
    ensures var e := AfterLoop(w, t0, cfg, SlotsOf(peers, now0), arms).rt;
            |e| == |peers| && e[i].lastSent == LastTime(PeerActivities(w, t0, cfg, peers, now0, arms, i), now0)
  {
    var s := Initial(w, t0, cfg, SlotsOf(peers, now0));
    LastSentFrom(w, EndpointIndex(s.rt), FirstHost(s.routes), s, arms, i);
  }

  /** No peer with interval K > 0 goes K + d without an attempt or a counted send. */
  lemma NeverSilent(w: World, t0: Table, cfg: Config, peers: seq<PeerConfig>, arms: seq<Arm>, i: nat, now0: nat,
                    d: nat, t: nat, interval: nat)
    requires i < |peers| && peers[i].persistentKeepalive == Some(interval) && interval > 0
    requires Monotone(now0, arms) && TicksWithin(now0, d, arms + [Timer(t)])
    ensures t < LastTime(PeerActivities(w, t0, cfg, peers, now0, arms, i), now0) + interval + d
  {
    SilenceBounded(w, t0, cfg, peers, arms, i, now0, d, t, interval);
    LastSentIsLastActivity(w, t0, cfg, peers, arms, i, now0);
  }

  // ---------------------------------------------------------------- the reverse index at work

  /** A counted send moves the clock of peer `i` if and only if `i` is the last peer configured with that endpoint; in
      particular no peer configured with another endpoint is postponed. */
  lemma SendPostponesIff(w: World, rt0: seq<PeerRuntime>, host: Option<nat>, s: Loop, dst: SocketAddr, now: nat, i: nat)
    requires i < |s.rt| == |rt0|
    ensures var e := Pass(w, EndpointIndex(rt0), host, s, TunSent(dst, now)).rt;
            |e| == |s.rt| && e[i] == if LastWith(rt0, dst, i) then s.rt[i].(lastSent := now) else s.rt[i]
  {
    IndexIsLast(rt0, dst);
  }

  /** Slot `i` belongs to peer `i` of the configuration in every reachable state of the loop. */
  lemma SlotsHoldTheirPeers(w: World, t0: Table, cfg: Config, peers: seq<PeerConfig>, now0: nat, arms: seq<Arm>, i: nat)
    requires i < |peers|
    ensures var e := AfterLoop(w, t0, cfg, SlotsOf(peers, now0), arms).rt;
            |e| == |peers| && e[i].id == Peer(i) && e[i].endpoint == peers[i].endpoint
            && e[i].keepalive == peers[i].persistentKeepalive
  {
    var rt := SlotsOf(peers, now0);
    var s := Initial(w, t0, cfg, rt);
    PeersIndependent(w, EndpointIndex(rt), FirstHost(s.routes), s, arms);
    SlotsStay(EndpointIndex(rt), rt, arms);
  }

  /** Along any run slots keep the ids, endpoints and intervals they were made with. */
  lemma {:induction false} SlotsStay(index: map<SocketAddr, nat>, rt: seq<PeerRuntime>, arms: seq<Arm>)
    ensures var e := PeerPasses(index, rt, arms);
            |e| == |rt| && forall i :: 0 <= i < |rt| ==> e[i] == rt[i].(lastSent := e[i].lastSent)
    decreases |arms|
  {
    if arms != [] {
      SlotsStay(index, PeerPass(index, rt, arms[0]), arms[1..]);
    }
  }
}
