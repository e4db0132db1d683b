/** Undo is exact, and records never lie about a gateway: the two invariants every procedure keeps, whatever fails and
    whatever the rest of the host does between commands. */
module RouteUndo {
  import opened Wrappers
  import opened Prefixes
  import opened Kernel
  import opened Routes

  function Keys(routes: seq<AddedRoute>): set<Prefix> {
    set r | r in routes :: KeyOf(r)
  }

  ghost predicate Distinct(routes: seq<AddedRoute>) {
    forall i, j :: 0 <= i < j < |routes| ==> KeyOf(routes[i]) != KeyOf(routes[j])
  }

  predicate SameAt(t: Table, u: Table, key: Prefix) {
    (key in t <==> key in u) && (key in t ==> t[key] == u[key])
  }

  /** Outside the owned keys the table is the rest of the host's own, and that own table holds none of them. */
  ghost predicate Apart(k: Kernel) {
    && (forall key :: key !in k.owned ==> SameAt(k.table, k.foreign, key))
    && (forall key :: key in k.owned ==> key !in k.foreign)
  }

  /** If the rest of the host never touched what is owned now, `foreign` is what its changes alone make of `t0`. */
  ghost predicate Traced(w: World, t0: Table, k: Kernel) {
    (forall n: nat, key :: n < k.clock && key in w.env(n) ==> key !in k.owned) ==> k.foreign == EnvTable(w, t0, k.clock)
  }

  /** The records are exactly the owned keys, each once. */
  ghost predicate Recorded(w: World, t0: Table, k: Kernel, routes: seq<AddedRoute>) {
    k.owned == Keys(routes) && Distinct(routes) && Apart(k) && Traced(w, t0, k)
  }

  /** If the kernel holds this bypass through a gateway, the record stores exactly that gateway; a route to the
      tunnel is in the kernel and leads there. */
  predicate Truthful(t: Table, r: AddedRoute) {
    match r
    case Host(ip, gateway) => ip in t && t[ip].Gateway? ==> gateway == Some(t[ip].gateway)
    case Net(_, tun, _) => KeyOf(r) in t && t[KeyOf(r)] == Iface(tun)
    case Passthrough(_, _) => true
  }

  /** Record and kernel say the same: the bypass runs through the stored gateway, or through none. */
  predicate Agrees(t: Table, r: AddedRoute) {
    Truthful(t, r) && (r.Host? && r.gateway.Some? ==> KeyOf(r) in t && t[KeyOf(r)].Gateway?)
  }

  ghost predicate AllTruthful(k: Kernel, routes: seq<AddedRoute>) {
    forall r :: r in routes ==> Truthful(k.table, r)
  }

  ghost predicate AllAgree(k: Kernel, routes: seq<AddedRoute>) {
    forall r :: r in routes ==> Agrees(k.table, r)
  }

  /** The invariant of set-up: everything owned is also in the table. */
  ghost predicate SettingUp(w: World, t0: Table, k: Kernel, routes: seq<AddedRoute>) {
    Recorded(w, t0, k, routes) && k.owned <= k.table.Keys && AllAgree(k, routes)
  }

  /** The invariant of the running tunnel: a bypass may be torn down for a while. */
  ghost predicate Running(w: World, t0: Table, k: Kernel, routes: seq<AddedRoute>) {
    Recorded(w, t0, k, routes) && AllTruthful(k, routes)
  }

  // ---------------------------------------------------------------- single commands

  lemma InitialState(w: World, t0: Table)
    ensures SettingUp(w, t0, Kernel(t0, t0, {}, 0), [])
  {
  }

  lemma TickKeeps(w: World, t0: Table, k: Kernel)
    requires Apart(k) && Traced(w, t0, k)
    ensures var t := Tick(w, k);
            Apart(t) && Traced(w, t0, t) && forall key :: key in k.owned ==> SameAt(t.table, k.table, key)
  {
    var t := Tick(w, k);
    if forall n: nat, key :: n < t.clock && key in w.env(n) ==> key !in t.owned {
      assert k.foreign == EnvTable(w, t0, k.clock);
      assert Patched(k.foreign, w.env(k.clock), k.owned) == Patched(k.foreign, w.env(k.clock), {});
    }
  }

  lemma TickKeepsSettingUp(w: World, t0: Table, k: Kernel, routes: seq<AddedRoute>)
    requires SettingUp(w, t0, k, routes)
    ensures SettingUp(w, t0, Tick(w, k), routes)
  {
    TickKeeps(w, t0, k);
    forall r | r in routes ensures Agrees(Tick(w, k).table, r) {
      assert KeyOf(r) in k.owned && Agrees(k.table, r);
    }
  }

  /** A record fits the hop its route was added with. */
  predicate Fits(r: AddedRoute, hop: Hop) {
    match r
    case Host(_, gateway) => gateway == (if hop.Gateway? then Some(hop.gateway) else None)
    case Net(_, tun, _) => hop == Iface(tun)
    case Passthrough(_, _) => true
  }

  lemma KeysSnoc(routes: seq<AddedRoute>, r: AddedRoute)
    ensures Keys(routes + [r]) == Keys(routes) + {KeyOf(r)}
  {
    forall key | key in Keys(routes) + {KeyOf(r)} ensures key in Keys(routes + [r]) {
      if key in Keys(routes) {
        var s :| s in routes && KeyOf(s) == key;
        assert s in routes + [r];
      } else {
        assert r in routes + [r];
      }
    }
  }

  lemma AddKeeps(w: World, t0: Table, k: Kernel, routes: seq<AddedRoute>, r: AddedRoute, hop: Hop)
    requires SettingUp(w, t0, k, routes) && Fits(r, hop)
    ensures var (k1, added) := Add(w, k, KeyOf(r), hop);
            SettingUp(w, t0, k1, routes + if added then [r] else [])
  {
    TickKeepsSettingUp(w, t0, k, routes);
    var (k1, added) := Add(w, k, KeyOf(r), hop);
    if added {
      KeysSnoc(routes, r);
      assert KeyOf(r) !in k.owned;
      assert forall s :: s in routes ==> KeyOf(s) in Keys(routes);
      forall s | s in routes + [r] ensures Agrees(k1.table, s) {
      }
    } else {
      assert routes + [] == routes;
    }
  }

  // ---------------------------------------------------------------- set-up

  lemma BypassOneKeeps(w: World, t0: Table, k: Kernel, prior: seq<AddedRoute>, ep: SocketAddr, f: Family)
    requires SettingUp(w, t0, k, prior)
    ensures var p := BypassOne(w, k, ep, f); SettingUp(w, t0, p.k, prior + p.routes)
  {
    assert prior + [] == prior;
    if ep.ip.family == f {
      TickKeepsSettingUp(w, t0, k, prior);
      var (k1, info) := Get(w, k, ep.ip);
      if info.Some? && RouteVia(info.value).Some? {
        var r := Host(ep.ip, info.value.gateway);
        assert KeyOf(r) == ep.ip;
        AddKeeps(w, t0, k1, prior, r, RouteVia(info.value).value);
      }
    }
  }

  lemma BypassKeeps(w: World, t0: Table, k: Kernel, prior: seq<AddedRoute>, eps: seq<SocketAddr>, f: Family)
    requires SettingUp(w, t0, k, prior)
    ensures var p := Bypass(w, k, eps, f); SettingUp(w, t0, p.k, prior + p.routes)
    decreases |eps|
  {
    if eps == [] {
      assert prior + [] == prior;
    } else {
      var p := BypassOne(w, k, eps[0], f);
      BypassOneKeeps(w, t0, k, prior, eps[0], f);
      BypassKeeps(w, t0, p.k, prior + p.routes, eps[1..], f);
      AppendTwice(prior, p.routes, Bypass(w, p.k, eps[1..], f));
    }
  }

  lemma AddAllKeeps(w: World, t0: Table, k: Kernel, prior: seq<AddedRoute>, keys: seq<Prefix>, hop: Hop,
                    purpose: Purpose)
    requires SettingUp(w, t0, k, prior) && (purpose.ToTun? ==> hop == Iface(purpose.tunName))
    ensures var p := AddAll(w, k, keys, hop, purpose); SettingUp(w, t0, p.k, prior + p.routes)
    decreases |keys|
  {
    if keys == [] {
      assert prior + [] == prior;
    } else {
      var p := AddOne(w, k, keys[0], hop, purpose);
      AddKeeps(w, t0, k, prior, RecordFor(keys[0], purpose), hop);
      AddAllKeeps(w, t0, p.k, prior + p.routes, keys[1..], hop, purpose);
      AppendTwice(prior, p.routes, AddAll(w, p.k, keys[1..], hop, purpose));
    }
  }

  lemma PassthroughsKeep(w: World, t0: Table, k: Kernel, prior: seq<AddedRoute>, f: Family)
    requires SettingUp(w, t0, k, prior)
    ensures var p := Passthroughs(w, k, f); SettingUp(w, t0, p.k, prior + p.routes)
  {
    assert prior + [] == prior;
    TickKeepsSettingUp(w, t0, k, prior);
    var (k1, info) := Get(w, k, Probe(f));
    if info.Some? && RouteVia(info.value).Some? {
      AddAllKeeps(w, t0, k1, prior, BlackholeExemptions(f), RouteVia(info.value).value, Escape);
    }
  }

  lemma SetupKeeps(w: World, t0: Table, k: Kernel, tun: string, allowedIps: seq<IpNet>, eps: seq<SocketAddr>)
    requires SettingUp(w, t0, k, [])
    ensures var p := Setup(w, k, tun, allowedIps, eps); SettingUp(w, t0, p.k, p.routes)
  {
    var a := BypassIf(HasCatchall(allowedIps, V4), w, k, eps, V4);
    BypassKeeps(w, t0, k, [], eps, V4);
    assert SettingUp(w, t0, a.k, a.routes) by { assert [] + a.routes == a.routes; }
    var b := BypassIf(HasCatchall(allowedIps, V6), w, a.k, eps, V6);
    BypassKeeps(w, t0, a.k, a.routes, eps, V6);
    assert SettingUp(w, t0, b.k, a.routes + b.routes) by { assert a.routes + [] == a.routes; }
    AddAllKeeps(w, t0, b.k, a.routes + b.routes, TunKeys(allowedIps), Iface(tun), ToTun(tun));
  }

  lemma UnconfiguredKeeps(w: World, t0: Table, k: Kernel, prior: seq<AddedRoute>, f: Family, tun: string,
                          eps: seq<SocketAddr>)
    requires SettingUp(w, t0, k, prior)
    ensures var p := Unconfigured(w, k, f, tun, eps); SettingUp(w, t0, p.k, prior + p.routes)
  {
    var a := Bypass(w, k, eps, f);
    BypassKeeps(w, t0, k, prior, eps, f);
    var b := Passthroughs(w, a.k, f);
    PassthroughsKeep(w, t0, a.k, prior + a.routes, f);
    var c := AddAll(w, b.k, Halves(f), Iface(tun), ToTun(tun));
    AddAllKeeps(w, t0, b.k, prior + a.routes + b.routes, Halves(f), Iface(tun), ToTun(tun));
    AppendTwice(prior, a.routes + b.routes, c);
    AppendTwice(prior, a.routes, b);
  }

  lemma StartKeeps(w: World, t0: Table, cfg: Config)
    ensures var p := Start(w, Kernel(t0, t0, {}, 0), cfg); SettingUp(w, t0, p.k, p.routes)
  {
    var k := Kernel(t0, t0, {}, 0);
    InitialState(w, t0);
    SetupKeeps(w, t0, k, cfg.tunName, cfg.allowedIps, cfg.endpoints);
    var a := Setup(w, k, cfg.tunName, cfg.allowedIps, cfg.endpoints);
    var b := UnconfiguredIf(!cfg.hasV4, w, a.k, V4, cfg);
    assert SettingUp(w, t0, b.k, a.routes + b.routes) by {
      assert a.routes + [] == a.routes;
      UnconfiguredKeeps(w, t0, a.k, a.routes, V4, cfg.tunName, cfg.endpoints);
    }
    var c := UnconfiguredIf(!cfg.hasV6, w, b.k, V6, cfg);
    assert SettingUp(w, t0, c.k, a.routes + b.routes + c.routes) by {
      assert a.routes + b.routes + [] == a.routes + b.routes;
      UnconfiguredKeeps(w, t0, b.k, a.routes + b.routes, V6, cfg.tunName, cfg.endpoints);
    }
  }

  // ---------------------------------------------------------------- re-checks

  lemma TickKeepsRunning(w: World, t0: Table, k: Kernel, routes: seq<AddedRoute>)
    requires Running(w, t0, k, routes)
    ensures Running(w, t0, Tick(w, k), routes)
  {
    TickKeeps(w, t0, k);
    forall r | r in routes ensures Truthful(Tick(w, k).table, r) {
      assert KeyOf(r) in k.owned && Truthful(k.table, r);
    }
  }

  /** A step from `k` to `k1` that changes nothing of ours but the entry under one owned key. */
  ghost predicate OnlyAt(w: World, t0: Table, k: Kernel, k1: Kernel, mine: Prefix) {
    && Apart(k1) && Traced(w, t0, k1) && k1.owned == k.owned
    && forall key :: key in k.owned && key != mine ==> SameAt(k1.table, k.table, key)
  }

  lemma DeleteOnlyAt(w: World, t0: Table, k: Kernel, key: Prefix)
    requires Apart(k) && Traced(w, t0, k) && key in k.owned
    ensures OnlyAt(w, t0, k, Delete(w, k, key), key) && key !in Delete(w, k, key).table
  {
    TickKeeps(w, t0, k);
  }

  lemma AddOnlyAt(w: World, t0: Table, k: Kernel, key: Prefix, hop: Hop)
    requires Apart(k) && Traced(w, t0, k) && key in k.owned && key !in k.table
    ensures var (k1, added) := Add(w, k, key, hop);
            OnlyAt(w, t0, k, k1, key) && (if added then key in k1.table && k1.table[key] == hop else key !in k1.table)
  {
    TickKeeps(w, t0, k);
    assert key !in Tick(w, k).table;
    assert k.owned + {key} == k.owned;
  }

  /** A re-check of one record touches no key but its own, and keeps that key owned. */
  lemma RecheckOneFrame(w: World, t0: Table, k: Kernel, r: AddedRoute, now: Defaults)
    requires Apart(k) && Traced(w, t0, k) && KeyOf(r) in k.owned && Truthful(k.table, r)
    ensures var (k1, r1) := RecheckOne(w, k, r, now);
            OnlyAt(w, t0, k, k1, KeyOf(r)) && KeyOf(r1) == KeyOf(r) && Truthful(k1.table, r1)
  {
    if r.Host? && r.gateway != now.Of(r.ip.family) {
      var k1 := Delete(w, k, KeyOf(r));
      DeleteOnlyAt(w, t0, k, KeyOf(r));
      if now.Of(r.ip.family).Some? {
        AddOnlyAt(w, t0, k1, KeyOf(r), Gateway(now.Of(r.ip.family).value));
      }
    }
  }

  lemma ReplaceKeeps(w: World, t0: Table, k: Kernel, k1: Kernel, routes: seq<AddedRoute>, i: nat, r1: AddedRoute)
    requires i < |routes| && Running(w, t0, k, routes)
    requires OnlyAt(w, t0, k, k1, KeyOf(r1)) && KeyOf(r1) == KeyOf(routes[i]) && Truthful(k1.table, r1)
    ensures Running(w, t0, k1, routes[i := r1])
  {
    var after := routes[i := r1];
    forall j, l | 0 <= j < l < |after| ensures KeyOf(after[j]) != KeyOf(after[l]) {
      assert KeyOf(after[j]) == KeyOf(routes[j]) && KeyOf(after[l]) == KeyOf(routes[l]);
    }
    assert Keys(after) == Keys(routes) by {
      assert forall j :: 0 <= j < |routes| ==> KeyOf(after[j]) == KeyOf(routes[j]);
      forall key | key in Keys(routes) ensures key in Keys(after) {
        var j :| 0 <= j < |routes| && KeyOf(routes[j]) == key;
        assert after[j] in after;
      }
    }
    forall s | s in after ensures Truthful(k1.table, s) {
      var j :| 0 <= j < |after| && after[j] == s;
      if j != i {
        assert s == routes[j] && Truthful(k.table, s) && KeyOf(s) in k.owned;
        assert KeyOf(routes[i]) != KeyOf(routes[j]);
      }
    }
  }

  lemma RecheckAllKeeps(w: World, t0: Table, k: Kernel, routes: seq<AddedRoute>, i: nat, now: Defaults)
    requires i <= |routes| && Running(w, t0, k, routes)
    ensures var q := RecheckAll(w, k, routes[i..], now); Running(w, t0, q.k, routes[..i] + q.routes)
    decreases |routes| - i
  {
    if i == |routes| {
      assert routes[..i] + [] == routes;
    } else {
      var (k1, r1) := RecheckOne(w, k, routes[i], now);
      assert routes[i] in routes;
      RecheckOneFrame(w, t0, k, routes[i], now);
      ReplaceKeeps(w, t0, k, k1, routes, i, r1);
      var after := routes[i := r1];
      RecheckAllKeeps(w, t0, k1, after, i + 1, now);
      assert after[i + 1..] == routes[i..][1..];
      AppendTwice(routes[..i], [r1], RecheckAll(w, k1, after[i + 1..], now));
      assert after[..i + 1] == routes[..i] + [r1];
    }
  }

  lemma RecheckKeeps(w: World, t0: Table, k: Kernel, routes: seq<AddedRoute>)
    requires Running(w, t0, k, routes)
    ensures var q := Recheck(w, k, routes); Running(w, t0, q.k, q.routes)
  {
    var (k1, now) := ReadDefaults(w, k);
    TickKeepsRunning(w, t0, k, routes);
    TickKeepsRunning(w, t0, Tick(w, k), routes);
    assert routes[0..] == routes;
    RecheckAllKeeps(w, t0, k1, routes, 0, now);
    var q := RecheckAll(w, k1, routes, now);
    assert routes[..0] + q.routes == q.routes;
  }

  /** A re-check changes nothing in the list of records but the gateways of its host entries. */
  ghost predicate SameButGateways(before: seq<AddedRoute>, after: seq<AddedRoute>) {
    && |after| == |before|
    && forall i :: 0 <= i < |before| ==>
         if before[i].Host? then after[i].Host? && after[i].(gateway := before[i].gateway) == before[i]
         else after[i] == before[i]
  }

  lemma {:induction false} RecheckAllShape(w: World, k: Kernel, routes: seq<AddedRoute>, now: Defaults)
    ensures SameButGateways(routes, RecheckAll(w, k, routes, now).routes)
    decreases |routes|
  {
    if routes != [] {
      var (k1, r1) := RecheckOne(w, k, routes[0], now);
      RecheckAllShape(w, k1, routes[1..], now);
      var rest := RecheckAll(w, k1, routes[1..], now).routes;
      forall i | 0 < i < |routes|
        ensures routes[i] == routes[1..][i - 1] && ([r1] + rest)[i] == rest[i - 1]
      {
      }
    }
  }

  /** A re-check preserves the list's length, order and everything but the gateways of host records. */
  lemma RecheckShape(w: World, k: Kernel, routes: seq<AddedRoute>)
    ensures SameButGateways(routes, Recheck(w, k, routes).routes)
  {
    var (k1, now) := ReadDefaults(w, k);
    RecheckAllShape(w, k1, routes, now);
  }

  // ---------------------------------------------------------------- clean-up

  lemma CleanupClears(w: World, t0: Table, k: Kernel, routes: seq<AddedRoute>)
    requires Apart(k) && Traced(w, t0, k) && Keys(routes) <= k.owned
    ensures var k1 := Cleanup(w, k, routes);
            && Apart(k1) && Traced(w, t0, k1) && k1.owned == k.owned
            && (forall key :: key in k.owned && key !in k.table ==> key !in k1.table)
            && (forall key :: key in Keys(routes) ==> key !in k1.table)
    decreases |routes|
  {
    if routes != [] {
      TickKeeps(w, t0, k);
      assert routes[0] in routes;
      var d := Delete(w, k, KeyOf(routes[0]));
      assert Keys(routes) == Keys(routes[1..]) + {KeyOf(routes[0])} by {
        assert routes == [routes[0]] + routes[1..];
      }
      CleanupClears(w, t0, d, routes[1..]);
    }
  }

  lemma CleanupUndoes(w: World, t0: Table, k: Kernel, routes: seq<AddedRoute>)
    requires Recorded(w, t0, k, routes)
    ensures var k1 := Cleanup(w, k, routes);
            k1.table == k1.foreign && Traced(w, t0, k1) && k1.owned == Keys(routes)
  {
    CleanupClears(w, t0, k, routes);
    var k1 := Cleanup(w, k, routes);
    assert forall key :: SameAt(k1.table, k1.foreign, key);
  }
}
