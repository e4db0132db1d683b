/** No failure costs more than its own route: every prefix and every endpoint of a start-up procedure is tried. */
module RouteAttempts {
  import opened Wrappers
  import opened Prefixes
  import opened Kernel
  import opened Routes
  import opened RouteUndo

  /** From `k` to `e` more may be owned, and no owned entry has changed. */
  ghost predicate Grown(k: Kernel, e: Kernel) {
    k.owned <= e.owned && forall key :: key in k.owned ==> SameAt(e.table, k.table, key)
  }

  lemma AddGrows(w: World, k: Kernel, key: Prefix, hop: Hop)
    requires k.owned <= k.table.Keys
    ensures var e := Add(w, k, key, hop).0; Grown(k, e) && e.owned <= e.table.Keys
  {
    forall mine | mine in k.owned ensures SameAt(Tick(w, k).table, k.table, mine) {
      PatchedAt(k.table, w.env(k.clock), k.owned, mine);
    }
  }

  lemma AddAllGrows(w: World, k: Kernel, keys: seq<Prefix>, hop: Hop, purpose: Purpose)
    requires k.owned <= k.table.Keys
    ensures var e := AddAll(w, k, keys, hop, purpose).k;
            Grown(k, e) && e.owned <= e.table.Keys && e.clock == k.clock + |keys|
    decreases |keys|
  {
    if keys != [] {
      AddGrows(w, k, keys[0], hop);
      AddAllGrows(w, AddOne(w, k, keys[0], hop, purpose).k, keys[1..], hop, purpose);
    }
  }

  lemma AddOneTries(w: World, k: Kernel, key: Prefix, hop: Hop, purpose: Purpose)
    requires w.addOk(k.clock) && key !in Tick(w, k).table
    ensures var p := AddOne(w, k, key, hop, purpose);
            p.routes == [RecordFor(key, purpose)] && key in p.k.owned && key in p.k.table && p.k.table[key] == hop
  {
  }

  /** Every prefix is tried, at its own tick and whatever became of those before it: if that add is not refused and
      the prefix is free, the prefix is recorded, and routed to the hop, when the list is through. */
  lemma AddAllTriesEach(w: World, k: Kernel, keys: seq<Prefix>, hop: Hop, purpose: Purpose, n: nat)
    requires k.owned <= k.table.Keys && n < |keys| && w.addOk(k.clock + n)
    requires keys[n] !in Tick(w, AddAll(w, k, keys[..n], hop, purpose).k).table
    ensures var q := AddAll(w, k, keys, hop, purpose);
            && RecordFor(keys[n], purpose) in q.routes
            && keys[n] in q.k.table && q.k.table[keys[n]] == hop
  {
    var before := AddAll(w, k, keys[..n], hop, purpose);
    assert keys == keys[..n] + keys[n..] && keys[n..][0] == keys[n];
    AddAllAppend(w, k, keys[..n], keys[n..], hop, purpose);
    AddAllGrows(w, k, keys[..n], hop, purpose);
    AddOneTries(w, before.k, keys[n], hop, purpose);
    AddGrows(w, before.k, keys[n], hop);
    AddAllGrows(w, AddOne(w, before.k, keys[n], hop, purpose).k, keys[n..][1..], hop, purpose);
  }

  lemma BypassOneGrows(w: World, k: Kernel, ep: SocketAddr, f: Family)
    requires k.owned <= k.table.Keys
    ensures var e := BypassOne(w, k, ep, f).k; Grown(k, e) && e.owned <= e.table.Keys
  {
    if ep.ip.family == f {
      var t := Tick(w, k);
      forall mine | mine in k.owned ensures SameAt(t.table, k.table, mine) {
        PatchedAt(k.table, w.env(k.clock), k.owned, mine);
      }
      var (k1, info) := Get(w, k, ep.ip);
      if info.Some? && RouteVia(info.value).Some? {
        AddGrows(w, t, ep.ip, RouteVia(info.value).value);
      }
    }
  }

  lemma BypassGrows(w: World, k: Kernel, eps: seq<SocketAddr>, f: Family)
    requires k.owned <= k.table.Keys
    ensures var e := Bypass(w, k, eps, f).k; Grown(k, e) && e.owned <= e.table.Keys
    decreases |eps|
  {
    if eps != [] {
      BypassOneGrows(w, k, eps[0], f);
      BypassGrows(w, BypassOne(w, k, eps[0], f).k, eps[1..], f);
    }
  }

  lemma BypassAppend(w: World, k: Kernel, xs: seq<SocketAddr>, ys: seq<SocketAddr>, f: Family)
    ensures var p := Bypass(w, k, xs, f); Bypass(w, k, xs + ys, f) == Append(p.routes, Bypass(w, p.k, ys, f))
    decreases |xs|
  {
    if xs == [] {
      assert xs + ys == ys;
    } else {
      assert (xs + ys)[1..] == xs[1..] + ys;
      var p := BypassOne(w, k, xs[0], f);
      BypassAppend(w, p.k, xs[1..], ys, f);
      var q := Bypass(w, p.k, xs[1..], f);
      AppendTwice(p.routes, q.routes, Bypass(w, q.k, ys, f));
    }
  }

  /** How the table sends packets to the address, in terms that can be re-added: gateway or interface. */
  predicate Reaches(t: Table, a: Addr, hop: Hop) {
    Lookup(t, a) == Some(hop) && (hop.Gateway? || hop.Iface?)
  }

  lemma BypassOneTries(w: World, k: Kernel, ep: SocketAddr, f: Family, hop: Hop)
    requires ep.ip.family == f && w.getOk(k.clock) && w.addOk(k.clock + 1)
    requires Reaches(Tick(w, k).table, ep.ip, hop) && ep.ip !in Tick(w, Tick(w, k)).table
    ensures var p := BypassOne(w, k, ep, f);
            && Host(ep.ip, if hop.Gateway? then Some(hop.gateway) else None) in p.routes
            && ep.ip in p.k.owned && ep.ip in p.k.table && p.k.table[ep.ip] == hop
  {
  }

  /** With an IPv4 catch-all the first record of start-up, on which ticks depend later, is that of the first endpoint,
      if its hop is found and its add succeeds. */
  lemma FirstRecordIsFirstEndpoint(w: World, k: Kernel, cfg: Config, hop: Hop)
    requires Prefix(V4, []) in cfg.allowedIps && cfg.endpoints != [] && cfg.endpoints[0].ip.family == V4
    requires w.getOk(k.clock) && w.addOk(k.clock + 1) && Reaches(Tick(w, k).table, cfg.endpoints[0].ip, hop)
    requires cfg.endpoints[0].ip !in Tick(w, Tick(w, k)).table
    ensures var q := Start(w, k, cfg);
            && q.routes != []
            && q.routes[0] == Host(cfg.endpoints[0].ip, if hop.Gateway? then Some(hop.gateway) else None)
  {
    BypassOneTries(w, k, cfg.endpoints[0], V4, hop);
    FirstOfBypass(w, k, cfg.endpoints, V4);
    FirstOfStart(w, k, cfg);
  }

  lemma FirstOfBypass(w: World, k: Kernel, eps: seq<SocketAddr>, f: Family)
    requires eps != [] && |BypassOne(w, k, eps[0], f).routes| == 1
    ensures Bypass(w, k, eps, f).routes != []
    ensures Bypass(w, k, eps, f).routes[0] == BypassOne(w, k, eps[0], f).routes[0]
  {
  }

  lemma FirstOfStart(w: World, k: Kernel, cfg: Config)
    requires Prefix(V4, []) in cfg.allowedIps && Bypass(w, k, cfg.endpoints, V4).routes != []
    ensures Start(w, k, cfg).routes != []
    ensures Start(w, k, cfg).routes[0] == Bypass(w, k, cfg.endpoints, V4).routes[0]
  {
    assert HasCatchall(cfg.allowedIps, V4);
  }

  lemma BypassSplit(w: World, k: Kernel, eps: seq<SocketAddr>, f: Family, n: nat)
    requires n < |eps|
    ensures var before := Bypass(w, k, eps[..n], f);
            var p := BypassOne(w, before.k, eps[n], f);
            Bypass(w, k, eps, f) == Append(before.routes, Append(p.routes, Bypass(w, p.k, eps[n + 1..], f)))
  {
    assert eps == eps[..n] + eps[n..] && eps[n..][0] == eps[n] && eps[n..][1..] == eps[n + 1..];
    BypassAppend(w, k, eps[..n], eps[n..], f);
  }

  /** Every endpoint of the family is tried, whatever became of those before it: if its hop is found and the add is not
      refused, it has its bypass when the list is through. */
  lemma BypassTriesEach(w: World, k: Kernel, eps: seq<SocketAddr>, f: Family, n: nat, before: Kernel, hop: Hop)
    requires k.owned <= k.table.Keys && n < |eps| && eps[n].ip.family == f
    requires before == Bypass(w, k, eps[..n], f).k && w.getOk(before.clock) && w.addOk(before.clock + 1)
    requires Reaches(Tick(w, before).table, eps[n].ip, hop) && eps[n].ip !in Tick(w, Tick(w, before)).table
    ensures var q, ip := Bypass(w, k, eps, f), eps[n].ip;
            && Host(ip, if hop.Gateway? then Some(hop.gateway) else None) in q.routes
            && ip in q.k.table && q.k.table[ip] == hop
  {
    BypassSplit(w, k, eps, f, n);
    BypassGrows(w, k, eps[..n], f);
    BypassOneTries(w, before, eps[n], f, hop);
    BypassOneGrows(w, before, eps[n], f);
    BypassGrows(w, BypassOne(w, before, eps[n], f).k, eps[n + 1..], f);
  }
}
