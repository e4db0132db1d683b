/** The kernel routing table as the `route` command sees it, shared with everything else on the host.

    Every command is one tick of a clock. The world decides what happens at each tick: which changes the rest of the
    host makes just before the command, and whether the command fails for a reason outside the table. Quantifying over
    worlds therefore covers every failure pattern and every interleaving with other processes. */
module Kernel {
  import opened Wrappers
  import opened Prefixes

  /** Where an entry sends its packets. `Opaque` is an entry whose description names neither a gateway nor an
      interface. */
  datatype Hop = Gateway(gateway: string) | Iface(iface: string) | Opaque

  type Table = map<Prefix, Hop>

  datatype RouteInfo = RouteInfo(gateway: Option<string>, iface: Option<string>)

  /** One burst of changes by the rest of the host: `None` removes an entry, `Some` sets it. */
  type Patch = map<Prefix, Option<Hop>>

  /** `link` names the interface that leads to a gateway, which `route get` reports beside the gateway. */
  datatype World = World(addOk: nat -> bool, getOk: nat -> bool, link: string -> Option<string>, env: nat -> Patch)

  function InfoOf(w: World, h: Hop): RouteInfo {
    match h
    case Gateway(g) => RouteInfo(Some(g), w.link(g))
    case Iface(i) => RouteInfo(None, Some(i))
    case Opaque => RouteInfo(None, None)
  }

  /** `foreign` and `owned` are bookkeeping for the statements. `foreign` is the initial table with the host's changes
      and nothing else; `owned` holds the keys this program has added, which the rest of the host leaves alone. */
  datatype Kernel = Kernel(table: Table, foreign: Table, owned: set<Prefix>, clock: nat)

  function Patched(t: Table, p: Patch, off: set<Prefix>): (r: Table)
  {
    map key | key in t.Keys + p.Keys && (if key in p && key !in off then p[key].Some? else key in t)
      :: if key in p && key !in off then p[key].value else t[key]
  }

  /** The changes go where the host may change something, and nowhere else. */
  lemma PatchedAt(t: Table, p: Patch, off: set<Prefix>, key: Prefix)
    ensures var r := Patched(t, p, off);
            if key in off || key !in p then (key in r <==> key in t) && (key in t ==> r[key] == t[key])
            else if p[key].Some? then key in r && r[key] == p[key].value
            else key !in r
  {
  }

  function Tick(w: World, k: Kernel): Kernel {
    k.(table := Patched(k.table, w.env(k.clock), k.owned),
       foreign := Patched(k.foreign, w.env(k.clock), k.owned),
       clock := k.clock + 1)
  }

  /** `route add`: fails when the key exists, or when the world says so. */
  function Add(w: World, k: Kernel, key: Prefix, hop: Hop): (Kernel, bool) {
    var t := Tick(w, k);
    if w.addOk(k.clock) && key !in t.table then
      (t.(table := t.table[key := hop], owned := t.owned + {key}), true)
    else
      (t, false)
  }

  /** `route delete`: fails only when the key is absent, which changes nothing. */
  function Delete(w: World, k: Kernel, key: Prefix): Kernel {
    var t := Tick(w, k);
    t.(table := t.table - {key})
  }

  /** `route get <address>`: longest-prefix match. */
  function Get(w: World, k: Kernel, a: Addr): (Kernel, Option<RouteInfo>) {
    var t := Tick(w, k);
    var hop := Lookup(t.table, a);
    (t, if w.getOk(k.clock) && hop.Some? then Some(InfoOf(w, hop.value)) else None)
  }

  /** `route get default`: the entry of length 0 itself, whatever longer entries exist. */
  function GetDefault(w: World, k: Kernel, f: Family): (Kernel, Option<RouteInfo>) {
    var t := Tick(w, k);
    (t, if w.getOk(k.clock) && Prefix(f, []) in t.table then Some(InfoOf(w, t.table[Prefix(f, [])])) else None)
  }

  /** At the ticks from `from` to before `to` nothing fails for outside reasons and nobody else changes the table. */
  ghost predicate Quiet(w: World, from: nat, to: nat) {
    forall n: nat :: from <= n < to ==> w.addOk(n) && w.getOk(n) && w.env(n) == map[]
  }

  /** At these ticks `route add` fails only on existing keys, whatever else happens. */
  ghost predicate AddsOk(w: World, from: nat, to: nat) {
    forall n: nat :: from <= n < to ==> w.addOk(n)
  }

  lemma QuietTick(w: World, k: Kernel)
    requires w.env(k.clock) == map[]
    ensures Tick(w, k) == k.(clock := k.clock + 1)
  {
    assert Patched(k.table, map[], k.owned) == k.table;
    assert Patched(k.foreign, map[], k.owned) == k.foreign;
  }

  /** The kernel at tick `to` if this program issues commands that only look. */
  function Idle(w: World, k: Kernel, to: nat): Kernel
    decreases to - k.clock
  {
    if k.clock >= to then k else Idle(w, Tick(w, k), to)
  }

  /** What the host's changes alone make of table `t` in the first `n` ticks. */
  function EnvTable(w: World, t: Table, n: nat): Table {
    if n == 0 then t else Patched(EnvTable(w, t, n - 1), w.env(n - 1), {})
  }

  /** The machine the program runs on. */
  class Machine {
    const world: World
    var kernel: Kernel

    constructor (world: World, table: Table)
      ensures this.world == world && kernel == Kernel(table, table, {}, 0)
    {
      this.world := world;
      kernel := Kernel(table, table, {}, 0);
    }

    method RouteAdd(key: Prefix, hop: Hop) returns (ok: bool)
      modifies this
      ensures (kernel, ok) == Add(world, old(kernel), key, hop)
    {
      ok := world.addOk(kernel.clock);
      kernel := Tick(world, kernel);
      if key in kernel.table {
        ok := false;
      }
      if ok {
        kernel := kernel.(table := kernel.table[key := hop], owned := kernel.owned + {key});
      }
    }

    method RouteDelete(key: Prefix)
      modifies this
      ensures kernel == Delete(world, old(kernel), key)
    {
      kernel := Tick(world, kernel);
      kernel := kernel.(table := kernel.table - {key});
    }

    method RouteGet(a: Addr) returns (info: Option<RouteInfo>)
      modifies this
      ensures (kernel, info) == Get(world, old(kernel), a)
    {
      var reachable := world.getOk(kernel.clock);
      kernel := Tick(world, kernel);
      var hop := Lookup(kernel.table, a);
      info := if reachable && hop.Some? then Some(InfoOf(world, hop.value)) else None;
    }

    method RouteGetDefault(f: Family) returns (info: Option<RouteInfo>)
      modifies this
      ensures (kernel, info) == GetDefault(world, old(kernel), f)
    {
      var reachable := world.getOk(kernel.clock);
      kernel := Tick(world, kernel);
      var key := Prefix(f, []);
      info := if reachable && key in kernel.table then Some(InfoOf(world, kernel.table[key])) else None;
    }
  }
}
