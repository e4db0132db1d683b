/** What a re-check of the endpoint bypasses achieves while the rest of the host goes on changing its own routes at
    every tick: convergence when adds fail only on existing keys, and the exact condition for agreement when they
    fail. */
module RouteRecheck {
  import opened Wrappers
  import opened Prefixes
  import opened Kernel
  import opened Routes
  import opened RouteUndo

  /** The gateway of the default entry itself. */
  function DefaultGateway(t: Table, f: Family): Option<string> {
    if Prefix(f, []) in t && t[Prefix(f, [])].Gateway? then Some(t[Prefix(f, [])].gateway) else None
  }

  /** The default gateway of a family as a re-check finds it: that of the table at its first tick for IPv4 and at its
      second for IPv6, or nothing if the command fails. */
  function DefaultRead(w: World, k: Kernel, f: Family): Option<string> {
    match f
    case V4 => if w.getOk(k.clock) then DefaultGateway(Tick(w, k).table, V4) else None
    case V6 => if w.getOk(k.clock + 1) then DefaultGateway(Tick(w, Tick(w, k)).table, V6) else None
  }

  lemma ReadsTheDefaults(w: World, k: Kernel)
    ensures var (k1, now) := ReadDefaults(w, k);
            && now.v4 == DefaultRead(w, k, V4) && now.v6 == DefaultRead(w, k, V6)
            && now.Of(V4) == now.v4 && now.Of(V6) == now.v6
            && k1 == Tick(w, Tick(w, k))
  {
  }

  // ---------------------------------------------------------------- one record

  function HostKeys(routes: seq<AddedRoute>): set<Prefix> {
    set r | r in routes && r.Host? :: r.ip
  }

  predicate Stale(r: AddedRoute, now: Defaults) {
    r.Host? && r.gateway != now.Of(r.ip.family)
  }

  /** From `k` to `k1` the same keys are owned, and no owned entry but one has changed. */
  ghost predicate Touches(k: Kernel, k1: Kernel, mine: Prefix) {
    k1.owned == k.owned && forall key :: key in k.owned && key != mine ==> SameAt(k1.table, k.table, key)
  }

  lemma TickTouches(w: World, k: Kernel)
    ensures var t := Tick(w, k); t.owned == k.owned && forall key :: key in k.owned ==> SameAt(t.table, k.table, key)
  {
    forall key | key in k.owned ensures SameAt(Tick(w, k).table, k.table, key) {
      PatchedAt(k.table, w.env(k.clock), k.owned, key);
    }
  }

  lemma DeleteTouches(w: World, k: Kernel, key: Prefix)
    requires key in k.owned
    ensures var e := Delete(w, k, key); Touches(k, e, key) && key !in e.table && e.clock == k.clock + 1
  {
    TickTouches(w, k);
  }

  lemma AddTouches(w: World, k: Kernel, key: Prefix, hop: Hop)
    requires key in k.owned && key !in k.table
    ensures var (e, added) := Add(w, k, key, hop);
            && Touches(k, e, key) && e.clock == k.clock + 1 && (added <==> w.addOk(k.clock))
            && (if added then key in e.table && e.table[key] == hop else key !in e.table)
  {
    TickTouches(w, k);
    assert SameAt(Tick(w, k).table, k.table, key);
    assert k.owned + {key} == k.owned;
  }

  /** How many commands the re-check of a record takes. */
  function Commands(r: AddedRoute, now: Defaults): nat {
    if !Stale(r, now) then 0 else if now.Of(r.ip.family).None? then 1 else 2
  }

  /** What a re-check that begins at this tick makes of a record, and of its entry: a record that is no bypass, or
      stores the current gateway, is left alone; without a gateway the bypass is torn down; otherwise it is
      replaced, or lost with the old gateway still stored if the add of the next tick fails. */
  ghost predicate Outcome(w: World, tick: nat, before: Table, after: Table, r: AddedRoute, r1: AddedRoute,
                          current: Option<string>)
  {
    if !r.Host? || r.gateway == current then
      r1 == r && SameAt(after, before, KeyOf(r))
    else if current.None? then
      r1 == Host(r.ip, None) && r.ip !in after
    else if w.addOk(tick + 1) then
      r1 == Host(r.ip, current) && r.ip in after && after[r.ip] == Gateway(current.value)
    else
      r1 == r && r.ip !in after
  }

  function CurrentFor(r: AddedRoute, now: Defaults): Option<string> {
    if r.Host? then now.Of(r.ip.family) else None
  }

  /** Whatever fails, a re-check of one record changes nothing of ours but its own entry. */
  lemma RecheckOneExact(w: World, k: Kernel, r: AddedRoute, now: Defaults)
    requires KeyOf(r) in k.owned
    ensures var (k1, r1) := RecheckOne(w, k, r, now);
            && Touches(k, k1, KeyOf(r)) && KeyOf(r1) == KeyOf(r)
            && (!Stale(r, now) ==> k1 == k && r1 == r)
            && k1.clock == k.clock + Commands(r, now)
            && Outcome(w, k.clock, k.table, k1.table, r, r1, CurrentFor(r, now))
  {
    if Stale(r, now) {
      DeleteTouches(w, k, r.ip);
      if now.Of(r.ip.family).Some? {
        AddTouches(w, Delete(w, k, r.ip), r.ip, Gateway(now.Of(r.ip.family).value));
      }
    }
  }

  // ---------------------------------------------------------------- all records

  lemma KeysCons(r: AddedRoute, rest: seq<AddedRoute>)
    ensures Keys([r] + rest) == {KeyOf(r)} + Keys(rest)
  {
    assert forall s :: s in [r] + rest <==> s == r || s in rest;
  }

  lemma ConsKeys(r: AddedRoute, rest: seq<AddedRoute>)
    requires Distinct([r] + rest)
    ensures Distinct(rest) && Keys([r] + rest) == {KeyOf(r)} + Keys(rest) && KeyOf(r) !in Keys(rest)
    ensures HostKeys([r] + rest) == (if r.Host? then {r.ip} else {}) + HostKeys(rest)
  {
    var all := [r] + rest;
    assert forall i :: 0 <= i < |rest| ==> rest[i] == all[i + 1];
    forall s | s in rest ensures KeyOf(s) != KeyOf(r) {
      var i :| 0 <= i < |rest| && rest[i] == s;
      assert KeyOf(all[0]) != KeyOf(all[i + 1]);
    }
    assert forall s :: s in all <==> s == r || s in rest;
  }

  /** The loop changes no owned entry but those of its records. */
  lemma {:induction false} RecheckAllTouches(w: World, k: Kernel, routes: seq<AddedRoute>, now: Defaults, key: Prefix)
    requires Keys(routes) <= k.owned && key in k.owned && key !in Keys(routes)
    ensures SameAt(RecheckAll(w, k, routes, now).k.table, k.table, key)
    decreases |routes|
  {
    if routes != [] {
      var r, rest := routes[0], routes[1..];
      KeysCons(r, rest);
      assert routes == [r] + rest;
      RecheckOneExact(w, k, r, now);
      RecheckAllTouches(w, RecheckOne(w, k, r, now).0, rest, now, key);
    }
  }

  /** The tick at which the loop comes to record `i`. */
  function TickOf(clock: nat, routes: seq<AddedRoute>, now: Defaults, i: nat): (tick: nat)
    requires i <= |routes|
    ensures tick >= clock
    decreases i
  {
    if i == 0 then clock else TickOf(clock + Commands(routes[0], now), routes[1..], now, i - 1)
  }

  lemma {:induction false} TicksGrow(clock: nat, routes: seq<AddedRoute>, now: Defaults, i: nat)
    requires i < |routes|
    ensures TickOf(clock, routes, now, i) + Commands(routes[i], now) <= TickOf(clock, routes, now, |routes|)
    decreases i
  {
    if i > 0 {
      TicksGrow(clock + Commands(routes[0], now), routes[1..], now, i - 1);
    }
  }

  lemma {:induction false} RecheckAllTicks(w: World, k: Kernel, routes: seq<AddedRoute>, now: Defaults)
    requires Keys(routes) <= k.owned
    ensures var q := RecheckAll(w, k, routes, now);
            |q.routes| == |routes| && q.k.clock == TickOf(k.clock, routes, now, |routes|)
    decreases |routes|
  {
    if routes != [] {
      KeysCons(routes[0], routes[1..]);
      assert routes == [routes[0]] + routes[1..];
      RecheckOneExact(w, k, routes[0], now);
      RecheckAllTicks(w, RecheckOne(w, k, routes[0], now).0, routes[1..], now);
    }
  }

  /** Only the entry of the record itself matters to its outcome. */
  lemma SameOutcome(w: World, tick: nat, before: Table, before1: Table, after: Table, after1: Table, r: AddedRoute,
                    r1: AddedRoute, current: Option<string>)
    requires Outcome(w, tick, before, after, r, r1, current)
    requires SameAt(before1, before, KeyOf(r)) && SameAt(after1, after, KeyOf(r))
    ensures Outcome(w, tick, before1, after1, r, r1, current)
  {
  }

  lemma RecheckFirstExact(w: World, k: Kernel, r: AddedRoute, rest: seq<AddedRoute>, now: Defaults, e: Table,
                          current: Option<string>)
    requires KeyOf(r) in k.owned && Keys(rest) <= k.owned && KeyOf(r) !in Keys(rest) && current == CurrentFor(r, now)
    requires e == RecheckAll(w, RecheckOne(w, k, r, now).0, rest, now).k.table
    ensures Outcome(w, k.clock, k.table, e, r, RecheckOne(w, k, r, now).1, current)
  {
    RecheckOneExact(w, k, r, now);
    var (k1, r1) := RecheckOne(w, k, r, now);
    RecheckAllTouches(w, k1, rest, now, KeyOf(r));
    SameOutcome(w, k.clock, k.table, k.table, k1.table, e, r, r1, current);
  }

  lemma RecheckRestExact(w: World, tick: nat, k: Kernel, r: AddedRoute, rest: seq<AddedRoute>, now: Defaults, i: nat,
                         e: Table, r1: AddedRoute, current: Option<string>)
    requires KeyOf(r) in k.owned && Keys(rest) <= k.owned && KeyOf(r) !in Keys(rest) && i < |rest|
    requires Outcome(w, tick, RecheckOne(w, k, r, now).0.table, e, rest[i], r1, current)
    ensures Outcome(w, tick, k.table, e, rest[i], r1, current)
  {
    RecheckOneExact(w, k, r, now);
    assert KeyOf(rest[i]) in Keys(rest);
    SameOutcome(w, tick, RecheckOne(w, k, r, now).0.table, k.table, e, e, rest[i], r1, current);
  }

  lemma RecheckAllUnfolds(w: World, k: Kernel, r: AddedRoute, rest: seq<AddedRoute>, now: Defaults)
    ensures var (k1, r1) := RecheckOne(w, k, r, now);
            RecheckAll(w, k, [r] + rest, now) == Append([r1], RecheckAll(w, k1, rest, now))
  {
    assert ([r] + rest)[1..] == rest;
  }

  /** What there is to know of the loop's first step, for a record behind it. */
  lemma LoopStep(w: World, k: Kernel, r: AddedRoute, rest: seq<AddedRoute>, now: Defaults, i: nat)
    requires KeyOf(r) in k.owned && i < |rest|
    ensures var k1 := RecheckOne(w, k, r, now).0;
            k1.owned == k.owned && TickOf(k.clock, [r] + rest, now, i + 1) == TickOf(k1.clock, rest, now, i)
  {
    RecheckOneExact(w, k, r, now);
    assert ([r] + rest)[1..] == rest;
  }

  lemma {:induction false} RecheckAllExact(w: World, k: Kernel, routes: seq<AddedRoute>, now: Defaults, i: nat,
                                           q: Progress, tick: nat, current: Option<string>)
    requires Keys(routes) <= k.owned && Distinct(routes) && i < |routes|
    requires q == RecheckAll(w, k, routes, now) && |q.routes| == |routes|
    requires tick == TickOf(k.clock, routes, now, i) && current == CurrentFor(routes[i], now)
    ensures Outcome(w, tick, k.table, q.k.table, routes[i], q.routes[i], current)
    decreases |routes|
  {
    var r, rest := routes[0], routes[1..];
    assert routes == [r] + rest;
    ConsKeys(r, rest);
    RecheckAllUnfolds(w, k, r, rest, now);
    var k1 := RecheckOne(w, k, r, now).0;
    if i == 0 {
      RecheckFirstExact(w, k, r, rest, now, q.k.table, current);
    } else {
      LoopStep(w, k, r, rest, now, i - 1);
      RecheckAllExact(w, k1, rest, now, i - 1, RecheckAll(w, k1, rest, now), tick, current);
      RecheckRestExact(w, tick, k, r, rest, now, i - 1, q.k.table, q.routes[i], current);
    }
  }

  /** The reads change nothing of ours. */
  lemma ReadsTouch(w: World, k: Kernel)
    ensures var k1 := ReadDefaults(w, k).0;
            k1.owned == k.owned && forall key :: key in k.owned ==> SameAt(k1.table, k.table, key)
  {
    TickTouches(w, k);
    TickTouches(w, Tick(w, k));
    ReadsTheDefaults(w, k);
  }

  /** The loop begun in `k1`, seen from the state `k` before the reads. */
  lemma RecheckAllFrom(w: World, k: Kernel, k1: Kernel, routes: seq<AddedRoute>, now: Defaults, i: nat, q: Progress,
                       tick: nat, current: Option<string>)
    requires Keys(routes) <= k1.owned && Distinct(routes) && i < |routes|
    requires q == RecheckAll(w, k1, routes, now) && |q.routes| == |routes|
    requires tick == TickOf(k1.clock, routes, now, i) && current == CurrentFor(routes[i], now)
    requires SameAt(k1.table, k.table, KeyOf(routes[i]))
    ensures Outcome(w, tick, k.table, q.k.table, routes[i], q.routes[i], current)
  {
    RecheckAllExact(w, k1, routes, now, i, q, tick, current);
    SameOutcome(w, tick, k1.table, k.table, q.k.table, q.k.table, routes[i], q.routes[i], current);
  }

  lemma ReadsKeepKey(w: World, k: Kernel, routes: seq<AddedRoute>, i: nat)
    requires Keys(routes) <= k.owned && i < |routes|
    ensures var k1 := ReadDefaults(w, k).0; Keys(routes) <= k1.owned && SameAt(k1.table, k.table, KeyOf(routes[i]))
  {
    ReadsTouch(w, k);
    assert KeyOf(routes[i]) in Keys(routes);
  }

  lemma CurrentIsRead(w: World, k: Kernel, r: AddedRoute)
    ensures CurrentFor(r, ReadDefaults(w, k).1) == if r.Host? then DefaultRead(w, k, r.ip.family) else None
  {
    ReadsTheDefaults(w, k);
  }

  /** How many ticks a re-check takes. */
  lemma RecheckTicks(w: World, k: Kernel, routes: seq<AddedRoute>)
    requires Keys(routes) <= k.owned
    ensures var q, now := Recheck(w, k, routes), ReadDefaults(w, k).1;
            |q.routes| == |routes| && q.k.clock == TickOf(k.clock + 2, routes, now, |routes|)
  {
    ReadsTouch(w, k);
    RecheckAllTicks(w, ReadDefaults(w, k).0, routes, ReadDefaults(w, k).1);
  }

  /** Exactly what a re-check does to every record and its entry, whatever fails and whatever the rest of the host
      does meanwhile. One record that cannot be repaired costs no other its repair. */
  lemma RecheckExact(w: World, k: Kernel, routes: seq<AddedRoute>, i: nat, q: Progress, tick: nat,
                     current: Option<string>)
    requires Keys(routes) <= k.owned && Distinct(routes) && i < |routes|
    requires q == Recheck(w, k, routes) && tick == TickOf(k.clock + 2, routes, ReadDefaults(w, k).1, i)
    requires current == if routes[i].Host? then DefaultRead(w, k, routes[i].ip.family) else None
    ensures |q.routes| == |routes|
    ensures Outcome(w, tick, k.table, q.k.table, routes[i], q.routes[i], current)
  {
    ReadsKeepKey(w, k, routes, i);
    CurrentIsRead(w, k, routes[i]);
    RecheckTicks(w, k, routes);
    RecheckAllFrom(w, k, ReadDefaults(w, k).0, routes, ReadDefaults(w, k).1, i, q, tick, current);
  }

  /** The same with the values filled in. */
  lemma OutcomeOf(w: World, k: Kernel, routes: seq<AddedRoute>, i: nat)
    requires Keys(routes) <= k.owned && Distinct(routes) && i < |routes|
    ensures var q, tick := Recheck(w, k, routes), TickOf(k.clock + 2, routes, ReadDefaults(w, k).1, i);
            var current := if routes[i].Host? then DefaultRead(w, k, routes[i].ip.family) else None;
            |q.routes| == |routes| && Outcome(w, tick, k.table, q.k.table, routes[i], q.routes[i], current)
  {
    RecheckExact(w, k, routes, i, Recheck(w, k, routes), TickOf(k.clock + 2, routes, ReadDefaults(w, k).1, i),
                 if routes[i].Host? then DefaultRead(w, k, routes[i].ip.family) else None);
  }

  /** The record when its re-check, begun in `k`, succeeds. */
  function Followed(w: World, k: Kernel, r: AddedRoute): AddedRoute {
    if r.Host? then Host(r.ip, DefaultRead(w, k, r.ip.family)) else r
  }

  /** The entry that a successful re-check leaves under the key of the record `r`. */
  ghost predicate Refreshed(before: Table, after: Table, r: AddedRoute, current: Option<string>)
    requires r.Host?
  {
    if r.gateway == current then SameAt(after, before, r.ip)
    else if current.Some? then r.ip in after && after[r.ip] == Gateway(current.value)
    else r.ip !in after
  }

  /** If adds fail only on existing keys while it runs, a re-check brings every record and every bypass to the default
      gateways it read. */
  lemma RecheckRefreshes(w: World, t0: Table, k: Kernel, routes: seq<AddedRoute>)
    requires Running(w, t0, k, routes) && AddsOk(w, k.clock, Recheck(w, k, routes).k.clock)
    ensures var q := Recheck(w, k, routes);
            && |q.routes| == |routes|
            && forall i :: 0 <= i < |routes| ==>
                 && q.routes[i] == Followed(w, k, routes[i])
                 && (routes[i].Host? ==>
                       Refreshed(k.table, q.k.table, routes[i], DefaultRead(w, k, routes[i].ip.family)))
  {
    RecheckShape(w, k, routes);
    ReadsTheDefaults(w, k);
    var q, now := Recheck(w, k, routes), ReadDefaults(w, k).1;
    forall i | 0 <= i < |routes|
      ensures q.routes[i] == Followed(w, k, routes[i])
      ensures routes[i].Host? ==>
                Refreshed(k.table, q.k.table, routes[i], DefaultRead(w, k, routes[i].ip.family))
    {
      OutcomeOf(w, k, routes, i);
      RecheckTicks(w, k, routes);
      TicksGrow(k.clock + 2, routes, now, i);
    }
  }

  /** When the re-check reads the default gateway `g`: afterwards the bypass of record `i` runs through `g` if and
      only if the record stored something else before, or the kernel already had it. */
  lemma RecheckRepairsIff(w: World, t0: Table, k: Kernel, routes: seq<AddedRoute>, i: nat, g: string)
    requires Running(w, t0, k, routes) && AddsOk(w, k.clock, Recheck(w, k, routes).k.clock)
    requires i < |routes| && routes[i].Host? && DefaultRead(w, k, routes[i].ip.family) == Some(g)
    ensures var q, ip := Recheck(w, k, routes), routes[i].ip;
            && |q.routes| == |routes| && q.routes[i] == Host(ip, Some(g))
            && (ip in q.k.table && q.k.table[ip] == Gateway(g)
                <==> routes[i].gateway != Some(g) || (ip in k.table && k.table[ip] == Gateway(g)))
  {
    ReadsTheDefaults(w, k);
    RecheckRefreshes(w, t0, k, routes);
  }

  // ---------------------------------------------------------------- agreement

  lemma OutcomeAgrees(w: World, tick: nat, before: Table, after: Table, r: AddedRoute, r1: AddedRoute,
                      current: Option<string>)
    requires Agrees(before, r) && Outcome(w, tick, before, after, r, r1, current)
    ensures Agrees(after, r1)
       <==> (r.Host? && r.gateway.Some? && current.Some? && r.gateway != current ==> w.addOk(tick + 1))
  {
  }

  /** The re-check has to replace the gateway that the record stores. */
  predicate Replaces(w: World, k: Kernel, r: AddedRoute) {
    r.Host? && r.gateway.Some? && var g := DefaultRead(w, k, r.ip.family); g.Some? && g != r.gateway
  }

  /** If a stored gateway has to be replaced at position `i`, the add that does it succeeds. */
  predicate ReaddOk(w: World, k: Kernel, routes: seq<AddedRoute>, i: nat)
    requires i < |routes|
  {
    Replaces(w, k, routes[i]) ==> w.addOk(TickOf(k.clock + 2, routes, ReadDefaults(w, k).1, i) + 1)
  }

  lemma AgreesAt(w: World, t0: Table, k: Kernel, routes: seq<AddedRoute>, i: nat)
    requires Running(w, t0, k, routes) && AllAgree(k, routes) && i < |routes|
    ensures var q := Recheck(w, k, routes);
            |q.routes| == |routes| && (Agrees(q.k.table, q.routes[i]) <==> ReaddOk(w, k, routes, i))
  {
    assert routes[i] in routes;
    OutcomeOf(w, k, routes, i);
    var q, now := Recheck(w, k, routes), ReadDefaults(w, k).1;
    OutcomeAgrees(w, TickOf(k.clock + 2, routes, now, i), k.table, q.k.table, routes[i], q.routes[i],
                  if routes[i].Host? then DefaultRead(w, k, routes[i].ip.family) else None);
  }

  lemma AgreeByPosition(k: Kernel, routes: seq<AddedRoute>)
    ensures AllAgree(k, routes) <==> forall i :: 0 <= i < |routes| ==> Agrees(k.table, routes[i])
  {
  }

  /** From agreement, whatever the rest of the host does meanwhile: a re-check ends in agreement if and only if every
      add that replaces a stored gateway succeeds. */
  lemma RecheckAgreesIff(w: World, t0: Table, k: Kernel, routes: seq<AddedRoute>)
    requires Running(w, t0, k, routes) && AllAgree(k, routes)
    ensures var q := Recheck(w, k, routes);
            AllAgree(q.k, q.routes) <==> forall i :: 0 <= i < |routes| ==> ReaddOk(w, k, routes, i)
  {
    RecheckShape(w, k, routes);
    var q := Recheck(w, k, routes);
    AgreeByPosition(q.k, q.routes);
    forall i | 0 <= i < |routes| ensures Agrees(q.k.table, q.routes[i]) <==> ReaddOk(w, k, routes, i) {
      AgreesAt(w, t0, k, routes, i);
    }
  }

  /** Agreement forwards every endpoint with a stored gateway to that gateway, whatever else is in the table. */
  lemma AgreementForwards(k: Kernel, routes: seq<AddedRoute>, r: AddedRoute)
    requires AllAgree(k, routes) && r in routes && r.Host? && r.gateway.Some?
    ensures Lookup(k.table, r.ip) == Some(Gateway(r.gateway.value))
  {
    assert Agrees(k.table, r);
    HostEntryWins(k.table, r.ip);
  }

  lemma AddsOkAt(w: World, t0: Table, k: Kernel, routes: seq<AddedRoute>, i: nat)
    requires Running(w, t0, k, routes) && i < |routes|
    requires AddsOk(w, k.clock, Recheck(w, k, routes).k.clock)
    ensures ReaddOk(w, k, routes, i)
  {
    ReadsTheDefaults(w, k);
    OutcomeOf(w, k, routes, i);
    RecheckTicks(w, k, routes);
    TicksGrow(k.clock + 2, routes, ReadDefaults(w, k).1, i);
  }

  lemma AddsOkAgrees(w: World, t0: Table, k: Kernel, routes: seq<AddedRoute>)
    requires Running(w, t0, k, routes) && AllAgree(k, routes)
    requires AddsOk(w, k.clock, Recheck(w, k, routes).k.clock)
    ensures var q := Recheck(w, k, routes); AllAgree(q.k, q.routes)
  {
    forall i | 0 <= i < |routes| ensures ReaddOk(w, k, routes, i) {
      AddsOkAt(w, t0, k, routes, i);
    }
    RecheckAgreesIff(w, t0, k, routes);
  }

  /** Convergence. From agreement, and if adds fail only on existing keys while it runs, a re-check makes every host
      record equal to the default gateway it read, keeps agreement, and every endpoint with a gateway is forwarded
      to it, whatever the rest of the host does meanwhile. */
  lemma RecheckConverges(w: World, t0: Table, k: Kernel, routes: seq<AddedRoute>)
    requires Running(w, t0, k, routes) && AllAgree(k, routes)
    requires AddsOk(w, k.clock, Recheck(w, k, routes).k.clock)
    ensures var q := Recheck(w, k, routes);
            && |q.routes| == |routes| && AllAgree(q.k, q.routes)
            && (forall i :: 0 <= i < |routes| ==> q.routes[i] == Followed(w, k, routes[i]))
            && (forall r :: r in q.routes && r.Host? && r.gateway.Some? ==>
                  Lookup(q.k.table, r.ip) == Some(Gateway(r.gateway.value)))
  {
    RecheckRefreshes(w, t0, k, routes);
    AddsOkAgrees(w, t0, k, routes);
    var q := Recheck(w, k, routes);
    forall r | r in q.routes && r.Host? && r.gateway.Some?
      ensures Lookup(q.k.table, r.ip) == Some(Gateway(r.gateway.value))
    {
      AgreementForwards(q.k, q.routes, r);
    }
  }

  lemma {:induction false} NothingToDo(w: World, k: Kernel, routes: seq<AddedRoute>, now: Defaults)
    requires forall r :: r in routes ==> !Stale(r, now)
    ensures RecheckAll(w, k, routes, now) == Progress(k, routes)
    decreases |routes|
  {
    if routes != [] {
      assert routes[0] in routes && !Stale(routes[0], now);
      assert routes == [routes[0]] + routes[1..];
      NothingToDo(w, k, routes[1..], now);
    }
  }

  /** A second re-check that reads the same default gateways finds nothing to do: its reads are its only commands. */
  lemma RecheckIdempotent(w: World, t0: Table, k: Kernel, routes: seq<AddedRoute>)
    requires Running(w, t0, k, routes) && AddsOk(w, k.clock, Recheck(w, k, routes).k.clock)
    requires forall f :: DefaultRead(w, Recheck(w, k, routes).k, f) == DefaultRead(w, k, f)
    ensures var q := Recheck(w, k, routes);
            Recheck(w, q.k, q.routes) == Progress(Tick(w, Tick(w, q.k)), q.routes)
  {
    RecheckRefreshes(w, t0, k, routes);
    var q := Recheck(w, k, routes);
    ReadsTheDefaults(w, q.k);
    FollowedIsFresh(w, k, routes, q.routes, ReadDefaults(w, q.k).1);
    NothingToDo(w, ReadDefaults(w, q.k).0, q.routes, ReadDefaults(w, q.k).1);
  }

  lemma FollowedIsFresh(w: World, k: Kernel, was: seq<AddedRoute>, next: seq<AddedRoute>, now: Defaults)
    requires |next| == |was| && forall i :: 0 <= i < |was| ==> next[i] == Followed(w, k, was[i])
    requires forall f :: now.Of(f) == DefaultRead(w, k, f)
    ensures forall r :: r in next ==> !Stale(r, now)
  {
  }

  // ---------------------------------------------------------------- what a re-check leaves alone

  /** Outside the given keys the two tables are the same. */
  ghost predicate SameOff(t: Table, u: Table, off: set<Prefix>) {
    forall key :: key !in off ==> SameAt(t, u, key)
  }

  lemma TickSameOff(w: World, k: Kernel, i: Kernel, off: set<Prefix>)
    requires k.clock == i.clock && k.owned == i.owned && SameOff(k.table, i.table, off)
    ensures SameOff(Tick(w, k).table, Tick(w, i).table, off)
  {
  }

  lemma IdleSteps(w: World, k: Kernel)
    ensures Idle(w, k, k.clock) == k
    ensures Idle(w, k, k.clock + 1) == Tick(w, k)
    ensures Idle(w, k, k.clock + 2) == Tick(w, Tick(w, k))
  {
    var t := Tick(w, k);
    assert Idle(w, k, k.clock + 2) == Idle(w, t, t.clock + 1) == Idle(w, Tick(w, t), Tick(w, t).clock);
  }

  /** The two kernels differ only under the given keys. */
  ghost predicate Alike(k: Kernel, i: Kernel, off: set<Prefix>) {
    k.clock == i.clock && k.owned == i.owned && SameOff(k.table, i.table, off)
  }

  lemma DeleteAlike(w: World, k: Kernel, i: Kernel, key: Prefix, off: set<Prefix>)
    requires Alike(k, i, off) && key in off
    ensures Alike(Delete(w, k, key), Tick(w, i), off)
  {
    TickSameOff(w, k, i, off);
  }

  lemma AddAlike(w: World, k: Kernel, i: Kernel, key: Prefix, hop: Hop, off: set<Prefix>)
    requires Alike(k, i, off) && key in off && key in k.owned
    ensures Alike(Add(w, k, key, hop).0, Tick(w, i), off)
  {
    TickSameOff(w, k, i, off);
    assert k.owned + {key} == k.owned;
  }

  lemma RecheckOneSameOff(w: World, k: Kernel, i: Kernel, r: AddedRoute, now: Defaults, off: set<Prefix>)
    requires Alike(k, i, off)
    requires r.Host? ==> r.ip in off && r.ip in k.owned
    ensures var k1 := RecheckOne(w, k, r, now).0; Alike(k1, Idle(w, i, k1.clock), off)
  {
    IdleSteps(w, i);
    if Stale(r, now) {
      DeleteAlike(w, k, i, r.ip, off);
      if now.Of(r.ip.family).Some? {
        AddAlike(w, Delete(w, k, r.ip), Tick(w, i), r.ip, Gateway(now.Of(r.ip.family).value), off);
      }
    }
  }

  lemma IdleTwice(w: World, k: Kernel, a: nat, b: nat)
    requires k.clock <= a <= b
    ensures Idle(w, Idle(w, k, a), b) == Idle(w, k, b) && Idle(w, k, a).clock == a
    decreases a - k.clock
  {
    if k.clock < a {
      IdleTwice(w, Tick(w, k), a, b);
    }
  }

  lemma {:induction false} RecheckAllSameOff(w: World, k: Kernel, i: Kernel, routes: seq<AddedRoute>, now: Defaults,
                                             off: set<Prefix>)
    requires Alike(k, i, off)
    requires HostKeys(routes) <= off * k.owned
    ensures var q := RecheckAll(w, k, routes, now); SameOff(q.k.table, Idle(w, i, q.k.clock).table, off)
    decreases |routes|
  {
    if routes != [] {
      var k1 := RecheckOne(w, k, routes[0], now).0;
      assert routes[0] in routes && (routes[0].Host? ==> routes[0].ip in HostKeys(routes));
      RecheckOneSameOff(w, k, i, routes[0], now, off);
      assert HostKeys(routes[1..]) <= HostKeys(routes);
      RecheckAllSameOff(w, k1, Idle(w, i, k1.clock), routes[1..], now, off);
      IdleTwice(w, i, k1.clock, RecheckAll(w, k, routes, now).k.clock);
    }
  }

  /** A re-check moves the bypassed endpoints and nothing else: every other address is forwarded as it would be had
      the re-check only looked, whatever fails and whatever the rest of the host does meanwhile. */
  lemma OthersKeepForwarding(w: World, t0: Table, k: Kernel, routes: seq<AddedRoute>, a: Addr)
    requires Running(w, t0, k, routes) && a !in HostKeys(routes)
    ensures var q := Recheck(w, k, routes);
            Lookup(q.k.table, a) == Lookup(Idle(w, k, q.k.clock).table, a)
  {
    var (k1, now) := ReadDefaults(w, k);
    ReadsTheDefaults(w, k);
    ReadsTouch(w, k);
    assert HostKeys(routes) <= Keys(routes);
    RecheckAllSameOff(w, k1, k1, routes, now, HostKeys(routes));
    var q := Recheck(w, k, routes);
    IdleSteps(w, k);
    IdleTwice(w, k, k1.clock, q.k.clock);
    SameForwarding(q.k.table, Idle(w, k, q.k.clock).table, HostKeys(routes), a);
  }

  /** Full-width keys concern no address but their own. */
  lemma SameForwarding(t: Table, u: Table, off: set<Prefix>, a: Addr)
    requires SameOff(t, u, off) && a !in off && forall key :: key in off ==> |key.bits| == Width(key.family)
    ensures Lookup(t, a) == Lookup(u, a)
  {
    forall l: nat | l <= |a.bits| ensures SameAt(t, u, Lead(a, l)) {
      if l == |a.bits| {
        assert Lead(a, l) == a;
      }
    }
    MatchLenIs(t, a, MatchLen(u, a));
  }

  // ---------------------------------------------------------------- when re-adding fails

  /** The states before, between and after any number of re-checks, each of which reads the gateway `g` for the
      family. */
  ghost predicate ReadsAlong(w: World, run: seq<Progress>, f: Family, g: Option<string>) {
    && (forall m, n :: 0 <= m && n == m + 1 < |run| ==> run[n] == Recheck(w, run[m].k, run[m].routes))
    && (forall m :: 0 <= m < |run| - 1 ==> DefaultRead(w, run[m].k, f) == g)
  }

  /** The bypass of record `r`, at position `i`, has been torn down. */
  ghost predicate Missing(w: World, t0: Table, k: Kernel, routes: seq<AddedRoute>, r: AddedRoute, i: nat) {
    Running(w, t0, k, routes) && i < |routes| && routes[i] == r && r.Host? && r.ip !in k.table
  }

  lemma MissingAfterOne(w: World, t0: Table, k: Kernel, routes: seq<AddedRoute>, r: AddedRoute, i: nat)
    requires Missing(w, t0, k, routes, r, i) && DefaultRead(w, k, r.ip.family) == r.gateway
    ensures var q := Recheck(w, k, routes); Missing(w, t0, q.k, q.routes, r, i)
  {
    RecheckKeeps(w, t0, k, routes);
    OutcomeOf(w, k, routes, i);
  }

  /** A torn-down bypass whose record already stores the gateway that the re-checks read stays missing however often
      it is re-checked, whatever else happens. */
  lemma {:induction false} StaysMissing(w: World, t0: Table, run: seq<Progress>, r: AddedRoute, i: nat, m: nat)
    requires m < |run| && Missing(w, t0, run[0].k, run[0].routes, r, i)
    requires ReadsAlong(w, run, r.ip.family, r.gateway)
    ensures Missing(w, t0, run[m].k, run[m].routes, r, i)
  {
    if m > 0 {
      StaysMissing(w, t0, run, r, i, m - 1);
      MissingAfterOne(w, t0, run[m - 1].k, run[m - 1].routes, r, i);
    }
  }
}
