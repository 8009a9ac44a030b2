/**
 How a poll builds the nexthop and route tables, annotates and filters them
 (pkg/netlink/nexthop.go, route.go, netlink_watcher.go). A pointer from a route to a
 nexthop is the nexthop's key: entries of the table are never replaced during a poll.
 */
module NetTables {
  import opened Basics
  import opened Intents
  import opened NetRows

  // Types of nexthops, as numbered in nexthop.go.
  const PHY := 0
  const VRFNEIGHBOR := 1
  const SVI := 2
  const ACC := 3
  const VXLAN := 4

  const FIRST_ID := 16

  datatype Nexthop = Nexthop(core: NexthopCore, vrfStatus: Oper, hasGw: bool, refs: seq<NetKey>)

  /** `anyDst` says that the destination is 0.0.0.0. */
  datatype Route = Route(core: RouteCore, vrfStatus: Oper, anyDst: bool, nexthops: seq<NetKey>)

  datatype NeighKey = NeighKey(dst: string, vrf: string, dev: int)

  /**
   What a poll reads elsewhere: neighbors, the GRD route of a tunnel endpoint, the ECMP
   switch. GRD lookups may nest, `depth` deep at most.
   */
  datatype World = World(ecmp: bool, neighbors: set<NeighKey>, grd: map<string, seq<Nexthop>>, depth: nat)

  /** The tables under construction, and the id cache, which outlives them. */
  datatype Net = Net(routes: map<NetKey, Route>, nexthops: map<NetKey, Nexthop>, ids: map<NetKey, int>, nextId: int)

  const NoNet := Net(map[], map[], map[], FIRST_ID)

  // ---------------------------------------------------------------------
  // Nexthops
  // ---------------------------------------------------------------------

  predicate Known(w: World, nh: Nexthop)
    requires nh.core.key.NexthopKey?
  {
    NeighKey(nh.core.key.gw, nh.core.vrf, nh.core.key.dev) in w.neighbors
  }

  function Resolved(nh: Nexthop): Nexthop {
    nh.(core := nh.core.(resolved := true))
  }

  /** The nexthops of the GRD route to the gateway. */
  function Underlay(w: World, nh: Nexthop): seq<Nexthop>
    requires nh.core.key.NexthopKey?
  {
    if nh.core.key.gw in w.grd then w.grd[nh.core.key.gw] else []
  }

  /** A tunnel nexthop becomes one nexthop per nexthop of the GRD route that resolves. */
  function Tunnels(w: World, nh: Nexthop, hops: seq<Nexthop>, depth: nat): seq<Nexthop>
    requires nh.core.key.NexthopKey?
    decreases 2 * depth + 1, |hops|
  {
    if hops == [] then []
    else
      var rest := Tunnels(w, nh, hops[1..], depth);
      if !hops[0].core.key.NexthopKey? || Resolve(w, hops[0], depth) == [] then rest
      else
        var key := NexthopKey(nh.core.vrf, hops[0].core.key.gw, hops[0].core.key.dev, nh.core.local, nh.core.weight);
        [Resolved(nh.(core := nh.core.(key := key, weight := hops[0].core.weight)))] + rest
  }

  /** tryResolve; `depth` is how many more lookups may follow one another. */
  function Resolve(w: World, nh: Nexthop, depth: nat): seq<Nexthop>
    requires nh.core.key.NexthopKey?
    decreases 2 * depth, 0
  {
    if !nh.hasGw then [Resolved(nh)]
    else if !Known(w, nh) then []
    else if nh.core.nhType == VXLAN then
      if depth == 0 then [] else Tunnels(w, nh, Underlay(w, nh), depth - 1)
    else if nh.core.nhType >= 0 then [Resolved(nh)]
    else []
  }

  function TryResolve(w: World, nh: Nexthop): seq<Nexthop>
    requires nh.core.key.NexthopKey?
  {
    Resolve(w, nh, w.depth)
  }

  /** Resolving the nexthop ends after `depth` lookups in a row. */
  ghost predicate EndsWithin(w: World, nh: Nexthop, depth: nat)
    decreases depth
  {
    nh.core.key.NexthopKey? && nh.hasGw && nh.core.nhType == VXLAN ==>
      depth > 0 && forall hop :: hop in Underlay(w, nh) ==> EndsWithin(w, hop, depth - 1)
  }

  /** Where resolving ends at all, allowing for longer chains makes no difference. */
  lemma {:induction false} DepthIsEnough(w: World, nh: Nexthop, depth: nat, more: nat)
    requires nh.core.key.NexthopKey? && EndsWithin(w, nh, depth) && depth <= more
    ensures Resolve(w, nh, more) == Resolve(w, nh, depth)
    decreases depth, 1, 0
  {
    if nh.hasGw && nh.core.nhType == VXLAN {
      TunnelsDepth(w, nh, Underlay(w, nh), depth - 1, more - 1);
    }
  }

  lemma {:induction false} TunnelsDepth(w: World, nh: Nexthop, hops: seq<Nexthop>, depth: nat, more: nat)
    requires nh.core.key.NexthopKey? && (forall hop :: hop in hops ==> EndsWithin(w, hop, depth)) && depth <= more
    ensures Tunnels(w, nh, hops, more) == Tunnels(w, nh, hops, depth)
    decreases depth, 2, |hops|
  {
    if hops != [] {
      if hops[0].core.key.NexthopKey? {
        DepthIsEnough(w, hops[0], depth, more);
      }
      TunnelsDepth(w, nh, hops[1..], depth, more);
    }
  }

  lemma {:induction false} TunnelsResolved(w: World, nh: Nexthop, hops: seq<Nexthop>, depth: nat)
    requires nh.core.key.NexthopKey?
    ensures forall x :: x in Tunnels(w, nh, hops, depth) ==> x.core.resolved && x.core.key.NexthopKey?
    decreases |hops|
  {
    if hops != [] {
      TunnelsResolved(w, nh, hops[1..], depth);
    }
  }

  /** Whatever tryResolve returns is resolved, so it is not tried again. */
  lemma TryResolveResolves(w: World, nh: Nexthop)
    requires nh.core.key.NexthopKey?
    ensures forall x :: x in TryResolve(w, nh) ==> x.core.resolved && x.core.key.NexthopKey?
  {
    if w.depth > 0 {
      TunnelsResolved(w, nh, Underlay(w, nh), w.depth - 1);
    }
  }

  /** NHAssignID and L2NHAssignID: a cached id, or the next one. */
  function Assign(ids: map<NetKey, int>, nextId: int, k: NetKey): (map<NetKey, int>, int, int) {
    if k in ids && ids[k] != 0 then (ids, nextId, ids[k])
    else (ids[k := nextId], nextId + 1, nextId)
  }

  function Linked(t: Net, k: NetKey, rk: NetKey): Net
    requires k in t.nexthops
  {
    t.(nexthops := t.nexthops[k := t.nexthops[k].(refs := t.nexthops[k].refs + [rk])])
  }

  function Inserted(t: Net, nh: Nexthop, rk: NetKey): Net {
    var (ids, nextId, id) := Assign(t.ids, t.nextId, nh.core.key);
    t.(nexthops := t.nexthops[nh.core.key := nh.(core := nh.core.(id := id), refs := nh.refs + [rk])],
       ids := ids, nextId := nextId)
  }

  /** addNexthop on a nexthop that is in the table or resolved; None is the nil route that crashes the caller. */
  function AddResolved(w: World, t: Net, nh: Nexthop, rk: NetKey, got: seq<NetKey>): Option<(Net, seq<NetKey>)> {
    if got != [] && !w.ecmp then None
    else if nh.core.key in t.nexthops then Some((Linked(t, nh.core.key, rk), got + [nh.core.key]))
    else Some((Inserted(t, nh, rk), got + [nh.core.key]))
  }

  function AddEach(w: World, t: Net, nhs: seq<Nexthop>, rk: NetKey, got: seq<NetKey>): Option<(Net, seq<NetKey>)>
    decreases |nhs|
  {
    if nhs == [] then Some((t, got))
    else
      match AddResolved(w, t, nhs[0], rk, got)
      case None => None
      case Some((t', got')) => AddEach(w, t', nhs[1..], rk, got')
  }

  function AddNexthop(w: World, t: Net, nh: Nexthop, rk: NetKey, got: seq<NetKey>): Option<(Net, seq<NetKey>)>
    requires nh.core.key.NexthopKey?
  {
    if got != [] && !w.ecmp then None
    else if nh.core.key in t.nexthops || nh.core.resolved then AddResolved(w, t, nh, rk, got)
    else AddEach(w, t, TryResolve(w, nh), rk, got)
  }

  predicate AllKeyed(nhs: seq<Nexthop>) {
    forall i :: 0 <= i < |nhs| ==> nhs[i].core.key.NexthopKey?
  }

  function AddNexthops(w: World, t: Net, nhs: seq<Nexthop>, rk: NetKey, got: seq<NetKey>): Option<(Net, seq<NetKey>)>
    requires AllKeyed(nhs)
    decreases |nhs|
  {
    if nhs == [] then Some((t, got))
    else
      match AddNexthop(w, t, nhs[0], rk, got)
      case None => None
      case Some((t', got')) => AddNexthops(w, t', nhs[1..], rk, got')
  }

  /** addRoute: the first route under a key stays; None is a crash. */
  function AddRoute(w: World, t: Net, route: Route, nhs: seq<Nexthop>): Option<Net>
    requires AllKeyed(nhs)
  {
    if route.core.key in t.routes then Some(t)
    else
      match AddNexthops(w, t, nhs, route.core.key, [])
      case None => None
      case Some((t', got)) =>
        Some(t'.(routes := t'.routes[route.core.key := route.(nexthops := got)]))
  }

  // ---------------------------------------------------------------------
  // The code says it ignores additional nexthops when ECMP is off; it crashes
  // ---------------------------------------------------------------------

  /** How many nexthops one nexthop of a route turns into. */
  function Yields(w: World, t: Net, nh: Nexthop): nat
    requires nh.core.key.NexthopKey?
  {
    if nh.core.key in t.nexthops || nh.core.resolved then 1 else |TryResolve(w, nh)|
  }

  lemma {:induction false} AddEachCrashes(w: World, t: Net, nhs: seq<Nexthop>, rk: NetKey, got: seq<NetKey>)
    ensures AddEach(w, t, nhs, rk, got).None? <==> !w.ecmp && nhs != [] && |got| + |nhs| > 1
    ensures AddEach(w, t, nhs, rk, got).Some? ==>
      var (t', got') := AddEach(w, t, nhs, rk, got).value;
      |got'| == |got| + |nhs| && (nhs == [] ==> t' == t)
    decreases |nhs|
  {
    if nhs != [] && AddResolved(w, t, nhs[0], rk, got).Some? {
      var (t', got') := AddResolved(w, t, nhs[0], rk, got).value;
      AddEachCrashes(w, t', nhs[1..], rk, got');
    }
  }

  lemma {:induction false} AddNexthopsCrashes(w: World, t: Net, nhs: seq<Nexthop>, rk: NetKey)
    requires AllKeyed(nhs)
    ensures AddNexthops(w, t, nhs, rk, []).None? <==>
      !w.ecmp && exists j :: 0 <= j < |nhs| && TooMany(w, t, nhs, j)
    decreases |nhs|
  {
    if w.ecmp {
      EcmpNeverCrashes(w, t, nhs, rk, []);
    } else if nhs != [] {
      var n := Yields(w, t, nhs[0]);
      if n == 0 {
        AddEachCrashes(w, t, TryResolve(w, nhs[0]), rk, []);
        AddNexthopsCrashes(w, t, nhs[1..], rk);
        NothingFirst(w, t, nhs);
      } else {
        AddEachCrashes(w, t, TryResolve(w, nhs[0]), rk, []);
        if |nhs| > 1 || n > 1 {
          assert TooMany(w, t, nhs, 0);
        }
      }
    }
  }

  /** A first nexthop that yields nothing makes no difference. */
  lemma NothingFirst(w: World, t: Net, nhs: seq<Nexthop>)
    requires AllKeyed(nhs) && nhs != [] && Yields(w, t, nhs[0]) == 0
    ensures (exists j :: 0 <= j < |nhs| && TooMany(w, t, nhs, j)) <==>
      exists j :: 0 <= j < |nhs[1..]| && TooMany(w, t, nhs[1..], j)
  {
    if j :| 0 <= j < |nhs| && TooMany(w, t, nhs, j) {
      assert nhs[1..][j - 1] == nhs[j] && TooMany(w, t, nhs[1..], j - 1);
    }
    if j :| 0 <= j < |nhs[1..]| && TooMany(w, t, nhs[1..], j) {
      assert nhs[1..][j] == nhs[j + 1] && TooMany(w, t, nhs, j + 1);
    }
  }

  /** The nexthop at `j` yields something, and something comes after it. */
  predicate TooMany(w: World, t: Net, nhs: seq<Nexthop>, j: nat)
    requires j < |nhs| && AllKeyed(nhs)
  {
    var n := Yields(w, t, nhs[j]);
    n > 1 || (n == 1 && j + 1 < |nhs|)
  }

  lemma {:induction false} EcmpNeverCrashes(w: World, t: Net, nhs: seq<Nexthop>, rk: NetKey, got: seq<NetKey>)
    requires w.ecmp && AllKeyed(nhs)
    ensures AddNexthops(w, t, nhs, rk, got).Some?
    decreases |nhs|
  {
    if nhs != [] {
      AddEachCrashes(w, t, TryResolve(w, nhs[0]), rk, got);
      var (t', got') := AddNexthop(w, t, nhs[0], rk, got).value;
      EcmpNeverCrashes(w, t', nhs[1..], rk, got');
    }
  }

  /** A new route crashes the watcher exactly when ECMP is off and its nexthops yield something with more to come. */
  lemma AddRouteCrashesIff(w: World, t: Net, route: Route, nhs: seq<Nexthop>)
    requires AllKeyed(nhs)
    ensures AddRoute(w, t, route, nhs).None? <==>
      route.core.key !in t.routes && !w.ecmp && exists j :: 0 <= j < |nhs| && TooMany(w, t, nhs, j)
  {
    AddNexthopsCrashes(w, t, nhs, route.core.key);
  }
}
