/**
 Where the nexthops of a poll's tables come from (tryResolve and addNexthop in
 pkg/netlink/nexthop.go, addRoute in route.go): which nexthops resolve and to what, what a
 route's list holds and in which order, and which of two routes under one key is kept.
 */
module NetSources {
  import opened Basics
  import opened Intents
  import opened NetRows
  import opened NetTables
  import opened NetClosure

  // ---------------------------------------------------------------------
  // Which nexthops resolve
  // ---------------------------------------------------------------------

  /** The neighbor behind the gateway was read. */
  predicate HasNeighbor(w: World, nh: Nexthop) {
    nh.core.key.NexthopKey? && NeighKey(nh.core.key.gw, nh.core.vrf, nh.core.key.dev) in w.neighbors
  }

  /**
   The nexthop needs no gateway; or its neighbor was read, and it is of a known type and, if
   it is a tunnel, some nexthop of the GRD route to its gateway can be used in turn.
   */
  ghost predicate Usable(w: World, nh: Nexthop, depth: nat)
    decreases depth
  {
    && nh.core.key.NexthopKey?
    && (nh.hasGw ==>
        && HasNeighbor(w, nh)
        && nh.core.nhType >= 0
        && (nh.core.nhType == VXLAN ==>
             && depth > 0 && nh.core.key.gw in w.grd
             && exists i :: 0 <= i < |w.grd[nh.core.key.gw]| && Usable(w, w.grd[nh.core.key.gw][i], depth - 1)))
  }

  /** The nexthop over one nexthop of the GRD route: its gateway, device and weight, the rest of its own. */
  function Over(nh: Nexthop, hop: Nexthop): Nexthop
    requires hop.core.key.NexthopKey?
  {
    var key := NexthopKey(nh.core.vrf, hop.core.key.gw, hop.core.key.dev, nh.core.local, nh.core.weight);
    nh.(core := nh.core.(key := key, weight := hop.core.weight, resolved := true))
  }

  /** Those nexthops of a GRD route that can be used, in its order. */
  ghost function Selected(w: World, hops: seq<Nexthop>, depth: nat): seq<Nexthop> {
    if hops == [] then []
    else (if Usable(w, hops[0], depth) then [hops[0]] else []) + Selected(w, hops[1..], depth)
  }

  /** One nexthop over each of `hops`. */
  ghost predicate OverEach(nh: Nexthop, hops: seq<Nexthop>, out: seq<Nexthop>) {
    && |out| == |hops|
    && forall j :: 0 <= j < |hops| ==> hops[j].core.key.NexthopKey? && out[j] == Over(nh, hops[j])
  }

  lemma OverCons(nh: Nexthop, hop: Nexthop, hops: seq<Nexthop>, out: seq<Nexthop>)
    requires OverEach(nh, hops, out) && hop.core.key.NexthopKey?
    ensures OverEach(nh, [hop] + hops, [Over(nh, hop)] + out)
  {}

  lemma {:induction false} TunnelsAreOver(w: World, nh: Nexthop, hops: seq<Nexthop>, depth: nat)
    requires nh.core.key.NexthopKey?
    ensures OverEach(nh, Selected(w, hops, depth), Tunnels(w, nh, hops, depth))
    decreases depth, 1, |hops|
  {
    if hops != [] {
      TunnelsAreOver(w, nh, hops[1..], depth);
      if hops[0].core.key.NexthopKey? {
        ResolvesIffUsable(w, hops[0], depth);
        OverCons(nh, hops[0], Selected(w, hops[1..], depth), Tunnels(w, nh, hops[1..], depth));
      }
    }
  }

  lemma {:induction false} SelectedAny(w: World, hops: seq<Nexthop>, depth: nat)
    ensures Selected(w, hops, depth) != [] <==> exists i :: 0 <= i < |hops| && Usable(w, hops[i], depth)
  {
    if hops != [] {
      SelectedAny(w, hops[1..], depth);
      if i :| 0 <= i < |hops| && Usable(w, hops[i], depth) {
        assert i > 0 ==> hops[1..][i - 1] == hops[i];
      }
    }
  }

  /** A nexthop resolves to something exactly when it can be used. */
  lemma {:induction false} ResolvesIffUsable(w: World, nh: Nexthop, depth: nat)
    requires nh.core.key.NexthopKey?
    ensures Resolve(w, nh, depth) != [] <==> Usable(w, nh, depth)
    decreases depth, 0, 0
  {
    if nh.hasGw && nh.core.nhType == VXLAN && depth > 0 && nh.core.key.gw in w.grd {
      var hops := w.grd[nh.core.key.gw];
      TunnelsAreOver(w, nh, hops, depth - 1);
      SelectedAny(w, hops, depth - 1);
    }
  }

  /**
   What tryResolve returns. Without a gateway, or with one whose neighbor was read, a nexthop
   of a known type that is no tunnel resolves to itself; any other resolves to nothing.
   */
  lemma {:induction false} PlainResolves(w: World, nh: Nexthop)
    requires nh.core.key.NexthopKey? && !(nh.hasGw && nh.core.nhType == VXLAN)
    ensures TryResolve(w, nh) == if Usable(w, nh, w.depth) then [nh.(core := nh.core.(resolved := true))] else []
    ensures Usable(w, nh, w.depth) <==>
      (nh.hasGw ==> nh.core.nhType >= 0 && NeighKey(nh.core.key.gw, nh.core.vrf, nh.core.key.dev) in w.neighbors)
  {
    ResolvesIffUsable(w, nh, w.depth);
  }

  /**
   A tunnel whose neighbor was read resolves, in the order of the GRD route to its gateway,
   to itself over each nexthop of that route that can be used; any other to nothing.
   */
  lemma {:induction false} TunnelResolves(w: World, nh: Nexthop)
    requires nh.core.key.NexthopKey? && nh.hasGw && nh.core.nhType == VXLAN && w.depth > 0
    ensures if HasNeighbor(w, nh) && nh.core.key.gw in w.grd
            then OverEach(nh, Selected(w, w.grd[nh.core.key.gw], w.depth - 1), TryResolve(w, nh))
            else TryResolve(w, nh) == []
  {
    TunnelsAreOver(w, nh, Underlay(w, nh), w.depth - 1);
    assert Selected(w, [], w.depth - 1) == [];
  }

  // ---------------------------------------------------------------------
  // What a route's list holds
  // ---------------------------------------------------------------------

  function KeysOf(nhs: seq<Nexthop>): seq<NetKey> {
    seq(|nhs|, i requires 0 <= i < |nhs| => nhs[i].core.key)
  }

  /** The nexthops one parsed nexthop stands for when the keys in `known` are in the table. */
  function Yield(w: World, known: set<NetKey>, nh: Nexthop): seq<NetKey>
    requires nh.core.key.NexthopKey?
  {
    if nh.core.key in known || nh.core.resolved then [nh.core.key] else KeysOf(TryResolve(w, nh))
  }

  /** In the order they were read, each one seeing those before it. */
  ghost function Yielded(w: World, known: set<NetKey>, nhs: seq<Nexthop>): seq<NetKey>
    requires AllKeyed(nhs)
    decreases |nhs|
  {
    if nhs == [] then []
    else
      var first := Yield(w, known, nhs[0]);
      first + Yielded(w, known + Elems(first), nhs[1..])
  }

  /** Entries that were there stay, but for new references at the end; `more` were added to the list. */
  ghost predicate Extends(t: Net, t': Net, got: seq<NetKey>, got': seq<NetKey>, more: seq<NetKey>) {
    && got' == got + more
    && t'.routes == t.routes
    && t'.nexthops.Keys == t.nexthops.Keys + Elems(more)
    && forall k :: k in t.nexthops ==>
      t'.nexthops[k] == t.nexthops[k].(refs := t'.nexthops[k].refs) && t.nexthops[k].refs <= t'.nexthops[k].refs
  }

  lemma ExtendsTrans(t: Net, u: Net, v: Net, got: seq<NetKey>, got': seq<NetKey>, got'': seq<NetKey>,
                     more: seq<NetKey>, more': seq<NetKey>)
    requires Extends(t, u, got, got', more) && Extends(u, v, got', got'', more')
    ensures Extends(t, v, got, got'', more + more')
  {
    assert got + more + more' == got + (more + more');
    assert Elems(more + more') == Elems(more) + Elems(more');
    forall k | k in t.nexthops
      ensures v.nexthops[k] == t.nexthops[k].(refs := v.nexthops[k].refs) && t.nexthops[k].refs <= v.nexthops[k].refs
    {
      assert k in u.nexthops;
    }
  }

  lemma AddResolvedExtends(w: World, t: Net, nh: Nexthop, rk: NetKey, got: seq<NetKey>)
    requires AddResolved(w, t, nh, rk, got).Some?
    ensures var (t', got') := AddResolved(w, t, nh, rk, got).value; Extends(t, t', got, got', [nh.core.key])
  {
    if nh.core.key in t.nexthops {
      LinkedExtends(t, nh.core.key, rk, got);
    } else {
      InsertedExtends(t, nh, rk, got);
    }
  }

  lemma LinkedExtends(t: Net, k: NetKey, rk: NetKey, got: seq<NetKey>)
    requires k in t.nexthops
    ensures Extends(t, Linked(t, k, rk), got, got + [k], [k])
  {
    assert Elems([k]) == {k};
    assert Linked(t, k, rk).nexthops.Keys == t.nexthops.Keys + {k};
  }

  lemma InsertedExtends(t: Net, nh: Nexthop, rk: NetKey, got: seq<NetKey>)
    requires nh.core.key !in t.nexthops
    ensures Extends(t, Inserted(t, nh, rk), got, got + [nh.core.key], [nh.core.key])
  {
    assert Elems([nh.core.key]) == {nh.core.key};
    assert Inserted(t, nh, rk).nexthops.Keys == t.nexthops.Keys + {nh.core.key};
  }

  lemma {:induction false} AddEachExtends(w: World, t: Net, nhs: seq<Nexthop>, rk: NetKey, got: seq<NetKey>)
    requires AddEach(w, t, nhs, rk, got).Some?
    ensures var (t', got') := AddEach(w, t, nhs, rk, got).value; Extends(t, t', got, got', KeysOf(nhs))
    decreases |nhs|
  {
    if nhs == [] {
      assert got + [] == got && Elems<NetKey>([]) == {};
    } else {
      var (t1, got1) := AddResolved(w, t, nhs[0], rk, got).value;
      var (t', got') := AddEach(w, t1, nhs[1..], rk, got1).value;
      AddResolvedExtends(w, t, nhs[0], rk, got);
      AddEachExtends(w, t1, nhs[1..], rk, got1);
      assert [nhs[0].core.key] + KeysOf(nhs[1..]) == KeysOf(nhs);
      ExtendsTrans(t, t1, t', got, got1, got', [nhs[0].core.key], KeysOf(nhs[1..]));
    }
  }

  lemma AddNexthopExtends(w: World, t: Net, nh: Nexthop, rk: NetKey, got: seq<NetKey>)
    requires nh.core.key.NexthopKey? && AddNexthop(w, t, nh, rk, got).Some?
    ensures var (t', got') := AddNexthop(w, t, nh, rk, got).value;
      Extends(t, t', got, got', Yield(w, t.nexthops.Keys, nh))
  {
    if nh.core.key in t.nexthops || nh.core.resolved {
      AddResolvedExtends(w, t, nh, rk, got);
    } else {
      AddEachExtends(w, t, TryResolve(w, nh), rk, got);
    }
  }

  lemma {:induction false} AddNexthopsExtends(w: World, t: Net, nhs: seq<Nexthop>, rk: NetKey, got: seq<NetKey>)
    requires AllKeyed(nhs) && AddNexthops(w, t, nhs, rk, got).Some?
    ensures var (t', got') := AddNexthops(w, t, nhs, rk, got).value;
      Extends(t, t', got, got', Yielded(w, t.nexthops.Keys, nhs))
    decreases |nhs|
  {
    if nhs == [] {
      assert got + [] == got && Elems<NetKey>([]) == {};
    } else {
      var (t1, got1) := AddNexthop(w, t, nhs[0], rk, got).value;
      var (t', got') := AddNexthops(w, t1, nhs[1..], rk, got1).value;
      AddNexthopExtends(w, t, nhs[0], rk, got);
      AddNexthopsExtends(w, t1, nhs[1..], rk, got1);
      ExtendsTrans(t, t1, t', got, got1, got', Yield(w, t.nexthops.Keys, nhs[0]),
                   Yielded(w, t1.nexthops.Keys, nhs[1..]));
    }
  }

  /**
   Reading a route: the first one under a key stays, and its list holds, in order, what its
   nexthops stand for. Nexthops and routes that were in the tables stay what they were, but
   for references to the new route.
   */
  lemma {:induction false} AddRouteStores(w: World, t: Net, route: Route, nhs: seq<Nexthop>)
    requires AllKeyed(nhs) && AddRoute(w, t, route, nhs).Some?
    ensures var t' := AddRoute(w, t, route, nhs).value; var rk := route.core.key;
      if rk in t.routes then t' == t
      else
        var list := Yielded(w, t.nexthops.Keys, nhs);
        && t'.routes == t.routes[rk := route.(nexthops := list)]
        && t'.nexthops.Keys == t.nexthops.Keys + Elems(list)
        && forall k :: k in t.nexthops ==>
          t'.nexthops[k] == t.nexthops[k].(refs := t'.nexthops[k].refs) && t.nexthops[k].refs <= t'.nexthops[k].refs
  {
    if route.core.key !in t.routes {
      AddNexthopsExtends(w, t, nhs, route.core.key, []);
      var list := Yielded(w, t.nexthops.Keys, nhs);
      assert [] + list == list;
    }
  }

  // ---------------------------------------------------------------------
  // Where the nexthops of a poll come from
  // ---------------------------------------------------------------------

  /** `e` is `x` with an id and references of its own. */
  predicate Entered(e: Nexthop, x: Nexthop) {
    e == x.(core := x.core.(id := e.core.id), refs := e.refs)
  }

  /** Reading `nh` can bring `e` into the table: itself when it was parsed resolved, else what it resolves to. */
  ghost predicate Brings(w: World, nh: Nexthop, e: Nexthop) {
    && nh.core.key.NexthopKey?
    && if nh.core.resolved then Entered(e, nh) else exists x :: x in TryResolve(w, nh) && Entered(e, x)
  }

  ghost predicate FromSources(w: World, sources: set<Nexthop>, t: Net) {
    forall k :: k in t.nexthops ==> exists nh :: nh in sources && Brings(w, nh, t.nexthops[k])
  }

  lemma AddResolvedFrom(w: World, sources: set<Nexthop>, t: Net, x: Nexthop, rk: NetKey, got: seq<NetKey>, nh: Nexthop)
    requires FromSources(w, sources, t) && nh in sources && nh.core.key.NexthopKey?
    requires x.core.key in t.nexthops || (if nh.core.resolved then x == nh else x in TryResolve(w, nh))
    requires AddResolved(w, t, x, rk, got).Some?
    ensures FromSources(w, sources, AddResolved(w, t, x, rk, got).value.0)
  {
    var t' := AddResolved(w, t, x, rk, got).value.0;
    forall k | k in t'.nexthops ensures exists nh :: nh in sources && Brings(w, nh, t'.nexthops[k]) {
      if k in t.nexthops {
        var source :| source in sources && Brings(w, source, t.nexthops[k]);
        SameSource(w, source, t.nexthops[k], t'.nexthops[k]);
      } else {
        assert Entered(t'.nexthops[k], x);
        assert Brings(w, nh, t'.nexthops[k]);
      }
    }
  }

  lemma SameSource(w: World, nh: Nexthop, e: Nexthop, e': Nexthop)
    requires Brings(w, nh, e) && e' == e.(refs := e'.refs)
    ensures Brings(w, nh, e')
  {
    if !nh.core.resolved {
      var x :| x in TryResolve(w, nh) && Entered(e, x);
      assert Entered(e', x);
    }
  }

  lemma {:induction false} AddEachFrom(w: World, sources: set<Nexthop>, t: Net, xs: seq<Nexthop>, rk: NetKey,
                                       got: seq<NetKey>, nh: Nexthop)
    requires FromSources(w, sources, t) && nh in sources && nh.core.key.NexthopKey? && !nh.core.resolved
    requires (forall x :: x in xs ==> x in TryResolve(w, nh)) && AddEach(w, t, xs, rk, got).Some?
    ensures FromSources(w, sources, AddEach(w, t, xs, rk, got).value.0)
    decreases |xs|
  {
    if xs != [] {
      AddResolvedFrom(w, sources, t, xs[0], rk, got, nh);
      var (t', got') := AddResolved(w, t, xs[0], rk, got).value;
      AddEachFrom(w, sources, t', xs[1..], rk, got', nh);
    }
  }

  lemma {:induction false} AddNexthopsFrom(w: World, sources: set<Nexthop>, t: Net, nhs: seq<Nexthop>, rk: NetKey,
                                           got: seq<NetKey>)
    requires FromSources(w, sources, t) && AllKeyed(nhs) && (forall nh :: nh in nhs ==> nh in sources)
    requires AddNexthops(w, t, nhs, rk, got).Some?
    ensures FromSources(w, sources, AddNexthops(w, t, nhs, rk, got).value.0)
    decreases |nhs|
  {
    if nhs != [] {
      var nh := nhs[0];
      if nh.core.key in t.nexthops || nh.core.resolved {
        AddResolvedFrom(w, sources, t, nh, rk, got, nh);
      } else {
        AddEachFrom(w, sources, t, TryResolve(w, nh), rk, got, nh);
      }
      var (t', got') := AddNexthop(w, t, nh, rk, got).value;
      AddNexthopsFrom(w, sources, t', nhs[1..], rk, got');
    }
  }

  /** All nexthops a poll reads. */
  function Sources(inputs: seq<Read>): set<Nexthop> {
    set i, j | 0 <= i < |inputs| && 0 <= j < |inputs[i].nexthops| :: inputs[i].nexthops[j]
  }

  lemma {:induction false} AddRoutesFrom(w: World, sources: set<Nexthop>, t: Net, inputs: seq<Read>)
    requires FromSources(w, sources, t) && Sources(inputs) <= sources
    requires forall i :: 0 <= i < |inputs| ==> AllParsed(inputs[i].nexthops)
    requires AddRoutes(w, t, inputs).Some?
    ensures FromSources(w, sources, AddRoutes(w, t, inputs).value)
  {
    if inputs != [] {
      var front, last := inputs[..|inputs| - 1], inputs[|inputs| - 1];
      assert Sources(front) <= Sources(inputs);
      AddRoutesFrom(w, sources, t, front);
      var t' := AddRoutes(w, t, front).value;
      if last.route.core.key !in t'.routes {
        forall nh | nh in last.nexthops ensures nh in sources {
          var j :| 0 <= j < |last.nexthops| && last.nexthops[j] == nh;
          assert inputs[|inputs| - 1].nexthops[j] in Sources(inputs);
        }
        AddNexthopsFrom(w, sources, t', last.nexthops, last.route.core.key, []);
      }
    }
  }

  /**
   Every nexthop in the table of a poll comes from one the poll read: that was parsed
   resolved, or needs no gateway, or its gateway's neighbor was read as well.
   */
  lemma {:induction false} TableNexthopsHaveNeighbors(ids: map<NetKey, int>, nextId: int, poll: Poll, k: NetKey)
    returns (nh: Nexthop)
    requires Readable(poll) && PollOnce(ids, nextId, poll).Some? && k in PollOnce(ids, nextId, poll).value.nexthops
    ensures nh in Sources(poll.inputs) && nh.core.key.NexthopKey?
    ensures var e := PollOnce(ids, nextId, poll).value.nexthops[k];
      e.core.vrf == nh.core.vrf && e.core.local == nh.core.local && e.hasGw == nh.hasGw && e.vrfStatus == nh.vrfStatus
    ensures nh.core.resolved || !nh.hasGw ||
      NeighKey(nh.core.key.gw, nh.core.vrf, nh.core.key.dev) in poll.w.neighbors
  {
    var start := Net(map[], map[], ids, nextId);
    AddRoutesFrom(poll.w, Sources(poll.inputs), start, poll.inputs);
    var t := AddRoutes(poll.w, start, poll.inputs).value;
    nh :| nh in Sources(poll.inputs) && Brings(poll.w, nh, t.nexthops[k]);
    if !nh.core.resolved {
      var x :| x in TryResolve(poll.w, nh) && Entered(t.nexthops[k], x);
      ResolvesIffUsable(poll.w, nh, poll.w.depth);
      SameOrigin(poll.w, nh, x);
    }
  }

  /** Whatever a nexthop resolves to keeps its VRF, its gateway flag and its locality. */
  lemma SameOrigin(w: World, nh: Nexthop, x: Nexthop)
    requires nh.core.key.NexthopKey? && x in TryResolve(w, nh)
    ensures x.core.vrf == nh.core.vrf && x.core.local == nh.core.local && x.hasGw == nh.hasGw
    ensures x.vrfStatus == nh.vrfStatus
  {
    if nh.hasGw && nh.core.nhType == VXLAN {
      TunnelResolves(w, nh);
      var j :| 0 <= j < |TryResolve(w, nh)| && TryResolve(w, nh)[j] == x;
    } else {
      PlainResolves(w, nh);
    }
  }

  /** The route of a poll's table is the first one the poll read under its key, but for its list and metadata. */
  lemma {:induction false} FirstRouteStays(w: World, t: Net, inputs: seq<Read>, i: nat)
    requires forall i :: 0 <= i < |inputs| ==> AllParsed(inputs[i].nexthops)
    requires AddRoutes(w, t, inputs).Some? && i < |inputs| && inputs[i].route.core.key !in t.routes
    requires forall j :: 0 <= j < i ==> inputs[j].route.core.key != inputs[i].route.core.key
    ensures var t' := AddRoutes(w, t, inputs).value; var rk := inputs[i].route.core.key;
      rk in t'.routes && t'.routes[rk] == inputs[i].route.(nexthops := t'.routes[rk].nexthops)
    decreases |inputs|
  {
    var front, last := inputs[..|inputs| - 1], inputs[|inputs| - 1];
    AddRouteStores(w, AddRoutes(w, t, front).value, last.route, last.nexthops);
    if i < |front| {
      FirstRouteStays(w, t, front, i);
    } else {
      OnlyReadRoutes(w, t, front, inputs[i].route.core.key);
    }
  }

  lemma {:induction false} OnlyReadRoutes(w: World, t: Net, inputs: seq<Read>, rk: NetKey)
    requires forall i :: 0 <= i < |inputs| ==> AllParsed(inputs[i].nexthops)
    requires AddRoutes(w, t, inputs).Some? && rk !in t.routes
    requires forall j :: 0 <= j < |inputs| ==> inputs[j].route.core.key != rk
    ensures rk !in AddRoutes(w, t, inputs).value.routes
  {
    if inputs != [] {
      var front, last := inputs[..|inputs| - 1], inputs[|inputs| - 1];
      OnlyReadRoutes(w, t, front, rk);
      AddRouteStores(w, AddRoutes(w, t, front).value, last.route, last.nexthops);
    }
  }

  // ---------------------------------------------------------------------
  // What is installed
  // ---------------------------------------------------------------------

  /** The data a nexthop of this type needs to be installed is there. */
  predicate HasItsData(nhType: int, f: Facts) {
    match nhType
    case 0 => f.link ==> f.neighbor.Some?
    case 1 => f.neighbor in {None, Some(SVI)} || (f.neighbor == Some(VXLAN) && (f.l2Known ==> f.l2Resolved))
    case 3 => true
    case 4 => f.rmac
    case _ => false
  }

  predicate OfInstalledType(t: string) {
    t == "connected" || t == "evpn-vxlan" || t == "static" || t == "bgp" || t == "local" || t == "neighbor"
  }

  lemma AnnotatedData(nhType: int, f: Facts)
    ensures Annotated(nhType, true, f).1 <==> HasItsData(nhType, f)
    ensures Annotated(nhType, true, f).1 ==> CheckNhType(Annotated(nhType, true, f).0)
  {}

  lemma FilterAt(t: Net, facts: map<NetKey, Facts>, notes: map<NetKey, map<string, string>>, k: NetKey)
    requires k in t.nexthops
    ensures var nh := AnnotateNexthop(t.nexthops[k], FactsAt(facts, k)); var a := Annotate(t, facts, notes);
      && k in a.nexthops && a.nexthops[k] == nh
      && (k in Filter(a).nexthops <==> InstallNexthop(nh)) && (k in Filter(a).nexthops ==> Filter(a).nexthops[k] == nh)
  {}

  lemma FilterRouteAt(t: Net, facts: map<NetKey, Facts>, notes: map<NetKey, map<string, string>>, rk: NetKey)
    requires rk in t.routes
    ensures var a := Annotate(t, facts, notes);
      var kept := KeptNexthops(a.nexthops, t.routes[rk].nexthops);
      && (rk in Filter(a).routes <==>
           OfInstalledType(t.routes[rk].core.nlType) && kept != [] && !t.routes[rk].anyDst)
      && (rk in Filter(a).routes ==> Filter(a).routes[rk] == AnnotateRoute(t.routes[rk], notes, rk).(nexthops := kept))
  {}

  /** A nexthop in the table is installed exactly when annotation finds the data its type needs. */
  lemma {:induction false} InstalledNexthopsAre(t: Net, facts: map<NetKey, Facts>,
                                                notes: map<NetKey, map<string, string>>, k: NetKey)
    requires Whole(t) && k in t.nexthops
    ensures k in Filter(Annotate(t, facts, notes)).nexthops <==>
      HasItsData(t.nexthops[k].core.nhType, if k in facts then facts[k] else NoFacts)
  {
    assert WholeNexthop(t, k);
    FilterAt(t, facts, notes, k);
    AnnotatedData(t.nexthops[k].core.nhType, FactsAt(facts, k));
  }

  /** The elements of `ks` that are in `keep`, in order. */
  ghost function Only(keep: set<NetKey>, ks: seq<NetKey>): seq<NetKey> {
    if ks == [] then []
    else (if ks[0] in keep then [ks[0]] else []) + Only(keep, ks[1..])
  }

  lemma {:induction false} KeptIsOnly(nexthops: map<NetKey, Nexthop>, ks: seq<NetKey>, keep: set<NetKey>)
    requires forall k :: k in ks ==> (k in nexthops && nexthops[k].core.resolved <==> k in keep)
    ensures KeptNexthops(nexthops, ks) == Only(keep, ks)
  {
    if ks != [] {
      KeptIsOnly(nexthops, ks[1..], keep);
    }
  }

  lemma {:induction false} OnlyAre(keep: set<NetKey>, ks: seq<NetKey>)
    ensures forall k :: k in Only(keep, ks) <==> k in ks && k in keep
  {
    if ks != [] {
      OnlyAre(keep, ks[1..]);
    }
  }

  lemma KeptIffInstalled(t: Net, facts: map<NetKey, Facts>, notes: map<NetKey, map<string, string>>, k: NetKey)
    requires Whole(t) && k in t.nexthops
    ensures var a := Annotate(t, facts, notes);
      k in a.nexthops && (a.nexthops[k].core.resolved <==> k in Filter(a).nexthops)
  {
    assert WholeNexthop(t, k);
    FilterAt(t, facts, notes, k);
    AnnotatedData(t.nexthops[k].core.nhType, FactsAt(facts, k));
  }

  lemma ListKept(t: Net, facts: map<NetKey, Facts>, notes: map<NetKey, map<string, string>>, rk: NetKey)
    requires Whole(t) && rk in t.routes
    ensures var a := Annotate(t, facts, notes);
      KeptNexthops(a.nexthops, t.routes[rk].nexthops) == Only(Filter(a).nexthops.Keys, t.routes[rk].nexthops)
  {
    var a := Annotate(t, facts, notes);
    var keep := Filter(a).nexthops.Keys;
    forall k | k in t.routes[rk].nexthops
      ensures k in a.nexthops && a.nexthops[k].core.resolved <==> k in keep
    {
      KeptIffInstalled(t, facts, notes, k);
    }
    KeptIsOnly(a.nexthops, t.routes[rk].nexthops, keep);
  }

  lemma SomeKept(keep: set<NetKey>, ks: seq<NetKey>)
    ensures Only(keep, ks) != [] <==> exists k :: k in ks && k in keep
  {
    OnlyAre(keep, ks);
    if Only(keep, ks) != [] {
      assert Only(keep, ks)[0] in Only(keep, ks);
    }
  }

  /**
   A route in the table is installed exactly when its type is one of six, it is no default
   route, and one of its nexthops is installed; and it keeps those of its nexthops that are,
   in order.
   */
  lemma {:induction false} InstalledRoutesAre(t: Net, facts: map<NetKey, Facts>,
                                              notes: map<NetKey, map<string, string>>, rk: NetKey)
    requires Whole(t) && rk in t.routes
    ensures var installed := Filter(Annotate(t, facts, notes)); var route := t.routes[rk];
      && (rk in installed.routes <==>
           && OfInstalledType(route.core.nlType)
           && !route.anyDst && exists k :: k in route.nexthops && k in installed.nexthops)
      && (rk in installed.routes ==>
           installed.routes[rk].nexthops == Only(installed.nexthops.Keys, route.nexthops))
  {
    ListKept(t, facts, notes, rk);
    FilterRouteAt(t, facts, notes, rk);
    SomeKept(Filter(Annotate(t, facts, notes)).nexthops.Keys, t.routes[rk].nexthops);
  }

  /**
   What the rows of the installed tables show. A route: its own fields with the metadata that
   annotation found, and the installed nexthops of its list, in order. A nexthop: its own
   fields with the type and metadata that annotation found, and the routes that list it.
   */
  lemma {:induction false} RouteRowShows(t: Net, facts: map<NetKey, Facts>, notes: map<NetKey, map<string, string>>,
                                         rk: NetKey)
    requires Whole(t) && rk in Filter(Annotate(t, facts, notes)).routes
    ensures var installed := Filter(Annotate(t, facts, notes)); var row := RouteRows(installed)[rk];
      && row.RouteRow? && row.vrfStatus == t.routes[rk].vrfStatus
      && row.route == t.routes[rk].core.(metadata := if rk in notes then notes[rk] else map[])
      && var list := Only(installed.nexthops.Keys, t.routes[rk].nexthops);
         |row.nexthops| == |list| && forall i :: 0 <= i < |list| ==>
           list[i] in installed.nexthops && row.nexthops[i] == installed.nexthops[list[i]].core
  {
    var installed := Filter(Annotate(t, facts, notes));
    FilterRouteAt(t, facts, notes, rk);
    ListKept(t, facts, notes, rk);
    RouteRowAt(installed, rk, Only(installed.nexthops.Keys, t.routes[rk].nexthops), t.routes[rk].nexthops);
  }

  lemma RouteRowAt(t: Net, rk: NetKey, list: seq<NetKey>, all: seq<NetKey>)
    requires rk in t.routes && t.routes[rk].nexthops == list == Only(t.nexthops.Keys, all)
    ensures RouteRows(t)[rk] == RouteRow(t.routes[rk].core, t.routes[rk].vrfStatus, CoresOf(t.nexthops, list))
    ensures |CoresOf(t.nexthops, list)| == |list|
    ensures forall i :: 0 <= i < |list| ==>
      list[i] in t.nexthops && CoresOf(t.nexthops, list)[i] == t.nexthops[list[i]].core
  {
    OnlyAre(t.nexthops.Keys, all);
    forall i | 0 <= i < |list| ensures list[i] in t.nexthops {
      assert list[i] in list;
    }
    CoresOfAll(t.nexthops, list);
  }

  /** The type a nexthop is installed with: one that leads to a neighbor of a VRF is an SVI's or a tunnel's. */
  function TypeOf(nhType: int, f: Facts): int {
    if nhType != 1 then nhType else if f.neighbor == Some(4) then 4 else 2
  }

  lemma {:induction false} NexthopRowShows(t: Net, facts: map<NetKey, Facts>, notes: map<NetKey, map<string, string>>,
                                           k: NetKey)
    requires Whole(t) && k in Filter(Annotate(t, facts, notes)).nexthops
    ensures var a := Annotate(t, facts, notes);
      var row := NexthopRows(a, Filter(a))[k];
      var f := if k in facts then facts[k] else NoFacts;
      var nh := t.nexthops[k];
      && row.NexthopRow? && row.vrfStatus == nh.vrfStatus
      && row.nexthop == nh.core.(nhType := TypeOf(nh.core.nhType, f), metadata := f.metadata)
      && |row.routeRefs| == |nh.refs|
      && forall i :: 0 <= i < |nh.refs| ==> nh.refs[i] in a.routes && row.routeRefs[i] == a.routes[nh.refs[i]].core
  {
    var a := Annotate(t, facts, notes);
    assert WholeNexthop(t, k);
    FilterAt(t, facts, notes, k);
    InstalledType(t.nexthops[k].core.nhType, FactsAt(facts, k));
    var refs := t.nexthops[k].refs;
    forall i | 0 <= i < |refs| ensures refs[i] in a.routes {
      assert refs[i] in refs;
    }
    RefCoresAll(a.routes, refs);
    NexthopRowAt(a, Filter(a), k);
  }

  lemma InstalledType(nhType: int, f: Facts)
    ensures Annotated(nhType, true, f).1 ==> Annotated(nhType, true, f).0 == TypeOf(nhType, f)
  {}

  lemma NexthopRowAt(a: Net, t: Net, k: NetKey)
    requires k in t.nexthops
    ensures NexthopRows(a, t)[k] ==
      NexthopRow(t.nexthops[k].core, t.nexthops[k].vrfStatus, RefCores(a.routes, t.nexthops[k].refs))
  {}

  lemma {:induction false} RefCoresAll(routes: map<NetKey, Route>, rks: seq<NetKey>)
    requires forall i :: 0 <= i < |rks| ==> rks[i] in routes
    ensures |RefCores(routes, rks)| == |rks|
    ensures forall i :: 0 <= i < |rks| ==> RefCores(routes, rks)[i] == routes[rks[i]].core
  {
    if rks != [] {
      RefCoresAll(routes, rks[1..]);
    }
  }
}
