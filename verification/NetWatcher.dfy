/**
 The netlink watcher as the code has it: global tables and an id cache that methods update,
 a poll that rebuilds, annotates, filters, compares and publishes. Each method is shown to
 do what `NetTables` and `NetClosure` say; the last lemma follows a subscriber over a run.
 */
module NetWatcher {
  import opened Basics
  import opened NetRows
  import opened NetTables
  import opened NetClosure
  import opened Differ

  class NetDb {
    var latestRoutes: map<NetKey, Route>
    var latestNexthop: map<NetKey, Nexthop>
    var nhIDCache: map<NetKey, int>
    var nhNextID: int
    var routes: Rows
    var nexthops: Rows

    constructor ()
      ensures Latest() == NoNet && routes == map[] && nexthops == map[]
    {
      latestRoutes, latestNexthop := map[], map[];
      nhIDCache, nhNextID := map[], FIRST_ID;
      routes, nexthops := map[], map[];
    }

    function Latest(): Net
      reads this
    {
      Net(latestRoutes, latestNexthop, nhIDCache, nhNextID)
    }

    method NHAssignID(key: NetKey) returns (id: int)
      modifies this`nhIDCache, this`nhNextID
      ensures (nhIDCache, nhNextID, id) == Assign(old(nhIDCache), old(nhNextID), key)
    {
      id := if key in nhIDCache then nhIDCache[key] else 0;
      if id == 0 {
        id := nhNextID;
        nhIDCache := nhIDCache[key := id];
        nhNextID := nhNextID + 1;
      }
    }

    method TryToResolve(w: World, nh: Nexthop, depth: nat) returns (resolved: seq<Nexthop>)
      requires nh.core.key.NexthopKey?
      ensures resolved == Resolve(w, nh, depth)
      ensures nh.hasGw && NeighKey(nh.core.key.gw, nh.core.vrf, nh.core.key.dev) !in w.neighbors ==> resolved == []
      ensures !nh.hasGw || (nh.core.nhType >= 0 && nh.core.nhType != VXLAN
                            && NeighKey(nh.core.key.gw, nh.core.vrf, nh.core.key.dev) in w.neighbors) ==>
        resolved == [nh.(core := nh.core.(resolved := true))]
      decreases 2 * depth
    {
      if !nh.hasGw {
        return [Resolved(nh)];
      }
      if !Known(w, nh) {
        return [];
      }
      if nh.core.nhType == VXLAN {
        if depth == 0 {
          return [];
        }
        resolved := TryUnderlay(w, nh, Underlay(w, nh), depth - 1);
        return;
      }
      if nh.core.nhType >= 0 {
        return [Resolved(nh)];
      }
      return [];
    }

    /** The loop of tryResolve over the nexthops of the GRD route. */
    method TryUnderlay(w: World, nh: Nexthop, hops: seq<Nexthop>, depth: nat) returns (resolved: seq<Nexthop>)
      requires nh.core.key.NexthopKey?
      ensures resolved == Tunnels(w, nh, hops, depth)
      decreases 2 * depth + 1
    {
      resolved := [];
      var i := 0;
      while i < |hops|
        invariant 0 <= i <= |hops|
        invariant resolved + Tunnels(w, nh, hops[i..], depth) == Tunnels(w, nh, hops, depth)
      {
        TunnelsStep(w, nh, hops, i, depth, resolved);
        if hops[i].core.key.NexthopKey? {
          var some := TryToResolve(w, hops[i], depth);
          if some != [] {
            var hop := hops[i].core;
            var key := NexthopKey(nh.core.vrf, hop.key.gw, hop.key.dev, nh.core.local, nh.core.weight);
            resolved := resolved + [Resolved(nh.(core := nh.core.(key := key, weight := hop.weight)))];
          }
        }
        i := i + 1;
      }
    }

    /** A nexthop that is in the table, or resolved. */
    method AddReady(w: World, nh: Nexthop, rk: NetKey, got: seq<NetKey>) returns (more: Option<seq<NetKey>>)
      requires nh.core.key in latestNexthop || nh.core.resolved
      modifies this`latestNexthop, this`nhIDCache, this`nhNextID
      ensures AddResolved(w, old(Latest()), nh, rk, got) == if more.Some? then Some((Latest(), more.value)) else None
    {
      if got != [] && !w.ecmp {
        return None;
      }
      var key := nh.core.key;
      if key in latestNexthop {
        var nh0 := latestNexthop[key];
        latestNexthop := latestNexthop[key := nh0.(refs := nh0.refs + [rk])];
      } else {
        var id := NHAssignID(key);
        latestNexthop := latestNexthop[key := nh.(core := nh.core.(id := id), refs := nh.refs + [rk])];
      }
      return Some(got + [key]);
    }

    /** addNexthop; None is the nil route on which the caller crashes. */
    method AddOne(w: World, nh: Nexthop, rk: NetKey, got: seq<NetKey>) returns (more: Option<seq<NetKey>>)
      requires nh.core.key.NexthopKey?
      modifies this`latestNexthop, this`nhIDCache, this`nhNextID
      ensures AddNexthop(w, old(Latest()), nh, rk, got) == if more.Some? then Some((Latest(), more.value)) else None
      decreases if nh.core.resolved then 0 else 2
    {
      if nh.core.key in latestNexthop || nh.core.resolved {
        more := AddReady(w, nh, rk, got);
        return;
      }
      if got != [] && !w.ecmp {
        return None;
      }
      var resolved := TryToResolve(w, nh, w.depth);
      TryResolveResolves(w, nh);
      more := AddTried(w, resolved, rk, got);
    }

    method AddTried(w: World, resolved: seq<Nexthop>, rk: NetKey, got: seq<NetKey>) returns (more: Option<seq<NetKey>>)
      requires forall nh :: nh in resolved ==> nh.core.key.NexthopKey? && nh.core.resolved
      modifies this`latestNexthop, this`nhIDCache, this`nhNextID
      ensures AddEach(w, old(Latest()), resolved, rk, got) == if more.Some? then Some((Latest(), more.value)) else None
      decreases 1
    {
      var soFar := got;
      var i := 0;
      ghost var end := AddEach(w, Latest(), resolved, rk, got);
      assert resolved[0..] == resolved;
      while i < |resolved|
        invariant 0 <= i <= |resolved|
        invariant end == AddEach(w, Latest(), resolved[i..], rk, soFar)
      {
        ghost var t := Latest();
        assert resolved[i] in resolved;
        ResolvedIsReady(w, t, resolved[i], rk, soFar);
        EachStep(w, t, resolved, i, rk, soFar);
        var next := AddOne(w, resolved[i], rk, soFar);
        if next.None? {
          return None;
        }
        soFar := next.value;
        i := i + 1;
      }
      assert resolved[i..] == [];
      return Some(soFar);
    }

    /** The loop of addRoute. */
    method AddAll(w: World, nhs: seq<Nexthop>, rk: NetKey) returns (more: Option<seq<NetKey>>)
      requires AllKeyed(nhs)
      modifies this`latestNexthop, this`nhIDCache, this`nhNextID
      ensures AddNexthops(w, old(Latest()), nhs, rk, []) == if more.Some? then Some((Latest(), more.value)) else None
    {
      var got: seq<NetKey> := [];
      var i := 0;
      ghost var end := AddNexthops(w, Latest(), nhs, rk, []);
      assert nhs[0..] == nhs;
      while i < |nhs|
        invariant 0 <= i <= |nhs|
        invariant end == AddNexthops(w, Latest(), nhs[i..], rk, got)
      {
        NexthopsStep(w, Latest(), nhs, i, rk, got);
        var next := AddOne(w, nhs[i], rk, got);
        if next.None? {
          return None;
        }
        got := next.value;
        i := i + 1;
      }
      assert nhs[i..] == [];
      return Some(got);
    }

    /** False means the poll crashed. */
    method AddRouteToDb(w: World, route: Route, nhs: seq<Nexthop>) returns (ok: bool)
      requires AllKeyed(nhs)
      modifies this`latestRoutes, this`latestNexthop, this`nhIDCache, this`nhNextID
      ensures AddRoute(w, old(Latest()), route, nhs) == if ok then Some(Latest()) else None
    {
      if route.core.key in latestRoutes {
        return true;
      }
      var got := AddAll(w, nhs, route.core.key);
      if got.None? {
        return false;
      }
      latestRoutes := latestRoutes[route.core.key := route.(nexthops := got.value)];
      return true;
    }

    method ReadLatest(w: World, inputs: seq<Read>) returns (ok: bool)
      requires forall i :: 0 <= i < |inputs| ==> AllParsed(inputs[i].nexthops)
      modifies this`latestRoutes, this`latestNexthop, this`nhIDCache, this`nhNextID
      ensures ok ==> AddRoutes(w, old(Latest()), inputs) == Some(Latest())
    {
      for i := 0 to |inputs|
        invariant AddRoutes(w, old(Latest()), inputs[..i]) == Some(Latest())
      {
        assert inputs[..i + 1][..i] == inputs[..i];
        assert AllParsed(inputs[i].nexthops);
        ok := AddRouteToDb(w, inputs[i].route, inputs[i].nexthops);
        if !ok {
          return;
        }
      }
      assert inputs[..|inputs|] == inputs;
      ok := true;
    }

    method AnnotateNexthops(facts: map<NetKey, Facts>)
      modifies this`latestNexthop
      ensures latestNexthop == Annotate(old(Latest()), facts, map[]).nexthops
    {
      ghost var was := latestNexthop;
      var todo := latestNexthop.Keys;
      while todo != {}
        invariant todo <= was.Keys == latestNexthop.Keys
        invariant forall k :: k in latestNexthop ==>
          latestNexthop[k] == if k in todo then was[k] else AnnotateNexthop(was[k], FactsAt(facts, k))
        decreases |todo|
      {
        var k :| k in todo;
        todo := todo - {k};
        latestNexthop := latestNexthop[k := AnnotateNexthop(latestNexthop[k], FactsAt(facts, k))];
      }
    }

    method AnnotateRoutes(notes: map<NetKey, map<string, string>>)
      modifies this`latestRoutes
      ensures latestRoutes == Annotate(old(Latest()), map[], notes).routes
    {
      ghost var was := latestRoutes;
      var todo := latestRoutes.Keys;
      while todo != {}
        invariant todo <= was.Keys == latestRoutes.Keys
        invariant forall k :: k in latestRoutes ==>
          latestRoutes[k] == if k in todo then was[k] else AnnotateRoute(was[k], notes, k)
        decreases |todo|
      {
        var k :| k in todo;
        todo := todo - {k};
        latestRoutes := latestRoutes[k := AnnotateRoute(latestRoutes[k], notes, k)];
      }
    }

    /** installFilterRoute: the unresolved nexthops are dropped from the route first. */
    method DropUnresolved(ks: seq<NetKey>) returns (kept: seq<NetKey>)
      ensures kept == KeptNexthops(latestNexthop, ks)
    {
      kept := [];
      var i := 0;
      while i < |ks|
        invariant 0 <= i <= |ks|
        invariant kept + KeptNexthops(latestNexthop, ks[i..]) == KeptNexthops(latestNexthop, ks)
      {
        KeptStep(latestNexthop, ks, i, kept);
        if ks[i] in latestNexthop && latestNexthop[ks[i]].core.resolved {
          kept := kept + [ks[i]];
        }
        i := i + 1;
      }
    }

    /** installFilterRoute: it rewrites the route's nexthops and says whether to keep it. */
    method InstallFilterRoute(route: Route) returns (filtered: Route, keep: bool)
      ensures filtered == route.(nexthops := KeptNexthops(latestNexthop, route.nexthops))
      ensures keep <==> InstallRoute(latestNexthop, route)
    {
      var nh := DropUnresolved(route.nexthops);
      filtered := route.(nexthops := nh);
      keep := route.core.nlType in ROUTE_TYPES && nh != [] && !route.anyDst;
    }

    method FilterRoutes()
      modifies this`latestRoutes
      ensures latestRoutes == Filter(old(Latest())).routes
    {
      ghost var was := latestRoutes;
      var todo := latestRoutes.Keys;
      while todo != {}
        invariant todo <= was.Keys
        invariant forall k :: k in latestRoutes <==> k in was && (k in todo || InstallRoute(latestNexthop, was[k]))
        invariant forall k :: k in latestRoutes && k in todo ==> latestRoutes[k] == was[k]
        invariant forall k :: k in latestRoutes && k !in todo ==>
          latestRoutes[k] == was[k].(nexthops := KeptNexthops(latestNexthop, was[k].nexthops))
        decreases |todo|
      {
        var k :| k in todo;
        todo := todo - {k};
        var route, keep := InstallFilterRoute(latestRoutes[k]);
        if keep {
          latestRoutes := latestRoutes[k := route];
        } else {
          latestRoutes := latestRoutes - {k};
        }
      }
    }

    method FilterNexthops()
      modifies this`latestNexthop
      ensures latestNexthop == Filter(old(Latest())).nexthops
      ensures forall k :: k in latestNexthop <==>
        k in old(latestNexthop) &&
        var nh := old(latestNexthop)[k]; nh.core.nhType in {0, 2, 3, 4} && nh.core.resolved && nh.refs != []
    {
      ghost var was := latestNexthop;
      var todo := latestNexthop.Keys;
      while todo != {}
        invariant todo <= was.Keys
        invariant forall k :: k in latestNexthop <==> k in was && (k in todo || InstallNexthop(was[k]))
        invariant forall k :: k in latestNexthop ==> latestNexthop[k] == was[k]
        decreases |todo|
      {
        var k :| k in todo;
        todo := todo - {k};
        if !InstallNexthop(latestNexthop[k]) {
          latestNexthop := latestNexthop - {k};
        }
      }
      assert latestNexthop == Filter(old(Latest())).nexthops;
    }

    /** The new snapshot: read, annotated and filtered; `t` is what it was before the filters. */
    method BuildSnapshot(poll: Poll) returns (ok: bool, t: Net)
      requires Readable(poll) && latestRoutes == map[] && latestNexthop == map[]
      modifies this`latestRoutes, this`latestNexthop, this`nhIDCache, this`nhNextID
      ensures ok ==> PollOnce(old(nhIDCache), old(nhNextID), poll) == Some(t)
      ensures ok ==> Latest() == Filter(t) && (nhIDCache, nhNextID) == (t.ids, t.nextId)
    {
      t := Latest();
      ok := ReadLatest(poll.w, poll.inputs);
      if ok {
        ghost var built := Latest();
        AnnotateNexthops(poll.facts);
        AnnotateRoutes(poll.notes);
        t := Latest();
        assert t == Annotate(built, poll.facts, poll.notes);
        FilterRoutes();
        FilterNexthops();
      }
    }

    /** notifyDBChanges for routes and nexthops. */
    method NotifyDBChanges(newRoutes: Rows, newNexthops: Rows, bus: Watcher)
      requires TableOf(Routes, routes) && TableOf(Nexthops, nexthops)
      requires TableOf(Routes, newRoutes) && TableOf(Nexthops, newNexthops)
      modifies bus
      ensures Heard(bus.published, old(bus.published), newRoutes, routes, newNexthops, nexthops)
    {
      bus.NotifyChanges(Routes, newRoutes, routes);
      bus.NotifyChanges(Nexthops, newNexthops, nexthops);
    }

    /** The rows of the new snapshot. */
    method BuildRows(poll: Poll) returns (ok: bool, t: Net, newRoutes: Rows, newNexthops: Rows)
      requires Readable(poll) && IdsOk(nhIDCache, nhNextID) && latestRoutes == map[] && latestNexthop == map[]
      modifies this`latestRoutes, this`latestNexthop, this`nhIDCache, this`nhNextID
      ensures ok ==> PollOnce(old(nhIDCache), old(nhNextID), poll) == Some(t)
      ensures ok ==> (nhIDCache, nhNextID) == (t.ids, t.nextId)
      ensures ok ==> newRoutes == RouteRows(Filter(t)) && newNexthops == NexthopRows(t, Filter(t))
      ensures ok ==> TableOf(Routes, newRoutes) && TableOf(Nexthops, newNexthops)
    {
      newRoutes, newNexthops := map[], map[];
      ghost var ids, next := nhIDCache, nhNextID;
      ok, t := BuildSnapshot(poll);
      if ok {
        newRoutes, newNexthops := RouteRows(Latest()), NexthopRows(t, Latest());
        PollGivesTables(ids, next, poll);
      }
    }

    /** resyncWithKernel for routes and nexthops; false means the poll crashed while reading. */
    method ResyncWithKernel(poll: Poll, bus: Watcher) returns (ok: bool, t: Net)
      requires Readable(poll) && IdsOk(nhIDCache, nhNextID)
      requires latestRoutes == map[] && latestNexthop == map[]
      requires TableOf(Routes, routes) && TableOf(Nexthops, nexthops)
      modifies this, bus
      ensures ok ==> PollOnce(old(nhIDCache), old(nhNextID), poll) == Some(t)
      ensures ok ==> (nhIDCache, nhNextID) == (t.ids, t.nextId)
      ensures ok ==> latestRoutes == map[] && latestNexthop == map[]
      ensures ok ==> routes == RouteRows(Filter(t)) && nexthops == NexthopRows(t, Filter(t))
      ensures ok ==> TableOf(Routes, routes) && TableOf(Nexthops, nexthops)
      ensures ok ==> Heard(bus.published, old(bus.published), routes, old(routes), nexthops, old(nexthops))
    {
      var newRoutes, newNexthops;
      ok, t, newRoutes, newNexthops := BuildRows(poll);
      if ok {
        Install(newRoutes, newNexthops, bus);
      }
    }

    /** The end of resyncWithKernel: what has changed is published, and the new tables take the place of the old. */
    method Install(newRoutes: Rows, newNexthops: Rows, bus: Watcher)
      requires TableOf(Routes, routes) && TableOf(Nexthops, nexthops)
      requires TableOf(Routes, newRoutes) && TableOf(Nexthops, newNexthops)
      modifies this`routes, this`nexthops, this`latestRoutes, this`latestNexthop, bus
      ensures routes == newRoutes && nexthops == newNexthops
      ensures latestRoutes == map[] && latestNexthop == map[]
      ensures Heard(bus.published, old(bus.published), newRoutes, old(routes), newNexthops, old(nexthops))
    {
      NotifyDBChanges(newRoutes, newNexthops, bus);
      routes, nexthops := newRoutes, newNexthops;
      latestRoutes, latestNexthop := map[], map[];
    }
  }

  /** What one poll published about each key, routes before nexthops. */
  ghost predicate Heard(published: seq<Notice>, before: seq<Notice>, newRoutes: Rows, routes: Rows,
                        newNexthops: Rows, nexthops: Rows)
    requires TableOf(Routes, routes) && TableOf(Nexthops, nexthops)
    requires TableOf(Routes, newRoutes) && TableOf(Nexthops, newNexthops)
  {
    forall k ::
      About(published, k) ==
      About(before, k) + NoticesAt(Routes, newRoutes, routes, k) + NoticesAt(Nexthops, newNexthops, nexthops, k)
  }

  /** Whatever a poll reads, what it installs are tables the differ can compare. */
  lemma {:induction false} PollGivesTables(ids: map<NetKey, int>, nextId: int, poll: Poll)
    requires Readable(poll) && IdsOk(ids, nextId) && PollOnce(ids, nextId, poll).Some?
    ensures var t := PollOnce(ids, nextId, poll).value;
      TableOf(Routes, RouteRows(Filter(t))) && TableOf(Nexthops, NexthopRows(t, Filter(t)))
  {
    var start := Net(map[], map[], ids, nextId);
    AddRoutesKeeps(poll.w, start, poll.inputs);
    InstalledRowsAreTables(AddRoutes(poll.w, start, poll.inputs).value, poll.facts, poll.notes);
  }

  // ---------------------------------------------------------------------
  // A subscriber over a whole run of polls
  // ---------------------------------------------------------------------

  function RouteTables(nets: seq<Net>): seq<Rows> {
    seq(|nets|, i requires 0 <= i < |nets| => RouteRows(Filter(nets[i])))
  }

  function NexthopTables(nets: seq<Net>): seq<Rows> {
    seq(|nets|, i requires 0 <= i < |nets| => NexthopRows(nets[i], Filter(nets[i])))
  }

  lemma {:induction false} RunGivesTables(polls: seq<Poll>)
    requires forall i :: 0 <= i < |polls| ==> Readable(polls[i])
    requires RunPolls(polls).Some?
    ensures Tables(Routes, RouteTables(RunPolls(polls).value))
    ensures Tables(Nexthops, NexthopTables(RunPolls(polls).value))
  {
    if polls != [] {
      var front := polls[..|polls| - 1];
      RunGivesTables(front);
      PollsKeepIds(front);
      var nets := RunPolls(front).value;
      var (ids, next) := Cache(nets);
      PollGivesTables(ids, next, polls[|polls| - 1]);
      TablesAppend(nets, PollOnce(ids, next, polls[|polls| - 1]).value);
    }
  }

  lemma TablesAppend(nets: seq<Net>, t: Net)
    requires Tables(Routes, RouteTables(nets)) && Tables(Nexthops, NexthopTables(nets))
    requires TableOf(Routes, RouteRows(Filter(t))) && TableOf(Nexthops, NexthopRows(t, Filter(t)))
    ensures Tables(Routes, RouteTables(nets + [t])) && Tables(Nexthops, NexthopTables(nets + [t]))
  {
    assert RouteTables(nets + [t]) == RouteTables(nets) + [RouteRows(Filter(t))];
    assert NexthopTables(nets + [t]) == NexthopTables(nets) + [NexthopRows(t, Filter(t))];
  }

  /**
   Whatever the polls read, and in whatever order each walks its maps, a subscriber holds
   the installed routes and nexthops but for the suppressed ones.
   */
  lemma {:induction false} SubscribersTrackTheKernel(polls: seq<Poll>)
    requires forall i :: 0 <= i < |polls| ==> Readable(polls[i])
    requires RunPolls(polls).Some?
    ensures Tables(Routes, RouteTables(RunPolls(polls).value))
    ensures Tables(Nexthops, NexthopTables(RunPolls(polls).value))
    ensures forall notices, k :: Published(Routes, RouteTables(RunPolls(polls).value), notices) ==>
      TracksAt(Routes, RouteTables(RunPolls(polls).value), Subscriber(notices), k)
    ensures forall notices, k :: Published(Nexthops, NexthopTables(RunPolls(polls).value), notices) ==>
      TracksAt(Nexthops, NexthopTables(RunPolls(polls).value), Subscriber(notices), k)
  {
    RunGivesTables(polls);
    var routes, nexthops := RouteTables(RunPolls(polls).value), NexthopTables(RunPolls(polls).value);
    forall notices, k | Published(Routes, routes, notices) ensures TracksAt(Routes, routes, Subscriber(notices), k) {
      SubscriberTracks(Routes, routes, notices, k);
    }
    forall notices, k | Published(Nexthops, nexthops, notices)
      ensures TracksAt(Nexthops, nexthops, Subscriber(notices), k)
    {
      SubscriberTracks(Nexthops, nexthops, notices, k);
    }
  }

  lemma TunnelsStep(w: World, nh: Nexthop, hops: seq<Nexthop>, i: nat, depth: nat, sofar: seq<Nexthop>)
    requires nh.core.key.NexthopKey? && i < |hops|
    ensures sofar + Tunnels(w, nh, hops[i..], depth) ==
      (if !hops[i].core.key.NexthopKey? || Resolve(w, hops[i], depth) == [] then sofar
       else
         var key := NexthopKey(nh.core.vrf, hops[i].core.key.gw, hops[i].core.key.dev, nh.core.local, nh.core.weight);
         sofar + [Resolved(nh.(core := nh.core.(key := key, weight := hops[i].core.weight)))])
      + Tunnels(w, nh, hops[i + 1..], depth)
  {
    assert hops[i..][0] == hops[i] && hops[i..][1..] == hops[i + 1..];
  }

  lemma ResolvedIsReady(w: World, t: Net, nh: Nexthop, rk: NetKey, got: seq<NetKey>)
    requires nh.core.key.NexthopKey? && nh.core.resolved
    ensures AddNexthop(w, t, nh, rk, got) == AddResolved(w, t, nh, rk, got)
  {}

  lemma NexthopsStep(w: World, t: Net, nhs: seq<Nexthop>, i: nat, rk: NetKey, got: seq<NetKey>)
    requires i < |nhs| && AllKeyed(nhs)
    ensures AddNexthops(w, t, nhs[i..], rk, got) ==
      match AddNexthop(w, t, nhs[i], rk, got)
      case None => None
      case Some((t', got')) => AddNexthops(w, t', nhs[i + 1..], rk, got')
  {
    assert nhs[i..][0] == nhs[i] && nhs[i..][1..] == nhs[i + 1..];
  }

  lemma KeptStep(nexthops: map<NetKey, Nexthop>, ks: seq<NetKey>, i: nat, kept: seq<NetKey>)
    requires i < |ks|
    ensures kept + KeptNexthops(nexthops, ks[i..]) ==
      (if ks[i] in nexthops && nexthops[ks[i]].core.resolved then kept + [ks[i]] else kept)
      + KeptNexthops(nexthops, ks[i + 1..])
  {
    assert ks[i..][0] == ks[i] && ks[i..][1..] == ks[i + 1..];
  }

  lemma EachStep(w: World, t: Net, nhs: seq<Nexthop>, i: nat, rk: NetKey, got: seq<NetKey>)
    requires i < |nhs|
    ensures AddEach(w, t, nhs[i..], rk, got) ==
      match AddResolved(w, t, nhs[i], rk, got)
      case None => None
      case Some((t', got')) => AddEach(w, t', nhs[i + 1..], rk, got')
  {
    assert nhs[i..][0] == nhs[i] && nhs[i..][1..] == nhs[i + 1..];
  }
}
