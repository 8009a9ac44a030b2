/**
 What holds of the tables a poll builds and of those it installs: ids are stable and
 exclusive over all polls, the links between routes and nexthops agree, and the installed
 route table refers to installed nexthops only.
 */
module NetClosure {
  import opened Basics
  import opened Intents
  import opened NetRows
  import opened NetTables
  import opened Differ

  // ---------------------------------------------------------------------
  // Ids
  // ---------------------------------------------------------------------

  ghost predicate IdsOk(ids: map<NetKey, int>, next: int) {
    && next >= FIRST_ID
    && (forall k :: k in ids ==> FIRST_ID <= ids[k] < next)
    && (forall j, k :: j in ids && k in ids && ids[j] == ids[k] ==> j == k)
  }

  /** Nothing cached is ever changed. */
  ghost predicate Grows(ids: map<NetKey, int>, ids': map<NetKey, int>) {
    forall k :: k in ids ==> k in ids' && ids'[k] == ids[k]
  }

  lemma AssignKeeps(ids: map<NetKey, int>, nextId: int, k: NetKey)
    requires IdsOk(ids, nextId)
    ensures var (ids', nextId', id) := Assign(ids, nextId, k);
      IdsOk(ids', nextId') && Grows(ids, ids') && k in ids' && ids'[k] == id
  {}

  // ---------------------------------------------------------------------
  // Links
  // ---------------------------------------------------------------------

  /** The keys the route under `rk` refers to; `got` is what the route under construction has so far. */
  function RefsOf(t: Net, rk: NetKey, open: NetKey, got: seq<NetKey>): seq<NetKey> {
    if rk in t.routes then t.routes[rk].nexthops else if rk == open then got else []
  }

  ghost predicate NexthopOk(t: Net, k: NetKey, open: NetKey, got: seq<NetKey>)
    requires k in t.nexthops
  {
    var nh := t.nexthops[k];
    && nh.core.key == k && nh.core.resolved && k in t.ids && nh.core.id == t.ids[k] && nh.refs != []
    && forall rk :: rk in nh.refs <==> k in RefsOf(t, rk, open, got)
  }

  /** Every nexthop in the table is resolved, has its cached id, and lists exactly the routes that list it. */
  ghost predicate NetOk(t: Net, open: NetKey, got: seq<NetKey>) {
    && IdsOk(t.ids, t.nextId)
    && open !in t.routes
    && (forall rk :: rk in t.routes ==> t.routes[rk].core.key == rk)
    && (forall k :: k in t.nexthops ==> NexthopOk(t, k, open, got))
    && (forall rk, k :: k in RefsOf(t, rk, open, got) ==> k in t.nexthops)
  }

  /** A nexthop as it is parsed: it refers to no route yet. */
  predicate Parsed(nh: Nexthop) {
    nh.refs == [] && nh.core.key.NexthopKey?
  }

  predicate AllParsed(nhs: seq<Nexthop>) {
    forall i :: 0 <= i < |nhs| ==> Parsed(nhs[i])
  }

  lemma LinkKeeps(t: Net, k: NetKey, rk: NetKey, got: seq<NetKey>)
    requires NetOk(t, rk, got) && k in t.nexthops
    ensures NetOk(Linked(t, k, rk), rk, got + [k])
  {
    var t' := Linked(t, k, rk);
    forall j | j in t'.nexthops ensures NexthopOk(t', j, rk, got + [k]) {
      assert NexthopOk(t, j, rk, got);
    }
    forall r, j | j in RefsOf(t', r, rk, got + [k]) ensures j in t'.nexthops {
      assert j == k || j in RefsOf(t, r, rk, got);
    }
  }

  lemma InsertKeeps(t: Net, nh: Nexthop, rk: NetKey, got: seq<NetKey>)
    requires NetOk(t, rk, got) && Parsed(nh) && nh.core.key !in t.nexthops && nh.core.resolved
    ensures NetOk(Inserted(t, nh, rk), rk, got + [nh.core.key]) && Grows(t.ids, Inserted(t, nh, rk).ids)
  {
    var t' := Inserted(t, nh, rk);
    var me := nh.core.key;
    AssignKeeps(t.ids, t.nextId, me);
    forall r, k ensures k in RefsOf(t', r, rk, got + [me]) <==> k in RefsOf(t, r, rk, got) || (r == rk && k == me) {
      InsertedRefs(t, t', rk, got, me, r, k);
    }
    forall k | k in t'.nexthops ensures NexthopOk(t', k, rk, got + [me]) {
      if k == me {
        assert t'.nexthops[me].refs == [rk];
        assert forall r :: me !in RefsOf(t, r, rk, got);
      } else {
        assert NexthopOk(t, k, rk, got);
      }
    }
  }

  lemma InsertedRefs(t: Net, t': Net, rk: NetKey, got: seq<NetKey>, me: NetKey, r: NetKey, k: NetKey)
    requires t'.routes == t.routes && rk !in t.routes
    ensures k in RefsOf(t', r, rk, got + [me]) <==> k in RefsOf(t, r, rk, got) || (r == rk && k == me)
  {}

  lemma AddResolvedKeeps(w: World, t: Net, nh: Nexthop, rk: NetKey, got: seq<NetKey>)
    requires NetOk(t, rk, got) && Parsed(nh)
    requires nh.core.key in t.nexthops || nh.core.resolved
    requires AddResolved(w, t, nh, rk, got).Some?
    ensures var (t', got') := AddResolved(w, t, nh, rk, got).value;
      NetOk(t', rk, got') && Grows(t.ids, t'.ids) && t'.routes == t.routes
  {
    if nh.core.key in t.nexthops {
      LinkKeeps(t, nh.core.key, rk, got);
    } else {
      InsertKeeps(t, nh, rk, got);
    }
  }

  lemma {:induction false} AddEachKeeps(w: World, t: Net, nhs: seq<Nexthop>, rk: NetKey, got: seq<NetKey>)
    requires NetOk(t, rk, got) && AddEach(w, t, nhs, rk, got).Some?
    requires forall nh :: nh in nhs ==> Parsed(nh) && nh.core.resolved
    ensures var (t', got') := AddEach(w, t, nhs, rk, got).value;
      NetOk(t', rk, got') && Grows(t.ids, t'.ids) && t'.routes == t.routes
    decreases |nhs|
  {
    if nhs != [] {
      AddResolvedKeeps(w, t, nhs[0], rk, got);
      var (t', got') := AddResolved(w, t, nhs[0], rk, got).value;
      AddEachKeeps(w, t', nhs[1..], rk, got');
    }
  }

  lemma {:induction false} TunnelsParsed(w: World, nh: Nexthop, hops: seq<Nexthop>, depth: nat)
    requires Parsed(nh)
    ensures forall x :: x in Tunnels(w, nh, hops, depth) ==> Parsed(x)
    decreases |hops|
  {
    if hops != [] {
      TunnelsParsed(w, nh, hops[1..], depth);
    }
  }

  lemma AddNexthopKeeps(w: World, t: Net, nh: Nexthop, rk: NetKey, got: seq<NetKey>)
    requires NetOk(t, rk, got) && Parsed(nh) && AddNexthop(w, t, nh, rk, got).Some?
    ensures var (t', got') := AddNexthop(w, t, nh, rk, got).value;
      NetOk(t', rk, got') && Grows(t.ids, t'.ids) && t'.routes == t.routes
  {
    if nh.core.key in t.nexthops || nh.core.resolved {
      AddResolvedKeeps(w, t, nh, rk, got);
    } else {
      TryResolveResolves(w, nh);
      if w.depth > 0 {
        TunnelsParsed(w, nh, Underlay(w, nh), w.depth - 1);
      }
      AddEachKeeps(w, t, TryResolve(w, nh), rk, got);
    }
  }

  lemma {:induction false} AddNexthopsKeeps(w: World, t: Net, nhs: seq<Nexthop>, rk: NetKey, got: seq<NetKey>)
    requires NetOk(t, rk, got) && AllParsed(nhs)
    requires AddNexthops(w, t, nhs, rk, got).Some?
    ensures var (t', got') := AddNexthops(w, t, nhs, rk, got).value;
      NetOk(t', rk, got') && Grows(t.ids, t'.ids) && t'.routes == t.routes
    decreases |nhs|
  {
    if nhs != [] {
      AddNexthopKeeps(w, t, nhs[0], rk, got);
      var (t', got') := AddNexthop(w, t, nhs[0], rk, got).value;
      AddNexthopsKeeps(w, t', nhs[1..], rk, got');
    }
  }

  /** With no route under construction. */
  ghost predicate Whole(t: Net) {
    && IdsOk(t.ids, t.nextId)
    && (forall rk :: rk in t.routes ==> t.routes[rk].core.key == rk)
    && (forall k :: k in t.nexthops ==> WholeNexthop(t, k))
    && (forall rk, k :: rk in t.routes && k in t.routes[rk].nexthops ==> k in t.nexthops)
  }

  ghost predicate WholeNexthop(t: Net, k: NetKey)
    requires k in t.nexthops
  {
    var nh := t.nexthops[k];
    && nh.core.key == k && nh.core.resolved && k in t.ids && nh.core.id == t.ids[k] && nh.refs != []
    && forall rk :: rk in nh.refs <==> rk in t.routes && k in t.routes[rk].nexthops
  }

  lemma Opened(t: Net, rk: NetKey)
    requires Whole(t) && rk !in t.routes
    ensures NetOk(t, rk, [])
  {
    forall k | k in t.nexthops ensures NexthopOk(t, k, rk, []) {
      assert WholeNexthop(t, k);
    }
  }

  lemma Closed(t: Net, route: Route, got: seq<NetKey>)
    requires NetOk(t, route.core.key, got)
    ensures Whole(t.(routes := t.routes[route.core.key := route.(nexthops := got)]))
  {
    var rk := route.core.key;
    var t' := t.(routes := t.routes[rk := route.(nexthops := got)]);
    forall k | k in t'.nexthops ensures WholeNexthop(t', k) {
      assert NexthopOk(t, k, rk, got);
      forall r ensures r in t'.nexthops[k].refs <==> r in t'.routes && k in t'.routes[r].nexthops {
        assert r in t.nexthops[k].refs <==> k in RefsOf(t, r, rk, got);
      }
    }
    forall r, k | r in t'.routes && k in t'.routes[r].nexthops ensures k in t'.nexthops {
      assert k in RefsOf(t, r, rk, got);
    }
  }

  /** Adding a route keeps the links between routes and nexthops in agreement, and every id. */
  lemma AddRouteKeeps(w: World, t: Net, route: Route, nhs: seq<Nexthop>)
    requires Whole(t) && AllParsed(nhs)
    requires AddRoute(w, t, route, nhs).Some?
    ensures var t' := AddRoute(w, t, route, nhs).value;
      Whole(t') && Grows(t.ids, t'.ids)
  {
    if route.core.key !in t.routes {
      Opened(t, route.core.key);
      AddNexthopsKeeps(w, t, nhs, route.core.key, []);
      var (t', got) := AddNexthops(w, t, nhs, route.core.key, []).value;
      Closed(t', route, got);
    }
  }

  // ---------------------------------------------------------------------
  // Annotation and filters
  // ---------------------------------------------------------------------

  /** What annotate finds out about a nexthop: its neighbor's type, and whether the data it needs is there. */
  datatype Facts = Facts(neighbor: Option<int>, l2Known: bool, l2Resolved: bool, rmac: bool, link: bool,
                         metadata: map<string, string>)

  const NoFacts := Facts(None, false, false, false, false, map[])

  /** The type and the Resolved flag as annotate leaves them. */
  function Annotated(nhType: int, resolved: bool, f: Facts): (int, bool) {
    if nhType == VRFNEIGHBOR then
      match f.neighbor
      case None => (SVI, resolved)
      case Some(kind) =>
        if kind == SVI then (SVI, resolved)
        else if kind == VXLAN then (VXLAN, resolved && (!f.l2Known || f.l2Resolved))
        else (SVI, false)
    else if nhType == PHY then (PHY, resolved && (!f.link || f.neighbor.Some?))
    else if nhType == VXLAN then (VXLAN, resolved && f.rmac)
    else if nhType == ACC then (ACC, resolved)
    else (nhType, false)
  }

  predicate CheckNhType(nhType: int) {
    nhType == PHY || nhType == SVI || nhType == ACC || nhType == VXLAN
  }

  function AnnotateNexthop(nh: Nexthop, f: Facts): Nexthop {
    var (nhType, resolved) := Annotated(nh.core.nhType, nh.core.resolved, f);
    nh.(core := nh.core.(nhType := nhType, resolved := resolved, metadata := f.metadata))
  }

  function FactsAt(facts: map<NetKey, Facts>, k: NetKey): Facts {
    if k in facts then facts[k] else NoFacts
  }

  function AnnotateRoute(route: Route, notes: map<NetKey, map<string, string>>, rk: NetKey): Route {
    route.(core := route.core.(metadata := if rk in notes then notes[rk] else map[]))
  }

  /** annotateDBEntries: types and flags of nexthops, metadata of both. */
  function Annotate(t: Net, facts: map<NetKey, Facts>, notes: map<NetKey, map<string, string>>): Net {
    t.(nexthops := map k | k in t.nexthops :: AnnotateNexthop(t.nexthops[k], FactsAt(facts, k)),
       routes := map rk | rk in t.routes :: AnnotateRoute(t.routes[rk], notes, rk))
  }

  const ROUTE_TYPES := {"connected", "evpn-vxlan", "static", "bgp", "local", "neighbor"}

  /** installFilterRoute also drops the nexthops that are not resolved. */
  function KeptNexthops(nexthops: map<NetKey, Nexthop>, ks: seq<NetKey>): seq<NetKey> {
    if ks == [] then []
    else
      (if ks[0] in nexthops && nexthops[ks[0]].core.resolved then [ks[0]] else []) + KeptNexthops(nexthops, ks[1..])
  }

  predicate InstallRoute(nexthops: map<NetKey, Nexthop>, route: Route) {
    route.core.nlType in ROUTE_TYPES && KeptNexthops(nexthops, route.nexthops) != [] && !route.anyDst
  }

  predicate InstallNexthop(nh: Nexthop) {
    CheckNhType(nh.core.nhType) && nh.core.resolved && nh.refs != []
  }

  function Filter(t: Net): Net {
    t.(routes := map rk | rk in t.routes && InstallRoute(t.nexthops, t.routes[rk]) ::
         t.routes[rk].(nexthops := KeptNexthops(t.nexthops, t.routes[rk].nexthops)),
       nexthops := map k | k in t.nexthops && InstallNexthop(t.nexthops[k]) :: t.nexthops[k])
  }

  lemma {:induction false} KeptAre(nexthops: map<NetKey, Nexthop>, ks: seq<NetKey>)
    ensures forall k :: k in KeptNexthops(nexthops, ks) <==> k in ks && k in nexthops && nexthops[k].core.resolved
  {
    if ks != [] {
      KeptAre(nexthops, ks[1..]);
    }
  }

  /** A nexthop that is resolved after annotation has one of the types that are installed. */
  lemma ResolvedHasType(nhType: int, resolved: bool, f: Facts)
    ensures Annotated(nhType, resolved, f).1 ==> resolved && CheckNhType(Annotated(nhType, resolved, f).0)
  {}

  /** Every installed route has a nexthop, and all its nexthops are installed. */
  lemma {:induction false} InstalledTablesAreClosed(t: Net, facts: map<NetKey, Facts>,
                                                    notes: map<NetKey, map<string, string>>, rk: NetKey)
    requires Whole(t) && rk in Filter(Annotate(t, facts, notes)).routes
    ensures var installed := Filter(Annotate(t, facts, notes));
      && installed.routes[rk].nexthops != []
      && forall k :: k in installed.routes[rk].nexthops ==> k in installed.nexthops
  {
    var a := Annotate(t, facts, notes);
    var installed := Filter(a);
    KeptAre(a.nexthops, a.routes[rk].nexthops);
    forall k | k in installed.routes[rk].nexthops ensures k in installed.nexthops {
      assert WholeNexthop(t, k);
      ResolvedHasType(t.nexthops[k].core.nhType, t.nexthops[k].core.resolved, if k in facts then facts[k] else NoFacts);
    }
  }

  // ---------------------------------------------------------------------
  // The rows that go to the differ
  // ---------------------------------------------------------------------

  function CoresOf(nexthops: map<NetKey, Nexthop>, ks: seq<NetKey>): seq<NexthopCore> {
    if ks == [] then []
    else (if ks[0] in nexthops then [nexthops[ks[0]].core] else []) + CoresOf(nexthops, ks[1..])
  }

  function RefCores(routes: map<NetKey, Route>, rks: seq<NetKey>): seq<RouteCore> {
    if rks == [] then []
    else (if rks[0] in routes then [routes[rks[0]].core] else []) + RefCores(routes, rks[1..])
  }

  function RouteRows(t: Net): Rows {
    map rk | rk in t.routes ::
      RouteRow(t.routes[rk].core, t.routes[rk].vrfStatus, CoresOf(t.nexthops, t.routes[rk].nexthops))
  }

  /** A nexthop's references reach routes whether they were filtered out or not. */
  function NexthopRows(unfiltered: Net, t: Net): Rows {
    map k | k in t.nexthops ::
      NexthopRow(t.nexthops[k].core, t.nexthops[k].vrfStatus, RefCores(unfiltered.routes, t.nexthops[k].refs))
  }

  lemma {:induction false} CoresOfAll(nexthops: map<NetKey, Nexthop>, ks: seq<NetKey>)
    requires forall k :: k in ks ==> k in nexthops
    ensures |CoresOf(nexthops, ks)| == |ks|
    ensures forall i :: 0 <= i < |ks| ==> CoresOf(nexthops, ks)[i] == nexthops[ks[i]].core
  {
    if ks != [] {
      CoresOfAll(nexthops, ks[1..]);
    }
  }

  /** What is installed are tables the differ can compare: it never looks for a nexthop that is not there. */
  lemma {:induction false} InstalledRowsAreTables(t: Net, facts: map<NetKey, Facts>,
                                                  notes: map<NetKey, map<string, string>>)
    requires Whole(t)
    ensures var a := Annotate(t, facts, notes);
      TableOf(Routes, RouteRows(Filter(a))) && TableOf(Nexthops, NexthopRows(a, Filter(a)))
  {
    var a := Annotate(t, facts, notes);
    var installed := Filter(a);
    forall rk | rk in installed.routes
      ensures installed.routes[rk].core.key == rk && CoresOf(installed.nexthops, installed.routes[rk].nexthops) != []
    {
      InstalledTablesAreClosed(t, facts, notes, rk);
      CoresOfAll(installed.nexthops, installed.routes[rk].nexthops);
    }
    forall k | k in installed.nexthops ensures installed.nexthops[k].core.key == k {
      assert WholeNexthop(t, k);
    }
    RowsAreTables(a, installed);
  }

  lemma RowsAreTables(unfiltered: Net, t: Net)
    requires forall rk :: rk in t.routes ==>
      t.routes[rk].core.key == rk && CoresOf(t.nexthops, t.routes[rk].nexthops) != []
    requires forall k :: k in t.nexthops ==> t.nexthops[k].core.key == k
    ensures TableOf(Routes, RouteRows(t)) && TableOf(Nexthops, NexthopRows(unfiltered, t))
  {}

  // ---------------------------------------------------------------------
  // Polls
  // ---------------------------------------------------------------------

  datatype Read = Read(route: Route, nexthops: seq<Nexthop>)

  /** One poll's input: the routes in the order they are read, and what annotation finds. */
  datatype Poll = Poll(w: World, inputs: seq<Read>, facts: map<NetKey, Facts>, notes: map<NetKey, map<string, string>>)

  predicate Readable(poll: Poll) {
    forall i :: 0 <= i < |poll.inputs| ==>
      AllParsed(poll.inputs[i].nexthops)
  }

  function AddRoutes(w: World, t: Net, inputs: seq<Read>): Option<Net>
    requires forall i :: 0 <= i < |inputs| ==> AllParsed(inputs[i].nexthops)
  {
    if inputs == [] then Some(t)
    else
      match AddRoutes(w, t, inputs[..|inputs| - 1])
      case None => None
      case Some(t') =>
        var last := inputs[|inputs| - 1];
        assert AllParsed(last.nexthops);
        AddRoute(w, t', last.route, last.nexthops)
  }

  /** Tables are rebuilt from nothing at each poll; only the id cache is kept. */
  function PollOnce(ids: map<NetKey, int>, nextId: int, poll: Poll): Option<Net>
    requires Readable(poll)
  {
    match AddRoutes(poll.w, Net(map[], map[], ids, nextId), poll.inputs)
    case None => None
    case Some(t) => Some(Annotate(t, poll.facts, poll.notes))
  }

  lemma {:induction false} AddRoutesKeeps(w: World, t: Net, inputs: seq<Read>)
    requires Whole(t)
    requires forall i :: 0 <= i < |inputs| ==> AllParsed(inputs[i].nexthops)
    requires AddRoutes(w, t, inputs).Some?
    ensures Whole(AddRoutes(w, t, inputs).value) && Grows(t.ids, AddRoutes(w, t, inputs).value.ids)
  {
    if inputs != [] {
      var front, last := inputs[..|inputs| - 1], inputs[|inputs| - 1];
      AddRoutesKeeps(w, t, front);
      AddRouteKeeps(w, AddRoutes(w, t, front).value, last.route, last.nexthops);
    }
  }

  /** The id cache after the polls so far. */
  function Cache(nets: seq<Net>): (map<NetKey, int>, int) {
    if nets == [] then (map[], FIRST_ID) else (nets[|nets| - 1].ids, nets[|nets| - 1].nextId)
  }

  /** The tables after each poll; a poll that crashes leaves none. */
  function RunPolls(polls: seq<Poll>): Option<seq<Net>>
    requires forall i :: 0 <= i < |polls| ==> Readable(polls[i])
  {
    if polls == [] then Some([])
    else
      match RunPolls(polls[..|polls| - 1])
      case None => None
      case Some(nets) =>
        var (ids, next) := Cache(nets);
        match PollOnce(ids, next, polls[|polls| - 1])
        case None => None
        case Some(t) => Some(nets + [t])
  }

  /** Ids over all polls so far. */
  ghost predicate StableIds(nets: seq<Net>) {
    && (forall i :: 0 <= i < |nets| ==> IdsOk(nets[i].ids, nets[i].nextId))
    && (forall i, k :: 0 <= i < |nets| && k in nets[i].nexthops ==>
          k in nets[i].ids && nets[i].nexthops[k].core.id == nets[i].ids[k])
    && (forall i, j :: 0 <= i <= j < |nets| ==> Grows(nets[i].ids, nets[j].ids))
  }

  lemma PollKeepsIds(ids: map<NetKey, int>, nextId: int, poll: Poll)
    requires IdsOk(ids, nextId) && Readable(poll) && PollOnce(ids, nextId, poll).Some?
    ensures var t := PollOnce(ids, nextId, poll).value;
      && IdsOk(t.ids, t.nextId) && Grows(ids, t.ids)
      && forall k :: k in t.nexthops ==> k in t.ids && t.nexthops[k].core.id == t.ids[k]
  {
    var start := Net(map[], map[], ids, nextId);
    AddRoutesKeeps(poll.w, start, poll.inputs);
    var built := AddRoutes(poll.w, start, poll.inputs).value;
    forall k | k in built.nexthops ensures k in built.ids && built.nexthops[k].core.id == built.ids[k] {
      assert WholeNexthop(built, k);
    }
  }

  lemma {:induction false} PollsKeepIds(polls: seq<Poll>)
    requires forall i :: 0 <= i < |polls| ==> Readable(polls[i])
    requires RunPolls(polls).Some?
    ensures StableIds(RunPolls(polls).value)
  {
    if polls != [] {
      PollsKeepIds(polls[..|polls| - 1]);
      var nets := RunPolls(polls[..|polls| - 1]).value;
      var (ids, next) := Cache(nets);
      PollKeepsIds(ids, next, polls[|polls| - 1]);
      StableAppend(nets, PollOnce(ids, next, polls[|polls| - 1]).value);
    }
  }

  lemma StableAppend(nets: seq<Net>, t: Net)
    requires StableIds(nets) && IdsOk(t.ids, t.nextId) && Grows(Cache(nets).0, t.ids)
    requires forall k :: k in t.nexthops ==> k in t.ids && t.nexthops[k].core.id == t.ids[k]
    ensures StableIds(nets + [t])
  {
    forall i | 0 <= i < |nets| ensures Grows(nets[i].ids, t.ids) {
      assert Grows(nets[i].ids, nets[|nets| - 1].ids);
    }
  }

  /** Across polls equal keys have equal ids and different keys different ones, all of them at least 16. */
  lemma IdsAreStable(polls: seq<Poll>, i: nat, j: nat, k: NetKey, l: NetKey)
    requires forall i :: 0 <= i < |polls| ==> Readable(polls[i])
    requires RunPolls(polls).Some?
    requires var nets := RunPolls(polls).value;
      i <= j < |nets| && k in nets[i].nexthops && l in nets[j].nexthops
    ensures var nets := RunPolls(polls).value;
      && (nets[i].nexthops[k].core.id == nets[j].nexthops[l].core.id <==> k == l)
      && nets[i].nexthops[k].core.id >= 16
  {
    PollsKeepIds(polls);
  }
}
