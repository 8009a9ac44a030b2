/**
 Rows of the netlink tables and the comparisons the differ makes between an old and a new
 row (pkg/netlink: route.go, nexthop.go, fdb.go, l2nexthop.go). Pointers to other rows are
 flattened to the fields those comparisons read.
 */
module NetRows {
  import opened Basics
  import opened Intents

  datatype Table = Routes | Nexthops | Fdb | L2Nexthops

  datatype NetKey =
    | RouteKey(table: int, dst: string)
    | NexthopKey(vrf: string, gw: string, dev: int, local: bool, weight: int)
    | FdbKey(vlan: int, mac: string)
    | L2Key(l2dev: string, l2vlan: int, l2dst: seq<int>)

  /** What a route shows to a nexthop that refers to it. */
  datatype RouteCore = RouteCore(vrf: string, route0: string, key: NetKey, nlType: string,
                                 metadata: map<string, string>)

  /** What a nexthop shows to a route that refers to it. */
  datatype NexthopCore = NexthopCore(
    vrf: string, weight: int, id: int, key: NetKey, local: bool, metadata: map<string, string>, metric: int,
    scope: int, resolved: bool, protocol: int, nhType: int, info: string)

  datatype FdbCore = FdbCore(vlan: int, mac: string, key: NetKey, fdbType: int)

  /** `dst` is a net.IP: a sequence of bytes. */
  datatype L2Core = L2Core(dev: string, dst: seq<int>, id: int, key: NetKey, l2Type: int)

  datatype Row =
    | RouteRow(route: RouteCore, vrfStatus: Oper, nexthops: seq<NexthopCore>)
    | NexthopRow(nexthop: NexthopCore, vrfStatus: Oper, routeRefs: seq<RouteCore>)
    | FdbRow(entry: FdbCore, l2: L2Core)
    | L2Row(l2nexthop: L2Core, fdbRefs: seq<FdbCore>)

  function KeyOf(row: Row): NetKey {
    match row
    case RouteRow(route, _, _) => route.key
    case NexthopRow(nexthop, _, _) => nexthop.key
    case FdbRow(entry, _) => entry.key
    case L2Row(l2nexthop, _) => l2nexthop.key
  }

  predicate RowOf(row: Row, table: Table) {
    match table
    case Routes => row.RouteRow?
    case Nexthops => row.NexthopRow?
    case Fdb => row.FdbRow?
    case L2Nexthops => row.L2Row?
  }

  // ---------------------------------------------------------------------
  // net.IP.Equal
  // ---------------------------------------------------------------------

  const V4_IN_V6 := [0, 0, 0, 0, 0, 0, 0, 0, 0, 0, 255, 255]

  /** An IPv4 address and its 16-byte form count as the same. */
  predicate IPEqual(a: seq<int>, b: seq<int>) {
    if |a| == |b| then a == b
    else if |a| == 4 && |b| == 16 then b[..12] == V4_IN_V6 && a == b[12..]
    else if |a| == 16 && |b| == 4 then a[..12] == V4_IN_V6 && a[12..] == b
    else false
  }

  function Canonical(ip: seq<int>): seq<int> {
    if |ip| == 16 && ip[..12] == V4_IN_V6 then ip[12..] else ip
  }

  lemma IPEqualMeans(a: seq<int>, b: seq<int>)
    ensures IPEqual(a, b) <==> Canonical(a) == Canonical(b)
  {
    if |a| == 16 && |b| == 16 {
      assert a == a[..12] + a[12..] && b == b[..12] + b[12..];
    }
  }

  // ---------------------------------------------------------------------
  // deepEqual
  // ---------------------------------------------------------------------

  predicate L2CoreEqual(a: L2Core, b: L2Core) {
    a.dev == b.dev && IPEqual(a.dst, b.dst) && a.id == b.id && a.key == b.key && a.l2Type == b.l2Type
  }

  /** deepCheck: rows of different tables pass as equal; of a route's nexthops only the first is compared. */
  predicate DeepCheck(a: Row, b: Row)
    requires a.RouteRow? && b.RouteRow? && |a.nexthops| == |b.nexthops| ==> a.nexthops != []
  {
    match (a, b)
    case (RouteRow(_, _, _), RouteRow(_, _, _)) =>
      a.route == b.route && |a.nexthops| == |b.nexthops| && a.nexthops[0] == b.nexthops[0]
    case (NexthopRow(_, _, _), NexthopRow(_, _, _)) =>
      a.nexthop == b.nexthop && |a.routeRefs| == |b.routeRefs|
      && forall i :: 0 <= i < |a.routeRefs| ==> a.routeRefs[i] == b.routeRefs[i]
    case (FdbRow(_, _), FdbRow(_, _)) =>
      a.entry == b.entry && L2CoreEqual(a.l2, b.l2)
    case (L2Row(_, _), L2Row(_, _)) =>
      L2CoreEqual(a.l2nexthop, b.l2nexthop) && |a.fdbRefs| == |b.fdbRefs|
      && forall i :: 0 <= i < |a.fdbRefs| ==> a.fdbRefs[i] == b.fdbRefs[i]
    case _ => true
  }

  /** A row as the comparison sees it. */
  datatype Look =
    | RouteLook(route: RouteCore, count: nat, first: NexthopCore)
    | NexthopLook(nexthop: NexthopCore, routeRefs: seq<RouteCore>)
    | FdbLook(entry: FdbCore, l2: L2Core)
    | L2Look(l2nexthop: L2Core, fdbRefs: seq<FdbCore>)

  /** Routes in an installed table have a nexthop. */
  predicate Installable(row: Row) {
    row.RouteRow? ==> row.nexthops != []
  }

  function LookOf(row: Row): Look
    requires Installable(row)
  {
    match row
    case RouteRow(route, _, nexthops) => RouteLook(route, |nexthops|, nexthops[0])
    case NexthopRow(nexthop, _, refs) => NexthopLook(nexthop, refs)
    case FdbRow(entry, l2) => FdbLook(entry, l2.(dst := Canonical(l2.dst)))
    case L2Row(l2, refs) => L2Look(l2.(dst := Canonical(l2.dst)), refs)
  }

  /** Within one table deepEqual compares looks: so it is an equivalence. */
  lemma DeepCheckComparesLooks(table: Table, a: Row, b: Row)
    requires RowOf(a, table) && RowOf(b, table) && Installable(a) && Installable(b)
    ensures DeepCheck(a, b) <==> LookOf(a) == LookOf(b)
  {
    match table
    case Fdb => IPEqualMeans(a.l2.dst, b.l2.dst);
    case L2Nexthops =>
      IPEqualMeans(a.l2nexthop.dst, b.l2nexthop.dst);
      if DeepCheck(a, b) {
        assert a.fdbRefs == b.fdbRefs;
      }
    case Nexthops =>
      if DeepCheck(a, b) {
        assert a.routeRefs == b.routeRefs;
      }
    case Routes =>
  }

  lemma DeepCheckIsEquivalence(table: Table, a: Row, b: Row, c: Row)
    requires RowOf(a, table) && RowOf(b, table) && RowOf(c, table)
    requires Installable(a) && Installable(b) && Installable(c)
    ensures DeepCheck(a, a)
    ensures DeepCheck(a, b) <==> DeepCheck(b, a)
    ensures DeepCheck(a, b) && DeepCheck(b, c) ==> DeepCheck(a, c)
  {
    DeepCheckComparesLooks(table, a, a);
    DeepCheckComparesLooks(table, a, b);
    DeepCheckComparesLooks(table, b, a);
    DeepCheckComparesLooks(table, b, c);
    DeepCheckComparesLooks(table, a, c);
  }
}
