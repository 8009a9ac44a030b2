/**
 Integrity of InfraDB: index agreement, VNI exclusivity and references that hold in
 both directions. For every operation: it keeps integrity, or exactly when it does.
 */
module StoreIntegrity {
  import opened Basics
  import opened Intents
  import opened Store

  const MAX_VNI := 16777215

  // ---------------------------------------------------------------------
  // The invariant, part by part
  // ---------------------------------------------------------------------

  /** Objects are stored under their own name and have one component per subscriber. */
  ghost predicate NamesOk(cfg: Config, db: DB) {
    && (forall n :: n in db.lbs ==> db.lbs[n].name == n && Follows(db.lbs[n].status, cfg.bridge))
    && (forall n :: n in db.bps ==> db.bps[n].name == n && Follows(db.bps[n].status, cfg.port))
    && (forall n :: n in db.vrfs ==> db.vrfs[n].name == n && Follows(db.vrfs[n].status, cfg.vrf))
    && (forall n :: n in db.svis ==> db.svis[n].name == n && Follows(db.svis[n].status, cfg.svi))
  }

  /** Each index map lists exactly the stored objects of its kind. */
  ghost predicate IndexOk(db: DB) {
    && Members(db.lbIndex) == db.lbs.Keys
    && Members(db.bpIndex) == db.bps.Keys
    && Members(db.vrfIndex) == db.vrfs.Keys
    && Members(db.sviIndex) == db.svis.Keys
  }

  ghost predicate Holds(lbs: map<string, LogicalBridge>, vrfs: map<string, Vrf>, k: Key, vni: int) {
    || (k.kind == BridgeKind && k.name in lbs && lbs[k.name].vni == Some(vni))
    || (k.kind == VrfKind && k.name in vrfs && vrfs[k.name].vni == Some(vni))
  }

  /** A nonzero 24-bit value, section 5 of RFC 7348. */
  predicate ValidVni(vni: int) {
    1 <= vni <= MAX_VNI
  }

  ghost predicate VniOk(lbs: map<string, LogicalBridge>, vrfs: map<string, Vrf>, vpns: Option<set<int>>) {
    && (forall k, vni :: Holds(lbs, vrfs, k, vni) ==> vni in Members(vpns) && ValidVni(vni))
    && (forall vni :: vni in Members(vpns) ==> exists k :: Holds(lbs, vrfs, k, vni))
    && (forall a, b, vni :: Holds(lbs, vrfs, a, vni) && Holds(lbs, vrfs, b, vni) ==> a == b)
  }

  /** The bridge lists the port by name and by MAC. */
  ghost predicate Lists(lb: LogicalBridge, port: string, mac: string) {
    port in lb.ports && mac in lb.macs && lb.macs[mac] == port
  }

  ghost predicate PortOk(lbs: map<string, LogicalBridge>, p: string, bp: BridgePort) {
    && NoDup(bp.bridges)
    && |bp.vlans| == |bp.bridges|
    && forall i :: 0 <= i < |bp.bridges| ==>
      && bp.bridges[i] in lbs
      && bp.vlans[i] == lbs[bp.bridges[i]].vlan
      && Lists(lbs[bp.bridges[i]], p, bp.mac)
  }

  ghost predicate BridgeOk(bps: map<string, BridgePort>, b: string, lb: LogicalBridge) {
    && (forall p :: p in lb.ports ==> p in bps && b in bps[p].bridges)
    && (forall mac :: mac in lb.macs ==>
         lb.macs[mac] in lb.ports && lb.macs[mac] in bps && bps[lb.macs[mac]].mac == mac)
  }

  /** Ports and bridges refer to each other; no reference is stray. */
  ghost predicate PortsOk(lbs: map<string, LogicalBridge>, bps: map<string, BridgePort>) {
    && (forall p :: p in bps ==> PortOk(lbs, p, bps[p]))
    && (forall b :: b in lbs ==> BridgeOk(bps, b, lbs[b]))
  }

  ghost predicate SvisOk(lbs: map<string, LogicalBridge>, vrfs: map<string, Vrf>, svis: map<string, Svi>) {
    && (forall v :: v in svis ==>
         && v != ""
         && svis[v].vrf in vrfs && v in vrfs[svis[v].vrf].svis
         && svis[v].bridge in lbs && lbs[svis[v].bridge].svi == v)
    && (forall r, v :: r in vrfs && v in vrfs[r].svis ==> v in svis && svis[v].vrf == r)
    && (forall b :: b in lbs && lbs[b].svi != "" ==> lbs[b].svi in svis && svis[lbs[b].svi].bridge == b)
  }

  predicate Unreferenced(lb: LogicalBridge) {
    lb.ports == {} && lb.macs == map[] && lb.svi == ""
  }

  /** What is about to be deleted is not referred to. */
  ghost predicate DoomedUnreferenced(lbs: map<string, LogicalBridge>, vrfs: map<string, Vrf>) {
    && (forall b :: b in lbs && lbs[b].status.oper == ToBeDeleted ==> Unreferenced(lbs[b]))
    && (forall r :: r in vrfs && vrfs[r].status.oper == ToBeDeleted ==> vrfs[r].svis == {})
  }

  ghost predicate Integrity(cfg: Config, db: DB) {
    && NamesOk(cfg, db)
    && IndexOk(db)
    && VniOk(db.lbs, db.vrfs, db.vpns)
    && PortsOk(db.lbs, db.bps)
    && SvisOk(db.lbs, db.vrfs, db.svis)
    && DoomedUnreferenced(db.lbs, db.vrfs)
  }

  // ---------------------------------------------------------------------
  // What integrity says
  // ---------------------------------------------------------------------

  /** A bridge's MAC table is a bijection onto the names of its ports. */
  lemma MacTableIsBijection(cfg: Config, db: DB, b: string)
    requires Integrity(cfg, db) && b in db.lbs
    ensures var lb := db.lbs[b];
      && (forall m, m' :: m in lb.macs && m' in lb.macs && lb.macs[m] == lb.macs[m'] ==> m == m')
      && (forall m :: m in lb.macs ==> lb.macs[m] in lb.ports)
      && (forall p :: p in lb.ports ==> p in db.bps && db.bps[p].mac in lb.macs && lb.macs[db.bps[p].mac] == p)
  {
    var lb := db.lbs[b];
    assert BridgeOk(db.bps, b, lb);
    forall p | p in lb.ports ensures db.bps[p].mac in lb.macs && lb.macs[db.bps[p].mac] == p {
      assert PortOk(db.lbs, p, db.bps[p]);
      var i :| 0 <= i < |db.bps[p].bridges| && db.bps[p].bridges[i] == b;
    }
  }

  /** No two SVIs share a bridge. */
  lemma SvisHaveOwnBridges(cfg: Config, db: DB, v: string, w: string)
    requires Integrity(cfg, db) && v in db.svis && w in db.svis && db.svis[v].bridge == db.svis[w].bridge
    ensures v == w
  {}

  /** No two objects share a VNI. */
  lemma VnisAreExclusive(cfg: Config, db: DB, a: Key, b: Key, vni: int)
    requires Integrity(cfg, db) && Holds(db.lbs, db.vrfs, a, vni) && Holds(db.lbs, db.vrfs, b, vni)
    ensures a == b && ValidVni(vni)
  {}

  lemma EmptyHasIntegrity(cfg: Config)
    ensures Integrity(cfg, EmptyDB)
  {}

  // ---------------------------------------------------------------------
  // Objects as the constructors build them
  // ---------------------------------------------------------------------

  ghost predicate BornLB(cfg: Config, lb: LogicalBridge) {
    Unreferenced(lb) && Follows(lb.status, cfg.bridge) && lb.status.oper == Down
  }

  ghost predicate BornVrf(cfg: Config, vrf: Vrf) {
    vrf.svis == {} && Follows(vrf.status, cfg.vrf) && vrf.status.oper == Down
  }

  /** A port that names no bridge is a transparent trunk (port.go:101-103). */
  ghost predicate BornBP(cfg: Config, bp: BridgePort) {
    bp.vlans == [] && bp.trunk == (bp.bridges == []) && Follows(bp.status, cfg.port) && bp.status.oper == Down
  }

  ghost predicate BornSvi(cfg: Config, svi: Svi) {
    Follows(svi.status, cfg.svi) && svi.status.oper == Down
  }

  // ---------------------------------------------------------------------
  // Creating bridges and VRFs
  // ---------------------------------------------------------------------

  /** Adding a holder of an unused, valid VNI. */
  lemma VniAdded(lbs: map<string, LogicalBridge>, vrfs: map<string, Vrf>, vpns: Option<set<int>>,
                 lbs': map<string, LogicalBridge>, vrfs': map<string, Vrf>, k: Key, vni: Option<int>)
    requires VniOk(lbs, vrfs, vpns)
    requires vni.Some? ==> vni.value !in Members(vpns) && ValidVni(vni.value)
    requires forall j, n :: Holds(lbs', vrfs', j, n) <==> if j == k then vni == Some(n) else Holds(lbs, vrfs, j, n)
    requires forall n :: !Holds(lbs, vrfs, k, n)
    ensures VniOk(lbs', vrfs', WithVni(vpns, vni))
  {
    forall n | n in Members(WithVni(vpns, vni)) ensures exists j :: Holds(lbs', vrfs', j, n) {
      if vni == Some(n) {
        assert Holds(lbs', vrfs', k, n);
      } else {
        var j :| Holds(lbs, vrfs, j, n);
        assert Holds(lbs', vrfs', j, n);
      }
    }
  }

  /** A stored bridge that can be overwritten without losing anything. */
  predicate Replaceable(lb: LogicalBridge) {
    Unreferenced(lb) && lb.vni == None
  }

  /**
   Creating a bridge. The code does not check the name (its callers do); it keeps
   integrity exactly when the VNI is valid and the name is free, or taken by a bridge
   without VNI and references.
   */
  lemma CreateLBKeepsIff(cfg: Config, db: DB, lb: LogicalBridge)
    requires Integrity(cfg, db) && BornLB(cfg, lb)
    ensures var (db', out) := CreateLB(cfg, db, lb);
      Integrity(cfg, db') <==>
        out.Failed? || ((lb.vni.Some? ==> ValidVni(lb.vni.value))
                        && (lb.name in db.lbs ==> Replaceable(db.lbs[lb.name])))
  {
    var (db', out) := CreateLB(cfg, db, lb);
    if out.Done? {
      assert Holds(db'.lbs, db'.vrfs, Key(BridgeKind, lb.name), 0) <==> lb.vni == Some(0);
      if lb.vni.Some? && !ValidVni(lb.vni.value) {
        assert Holds(db'.lbs, db'.vrfs, Key(BridgeKind, lb.name), lb.vni.value);
      } else if lb.name in db.lbs && !Replaceable(db.lbs[lb.name]) {
        OverwrittenLB(cfg, db, lb);
      } else {
        FreshLB(cfg, db, lb);
      }
    }
  }

  /** The VNI of an overwritten object stays reserved although nobody holds it. */
  lemma VniLeaked(lbs: map<string, LogicalBridge>, vrfs: map<string, Vrf>, vpns: Option<set<int>>,
                  lbs': map<string, LogicalBridge>, vrfs': map<string, Vrf>, vpns': Option<set<int>>, k: Key, vni: int)
    requires VniOk(lbs, vrfs, vpns) && Holds(lbs, vrfs, k, vni)
    requires forall j, n :: j != k && Holds(lbs', vrfs', j, n) ==> Holds(lbs, vrfs, j, n)
    requires !Holds(lbs', vrfs', k, vni) && vni in Members(vpns')
    ensures !VniOk(lbs', vrfs', vpns')
  {}

  lemma OverwrittenLB(cfg: Config, db: DB, lb: LogicalBridge)
    requires Integrity(cfg, db) && BornLB(cfg, lb) && CreateLB(cfg, db, lb).1.Done?
    requires lb.name in db.lbs && !Replaceable(db.lbs[lb.name])
    ensures !Integrity(cfg, CreateLB(cfg, db, lb).0)
  {
    var db' := CreateLB(cfg, db, lb).0;
    var was := db.lbs[lb.name];
    var me := Key(BridgeKind, lb.name);
    assert BridgeOk(db.bps, lb.name, was);
    if was.vni.Some? {
      assert Holds(db.lbs, db.vrfs, me, was.vni.value);
      VniLeaked(db.lbs, db.vrfs, db.vpns, db'.lbs, db'.vrfs, db'.vpns, me, was.vni.value);
    } else if was.svi != "" {
      assert db'.svis[was.svi].bridge == lb.name;
    } else if was.ports != {} {
      var p :| p in was.ports;
      LostPort(cfg, db, db', lb.name, p);
    }
  }

  lemma LostPort(cfg: Config, db: DB, db': DB, b: string, p: string)
    requires Integrity(cfg, db) && b in db.lbs && p in db.lbs[b].ports
    requires db'.bps == db.bps && b in db'.lbs && p !in db'.lbs[b].ports
    ensures !PortsOk(db'.lbs, db'.bps)
  {
    assert BridgeOk(db.bps, b, db.lbs[b]);
    var i :| 0 <= i < |db.bps[p].bridges| && db.bps[p].bridges[i] == b;
    assert PortOk(db'.lbs, p, db'.bps[p]) ==> Lists(db'.lbs[b], p, db.bps[p].mac);
  }

  lemma FreshLB(cfg: Config, db: DB, lb: LogicalBridge)
    requires Integrity(cfg, db) && BornLB(cfg, lb) && CreateLB(cfg, db, lb).1.Done?
    requires lb.vni.Some? ==> ValidVni(lb.vni.value)
    requires lb.name in db.lbs ==> Replaceable(db.lbs[lb.name])
    ensures Integrity(cfg, CreateLB(cfg, db, lb).0)
  {
    var db' := CreateLB(cfg, db, lb).0;
    VniAdded(db.lbs, db.vrfs, db.vpns, db'.lbs, db'.vrfs, Key(BridgeKind, lb.name), lb.vni);
    FreshLBPorts(db.lbs, db.bps, lb);
    FreshLBSvis(db.lbs, db.vrfs, db.svis, lb);
  }

  lemma FreshLBPorts(lbs: map<string, LogicalBridge>, bps: map<string, BridgePort>, lb: LogicalBridge)
    requires PortsOk(lbs, bps) && Unreferenced(lb)
    requires lb.name in lbs ==> Unreferenced(lbs[lb.name])
    ensures PortsOk(lbs[lb.name := lb], bps)
  {
    forall p | p in bps ensures PortOk(lbs[lb.name := lb], p, bps[p]) {
      assert PortOk(lbs, p, bps[p]);
      forall i | 0 <= i < |bps[p].bridges| ensures bps[p].bridges[i] != lb.name {
        assert Lists(lbs[bps[p].bridges[i]], p, bps[p].mac);
      }
    }
  }

  lemma FreshLBSvis(lbs: map<string, LogicalBridge>, vrfs: map<string, Vrf>, svis: map<string, Svi>, lb: LogicalBridge)
    requires SvisOk(lbs, vrfs, svis) && Unreferenced(lb)
    requires lb.name in lbs ==> Unreferenced(lbs[lb.name])
    ensures SvisOk(lbs[lb.name := lb], vrfs, svis)
  {}

  lemma FreshVrfSvis(lbs: map<string, LogicalBridge>, vrfs: map<string, Vrf>, svis: map<string, Svi>, vrf: Vrf)
    requires SvisOk(lbs, vrfs, svis) && vrf.svis == {}
    requires vrf.name in vrfs ==> vrfs[vrf.name].svis == {}
    ensures SvisOk(lbs, vrfs[vrf.name := vrf], svis)
  {}

  /** Creating a VRF: the same, with SVIs as the only references. */
  lemma CreateVrfKeepsIff(cfg: Config, db: DB, vrf: Vrf)
    requires Integrity(cfg, db) && BornVrf(cfg, vrf)
    ensures var (db', out) := CreateVrf(cfg, db, vrf);
      Integrity(cfg, db') <==>
        out.Failed? || ((vrf.vni.Some? ==> ValidVni(vrf.vni.value))
                        && (vrf.name in db.vrfs ==> db.vrfs[vrf.name].svis == {} && db.vrfs[vrf.name].vni == None))
  {
    var (db', out) := CreateVrf(cfg, db, vrf);
    if out.Done? {
      if vrf.vni.Some? && !ValidVni(vrf.vni.value) {
        assert Holds(db'.lbs, db'.vrfs, Key(VrfKind, vrf.name), vrf.vni.value);
      } else if vrf.name in db.vrfs && (db.vrfs[vrf.name].svis != {} || db.vrfs[vrf.name].vni != None) {
        OverwrittenVrf(cfg, db, vrf);
      } else {
        FreshVrf(cfg, db, vrf);
      }
    }
  }

  lemma OverwrittenVrf(cfg: Config, db: DB, vrf: Vrf)
    requires Integrity(cfg, db) && BornVrf(cfg, vrf) && CreateVrf(cfg, db, vrf).1.Done?
    requires vrf.name in db.vrfs && (db.vrfs[vrf.name].svis != {} || db.vrfs[vrf.name].vni != None)
    ensures !Integrity(cfg, CreateVrf(cfg, db, vrf).0)
  {
    var db' := CreateVrf(cfg, db, vrf).0;
    var was := db.vrfs[vrf.name];
    if was.vni.Some? {
      assert Holds(db.lbs, db.vrfs, Key(VrfKind, vrf.name), was.vni.value);
      VniLeaked(db.lbs, db.vrfs, db.vpns, db'.lbs, db'.vrfs, db'.vpns, Key(VrfKind, vrf.name), was.vni.value);
    } else {
      var v :| v in was.svis;
      assert db'.svis[v].vrf == vrf.name;
    }
  }

  lemma FreshVrf(cfg: Config, db: DB, vrf: Vrf)
    requires Integrity(cfg, db) && BornVrf(cfg, vrf) && CreateVrf(cfg, db, vrf).1.Done?
    requires vrf.vni.Some? ==> ValidVni(vrf.vni.value)
    requires vrf.name in db.vrfs ==> db.vrfs[vrf.name].svis == {} && db.vrfs[vrf.name].vni == None
    ensures Integrity(cfg, CreateVrf(cfg, db, vrf).0)
  {
    var db' := CreateVrf(cfg, db, vrf).0;
    VniAdded(db.lbs, db.vrfs, db.vpns, db'.lbs, db'.vrfs, Key(VrfKind, vrf.name), vrf.vni);
    FreshVrfSvis(db.lbs, db.vrfs, db.svis, vrf);
  }

  // ---------------------------------------------------------------------
  // Deletion requests and status writes: only the status of one object changes
  // ---------------------------------------------------------------------

  lemma MarkStatusFollows(status: Intent, subs: seq<string>, version: int)
    requires Follows(status, subs)
    ensures Follows(MarkStatus(status, subs, version), subs) && MarkStatus(status, subs, version).oper == ToBeDeleted
  {
    assert |Names(status.comps)| == |status.comps|;
    assert Names(MarkStatus(status, subs, version).comps) == subs;
  }

  lemma ReportFollows(status: Intent, subs: seq<string>, comp: Component)
    requires Follows(status, subs) && AfterReport(status, comp).Some?
    ensures Follows(AfterReport(status, comp).value, subs)
    ensures AfterReport(status, comp).value.oper == ToBeDeleted <==> status.oper == ToBeDeleted
  {
    SetComponentAt(status.comps, comp);
  }

  /** The bridges differ in their statuses only. */
  ghost predicate SameButStatus(lbs: map<string, LogicalBridge>, lbs': map<string, LogicalBridge>) {
    lbs'.Keys == lbs.Keys && forall b :: b in lbs ==> lbs'[b] == lbs[b].(status := lbs'[b].status)
  }

  lemma PortsIgnoreStatus(lbs: map<string, LogicalBridge>, lbs': map<string, LogicalBridge>,
                          bps: map<string, BridgePort>)
    requires PortsOk(lbs, bps) && SameButStatus(lbs, lbs')
    ensures PortsOk(lbs', bps)
  {
    forall p | p in bps ensures PortOk(lbs', p, bps[p]) {
      assert PortOk(lbs, p, bps[p]);
    }
    forall b | b in lbs' ensures BridgeOk(bps, b, lbs'[b]) {
      assert BridgeOk(bps, b, lbs[b]);
    }
  }

  lemma SvisIgnoreRest(lbs: map<string, LogicalBridge>, lbs': map<string, LogicalBridge>,
                       vrfs: map<string, Vrf>, svis: map<string, Svi>)
    requires SvisOk(lbs, vrfs, svis)
    requires lbs'.Keys == lbs.Keys && forall b :: b in lbs ==> lbs'[b].svi == lbs[b].svi
    ensures SvisOk(lbs', vrfs, svis)
  {}

  lemma SameHolders(lbs: map<string, LogicalBridge>, vrfs: map<string, Vrf>,
                    lbs': map<string, LogicalBridge>, vrfs': map<string, Vrf>, vpns: Option<set<int>>)
    requires VniOk(lbs, vrfs, vpns)
    requires forall k, n :: Holds(lbs', vrfs', k, n) <==> Holds(lbs, vrfs, k, n)
    ensures VniOk(lbs', vrfs', vpns)
  {
    forall n | n in Members(vpns) ensures exists k :: Holds(lbs', vrfs', k, n) {
      var k :| Holds(lbs, vrfs, k, n);
      assert Holds(lbs', vrfs', k, n);
    }
  }

  lemma LBStatusKeeps(cfg: Config, db: DB, b: string, status: Intent)
    requires Integrity(cfg, db) && b in db.lbs && Follows(status, cfg.bridge)
    requires status.oper == ToBeDeleted ==> Unreferenced(db.lbs[b])
    ensures Integrity(cfg, db.(lbs := db.lbs[b := db.lbs[b].(status := status)]))
  {
    var lbs' := db.lbs[b := db.lbs[b].(status := status)];
    SameHolders(db.lbs, db.vrfs, lbs', db.vrfs, db.vpns);
    PortsIgnoreStatus(db.lbs, lbs', db.bps);
    SvisIgnoreRest(db.lbs, lbs', db.vrfs, db.svis);
    LBStatusNames(cfg, db, b, status);
  }

  lemma LBStatusNames(cfg: Config, db: DB, b: string, status: Intent)
    requires NamesOk(cfg, db) && IndexOk(db) && DoomedUnreferenced(db.lbs, db.vrfs)
    requires b in db.lbs && Follows(status, cfg.bridge)
    requires status.oper == ToBeDeleted ==> Unreferenced(db.lbs[b])
    ensures var db' := db.(lbs := db.lbs[b := db.lbs[b].(status := status)]);
      NamesOk(cfg, db') && IndexOk(db') && DoomedUnreferenced(db'.lbs, db'.vrfs)
  {}

  lemma SvisIgnoreVrfStatus(lbs: map<string, LogicalBridge>, vrfs: map<string, Vrf>, svis: map<string, Svi>,
                            r: string, status: Intent)
    requires SvisOk(lbs, vrfs, svis) && r in vrfs
    ensures SvisOk(lbs, vrfs[r := vrfs[r].(status := status)], svis)
  {}

  lemma VrfStatusKeeps(cfg: Config, db: DB, r: string, status: Intent)
    requires Integrity(cfg, db) && r in db.vrfs && Follows(status, cfg.vrf)
    requires status.oper == ToBeDeleted ==> db.vrfs[r].svis == {}
    ensures Integrity(cfg, db.(vrfs := db.vrfs[r := db.vrfs[r].(status := status)]))
  {
    var vrfs' := db.vrfs[r := db.vrfs[r].(status := status)];
    VrfStatusOnly(cfg, db, r, status);
    SameHolders(db.lbs, db.vrfs, db.lbs, vrfs', db.vpns);
    SvisIgnoreVrfStatus(db.lbs, db.vrfs, db.svis, r, status);
  }

  /** Names, index and doomed references do not depend on the rest of the status. */
  lemma VrfStatusOnly(cfg: Config, db: DB, r: string, status: Intent)
    requires NamesOk(cfg, db) && IndexOk(db) && DoomedUnreferenced(db.lbs, db.vrfs)
    requires r in db.vrfs && Follows(status, cfg.vrf) && (status.oper == ToBeDeleted ==> db.vrfs[r].svis == {})
    ensures var db' := db.(vrfs := db.vrfs[r := db.vrfs[r].(status := status)]);
      NamesOk(cfg, db') && IndexOk(db') && DoomedUnreferenced(db'.lbs, db'.vrfs)
  {}

  lemma BPStatusKeeps(cfg: Config, db: DB, p: string, status: Intent)
    requires Integrity(cfg, db) && p in db.bps && Follows(status, cfg.port)
    ensures Integrity(cfg, db.(bps := db.bps[p := db.bps[p].(status := status)]))
  {
    PortsIgnorePortStatus(db.lbs, db.bps, p, status);
  }

  lemma PortsIgnorePortStatus(lbs: map<string, LogicalBridge>, bps: map<string, BridgePort>, p: string, status: Intent)
    requires PortsOk(lbs, bps) && p in bps
    ensures PortsOk(lbs, bps[p := bps[p].(status := status)])
  {
    var bps' := bps[p := bps[p].(status := status)];
    forall q | q in bps' ensures PortOk(lbs, q, bps'[q]) {
      assert PortOk(lbs, q, bps[q]);
    }
    forall b | b in lbs ensures BridgeOk(bps', b, lbs[b]) {
      assert BridgeOk(bps, b, lbs[b]);
    }
  }

  lemma SviStatusKeeps(cfg: Config, db: DB, v: string, status: Intent)
    requires Integrity(cfg, db) && v in db.svis && Follows(status, cfg.svi)
    ensures Integrity(cfg, db.(svis := db.svis[v := db.svis[v].(status := status)]))
  {
    SvisIgnoreSviStatus(db.lbs, db.vrfs, db.svis, v, status);
    SviStatusNames(cfg, db, v, status);
  }

  lemma SviStatusNames(cfg: Config, db: DB, v: string, status: Intent)
    requires NamesOk(cfg, db) && IndexOk(db) && v in db.svis && Follows(status, cfg.svi)
    ensures var db' := db.(svis := db.svis[v := db.svis[v].(status := status)]);
      NamesOk(cfg, db') && IndexOk(db')
  {}

  lemma SvisIgnoreSviStatus(lbs: map<string, LogicalBridge>, vrfs: map<string, Vrf>, svis: map<string, Svi>,
                            v: string, status: Intent)
    requires SvisOk(lbs, vrfs, svis) && v in svis
    ensures SvisOk(lbs, vrfs, svis[v := svis[v].(status := status)])
  {}

  /** Deleting a bridge or a VRF, or refusing to, keeps integrity. */
  lemma DeleteLBKeeps(cfg: Config, db: DB, name: string, version: int)
    requires Integrity(cfg, db)
    ensures Integrity(cfg, DeleteLB(cfg, db, name, version).0)
  {
    if DeleteLB(cfg, db, name, version).1.Done? {
      MarkStatusFollows(db.lbs[name].status, cfg.bridge, version);
      LBStatusKeeps(cfg, db, name, MarkStatus(db.lbs[name].status, cfg.bridge, version));
    }
  }

  lemma DeleteVrfKeeps(cfg: Config, db: DB, name: string, version: int)
    requires Integrity(cfg, db)
    ensures Integrity(cfg, DeleteVrf(cfg, db, name, version).0)
  {
    if DeleteVrf(cfg, db, name, version).1.Done? {
      MarkStatusFollows(db.vrfs[name].status, cfg.vrf, version);
      VrfStatusKeeps(cfg, db, name, MarkStatus(db.vrfs[name].status, cfg.vrf, version));
    }
  }

  lemma DeleteBPKeeps(cfg: Config, db: DB, name: string, version: int)
    requires Integrity(cfg, db)
    ensures Integrity(cfg, DeleteBP(cfg, db, name, version).0)
  {
    if DeleteBP(cfg, db, name, version).1.Done? {
      MarkStatusFollows(db.bps[name].status, cfg.port, version);
      BPStatusKeeps(cfg, db, name, MarkStatus(db.bps[name].status, cfg.port, version));
    }
  }

  lemma {:induction false} DeleteSviKeeps(cfg: Config, db: DB, name: string, version: int)
    requires Integrity(cfg, db)
    ensures Integrity(cfg, DeleteSvi(cfg, db, name, version).0)
  {
    if DeleteSvi(cfg, db, name, version).1.Done? {
      MarkStatusFollows(db.svis[name].status, cfg.svi, version);
      SviStatusKeeps(cfg, db, name, MarkStatus(db.svis[name].status, cfg.svi, version));
    }
  }
}
