/**
 InfraDB as a value: the objects of the four kinds, the index maps, the shared set of
 VNIs, and what every operation does to them (pkg/infradb/infradb.go, and the reference
 methods of bridge.go and vrf.go). `None` for an index map means it was never stored.
 The map from subscribers to components is `Intents.Config`.
 */
module Store {
  import opened Basics
  import opened Intents

  datatype LogicalBridge = LogicalBridge(
    name: string, vlan: int, vni: Option<int>,
    svi: string, ports: set<string>, macs: map<string, string>, status: Intent)

  datatype BridgePort = BridgePort(
    name: string, mac: string, bridges: seq<string>, trunk: bool, vlans: seq<int>, status: Intent)

  datatype Vrf = Vrf(name: string, vni: Option<int>, svis: set<string>, status: Intent)

  datatype Svi = Svi(name: string, vrf: string, bridge: string, status: Intent)

  datatype DB = DB(
    lbs: map<string, LogicalBridge>, bps: map<string, BridgePort>,
    vrfs: map<string, Vrf>, svis: map<string, Svi>,
    lbIndex: Option<set<string>>, bpIndex: Option<set<string>>,
    vrfIndex: Option<set<string>>, sviIndex: Option<set<string>>,
    vpns: Option<set<int>>)

  const EmptyDB := DB(map[], map[], map[], map[], None, None, None, None, None)

  datatype Failure =
    | NoSubscribers | KeyNotFound | VrfNotFound | BridgeNotFound
    | VrfNotEmpty | BridgeNotEmpty | VniInUse | AlreadyAssociated | NotAssociated

  datatype Outcome = Done | Failed(failure: Failure)

  function Members<T>(o: Option<set<T>>): set<T> {
    if o.Some? then o.value else {}
  }

  // ---------------------------------------------------------------------
  // References (bridge.go:156-208, vrf.go:217-236)
  // ---------------------------------------------------------------------

  function AddSviToBridge(lb: LogicalBridge, svi: string): Option<LogicalBridge> {
    if lb.svi != "" then None else Some(lb.(svi := svi))
  }

  function DropSviFromBridge(lb: LogicalBridge, svi: string): Option<LogicalBridge> {
    if lb.svi != svi then None else Some(lb.(svi := ""))
  }

  function AddPort(lb: LogicalBridge, port: string, mac: string): Option<LogicalBridge> {
    if port in lb.ports || mac in lb.macs then None
    else Some(lb.(ports := lb.ports + {port}, macs := lb.macs[mac := port]))
  }

  function DropPort(lb: LogicalBridge, port: string, mac: string): Option<LogicalBridge> {
    if port !in lb.ports || mac !in lb.macs then None
    else Some(lb.(ports := lb.ports - {port}, macs := lb.macs - {mac}))
  }

  function AddSviToVrf(vrf: Vrf, svi: string): Option<Vrf> {
    if svi in vrf.svis then None else Some(vrf.(svis := vrf.svis + {svi}))
  }

  function DropSviFromVrf(vrf: Vrf, svi: string): Option<Vrf> {
    if svi !in vrf.svis then None else Some(vrf.(svis := vrf.svis - {svi}))
  }

  // ---------------------------------------------------------------------
  // Logical bridges and VRFs
  // ---------------------------------------------------------------------

  predicate VniTaken(db: DB, vni: Option<int>) {
    vni.Some? && vni.value in Members(db.vpns)
  }

  function WithVni(vpns: Option<set<int>>, vni: Option<int>): Option<set<int>> {
    if vni.Some? then Some(Members(vpns) + {vni.value}) else vpns
  }

  function CreateLB(cfg: Config, db: DB, lb: LogicalBridge): (DB, Outcome) {
    if cfg.bridge == [] then (db, Failed(NoSubscribers))
    else if VniTaken(db, lb.vni) then (db, Failed(VniInUse))
    else
      (db.(lbs := db.lbs[lb.name := lb],
           vpns := WithVni(db.vpns, lb.vni),
           lbIndex := Some(Members(db.lbIndex) + {lb.name})), Done)
  }

  function CreateVrf(cfg: Config, db: DB, vrf: Vrf): (DB, Outcome) {
    if cfg.vrf == [] then (db, Failed(NoSubscribers))
    else if VniTaken(db, vrf.vni) then (db, Failed(VniInUse))
    else
      (db.(vrfs := db.vrfs[vrf.name := vrf],
           vpns := WithVni(db.vpns, vrf.vni),
           vrfIndex := Some(Members(db.vrfIndex) + {vrf.name})), Done)
  }

  /** Deletion marks one component per subscriber; stored objects have at least that many. */
  function MarkStatus(status: Intent, subs: seq<string>, version: int): Intent {
    if |subs| <= |status.comps| then MarkDeleted(status, |subs|, version) else status
  }

  function DeleteLB(cfg: Config, db: DB, name: string, version: int): (DB, Outcome) {
    if cfg.bridge == [] then (db, Failed(NoSubscribers))
    else if name !in db.lbs then (db, Failed(KeyNotFound))
    else
      var lb := db.lbs[name];
      if lb.svi != "" || lb.ports != {} || lb.macs != map[] then (db, Failed(BridgeNotEmpty))
      else (db.(lbs := db.lbs[lb.name := lb.(status := MarkStatus(lb.status, cfg.bridge, version))]), Done)
  }

  function DeleteVrf(cfg: Config, db: DB, name: string, version: int): (DB, Outcome) {
    if cfg.vrf == [] then (db, Failed(NoSubscribers))
    else if name !in db.vrfs then (db, Failed(KeyNotFound))
    else
      var vrf := db.vrfs[name];
      if vrf.svis != {} then (db, Failed(VrfNotEmpty))
      else (db.(vrfs := db.vrfs[vrf.name := vrf.(status := MarkStatus(vrf.status, cfg.vrf, version))]), Done)
  }

  /** What a status report amounts to; it also says which status goes to the task manager. */
  datatype Verdict = Stale | AsksReplay | Counts

  function Judge(known: bool, current: int, version: int, comp: Component): Verdict {
    if !known || current != version then Stale else if comp.replay then AsksReplay else Counts
  }

  /** VNI 0 is left alone. */
  function RemoveVni(vpns: Option<set<int>>, vni: Option<int>): (Option<set<int>>, Outcome) {
    if vni.None? || vni.value == 0 then (vpns, Done)
    else if vpns.None? then (vpns, Failed(KeyNotFound))
    else (Some(vpns.value - {vni.value}), Done)
  }

  function RemoveName(index: Option<set<string>>, name: string): (Option<set<string>>, Outcome) {
    if index.None? then (index, Failed(KeyNotFound)) else (Some(index.value - {name}), Done)
  }

  function RemoveLB(db: DB, lb: LogicalBridge): (DB, Outcome) {
    var db1 := db.(lbs := db.lbs - {lb.name});
    var (vpns, out1) := RemoveVni(db1.vpns, lb.vni);
    if out1.Failed? then (db1, out1)
    else
      var db2 := db1.(vpns := vpns);
      var (index, out2) := RemoveName(db2.lbIndex, lb.name);
      (db2.(lbIndex := index), out2)
  }

  function RemoveVrf(db: DB, vrf: Vrf): (DB, Outcome) {
    var db1 := db.(vrfs := db.vrfs - {vrf.name});
    var (vpns, out1) := RemoveVni(db1.vpns, vrf.vni);
    if out1.Failed? then (db1, out1)
    else
      var db2 := db1.(vpns := vpns);
      var (index, out2) := RemoveName(db2.vrfIndex, vrf.name);
      (db2.(vrfIndex := index), out2)
  }

  function UpdateLBStatus(db: DB, name: string, version: int, comp: Component): (DB, Outcome, Verdict) {
    if name !in db.lbs then (db, Done, Stale)
    else
      var lb := db.lbs[name];
      var verdict := Judge(true, lb.status.version, version, comp);
      if !verdict.Counts? then (db, Done, verdict)
      else
        match AfterReport(lb.status, comp)
        case Some(status) => (db.(lbs := db.lbs[lb.name := lb.(status := status)]), Done, Counts)
        case None => var (db', out) := RemoveLB(db, lb); (db', out, Counts)
  }

  function UpdateVrfStatus(db: DB, name: string, version: int, comp: Component): (DB, Outcome, Verdict) {
    if name !in db.vrfs then (db, Done, Stale)
    else
      var vrf := db.vrfs[name];
      var verdict := Judge(true, vrf.status.version, version, comp);
      if !verdict.Counts? then (db, Done, verdict)
      else
        match AfterReport(vrf.status, comp)
        case Some(status) => (db.(vrfs := db.vrfs[vrf.name := vrf.(status := status)]), Done, Counts)
        case None => var (db', out) := RemoveVrf(db, vrf); (db', out, Counts)
  }

  // ---------------------------------------------------------------------
  // Bridge ports
  // ---------------------------------------------------------------------

  /** The bridges one by one; each is saved before the next is looked at. */
  function AttachAll(lbs: map<string, LogicalBridge>, port: string, mac: string, bridges: seq<string>)
    : (map<string, LogicalBridge>, seq<int>, Outcome)
    decreases |bridges|
  {
    if bridges == [] then (lbs, [], Done)
    else if bridges[0] !in lbs then (lbs, [], Failed(BridgeNotFound))
    else
      var lb := lbs[bridges[0]];
      match AddPort(lb, port, mac)
      case None => (lbs, [lb.vlan], Failed(AlreadyAssociated))
      case Some(lb') =>
        var (lbs', vlans, out) := AttachAll(lbs[lb.name := lb'], port, mac, bridges[1..]);
        (lbs', [lb.vlan] + vlans, out)
  }

  function DetachAll(lbs: map<string, LogicalBridge>, port: string, mac: string, bridges: seq<string>)
    : (map<string, LogicalBridge>, Outcome)
    decreases |bridges|
  {
    if bridges == [] then (lbs, Done)
    else if bridges[0] !in lbs then (lbs, Failed(NotAssociated))
    else
      var lb := lbs[bridges[0]];
      match DropPort(lb, port, mac)
      case None => (lbs, Failed(NotAssociated))
      case Some(lb') => DetachAll(lbs[lb.name := lb'], port, mac, bridges[1..])
  }

  /** The bridges a new port is attached to; `order` is the walk over the bridge index. */
  function AllBridges(bp: BridgePort, order: seq<string>): seq<string> {
    if bp.trunk then bp.bridges + order else bp.bridges
  }

  function CreateBP(cfg: Config, db: DB, bp: BridgePort, order: seq<string>): (DB, Outcome) {
    if cfg.port == [] then (db, Failed(NoSubscribers))
    else if bp.trunk && db.lbIndex.None? then (db, Failed(KeyNotFound))
    else
      var bridges := AllBridges(bp, order);
      var (lbs, vlans, out) := AttachAll(db.lbs, bp.name, bp.mac, bridges);
      if out.Failed? then (db.(lbs := lbs), out)
      else
        (db.(lbs := lbs,
             bps := db.bps[bp.name := bp.(bridges := bridges, vlans := bp.vlans + vlans)],
             bpIndex := Some(Members(db.bpIndex) + {bp.name})), Done)
  }

  function DeleteBP(cfg: Config, db: DB, name: string, version: int): (DB, Outcome) {
    if cfg.port == [] then (db, Failed(NoSubscribers))
    else if name !in db.bps then (db, Failed(KeyNotFound))
    else
      var bp := db.bps[name];
      (db.(bps := db.bps[bp.name := bp.(status := MarkStatus(bp.status, cfg.port, version))]), Done)
  }

  function RemoveBP(db: DB, bp: BridgePort): (DB, Outcome) {
    var (lbs, out) := DetachAll(db.lbs, bp.name, bp.mac, bp.bridges);
    if out.Failed? then (db.(lbs := lbs), out)
    else
      var db1 := db.(lbs := lbs, bps := db.bps - {bp.name});
      var (index, out2) := RemoveName(db1.bpIndex, bp.name);
      (db1.(bpIndex := index), out2)
  }

  function UpdateBPStatus(db: DB, name: string, version: int, comp: Component): (DB, Outcome, Verdict) {
    if name !in db.bps then (db, Done, Stale)
    else
      var bp := db.bps[name];
      var verdict := Judge(true, bp.status.version, version, comp);
      if !verdict.Counts? then (db, Done, verdict)
      else
        match AfterReport(bp.status, comp)
        case Some(status) => (db.(bps := db.bps[bp.name := bp.(status := status)]), Done, Counts)
        case None => var (db', out) := RemoveBP(db, bp); (db', out, Counts)
  }

  // ---------------------------------------------------------------------
  // SVIs
  // ---------------------------------------------------------------------

  function CreateSvi(cfg: Config, db: DB, svi: Svi): (DB, Outcome) {
    if cfg.svi == [] then (db, Failed(NoSubscribers))
    else if svi.vrf !in db.vrfs then (db, Failed(VrfNotFound))
    else if svi.bridge !in db.lbs then (db, Failed(BridgeNotFound))
    else
      var vrf := db.vrfs[svi.vrf];
      var lb := db.lbs[svi.bridge];
      match AddSviToVrf(vrf, svi.name)
      case None => (db, Failed(AlreadyAssociated))
      case Some(vrf') =>
        var db1 := db.(vrfs := db.vrfs[vrf.name := vrf']);
        match AddSviToBridge(lb, svi.name)
        case None => (db1, Failed(AlreadyAssociated))
        case Some(lb') =>
          (db1.(lbs := db1.lbs[lb.name := lb'],
                svis := db1.svis[svi.name := svi],
                sviIndex := Some(Members(db1.sviIndex) + {svi.name})), Done)
  }

  function DeleteSvi(cfg: Config, db: DB, name: string, version: int): (DB, Outcome) {
    if cfg.svi == [] then (db, Failed(NoSubscribers))
    else if name !in db.svis then (db, Failed(KeyNotFound))
    else
      var svi := db.svis[name];
      (db.(svis := db.svis[svi.name := svi.(status := MarkStatus(svi.status, cfg.svi, version))]), Done)
  }

  function RemoveSvi(db: DB, svi: Svi): (DB, Outcome) {
    if svi.vrf !in db.vrfs || DropSviFromVrf(db.vrfs[svi.vrf], svi.name).None? then (db, Failed(NotAssociated))
    else
      var vrf := DropSviFromVrf(db.vrfs[svi.vrf], svi.name).value;
      var db1 := db.(vrfs := db.vrfs[vrf.name := vrf]);
      if svi.bridge !in db1.lbs || DropSviFromBridge(db1.lbs[svi.bridge], svi.name).None?
      then (db1, Failed(NotAssociated))
      else
        var lb := DropSviFromBridge(db1.lbs[svi.bridge], svi.name).value;
        var db2 := db1.(lbs := db1.lbs[lb.name := lb], svis := db1.svis - {svi.name});
        var (index, out) := RemoveName(db2.sviIndex, svi.name);
        (db2.(sviIndex := index), out)
  }

  function UpdateSviStatus(db: DB, name: string, version: int, comp: Component): (DB, Outcome, Verdict) {
    if name !in db.svis then (db, Done, Stale)
    else
      var svi := db.svis[name];
      var verdict := Judge(true, svi.status.version, version, comp);
      if !verdict.Counts? then (db, Done, verdict)
      else
        match AfterReport(svi.status, comp)
        case Some(status) => (db.(svis := db.svis[svi.name := svi.(status := status)]), Done, Counts)
        case None => var (db', out) := RemoveSvi(db, svi); (db', out, Counts)
  }
}
