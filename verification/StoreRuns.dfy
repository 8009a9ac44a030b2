/**
 Whole runs of store operations: every operation keeps integrity exactly when it is
 careful, so integrity holds after any run of careful operations.
 */
module StoreRuns {
  import opened Basics
  import opened Intents
  import opened Store
  import opened StoreIntegrity
  import opened StoreReferences

  datatype Op =
    | NewLB(lb: LogicalBridge)
    | NewVrf(vrf: Vrf)
    | NewBP(bp: BridgePort, order: seq<string>)
    | NewSvi(svi: Svi)
    | Delete(key: Key, version: int)
    | ReportOn(key: Key, version: int, comp: Component)

  function DeleteOf(cfg: Config, db: DB, key: Key, version: int): (DB, Outcome) {
    match key.kind
    case BridgeKind => DeleteLB(cfg, db, key.name, version)
    case VrfKind => DeleteVrf(cfg, db, key.name, version)
    case PortKind => DeleteBP(cfg, db, key.name, version)
    case SviKind => DeleteSvi(cfg, db, key.name, version)
  }

  function StatusOf(db: DB, key: Key, version: int, comp: Component): (DB, Outcome, Verdict) {
    match key.kind
    case BridgeKind => UpdateLBStatus(db, key.name, version, comp)
    case VrfKind => UpdateVrfStatus(db, key.name, version, comp)
    case PortKind => UpdateBPStatus(db, key.name, version, comp)
    case SviKind => UpdateSviStatus(db, key.name, version, comp)
  }

  function Perform(cfg: Config, db: DB, op: Op): DB {
    match op
    case NewLB(lb) => CreateLB(cfg, db, lb).0
    case NewVrf(vrf) => CreateVrf(cfg, db, vrf).0
    case NewBP(bp, order) => CreateBP(cfg, db, bp, order).0
    case NewSvi(svi) => CreateSvi(cfg, db, svi).0
    case Delete(key, version) => DeleteOf(cfg, db, key, version).0
    case ReportOn(key, version, comp) => StatusOf(db, key, version, comp).0
  }

  /** New objects are as their constructors build them. */
  ghost predicate Built(cfg: Config, op: Op) {
    match op
    case NewLB(lb) => BornLB(cfg, lb)
    case NewVrf(vrf) => BornVrf(cfg, vrf)
    case NewBP(bp, order) => BornBP(cfg, bp)
    case NewSvi(svi) => BornSvi(cfg, svi)
    case _ => true
  }

  /** What a caller can check before the call. Deletions and reports are always careful. */
  ghost predicate Careful(cfg: Config, db: DB, op: Op) {
    match op
    case NewLB(lb) =>
      || cfg.bridge == [] || VniTaken(db, lb.vni)
      || ((lb.vni.Some? ==> ValidVni(lb.vni.value)) && (lb.name in db.lbs ==> Replaceable(db.lbs[lb.name])))
    case NewVrf(vrf) =>
      || cfg.vrf == [] || VniTaken(db, vrf.vni)
      || ((vrf.vni.Some? ==> ValidVni(vrf.vni.value))
          && (vrf.name in db.vrfs ==> db.vrfs[vrf.name].svis == {} && db.vrfs[vrf.name].vni == None))
    case NewBP(bp, order) =>
      var bridges := AllBridges(bp, order);
      || cfg.port == [] || (bp.trunk && db.lbIndex.None?)
      || (bridges != [] && !Fits(db.lbs, bp.name, bp.mac, bridges[0]))
      || ((forall i :: 0 <= i < |bridges| ==> Fits(db.lbs, bp.name, bp.mac, bridges[i]))
          && NoDup(bridges) && NoneDoomed(db.lbs, bridges) && FreePortName(db, bp.name))
    case NewSvi(svi) =>
      || cfg.svi == [] || svi.vrf !in db.vrfs || svi.bridge !in db.lbs
      || svi.name in db.vrfs[svi.vrf].svis
      || (&& db.lbs[svi.bridge].svi == "" && svi.name != "" && svi.name !in db.svis
          && db.vrfs[svi.vrf].status.oper != ToBeDeleted && db.lbs[svi.bridge].status.oper != ToBeDeleted)
    case _ => true
  }

  /** An operation on a store with integrity keeps it exactly when it is careful. */
  lemma {:induction false} KeepsIffCareful(cfg: Config, db: DB, op: Op)
    requires Integrity(cfg, db) && Built(cfg, op)
    ensures Integrity(cfg, Perform(cfg, db, op)) <==> Careful(cfg, db, op)
  {
    match op
    case NewLB(lb) => CreateLBKeepsIff(cfg, db, lb);
    case NewVrf(vrf) => CreateVrfKeepsIff(cfg, db, vrf);
    case NewBP(bp, order) => NewBPKeepsIffCareful(cfg, db, bp, order);
    case NewSvi(svi) =>
      CreateSviKeepsIff(cfg, db, svi);
      CreateSviStores(cfg, db, svi);
    case Delete(key, version) => DeleteOfKeeps(cfg, db, key, version);
    case ReportOn(key, version, comp) => StatusOfKeeps(cfg, db, key, version, comp);
  }

  lemma {:induction false} NewBPKeepsIffCareful(cfg: Config, db: DB, bp: BridgePort, order: seq<string>)
    requires Integrity(cfg, db) && BornBP(cfg, bp)
    ensures Integrity(cfg, CreateBP(cfg, db, bp, order).0) <==> Careful(cfg, db, NewBP(bp, order))
  {
    CreateBPKeepsIff(cfg, db, bp, order);
    var bridges := AllBridges(bp, order);
    var k := AttachAllExact(db.lbs, bp.name, bp.mac, bridges);
    assert bridges[..|bridges|] == bridges;
  }

  lemma DeleteOfKeeps(cfg: Config, db: DB, key: Key, version: int)
    requires Integrity(cfg, db)
    ensures Integrity(cfg, DeleteOf(cfg, db, key, version).0)
  {
    match key.kind
    case BridgeKind => DeleteLBKeeps(cfg, db, key.name, version);
    case VrfKind => DeleteVrfKeeps(cfg, db, key.name, version);
    case PortKind => DeleteBPKeeps(cfg, db, key.name, version);
    case SviKind => DeleteSviKeeps(cfg, db, key.name, version);
  }

  /** A report never fails on a store with integrity, whatever it removes. */
  lemma {:induction false} StatusOfKeeps(cfg: Config, db: DB, key: Key, version: int, comp: Component)
    requires Integrity(cfg, db)
    ensures StatusOf(db, key, version, comp).1.Done?
    ensures Integrity(cfg, StatusOf(db, key, version, comp).0)
  {
    match key.kind
    case BridgeKind => UpdateLBStatusKeeps(cfg, db, key.name, version, comp);
    case VrfKind => UpdateVrfStatusKeeps(cfg, db, key.name, version, comp);
    case PortKind => UpdateBPStatusKeeps(cfg, db, key.name, version, comp);
    case SviKind => UpdateSviStatusKeeps(cfg, db, key.name, version, comp);
  }

  // ---------------------------------------------------------------------
  // Runs
  // ---------------------------------------------------------------------

  function RunOps(cfg: Config, ops: seq<Op>): DB {
    if ops == [] then EmptyDB else Perform(cfg, RunOps(cfg, ops[..|ops| - 1]), ops[|ops| - 1])
  }

  ghost predicate CarefulRun(cfg: Config, ops: seq<Op>) {
    ops != [] ==>
      var before := ops[..|ops| - 1];
      && CarefulRun(cfg, before)
      && Built(cfg, ops[|ops| - 1])
      && Careful(cfg, RunOps(cfg, before), ops[|ops| - 1])
  }

  /** References, indices and VNIs agree after any run of careful operations. */
  lemma {:induction false} CarefulRunsHaveIntegrity(cfg: Config, ops: seq<Op>)
    requires CarefulRun(cfg, ops)
    ensures Integrity(cfg, RunOps(cfg, ops))
  {
    if ops == [] {
      EmptyHasIntegrity(cfg);
    } else {
      CarefulRunsHaveIntegrity(cfg, ops[..|ops| - 1]);
      KeepsIffCareful(cfg, RunOps(cfg, ops[..|ops| - 1]), ops[|ops| - 1]);
    }
  }
}
