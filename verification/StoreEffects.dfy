/**
 What the calls of InfraDB come to on a store with integrity, told by the objects alone:
 when a creation or a deletion is granted, why it is refused, and what is stored then.
 */
module StoreEffects {
  import opened Basics
  import opened Intents
  import opened Store
  import opened StoreIntegrity
  import opened StoreReferences
  import opened StoreRuns
  import opened StoreView

  // ---------------------------------------------------------------------
  // Bridges and VRFs
  // ---------------------------------------------------------------------

  ghost predicate VniHeld(db: DB, vni: int) {
    exists k :: Holds(db.lbs, db.vrfs, k, vni)
  }

  lemma VniHeldIff(db: DB, vni: int)
    requires VniOk(db.lbs, db.vrfs, db.vpns)
    ensures vni in Members(db.vpns) <==> VniHeld(db, vni)
  {
    if vni in Members(db.vpns) {
      var k :| Holds(db.lbs, db.vrfs, k, vni);
    }
  }

  /** A new bridge is refused without subscribers or when a bridge or VRF holds its VNI; else it is stored as it is. */
  lemma {:induction false} CreateLBEffect(cfg: Config, db: DB, lb: LogicalBridge)
    requires Integrity(cfg, db)
    ensures var (db', out) := CreateLB(cfg, db, lb);
      if cfg.bridge == [] then out == Failed(NoSubscribers) && db' == db
      else if lb.vni.Some? && VniHeld(db, lb.vni.value) then out == Failed(VniInUse) && db' == db
      else
        && out == Done && db' == db.(lbs := db'.lbs, vpns := db'.vpns, lbIndex := db'.lbIndex)
        && db'.lbs == db.lbs[lb.name := lb] && Members(db'.lbIndex) == db.lbs.Keys + {lb.name}
        && Members(db'.vpns) == Members(db.vpns) + if lb.vni.Some? then {lb.vni.value} else {}
  {
    if lb.vni.Some? {
      VniHeldIff(db, lb.vni.value);
    }
  }

  /** The same for a VRF. */
  lemma {:induction false} CreateVrfEffect(cfg: Config, db: DB, vrf: Vrf)
    requires Integrity(cfg, db)
    ensures var (db', out) := CreateVrf(cfg, db, vrf);
      if cfg.vrf == [] then out == Failed(NoSubscribers) && db' == db
      else if vrf.vni.Some? && VniHeld(db, vrf.vni.value) then out == Failed(VniInUse) && db' == db
      else
        && out == Done && db' == db.(vrfs := db'.vrfs, vpns := db'.vpns, vrfIndex := db'.vrfIndex)
        && db'.vrfs == db.vrfs[vrf.name := vrf] && Members(db'.vrfIndex) == db.vrfs.Keys + {vrf.name}
        && Members(db'.vpns) == Members(db.vpns) + if vrf.vni.Some? then {vrf.vni.value} else {}
  {
    if vrf.vni.Some? {
      VniHeldIff(db, vrf.vni.value);
    }
  }

  // ---------------------------------------------------------------------
  // Ports
  // ---------------------------------------------------------------------

  /** The port is attached to the bridge, which listed neither it nor its MAC before. */
  ghost predicate Joined(was: LogicalBridge, now: LogicalBridge, port: string, mac: string) {
    && port !in was.ports && mac !in was.macs
    && now == was.(ports := was.ports + {port}, macs := was.macs[mac := port])
  }

  /**
   What a created port is attached to. One that names no bridge is a transparent trunk and
   spans every stored bridge, once each; any other is attached to exactly the bridges it
   names, in that order. All of these list it by name and MAC afterwards; nothing else
   changes.
   */
  lemma {:induction false} CreateBPEffect(cfg: Config, db: DB, bp: BridgePort, order: seq<string>)
    requires Integrity(cfg, db) && BornBP(cfg, bp) && WalksBridges(db, order)
    requires CreateBP(cfg, db, bp, order).1.Done?
    ensures var db' := CreateBP(cfg, db, bp, order).0;
      && bp.name in db'.bps
      && var p := db'.bps[bp.name];
         && p == bp.(bridges := p.bridges, vlans := p.vlans)
         && NoDup(p.bridges)
         && (if bp.bridges == [] then Elems(p.bridges) == db.lbs.Keys else p.bridges == bp.bridges)
         && |p.vlans| == |p.bridges|
         && (forall i :: 0 <= i < |p.bridges| ==> p.bridges[i] in db.lbs && p.vlans[i] == db.lbs[p.bridges[i]].vlan)
         && db'.lbs.Keys == db.lbs.Keys
         && (forall b :: b in db.lbs ==>
              if b in p.bridges then Joined(db.lbs[b], db'.lbs[b], bp.name, bp.mac) else db'.lbs[b] == db.lbs[b])
         && db'.bps == db.bps[bp.name := p] && Members(db'.bpIndex) == db.bps.Keys + {bp.name}
         && db' == db.(lbs := db'.lbs, bps := db'.bps, bpIndex := db'.bpIndex)
  {
    CreateBPStores(cfg, db, bp, order);
    var p := CreateBP(cfg, db, bp, order).0.bps[bp.name];
    AttachedJoins(db.lbs, bp.name, bp.mac, p.bridges);
    if bp.bridges == [] {
      assert p.bridges == order;
      WalkSpans(cfg, db, order);
    }
  }

  lemma AttachedJoins(lbs: map<string, LogicalBridge>, port: string, mac: string, bridges: seq<string>)
    requires forall i :: 0 <= i < |bridges| ==> Fits(lbs, port, mac, bridges[i])
    ensures var lbs' := Attached(lbs, port, mac, Elems(bridges));
      lbs'.Keys == lbs.Keys && forall b :: b in lbs ==>
        if b in bridges then Joined(lbs[b], lbs'[b], port, mac) else lbs'[b] == lbs[b]
  {
    forall b | b in bridges ensures Fits(lbs, port, mac, b) {
      var i :| 0 <= i < |bridges| && bridges[i] == b;
    }
  }

  lemma WalkSpans(cfg: Config, db: DB, order: seq<string>)
    requires IndexOk(db) && WalksBridges(db, order)
    ensures Elems(order) == db.lbs.Keys && (forall b :: b in db.lbs <==> b in order)
  {}

  /**
   When a port is created: some module is subscribed, and each bridge is there and knows
   neither the port nor its MAC. For a transparent trunk this is every stored bridge, and
   some bridge must have been stored once.
   */
  lemma {:induction false} CreateBPIff(cfg: Config, db: DB, bp: BridgePort, order: seq<string>)
    requires Integrity(cfg, db) && BornBP(cfg, bp) && WalksBridges(db, order)
    ensures CreateBP(cfg, db, bp, order).1.Done? <==>
      && cfg.port != []
      && if bp.bridges == []
         then db.lbIndex.Some? && forall b :: b in db.lbs ==> bp.name !in db.lbs[b].ports && bp.mac !in db.lbs[b].macs
         else NoDup(bp.bridges) && forall i :: 0 <= i < |bp.bridges| ==> Fits(db.lbs, bp.name, bp.mac, bp.bridges[i])
  {
    AttachableIff(cfg, db, bp, order);
    if bp.bridges == [] {
      WalkSpans(cfg, db, order);
      FitsAll(db.lbs, bp.name, bp.mac, order);
    }
  }

  lemma FitsAll(lbs: map<string, LogicalBridge>, port: string, mac: string, order: seq<string>)
    requires forall b :: b in lbs <==> b in order
    ensures (forall i :: 0 <= i < |order| ==> Fits(lbs, port, mac, order[i])) <==>
      forall b :: b in lbs ==> port !in lbs[b].ports && mac !in lbs[b].macs
  {
    if forall i :: 0 <= i < |order| ==> Fits(lbs, port, mac, order[i]) {
      forall b | b in lbs ensures port !in lbs[b].ports && mac !in lbs[b].macs {
        var i :| 0 <= i < |order| && order[i] == b;
        assert Fits(lbs, port, mac, order[i]);
      }
    }
  }

  lemma AttachableIff(cfg: Config, db: DB, bp: BridgePort, order: seq<string>)
    requires Integrity(cfg, db) && BornBP(cfg, bp) && WalksBridges(db, order)
    ensures var bridges := if bp.bridges == [] then order else bp.bridges;
      CreateBP(cfg, db, bp, order).1.Done? <==>
        && cfg.port != [] && (bp.bridges == [] ==> db.lbIndex.Some?)
        && NoDup(bridges) && forall i :: 0 <= i < |bridges| ==> Fits(db.lbs, bp.name, bp.mac, bridges[i])
  {
    var bridges := if bp.bridges == [] then order else bp.bridges;
    assert bp.bridges == [] ==> bp.bridges + order == order;
    AttachAllIff(db.lbs, bp.name, bp.mac, bridges);
  }

  lemma AttachAllIff(lbs: map<string, LogicalBridge>, port: string, mac: string, bridges: seq<string>)
    requires Named(lbs)
    ensures AttachAll(lbs, port, mac, bridges).2.Done? <==>
      NoDup(bridges) && forall i :: 0 <= i < |bridges| ==> Fits(lbs, port, mac, bridges[i])
  {
    var k := AttachAllExact(lbs, port, mac, bridges);
    if k < |bridges| {
      assert bridges[k] in bridges[..k] ==> !NoDup(bridges);
    } else {
      assert bridges[..k] == bridges;
    }
  }

  /**
   Why a port is refused: nobody is subscribed; there is no bridge index to walk; or, after
   bridges that fit, one at `k` that is missing, or that knows the port or its MAC already.
   */
  lemma {:induction false} CreateBPRefused(cfg: Config, db: DB, bp: BridgePort, order: seq<string>) returns (k: nat)
    requires Integrity(cfg, db) && BornBP(cfg, bp) && WalksBridges(db, order)
    requires CreateBP(cfg, db, bp, order).1.Failed?
    ensures var out := CreateBP(cfg, db, bp, order).1;
      if cfg.port == [] then out == Failed(NoSubscribers)
      else if bp.bridges == [] then out == Failed(if db.lbIndex.None? then KeyNotFound else AlreadyAssociated)
      else StopsAt(db.lbs, bp.name, bp.mac, bp.bridges, k, out)
  {
    k := 0;
    var bridges := if bp.trunk then order else bp.bridges;
    assert bp.bridges == [] ==> bp.bridges + order == order;
    if cfg.port != [] && !(bp.trunk && db.lbIndex.None?) {
      k := AttachRefused(db.lbs, bp.name, bp.mac, bridges);
      if bp.trunk {
        assert order[k] in order;
      }
    }
  }

  /** All bridges before the one at `k` fit, and the error says what is wrong with that one. */
  ghost predicate StopsAt(lbs: map<string, LogicalBridge>, port: string, mac: string, bridges: seq<string>, k: nat,
                          out: Outcome) {
    && k < |bridges| && (forall i :: 0 <= i < k ==> Fits(lbs, port, mac, bridges[i]))
    && if bridges[k] !in lbs then out == Failed(BridgeNotFound)
       else out == Failed(AlreadyAssociated) && (!Fits(lbs, port, mac, bridges[k]) || bridges[k] in bridges[..k])
  }

  lemma {:induction false} AttachRefused(lbs: map<string, LogicalBridge>, port: string, mac: string,
                                         bridges: seq<string>)
    returns (k: nat)
    requires Named(lbs) && AttachAll(lbs, port, mac, bridges).2.Failed?
    ensures StopsAt(lbs, port, mac, bridges, k, AttachAll(lbs, port, mac, bridges).2)
  {
    k := 0;
    if Fits(lbs, port, mac, bridges[0]) {
      var lbs' := lbs[bridges[0] := AddPort(lbs[bridges[0]], port, mac).value];
      var j := AttachRefused(lbs', port, mac, bridges[1..]);
      k := j + 1;
      StopsLater(lbs, lbs', port, mac, bridges, j, AttachAll(lbs', port, mac, bridges[1..]).2);
    }
  }

  lemma StopsLater(lbs: map<string, LogicalBridge>, lbs': map<string, LogicalBridge>, port: string, mac: string,
                   bridges: seq<string>, j: nat, out: Outcome)
    requires bridges != [] && Fits(lbs, port, mac, bridges[0])
    requires lbs' == lbs[bridges[0] := AddPort(lbs[bridges[0]], port, mac).value]
    requires StopsAt(lbs', port, mac, bridges[1..], j, out)
    ensures StopsAt(lbs, port, mac, bridges, j + 1, out)
  {
    forall i | 0 <= i < j + 1 ensures Fits(lbs, port, mac, bridges[i]) {
      assert i > 0 ==> bridges[1..][i - 1] == bridges[i];
    }
    assert bridges[1..][j] == bridges[j + 1];
    assert bridges[..j + 1] == [bridges[0]] + bridges[1..][..j];
  }

  // ---------------------------------------------------------------------
  // SVIs
  // ---------------------------------------------------------------------

  /** When an SVI is created, and why it is not: no other SVI may have its bridge, nor its name in its VRF. */
  lemma {:induction false} CreateSviOutcome(cfg: Config, db: DB, svi: Svi)
    requires Integrity(cfg, db)
    ensures CreateSvi(cfg, db, svi).1 ==
      if cfg.svi == [] then Failed(NoSubscribers)
      else if svi.vrf !in db.vrfs then Failed(VrfNotFound)
      else if svi.bridge !in db.lbs then Failed(BridgeNotFound)
      else if svi.name in db.svis && db.svis[svi.name].vrf == svi.vrf then Failed(AlreadyAssociated)
      else if exists v :: v in db.svis && db.svis[v].bridge == svi.bridge then Failed(AlreadyAssociated)
      else Done
  {
    if svi.bridge in db.lbs {
      BridgeTaken(db, svi.bridge);
    }
  }

  lemma BridgeTaken(db: DB, b: string)
    requires SvisOk(db.lbs, db.vrfs, db.svis) && b in db.lbs
    ensures db.lbs[b].svi != "" <==> exists v :: v in db.svis && db.svis[v].bridge == b
  {
    if db.lbs[b].svi != "" {
      assert db.svis[db.lbs[b].svi].bridge == b;
    }
  }

  // ---------------------------------------------------------------------
  // Deletions
  // ---------------------------------------------------------------------

  /** Some stored object refers to this one. */
  ghost predicate Referred(db: DB, key: Key) {
    match key.kind
    case BridgeKind =>
      || (exists v :: v in db.svis && db.svis[v].bridge == key.name)
      || (exists p :: p in db.bps && key.name in db.bps[p].bridges)
    case VrfKind => exists v :: v in db.svis && db.svis[v].vrf == key.name
    case _ => false
  }

  /** When a deletion request is granted, and why it is not: nothing may refer to the object. */
  lemma {:induction false} DeletionOutcome(cfg: Config, db: DB, key: Key, version: int)
    requires Integrity(cfg, db)
    ensures DeleteOf(cfg, db, key, version).1 ==
      if cfg.Of(key.kind) == [] then Failed(NoSubscribers)
      else if !Stored(db, key) then Failed(KeyNotFound)
      else if Referred(db, key) then Failed(if key.kind == VrfKind then VrfNotEmpty else BridgeNotEmpty)
      else Done
  {
    match key.kind {
      case BridgeKind => if key.name in db.lbs { BridgeReferred(cfg, db, key.name); }
      case VrfKind => if key.name in db.vrfs { VrfReferred(cfg, db, key.name); }
      case _ =>
    }
  }

  lemma BridgeReferred(cfg: Config, db: DB, b: string)
    requires Integrity(cfg, db) && b in db.lbs
    ensures Referred(db, Key(BridgeKind, b)) <==> !Unreferenced(db.lbs[b])
  {
    var lb := db.lbs[b];
    assert BridgeOk(db.bps, b, lb);
    if lb.svi != "" {
      assert db.svis[lb.svi].bridge == b;
    }
    if p :| p in lb.ports {
      assert b in db.bps[p].bridges;
    }
    if p :| p in db.bps && b in db.bps[p].bridges {
      assert PortOk(db.lbs, p, db.bps[p]);
      var i :| 0 <= i < |db.bps[p].bridges| && db.bps[p].bridges[i] == b;
    }
    if lb.macs != map[] {
      var m :| m in lb.macs;
      assert lb.macs[m] in lb.ports;
    }
  }

  lemma VrfReferred(cfg: Config, db: DB, r: string)
    requires Integrity(cfg, db) && r in db.vrfs
    ensures Referred(db, Key(VrfKind, r)) <==> db.vrfs[r].svis != {}
  {
    if v :| v in db.vrfs[r].svis {
      assert db.svis[v].vrf == r;
    }
  }

  /** What a granted deletion makes of the status: every component waits again, under the new version. */
  lemma {:induction false} DeletionMarks(cfg: Config, db: DB, key: Key, version: int)
    requires Integrity(cfg, db) && DeleteOf(cfg, db, key, version).1.Done?
    ensures Stored(db, key) && Stored(DeleteOf(cfg, db, key, version).0, key)
    ensures var was := StatusAt(db, key); var now := StatusAt(DeleteOf(cfg, db, key, version).0, key);
      && now.version == version && now.oper == ToBeDeleted && |now.comps| == |was.comps|
      && forall i :: 0 <= i < |was.comps| ==> now.comps[i] == was.comps[i].(status := Pending)
  {
    var subs := cfg.Of(key.kind);
    assert Follows(StatusAt(db, key), subs);
    assert |Names(StatusAt(db, key).comps)| == |StatusAt(db, key).comps|;
  }
}
