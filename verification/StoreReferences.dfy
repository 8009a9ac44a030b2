/**
 Ports and SVIs: the loops that write references into several stored objects, in closed
 form, and what creating and removing such an object does to the integrity of the store.
 */
module StoreReferences {
  import opened Basics
  import opened Intents
  import opened Store
  import opened StoreIntegrity

  // ---------------------------------------------------------------------
  // The attaching and detaching loops
  // ---------------------------------------------------------------------

  ghost predicate Named(lbs: map<string, LogicalBridge>) {
    forall b :: b in lbs ==> lbs[b].name == b
  }

  /** The bridge exists and knows neither the port nor its MAC. */
  ghost predicate Fits(lbs: map<string, LogicalBridge>, port: string, mac: string, b: string) {
    b in lbs && port !in lbs[b].ports && mac !in lbs[b].macs
  }

  ghost function Attached(lbs: map<string, LogicalBridge>, port: string, mac: string, on: set<string>)
    : map<string, LogicalBridge>
  {
    map b | b in lbs :: if b in on
      then lbs[b].(ports := lbs[b].ports + {port}, macs := lbs[b].macs[mac := port])
      else lbs[b]
  }

  ghost function Detached(lbs: map<string, LogicalBridge>, port: string, mac: string, on: set<string>)
    : map<string, LogicalBridge>
  {
    map b | b in lbs :: if b in on
      then lbs[b].(ports := lbs[b].ports - {port}, macs := lbs[b].macs - {mac})
      else lbs[b]
  }

  /** The loop attaches a prefix of the bridges; it stops before the first that is missing, taken or repeated. */
  lemma {:induction false} AttachAllExact(lbs: map<string, LogicalBridge>, port: string, mac: string,
                                          bridges: seq<string>)
    returns (k: nat)
    requires Named(lbs)
    ensures k <= |bridges| && NoDup(bridges[..k])
    ensures forall i :: 0 <= i < k ==> Fits(lbs, port, mac, bridges[i])
    ensures k < |bridges| ==> !Fits(lbs, port, mac, bridges[k]) || bridges[k] in bridges[..k]
    ensures var (lbs', vlans, out) := AttachAll(lbs, port, mac, bridges);
      && lbs' == Attached(lbs, port, mac, Elems(bridges[..k]))
      && (out.Done? <==> k == |bridges|)
      && (out.Done? ==>
           |vlans| == k && forall i :: 0 <= i < k ==> bridges[i] in lbs && vlans[i] == lbs[bridges[i]].vlan)
  {
    if AttachAll(lbs, port, mac, bridges).2.Done? {
      AttachedVlans(lbs, port, mac, bridges);
    }
    if bridges == [] || !Fits(lbs, port, mac, bridges[0]) {
      assert Attached(lbs, port, mac, Elems(bridges[..0])) == lbs;
      return 0;
    }
    var b := bridges[0];
    var lbs1 := lbs[b := AddPort(lbs[b], port, mac).value];
    var rest := bridges[1..];
    var j := AttachAllExact(lbs1, port, mac, rest);
    k := j + 1;
    assert bridges[..k] == [b] + rest[..j];
    assert Elems(bridges[..k]) == {b} + Elems(rest[..j]);
    FitsAfterOne(lbs, port, mac, b, rest, j);
    AttachedOne(lbs, port, mac, b, Elems(rest[..j]));
  }

  /** When the loop runs through, it has collected the VLANs of the bridges in order. */
  lemma {:induction false} AttachedVlans(lbs: map<string, LogicalBridge>, port: string, mac: string,
                                         bridges: seq<string>)
    requires Named(lbs) && AttachAll(lbs, port, mac, bridges).2.Done?
    ensures var vlans := AttachAll(lbs, port, mac, bridges).1;
      |vlans| == |bridges| && forall i :: 0 <= i < |bridges| ==> bridges[i] in lbs && vlans[i] == lbs[bridges[i]].vlan
  {
    if bridges != [] {
      var b := bridges[0];
      var lbs1 := lbs[b := AddPort(lbs[b], port, mac).value];
      AttachedVlans(lbs1, port, mac, bridges[1..]);
      assert forall i :: 0 < i < |bridges| ==> bridges[i] == bridges[1..][i - 1];
    }
  }

  /** The bridge attached first fits no more; the others fit as before. */
  lemma FitsAfterOne(lbs: map<string, LogicalBridge>, port: string, mac: string, b: string, rest: seq<string>, j: nat)
    requires j <= |rest| && Fits(lbs, port, mac, b)
    requires var lbs1 := lbs[b := AddPort(lbs[b], port, mac).value];
      && (forall i :: 0 <= i < j ==> Fits(lbs1, port, mac, rest[i]))
      && (j < |rest| ==> !Fits(lbs1, port, mac, rest[j]) || rest[j] in rest[..j])
    ensures b !in rest[..j]
    ensures forall i :: 0 <= i < j ==> Fits(lbs, port, mac, rest[i])
    ensures j < |rest| ==> !Fits(lbs, port, mac, rest[j]) || rest[j] == b || rest[j] in rest[..j]
  {}

  lemma AttachedOne(lbs: map<string, LogicalBridge>, port: string, mac: string, b: string, on: set<string>)
    requires Fits(lbs, port, mac, b) && b !in on
    ensures Attached(lbs[b := AddPort(lbs[b], port, mac).value], port, mac, on) == Attached(lbs, port, mac, {b} + on)
  {}

  /** Where every bridge lists the port, detaching cannot fail. */
  lemma {:induction false} DetachAllExact(lbs: map<string, LogicalBridge>, port: string, mac: string,
                                          bridges: seq<string>)
    requires Named(lbs) && NoDup(bridges)
    requires forall i :: 0 <= i < |bridges| ==> bridges[i] in lbs && Lists(lbs[bridges[i]], port, mac)
    ensures DetachAll(lbs, port, mac, bridges) == (Detached(lbs, port, mac, Elems(bridges)), Done)
  {
    if bridges == [] {
      assert Detached(lbs, port, mac, Elems(bridges)) == lbs;
    } else {
      var b := bridges[0];
      var lbs1 := lbs[b := DropPort(lbs[b], port, mac).value];
      var rest := bridges[1..];
      forall i | 0 <= i < |rest| ensures rest[i] != b && rest[i] in lbs1 && Lists(lbs1[rest[i]], port, mac) {
        assert rest[i] == bridges[i + 1];
      }
      DetachAllExact(lbs1, port, mac, rest);
      assert Elems(bridges) == {b} + Elems(rest);
      assert Detached(lbs1, port, mac, Elems(rest)) == Detached(lbs, port, mac, Elems(bridges));
    }
  }

  // ---------------------------------------------------------------------
  // Creating a port
  // ---------------------------------------------------------------------

  /** `order` is one walk over the bridge index; only transparent trunks look at it. */
  ghost predicate WalksBridges(db: DB, order: seq<string>) {
    NoDup(order) && forall b :: b in order <==> b in Members(db.lbIndex)
  }

  ghost predicate NoneDoomed(lbs: map<string, LogicalBridge>, bridges: seq<string>) {
    forall i :: 0 <= i < |bridges| && bridges[i] in lbs ==> lbs[bridges[i]].status.oper != ToBeDeleted
  }

  lemma AttachedKeepsPorts(lbs: map<string, LogicalBridge>, bps: map<string, BridgePort>, bp: BridgePort)
    requires PortsOk(lbs, bps) && (bp.name in bps ==> bps[bp.name].bridges == [])
    requires NoDup(bp.bridges) && |bp.vlans| == |bp.bridges|
    requires forall i :: 0 <= i < |bp.bridges| ==>
      Fits(lbs, bp.name, bp.mac, bp.bridges[i]) && bp.vlans[i] == lbs[bp.bridges[i]].vlan
    ensures PortsOk(Attached(lbs, bp.name, bp.mac, Elems(bp.bridges)), bps[bp.name := bp])
  {
    var lbs' := Attached(lbs, bp.name, bp.mac, Elems(bp.bridges));
    var bps' := bps[bp.name := bp];
    forall p | p in bps' ensures PortOk(lbs', p, bps'[p]) {
      if p != bp.name {
        assert PortOk(lbs, p, bps[p]);
        forall i | 0 <= i < |bps[p].bridges| ensures Lists(lbs'[bps[p].bridges[i]], p, bps[p].mac) {
          assert Lists(lbs[bps[p].bridges[i]], p, bps[p].mac);
        }
      }
    }
    forall b | b in lbs' ensures BridgeOk(bps', b, lbs'[b]) {
      assert BridgeOk(bps, b, lbs[b]);
    }
  }

  lemma AttachedKeepsRest(cfg: Config, db: DB, port: string, mac: string, on: set<string>)
    requires Integrity(cfg, db)
    ensures var lbs' := Attached(db.lbs, port, mac, on);
      && VniOk(lbs', db.vrfs, db.vpns) && SvisOk(lbs', db.vrfs, db.svis)
      && forall b :: b in lbs' ==> lbs'[b].name == b && Follows(lbs'[b].status, cfg.bridge)
  {
    var lbs' := Attached(db.lbs, port, mac, on);
    SameHolders(db.lbs, db.vrfs, lbs', db.vrfs, db.vpns);
    SvisIgnoreRest(db.lbs, lbs', db.vrfs, db.svis);
  }

  /** What a successful CreateBP stores. */
  lemma CreateBPStores(cfg: Config, db: DB, bp: BridgePort, order: seq<string>)
    requires Integrity(cfg, db) && BornBP(cfg, bp) && CreateBP(cfg, db, bp, order).1.Done?
    ensures var (db', out) := CreateBP(cfg, db, bp, order);
      var bridges := if bp.bridges == [] then order else bp.bridges;
      && NoDup(bridges) && (forall i :: 0 <= i < |bridges| ==> Fits(db.lbs, bp.name, bp.mac, bridges[i]))
      && bp.name in db'.bps && db'.bps[bp.name].bridges == bridges
      && |db'.bps[bp.name].vlans| == |bridges|
      && (forall i :: 0 <= i < |bridges| ==>
            bridges[i] in db.lbs && db'.bps[bp.name].vlans[i] == db.lbs[bridges[i]].vlan)
      && db' == db.(lbs := Attached(db.lbs, bp.name, bp.mac, Elems(bridges)),
                    bps := db.bps[bp.name := bp.(bridges := bridges, vlans := db'.bps[bp.name].vlans)],
                    bpIndex := Some(Members(db.bpIndex) + {bp.name}))
  {
    var bridges := AllBridges(bp, order);
    assert [] + order == order;
    var k := AttachAllExact(db.lbs, bp.name, bp.mac, bridges);
    assert bridges[..k] == bridges;
    var (lbs, vlans, out) := AttachAll(db.lbs, bp.name, bp.mac, bridges);
    assert bp.vlans + vlans == vlans;
  }

  ghost predicate FreePortName(db: DB, p: string) {
    p in db.bps ==> db.bps[p].bridges == []
  }

  /**
   Creating a port. A success keeps integrity exactly when none of its bridges is about to
   be deleted and the name is free, or taken by a port without bridges. A failure keeps it
   exactly when the very first bridge refused: from the second on, a stray reference stays.
   */
  lemma {:induction false} CreateBPKeepsIff(cfg: Config, db: DB, bp: BridgePort, order: seq<string>)
    requires Integrity(cfg, db) && BornBP(cfg, bp)
    ensures var (db', out) := CreateBP(cfg, db, bp, order);
      var bridges := AllBridges(bp, order);
      && (out.Done? ==> (Integrity(cfg, db') <==> NoneDoomed(db.lbs, bridges) && FreePortName(db, bp.name)))
      && (out.Failed? ==>
          (Integrity(cfg, db') <==>
            || cfg.port == [] || (bp.trunk && db.lbIndex.None?)
            || bridges == [] || !Fits(db.lbs, bp.name, bp.mac, bridges[0])))
  {
    if CreateBP(cfg, db, bp, order).1.Done? {
      CreatedBP(cfg, db, bp, order);
    } else {
      RefusedBP(cfg, db, bp, order);
    }
  }

  lemma {:induction false} CreatedBP(cfg: Config, db: DB, bp: BridgePort, order: seq<string>)
    requires Integrity(cfg, db) && BornBP(cfg, bp)
    requires CreateBP(cfg, db, bp, order).1.Done?
    ensures Integrity(cfg, CreateBP(cfg, db, bp, order).0) <==>
      NoneDoomed(db.lbs, AllBridges(bp, order)) && FreePortName(db, bp.name)
  {
    CreateBPStores(cfg, db, bp, order);
    var db' := CreateBP(cfg, db, bp, order).0;
    if !FreePortName(db, bp.name) {
      TakenPortBreaks(db.lbs, db.bps, db'.bps[bp.name]);
    } else {
      AttachedKeepsIff(cfg, db, db'.bps[bp.name], db'.bpIndex);
    }
  }

  /** The bridges of the port that had the name still list it. */
  lemma TakenPortBreaks(lbs: map<string, LogicalBridge>, bps: map<string, BridgePort>, bp: BridgePort)
    requires PortsOk(lbs, bps) && bp.name in bps && bps[bp.name].bridges != []
    requires forall i :: 0 <= i < |bp.bridges| ==> Fits(lbs, bp.name, bp.mac, bp.bridges[i])
    ensures !PortsOk(Attached(lbs, bp.name, bp.mac, Elems(bp.bridges)), bps[bp.name := bp])
  {
    var b := bps[bp.name].bridges[0];
    assert PortOk(lbs, bp.name, bps[bp.name]) && Lists(lbs[b], bp.name, bps[bp.name].mac);
    assert b !in bp.bridges;
    assert !BridgeOk(bps[bp.name := bp], b, Attached(lbs, bp.name, bp.mac, Elems(bp.bridges))[b]);
  }

  lemma {:induction false} AttachedKeepsIff(cfg: Config, db: DB, bp: BridgePort, bpIndex: Option<set<string>>)
    requires Integrity(cfg, db) && FreePortName(db, bp.name) && Follows(bp.status, cfg.port)
    requires NoDup(bp.bridges) && |bp.vlans| == |bp.bridges|
    requires forall i :: 0 <= i < |bp.bridges| ==>
      Fits(db.lbs, bp.name, bp.mac, bp.bridges[i]) && bp.vlans[i] == db.lbs[bp.bridges[i]].vlan
    requires Members(bpIndex) == Members(db.bpIndex) + {bp.name}
    ensures NoneDoomed(db.lbs, bp.bridges) <==>
      Integrity(cfg, db.(lbs := Attached(db.lbs, bp.name, bp.mac, Elems(bp.bridges)),
                         bps := db.bps[bp.name := bp],
                         bpIndex := bpIndex))
  {
    AttachedKeepsPorts(db.lbs, db.bps, bp);
    AttachedKeepsRest(cfg, db, bp.name, bp.mac, Elems(bp.bridges));
    DoomedAttached(db.lbs, db.vrfs, bp, bp.bridges);
    AttachedNames(cfg, db, bp, Attached(db.lbs, bp.name, bp.mac, Elems(bp.bridges)), bpIndex);
  }

  lemma AttachedNames(cfg: Config, db: DB, bp: BridgePort, lbs: map<string, LogicalBridge>,
                      bpIndex: Option<set<string>>)
    requires NamesOk(cfg, db) && IndexOk(db) && Follows(bp.status, cfg.port)
    requires lbs.Keys == db.lbs.Keys && forall b :: b in lbs ==> lbs[b].name == b && Follows(lbs[b].status, cfg.bridge)
    requires Members(bpIndex) == Members(db.bpIndex) + {bp.name}
    ensures var db' := db.(lbs := lbs, bps := db.bps[bp.name := bp], bpIndex := bpIndex);
      NamesOk(cfg, db') && IndexOk(db')
  {}

  lemma {:induction false} RefusedBP(cfg: Config, db: DB, bp: BridgePort, order: seq<string>)
    requires Integrity(cfg, db)
    requires CreateBP(cfg, db, bp, order).1.Failed?
    ensures var bridges := AllBridges(bp, order);
      Integrity(cfg, CreateBP(cfg, db, bp, order).0) <==>
        || cfg.port == [] || (bp.trunk && db.lbIndex.None?)
        || bridges == [] || !Fits(db.lbs, bp.name, bp.mac, bridges[0])
  {
    var db' := CreateBP(cfg, db, bp, order).0;
    var bridges := AllBridges(bp, order);
    if cfg.port != [] && !(bp.trunk && db.lbIndex.None?) {
      var k := AttachAllExact(db.lbs, bp.name, bp.mac, bridges);
      if k == 0 {
        assert db'.lbs == db.lbs;
      } else {
        assert bridges[0] in bridges[..k];
        assert bp.name in db'.lbs[bridges[0]].ports;
        assert bp.name in db.bps ==> PortOk(db.lbs, bp.name, db.bps[bp.name]);
        assert !BridgeOk(db'.bps, bridges[0], db'.lbs[bridges[0]]);
      }
    }
  }

  lemma DoomedAttached(lbs: map<string, LogicalBridge>, vrfs: map<string, Vrf>, bp: BridgePort, bridges: seq<string>)
    requires DoomedUnreferenced(lbs, vrfs) && forall i :: 0 <= i < |bridges| ==> bridges[i] in lbs
    ensures DoomedUnreferenced(Attached(lbs, bp.name, bp.mac, Elems(bridges)), vrfs) <==> NoneDoomed(lbs, bridges)
  {
    var lbs' := Attached(lbs, bp.name, bp.mac, Elems(bridges));
    if DoomedUnreferenced(lbs', vrfs) {
      forall i | 0 <= i < |bridges| ensures lbs[bridges[i]].status.oper != ToBeDeleted {
        assert bp.name in lbs'[bridges[i]].ports;
      }
    }
  }

  // ---------------------------------------------------------------------
  // Reports on ports
  // ---------------------------------------------------------------------

  lemma DetachedKeepsPorts(lbs: map<string, LogicalBridge>, bps: map<string, BridgePort>, p: string)
    requires PortsOk(lbs, bps) && p in bps
    ensures PortsOk(Detached(lbs, p, bps[p].mac, Elems(bps[p].bridges)), bps - {p})
  {
    var lbs' := Detached(lbs, p, bps[p].mac, Elems(bps[p].bridges));
    assert PortOk(lbs, p, bps[p]);
    forall q | q in bps - {p} ensures PortOk(lbs', q, bps[q]) {
      assert PortOk(lbs, q, bps[q]);
      forall i | 0 <= i < |bps[q].bridges| ensures Lists(lbs'[bps[q].bridges[i]], q, bps[q].mac) {
        assert Lists(lbs[bps[q].bridges[i]], q, bps[q].mac);
        if bps[q].bridges[i] in bps[p].bridges {
          assert Lists(lbs[bps[q].bridges[i]], p, bps[p].mac);
        }
      }
    }
    forall b | b in lbs' ensures BridgeOk(bps - {p}, b, lbs'[b]) {
      assert BridgeOk(bps, b, lbs[b]);
    }
  }

  lemma DetachedKeepsRest(cfg: Config, db: DB, port: string, mac: string, on: set<string>)
    requires Integrity(cfg, db)
    ensures var lbs' := Detached(db.lbs, port, mac, on);
      && VniOk(lbs', db.vrfs, db.vpns) && SvisOk(lbs', db.vrfs, db.svis) && DoomedUnreferenced(lbs', db.vrfs)
      && forall b :: b in lbs' ==> lbs'[b].name == b && Follows(lbs'[b].status, cfg.bridge)
  {
    var lbs' := Detached(db.lbs, port, mac, on);
    SameHolders(db.lbs, db.vrfs, lbs', db.vrfs, db.vpns);
    SvisIgnoreRest(db.lbs, lbs', db.vrfs, db.svis);
    forall b | b in lbs' && lbs'[b].status.oper == ToBeDeleted ensures Unreferenced(lbs'[b]) {
      assert Unreferenced(db.lbs[b]);
    }
  }

  /** The removal of a port never meets its "not associated" error, and keeps integrity. */
  lemma {:induction false} RemoveBPNeverFails(cfg: Config, db: DB, p: string)
    requires Integrity(cfg, db) && p in db.bps
    ensures var bp := db.bps[p];
      && RemoveBP(db, bp) == (db.(lbs := Detached(db.lbs, p, bp.mac, Elems(bp.bridges)),
                                  bps := db.bps - {p},
                                  bpIndex := Some(Members(db.bpIndex) - {p})), Done)
      && Integrity(cfg, RemoveBP(db, bp).0)
  {
    var bp := db.bps[p];
    assert PortOk(db.lbs, p, bp);
    DetachAllExact(db.lbs, p, bp.mac, bp.bridges);
    DetachedKeepsPorts(db.lbs, db.bps, p);
    DetachedKeepsRest(cfg, db, p, bp.mac, Elems(bp.bridges));
  }

  lemma {:induction false} UpdateBPStatusKeeps(cfg: Config, db: DB, name: string, version: int, comp: Component)
    requires Integrity(cfg, db)
    ensures UpdateBPStatus(db, name, version, comp).1.Done?
    ensures Integrity(cfg, UpdateBPStatus(db, name, version, comp).0)
  {
    if name in db.bps && Judge(true, db.bps[name].status.version, version, comp).Counts? {
      var after := AfterReport(db.bps[name].status, comp);
      if after.Some? {
        ReportFollows(db.bps[name].status, cfg.port, comp);
        BPStatusKeeps(cfg, db, name, after.value);
      } else {
        RemoveBPNeverFails(cfg, db, name);
      }
    }
  }

  // ---------------------------------------------------------------------
  // Creating an SVI
  // ---------------------------------------------------------------------

  ghost function Linked(db: DB, svi: Svi): DB
    requires svi.vrf in db.vrfs && svi.bridge in db.lbs
  {
    db.(vrfs := db.vrfs[svi.vrf := db.vrfs[svi.vrf].(svis := db.vrfs[svi.vrf].svis + {svi.name})],
        lbs := db.lbs[svi.bridge := db.lbs[svi.bridge].(svi := svi.name)],
        svis := db.svis[svi.name := svi],
        sviIndex := Some(Members(db.sviIndex) + {svi.name}))
  }

  ghost predicate Links(db: DB, svi: Svi) {
    && svi.vrf in db.vrfs && svi.bridge in db.lbs
    && svi.name !in db.vrfs[svi.vrf].svis && db.lbs[svi.bridge].svi == ""
  }

  lemma CreateSviStores(cfg: Config, db: DB, svi: Svi)
    requires Integrity(cfg, db)
    ensures CreateSvi(cfg, db, svi).1.Done? <==> cfg.svi != [] && Links(db, svi)
    ensures CreateSvi(cfg, db, svi).1.Done? ==> CreateSvi(cfg, db, svi).0 == Linked(db, svi)
  {}

  lemma LinkedKeepsSvis(lbs: map<string, LogicalBridge>, vrfs: map<string, Vrf>, svis: map<string, Svi>,
                        lbs': map<string, LogicalBridge>, vrfs': map<string, Vrf>, svi: Svi)
    requires SvisOk(lbs, vrfs, svis) && svi.name !in svis && svi.name != ""
    requires svi.vrf in vrfs && svi.bridge in lbs && lbs[svi.bridge].svi == ""
    requires vrfs' == vrfs[svi.vrf := vrfs[svi.vrf].(svis := vrfs[svi.vrf].svis + {svi.name})]
    requires lbs' == lbs[svi.bridge := lbs[svi.bridge].(svi := svi.name)]
    ensures SvisOk(lbs', vrfs', svis[svi.name := svi])
  {}

  /** Bridges that agree on VLAN, ports and MAC tables. */
  ghost predicate SamePorts(lbs: map<string, LogicalBridge>, lbs': map<string, LogicalBridge>) {
    lbs'.Keys == lbs.Keys && forall b :: b in lbs ==>
      lbs'[b].vlan == lbs[b].vlan && lbs'[b].ports == lbs[b].ports && lbs'[b].macs == lbs[b].macs
  }

  lemma PortsIgnoreRest(lbs: map<string, LogicalBridge>, lbs': map<string, LogicalBridge>, bps: map<string, BridgePort>)
    requires PortsOk(lbs, bps) && SamePorts(lbs, lbs')
    ensures PortsOk(lbs', bps)
  {
    forall p | p in bps ensures PortOk(lbs', p, bps[p]) {
      assert PortOk(lbs, p, bps[p]);
      forall i | 0 <= i < |bps[p].bridges| ensures Lists(lbs'[bps[p].bridges[i]], p, bps[p].mac) {
        assert Lists(lbs[bps[p].bridges[i]], p, bps[p].mac);
      }
    }
    forall b | b in lbs' ensures BridgeOk(bps, b, lbs'[b]) {
      assert BridgeOk(bps, b, lbs[b]);
    }
  }

  /** A failure after the VRF was written leaves a stray reference in it. */
  ghost predicate LeavesStraySvi(cfg: Config, db: DB, svi: Svi) {
    && cfg.svi != [] && svi.vrf in db.vrfs && svi.bridge in db.lbs
    && svi.name !in db.vrfs[svi.vrf].svis && db.lbs[svi.bridge].svi != ""
  }

  /**
   Creating an SVI. A success keeps integrity exactly when its name is free (and not empty) and neither
   parent is about to be deleted; a failure exactly when the bridge was not occupied.
   */
  lemma CreateSviKeepsIff(cfg: Config, db: DB, svi: Svi)
    requires Integrity(cfg, db) && BornSvi(cfg, svi)
    ensures var (db', out) := CreateSvi(cfg, db, svi);
      && (out.Done? ==>
          (Integrity(cfg, db') <==>
            && svi.name != "" && svi.name !in db.svis
            && db.vrfs[svi.vrf].status.oper != ToBeDeleted
            && db.lbs[svi.bridge].status.oper != ToBeDeleted))
      && (out.Failed? ==> (Integrity(cfg, db') <==> !LeavesStraySvi(cfg, db, svi)))
  {
    if CreateSvi(cfg, db, svi).1.Done? {
      CreateSviStores(cfg, db, svi);
      LinkedKeepsIff(cfg, db, Linked(db, svi), svi);
    } else if LeavesStraySvi(cfg, db, svi) {
      StraySvi(cfg, db, svi);
    }
  }

  lemma {:induction false} StraySvi(cfg: Config, db: DB, svi: Svi)
    requires Integrity(cfg, db) && LeavesStraySvi(cfg, db, svi)
    ensures !Integrity(cfg, CreateSvi(cfg, db, svi).0)
  {
    StrayBreaks(db.lbs, db.vrfs, db.svis, CreateSvi(cfg, db, svi).0.vrfs, svi.vrf, svi.name);
  }

  lemma StrayBreaks(lbs: map<string, LogicalBridge>, vrfs: map<string, Vrf>, svis: map<string, Svi>,
                    vrfs': map<string, Vrf>, r: string, v: string)
    requires SvisOk(lbs, vrfs, svis)
    requires r in vrfs && v !in vrfs[r].svis && r in vrfs' && v in vrfs'[r].svis
    ensures !SvisOk(lbs, vrfs', svis)
  {
    assert !(v in svis && svis[v].vrf == r);
  }

  lemma LinkedKeepsIff(cfg: Config, db: DB, db': DB, svi: Svi)
    requires Integrity(cfg, db) && Follows(svi.status, cfg.svi)
    requires Links(db, svi) && db' == Linked(db, svi)
    ensures Integrity(cfg, db') <==>
      && svi.name != "" && svi.name !in db.svis
      && db.vrfs[svi.vrf].status.oper != ToBeDeleted
      && db.lbs[svi.bridge].status.oper != ToBeDeleted
  {
    if svi.name == "" {
      assert !SvisOk(db'.lbs, db'.vrfs, db'.svis) by {
        assert "" in db'.svis;
      }
    } else if svi.name in db.svis {
      TakenBreaks(db.lbs, db.vrfs, db.svis, db'.lbs, db'.vrfs, svi);
    } else {
      LinkedKeepsSvis(db.lbs, db.vrfs, db.svis, db'.lbs, db'.vrfs, svi);
      DoomedLinked(db.lbs, db.vrfs, db'.lbs, db'.vrfs, svi);
      LinkedKeepsRest(db, db', svi);
      LinkedKeepsNames(cfg, db, db', svi);
    }
  }

  lemma LinkedKeepsNames(cfg: Config, db: DB, db': DB, svi: Svi)
    requires NamesOk(cfg, db) && IndexOk(db) && Follows(svi.status, cfg.svi)
    requires Links(db, svi) && db' == Linked(db, svi)
    ensures NamesOk(cfg, db') && IndexOk(db')
  {}

  /** The SVI that had the name loses its VRF. */
  lemma TakenBreaks(lbs: map<string, LogicalBridge>, vrfs: map<string, Vrf>, svis: map<string, Svi>,
                    lbs': map<string, LogicalBridge>, vrfs': map<string, Vrf>, svi: Svi)
    requires SvisOk(lbs, vrfs, svis) && svi.name in svis
    requires svi.vrf in vrfs && svi.name !in vrfs[svi.vrf].svis
    requires vrfs' == vrfs[svi.vrf := vrfs[svi.vrf].(svis := vrfs[svi.vrf].svis + {svi.name})]
    ensures !SvisOk(lbs', vrfs', svis[svi.name := svi])
  {
    var r := svis[svi.name].vrf;
    assert svi.name in vrfs[r].svis && r != svi.vrf;
    assert svi.name in vrfs'[r].svis && svis[svi.name := svi][svi.name].vrf != r;
  }

  lemma LinkedKeepsRest(db: DB, db': DB, svi: Svi)
    requires PortsOk(db.lbs, db.bps) && VniOk(db.lbs, db.vrfs, db.vpns)
    requires Links(db, svi) && db' == Linked(db, svi)
    ensures PortsOk(db'.lbs, db'.bps) && VniOk(db'.lbs, db'.vrfs, db'.vpns)
  {
    PortsIgnoreRest(db.lbs, db'.lbs, db.bps);
    SameHolders(db.lbs, db.vrfs, db'.lbs, db'.vrfs, db.vpns);
  }

  lemma DoomedLinked(lbs: map<string, LogicalBridge>, vrfs: map<string, Vrf>,
                     lbs': map<string, LogicalBridge>, vrfs': map<string, Vrf>, svi: Svi)
    requires DoomedUnreferenced(lbs, vrfs) && svi.name != "" && svi.vrf in vrfs && svi.bridge in lbs
    requires vrfs' == vrfs[svi.vrf := vrfs[svi.vrf].(svis := vrfs[svi.vrf].svis + {svi.name})]
    requires lbs' == lbs[svi.bridge := lbs[svi.bridge].(svi := svi.name)]
    ensures DoomedUnreferenced(lbs', vrfs') <==>
      vrfs[svi.vrf].status.oper != ToBeDeleted && lbs[svi.bridge].status.oper != ToBeDeleted
  {
    assert svi.name in vrfs'[svi.vrf].svis && svi.vrf in vrfs';
    assert lbs'[svi.bridge].svi == svi.name && svi.bridge in lbs';
    if vrfs[svi.vrf].status.oper != ToBeDeleted && lbs[svi.bridge].status.oper != ToBeDeleted {
      forall b | b in lbs' && lbs'[b].status.oper == ToBeDeleted ensures Unreferenced(lbs'[b]) {
        assert lbs'[b] == lbs[b];
      }
      forall r | r in vrfs' && vrfs'[r].status.oper == ToBeDeleted ensures vrfs'[r].svis == {} {
        assert vrfs'[r] == vrfs[r];
      }
    }
  }

  // ---------------------------------------------------------------------
  // Reports on SVIs, bridges and VRFs
  // ---------------------------------------------------------------------

  ghost function Unlinked(db: DB, svi: Svi): DB
    requires svi.vrf in db.vrfs && svi.bridge in db.lbs
  {
    db.(vrfs := db.vrfs[svi.vrf := db.vrfs[svi.vrf].(svis := db.vrfs[svi.vrf].svis - {svi.name})],
        lbs := db.lbs[svi.bridge := db.lbs[svi.bridge].(svi := "")],
        svis := db.svis - {svi.name},
        sviIndex := Some(Members(db.sviIndex) - {svi.name}))
  }

  lemma UnlinkedKeepsSvis(lbs: map<string, LogicalBridge>, vrfs: map<string, Vrf>, svis: map<string, Svi>,
                          lbs': map<string, LogicalBridge>, vrfs': map<string, Vrf>, svi: Svi)
    requires SvisOk(lbs, vrfs, svis) && svi.name in svis && svis[svi.name] == svi
    requires svi.vrf in vrfs && svi.bridge in lbs
    requires vrfs' == vrfs[svi.vrf := vrfs[svi.vrf].(svis := vrfs[svi.vrf].svis - {svi.name})]
    requires lbs' == lbs[svi.bridge := lbs[svi.bridge].(svi := "")]
    ensures SvisOk(lbs', vrfs', svis - {svi.name})
  {}

  lemma UnlinkedKeepsRest(db: DB, db': DB, svi: Svi)
    requires PortsOk(db.lbs, db.bps) && VniOk(db.lbs, db.vrfs, db.vpns)
    requires svi.vrf in db.vrfs && svi.bridge in db.lbs && db' == Unlinked(db, svi)
    ensures PortsOk(db'.lbs, db'.bps) && VniOk(db'.lbs, db'.vrfs, db'.vpns)
  {
    PortsIgnoreRest(db.lbs, db'.lbs, db.bps);
    SameHolders(db.lbs, db.vrfs, db'.lbs, db'.vrfs, db.vpns);
  }

  lemma DoomedUnlinked(lbs: map<string, LogicalBridge>, vrfs: map<string, Vrf>,
                       lbs': map<string, LogicalBridge>, vrfs': map<string, Vrf>, svi: Svi)
    requires DoomedUnreferenced(lbs, vrfs) && svi.vrf in vrfs && svi.bridge in lbs
    requires vrfs' == vrfs[svi.vrf := vrfs[svi.vrf].(svis := vrfs[svi.vrf].svis - {svi.name})]
    requires lbs' == lbs[svi.bridge := lbs[svi.bridge].(svi := "")]
    ensures DoomedUnreferenced(lbs', vrfs')
  {
    forall b | b in lbs' && lbs'[b].status.oper == ToBeDeleted ensures Unreferenced(lbs'[b]) {
      assert Unreferenced(lbs[b]);
    }
  }

  /** The removal of an SVI never meets its "not associated" errors, and keeps integrity. */
  lemma {:induction false} RemoveSviNeverFails(cfg: Config, db: DB, v: string)
    requires Integrity(cfg, db) && v in db.svis
    ensures db.svis[v].vrf in db.vrfs && db.svis[v].bridge in db.lbs
    ensures RemoveSvi(db, db.svis[v]) == (Unlinked(db, db.svis[v]), Done)
    ensures Integrity(cfg, Unlinked(db, db.svis[v]))
  {
    RemoveSviUnlinks(cfg, db, v);
    UnlinkedHasIntegrity(cfg, db, v);
  }

  lemma RemoveSviUnlinks(cfg: Config, db: DB, v: string)
    requires NamesOk(cfg, db) && IndexOk(db) && SvisOk(db.lbs, db.vrfs, db.svis) && v in db.svis
    ensures db.svis[v].vrf in db.vrfs && db.svis[v].bridge in db.lbs
    ensures RemoveSvi(db, db.svis[v]) == (Unlinked(db, db.svis[v]), Done)
  {}

  lemma {:induction false} UnlinkedHasIntegrity(cfg: Config, db: DB, v: string)
    requires Integrity(cfg, db) && v in db.svis && db.svis[v].vrf in db.vrfs && db.svis[v].bridge in db.lbs
    ensures Integrity(cfg, Unlinked(db, db.svis[v]))
  {
    var svi := db.svis[v];
    var db' := Unlinked(db, svi);
    UnlinkedKeepsSvis(db.lbs, db.vrfs, db.svis, db'.lbs, db'.vrfs, svi);
    UnlinkedKeepsRest(db, db', svi);
    DoomedUnlinked(db.lbs, db.vrfs, db'.lbs, db'.vrfs, svi);
  }

  lemma {:induction false} UpdateSviStatusKeeps(cfg: Config, db: DB, name: string, version: int, comp: Component)
    requires Integrity(cfg, db)
    ensures UpdateSviStatus(db, name, version, comp).1.Done?
    ensures Integrity(cfg, UpdateSviStatus(db, name, version, comp).0)
  {
    if name in db.svis && Judge(true, db.svis[name].status.version, version, comp).Counts? {
      var after := AfterReport(db.svis[name].status, comp);
      if after.Some? {
        ReportFollows(db.svis[name].status, cfg.svi, comp);
        SviStatusKeeps(cfg, db, name, after.value);
      } else {
        RemoveSviNeverFails(cfg, db, name);
      }
    }
  }

  /** The VNI set once its only holder is gone. */
  ghost function WithoutVni(vpns: Option<set<int>>, vni: Option<int>): Option<set<int>> {
    if vni.Some? then Some(Members(vpns) - {vni.value}) else vpns
  }

  lemma VniReleased(lbs: map<string, LogicalBridge>, vrfs: map<string, Vrf>, vpns: Option<set<int>>,
                    lbs': map<string, LogicalBridge>, vrfs': map<string, Vrf>, k: Key, vni: Option<int>)
    requires VniOk(lbs, vrfs, vpns)
    requires forall j, n :: Holds(lbs', vrfs', j, n) <==> j != k && Holds(lbs, vrfs, j, n)
    requires forall n :: Holds(lbs, vrfs, k, n) <==> vni == Some(n)
    ensures VniOk(lbs', vrfs', WithoutVni(vpns, vni))
    ensures RemoveVni(vpns, vni) == (WithoutVni(vpns, vni), Done)
  {
    if vni.Some? {
      assert Holds(lbs, vrfs, k, vni.value);
    }
    forall n | n in Members(WithoutVni(vpns, vni)) ensures exists j :: Holds(lbs', vrfs', j, n) {
      var j :| Holds(lbs, vrfs, j, n);
      assert Holds(lbs', vrfs', j, n);
    }
    forall j, n | Holds(lbs', vrfs', j, n) ensures n in Members(WithoutVni(vpns, vni)) {
      assert Holds(lbs, vrfs, j, n);
    }
  }

  /** An unreferenced bridge goes without an error, and its VNI with it. */
  lemma RemoveLBNeverFails(cfg: Config, db: DB, b: string)
    requires Integrity(cfg, db) && b in db.lbs && Unreferenced(db.lbs[b])
    ensures RemoveLB(db, db.lbs[b]) ==
      (db.(lbs := db.lbs - {b}, vpns := WithoutVni(db.vpns, db.lbs[b].vni),
           lbIndex := Some(Members(db.lbIndex) - {b})), Done)
    ensures Integrity(cfg, RemoveLB(db, db.lbs[b]).0)
  {
    VniReleased(db.lbs, db.vrfs, db.vpns, db.lbs - {b}, db.vrfs, Key(BridgeKind, b), db.lbs[b].vni);
    RemovedLBPorts(db.lbs, db.bps, b);
    RemovedLBSvis(db.lbs, db.vrfs, db.svis, b);
  }

  lemma RemovedLBSvis(lbs: map<string, LogicalBridge>, vrfs: map<string, Vrf>, svis: map<string, Svi>, b: string)
    requires SvisOk(lbs, vrfs, svis) && b in lbs && lbs[b].svi == "" && DoomedUnreferenced(lbs, vrfs)
    ensures SvisOk(lbs - {b}, vrfs, svis) && DoomedUnreferenced(lbs - {b}, vrfs)
  {}

  lemma RemovedLBPorts(lbs: map<string, LogicalBridge>, bps: map<string, BridgePort>, b: string)
    requires PortsOk(lbs, bps) && b in lbs && Unreferenced(lbs[b])
    ensures PortsOk(lbs - {b}, bps)
  {
    forall p | p in bps ensures PortOk(lbs - {b}, p, bps[p]) {
      assert PortOk(lbs, p, bps[p]);
      forall i | 0 <= i < |bps[p].bridges| ensures bps[p].bridges[i] != b {
        assert Lists(lbs[bps[p].bridges[i]], p, bps[p].mac);
      }
    }
  }

  lemma RemoveVrfNeverFails(cfg: Config, db: DB, r: string)
    requires Integrity(cfg, db) && r in db.vrfs && db.vrfs[r].svis == {}
    ensures RemoveVrf(db, db.vrfs[r]) ==
      (db.(vrfs := db.vrfs - {r}, vpns := WithoutVni(db.vpns, db.vrfs[r].vni),
           vrfIndex := Some(Members(db.vrfIndex) - {r})), Done)
    ensures Integrity(cfg, RemoveVrf(db, db.vrfs[r]).0)
  {
    VniReleased(db.lbs, db.vrfs, db.vpns, db.lbs, db.vrfs - {r}, Key(VrfKind, r), db.vrfs[r].vni);
    RemovedVrfSvis(db.lbs, db.vrfs, db.svis, r);
  }

  lemma RemovedVrfSvis(lbs: map<string, LogicalBridge>, vrfs: map<string, Vrf>, svis: map<string, Svi>, r: string)
    requires SvisOk(lbs, vrfs, svis) && r in vrfs && vrfs[r].svis == {} && DoomedUnreferenced(lbs, vrfs)
    ensures SvisOk(lbs, vrfs - {r}, svis) && DoomedUnreferenced(lbs, vrfs - {r})
  {}

  lemma UpdateLBStatusKeeps(cfg: Config, db: DB, name: string, version: int, comp: Component)
    requires Integrity(cfg, db)
    ensures UpdateLBStatus(db, name, version, comp).1.Done?
    ensures Integrity(cfg, UpdateLBStatus(db, name, version, comp).0)
  {
    if name in db.lbs && Judge(true, db.lbs[name].status.version, version, comp).Counts? {
      var after := AfterReport(db.lbs[name].status, comp);
      if after.Some? {
        ReportFollows(db.lbs[name].status, cfg.bridge, comp);
        LBStatusKeeps(cfg, db, name, after.value);
      } else {
        RemoveLBNeverFails(cfg, db, name);
      }
    }
  }

  lemma UpdateVrfStatusKeeps(cfg: Config, db: DB, name: string, version: int, comp: Component)
    requires Integrity(cfg, db)
    ensures UpdateVrfStatus(db, name, version, comp).1.Done?
    ensures Integrity(cfg, UpdateVrfStatus(db, name, version, comp).0)
  {
    if name in db.vrfs && Judge(true, db.vrfs[name].status.version, version, comp).Counts? {
      var after := AfterReport(db.vrfs[name].status, comp);
      if after.Some? {
        ReportFollows(db.vrfs[name].status, cfg.vrf, comp);
        VrfStatusKeeps(cfg, db, name, after.value);
      } else {
        RemoveVrfNeverFails(cfg, db, name);
      }
    }
  }
}
