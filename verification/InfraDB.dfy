/**
 InfraDB as the code has it: one store that the operations read, change and write back
 under a lock. Objects are fetched as working copies, changed in place and saved. Every
 operation is shown to do what `Store` says it does.
 */
module InfraDB {
  import opened Basics
  import opened Intents
  import opened Store
  import opened StoreIntegrity
  import opened StoreReferences
  import opened StoreView
  import TaskManager
  import Protocol

  /** The working copy of a logical bridge (bridge.go). */
  class Bridge {
    var data: LogicalBridge

    constructor (lb: LogicalBridge)
      ensures data == lb
    {
      data := lb;
    }

    method AddSvi(svi: string) returns (ok: bool)
      modifies this
      ensures (if ok then Some(data) else None) == AddSviToBridge(old(data), svi) && (!ok ==> data == old(data))
    {
      if data.svi != "" {
        return false;
      }
      data := data.(svi := svi);
      return true;
    }

    method DeleteSvi(svi: string) returns (ok: bool)
      modifies this
      ensures (if ok then Some(data) else None) == DropSviFromBridge(old(data), svi) && (!ok ==> data == old(data))
    {
      if data.svi != svi {
        return false;
      }
      data := data.(svi := "");
      return true;
    }

    method AddBridgePort(port: string, mac: string) returns (ok: bool)
      modifies this
      ensures (if ok then Some(data) else None) == AddPort(old(data), port, mac) && (!ok ==> data == old(data))
    {
      if port in data.ports {
        return false;
      }
      if mac in data.macs {
        return false;
      }
      data := data.(ports := data.ports + {port});
      data := data.(macs := data.macs[mac := port]);
      return true;
    }

    method DeleteBridgePort(port: string, mac: string) returns (ok: bool)
      modifies this
      ensures (if ok then Some(data) else None) == DropPort(old(data), port, mac) && (!ok ==> data == old(data))
    {
      if port !in data.ports {
        return false;
      }
      if mac !in data.macs {
        return false;
      }
      data := data.(ports := data.ports - {port});
      data := data.(macs := data.macs - {mac});
      return true;
    }
  }

  /** The working copy of a VRF (vrf.go). */
  class VrfCopy {
    var data: Vrf

    constructor (vrf: Vrf)
      ensures data == vrf
    {
      data := vrf;
    }

    method AddSvi(svi: string) returns (ok: bool)
      modifies this
      ensures (if ok then Some(data) else None) == AddSviToVrf(old(data), svi) && (!ok ==> data == old(data))
    {
      if svi in data.svis {
        return false;
      }
      data := data.(svis := data.svis + {svi});
      return true;
    }

    method DeleteSvi(svi: string) returns (ok: bool)
      modifies this
      ensures (if ok then Some(data) else None) == DropSviFromVrf(old(data), svi) && (!ok ==> data == old(data))
    {
      if svi !in data.svis {
        return false;
      }
      data := data.(svis := data.svis - {svi});
      return true;
    }
  }

  /** A walk over a map: every key once, in an order nobody can rely on. */
  method Walk<T(==)>(keys: set<T>) returns (order: seq<T>)
    ensures NoDup(order) && forall k :: k in order <==> k in keys
  {
    order := [];
    var left := keys;
    while left != {}
      invariant left <= keys && NoDup(order) && forall k :: k in order <==> k in keys - left
      decreases |left|
    {
      var k :| k in left;
      assert k !in order;
      order := order + [k];
      left := left - {k};
    }
  }

  /** What setting a component and checking for success makes of a stored status. */
  method ApplyReport(x: Intent, comp: Component) returns (after: Option<Intent>)
    ensures after == AfterReport(x, comp)
    ensures after.None? <==> x.oper == ToBeDeleted && AllSuccess(SetComponent(x.comps, comp))
    ensures after.Some? ==> after.value.version == x.version && after.value.comps == SetComponent(x.comps, comp)
    ensures after.Some? ==> after.value.oper == if AllSuccess(after.value.comps) then Up else x.oper
  {
    var status := new Status(x);
    status.SetComponentState(comp);
    var all := status.CheckForAllSuccess();
    if all {
      if status.oper == ToBeDeleted {
        return None;
      }
      status.oper := Up;
    }
    return Some(status.Value());
  }

  method ApplyDeletion(x: Intent, subs: seq<string>, version: int) returns (y: Intent)
    requires |subs| <= |x.comps|
    ensures y == MarkStatus(x, subs, version)
  {
    var status := new Status(x);
    status.MarkToBeDeleted(|subs|, version);
    return status.Value();
  }

  // ---------------------------------------------------------------------
  // New objects; they are refused while no module is subscribed to their kind
  // ---------------------------------------------------------------------

  method NewComponents(subs: seq<string>) returns (comps: seq<Component>)
    ensures forall version :: NewIntent(subs, version).comps == comps
    ensures |comps| == |subs|
    ensures forall i :: 0 <= i < |subs| ==> comps[i] == Component(subs[i], Pending, "", 0, false)
  {
    comps := [];
    for i := 0 to |subs|
      invariant |comps| == i && forall j :: 0 <= j < i ==> comps[j] == Fresh(subs[j])
    {
      comps := comps + [Fresh(subs[i])];
    }
  }

  method NewLogicalBridge(cfg: Config, name: string, vlan: int, vni: Option<int>, version: int)
    returns (lb: Option<LogicalBridge>)
    ensures lb.Some? <==> cfg.bridge != []
    ensures lb.Some? ==> lb.value.name == name && lb.value.vlan == vlan && lb.value.vni == vni
    ensures lb.Some? ==> lb.value.status == NewIntent(cfg.bridge, version)
    ensures lb.Some? && NoDup(cfg.bridge) ==> BornLB(cfg, lb.value)
  {
    if cfg.bridge == [] {
      return None;
    }
    var comps := NewComponents(cfg.bridge);
    assert NewIntent(cfg.bridge, version).comps == comps;
    return Some(LogicalBridge(name, vlan, vni, "", {}, map[], Intent(version, Down, comps)));
  }

  method NewVrf(cfg: Config, name: string, vni: Option<int>, version: int) returns (vrf: Option<Vrf>)
    ensures vrf.Some? <==> cfg.vrf != []
    ensures vrf.Some? ==> vrf.value.name == name && vrf.value.vni == vni
    ensures vrf.Some? ==> vrf.value.status == NewIntent(cfg.vrf, version)
    ensures vrf.Some? && NoDup(cfg.vrf) ==> BornVrf(cfg, vrf.value)
  {
    if cfg.vrf == [] {
      return None;
    }
    var comps := NewComponents(cfg.vrf);
    assert NewIntent(cfg.vrf, version).comps == comps;
    return Some(Vrf(name, vni, {}, Intent(version, Down, comps)));
  }

  /** A port that names no bridge is a transparent trunk: CreateBP will put it on all of them. */
  method NewBridgePort(cfg: Config, name: string, mac: string, bridges: seq<string>, version: int)
    returns (bp: Option<BridgePort>)
    ensures bp.Some? <==> cfg.port != []
    ensures bp.Some? ==> bp.value.name == name && bp.value.mac == mac && bp.value.bridges == bridges
    ensures bp.Some? ==> bp.value.status == NewIntent(cfg.port, version)
    ensures bp.Some? && NoDup(cfg.port) ==> BornBP(cfg, bp.value)
  {
    if cfg.port == [] {
      return None;
    }
    var comps := NewComponents(cfg.port);
    assert NewIntent(cfg.port, version).comps == comps;
    return Some(BridgePort(name, mac, bridges, |bridges| == 0, [], Intent(version, Down, comps)));
  }

  method NewSvi(cfg: Config, name: string, vrf: string, bridge: string, version: int) returns (svi: Option<Svi>)
    ensures svi.Some? <==> cfg.svi != []
    ensures svi.Some? ==> svi.value.name == name && svi.value.vrf == vrf && svi.value.bridge == bridge
    ensures svi.Some? ==> svi.value.status == NewIntent(cfg.svi, version)
    ensures svi.Some? && NoDup(cfg.svi) ==> BornSvi(cfg, svi.value)
  {
    if cfg.svi == [] {
      return None;
    }
    var comps := NewComponents(cfg.svi);
    assert NewIntent(cfg.svi, version).comps == comps;
    return Some(Svi(name, vrf, bridge, Intent(version, Down, comps)));
  }

  function IndexIn(db: DB, kind: Kind): Option<set<string>> {
    match kind
    case BridgeKind => db.lbIndex
    case PortKind => db.bpIndex
    case VrfKind => db.vrfIndex
    case SviKind => db.sviIndex
  }

  class Db {
    const cfg: Config
    var db: DB

    constructor (cfg: Config)
      ensures this.cfg == cfg && db == EmptyDB
    {
      this.cfg := cfg;
      db := EmptyDB;
    }

    // ---------------------------------------------------------------------
    // Creation
    // ---------------------------------------------------------------------

    method CreateLB(lb: LogicalBridge) returns (out: Outcome)
      modifies this
      ensures (db, out) == Store.CreateLB(cfg, old(db), lb)
    {
      if cfg.bridge == [] {
        return Failed(NoSubscribers);
      }
      var vpns := db.vpns;
      if lb.vni.Some? {
        if vpns.None? {
          vpns := Some({lb.vni.value});
          assert Members(db.vpns) + {lb.vni.value} == {lb.vni.value};
        } else if lb.vni.value in vpns.value {
          return Failed(VniInUse);
        } else {
          vpns := Some(vpns.value + {lb.vni.value});
        }
      }
      db := db.(lbs := db.lbs[lb.name := lb]);
      if lb.vni.Some? {
        db := db.(vpns := vpns);
      }
      db := db.(lbIndex := Some(Members(db.lbIndex) + {lb.name}));
      return Done;
    }

    method CreateVrf(vrf: Vrf) returns (out: Outcome)
      modifies this
      ensures (db, out) == Store.CreateVrf(cfg, old(db), vrf)
    {
      if cfg.vrf == [] {
        return Failed(NoSubscribers);
      }
      var vpns := db.vpns;
      if vrf.vni.Some? {
        if vpns.None? {
          vpns := Some({vrf.vni.value});
          assert Members(db.vpns) + {vrf.vni.value} == {vrf.vni.value};
        } else if vrf.vni.value in vpns.value {
          return Failed(VniInUse);
        } else {
          vpns := Some(vpns.value + {vrf.vni.value});
        }
      }
      db := db.(vrfs := db.vrfs[vrf.name := vrf]);
      if vrf.vni.Some? {
        db := db.(vpns := vpns);
      }
      db := db.(vrfIndex := Some(Members(db.vrfIndex) + {vrf.name}));
      return Done;
    }

    /** `order` is the walk over the bridge index that a transparent trunk makes. */
    method CreateBP(bp: BridgePort) returns (out: Outcome, ghost order: seq<string>)
      modifies this
      ensures WalksBridges(old(db), order)
      ensures (db, out) == Store.CreateBP(cfg, old(db), bp, order)
      ensures out.Done? ==>
        bp.name in db.bps && db.bps[bp.name].bridges == if bp.trunk then bp.bridges + order else bp.bridges
    {
      var names := Walk(Members(db.lbIndex));
      order := names;
      if cfg.port == [] {
        return Failed(NoSubscribers), order;
      }
      var bridges := bp.bridges;
      if bp.trunk {
        if db.lbIndex.None? {
          return Failed(KeyNotFound), order;
        }
        bridges := bridges + names;
      }
      var vlans;
      out, vlans := AttachToBridges(bp.name, bp.mac, bridges);
      if out.Failed? {
        return;
      }
      db := db.(bps := db.bps[bp.name := bp.(bridges := bridges, vlans := bp.vlans + vlans)]);
      db := db.(bpIndex := Some(Members(db.bpIndex) + {bp.name}));
    }

    /** The loop of CreateBP; each bridge is saved before the next is fetched. */
    method AttachToBridges(port: string, mac: string, bridges: seq<string>) returns (out: Outcome, vlans: seq<int>)
      modifies this
      ensures db == old(db).(lbs := db.lbs)
      ensures (db.lbs, vlans, out) == AttachAll(old(db.lbs), port, mac, bridges)
    {
      vlans := [];
      ghost var end := AttachAll(db.lbs, port, mac, bridges);
      assert bridges[0..] == bridges && [] + end.1 == end.1;
      var i := 0;
      while i < |bridges|
        invariant 0 <= i <= |bridges|
        invariant db == old(db).(lbs := db.lbs)
        invariant var (lbs, more, rest) := AttachAll(db.lbs, port, mac, bridges[i..]);
          end == (lbs, vlans + more, rest)
      {
        assert bridges[i..][0] == bridges[i] && bridges[i..][1..] == bridges[i + 1..];
        if bridges[i] !in db.lbs {
          assert vlans + [] == vlans;
          return Failed(BridgeNotFound), vlans;
        }
        var lb := new Bridge(db.lbs[bridges[i]]);
        ghost var before := vlans;
        vlans := vlans + [lb.data.vlan];
        var ok := lb.AddBridgePort(port, mac);
        if !ok {
          return Failed(AlreadyAssociated), vlans;
        }
        ghost var more := AttachAll(db.lbs[lb.data.name := lb.data], port, mac, bridges[i + 1..]).1;
        assert before + ([lb.data.vlan] + more) == vlans + more;
        db := db.(lbs := db.lbs[lb.data.name := lb.data]);
        i := i + 1;
      }
      assert bridges[i..] == [] && vlans + [] == vlans;
      return Done, vlans;
    }

    method CreateSvi(svi: Svi) returns (out: Outcome)
      modifies this
      ensures (db, out) == Store.CreateSvi(cfg, old(db), svi)
    {
      if cfg.svi == [] {
        return Failed(NoSubscribers);
      }
      if svi.vrf !in db.vrfs {
        return Failed(VrfNotFound);
      }
      if svi.bridge !in db.lbs {
        return Failed(BridgeNotFound);
      }
      var vrf := new VrfCopy(db.vrfs[svi.vrf]);
      var lb := new Bridge(db.lbs[svi.bridge]);
      var ok := vrf.AddSvi(svi.name);
      if !ok {
        return Failed(AlreadyAssociated);
      }
      db := db.(vrfs := db.vrfs[vrf.data.name := vrf.data]);
      ok := lb.AddSvi(svi.name);
      if !ok {
        return Failed(AlreadyAssociated);
      }
      db := db.(lbs := db.lbs[lb.data.name := lb.data]);
      db := db.(svis := db.svis[svi.name := svi]);
      db := db.(sviIndex := Some(Members(db.sviIndex) + {svi.name}));
      return Done;
    }

    // ---------------------------------------------------------------------
    // Deletion requests
    // ---------------------------------------------------------------------

    /** Objects are stored with one component per subscriber; the loops rely on it. */
    method DeleteLB(name: string, version: int) returns (out: Outcome)
      requires name in db.lbs ==> |cfg.bridge| <= |db.lbs[name].status.comps|
      modifies this
      ensures (db, out) == Store.DeleteLB(cfg, old(db), name, version)
    {
      if cfg.bridge == [] {
        return Failed(NoSubscribers);
      }
      if name !in db.lbs {
        return Failed(KeyNotFound);
      }
      var lb := db.lbs[name];
      if lb.svi != "" {
        return Failed(BridgeNotEmpty);
      }
      if lb.ports != {} || lb.macs != map[] {
        return Failed(BridgeNotEmpty);
      }
      var status := ApplyDeletion(lb.status, cfg.bridge, version);
      db := db.(lbs := db.lbs[lb.name := lb.(status := status)]);
      return Done;
    }

    method DeleteVrf(name: string, version: int) returns (out: Outcome)
      requires name in db.vrfs ==> |cfg.vrf| <= |db.vrfs[name].status.comps|
      modifies this
      ensures (db, out) == Store.DeleteVrf(cfg, old(db), name, version)
    {
      if cfg.vrf == [] {
        return Failed(NoSubscribers);
      }
      if name !in db.vrfs {
        return Failed(KeyNotFound);
      }
      var vrf := db.vrfs[name];
      if vrf.svis != {} {
        return Failed(VrfNotEmpty);
      }
      var status := ApplyDeletion(vrf.status, cfg.vrf, version);
      db := db.(vrfs := db.vrfs[vrf.name := vrf.(status := status)]);
      return Done;
    }

    method DeleteBP(name: string, version: int) returns (out: Outcome)
      requires name in db.bps ==> |cfg.port| <= |db.bps[name].status.comps|
      modifies this
      ensures (db, out) == Store.DeleteBP(cfg, old(db), name, version)
    {
      if cfg.port == [] {
        return Failed(NoSubscribers);
      }
      if name !in db.bps {
        return Failed(KeyNotFound);
      }
      var bp := db.bps[name];
      var status := ApplyDeletion(bp.status, cfg.port, version);
      db := db.(bps := db.bps[bp.name := bp.(status := status)]);
      return Done;
    }

    method DeleteSvi(name: string, version: int) returns (out: Outcome)
      requires name in db.svis ==> |cfg.svi| <= |db.svis[name].status.comps|
      modifies this
      ensures (db, out) == Store.DeleteSvi(cfg, old(db), name, version)
    {
      if cfg.svi == [] {
        return Failed(NoSubscribers);
      }
      if name !in db.svis {
        return Failed(KeyNotFound);
      }
      var svi := db.svis[name];
      var status := ApplyDeletion(svi.status, cfg.svi, version);
      db := db.(svis := db.svis[svi.name := svi.(status := status)]);
      return Done;
    }

    // ---------------------------------------------------------------------
    // Reports
    // ---------------------------------------------------------------------

    method RemoveVniFromVpns(vni: int) returns (out: Outcome)
      modifies this
      ensures var (vpns, o) := RemoveVni(old(db.vpns), Some(vni)); db == old(db).(vpns := vpns) && out == o
      ensures out == if vni != 0 && old(db.vpns).None? then Failed(KeyNotFound) else Done
      ensures db == if vni != 0 && old(db.vpns).Some?
                    then old(db).(vpns := Some(old(db.vpns.value) - {vni})) else old(db)
    {
      if vni != 0 {
        if db.vpns.None? {
          return Failed(KeyNotFound);
        }
        db := db.(vpns := Some(db.vpns.value - {vni}));
      }
      return Done;
    }

    method UpdateLBStatus(name: string, version: int, comp: Component) returns (out: Outcome, verdict: Verdict)
      modifies this
      ensures (db, out, verdict) == Store.UpdateLBStatus(old(db), name, version, comp)
    {
      if name !in db.lbs {
        return Done, Stale;
      }
      var lb := db.lbs[name];
      if lb.status.version != version {
        return Done, Stale;
      }
      if comp.replay {
        return Done, AsksReplay;
      }
      var after := ApplyReport(lb.status, comp);
      verdict := Counts;
      if after.Some? {
        db := db.(lbs := db.lbs[lb.name := lb.(status := after.value)]);
        return Done, Counts;
      }
      db := db.(lbs := db.lbs - {lb.name});
      if lb.vni.Some? {
        out := RemoveVniFromVpns(lb.vni.value);
        if out.Failed? {
          return;
        }
      }
      if db.lbIndex.None? {
        return Failed(KeyNotFound), Counts;
      }
      db := db.(lbIndex := Some(db.lbIndex.value - {lb.name}));
      return Done, Counts;
    }

    method UpdateVrfStatus(name: string, version: int, comp: Component) returns (out: Outcome, verdict: Verdict)
      modifies this
      ensures (db, out, verdict) == Store.UpdateVrfStatus(old(db), name, version, comp)
    {
      if name !in db.vrfs {
        return Done, Stale;
      }
      var vrf := db.vrfs[name];
      if vrf.status.version != version {
        return Done, Stale;
      }
      if comp.replay {
        return Done, AsksReplay;
      }
      var after := ApplyReport(vrf.status, comp);
      verdict := Counts;
      if after.Some? {
        db := db.(vrfs := db.vrfs[vrf.name := vrf.(status := after.value)]);
        return Done, Counts;
      }
      db := db.(vrfs := db.vrfs - {vrf.name});
      if vrf.vni.Some? {
        out := RemoveVniFromVpns(vrf.vni.value);
        if out.Failed? {
          return;
        }
      }
      if db.vrfIndex.None? {
        return Failed(KeyNotFound), Counts;
      }
      db := db.(vrfIndex := Some(db.vrfIndex.value - {vrf.name}));
      return Done, Counts;
    }

    method UpdateBPStatus(name: string, version: int, comp: Component) returns (out: Outcome, verdict: Verdict)
      modifies this
      ensures (db, out, verdict) == Store.UpdateBPStatus(old(db), name, version, comp)
    {
      if name !in db.bps {
        return Done, Stale;
      }
      var bp := db.bps[name];
      if bp.status.version != version {
        return Done, Stale;
      }
      if comp.replay {
        return Done, AsksReplay;
      }
      var after := ApplyReport(bp.status, comp);
      if after.Some? {
        db := db.(bps := db.bps[bp.name := bp.(status := after.value)]);
        return Done, Counts;
      }
      ghost var end := DetachAll(db.lbs, bp.name, bp.mac, bp.bridges);
      var i := 0;
      while i < |bp.bridges|
        invariant 0 <= i <= |bp.bridges|
        invariant db == old(db).(lbs := db.lbs)
        invariant end == DetachAll(db.lbs, bp.name, bp.mac, bp.bridges[i..])
      {
        assert bp.bridges[i..][0] == bp.bridges[i] && bp.bridges[i..][1..] == bp.bridges[i + 1..];
        // A bridge that is missing is an empty one to the caller.
        if bp.bridges[i] !in db.lbs {
          return Failed(NotAssociated), Counts;
        }
        var lb := new Bridge(db.lbs[bp.bridges[i]]);
        var ok := lb.DeleteBridgePort(bp.name, bp.mac);
        if !ok {
          return Failed(NotAssociated), Counts;
        }
        db := db.(lbs := db.lbs[lb.data.name := lb.data]);
        i := i + 1;
      }
      db := db.(bps := db.bps - {bp.name});
      if db.bpIndex.None? {
        return Failed(KeyNotFound), Counts;
      }
      db := db.(bpIndex := Some(db.bpIndex.value - {bp.name}));
      return Done, Counts;
    }

    method UpdateSviStatus(name: string, version: int, comp: Component) returns (out: Outcome, verdict: Verdict)
      modifies this
      ensures (db, out, verdict) == Store.UpdateSviStatus(old(db), name, version, comp)
    {
      if name !in db.svis {
        return Done, Stale;
      }
      var svi := db.svis[name];
      if svi.status.version != version {
        return Done, Stale;
      }
      if comp.replay {
        return Done, AsksReplay;
      }
      var after := ApplyReport(svi.status, comp);
      if after.Some? {
        db := db.(svis := db.svis[svi.name := svi.(status := after.value)]);
        return Done, Counts;
      }
      if svi.vrf !in db.vrfs {
        return Failed(NotAssociated), Counts;
      }
      var vrf := new VrfCopy(db.vrfs[svi.vrf]);
      var ok := vrf.DeleteSvi(svi.name);
      if !ok {
        return Failed(NotAssociated), Counts;
      }
      db := db.(vrfs := db.vrfs[vrf.data.name := vrf.data]);
      if svi.bridge !in db.lbs {
        return Failed(NotAssociated), Counts;
      }
      var lb := new Bridge(db.lbs[svi.bridge]);
      ok := lb.DeleteSvi(svi.name);
      if !ok {
        return Failed(NotAssociated), Counts;
      }
      db := db.(lbs := db.lbs[lb.data.name := lb.data]);
      db := db.(svis := db.svis - {svi.name});
      if db.sviIndex.None? {
        return Failed(KeyNotFound), Counts;
      }
      db := db.(sviIndex := Some(db.sviIndex.value - {svi.name}));
      return Done, Counts;
    }

    // ---------------------------------------------------------------------
    // Listing and replaying
    // ---------------------------------------------------------------------

    /** GetAllLBs, GetAllBPs, GetAllVrfs, GetAllSvis: an index never stored and a missing object are errors. */
    method GetAll(kind: Kind) returns (keys: seq<Key>, out: Outcome)
      ensures out == Done || (out == Failed(KeyNotFound) && keys == [])
      ensures out.Done? <==>
        IndexIn(db, kind).Some? && forall n :: n in Members(IndexIn(db, kind)) ==> Stored(db, Key(kind, n))
      ensures out.Done? ==>
        NoDup(keys) && forall k :: k in keys <==> k.kind == kind && k.name in Members(IndexIn(db, kind))
    {
      keys := [];
      if IndexIn(db, kind).None? {
        return [], Failed(KeyNotFound);
      }
      var names := Walk(IndexIn(db, kind).value);
      for i := 0 to |names|
        invariant |keys| == i && forall j :: 0 <= j < i ==> keys[j] == Key(kind, names[j])
        invariant forall j :: 0 <= j < i ==> Stored(db, keys[j])
      {
        var key := Key(kind, names[i]);
        if !Stored(db, key) {
          assert names[i] in IndexIn(db, kind).value;
          return [], Failed(KeyNotFound);
        }
        keys := keys + [key];
      }
      forall n | n in IndexIn(db, kind).value ensures Key(kind, n) in keys && Stored(db, Key(kind, n)) {
        var j :| 0 <= j < |names| && names[j] == n;
        assert keys[j] == Key(kind, n);
      }
      return keys, Done;
    }

    /** The kinds whose subscribers include the component. */
    method GetObjectTypesToReplay(component: string) returns (kinds: seq<Kind>)
      ensures NoDup(kinds) && forall kind :: kind in kinds <==> component in cfg.Of(kind)
    {
      kinds := [];
      var all := Walk({VrfKind, BridgeKind, SviKind, PortKind});
      for j := 0 to |all|
        invariant NoDup(kinds)
        invariant forall kind :: kind in kinds <==> kind in all[..j] && component in cfg.Of(kind)
      {
        var subs := cfg.Of(all[j]);
        var i := 0;
        while i < |subs| && subs[i] != component
          invariant 0 <= i <= |subs| && component !in subs[..i]
        {
          i := i + 1;
        }
        if i < |subs| {
          kinds := kinds + [all[j]];
        }
      }
      forall kind: Kind ensures kind in all[..|all|] {
        assert kind.VrfKind? || kind.BridgeKind? || kind.SviKind? || kind.PortKind?;
        assert all[..|all|] == all;
      }
    }

    /**
     Every object the index maps list for a replayed kind is prepared, in some order, and a
     task made for it. Ports are gathered under one type name and matched under another, so
     no port is. A listed object that is missing stops the walk: the objects prepared so far
     stay prepared and no task is made.
     */
    method GatherObjectsAndSubsToReplay(component: string, version: int)
      returns (tasks: seq<TaskManager.Task>, out: Outcome, ghost order: seq<Key>)
      requires Fitting(cfg, db)
      modifies this
      ensures NoDup(order)
      ensures forall k :: k in order ==> Listed(old(db), k) && Protocol.Replayable(cfg, k.kind, component)
      ensures db == GatherAll(old(db), order, component, version)
      ensures out.Done? ==>
        && (forall k :: Listed(old(db), k) && Protocol.Replayable(cfg, k.kind, component) ==> k in order)
        && (forall k :: k in order ==> Stored(old(db), k))
        && tasks == Protocol.ReplayTasks(cfg, View(old(db)), order, component, version)
      ensures out.Failed? ==>
        && out.failure == KeyNotFound && tasks == []
        && order != [] && !Stored(old(db), order[|order| - 1])
        && forall i :: 0 <= i < |order| - 1 ==> Stored(old(db), order[i])
      ensures Integrity(cfg, old(db)) ==> out.Done? && Protocol.WalksReplayed(cfg, View(old(db)), component, order)
    {
      tasks, order := [], [];
      ghost var start := db;
      var kinds := GetObjectTypesToReplay(component);
      for j := 0 to |kinds|
        invariant Gathered(cfg, start, db, order, component, version, tasks) && SameIndexes(start, db)
        invariant forall k :: k in order <==> Listed(start, k) && k.kind in kinds[..j] && k.kind != PortKind
      {
        if kinds[j] != PortKind {
          tasks, out, order := GatherKind(kinds[j], component, version, tasks, start, order);
          if out.Failed? {
            IntegrityLists(cfg, start, order[|order| - 1]);
            return [], out, order;
          }
        }
      }
      out := Done;
      assert kinds[..|kinds|] == kinds;
      if Integrity(cfg, start) {
        forall k ensures k in order <==> k in View(start) && Protocol.Replayable(cfg, k.kind, component) {
          ViewAt(start, k);
          IntegrityLists(cfg, start, k);
        }
      }
    }

    /** One object: prepared, saved, and given a task. */
    method GatherOne(key: Key, component: string, version: int, sofar: seq<TaskManager.Task>,
                     ghost start: DB, ghost done: seq<Key>)
      returns (tasks: seq<TaskManager.Task>)
      requires Gathered(cfg, start, db, done, component, version, sofar) && Fitting(cfg, start)
      requires key !in done && Stored(start, key)
      modifies this
      ensures Gathered(cfg, start, db, done + [key], component, version, tasks)
      ensures SameIndexes(old(db), db)
    {
      OneMore(cfg, start, db, done, component, version, sofar, key);
      var task := PrepareForReplay(key, component, version + |sofar|, db);
      tasks := sofar + [task];
    }

    method PrepareForReplay(key: Key, component: string, version: int, ghost was: DB) returns (task: TaskManager.Task)
      requires was == db && Stored(was, key) && |StatusAt(was, key).comps| <= |cfg.Of(key.kind)|
      modifies this
      ensures db == WithStatus(was, key, Prepared(StatusAt(was, key), component, version))
      ensures SameIndexes(was, db)
      ensures task == TaskManager.NewTask(key, version,
                        PreparedSubs(StatusAt(was, key).comps, component, cfg.Of(key.kind)))
    {
      var status := new Status(StatusAt(db, key));
      var tempSubs := status.PrepareObjectsForReplay(component, cfg.Of(key.kind), version);
      db := WithStatus(db, key, status.Value());
      return TaskManager.NewTask(key, version, tempSubs);
    }

    /** The objects of one kind. */
    method GatherKind(kind: Kind, component: string, version: int, sofar: seq<TaskManager.Task>,
                      ghost start: DB, ghost done: seq<Key>)
      returns (tasks: seq<TaskManager.Task>, out: Outcome, ghost order: seq<Key>)
      requires Gathered(cfg, start, db, done, component, version, sofar) && SameIndexes(start, db)
      requires Fitting(cfg, start) && forall k :: k in done ==> k.kind != kind
      modifies this
      ensures out.Done? ==>
        && Gathered(cfg, start, db, order, component, version, tasks) && SameIndexes(start, db)
        && forall k :: k in order <==> k in done || (k.kind == kind && Listed(start, k))
      ensures out.Failed? ==>
        && out.failure == KeyNotFound && Stopped(start, db, order, component, version)
        && forall k :: k in order ==> k in done || (k.kind == kind && Listed(start, k))
    {
      tasks, order := sofar, done;
      var names := Walk(Members(IndexIn(db, kind)));
      assert forall i :: 0 <= i < |names| ==> names[i] in names;
      for i := 0 to |names|
        invariant Gathered(cfg, start, db, order, component, version, tasks) && SameIndexes(start, db)
        invariant order == done + KeysOn(kind, names[..i])
      {
        var key := Key(kind, names[i]);
        NewName(done, kind, names, i);
        if !Stored(db, key) {
          GatherStops(start, db, order, component, version, key);
          order := order + [key];
          KeysOnPrefix(start, done, kind, names, i + 1);
          return [], Failed(KeyNotFound), order;
        }
        GatherStores(start, order, component, version, key);
        tasks := GatherOne(key, component, version, tasks, start, order);
        order := order + [key];
      }
      assert names[..|names|] == names;
      KeysOnIndex(start, done, kind, names);
      out := Done;
    }
  }

  function KeysOn(kind: Kind, names: seq<string>): seq<Key> {
    seq(|names|, i requires 0 <= i < |names| => Key(kind, names[i]))
  }

  /** Every stored object has at most one component per subscriber of its kind. */
  ghost predicate Fitting(cfg: Config, db: DB) {
    forall k: Key {:trigger Stored(db, k)} :: Stored(db, k) ==> |StatusAt(db, k).comps| <= |cfg.Of(k.kind)|
  }

  ghost predicate Listed(db: DB, k: Key) {
    k.name in Members(IndexIn(db, k.kind))
  }

  ghost predicate SameIndexes(a: DB, b: DB) {
    forall kind :: IndexIn(a, kind) == IndexIn(b, kind)
  }

  lemma IntegrityLists(cfg: Config, db: DB, k: Key)
    ensures Integrity(cfg, db) ==> (Listed(db, k) <==> Stored(db, k))
  {}

  lemma KeysOnIndex(db: DB, done: seq<Key>, kind: Kind, names: seq<string>)
    requires forall n :: n in names <==> n in Members(IndexIn(db, kind))
    ensures forall k :: k in done + KeysOn(kind, names) <==> k in done || (k.kind == kind && Listed(db, k))
  {
    forall k: Key | k.kind == kind && Listed(db, k) ensures k in KeysOn(kind, names) {
      var i :| 0 <= i < |names| && names[i] == k.name;
      assert KeysOn(kind, names)[i] == k;
    }
  }

  lemma KeysOnPrefix(db: DB, done: seq<Key>, kind: Kind, names: seq<string>, n: nat)
    requires n <= |names| && forall i :: 0 <= i < |names| ==> names[i] in Members(IndexIn(db, kind))
    ensures forall k :: k in done + KeysOn(kind, names[..n]) ==> k in done || (k.kind == kind && Listed(db, k))
  {}

  lemma NewName(done: seq<Key>, kind: Kind, names: seq<string>, i: nat)
    requires NoDup(names) && i < |names| && forall k :: k in done ==> k.kind != kind
    ensures done + KeysOn(kind, names[..i]) + [Key(kind, names[i])] == done + KeysOn(kind, names[..i + 1])
    ensures Key(kind, names[i]) !in done + KeysOn(kind, names[..i])
  {
    var key := Key(kind, names[i]);
    assert KeysOn(kind, names[..i + 1]) == KeysOn(kind, names[..i]) + [key];
    forall j | 0 <= j < i ensures KeysOn(kind, names[..i])[j] != key {
      assert names[..i][j] == names[j] != names[i];
    }
  }

  /** A replay that met a missing object after all the others in `order`. */
  ghost predicate Stopped(start: DB, db: DB, order: seq<Key>, component: string, version: int) {
    && NoDup(order) && order != [] && !Stored(start, order[|order| - 1])
    && (forall i :: 0 <= i < |order| - 1 ==> Stored(start, order[i]))
    && db == GatherAll(start, order, component, version)
  }

  lemma {:induction false} GatherMissing(db: DB, order: seq<Key>, component: string, version: int, k: Key)
    requires !Stored(db, k)
    ensures GatherAll(db, order + [k], component, version) == GatherAll(db, order, component, version)
    decreases |order|
  {
    if order != [] && Stored(db, order[0]) {
      var x := Prepared(StatusAt(db, order[0]), component, version);
      WithStatusAt(db, order[0], x, k);
      assert (order + [k])[1..] == order[1..] + [k];
      GatherMissing(WithStatus(db, order[0], x), order[1..], component, version + 1, k);
    }
  }

  lemma GatherStops(start: DB, db: DB, order: seq<Key>, component: string, version: int, k: Key)
    requires NoDup(order) && (forall j :: j in order ==> Stored(start, j)) && k !in order
    requires db == GatherAll(start, order, component, version) && !Stored(db, k)
    ensures Stopped(start, db, order + [k], component, version)
  {
    GatherStores(start, order, component, version, k);
    GatherMissing(start, order, component, version, k);
  }

  /** A replay that has prepared the objects in `order` so far. */
  ghost predicate Gathered(cfg: Config, start: DB, db: DB, order: seq<Key>, component: string, version: int,
                           tasks: seq<TaskManager.Task>)
  {
    && NoDup(order) && (forall k :: k in order ==> Stored(start, k))
    && db == GatherAll(start, order, component, version)
    && tasks == Protocol.ReplayTasks(cfg, View(start), order, component, version)
  }

  lemma {:induction false} GatherStores(db: DB, order: seq<Key>, component: string, version: int, k: Key)
    ensures Stored(GatherAll(db, order, component, version), k) <==> Stored(db, k)
    ensures Stored(db, k) && k !in order ==>
      StatusAt(GatherAll(db, order, component, version), k) == StatusAt(db, k)
    decreases |order|
  {
    if order != [] && Stored(db, order[0]) {
      var x := Prepared(StatusAt(db, order[0]), component, version);
      GatherStores(WithStatus(db, order[0], x), order[1..], component, version + 1, k);
      WithStatusAt(db, order[0], x, k);
    }
  }

  lemma WithStatusAt(db: DB, j: Key, x: Intent, k: Key)
    requires Stored(db, j)
    ensures Stored(WithStatus(db, j, x), k) <==> Stored(db, k)
    ensures Stored(db, k) ==> StatusAt(WithStatus(db, j, x), k) == if k == j then x else StatusAt(db, k)
  {}

  lemma {:induction false} GatherAppends(db: DB, order: seq<Key>, component: string, version: int, k: Key)
    requires (forall j :: j in order ==> Stored(db, j)) && Stored(db, k) && NoDup(order) && k !in order
    ensures var g := GatherAll(db, order, component, version);
      && Stored(g, k)
      && GatherAll(db, order + [k], component, version) ==
           WithStatus(g, k, Prepared(StatusAt(g, k), component, version + |order|))
    decreases |order|
  {
    if order == [] {
      assert [k][1..] == [];
    } else {
      var x := Prepared(StatusAt(db, order[0]), component, version);
      var db' := WithStatus(db, order[0], x);
      assert (order + [k])[1..] == order[1..] + [k];
      forall j | j in order[1..] ensures Stored(db', j) {
        WithStatusAt(db, order[0], x, j);
      }
      WithStatusAt(db, order[0], x, k);
      GatherAppends(db', order[1..], component, version + 1, k);
    }
  }

  lemma {:induction false} TasksAppend(cfg: Config, store: map<Key, Intent>, order: seq<Key>, component: string,
                                       version: int, k: Key, x: Intent)
    requires (forall j :: j in order ==> j in store) && k in store && store[k] == x
    ensures |Protocol.ReplayTasks(cfg, store, order, component, version)| == |order|
    ensures Protocol.ReplayTasks(cfg, store, order + [k], component, version) ==
      Protocol.ReplayTasks(cfg, store, order, component, version)
      + [TaskManager.NewTask(k, version + |order|, PreparedSubs(x.comps, component, cfg.Of(k.kind)))]
    decreases |order|
  {
    if order == [] {
      assert [] + [k] == [k] && [k][1..] == [];
      assert Protocol.ReplayTasks(cfg, store, [], component, version + 1) == [];
    } else {
      assert (order + [k])[1..] == order[1..] + [k] && (order + [k])[0] == order[0];
      assert order[0] in order;
      TasksAppend(cfg, store, order[1..], component, version + 1, k, x);
    }
  }

  /** Preparing one more object. */
  lemma OneMore(cfg: Config, start: DB, db: DB, order: seq<Key>, component: string, version: int,
                tasks: seq<TaskManager.Task>, k: Key)
    requires Gathered(cfg, start, db, order, component, version, tasks) && k !in order && Stored(start, k)
    ensures Stored(db, k) && |tasks| == |order| && StatusAt(db, k) == StatusAt(start, k)
    ensures var x := StatusAt(db, k);
      Gathered(cfg, start, WithStatus(db, k, Prepared(x, component, version + |tasks|)), order + [k],
        component, version,
        tasks + [TaskManager.NewTask(k, version + |tasks|, PreparedSubs(x.comps, component, cfg.Of(k.kind)))])
  {
    GatherStores(start, order, component, version, k);
    GatherAppends(start, order, component, version, k);
    OneMoreTask(cfg, start, order, component, version, tasks, k);
  }

  lemma OneMoreTask(cfg: Config, start: DB, order: seq<Key>, component: string, version: int,
                    tasks: seq<TaskManager.Task>, k: Key)
    requires (forall j :: j in order ==> Stored(start, j)) && Stored(start, k)
    requires tasks == Protocol.ReplayTasks(cfg, View(start), order, component, version)
    ensures |tasks| == |order|
    ensures Protocol.ReplayTasks(cfg, View(start), order + [k], component, version) ==
      tasks + [TaskManager.NewTask(k, version + |tasks|,
                                   PreparedSubs(StatusAt(start, k).comps, component, cfg.Of(k.kind)))]
  {
    InViews(start, order);
    ViewAt(start, k);
    TasksAppend(cfg, View(start), order, component, version, k, StatusAt(start, k));
  }

  lemma InViews(db: DB, order: seq<Key>)
    requires forall k :: k in order ==> Stored(db, k)
    ensures forall k :: k in order ==> k in View(db) && View(db)[k] == StatusAt(db, k)
  {
    forall k | k in order ensures k in View(db) && View(db)[k] == StatusAt(db, k) {
      ViewAt(db, k);
    }
  }
}
