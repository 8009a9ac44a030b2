/**
 Creating an object, deleting it and having every module confirm the deletion leaves
 every other stored object exactly as it was.
 */
module RoundTrip {
  import opened Basics
  import opened Intents
  import opened Store
  import opened StoreIntegrity
  import opened StoreReferences
  import opened StoreRuns
  import opened StoreView
  import opened Events

  /** Reports on one object, on whatever version. */
  ghost predicate OnlyAbout(events: seq<Event>, k: Key) {
    forall i :: 0 <= i < |events| ==> events[i].Said? && events[i].word.key == k
  }

  lemma {:induction false} WithStatusTwice(db: DB, k: Key, x: Intent, y: Intent)
    requires Stored(db, k)
    ensures WithStatus(WithStatus(db, k, x), k, y) == WithStatus(db, k, y)
    ensures StatusAt(WithStatus(db, k, x), k) == x
  {
    var once, twice := WithStatus(db, k, x), WithStatus(db, k, y);
    match k.kind
    case BridgeKind => assert WithStatus(once, k, y).lbs == twice.lbs;
    case PortKind => assert WithStatus(once, k, y).bps == twice.bps;
    case VrfKind => assert WithStatus(once, k, y).vrfs == twice.vrfs;
    case SviKind => assert WithStatus(once, k, y).svis == twice.svis;
  }

  lemma {:induction false} SameStatus(db: DB, k: Key)
    requires Stored(db, k)
    ensures WithStatus(db, k, StatusAt(db, k)) == db
  {
    var same := WithStatus(db, k, StatusAt(db, k));
    match k.kind
    case BridgeKind => assert same.lbs == db.lbs;
    case PortKind => assert same.bps == db.bps;
    case VrfKind => assert same.vrfs == db.vrfs;
    case SviKind => assert same.svis == db.svis;
  }

  /** Until an object is to be deleted, no report on it touches anything but its status. */
  lemma {:induction false} SetUpTouchesStatusOnly(cfg: Config, db: DB, k: Key, events: seq<Event>) returns (x: Intent)
    requires Integrity(cfg, db) && OnlyAbout(events, k) && Stored(db, k) && StatusAt(db, k).oper != ToBeDeleted
    ensures Follows(x, cfg.Of(k.kind)) && x.oper != ToBeDeleted
    ensures Happen(db, events) == WithStatus(db, k, x)
    decreases |events|
  {
    StoredFollows(cfg, db, k);
    if events == [] {
      x := StatusAt(db, k);
      SameStatus(db, k);
    } else {
      var w := events[0].word;
      var db' := Heard(db, events[0]);
      HeardKeeps(cfg, db, events[0]);
      x := OneTouch(cfg, db, k, w);
      WithStatusTwice(db, k, x, x);
      x := SetUpTouchesStatusOnly(cfg, db', k, events[1..]);
      WithStatusTwice(db, k, StatusAt(db', k), x);
    }
  }

  lemma OneTouch(cfg: Config, db: DB, k: Key, w: Word) returns (x: Intent)
    requires NamesOk(cfg, db) && w.key == k && Stored(db, k) && StatusAt(db, k).oper != ToBeDeleted
    ensures Heard(db, Said(w)) == WithStatus(db, k, x) && x.oper != ToBeDeleted
  {
    StatusOfShape(cfg, db, k, w.version, w.comp);
    StoredFollows(cfg, db, k);
    x := StatusAt(db, k);
    SameStatus(db, k);
    if StatusOf(db, k, w.version, w.comp).2.Counts? {
      ReportFollows(x, cfg.Of(k.kind), w.comp);
      x := AfterReport(x, w.comp).value;
    }
  }

  /** Nothing is left to report on. */
  lemma {:induction false} GoneStaysGone(db: DB, k: Key, events: seq<Event>)
    requires !Stored(db, k) && OnlyAbout(events, k)
    ensures Happen(db, events) == db
    decreases |events|
  {
    if events != [] {
      assert Heard(db, events[0]) == db;
      GoneStaysGone(db, k, events[1..]);
    }
  }

  /** What is removed does not depend on the last status. */
  lemma {:induction false} RemoveIgnoresStatus(cfg: Config, db: DB, k: Key, x: Intent)
    requires Integrity(cfg, db) && Stored(db, k) && Integrity(cfg, WithStatus(db, k, x))
    ensures RemoveOf(WithStatus(db, k, x), k) == RemoveOf(db, k)
  {
    if k.kind == PortKind {
      PortIgnoresStatus(cfg, db, k, x);
    } else {
      OthersIgnoreStatus(cfg, db, k, x);
      if k.kind == SviKind {
        RemoveSviNeverFails(cfg, db, k.name);
      }
    }
  }

  lemma PortIgnoresStatus(cfg: Config, db: DB, k: Key, x: Intent)
    requires Integrity(cfg, db) && Stored(db, k) && k.kind == PortKind && Integrity(cfg, WithStatus(db, k, x))
    ensures RemoveOf(WithStatus(db, k, x), k) == RemoveOf(db, k)
  {
    RemoveBPNeverFails(cfg, db, k.name);
    RemoveBPNeverFails(cfg, WithStatus(db, k, x), k.name);
    assert WithStatus(db, k, x).bps - {k.name} == db.bps - {k.name};
  }

  lemma {:induction false} OthersIgnoreStatus(cfg: Config, db: DB, k: Key, x: Intent)
    requires NamesOk(cfg, db) && Stored(db, k) && k.kind != PortKind
    ensures (k.kind == SviKind ==> RemoveSvi(db, db.svis[k.name]).1.Done?) ==>
      RemoveOf(WithStatus(db, k, x), k) == RemoveOf(db, k)
  {
    var db' := WithStatus(db, k, x);
    match k.kind
    case BridgeKind => assert db'.lbs - {k.name} == db.lbs - {k.name};
    case VrfKind => assert db'.vrfs - {k.name} == db.vrfs - {k.name};
    case SviKind => assert db'.svis - {k.name} == db.svis - {k.name};
  }

  /**
   Reports by which every module ends in Success on a deletion remove the object, in
   whatever order they come and whatever was reported before.
   */
  lemma {:induction false} TeardownRemoves(cfg: Config, db: DB, k: Key, events: seq<Event>)
    requires Integrity(cfg, db) && OnlyAbout(events, k)
    requires Stored(db, k) && Leaving(StatusAt(db, k), cfg.Of(k.kind)) && AllEnd(StatusAt(db, k), k, events)
    ensures Happen(db, events) == RemoveOf(db, k)
    ensures !Stored(RemoveOf(db, k), k)
    decreases |events|
  {
    var x := StatusAt(db, k);
    EndsInTeardown(x, k, events, cfg.Of(k.kind));
    RemovedOf(cfg, db, k);
    ViewAt(RemoveOf(db, k), k);
    OneWord(cfg, db, k, events[0].word);
    if BecomeOne(x, k, events[0]).Some? {
      var y := BecomeOne(x, k, events[0]).value;
      OneEnds(x, k, events, cfg.Of(k.kind));
      HeardKeeps(cfg, db, events[0]);
      WithStatusTwice(db, k, y, y);
      TeardownRemoves(cfg, Heard(db, events[0]), k, events[1..]);
      RemoveIgnoresStatus(cfg, db, k, y);
    } else {
      GoneStaysGone(RemoveOf(db, k), k, events[1..]);
    }
  }

  /** One report on the object rewrites its status or removes it. */
  lemma OneWord(cfg: Config, db: DB, k: Key, w: Word)
    requires NamesOk(cfg, db) && w.key == k && Stored(db, k)
    ensures Heard(db, Said(w)) ==
      match BecomeOne(StatusAt(db, k), k, Said(w))
      case Some(y) => WithStatus(db, k, y)
      case None => RemoveOf(db, k)
  {
    StatusOfShape(cfg, db, k, w.version, w.comp);
    SameStatus(db, k);
  }

  /** The life of a stored object from its set-up to its removal, in one closed form. */
  lemma LifeEnds(cfg: Config, db: DB, k: Key, setUp: seq<Event>, version: int, tearDown: seq<Event>)
    requires Integrity(cfg, db) && Stored(db, k) && StatusAt(db, k).oper != ToBeDeleted
    requires OnlyAbout(setUp, k) && OnlyAbout(tearDown, k) && EndsConfirmed(cfg.Of(k.kind), k, version, tearDown)
    requires DeleteOf(cfg, Happen(db, setUp), k, version).1.Done?
    ensures Happen(DeleteOf(cfg, Happen(db, setUp), k, version).0, tearDown) == RemoveOf(db, k)
  {
    var x := SetUpTouchesStatusOnly(cfg, db, k, setUp);
    var y := Marked(x, version);
    DeletionOverwrites(cfg, db, k, setUp, version, x);
    MarkedLeaves(x, cfg.Of(k.kind), version, k, tearDown);
    WithStatusTwice(db, k, y, y);
    TeardownRemoves(cfg, WithStatus(db, k, y), k, tearDown);
    RemoveIgnoresStatus(cfg, db, k, y);
  }

  lemma DeletionOverwrites(cfg: Config, db: DB, k: Key, setUp: seq<Event>, version: int, x: Intent)
    requires Integrity(cfg, db) && Stored(db, k) && Happen(db, setUp) == WithStatus(db, k, x)
    requires DeleteOf(cfg, Happen(db, setUp), k, version).1.Done?
    ensures DeleteOf(cfg, Happen(db, setUp), k, version).0 == WithStatus(db, k, Marked(x, version))
    ensures Integrity(cfg, WithStatus(db, k, Marked(x, version)))
  {
    HappenKeeps(cfg, db, setUp);
    DeletionIsStatus(cfg, Happen(db, setUp), k, version);
    DeleteOfKeeps(cfg, Happen(db, setUp), k, version);
    WithStatusTwice(db, k, x, Marked(x, version));
  }

  // ---------------------------------------------------------------------
  // Ports and SVIs
  // ---------------------------------------------------------------------

  lemma DetachUndoesAttach(lbs: map<string, LogicalBridge>, port: string, mac: string, bridges: seq<string>)
    requires forall i :: 0 <= i < |bridges| ==> Fits(lbs, port, mac, bridges[i])
    ensures Detached(Attached(lbs, port, mac, Elems(bridges)), port, mac, Elems(bridges)) == lbs
  {
    var back := Detached(Attached(lbs, port, mac, Elems(bridges)), port, mac, Elems(bridges));
    forall b | b in lbs ensures back[b] == lbs[b] {
      if b in bridges {
        assert lbs[b].ports + {port} - {port} == lbs[b].ports;
        assert lbs[b].macs[mac := port] - {mac} == lbs[b].macs;
      }
    }
  }

  /**
   A port that was created, set up (however far), deleted and torn down leaves every
   bridge's port and MAC tables, and every index, as they were.
   */
  lemma PortRoundTrip(cfg: Config, db: DB, bp: BridgePort, order: seq<string>,
                      setUp: seq<Event>, version: int, tearDown: seq<Event>)
    requires Integrity(cfg, db) && BornBP(cfg, bp) && bp.name !in db.bps
    requires CreateBP(cfg, db, bp, order).1.Done? && NoneDoomed(db.lbs, AllBridges(bp, order))
    requires var k := Key(PortKind, bp.name);
      OnlyAbout(setUp, k) && OnlyAbout(tearDown, k) && EndsConfirmed(cfg.port, k, version, tearDown)
    ensures var live := Happen(CreateBP(cfg, db, bp, order).0, setUp);
      var (marked, out) := DeleteBP(cfg, live, bp.name, version);
      out.Done? && Happen(marked, tearDown) == db.(bpIndex := Some(Members(db.bpIndex)))
  {
    var k := Key(PortKind, bp.name);
    var created := CreateBP(cfg, db, bp, order).0;
    CreateBPKeepsIff(cfg, db, bp, order);
    CreatedPortCanGo(cfg, db, bp, order);
    LifeCanEnd(cfg, created, k, setUp, version);
    LifeEnds(cfg, created, k, setUp, version, tearDown);
  }

  /** Removing the port a creation just stored undoes that creation. */
  lemma {:induction false} CreatedPortCanGo(cfg: Config, db: DB, bp: BridgePort, order: seq<string>)
    requires Integrity(cfg, db) && BornBP(cfg, bp) && bp.name !in db.bps
    requires CreateBP(cfg, db, bp, order).1.Done? && Integrity(cfg, CreateBP(cfg, db, bp, order).0)
    ensures var created := CreateBP(cfg, db, bp, order).0; var k := Key(PortKind, bp.name);
      && Stored(created, k) && StatusAt(created, k) == bp.status
      && RemoveOf(created, k) == db.(bpIndex := Some(Members(db.bpIndex)))
  {
    var created := CreateBP(cfg, db, bp, order).0;
    CreateBPStores(cfg, db, bp, order);
    RemoveBPNeverFails(cfg, created, bp.name);
    RemovalUndoesStorage(db, created, created.bps[bp.name]);
  }

  lemma RemovalUndoesStorage(db: DB, created: DB, bp: BridgePort)
    requires bp.name !in db.bps && bp.name !in Members(db.bpIndex)
    requires forall i :: 0 <= i < |bp.bridges| ==> Fits(db.lbs, bp.name, bp.mac, bp.bridges[i])
    requires created == db.(lbs := Attached(db.lbs, bp.name, bp.mac, Elems(bp.bridges)),
                            bps := db.bps[bp.name := bp],
                            bpIndex := Some(Members(db.bpIndex) + {bp.name}))
    ensures created.(lbs := Detached(created.lbs, bp.name, bp.mac, Elems(bp.bridges)),
                     bps := created.bps - {bp.name},
                     bpIndex := Some(Members(created.bpIndex) - {bp.name}))
      == db.(bpIndex := Some(Members(db.bpIndex)))
  {
    DetachUndoesAttach(db.lbs, bp.name, bp.mac, bp.bridges);
    assert db.bps[bp.name := bp] - {bp.name} == db.bps;
    assert Members(db.bpIndex) + {bp.name} - {bp.name} == Members(db.bpIndex);
  }

  /** A port or an SVI that was set up can always be deleted. */
  lemma LifeCanEnd(cfg: Config, db: DB, k: Key, setUp: seq<Event>, version: int)
    requires OnlyAbout(setUp, k) && Integrity(cfg, db) && Stored(db, k) && StatusAt(db, k).oper != ToBeDeleted
    requires k.kind == PortKind || k.kind == SviKind
    ensures DeleteOf(cfg, Happen(db, setUp), k, version).1.Done?
  {
    StoredFollows(cfg, db, k);
    var x := SetUpTouchesStatusOnly(cfg, db, k, setUp);
  }

  /** The same for an SVI: bridge, VRF and index are as they were. */
  lemma SviRoundTrip(cfg: Config, db: DB, svi: Svi,
                     setUp: seq<Event>, version: int, tearDown: seq<Event>)
    requires Integrity(cfg, db) && BornSvi(cfg, svi) && svi.name != "" && svi.name !in db.svis
    requires CreateSvi(cfg, db, svi).1.Done?
    requires db.vrfs[svi.vrf].status.oper != ToBeDeleted && db.lbs[svi.bridge].status.oper != ToBeDeleted
    requires var k := Key(SviKind, svi.name);
      OnlyAbout(setUp, k) && OnlyAbout(tearDown, k) && EndsConfirmed(cfg.svi, k, version, tearDown)
    ensures var live := Happen(CreateSvi(cfg, db, svi).0, setUp);
      var (marked, out) := DeleteSvi(cfg, live, svi.name, version);
      out.Done? && Happen(marked, tearDown) == db.(sviIndex := Some(Members(db.sviIndex)))
  {
    var k := Key(SviKind, svi.name);
    var created := CreateSvi(cfg, db, svi).0;
    CreateSviKeepsIff(cfg, db, svi);
    CreateSviStores(cfg, db, svi);
    LifeCanEnd(cfg, created, k, setUp, version);
    LifeEnds(cfg, created, k, setUp, version, tearDown);
    RemoveSviNeverFails(cfg, created, svi.name);
    UnlinkUndoesLink(cfg, db, svi);
  }

  lemma UnlinkUndoesLink(cfg: Config, db: DB, svi: Svi)
    requires NamesOk(cfg, db) && IndexOk(db) && svi.name !in db.svis && Links(db, svi)
    ensures Unlinked(Linked(db, svi), svi) == db.(sviIndex := Some(Members(db.sviIndex)))
  {
    var back := Unlinked(Linked(db, svi), svi);
    assert back.vrfs[svi.vrf].svis == db.vrfs[svi.vrf].svis;
    assert back.vrfs == db.vrfs && back.lbs == db.lbs && back.svis == db.svis;
  }
}
