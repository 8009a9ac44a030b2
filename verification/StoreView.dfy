/**
 InfraDB seen through the statuses of its objects: what every store operation does to
 that view is what the realization protocol says it does.
 */
module StoreView {
  import opened Basics
  import opened Intents
  import opened Store
  import opened StoreIntegrity
  import opened StoreReferences
  import opened StoreRuns
  import Protocol

  function KeysOf(db: DB): set<Key> {
    (set n | n in db.lbs :: Key(BridgeKind, n)) + (set n | n in db.bps :: Key(PortKind, n))
    + (set n | n in db.vrfs :: Key(VrfKind, n)) + (set n | n in db.svis :: Key(SviKind, n))
  }

  predicate Stored(db: DB, k: Key) {
    match k.kind
    case BridgeKind => k.name in db.lbs
    case PortKind => k.name in db.bps
    case VrfKind => k.name in db.vrfs
    case SviKind => k.name in db.svis
  }

  function StatusAt(db: DB, k: Key): Intent
    requires Stored(db, k)
  {
    match k.kind
    case BridgeKind => db.lbs[k.name].status
    case PortKind => db.bps[k.name].status
    case VrfKind => db.vrfs[k.name].status
    case SviKind => db.svis[k.name].status
  }

  function View(db: DB): map<Key, Intent> {
    map k | k in KeysOf(db) && Stored(db, k) :: StatusAt(db, k)
  }

  lemma ViewAt(db: DB, k: Key)
    ensures k in View(db) <==> Stored(db, k)
    ensures Stored(db, k) ==> View(db)[k] == StatusAt(db, k)
  {}

  function WithStatus(db: DB, k: Key, x: Intent): DB
    requires Stored(db, k)
  {
    match k.kind
    case BridgeKind => db.(lbs := db.lbs[k.name := db.lbs[k.name].(status := x)])
    case PortKind => db.(bps := db.bps[k.name := db.bps[k.name].(status := x)])
    case VrfKind => db.(vrfs := db.vrfs[k.name := db.vrfs[k.name].(status := x)])
    case SviKind => db.(svis := db.svis[k.name := db.svis[k.name].(status := x)])
  }

  function RemoveOf(db: DB, k: Key): DB
    requires Stored(db, k)
  {
    match k.kind
    case BridgeKind => RemoveLB(db, db.lbs[k.name]).0
    case PortKind => RemoveBP(db, db.bps[k.name]).0
    case VrfKind => RemoveVrf(db, db.vrfs[k.name]).0
    case SviKind => RemoveSvi(db, db.svis[k.name]).0
  }

  /** Two stores whose objects have the same statuses, except possibly at `k`. */
  ghost predicate AgreeBut(db: DB, db': DB, k: Key) {
    forall j :: j != k ==>
      (Stored(db', j) <==> Stored(db, j)) && (Stored(db, j) ==> StatusAt(db', j) == StatusAt(db, j))
  }

  lemma {:induction false} ViewWrites(db: DB, db': DB, k: Key, x: Intent)
    requires AgreeBut(db, db', k) && Stored(db', k) && StatusAt(db', k) == x
    ensures View(db') == View(db)[k := x]
  {
    forall j ensures j in View(db') <==> j in View(db)[k := x] {
      ViewAt(db, j);
      ViewAt(db', j);
    }
  }

  lemma {:induction false} ViewDrops(db: DB, db': DB, k: Key)
    requires AgreeBut(db, db', k) && !Stored(db', k)
    ensures View(db') == View(db) - {k}
  {
    forall j ensures j in View(db') <==> j in View(db) - {k} {
      ViewAt(db, j);
      ViewAt(db', j);
    }
  }

  // ---------------------------------------------------------------------
  // Reports
  // ---------------------------------------------------------------------

  function Judged(db: DB, k: Key, after: Option<Intent>): DB
    requires Stored(db, k)
  {
    if after.Some? then WithStatus(db, k, after.value) else RemoveOf(db, k)
  }

  /** A report is judged by version and replay flag; when it counts it writes one status, or removes the object. */
  lemma StatusOfShape(cfg: Config, db: DB, k: Key, version: int, comp: Component)
    requires NamesOk(cfg, db)
    ensures var (db', out, verdict) := StatusOf(db, k, version, comp);
      && (verdict.Stale? <==> !Stored(db, k) || StatusAt(db, k).version != version)
      && (verdict.AsksReplay? <==> !verdict.Stale? && comp.replay)
      && (!verdict.Counts? ==> db' == db)
      && (verdict.Counts? ==> db' == Judged(db, k, AfterReport(StatusAt(db, k), comp)))
  {}

  lemma {:induction false} Written(db: DB, k: Key, x: Intent)
    requires Stored(db, k)
    ensures View(WithStatus(db, k, x)) == View(db)[k := x]
  {
    ViewWrites(db, WithStatus(db, k, x), k, x);
  }

  lemma {:induction false} DetachedView(db: DB, db': DB, p: string, on: set<string>)
    requires p in db.bps && db'.bps == db.bps - {p} && db'.vrfs == db.vrfs && db'.svis == db.svis
    requires db'.lbs == Detached(db.lbs, p, db.bps[p].mac, on)
    ensures View(db') == View(db) - {Key(PortKind, p)}
  {
    ViewDrops(db, db', Key(PortKind, p));
  }

  lemma {:induction false} UnlinkedView(db: DB, v: string)
    requires v in db.svis && db.svis[v].name == v && db.svis[v].vrf in db.vrfs && db.svis[v].bridge in db.lbs
    ensures View(Unlinked(db, db.svis[v])) == View(db) - {Key(SviKind, v)}
  {
    ViewDrops(db, Unlinked(db, db.svis[v]), Key(SviKind, v));
  }

  lemma {:induction false} RemovedLBView(db: DB, db': DB, b: string)
    requires db'.lbs == db.lbs - {b} && db'.bps == db.bps && db'.vrfs == db.vrfs && db'.svis == db.svis
    ensures View(db') == View(db) - {Key(BridgeKind, b)}
  {
    ViewDrops(db, db', Key(BridgeKind, b));
  }

  lemma {:induction false} RemovedVrfView(db: DB, db': DB, r: string)
    requires db'.vrfs == db.vrfs - {r} && db'.bps == db.bps && db'.lbs == db.lbs && db'.svis == db.svis
    ensures View(db') == View(db) - {Key(VrfKind, r)}
  {
    ViewDrops(db, db', Key(VrfKind, r));
  }

  /** An object that is torn down leaves the store, and nothing else does. */
  lemma {:induction false} RemovedOf(cfg: Config, db: DB, k: Key)
    requires Integrity(cfg, db) && Stored(db, k) && StatusAt(db, k).oper == ToBeDeleted
    ensures View(RemoveOf(db, k)) == View(db) - {k}
  {
    match k.kind
    case PortKind =>
      RemoveBPNeverFails(cfg, db, k.name);
      DetachedView(db, RemoveOf(db, k), k.name, Elems(db.bps[k.name].bridges));
    case SviKind =>
      RemoveSviNeverFails(cfg, db, k.name);
      UnlinkedView(db, k.name);
    case BridgeKind =>
      RemoveLBNeverFails(cfg, db, k.name);
      RemovedLBView(db, RemoveOf(db, k), k.name);
    case VrfKind =>
      RemoveVrfNeverFails(cfg, db, k.name);
      RemovedVrfView(db, RemoveOf(db, k), k.name);
  }

  /** A report has on the view the effect the protocol gives it. */
  lemma {:induction false} ReportsRefine(cfg: Config, db: DB, k: Key, version: int, comp: Component)
    requires Integrity(cfg, db)
    ensures var (db', out, verdict) := StatusOf(db, k, version, comp);
      && (verdict.Stale? <==> !Protocol.Current(View(db), k, version))
      && View(db') == if verdict.Counts? then Protocol.StoreAfterReport(View(db), k, comp) else View(db)
  {
    StatusOfShape(cfg, db, k, version, comp);
    ViewAt(db, k);
    if StatusOf(db, k, version, comp).2.Counts? {
      var after := AfterReport(StatusAt(db, k), comp);
      if after.Some? {
        Written(db, k, after.value);
      } else {
        RemovedOf(cfg, db, k);
      }
    }
  }

  // ---------------------------------------------------------------------
  // Creations and deletions
  // ---------------------------------------------------------------------

  predicate Creates(op: Op) {
    op.NewLB? || op.NewVrf? || op.NewBP? || op.NewSvi?
  }

  function KeyOf(op: Op): Key
    requires Creates(op)
  {
    match op
    case NewLB(lb) => Key(BridgeKind, lb.name)
    case NewVrf(vrf) => Key(VrfKind, vrf.name)
    case NewBP(bp, order) => Key(PortKind, bp.name)
    case NewSvi(svi) => Key(SviKind, svi.name)
  }

  function StatusIn(op: Op): Intent
    requires Creates(op)
  {
    match op
    case NewLB(lb) => lb.status
    case NewVrf(vrf) => vrf.status
    case NewBP(bp, order) => bp.status
    case NewSvi(svi) => svi.status
  }

  function CreateOf(cfg: Config, db: DB, op: Op): (DB, Outcome)
    requires Creates(op)
  {
    match op
    case NewLB(lb) => CreateLB(cfg, db, lb)
    case NewVrf(vrf) => CreateVrf(cfg, db, vrf)
    case NewBP(bp, order) => CreateBP(cfg, db, bp, order)
    case NewSvi(svi) => CreateSvi(cfg, db, svi)
  }

  lemma SameView(db: DB, db': DB)
    requires forall j :: (Stored(db', j) <==> Stored(db, j)) && (Stored(db, j) ==> StatusAt(db', j) == StatusAt(db, j))
    ensures View(db') == View(db)
  {
    forall j ensures j in View(db') <==> j in View(db) {
      ViewAt(db, j);
      ViewAt(db', j);
    }
  }

  lemma CreatedBPView(cfg: Config, db: DB, bp: BridgePort, order: seq<string>)
    requires NamesOk(cfg, db)
    ensures var (db', out) := CreateBP(cfg, db, bp, order);
      View(db') == if out.Done? then View(db)[Key(PortKind, bp.name) := bp.status] else View(db)
  {
    var (db', out) := CreateBP(cfg, db, bp, order);
    var k := AttachAllExact(db.lbs, bp.name, bp.mac, AllBridges(bp, order));
    AttachedView(db, db', bp.name, bp.mac, Elems(AllBridges(bp, order)[..k]), bp.status, out.Done?);
  }

  lemma {:induction false} AttachedView(db: DB, db': DB, p: string, mac: string, on: set<string>, x: Intent,
                                        stored: bool)
    requires db'.lbs == db.lbs || db'.lbs == Attached(db.lbs, p, mac, on)
    requires db'.vrfs == db.vrfs && db'.svis == db.svis
    requires if stored then db'.bps.Keys == db.bps.Keys + {p} && db'.bps[p].status == x else db'.bps == db.bps
    requires forall q :: q in db.bps && q != p ==> db'.bps[q] == db.bps[q]
    ensures View(db') == if stored then View(db)[Key(PortKind, p) := x] else View(db)
  {
    if stored {
      ViewWrites(db, db', Key(PortKind, p), x);
    } else {
      SameView(db, db');
    }
  }

  lemma {:induction false} CreatedSviView(cfg: Config, db: DB, svi: Svi)
    requires NamesOk(cfg, db)
    ensures var (db', out) := CreateSvi(cfg, db, svi);
      View(db') == if out.Done? then View(db)[Key(SviKind, svi.name) := svi.status] else View(db)
  {
    var (db', out) := CreateSvi(cfg, db, svi);
    if out.Done? {
      ViewWrites(db, db', Key(SviKind, svi.name), svi.status);
    } else {
      SameView(db, db');
    }
  }

  /** A creation writes the new status, whichever references it writes; a refused one writes no status. */
  lemma CreationsRefine(cfg: Config, db: DB, op: Op)
    requires NamesOk(cfg, db) && Creates(op)
    ensures var (db', out) := CreateOf(cfg, db, op);
      View(db') == if out.Done? then View(db)[KeyOf(op) := StatusIn(op)] else View(db)
  {
    var (db', out) := CreateOf(cfg, db, op);
    match op
    case NewLB(lb) => if out.Done? { ViewWrites(db, db', KeyOf(op), lb.status); }
    case NewVrf(vrf) => if out.Done? { ViewWrites(db, db', KeyOf(op), vrf.status); }
    case NewBP(bp, order) => CreatedBPView(cfg, db, bp, order);
    case NewSvi(svi) => CreatedSviView(cfg, db, svi);
  }

  /** A deletion that is not refused writes one status. */
  lemma DeletionIsStatus(cfg: Config, db: DB, k: Key, version: int)
    requires NamesOk(cfg, db) && DeleteOf(cfg, db, k, version).1.Done?
    ensures Stored(db, k)
    ensures var x := StatusAt(db, k);
      DeleteOf(cfg, db, k, version).0 == WithStatus(db, k, MarkDeleted(x, |x.comps|, version))
  {
    var x := StatusAt(db, k);
    assert |Names(x.comps)| == |x.comps|;
  }

  /** A deletion that is not refused marks one object, as the protocol does. */
  lemma {:induction false} DeletionsRefine(cfg: Config, db: DB, k: Key, version: int)
    requires NamesOk(cfg, db)
    ensures var (db', out) := DeleteOf(cfg, db, k, version);
      && (out.Failed? ==> db' == db)
      && (out.Done? ==>
            && k in View(db) && cfg.Of(k.kind) != [] && |cfg.Of(k.kind)| == |View(db)[k].comps|
            && View(db') == View(db)[k := MarkDeleted(View(db)[k], |cfg.Of(k.kind)|, version)])
  {
    if DeleteOf(cfg, db, k, version).1.Done? {
      ViewAt(db, k);
      var x := StatusAt(db, k);
      assert |Names(x.comps)| == |x.comps|;
      Written(db, k, MarkDeleted(x, |cfg.Of(k.kind)|, version));
    }
  }

  // ---------------------------------------------------------------------
  // Replays
  // ---------------------------------------------------------------------

  /** The gathering part of a replay: the objects in `order` are rewritten one by one. */
  function GatherAll(db: DB, order: seq<Key>, component: string, version: int): DB
    decreases |order|
  {
    if order == [] || !Stored(db, order[0]) then db
    else
      var db' := WithStatus(db, order[0], Prepared(StatusAt(db, order[0]), component, version));
      GatherAll(db', order[1..], component, version + 1)
  }

  lemma WithStatusKeeps(cfg: Config, db: DB, k: Key, x: Intent)
    requires Integrity(cfg, db) && Stored(db, k) && Follows(x, cfg.Of(k.kind))
    requires x.oper == ToBeDeleted <==> StatusAt(db, k).oper == ToBeDeleted
    ensures Integrity(cfg, WithStatus(db, k, x))
  {
    match k.kind
    case BridgeKind => LBStatusKeeps(cfg, db, k.name, x);
    case PortKind => BPStatusKeeps(cfg, db, k.name, x);
    case VrfKind => VrfStatusKeeps(cfg, db, k.name, x);
    case SviKind => SviStatusKeeps(cfg, db, k.name, x);
  }

  lemma StoredFollows(cfg: Config, db: DB, k: Key)
    requires NamesOk(cfg, db) && Stored(db, k)
    ensures Follows(StatusAt(db, k), cfg.Of(k.kind))
  {}

  lemma PreparedFollows(x: Intent, subs: seq<string>, component: string, version: int)
    requires Follows(x, subs)
    ensures Follows(Prepared(x, component, version), subs)
    ensures Prepared(x, component, version).oper == ToBeDeleted <==> x.oper == ToBeDeleted
  {
    assert Names(Prepared(x, component, version).comps) == Names(x.comps);
  }

  lemma {:induction false} GatherOne(cfg: Config, db: DB, k: Key, component: string, version: int)
    requires Integrity(cfg, db) && Stored(db, k)
    ensures k in View(db)
    ensures var db' := WithStatus(db, k, Prepared(StatusAt(db, k), component, version));
      Integrity(cfg, db') && View(db') == View(db)[k := Prepared(View(db)[k], component, version)]
  {
    ViewAt(db, k);
    var x := Prepared(StatusAt(db, k), component, version);
    StoredFollows(cfg, db, k);
    PreparedFollows(StatusAt(db, k), cfg.Of(k.kind), component, version);
    WithStatusKeeps(cfg, db, k, x);
    Written(db, k, x);
  }

  /** A replay keeps integrity, and has on the view the effect the protocol gives it. */
  lemma {:induction false} GathersRefine(cfg: Config, db: DB, order: seq<Key>, component: string, version: int)
    requires Integrity(cfg, db)
    ensures Integrity(cfg, GatherAll(db, order, component, version))
    ensures View(GatherAll(db, order, component, version)) ==
      Protocol.StoreAfterGather(View(db), order, component, version)
    decreases |order|
  {
    if order != [] && Stored(db, order[0]) {
      var k := order[0];
      GatherOne(cfg, db, k, component, version);
      var db' := WithStatus(db, k, Prepared(StatusAt(db, k), component, version));
      GathersRefine(cfg, db', order[1..], component, version + 1);
    }
  }
}
