/**
 What modules and replays do to the store while an API caller is between two of its calls:
 reports on any version of any object, in any order, and the store part of replays. What
 becomes of an object depends on its own status and these events only.
 */
module Events {
  import opened Basics
  import opened Intents
  import opened Store
  import opened StoreIntegrity
  import opened StoreRuns
  import opened StoreView
  import Protocol
  import NoLostIntent

  /** A report on some version of some object. */
  datatype Word = Word(key: Key, version: int, comp: Component)

  datatype Event =
    | Said(word: Word)
    | Gathered(order: seq<Key>, component: string, version: int)

  function Heard(db: DB, e: Event): DB {
    match e
    case Said(w) => StatusOf(db, w.key, w.version, w.comp).0
    case Gathered(order, component, version) => GatherAll(db, order, component, version)
  }

  function Happen(db: DB, events: seq<Event>): DB
    decreases |events|
  {
    if events == [] then db else Happen(Heard(db, events[0]), events[1..])
  }

  /** A replay walks over stored objects, each once. */
  ghost predicate CanHear(db: DB, e: Event) {
    e.Gathered? ==> NoDup(e.order) && forall k :: k in e.order ==> Stored(db, k)
  }

  ghost predicate CanHappen(db: DB, events: seq<Event>)
    decreases |events|
  {
    events != [] ==> CanHear(db, events[0]) && CanHappen(Heard(db, events[0]), events[1..])
  }

  // ---------------------------------------------------------------------
  // What becomes of one object
  // ---------------------------------------------------------------------

  function IndexOf(order: seq<Key>, k: Key): (i: nat)
    requires k in order
    ensures i < |order| && order[i] == k
  {
    if order[0] == k then 0 else 1 + IndexOf(order[1..], k)
  }

  /** None once the object has been torn down. */
  function BecomeOne(x: Intent, k: Key, e: Event): Option<Intent> {
    match e
    case Said(w) =>
      if w.key == k && w.version == x.version && !w.comp.replay then AfterReport(x, w.comp) else Some(x)
    case Gathered(order, component, version) =>
      Some(if k in order then Prepared(x, component, version + IndexOf(order, k)) else x)
  }

  function Become(x: Intent, k: Key, events: seq<Event>): Option<Intent>
    decreases |events|
  {
    if events == [] then Some(x)
    else
      match BecomeOne(x, k, events[0])
      case None => None
      case Some(y) => Become(y, k, events[1..])
  }

  function Now(db: DB, k: Key): Option<Intent> {
    if Stored(db, k) then Some(StatusAt(db, k)) else None
  }

  lemma SameNow(db: DB, k: Key)
    ensures Now(db, k) == if k in View(db) then Some(View(db)[k]) else None
  {
    ViewAt(db, k);
  }

  lemma {:induction false} SaidAt(cfg: Config, db: DB, w: Word, k: Key)
    requires Integrity(cfg, db)
    ensures Now(Heard(db, Said(w)), k) == if Stored(db, k) then BecomeOne(StatusAt(db, k), k, Said(w)) else None
  {
    SaidShows(cfg, db, w);
    SameNow(db, k);
    SameNow(Heard(db, Said(w)), k);
  }

  lemma SaidShows(cfg: Config, db: DB, w: Word)
    requires Integrity(cfg, db)
    ensures View(Heard(db, Said(w))) ==
      if Protocol.Current(View(db), w.key, w.version) && !w.comp.replay
      then Protocol.StoreAfterReport(View(db), w.key, w.comp) else View(db)
  {
    StatusOfShape(cfg, db, w.key, w.version, w.comp);
    ReportsRefine(cfg, db, w.key, w.version, w.comp);
  }

  /** What a gather makes of one object. */
  lemma {:induction false} GatherAtKey(cfg: Config, store: map<Key, Intent>, order: seq<Key>, c: string, v: int, k: Key)
    requires NoDup(order) && (forall j :: j in order ==> j in store)
    ensures var after := Protocol.StoreAfterGather(store, order, c, v);
      && (k in after <==> k in store)
      && (k in store ==> after[k] == if k in order then Prepared(store[k], c, v + IndexOf(order, k)) else store[k])
  {
    NoLostIntent.GatherAt(cfg, store, order, c, v);
    if k in order {
      assert order[IndexOf(order, k)] == k;
    }
  }

  lemma InView(db: DB, order: seq<Key>)
    requires forall k :: k in order ==> Stored(db, k)
    ensures forall k :: k in order ==> k in View(db)
  {
    forall k | k in order ensures k in View(db) {
      ViewAt(db, k);
    }
  }

  lemma GatherShows(cfg: Config, db: DB, order: seq<Key>, c: string, v: int, k: Key)
    requires Integrity(cfg, db) && NoDup(order) && forall j :: j in order ==> Stored(db, j)
    ensures var after := View(GatherAll(db, order, c, v));
      && (k in after <==> k in View(db))
      && (k in after ==>
           after[k] == if k in order then Prepared(View(db)[k], c, v + IndexOf(order, k)) else View(db)[k])
  {
    GathersRefine(cfg, db, order, c, v);
    InView(db, order);
    GatherAtKey(cfg, View(db), order, c, v, k);
  }

  lemma GatheredAt(cfg: Config, db: DB, order: seq<Key>, c: string, v: int, k: Key)
    requires Integrity(cfg, db) && CanHear(db, Gathered(order, c, v))
    ensures Now(GatherAll(db, order, c, v), k) ==
      if Stored(db, k) then BecomeOne(StatusAt(db, k), k, Gathered(order, c, v)) else None
  {
    GatherShows(cfg, db, order, c, v, k);
    SameNow(db, k);
    SameNow(GatherAll(db, order, c, v), k);
    if Stored(db, k) {
      GatheredOne(StatusAt(db, k), order, c, v, k);
    }
  }

  lemma GatheredOne(x: Intent, order: seq<Key>, c: string, v: int, k: Key)
    ensures BecomeOne(x, k, Gathered(order, c, v)) ==
      Some(if k in order then Prepared(x, c, v + IndexOf(order, k)) else x)
  {}

  lemma HeardAt(cfg: Config, db: DB, e: Event, k: Key)
    requires Integrity(cfg, db) && CanHear(db, e)
    ensures Now(Heard(db, e), k) == if Stored(db, k) then BecomeOne(StatusAt(db, k), k, e) else None
  {
    match e
    case Said(w) => SaidAt(cfg, db, w, k);
    case Gathered(order, component, version) => GatheredAt(cfg, db, order, component, version, k);
  }

  lemma HeardKeeps(cfg: Config, db: DB, e: Event)
    requires Integrity(cfg, db)
    ensures Integrity(cfg, Heard(db, e))
  {
    match e
    case Said(w) => StatusOfKeeps(cfg, db, w.key, w.version, w.comp);
    case Gathered(order, component, version) => GathersRefine(cfg, db, order, component, version);
  }

  lemma {:induction false} HappenKeeps(cfg: Config, db: DB, events: seq<Event>)
    requires Integrity(cfg, db)
    ensures Integrity(cfg, Happen(db, events))
    decreases |events|
  {
    if events != [] {
      HeardKeeps(cfg, db, events[0]);
      HappenKeeps(cfg, Heard(db, events[0]), events[1..]);
    }
  }

  /** Nothing comes into the store, and each stored object becomes what its own events make of it. */
  lemma {:induction false} HappenAt(cfg: Config, db: DB, events: seq<Event>, k: Key)
    requires Integrity(cfg, db) && CanHappen(db, events)
    ensures Now(Happen(db, events), k) == if Stored(db, k) then Become(StatusAt(db, k), k, events) else None
    decreases |events|
  {
    if events != [] {
      HeardKeeps(cfg, db, events[0]);
      HeardAt(cfg, db, events[0], k);
      HappenAt(cfg, Heard(db, events[0]), events[1..], k);
    }
  }

  // ---------------------------------------------------------------------
  // Requests to delete are kept, and nothing else is torn down
  // ---------------------------------------------------------------------

  lemma OneKeepsDoom(x: Intent, k: Key, e: Event, subs: seq<string>)
    requires Follows(x, subs)
    ensures x.oper != ToBeDeleted ==> BecomeOne(x, k, e).Some?
    ensures BecomeOne(x, k, e).Some? ==>
      var y := BecomeOne(x, k, e).value;
      Follows(y, subs) && (y.oper == ToBeDeleted <==> x.oper == ToBeDeleted)
  {
    match e
    case Said(w) => if AfterReport(x, w.comp).Some? { ReportFollows(x, subs, w.comp); }
    case Gathered(order, component, version) =>
      if k in order {
        PreparedFollows(x, subs, component, version + IndexOf(order, k));
      }
  }

  /** An object leaves only if it is to be deleted, and stays so for as long as it is there. */
  lemma {:induction false} DoomIsKept(x: Intent, k: Key, events: seq<Event>, subs: seq<string>)
    requires Follows(x, subs)
    ensures x.oper != ToBeDeleted ==> Become(x, k, events).Some?
    ensures Become(x, k, events).Some? ==>
      var y := Become(x, k, events).value;
      Follows(y, subs) && (y.oper == ToBeDeleted <==> x.oper == ToBeDeleted)
    decreases |events|
  {
    if events != [] {
      OneKeepsDoom(x, k, events[0], subs);
      if BecomeOne(x, k, events[0]).Some? {
        DoomIsKept(BecomeOne(x, k, events[0]).value, k, events[1..], subs);
      }
    }
  }

  // ---------------------------------------------------------------------
  // Modules whose last word is Success
  // ---------------------------------------------------------------------

  /**
   Whether the last word of module `n` on the object is Success, which has version `v` and
   is confirmed by `n` or not before the events. Words on other versions and words that
   ask for a replay do not count; a replay gives a new version, and takes back the word of
   the module that asked for it.
   */
  function Ends(events: seq<Event>, k: Key, v: int, n: string, ok: bool): bool
    decreases |events|
  {
    if events == [] then ok
    else
      match events[0]
      case Said(w) =>
        if w.key == k && w.version == v && !w.comp.replay && w.comp.name == n
        then Ends(events[1..], k, v, n, w.comp.status == Success)
        else Ends(events[1..], k, v, n, ok)
      case Gathered(order, component, version) =>
        if k in order then Ends(events[1..], k, version + IndexOf(order, k), n, ok && n != component)
        else Ends(events[1..], k, v, n, ok)
  }

  /** All the object's modules end in Success. */
  ghost predicate AllEnd(x: Intent, k: Key, events: seq<Event>) {
    forall i :: 0 <= i < |x.comps| ==> Ends(events, k, x.version, x.comps[i].name, x.comps[i].status == Success)
  }

  /** A request to delete that not all modules have confirmed. */
  ghost predicate Leaving(x: Intent, subs: seq<string>) {
    Follows(x, subs) && x.oper == ToBeDeleted && !AllSuccess(x.comps)
  }

  lemma OneEnds(x: Intent, k: Key, events: seq<Event>, subs: seq<string>)
    requires events != [] && Leaving(x, subs) && AllEnd(x, k, events) && BecomeOne(x, k, events[0]).Some?
    ensures var y := BecomeOne(x, k, events[0]).value; Leaving(y, subs) && AllEnd(y, k, events[1..])
  {
    var y := BecomeOne(x, k, events[0]).value;
    OneKeepsDoom(x, k, events[0], subs);
    match events[0]
    case Said(w) => SetComponentAt(x.comps, w.comp);
    case Gathered(order, component, version) =>
      var j :| 0 <= j < |x.comps| && x.comps[j].status != Success;
      assert y.comps[j].status != Success;
      forall i | 0 <= i < |y.comps|
        ensures Ends(events[1..], k, y.version, y.comps[i].name, y.comps[i].status == Success)
      {
        assert Ends(events, k, x.version, x.comps[i].name, x.comps[i].status == Success);
        if k in order {
          assert y.comps[i] == if Contacts(x.comps[i], component) then Fresh(x.comps[i].name) else x.comps[i];
        }
      }
  }

  /** When every module's last word is Success the object is torn down, whatever was reported in between. */
  lemma {:induction false} EndsInTeardown(x: Intent, k: Key, events: seq<Event>, subs: seq<string>)
    requires Leaving(x, subs) && AllEnd(x, k, events)
    ensures Become(x, k, events).None?
    decreases |events|
  {
    if events == [] {
      assert false;
    } else if BecomeOne(x, k, events[0]).Some? {
      OneEnds(x, k, events, subs);
      EndsInTeardown(BecomeOne(x, k, events[0]).value, k, events[1..], subs);
    }
  }

  /** A request to delete makes every module pending. */
  function Marked(x: Intent, version: int): Intent {
    MarkDeleted(x, |x.comps|, version)
  }

  /** Every module ends in Success after the request to delete the object. */
  ghost predicate EndsConfirmed(subs: seq<string>, k: Key, version: int, events: seq<Event>) {
    forall n :: n in subs ==> Ends(events, k, version, n, false)
  }

  /** After a request to delete, the modules that have to end in Success are all of them. */
  lemma MarkedLeaves(x: Intent, subs: seq<string>, version: int, k: Key, events: seq<Event>)
    requires Follows(x, subs) && EndsConfirmed(subs, k, version, events)
    ensures Leaving(Marked(x, version), subs) && AllEnd(Marked(x, version), k, events)
  {
    var y := Marked(x, version);
    assert |Names(x.comps)| == |x.comps|;
    assert Names(y.comps) == subs;
    assert y.comps[0].status == Pending;
    forall i | 0 <= i < |y.comps| ensures Ends(events, k, y.version, y.comps[i].name, y.comps[i].status == Success) {
      assert Names(y.comps)[i] in subs;
    }
  }

  /** The store after events in which every module of an object to be deleted ends in Success. */
  lemma {:induction false} HearRemoves(cfg: Config, db: DB, k: Key, events: seq<Event>)
    requires Integrity(cfg, db) && CanHappen(db, events)
    requires Stored(db, k) ==> Leaving(StatusAt(db, k), cfg.Of(k.kind)) && AllEnd(StatusAt(db, k), k, events)
    ensures !Stored(Happen(db, events), k)
  {
    HappenAt(cfg, db, events, k);
    if Stored(db, k) {
      EndsInTeardown(StatusAt(db, k), k, events, cfg.Of(k.kind));
    }
  }

  // ---------------------------------------------------------------------
  // Events one after the other
  // ---------------------------------------------------------------------

  lemma {:induction false} BecomeConcat(x: Intent, k: Key, a: seq<Event>, b: seq<Event>)
    ensures Become(x, k, a + b) ==
      match Become(x, k, a)
      case None => None
      case Some(y) => Become(y, k, b)
    decreases |a|
  {
    if a == [] {
      assert a + b == b;
    } else {
      assert (a + b)[1..] == a[1..] + b && (a + b)[0] == a[0];
      if BecomeOne(x, k, a[0]).Some? {
        BecomeConcat(BecomeOne(x, k, a[0]).value, k, a[1..], b);
      }
    }
  }
}
