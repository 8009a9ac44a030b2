/**
 DeleteAllResources: ports, then SVIs, then VRFs, then bridges. Each phase takes a snapshot
 of the stored objects of its kind, asks for the deletion of one after the other, and waits
 until none is left. Only single calls are locked, so between any two of them modules report
 and replays rewrite the store: every event may come before any call. There are no other
 API calls meanwhile.
 */
module Cleanup {
  import opened Basics
  import opened Intents
  import opened Store
  import opened StoreIntegrity
  import opened StoreRuns
  import opened StoreView
  import opened Events

  /** One deletion of the snapshot, the events that come before it, and the version it gives. */
  datatype Turn = Turn(before: seq<Event>, key: Key, version: int)

  /** The deletion requests of one kind; the first that is refused ends the clean-up. */
  function DeleteAll(cfg: Config, db: DB, turns: seq<Turn>): (DB, Outcome)
    decreases |turns|
  {
    if turns == [] then (db, Done)
    else
      var (db', out) := DeleteOf(cfg, Happen(db, turns[0].before), turns[0].key, turns[0].version);
      if out.Failed? then (db', out) else DeleteAll(cfg, db', turns[1..])
  }

  /** The deletions of a phase, and what happens while it waits. */
  datatype Stage = Stage(turns: seq<Turn>, after: seq<Event>)

  datatype End = Clean | Refused(failure: Failure) | TimedOut

  predicate Empty(db: DB, kind: Kind) {
    match kind
    case BridgeKind => db.lbs == map[]
    case PortKind => db.bps == map[]
    case VrfKind => db.vrfs == map[]
    case SviKind => db.svis == map[]
  }

  function Phase(cfg: Config, db: DB, kind: Kind, stage: Stage): (DB, End) {
    var (db1, out) := DeleteAll(cfg, db, stage.turns);
    if out.Failed? then (db1, Refused(out.failure))
    else
      var db2 := Happen(db1, stage.after);
      (db2, if Empty(db2, kind) then Clean else TimedOut)
  }

  datatype Job = Job(kind: Kind, stage: Stage)

  /** A phase starts only when the one before has left nothing. */
  function Phases(cfg: Config, db: DB, jobs: seq<Job>): (DB, End)
    decreases |jobs|
  {
    if jobs == [] then (db, Clean)
    else
      var (db', end) := Phase(cfg, db, jobs[0].kind, jobs[0].stage);
      if end.Clean? then Phases(cfg, db', jobs[1..]) else (db', end)
  }

  function JobsOf(ports: Stage, svis: Stage, vrfs: Stage, bridges: Stage): seq<Job> {
    [Job(PortKind, ports), Job(SviKind, svis), Job(VrfKind, vrfs), Job(BridgeKind, bridges)]
  }

  function DeleteAllResources(cfg: Config, db: DB, ports: Stage, svis: Stage, vrfs: Stage, bridges: Stage): (DB, End) {
    Phases(cfg, db, JobsOf(ports, svis, vrfs, bridges))
  }

  // ---------------------------------------------------------------------
  // Which runs of a phase there are
  // ---------------------------------------------------------------------

  function KeysIn(turns: seq<Turn>): seq<Key> {
    seq(|turns|, i requires 0 <= i < |turns| => turns[i].key)
  }

  /** Replays between the deletions walk over what is stored by then. */
  ghost predicate CanRun(cfg: Config, db: DB, turns: seq<Turn>)
    decreases |turns|
  {
    turns != [] ==>
      && CanHappen(db, turns[0].before)
      && CanRun(cfg, DeleteOf(cfg, Happen(db, turns[0].before), turns[0].key, turns[0].version).0, turns[1..])
  }

  ghost predicate CanPhase(cfg: Config, db: DB, stage: Stage) {
    && CanRun(cfg, db, stage.turns)
    && CanHappen(DeleteAll(cfg, db, stage.turns).0, stage.after)
  }

  /** The phase deletes what is stored when it starts. */
  ghost predicate Snapshot(db: DB, kind: Kind, turns: seq<Turn>) {
    NoDup(KeysIn(turns)) && forall k :: k in KeysIn(turns) <==> Stored(db, k) && k.kind == kind
  }

  /** The kinds whose objects refer to objects of this kind. */
  function Referring(kind: Kind): set<Kind> {
    match kind
    case VrfKind => {SviKind}
    case BridgeKind => {SviKind, PortKind}
    case _ => {}
  }

  /** Nothing refers to objects of the kind any more. */
  ghost predicate CanGo(db: DB, kind: Kind) {
    forall other :: other in Referring(kind) ==> Empty(db, other)
  }

  /** A state of the loop of a phase. */
  ghost predicate InPhase(cfg: Config, db: DB, kind: Kind, turns: seq<Turn>) {
    && Integrity(cfg, db) && CanGo(db, kind) && CanRun(cfg, db, turns)
    && NoDup(KeysIn(turns))
    && forall i :: 0 <= i < |turns| ==> turns[i].key.kind == kind && cfg.Of(kind) != []
  }

  // ---------------------------------------------------------------------
  // One turn
  // ---------------------------------------------------------------------

  lemma NotRefused(cfg: Config, db: DB, k: Key, version: int)
    requires Integrity(cfg, db) && Stored(db, k) && CanGo(db, k.kind)
    ensures DeleteOf(cfg, db, k, version).1.Done?
  {
    StoredFollows(cfg, db, k);
    assert SviKind in Referring(k.kind) ==> Empty(db, SviKind);
    assert PortKind in Referring(k.kind) ==> Empty(db, PortKind);
    if k.kind == VrfKind {
      VrfIsFree(db.lbs, db.vrfs, db.svis, k.name);
    } else if k.kind == BridgeKind {
      assert BridgeOk(db.bps, k.name, db.lbs[k.name]);
      assert db.lbs[k.name].ports == {};
      assert db.lbs[k.name].macs == map[];
    }
  }

  lemma VrfIsFree(lbs: map<string, LogicalBridge>, vrfs: map<string, Vrf>, svis: map<string, Svi>, r: string)
    requires SvisOk(lbs, vrfs, svis) && svis == map[] && r in vrfs
    ensures vrfs[r].svis == {}
  {
    assert forall v :: v in vrfs[r].svis ==> v in svis;
  }

  /** Nothing comes into the store by events, so nothing refers to the kind again. */
  lemma CanStillGo(cfg: Config, db: DB, events: seq<Event>, kind: Kind)
    requires Integrity(cfg, db) && CanHappen(db, events)
    ensures forall k :: Stored(Happen(db, events), k) ==> Stored(db, k)
    ensures CanGo(db, kind) ==> CanGo(Happen(db, events), kind)
  {
    forall k | Stored(Happen(db, events), k) ensures Stored(db, k) {
      HappenAt(cfg, db, events, k);
    }
    forall other | other in Referring(kind) && Empty(db, other) ensures Empty(Happen(db, events), other) {
      StaysEmpty(db, Happen(db, events), other);
    }
  }

  lemma StoredEmpty(db: DB, kind: Kind)
    ensures Empty(db, kind) <==> forall k: Key :: k.kind == kind ==> !Stored(db, k)
  {
    if !Empty(db, kind) {
      match kind
      case BridgeKind => var n :| n in db.lbs; assert Stored(db, Key(kind, n));
      case PortKind => var n :| n in db.bps; assert Stored(db, Key(kind, n));
      case VrfKind => var n :| n in db.vrfs; assert Stored(db, Key(kind, n));
      case SviKind => var n :| n in db.svis; assert Stored(db, Key(kind, n));
    }
  }

  /** Where nothing is stored that was not stored before, what was empty stays empty. */
  lemma StaysEmpty(db: DB, db': DB, kind: Kind)
    requires forall k :: Stored(db', k) ==> Stored(db, k)
    ensures Empty(db, kind) ==> Empty(db', kind)
  {
    StoredEmpty(db, kind);
    StoredEmpty(db', kind);
  }

  lemma WithStatusElsewhere(db: DB, k: Key, x: Intent, j: Key)
    requires Stored(db, k)
    ensures Now(WithStatus(db, k, x), j) == if j == k then Some(x) else Now(db, j)
    ensures Stored(WithStatus(db, k, x), j) <==> Stored(db, j)
  {}

  /** A deletion request is granted if and only if the object is there; it is never refused as not empty. */
  lemma {:induction false} OneDeletion(cfg: Config, db: DB, k: Key, version: int)
    requires Integrity(cfg, db) && CanGo(db, k.kind) && cfg.Of(k.kind) != []
    ensures var (db', out) := DeleteOf(cfg, db, k, version);
      && out == (if Stored(db, k) then Done else Failed(KeyNotFound))
      && db' == if Stored(db, k) then WithStatus(db, k, Marked(StatusAt(db, k), version)) else db
  {
    if Stored(db, k) {
      NotRefused(cfg, db, k, version);
      DeletionIsStatus(cfg, db, k, version);
    }
  }

  /** What one turn makes of one object. */
  lemma {:induction false} TurnAt(cfg: Config, db: DB, kind: Kind, turns: seq<Turn>, j: Key)
    requires turns != [] && InPhase(cfg, db, kind, turns)
    ensures var t := turns[0]; var (db', out) := DeleteOf(cfg, Happen(db, t.before), t.key, t.version);
      && out == (if Later(db, t.key, t.before).Some? then Done else Failed(KeyNotFound))
      && Now(db', j) ==
           if j == t.key && Later(db, j, t.before).Some? then Some(Marked(Later(db, j, t.before).value, t.version))
           else Later(db, j, t.before)
  {
    var t := turns[0];
    HappenKeeps(cfg, db, t.before);
    CanStillGo(cfg, db, t.before, kind);
    OneDeletion(cfg, Happen(db, t.before), t.key, t.version);
    HappenAt(cfg, db, t.before, j);
    HappenAt(cfg, db, t.before, t.key);
    if Stored(Happen(db, t.before), t.key) {
      WithStatusElsewhere(Happen(db, t.before), t.key, Marked(StatusAt(Happen(db, t.before), t.key), t.version), j);
    }
  }

  /** The next state of the loop. */
  lemma {:induction false} TurnKeeps(cfg: Config, db: DB, kind: Kind, turns: seq<Turn>)
    requires turns != [] && InPhase(cfg, db, kind, turns)
    ensures var t := turns[0];
      InPhase(cfg, DeleteOf(cfg, Happen(db, t.before), t.key, t.version).0, kind, turns[1..])
  {
    var t := turns[0];
    var db1 := Happen(db, t.before);
    var db2 := DeleteOf(cfg, db1, t.key, t.version).0;
    HappenKeeps(cfg, db, t.before);
    CanStillGo(cfg, db, t.before, kind);
    DeleteOfKeeps(cfg, db1, t.key, t.version);
    OneDeletion(cfg, db1, t.key, t.version);
    forall k | Stored(db2, k) ensures Stored(db1, k) {
      if Stored(db1, t.key) {
        WithStatusElsewhere(db1, t.key, Marked(StatusAt(db1, t.key), t.version), k);
      }
    }
    forall other | other in Referring(kind) ensures Empty(db2, other) {
      StaysEmpty(db1, db2, other);
    }
    assert KeysIn(turns[1..]) == KeysIn(turns)[1..];
  }

  // ---------------------------------------------------------------------
  // When the loop of a phase is refused
  // ---------------------------------------------------------------------

  /** The object after the events, if it is stored before and after them. */
  function Later(db: DB, k: Key, events: seq<Event>): Option<Intent> {
    if Stored(db, k) then Become(StatusAt(db, k), k, events) else None
  }

  /** All events up to the `i`-th deletion. */
  function Before(turns: seq<Turn>, i: nat): seq<Event>
    requires i < |turns|
    decreases i
  {
    if i == 0 then turns[0].before else turns[0].before + Before(turns[1..], i - 1)
  }

  /** Some listed object is torn down by the events that come before its own deletion. */
  ghost predicate GoesEarly(db: DB, turns: seq<Turn>) {
    exists i :: 0 <= i < |turns| && Later(db, turns[i].key, Before(turns, i)).None?
  }

  /**
   In any interleaving the deletions of a phase are all granted, or one meets a missing
   object; and that happens if and only if a listed object goes before its own deletion.
   No deletion is ever refused as not empty.
   */
  lemma {:induction false} RefusedIffGoesEarly(cfg: Config, db: DB, kind: Kind, turns: seq<Turn>)
    requires InPhase(cfg, db, kind, turns)
    ensures DeleteAll(cfg, db, turns).1 == if GoesEarly(db, turns) then Failed(KeyNotFound) else Done
    ensures Integrity(cfg, DeleteAll(cfg, db, turns).0)
    decreases |turns|
  {
    if turns != [] {
      var t := turns[0];
      var (db', out) := DeleteOf(cfg, Happen(db, t.before), t.key, t.version);
      TurnAt(cfg, db, kind, turns, t.key);
      TurnKeeps(cfg, db, kind, turns);
      if out.Failed? {
        assert Before(turns, 0) == t.before;
      } else {
        RefusedIffGoesEarly(cfg, db', kind, turns[1..]);
        EarlyShifts(cfg, db, kind, turns);
      }
    }
  }

  lemma {:induction false} EarlyShifts(cfg: Config, db: DB, kind: Kind, turns: seq<Turn>)
    requires turns != [] && InPhase(cfg, db, kind, turns)
    requires var t := turns[0]; DeleteOf(cfg, Happen(db, t.before), t.key, t.version).1.Done?
    ensures var t := turns[0]; var db' := DeleteOf(cfg, Happen(db, t.before), t.key, t.version).0;
      GoesEarly(db, turns) <==> GoesEarly(db', turns[1..])
  {
    var t := turns[0];
    var db' := DeleteOf(cfg, Happen(db, t.before), t.key, t.version).0;
    TurnAt(cfg, db, kind, turns, t.key);
    forall i | 0 < i < |turns|
      ensures Later(db, turns[i].key, Before(turns, i)) == Later(db', turns[i].key, Before(turns[1..], i - 1))
    {
      OthersShift(cfg, db, kind, turns, turns[i].key, Before(turns[1..], i - 1), i);
    }
    if GoesEarly(db, turns) {
      var i :| 0 <= i < |turns| && Later(db, turns[i].key, Before(turns, i)).None?;
      assert i > 0 && turns[1..][i - 1] == turns[i];
    }
    if GoesEarly(db', turns[1..]) {
      var i :| 0 <= i < |turns[1..]| && Later(db', turns[1..][i].key, Before(turns[1..], i)).None?;
      assert turns[1..][i] == turns[i + 1];
      assert Later(db, turns[i + 1].key, Before(turns, i + 1)).None?;
    }
  }

  /** Another object does not notice the deletion. */
  lemma OthersShift(cfg: Config, db: DB, kind: Kind, turns: seq<Turn>, j: Key, more: seq<Event>, i: nat)
    requires turns != [] && InPhase(cfg, db, kind, turns) && 0 < i < |turns| && j == turns[i].key
    ensures var t := turns[0]; var db' := DeleteOf(cfg, Happen(db, t.before), t.key, t.version).0;
      Later(db, j, t.before + more) == Later(db', j, more)
  {
    assert KeysIn(turns)[0] == turns[0].key && KeysIn(turns)[i] == j;
    LaterShift(cfg, db, kind, turns, j, more);
  }

  lemma LaterShift(cfg: Config, db: DB, kind: Kind, turns: seq<Turn>, j: Key, more: seq<Event>)
    requires turns != [] && InPhase(cfg, db, kind, turns) && j != turns[0].key
    ensures var t := turns[0]; var db' := DeleteOf(cfg, Happen(db, t.before), t.key, t.version).0;
      Later(db, j, t.before + more) == Later(db', j, more)
  {
    TurnAt(cfg, db, kind, turns, j);
    if Stored(db, j) {
      BecomeConcat(StatusAt(db, j), j, turns[0].before, more);
    }
  }

  // ---------------------------------------------------------------------
  // What a caller can check at the snapshot
  // ---------------------------------------------------------------------

  ghost predicate NoneToGo(db: DB, kind: Kind) {
    forall k: Key :: k.kind == kind && Stored(db, k) ==> StatusAt(db, k).oper != ToBeDeleted
  }

  lemma {:induction false} NoneToGoNoneEarly(cfg: Config, db: DB, kind: Kind, turns: seq<Turn>)
    requires Integrity(cfg, db) && Snapshot(db, kind, turns) && NoneToGo(db, kind)
    ensures !GoesEarly(db, turns)
  {
    forall i | 0 <= i < |turns| ensures Later(db, turns[i].key, Before(turns, i)).Some? {
      var k := turns[i].key;
      assert KeysIn(turns)[i] == k;
      StoredFollows(cfg, db, k);
      DoomIsKept(StatusAt(db, k), k, Before(turns, i), cfg.Of(kind));
    }
  }

  /** Every module of the object reports Success on version `v`. */
  function AllConfirm(k: Key, v: int, subs: seq<string>): seq<Event> {
    if subs == [] then []
    else [Said(Word(k, v, Component(subs[0], Success, "", 0, false)))] + AllConfirm(k, v, subs[1..])
  }

  lemma {:induction false} ConfirmedEnds(k: Key, v: int, subs: seq<string>, n: string, ok: bool)
    requires n in subs || ok
    ensures Ends(AllConfirm(k, v, subs), k, v, n, ok)
    decreases |subs|
  {
    if subs != [] {
      assert AllConfirm(k, v, subs)[1..] == AllConfirm(k, v, subs[1..]);
      ConfirmedEnds(k, v, subs[1..], n, ok || n == subs[0]);
    }
  }

  lemma {:induction false} WordsCanHappen(db: DB, k: Key, v: int, subs: seq<string>)
    ensures CanHappen(db, AllConfirm(k, v, subs))
    decreases |subs|
  {
    if subs != [] {
      var words := AllConfirm(k, v, subs);
      assert words[1..] == AllConfirm(k, v, subs[1..]);
      WordsCanHappen(Heard(db, words[0]), k, v, subs[1..]);
    }
  }

  /** An object that is to be deleted goes as soon as all its modules confirm. */
  lemma {:induction false} ConfirmedGoes(x: Intent, k: Key, subs: seq<string>)
    requires Follows(x, subs) && x.oper == ToBeDeleted
    ensures Become(x, k, AllConfirm(k, x.version, subs)).None?
  {
    var words := AllConfirm(k, x.version, subs);
    assert words != [] && words[1..] == AllConfirm(k, x.version, subs[1..]);
    var c := Component(subs[0], Success, "", 0, false);
    assert words[0] == Said(Word(k, x.version, c));
    if BecomeOne(x, k, words[0]).Some? {
      var y := BecomeOne(x, k, words[0]).value;
      ReportFollows(x, subs, c);
      SetComponentAt(x.comps, c);
      forall i | 0 <= i < |y.comps|
        ensures Ends(words[1..], k, y.version, y.comps[i].name, y.comps[i].status == Success)
      {
        assert Names(x.comps)[i] == y.comps[i].name == subs[i];
        assert i > 0 ==> subs[1..][i - 1] == subs[i];
        ConfirmedEnds(k, x.version, subs[1..], subs[i], y.comps[i].status == Success);
      }
      EndsInTeardown(y, k, words[1..], subs);
    }
  }

  lemma SnapshotInPhase(cfg: Config, db: DB, kind: Kind, turns: seq<Turn>)
    requires Integrity(cfg, db) && CanGo(db, kind) && Snapshot(db, kind, turns) && CanRun(cfg, db, turns)
    ensures InPhase(cfg, db, kind, turns)
  {
    forall i | 0 <= i < |turns| ensures turns[i].key.kind == kind && cfg.Of(kind) != [] {
      assert KeysIn(turns)[i] == turns[i].key;
      StoredFollows(cfg, db, turns[i].key);
    }
  }

  /** The deletions in a given order, all the events before the first. */
  function AllAtOnce(order: seq<Key>, events: seq<Event>): seq<Turn> {
    seq(|order|, i requires 0 <= i < |order| => Turn(if i == 0 then events else [], order[i], i))
  }

  lemma {:induction false} QuietTurns(cfg: Config, db: DB, turns: seq<Turn>)
    requires forall i :: 0 <= i < |turns| ==> turns[i].before == []
    ensures CanRun(cfg, db, turns)
    ensures forall i :: 0 <= i < |turns| ==> Before(turns, i) == []
    decreases |turns|
  {
    if turns != [] {
      QuietTurns(cfg, DeleteOf(cfg, Happen(db, []), turns[0].key, turns[0].version).0, turns[1..]);
    }
  }

  lemma {:induction false} AllAtOnceRuns(cfg: Config, db: DB, order: seq<Key>, events: seq<Event>)
    requires CanHappen(db, events)
    ensures CanRun(cfg, db, AllAtOnce(order, events))
    ensures forall i :: 0 <= i < |order| ==> Before(AllAtOnce(order, events), i) == events
  {
    var turns := AllAtOnce(order, events);
    if order != [] {
      var db' := DeleteOf(cfg, Happen(db, events), turns[0].key, turns[0].version).0;
      QuietTurns(cfg, db', turns[1..]);
      assert forall i :: 0 < i < |order| ==> Before(turns, i) == events + Before(turns[1..], i - 1);
    }
  }

  /**
   What a caller can check before the clean-up: for any order of the snapshot, some
   interleaving makes the phase fail if and only if one of the objects was to be deleted
   already when the snapshot was taken.
   */
  lemma {:induction false} CanBeRefusedIffDoomed(cfg: Config, db: DB, kind: Kind, order: seq<Key>)
    requires Integrity(cfg, db) && CanGo(db, kind)
    requires NoDup(order) && forall k :: k in order <==> Stored(db, k) && k.kind == kind
    ensures (exists turns :: KeysIn(turns) == order && CanRun(cfg, db, turns) && DeleteAll(cfg, db, turns).1.Failed?)
      <==> !NoneToGo(db, kind)
  {
    if turns :| KeysIn(turns) == order && CanRun(cfg, db, turns) && DeleteAll(cfg, db, turns).1.Failed? {
      SnapshotInPhase(cfg, db, kind, turns);
      RefusedIffGoesEarly(cfg, db, kind, turns);
      if NoneToGo(db, kind) {
        NoneToGoNoneEarly(cfg, db, kind, turns);
      }
    }
    if !NoneToGo(db, kind) {
      var turns := DoomedIsRefused(cfg, db, kind, order);
    }
  }

  lemma {:induction false} DoomedIsRefused(cfg: Config, db: DB, kind: Kind, order: seq<Key>) returns (turns: seq<Turn>)
    requires Integrity(cfg, db) && CanGo(db, kind) && !NoneToGo(db, kind)
    requires NoDup(order) && forall k :: k in order <==> Stored(db, k) && k.kind == kind
    ensures KeysIn(turns) == order && CanRun(cfg, db, turns) && DeleteAll(cfg, db, turns).1 == Failed(KeyNotFound)
  {
    var k: Key :| k.kind == kind && Stored(db, k) && StatusAt(db, k).oper == ToBeDeleted;
    turns := ConfirmedFirst(cfg, db, order, k);
    SnapshotInPhase(cfg, db, kind, turns);
    RefusedIffGoesEarly(cfg, db, kind, turns);
  }

  /** All modules of an object that is to be deleted confirm before the first deletion of the loop. */
  lemma ConfirmedFirst(cfg: Config, db: DB, order: seq<Key>, k: Key) returns (turns: seq<Turn>)
    requires NamesOk(cfg, db) && k in order && Stored(db, k) && StatusAt(db, k).oper == ToBeDeleted
    ensures KeysIn(turns) == order && CanRun(cfg, db, turns) && GoesEarly(db, turns)
  {
    var x, subs := StatusAt(db, k), cfg.Of(k.kind);
    StoredFollows(cfg, db, k);
    var events := AllConfirm(k, x.version, subs);
    turns := AllAtOnce(order, events);
    WordsCanHappen(db, k, x.version, subs);
    AllAtOnceRuns(cfg, db, order, events);
    ConfirmedGoes(x, k, subs);
    assert KeysIn(turns) == order;
    var i :| 0 <= i < |order| && order[i] == k;
    assert Later(db, turns[i].key, Before(turns, i)).None?;
  }

  // ---------------------------------------------------------------------
  // What a phase leaves
  // ---------------------------------------------------------------------

  /** All events from a deletion to the end of the phase. */
  function Rest(turns: seq<Turn>, after: seq<Event>): seq<Event>
    decreases |turns|
  {
    if turns == [] then after else turns[0].before + Rest(turns[1..], after)
  }

  /** After its deletion request every module of every listed object ends in Success. */
  ghost predicate AllConfirmed(cfg: Config, stage: Stage) {
    forall i :: 0 <= i < |stage.turns| ==>
      var t := stage.turns[i];
      EndsConfirmed(cfg.Of(t.key.kind), t.key, t.version, Rest(stage.turns[i + 1..], stage.after))
  }

  /** An object no deletion of the loop is about becomes what its own events make of it. */
  lemma {:induction false} RestAt(cfg: Config, db: DB, kind: Kind, turns: seq<Turn>, after: seq<Event>, k: Key)
    requires InPhase(cfg, db, kind, turns) && CanHappen(DeleteAll(cfg, db, turns).0, after)
    requires DeleteAll(cfg, db, turns).1.Done? && k !in KeysIn(turns)
    ensures Now(Happen(DeleteAll(cfg, db, turns).0, after), k) == Later(db, k, Rest(turns, after))
    decreases |turns|
  {
    if turns == [] {
      HappenAt(cfg, db, after, k);
    } else {
      var t := turns[0];
      var db' := DeleteOf(cfg, Happen(db, t.before), t.key, t.version).0;
      TurnKeeps(cfg, db, kind, turns);
      assert KeysIn(turns)[0] == t.key && KeysIn(turns[1..]) == KeysIn(turns)[1..];
      RestAt(cfg, db', kind, turns[1..], after, k);
      LaterShift(cfg, db, kind, turns, k, Rest(turns[1..], after));
    }
  }

  lemma FirstIsNotLater(turns: seq<Turn>)
    requires turns != [] && NoDup(KeysIn(turns))
    ensures turns[0].key !in KeysIn(turns[1..])
  {
    assert KeysIn(turns)[0] == turns[0].key && KeysIn(turns[1..]) == KeysIn(turns)[1..];
  }

  /** The first of the listed objects is gone when the phase ends. */
  lemma FirstGoes(cfg: Config, db: DB, kind: Kind, stage: Stage)
    requires InPhase(cfg, db, kind, stage.turns) && stage.turns != [] && AllConfirmed(cfg, stage)
    requires DeleteAll(cfg, db, stage.turns).1.Done? && CanHappen(DeleteAll(cfg, db, stage.turns).0, stage.after)
    ensures !Stored(Happen(DeleteAll(cfg, db, stage.turns).0, stage.after), stage.turns[0].key)
  {
    var turns := stage.turns;
    var t := turns[0];
    var db' := DeleteOf(cfg, Happen(db, t.before), t.key, t.version).0;
    TurnKeeps(cfg, db, kind, turns);
    var rest := Rest(turns[1..], stage.after);
    assert EndsConfirmed(cfg.Of(kind), t.key, t.version, rest);
    FirstIsLeaving(cfg, db, kind, turns, rest);
    FirstIsNotLater(turns);
    RestAt(cfg, db', kind, turns[1..], stage.after, t.key);
  }

  /** The object a turn has just marked goes when its modules end in Success. */
  lemma FirstIsLeaving(cfg: Config, db: DB, kind: Kind, turns: seq<Turn>, rest: seq<Event>)
    requires turns != [] && InPhase(cfg, db, kind, turns)
    requires EndsConfirmed(cfg.Of(kind), turns[0].key, turns[0].version, rest)
    requires var t := turns[0]; DeleteOf(cfg, Happen(db, t.before), t.key, t.version).1.Done?
    ensures var t := turns[0];
      Later(DeleteOf(cfg, Happen(db, t.before), t.key, t.version).0, t.key, rest).None?
  {
    var t := turns[0];
    TurnAt(cfg, db, kind, turns, t.key);
    StoredFollows(cfg, db, t.key);
    DoomIsKept(StatusAt(db, t.key), t.key, t.before, cfg.Of(kind));
    var x := Later(db, t.key, t.before).value;
    MarkedLeaves(x, cfg.Of(kind), t.version, t.key, rest);
    EndsInTeardown(Marked(x, t.version), t.key, rest, cfg.Of(kind));
  }

  lemma RestConfirmed(cfg: Config, stage: Stage)
    requires stage.turns != [] && AllConfirmed(cfg, stage)
    ensures AllConfirmed(cfg, Stage(stage.turns[1..], stage.after))
  {
    var rest := stage.turns[1..];
    forall i | 0 <= i < |rest|
      ensures EndsConfirmed(cfg.Of(rest[i].key.kind), rest[i].key, rest[i].version, Rest(rest[i + 1..], stage.after))
    {
      assert rest[i] == stage.turns[i + 1] && rest[i + 1..] == stage.turns[i + 2..];
    }
  }

  /** Every listed object is gone when the phase ends. */
  lemma {:induction false} ListedGoes(cfg: Config, db: DB, kind: Kind, stage: Stage, i: nat)
    requires InPhase(cfg, db, kind, stage.turns) && AllConfirmed(cfg, stage) && i < |stage.turns|
    requires DeleteAll(cfg, db, stage.turns).1.Done? && CanHappen(DeleteAll(cfg, db, stage.turns).0, stage.after)
    ensures !Stored(Happen(DeleteAll(cfg, db, stage.turns).0, stage.after), stage.turns[i].key)
    decreases i
  {
    if i == 0 {
      FirstGoes(cfg, db, kind, stage);
    } else {
      var t := stage.turns[0];
      TurnKeeps(cfg, db, kind, stage.turns);
      RestConfirmed(cfg, stage);
      ListedGoes(cfg, DeleteOf(cfg, Happen(db, t.before), t.key, t.version).0, kind,
                 Stage(stage.turns[1..], stage.after), i - 1);
    }
  }

  /** The loop of a phase brings nothing into the store. */
  lemma {:induction false} LoopBringsNothing(cfg: Config, db: DB, kind: Kind, turns: seq<Turn>, k: Key)
    requires InPhase(cfg, db, kind, turns) && Stored(DeleteAll(cfg, db, turns).0, k)
    ensures Stored(db, k)
    decreases |turns|
  {
    if turns != [] {
      var t := turns[0];
      var (db', out) := DeleteOf(cfg, Happen(db, t.before), t.key, t.version);
      TurnAt(cfg, db, kind, turns, k);
      if out.Done? {
        TurnKeeps(cfg, db, kind, turns);
        LoopBringsNothing(cfg, db', kind, turns[1..], k);
      }
    }
  }

  lemma {:induction false} PhaseBringsNothing(cfg: Config, db: DB, kind: Kind, stage: Stage)
    requires InPhase(cfg, db, kind, stage.turns) && CanPhase(cfg, db, stage)
    ensures forall k :: Stored(Phase(cfg, db, kind, stage).0, k) ==> Stored(db, k)
  {
    RefusedIffGoesEarly(cfg, db, kind, stage.turns);
    forall k | Stored(Phase(cfg, db, kind, stage).0, k) ensures Stored(db, k) {
      HappenAt(cfg, DeleteAll(cfg, db, stage.turns).0, stage.after, k);
      LoopBringsNothing(cfg, db, kind, stage.turns, k);
    }
  }

  lemma {:induction false} PhaseKeeps(cfg: Config, db: DB, kind: Kind, stage: Stage)
    requires InPhase(cfg, db, kind, stage.turns)
    ensures Integrity(cfg, Phase(cfg, db, kind, stage).0)
  {
    RefusedIffGoesEarly(cfg, db, kind, stage.turns);
    HappenKeeps(cfg, DeleteAll(cfg, db, stage.turns).0, stage.after);
  }

  /** Objects of other kinds are not marked by a phase. */
  lemma {:induction false} PhaseDoomsOwnKind(cfg: Config, db: DB, kind: Kind, stage: Stage, other: Kind)
    requires InPhase(cfg, db, kind, stage.turns) && CanPhase(cfg, db, stage)
    requires other != kind && NoneToGo(db, other) && !Phase(cfg, db, kind, stage).1.Refused?
    ensures NoneToGo(Phase(cfg, db, kind, stage).0, other)
  {
    forall k: Key | k.kind == other && Stored(Phase(cfg, db, kind, stage).0, k)
      ensures StatusAt(Phase(cfg, db, kind, stage).0, k).oper != ToBeDeleted
    {
      OtherKindsAside(stage.turns, kind, k);
      RestAt(cfg, db, kind, stage.turns, stage.after, k);
      StoredFollows(cfg, db, k);
      DoomIsKept(StatusAt(db, k), k, Rest(stage.turns, stage.after), cfg.Of(other));
    }
  }

  lemma OtherKindsAside(turns: seq<Turn>, kind: Kind, k: Key)
    requires k.kind != kind && forall i :: 0 <= i < |turns| ==> turns[i].key.kind == kind
    ensures k !in KeysIn(turns)
  {}

  lemma {:induction false} PhaseDrains(cfg: Config, db: DB, kind: Kind, stage: Stage)
    requires InPhase(cfg, db, kind, stage.turns) && Snapshot(db, kind, stage.turns) && CanPhase(cfg, db, stage)
    requires AllConfirmed(cfg, stage) && DeleteAll(cfg, db, stage.turns).1.Done?
    ensures Empty(Phase(cfg, db, kind, stage).0, kind)
  {
    var db' := Phase(cfg, db, kind, stage).0;
    PhaseBringsNothing(cfg, db, kind, stage);
    forall k: Key | k.kind == kind ensures !Stored(db', k) {
      if k in KeysIn(stage.turns) {
        var i :| 0 <= i < |stage.turns| && KeysIn(stage.turns)[i] == k;
        ListedGoes(cfg, db, kind, stage, i);
      }
    }
    StoredEmpty(db', kind);
  }

  /**
   One phase, in any interleaving: when every module of every listed object ends in
   Success after the request to delete it, the phase leaves nothing of its kind, unless
   a listed object goes before its own deletion, which is then refused.
   */
  lemma {:induction false} PhaseEmpties(cfg: Config, db: DB, kind: Kind, stage: Stage)
    requires Integrity(cfg, db) && CanGo(db, kind) && Snapshot(db, kind, stage.turns) && CanPhase(cfg, db, stage)
    requires AllConfirmed(cfg, stage)
    ensures var (db', end) := Phase(cfg, db, kind, stage);
      && end == (if GoesEarly(db, stage.turns) then Refused(KeyNotFound) else Clean)
      && (end.Clean? ==> Empty(db', kind))
  {
    SnapshotInPhase(cfg, db, kind, stage.turns);
    RefusedIffGoesEarly(cfg, db, kind, stage.turns);
    if !GoesEarly(db, stage.turns) {
      PhaseDrains(cfg, db, kind, stage);
    }
  }

  // ---------------------------------------------------------------------
  // The clean-up
  // ---------------------------------------------------------------------

  /** The phases can run as given, and each listed object's modules end in Success. */
  ghost predicate AllFit(cfg: Config, db: DB, jobs: seq<Job>)
    decreases |jobs|
  {
    jobs != [] ==>
      var kind, stage := jobs[0].kind, jobs[0].stage;
      && Snapshot(db, kind, stage.turns) && CanPhase(cfg, db, stage) && AllConfirmed(cfg, stage)
      && (Phase(cfg, db, kind, stage).1.Clean? ==> AllFit(cfg, Phase(cfg, db, kind, stage).0, jobs[1..]))
  }

  ghost predicate SomeGoesEarly(cfg: Config, db: DB, jobs: seq<Job>)
    decreases |jobs|
  {
    && jobs != []
    && (|| GoesEarly(db, jobs[0].stage.turns)
        || SomeGoesEarly(cfg, Phase(cfg, db, jobs[0].kind, jobs[0].stage).0, jobs[1..]))
  }

  /** Whatever refers to the objects of a phase is gone already, or goes in a phase before it. */
  ghost predicate Unblocked(db: DB, jobs: seq<Job>) {
    forall j, other :: 0 <= j < |jobs| && other in Referring(jobs[j].kind) ==>
      Empty(db, other) || exists i :: 0 <= i < j && jobs[i].kind == other
  }

  lemma UnblockedNext(db: DB, db': DB, jobs: seq<Job>)
    requires jobs != [] && Unblocked(db, jobs) && Empty(db', jobs[0].kind)
    requires forall kind :: Empty(db, kind) ==> Empty(db', kind)
    ensures Unblocked(db', jobs[1..])
  {
    var rest := jobs[1..];
    forall j, other | 0 <= j < |rest| && other in Referring(rest[j].kind) && !Empty(db', other)
      ensures exists i :: 0 <= i < j && rest[i].kind == other
    {
      assert rest[j] == jobs[j + 1];
      var i :| 0 <= i < j + 1 && jobs[i].kind == other;
      assert i > 0 && rest[i - 1] == jobs[i];
    }
  }

  /** After a phase that ended clean the rest is the same question again. */
  lemma {:induction false} NextPhase(cfg: Config, db: DB, jobs: seq<Job>)
    requires jobs != [] && Integrity(cfg, db) && AllFit(cfg, db, jobs) && Unblocked(db, jobs)
    requires Phase(cfg, db, jobs[0].kind, jobs[0].stage).1.Clean?
    ensures var db' := Phase(cfg, db, jobs[0].kind, jobs[0].stage).0;
      && Unblocked(db', jobs[1..])
      && forall kind :: Empty(db, kind) ==> Empty(db', kind)
  {
    var kind, stage := jobs[0].kind, jobs[0].stage;
    var db' := Phase(cfg, db, kind, stage).0;
    SnapshotInPhase(cfg, db, kind, stage.turns);
    PhaseBringsNothing(cfg, db, kind, stage);
    forall other ensures Empty(db, other) ==> Empty(db', other) {
      StaysEmpty(db, db', other);
    }
    UnblockedNext(db, db', jobs);
  }

  /** The phases end clean, or are stopped by an object that goes early. */
  lemma {:induction false} PhasesEnd(cfg: Config, db: DB, jobs: seq<Job>)
    requires Integrity(cfg, db) && AllFit(cfg, db, jobs) && Unblocked(db, jobs)
    ensures Phases(cfg, db, jobs).1 == if SomeGoesEarly(cfg, db, jobs) then Refused(KeyNotFound) else Clean
    decreases |jobs|
  {
    if jobs != [] {
      var kind, stage := jobs[0].kind, jobs[0].stage;
      var (db1, end) := Phase(cfg, db, kind, stage);
      PhaseEmpties(cfg, db, kind, stage);
      if end.Clean? {
        SnapshotInPhase(cfg, db, kind, stage.turns);
        PhaseKeeps(cfg, db, kind, stage);
        NextPhase(cfg, db, jobs);
        PhasesEnd(cfg, db1, jobs[1..]);
      }
    }
  }

  /** Phases that end clean leave nothing of their kinds, and of no kind more than there was. */
  lemma {:induction false} PhasesEmpty(cfg: Config, db: DB, jobs: seq<Job>, kind: Kind)
    requires Integrity(cfg, db) && AllFit(cfg, db, jobs) && Unblocked(db, jobs) && Phases(cfg, db, jobs).1.Clean?
    requires Empty(db, kind) || exists j :: 0 <= j < |jobs| && jobs[j].kind == kind
    ensures Empty(Phases(cfg, db, jobs).0, kind)
    decreases |jobs|
  {
    if jobs != [] {
      var first, stage := jobs[0].kind, jobs[0].stage;
      PhaseEmpties(cfg, db, first, stage);
      SnapshotInPhase(cfg, db, first, stage.turns);
      PhaseKeeps(cfg, db, first, stage);
      NextPhase(cfg, db, jobs);
      if kind != first && !Empty(db, kind) {
        var j :| 0 <= j < |jobs| && jobs[j].kind == kind;
        assert jobs[1..][j - 1] == jobs[j];
      }
      PhasesEmpty(cfg, Phase(cfg, db, first, stage).0, jobs[1..], kind);
    }
  }

  lemma {:induction false} PhasesKeep(cfg: Config, db: DB, jobs: seq<Job>)
    requires Integrity(cfg, db) && AllFit(cfg, db, jobs) && Unblocked(db, jobs)
    ensures Integrity(cfg, Phases(cfg, db, jobs).0)
    decreases |jobs|
  {
    if jobs != [] {
      var kind, stage := jobs[0].kind, jobs[0].stage;
      SnapshotInPhase(cfg, db, kind, stage.turns);
      PhaseKeeps(cfg, db, kind, stage);
      if Phase(cfg, db, kind, stage).1.Clean? {
        NextPhase(cfg, db, jobs);
        PhasesKeep(cfg, Phase(cfg, db, kind, stage).0, jobs[1..]);
      }
    }
  }

  /** With no object to be deleted at the start, none goes before the clean-up asks for its deletion. */
  lemma {:induction false} UndoomedNoneEarly(cfg: Config, db: DB, jobs: seq<Job>)
    requires Integrity(cfg, db) && AllFit(cfg, db, jobs) && Unblocked(db, jobs)
    requires forall i, j :: 0 <= i < j < |jobs| ==> jobs[i].kind != jobs[j].kind
    requires forall j :: 0 <= j < |jobs| ==> NoneToGo(db, jobs[j].kind)
    ensures !SomeGoesEarly(cfg, db, jobs)
    decreases |jobs|
  {
    if jobs != [] {
      var kind, stage := jobs[0].kind, jobs[0].stage;
      var db' := Phase(cfg, db, kind, stage).0;
      NoneToGoNoneEarly(cfg, db, kind, stage.turns);
      PhaseEmpties(cfg, db, kind, stage);
      SnapshotInPhase(cfg, db, kind, stage.turns);
      PhaseKeeps(cfg, db, kind, stage);
      NextPhase(cfg, db, jobs);
      forall j | 0 <= j < |jobs[1..]| ensures NoneToGo(db', jobs[1..][j].kind) {
        assert jobs[1..][j] == jobs[j + 1];
        PhaseDoomsOwnKind(cfg, db, kind, stage, jobs[j + 1].kind);
      }
      UndoomedNoneEarly(cfg, db', jobs[1..]);
    }
  }

  lemma OrderUnblocks(db: DB, ports: Stage, svis: Stage, vrfs: Stage, bridges: Stage)
    ensures Unblocked(db, JobsOf(ports, svis, vrfs, bridges))
  {
    var jobs := JobsOf(ports, svis, vrfs, bridges);
    assert jobs[0].kind == PortKind && jobs[1].kind == SviKind;
  }

  /**
   The clean-up, from any store with integrity and in any interleaving with reports and
   replays in which each module ends in Success on what it is asked to tear down: it leaves
   nothing, no index entry and no VNI either, or it ends with a key-not-found error; and it
   ends with that error if and only if a listed object goes before its own deletion.
   */
  lemma {:induction false} CleanUpLeavesNothing(cfg: Config, db: DB, ports: Stage, svis: Stage, vrfs: Stage,
                                                bridges: Stage)
    requires Integrity(cfg, db) && AllFit(cfg, db, JobsOf(ports, svis, vrfs, bridges))
    ensures var (db', end) := DeleteAllResources(cfg, db, ports, svis, vrfs, bridges);
      && end == (if SomeGoesEarly(cfg, db, JobsOf(ports, svis, vrfs, bridges)) then Refused(KeyNotFound) else Clean)
      && (end.Clean? ==> AllGone(db'))
  {
    var jobs := JobsOf(ports, svis, vrfs, bridges);
    var (db', end) := Phases(cfg, db, jobs);
    OrderUnblocks(db, ports, svis, vrfs, bridges);
    PhasesEnd(cfg, db, jobs);
    if end.Clean? {
      PhasesKeep(cfg, db, jobs);
      assert jobs[0].kind == PortKind && jobs[1].kind == SviKind;
      assert jobs[2].kind == VrfKind && jobs[3].kind == BridgeKind;
      PhasesEmpty(cfg, db, jobs, PortKind);
      PhasesEmpty(cfg, db, jobs, SviKind);
      PhasesEmpty(cfg, db, jobs, VrfKind);
      PhasesEmpty(cfg, db, jobs, BridgeKind);
      NothingLeft(cfg, db');
    }
  }

  /** No object, no index entry, no VNI. */
  ghost predicate AllGone(db: DB) {
    && (forall kind :: Empty(db, kind))
    && Members(db.lbIndex) == Members(db.bpIndex) == Members(db.vrfIndex) == Members(db.sviIndex) == {}
    && Members(db.vpns) == {}
  }

  lemma NothingLeft(cfg: Config, db: DB)
    requires Integrity(cfg, db)
    requires Empty(db, PortKind) && Empty(db, SviKind) && Empty(db, VrfKind) && Empty(db, BridgeKind)
    ensures AllGone(db)
  {
    EmptyVnis(db.lbs, db.vrfs, db.vpns);
    forall kind: Kind ensures Empty(db, kind) {
      match kind
      case BridgeKind =>
      case PortKind =>
      case VrfKind =>
      case SviKind =>
    }
  }

  lemma EmptyVnis(lbs: map<string, LogicalBridge>, vrfs: map<string, Vrf>, vpns: Option<set<int>>)
    requires VniOk(lbs, vrfs, vpns) && lbs == map[] && vrfs == map[]
    ensures Members(vpns) == {}
  {
    assert forall k, n :: !Holds(lbs, vrfs, k, n);
    assert forall n :: n !in Members(vpns);
  }

  /** A caller that sees no object marked for deletion when it starts the clean-up gets a clean end. */
  lemma {:induction false} CleanUpFromUndoomed(cfg: Config, db: DB, ports: Stage, svis: Stage, vrfs: Stage,
                                               bridges: Stage)
    requires Integrity(cfg, db) && AllFit(cfg, db, JobsOf(ports, svis, vrfs, bridges))
    requires forall kind :: NoneToGo(db, kind)
    ensures var (db', end) := DeleteAllResources(cfg, db, ports, svis, vrfs, bridges); end.Clean? && AllGone(db')
  {
    OrderUnblocks(db, ports, svis, vrfs, bridges);
    UndoomedNoneEarly(cfg, db, JobsOf(ports, svis, vrfs, bridges));
    CleanUpLeavesNothing(cfg, db, ports, svis, vrfs, bridges);
  }
}
