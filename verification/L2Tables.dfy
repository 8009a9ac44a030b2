/**
 The FDB and L2 nexthop tables (pkg/netlink/fdb.go, l2nexthop.go): how they are built and
 filtered, and that every installed FDB entry's L2 nexthop is installed.
 */
module L2Tables {
  import opened Basics
  import opened NetRows
  import opened NetTables
  import opened NetClosure
  import opened Differ

  const NO_TYPE := 0
  const BRIDGEPORT := 5

  datatype L2Nexthop = L2Nexthop(core: L2Core, resolved: bool, hasBridge: bool, refs: seq<FdbCore>)

  /** A pointer to an L2 nexthop is its key. */
  datatype FdbEntry = FdbEntry(core: FdbCore, hasBridge: bool, l2: NetKey)

  datatype L2Net = L2Net(fdb: map<NetKey, FdbEntry>, l2s: map<NetKey, L2Nexthop>, ids: map<NetKey, int>, nextId: int)

  /** addFdbEntry: the first L2 nexthop under a key serves all entries; a later entry under a key replaces the first. */
  function AddFdbEntry(t: L2Net, entry: FdbEntry, own: L2Nexthop): L2Net {
    var k := own.core.key;
    var t1 :=
      if k in t.l2s then t.(l2s := t.l2s[k := t.l2s[k].(refs := t.l2s[k].refs + [entry.core])])
      else
        var (ids, nextId, id) := Assign(t.ids, t.nextId, k);
        t.(l2s := t.l2s[k := own.(core := own.core.(id := id), refs := own.refs + [entry.core])],
           ids := ids, nextId := nextId);
    t1.(fdb := t1.fdb[entry.core.key := entry.(l2 := k)])
  }

  ghost predicate L2NexthopOk(l2: L2Nexthop, k: NetKey, ids: map<NetKey, int>) {
    l2.core.key == k && l2.refs != [] && k in ids && l2.core.id == ids[k]
  }

  ghost predicate FdbOk(e: FdbEntry, k: NetKey, l2s: map<NetKey, L2Nexthop>) {
    e.core.key == k && e.l2 in l2s && e.core in l2s[e.l2].refs
  }

  ghost predicate L2Ok(t: L2Net) {
    && IdsOk(t.ids, t.nextId)
    && (forall k :: k in t.l2s ==> L2NexthopOk(t.l2s[k], k, t.ids))
    && (forall k :: k in t.fdb ==> FdbOk(t.fdb[k], k, t.l2s))
  }

  /** Every entry's L2 nexthop is in the table, lists the entry, and has its cached id. */
  lemma {:induction false} AddFdbEntryKeeps(t: L2Net, entry: FdbEntry, own: L2Nexthop)
    requires L2Ok(t)
    ensures L2Ok(AddFdbEntry(t, entry, own)) && Grows(t.ids, AddFdbEntry(t, entry, own).ids)
  {
    AssignKeeps(t.ids, t.nextId, own.core.key);
    var t' := AddFdbEntry(t, entry, own);
    L2sGrow(t, entry, own);
    forall k | k in t'.fdb ensures FdbOk(t'.fdb[k], k, t'.l2s) {
      if k != entry.core.key {
        assert FdbOk(t.fdb[k], k, t.l2s);
      }
    }
  }

  /** No L2 nexthop is lost, and each lists what it listed. */
  lemma L2sGrow(t: L2Net, entry: FdbEntry, own: L2Nexthop)
    requires L2Ok(t)
    ensures var t' := AddFdbEntry(t, entry, own);
      && (forall k :: k in t'.l2s ==> L2NexthopOk(t'.l2s[k], k, t'.ids))
      && (forall k :: k in t.l2s ==> k in t'.l2s && t.l2s[k].refs <= t'.l2s[k].refs)
      && own.core.key in t'.l2s && entry.core in t'.l2s[own.core.key].refs
  {
    var me := own.core.key;
    AssignKeeps(t.ids, t.nextId, me);
    var t' := AddFdbEntry(t, entry, own);
    assert t'.l2s.Keys == t.l2s.Keys + {me};
    forall k | k in t.l2s ensures L2NexthopOk(t'.l2s[k], k, t'.ids) && t.l2s[k].refs <= t'.l2s[k].refs {
      assert L2NexthopOk(t.l2s[k], k, t.ids);
    }
    var refs := t'.l2s[me].refs;
    assert refs[|refs| - 1] == entry.core;
  }

  function AddFdbEntries(t: L2Net, inputs: seq<(FdbEntry, L2Nexthop)>): L2Net {
    if inputs == [] then t
    else
      var last := inputs[|inputs| - 1];
      AddFdbEntry(AddFdbEntries(t, inputs[..|inputs| - 1]), last.0, last.1)
  }

  lemma {:induction false} AddFdbEntriesKeeps(t: L2Net, inputs: seq<(FdbEntry, L2Nexthop)>)
    requires L2Ok(t)
    ensures L2Ok(AddFdbEntries(t, inputs)) && Grows(t.ids, AddFdbEntries(t, inputs).ids)
  {
    if inputs != [] {
      var front := inputs[..|inputs| - 1];
      AddFdbEntriesKeeps(t, front);
      AddFdbEntryKeeps(AddFdbEntries(t, front), inputs[|inputs| - 1].0, inputs[|inputs| - 1].1);
    }
  }

  /** The entries read with this L2 nexthop, in order. */
  function ReadOver(inputs: seq<(FdbEntry, L2Nexthop)>, k: NetKey): seq<FdbCore> {
    if inputs == [] then []
    else
      var last := inputs[|inputs| - 1];
      ReadOver(inputs[..|inputs| - 1], k) + if last.1.core.key == k then [last.0.core] else []
  }

  /** Of several entries under one key the last one read stays. */
  lemma {:induction false} LastEntryStays(t: L2Net, inputs: seq<(FdbEntry, L2Nexthop)>, i: nat)
    requires i < |inputs| && forall j :: i < j < |inputs| ==> inputs[j].0.core.key != inputs[i].0.core.key
    ensures var fdb := AddFdbEntries(t, inputs).fdb; var k := inputs[i].0.core.key;
      k in fdb && fdb[k] == inputs[i].0.(l2 := inputs[i].1.core.key)
    decreases |inputs|
  {
    if i < |inputs| - 1 {
      LastEntryStays(t, inputs[..|inputs| - 1], i);
    }
  }

  /** Of several L2 nexthops under one key the first one read stays, and lists every entry read with any of them. */
  lemma {:induction false} FirstL2Stays(t: L2Net, inputs: seq<(FdbEntry, L2Nexthop)>, i: nat)
    requires i < |inputs| && inputs[i].1.core.key !in t.l2s
    requires forall j :: 0 <= j < i ==> inputs[j].1.core.key != inputs[i].1.core.key
    ensures var t' := AddFdbEntries(t, inputs); var k := inputs[i].1.core.key; var own := inputs[i].1;
      && k in t'.l2s && t'.l2s[k].refs == own.refs + ReadOver(inputs, k)
      && t'.l2s[k] == own.(core := own.core.(id := t'.l2s[k].core.id), refs := t'.l2s[k].refs)
    decreases |inputs|
  {
    var front := inputs[..|inputs| - 1];
    if i < |front| {
      FirstL2Stays(t, front, i);
    } else {
      NotReadYet(t, front, inputs[i].1.core.key);
    }
  }

  lemma {:induction false} NotReadYet(t: L2Net, inputs: seq<(FdbEntry, L2Nexthop)>, k: NetKey)
    requires k !in t.l2s && forall j :: 0 <= j < |inputs| ==> inputs[j].1.core.key != k
    ensures k !in AddFdbEntries(t, inputs).l2s && ReadOver(inputs, k) == []
  {
    if inputs != [] {
      NotReadYet(t, inputs[..|inputs| - 1], k);
    }
  }

  /** What annotation finds: the tunnel destination, and whether its underlay neighbor is physical. */
  datatype L2Facts = L2Facts(dst: seq<int>, physical: bool)

  function AnnotateL2(l2: L2Nexthop, f: L2Facts): L2Nexthop {
    if l2.core.l2Type != VXLAN then l2
    else
      var moved := l2.(core := l2.core.(dst := f.dst));
      if l2.hasBridge then moved.(resolved := f.physical) else moved
  }

  function AnnotateAll(t: L2Net, facts: map<NetKey, L2Facts>): L2Net {
    t.(l2s := map k | k in t.l2s :: if k in facts then AnnotateL2(t.l2s[k], facts[k]) else t.l2s[k])
  }

  predicate InstallFdb(t: L2Net, e: FdbEntry) {
    && e.core.vlan != 0 && e.hasBridge && (e.core.fdbType == BRIDGEPORT || e.core.fdbType == VXLAN)
    && e.l2 in t.l2s && t.l2s[e.l2].resolved
  }

  predicate InstallL2(l2: L2Nexthop) {
    !(l2.core.l2Type == NO_TYPE && l2.resolved && l2.refs == [])
  }

  function FilterL2(t: L2Net): L2Net {
    t.(fdb := map k | k in t.fdb && InstallFdb(t, t.fdb[k]) :: t.fdb[k],
       l2s := map k | k in t.l2s && InstallL2(t.l2s[k]) :: t.l2s[k])
  }

  /** Every installed FDB entry's L2 nexthop is installed. */
  lemma InstalledFdbIsClosed(t: L2Net, facts: map<NetKey, L2Facts>, k: NetKey)
    requires L2Ok(t) && k in FilterL2(AnnotateAll(t, facts)).fdb
    ensures var installed := FilterL2(AnnotateAll(t, facts));
      && installed.fdb[k].l2 in installed.l2s
      && installed.l2s[installed.fdb[k].l2].resolved
      && installed.fdb[k].core in installed.l2s[installed.fdb[k].l2].refs
  {
    assert FdbOk(t.fdb[k], k, t.l2s);
  }

  /**
   Which FDB entries are installed: those with a VLAN and a bridge, on a bridge port or a
   tunnel, whose L2 nexthop is resolved. A tunnel's L2 nexthop with a bridge is resolved when
   annotation finds a physical neighbor under it.
   */
  lemma {:induction false} InstalledFdbAre(t: L2Net, facts: map<NetKey, L2Facts>, k: NetKey)
    requires L2Ok(t) && k in t.fdb
    ensures var e := t.fdb[k]; var l2 := t.l2s[e.l2];
      k in FilterL2(AnnotateAll(t, facts)).fdb <==>
        && e.core.vlan != 0 && e.hasBridge && (e.core.fdbType == 5 || e.core.fdbType == 4)
        && if l2.core.l2Type == 4 && l2.hasBridge && e.l2 in facts then facts[e.l2].physical else l2.resolved
  {
    assert FdbOk(t.fdb[k], k, t.l2s);
  }

  function FdbRows(t: L2Net): Rows {
    map k | k in t.fdb && t.fdb[k].l2 in t.l2s :: FdbRow(t.fdb[k].core, t.l2s[t.fdb[k].l2].core)
  }

  function L2Rows(t: L2Net): Rows {
    map k | k in t.l2s :: L2Row(t.l2s[k].core, t.l2s[k].refs)
  }

  /** All installed entries have a row, and the rows are tables the differ can compare. */
  lemma {:induction false} InstalledL2RowsAreTables(t: L2Net, facts: map<NetKey, L2Facts>)
    requires L2Ok(t)
    ensures var installed := FilterL2(AnnotateAll(t, facts));
      && FdbRows(installed).Keys == installed.fdb.Keys
      && TableOf(Fdb, FdbRows(installed)) && TableOf(L2Nexthops, L2Rows(installed))
  {
    var installed := FilterL2(AnnotateAll(t, facts));
    forall k | k in installed.fdb ensures installed.fdb[k].l2 in installed.l2s && installed.fdb[k].core.key == k {
      InstalledFdbIsClosed(t, facts, k);
      assert FdbOk(t.fdb[k], k, t.l2s);
    }
    forall k | k in installed.l2s ensures installed.l2s[k].core.key == k {
      assert L2NexthopOk(t.l2s[k], k, t.ids);
    }
    L2RowsAreTables(installed);
  }

  /**
   What the rows show: every L2 nexthop that was read is installed, a tunnel's with the
   destination that annotation found; an FDB entry shows its L2 nexthop as installed.
   */
  lemma {:induction false} L2RowsShow(t: L2Net, facts: map<NetKey, L2Facts>, k: NetKey)
    requires L2Ok(t)
    ensures var installed := FilterL2(AnnotateAll(t, facts));
      && (k in t.l2s ==>
           && k in installed.l2s
           && var l2 := t.l2s[k];
              L2Rows(installed)[k] ==
              L2Row(if l2.core.l2Type == 4 && k in facts then l2.core.(dst := facts[k].dst) else l2.core, l2.refs))
      && (k in installed.fdb ==>
           t.fdb[k].l2 in t.l2s && FdbRows(installed)[k] ==
             FdbRow(t.fdb[k].core, L2Rows(installed)[t.fdb[k].l2].l2nexthop))
  {
    if k in t.l2s {
      assert L2NexthopOk(t.l2s[k], k, t.ids);
    }
    if k in t.fdb {
      assert FdbOk(t.fdb[k], k, t.l2s);
      assert L2NexthopOk(t.l2s[t.fdb[k].l2], t.fdb[k].l2, t.ids);
    }
  }

  lemma L2RowsAreTables(t: L2Net)
    requires forall k :: k in t.fdb ==> t.fdb[k].l2 in t.l2s && t.fdb[k].core.key == k
    requires forall k :: k in t.l2s ==> t.l2s[k].core.key == k
    ensures FdbRows(t).Keys == t.fdb.Keys
    ensures TableOf(Fdb, FdbRows(t)) && TableOf(L2Nexthops, L2Rows(t))
  {}

  // ---------------------------------------------------------------------
  // Polls
  // ---------------------------------------------------------------------

  /** What one poll reads from the kernel, and what annotation finds. */
  datatype L2Poll = L2Poll(inputs: seq<(FdbEntry, L2Nexthop)>, facts: map<NetKey, L2Facts>)

  /** The tables after each poll; only the id cache survives from one to the next. */
  function RunL2(polls: seq<L2Poll>): (nets: seq<L2Net>)
    ensures |nets| == |polls|
  {
    if polls == [] then []
    else
      var nets := RunL2(polls[..|polls| - 1]);
      var (ids, next) := L2Cache(nets);
      nets + [AddFdbEntries(L2Net(map[], map[], ids, next), polls[|polls| - 1].inputs)]
  }

  function L2Cache(nets: seq<L2Net>): (map<NetKey, int>, int) {
    if nets == [] then (map[], FIRST_ID) else (nets[|nets| - 1].ids, nets[|nets| - 1].nextId)
  }

  ghost predicate StableL2(nets: seq<L2Net>) {
    && (forall i :: 0 <= i < |nets| ==> L2Ok(nets[i]))
    && (forall i, j :: 0 <= i <= j < |nets| ==> Grows(nets[i].ids, nets[j].ids))
  }

  lemma {:induction false} L2PollsKeepIds(polls: seq<L2Poll>)
    ensures StableL2(RunL2(polls))
  {
    if polls != [] {
      var nets := RunL2(polls[..|polls| - 1]);
      var (ids, next) := L2Cache(nets);
      L2PollsKeepIds(polls[..|polls| - 1]);
      if nets != [] {
        assert L2Ok(nets[|nets| - 1]);
      }
      AddFdbEntriesKeeps(L2Net(map[], map[], ids, next), polls[|polls| - 1].inputs);
      StableL2Append(nets, AddFdbEntries(L2Net(map[], map[], ids, next), polls[|polls| - 1].inputs));
    }
  }

  lemma StableL2Append(nets: seq<L2Net>, t: L2Net)
    requires StableL2(nets) && L2Ok(t) && Grows(L2Cache(nets).0, t.ids)
    ensures StableL2(nets + [t])
  {
    forall i | 0 <= i < |nets| ensures Grows(nets[i].ids, t.ids) {
      assert Grows(nets[i].ids, nets[|nets| - 1].ids);
    }
  }

  /** Across polls equal keys have equal ids and different keys different ones, all of them at least 16. */
  lemma {:induction false} L2IdsAreStable(polls: seq<L2Poll>, i: nat, j: nat, k: NetKey, l: NetKey)
    requires i <= j < |RunL2(polls)| && k in RunL2(polls)[i].l2s && l in RunL2(polls)[j].l2s
    ensures RunL2(polls)[i].l2s[k].core.id == RunL2(polls)[j].l2s[l].core.id <==> k == l
    ensures RunL2(polls)[i].l2s[k].core.id >= 16
  {
    L2PollsKeepIds(polls);
    SameL2Ids(RunL2(polls), i, j, k, l);
  }

  lemma SameL2Ids(nets: seq<L2Net>, i: nat, j: nat, k: NetKey, l: NetKey)
    requires StableL2(nets) && i <= j < |nets| && k in nets[i].l2s && l in nets[j].l2s
    ensures nets[i].l2s[k].core.id == nets[j].l2s[l].core.id <==> k == l
    ensures nets[i].l2s[k].core.id >= FIRST_ID
  {
    assert L2NexthopOk(nets[i].l2s[k], k, nets[i].ids);
    assert L2NexthopOk(nets[j].l2s[l], l, nets[j].ids);
    assert Grows(nets[i].ids, nets[j].ids);
  }

  // ---------------------------------------------------------------------
  // Subscribers over whole runs of polls
  // ---------------------------------------------------------------------

  /** What is installed after the `i`-th poll: read, annotated and filtered. */
  function InstalledL2(polls: seq<L2Poll>, i: nat): L2Net
    requires i < |polls|
  {
    FilterL2(AnnotateAll(RunL2(polls)[i], polls[i].facts))
  }

  lemma {:induction false} InstalledAreTables(polls: seq<L2Poll>)
    ensures forall i :: 0 <= i < |polls| ==>
      && TableOf(Fdb, FdbRows(InstalledL2(polls, i)))
      && TableOf(L2Nexthops, L2Rows(InstalledL2(polls, i)))
  {
    L2PollsKeepIds(polls);
    forall i | 0 <= i < |polls|
      ensures TableOf(Fdb, FdbRows(InstalledL2(polls, i))) && TableOf(L2Nexthops, L2Rows(InstalledL2(polls, i)))
    {
      InstalledL2RowsAreTables(RunL2(polls)[i], polls[i].facts);
    }
  }

  function FdbTables(polls: seq<L2Poll>): (tables: seq<Rows>)
    ensures Tables(Fdb, tables)
  {
    InstalledAreTables(polls);
    seq(|polls|, i requires 0 <= i < |polls| => FdbRows(InstalledL2(polls, i)))
  }

  function L2NexthopTables(polls: seq<L2Poll>): (tables: seq<Rows>)
    ensures Tables(L2Nexthops, tables)
  {
    InstalledAreTables(polls);
    seq(|polls|, i requires 0 <= i < |polls| => L2Rows(InstalledL2(polls, i)))
  }

  /** The subscriber holds exactly the installed keys, each with a row equal to the installed one. */
  ghost predicate Mirrors(table: Table, installed: Rows, sub: Rows) {
    && sub.Keys == installed.Keys
    && forall k :: k in sub ==>
      && RowOf(sub[k], table) && RowOf(installed[k], table) && Installable(sub[k]) && Installable(installed[k])
      && DeepCheck(installed[k], sub[k])
  }

  lemma {:induction false} MirrorsAll(table: Table, polls: seq<Rows>, notices: seq<seq<Notice>>)
    requires (table == Fdb || table == L2Nexthops) && Tables(table, polls) && Published(table, polls, notices)
    ensures Mirrors(table, Installed(polls), Subscriber(notices))
  {
    var installed, sub := Installed(polls), Subscriber(notices);
    assert TableOf(table, installed) by {
      if polls != [] {
        assert TableOf(table, polls[|polls| - 1]);
      }
    }
    forall k
      ensures k in sub <==> k in installed
      ensures k in sub ==> RowOf(sub[k], table) && Installable(sub[k]) && DeepCheck(installed[k], sub[k])
    {
      SubscriberTracks(table, polls, notices, k);
      if Suppressed(table, polls, k) {
        OnlyRoutesAndNexthopsSuppressed(table, polls, k);
      }
    }
  }

  /**
   Over any run of polls, whatever they read and in whatever order each walks its maps,
   subscribers hold exactly the installed FDB entries and L2 nexthops; and the L2 nexthop
   of every FDB entry a subscriber holds is one the subscribers of L2 nexthops hold.
   */
  lemma {:induction false} SubscribersTrackL2(polls: seq<L2Poll>, fdb: seq<seq<Notice>>, l2: seq<seq<Notice>>)
    requires Published(Fdb, FdbTables(polls), fdb) && Published(L2Nexthops, L2NexthopTables(polls), l2)
    ensures Mirrors(Fdb, Installed(FdbTables(polls)), Subscriber(fdb))
    ensures Mirrors(L2Nexthops, Installed(L2NexthopTables(polls)), Subscriber(l2))
    ensures forall k :: k in Subscriber(fdb) ==> Subscriber(fdb)[k].l2.key in Subscriber(l2)
  {
    MirrorsAll(Fdb, FdbTables(polls), fdb);
    MirrorsAll(L2Nexthops, L2NexthopTables(polls), l2);
    forall k | k in Subscriber(fdb) ensures Subscriber(fdb)[k].l2.key in Subscriber(l2) {
      HeldNexthop(polls, k);
      SameL2(Installed(FdbTables(polls))[k], Subscriber(fdb)[k]);
    }
  }

  lemma SameL2(a: Row, b: Row)
    requires a.FdbRow? && b.FdbRow? && DeepCheck(a, b)
    ensures a.l2.key == b.l2.key
  {}

  /** The L2 nexthop an installed FDB entry shows is installed under its key. */
  lemma HeldNexthop(polls: seq<L2Poll>, k: NetKey)
    requires k in Installed(FdbTables(polls))
    ensures Installed(FdbTables(polls))[k].FdbRow?
    ensures Installed(FdbTables(polls))[k].l2.key in Installed(L2NexthopTables(polls))
  {
    var n := |polls| - 1;
    var t := RunL2(polls)[n];
    L2PollsKeepIds(polls);
    InstalledFdbIsClosed(t, polls[n].facts, k);
    assert L2NexthopOk(t.l2s[t.fdb[k].l2], t.fdb[k].l2, t.ids);
  }

  // ---------------------------------------------------------------------
  // The tables in place
  // ---------------------------------------------------------------------

  class L2Db {
    var latestFDB: map<NetKey, FdbEntry>
    var latestL2Nexthop: map<NetKey, L2Nexthop>
    var l2NhIDCache: map<NetKey, int>
    var l2nexthopID: int

    constructor ()
      ensures Latest() == L2Net(map[], map[], map[], FIRST_ID)
    {
      latestFDB, latestL2Nexthop, l2NhIDCache, l2nexthopID := map[], map[], map[], FIRST_ID;
    }

    function Latest(): L2Net
      reads this
    {
      L2Net(latestFDB, latestL2Nexthop, l2NhIDCache, l2nexthopID)
    }

    method L2NHAssignID(key: NetKey) returns (id: int)
      modifies this`l2NhIDCache, this`l2nexthopID
      ensures (l2NhIDCache, l2nexthopID, id) == Assign(old(l2NhIDCache), old(l2nexthopID), key)
    {
      id := if key in l2NhIDCache then l2NhIDCache[key] else 0;
      if id == 0 {
        id := l2nexthopID;
        l2NhIDCache := l2NhIDCache[key := id];
        l2nexthopID := l2nexthopID + 1;
      }
    }

    method AddFdb(entry: FdbEntry, own: L2Nexthop)
      modifies this
      ensures Latest() == AddFdbEntry(old(Latest()), entry, own)
    {
      var key := own.core.key;
      if key in latestL2Nexthop {
        var known := latestL2Nexthop[key];
        latestL2Nexthop := latestL2Nexthop[key := known.(refs := known.refs + [entry.core])];
      } else {
        var id := L2NHAssignID(key);
        latestL2Nexthop := latestL2Nexthop[key := own.(core := own.core.(id := id), refs := own.refs + [entry.core])];
      }
      latestFDB := latestFDB[entry.core.key := entry.(l2 := key)];
    }

    method FilterFdb()
      modifies this`latestFDB
      ensures latestFDB == FilterL2(old(Latest())).fdb
    {
      ghost var was := latestFDB;
      var todo := latestFDB.Keys;
      while todo != {}
        invariant todo <= was.Keys
        invariant forall k :: k in latestFDB <==> k in was && (k in todo || InstallFdb(old(Latest()), was[k]))
        invariant forall k :: k in latestFDB ==> latestFDB[k] == was[k]
        decreases |todo|
      {
        var k :| k in todo;
        todo := todo - {k};
        if !InstallFdb(Latest(), latestFDB[k]) {
          latestFDB := latestFDB - {k};
        }
      }
    }
  }
}
