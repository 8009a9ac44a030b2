/**
 The snapshot differ (pkg/netlink/common.go, the notify part of netlink_watcher.go): each
 poll compares the new table with the old and publishes events. A subscriber that applies
 them tracks the table, whatever order the maps are walked in.
 */
module Differ {
  import opened Basics
  import opened Intents
  import opened NetRows

  type Rows = map<NetKey, Row>

  datatype Notice = Added(row: Row) | Updated(row: Row) | Deleted(row: Row)

  /** An installed table: rows of one kind under their own keys. */
  ghost predicate TableOf(table: Table, rows: Rows) {
    forall k :: k in rows ==> RowOf(rows[k], table) && KeyOf(rows[k]) == k && Installable(rows[k])
  }

  /** Only rows of routes and nexthops know their VRF. */
  predicate VrfDoomed(row: Row) {
    (row.RouteRow? || row.NexthopRow?) && row.vrfStatus == ToBeDeleted
  }

  function Change(table: Table, row: Row, was: Row): seq<Notice>
    requires Installable(row)
  {
    if DeepCheck(row, was) then []
    else if VrfDoomed(row) then [Deleted(row)]
    else if table == Routes then [Deleted(was), Added(row)]
    else [Updated(row)]
  }

  /** What a poll publishes about one key. */
  function NoticesAt(table: Table, latest: Rows, installed: Rows, k: NetKey): seq<Notice>
    requires TableOf(table, latest) && TableOf(table, installed)
  {
    if k in latest && k in installed then Change(table, latest[k], installed[k])
    else if k in latest then [Added(latest[k])]
    else if k in installed then [Deleted(installed[k])]
    else []
  }

  /** The notices about `k`, in the order they were published. */
  function About(notices: seq<Notice>, k: NetKey): seq<Notice> {
    if notices == [] then []
    else
      var last := notices[|notices| - 1];
      About(notices[..|notices| - 1], k) + if KeyOf(last.row) == k then [last] else []
  }

  /** The notices of one poll, in any of the orders in which the maps can be walked. */
  ghost predicate Publishes(table: Table, latest: Rows, installed: Rows, notices: seq<Notice>)
    requires TableOf(table, latest) && TableOf(table, installed)
  {
    forall k :: About(notices, k) == NoticesAt(table, latest, installed, k)
  }

  lemma AboutAppend(notices: seq<Notice>, n: Notice, k: NetKey)
    ensures About(notices + [n], k) == About(notices, k) + if KeyOf(n.row) == k then [n] else []
  {
    assert (notices + [n])[..|notices|] == notices;
  }

  lemma {:induction false} AboutOther(notices: seq<Notice>, more: seq<Notice>, j: NetKey)
    requires forall i :: 0 <= i < |more| ==> KeyOf(more[i].row) != j
    ensures About(notices + more, j) == About(notices, j)
    decreases |more|
  {
    if more == [] {
      assert notices + more == notices;
    } else {
      var front, last := more[..|more| - 1], more[|more| - 1];
      AboutOther(notices, front, j);
      AboutAppend(notices + front, last, j);
      assert notices + more == (notices + front) + [last];
    }
  }

  lemma {:induction false} AboutSame(notices: seq<Notice>, more: seq<Notice>, j: NetKey)
    requires forall i :: 0 <= i < |more| ==> KeyOf(more[i].row) == j
    ensures About(notices + more, j) == About(notices, j) + more
    decreases |more|
  {
    if more == [] {
      assert notices + more == notices;
    } else {
      var front, last := more[..|more| - 1], more[|more| - 1];
      AboutSame(notices, front, j);
      AboutAppend(notices + front, last, j);
      assert notices + more == (notices + front) + [last];
      assert About(notices, j) + more == About(notices, j) + front + [last];
    }
  }

  /** Since `start`, exactly what there is to say about the keys in `done` was published. */
  ghost predicate Told(start: seq<Notice>, published: seq<Notice>, done: set<NetKey>,
                       table: Table, latest: Rows, installed: Rows)
    requires TableOf(table, latest) && TableOf(table, installed)
  {
    forall k :: About(published, k) ==
      About(start, k) + (if k in done then NoticesAt(table, latest, installed, k) else [])
  }

  lemma TellOne(start: seq<Notice>, published: seq<Notice>, done: set<NetKey>,
                table: Table, latest: Rows, installed: Rows, k: NetKey)
    requires TableOf(table, latest) && TableOf(table, installed)
    requires Told(start, published, done, table, latest, installed) && k !in done
    ensures Told(start, published + NoticesAt(table, latest, installed, k), done + {k}, table, latest, installed)
  {
    var more := NoticesAt(table, latest, installed, k);
    NoticesAreAbout(table, latest, installed, k);
    forall j {
      TellAt(start, published, more, k, j);
    }
  }

  lemma NoticesAreAbout(table: Table, latest: Rows, installed: Rows, k: NetKey)
    requires TableOf(table, latest) && TableOf(table, installed)
    ensures var more := NoticesAt(table, latest, installed, k);
      forall i :: 0 <= i < |more| ==> KeyOf(more[i].row) == k
  {}

  lemma TellAt(start: seq<Notice>, published: seq<Notice>, more: seq<Notice>, k: NetKey, j: NetKey)
    requires forall i :: 0 <= i < |more| ==> KeyOf(more[i].row) == k
    ensures j == k && About(published, j) == About(start, j) ==> About(published + more, j) == About(start, j) + more
    ensures j != k ==> About(published + more, j) == About(published, j)
  {
    if j == k {
      AboutSame(published, more, j);
    } else {
      AboutOther(published, more, j);
    }
  }

  /** `db` is `rows` without the keys in `done`. */
  ghost predicate Left(db: Rows, rows: Rows, done: set<NetKey>) {
    && (forall k :: k in db <==> k in rows && k !in done)
    && (forall k :: k in db ==> db[k] == rows[k])
  }

  function Each(rows: Rows, done: set<NetKey>, add: bool, k: NetKey): seq<Notice> {
    if k in rows && k in done then [if add then Added(rows[k]) else Deleted(rows[k])] else []
  }

  class Watcher {
    var published: seq<Notice>

    constructor ()
      ensures published == []
    {
      published := [];
    }

    method NotifyAddDel(n: Notice)
      modifies this
      ensures published == old(published) + [n]
    {
      published := published + [n];
    }

    /** The entry has changed, or not. */
    method NotifyIfChanged(table: Table, row: Row, was: Row)
      requires Installable(row) && RowOf(row, table)
      modifies this
      ensures published == old(published) + Change(table, row, was)
      ensures DeepCheck(row, was) ==> published == old(published)
      ensures !DeepCheck(row, was) ==>
        published == old(published)
          + if (table == Routes || table == Nexthops) && row.vrfStatus == ToBeDeleted then [Deleted(row)]
            else if table == Routes then [Deleted(was), Added(row)]
            else [Updated(row)]
    {
      if !DeepCheck(row, was) {
        if VrfDoomed(row) {
          NotifyAddDel(Deleted(row));
        } else if table == Routes {
          NotifyAddDel(Deleted(was));
          NotifyAddDel(Added(row));
        } else {
          NotifyAddDel(Updated(row));
        }
      }
    }

    /** The first loop of notify_changes: the keys both maps have are handled and taken out of both. */
    method NotifyCommon(table: Table, latest: Rows, installed: Rows) returns (newDb: Rows, oldDb: Rows)
      requires TableOf(table, latest) && TableOf(table, installed)
      modifies this
      ensures Left(newDb, latest, latest.Keys * installed.Keys)
      ensures Left(oldDb, installed, latest.Keys * installed.Keys)
      ensures Told(old(published), published, latest.Keys * installed.Keys, table, latest, installed)
    {
      ghost var start := published;
      ghost var done: set<NetKey> := {};
      newDb, oldDb := latest, installed;
      var todo := newDb.Keys;
      while todo != {}
        invariant todo <= newDb.Keys
        invariant forall k :: k in done <==> k in latest && k in installed && k !in todo
        invariant Left(newDb, latest, done) && Left(oldDb, installed, done)
        invariant Told(start, published, done, table, latest, installed)
        decreases |todo|
      {
        var k :| k in todo;
        todo := todo - {k};
        if k in oldDb {
          TellOne(start, published, done, table, latest, installed, k);
          NotifyIfChanged(table, newDb[k], oldDb[k]);
          newDb := newDb - {k};
          oldDb := oldDb - {k};
          done := done + {k};
        }
      }
      assert done == latest.Keys * installed.Keys;
    }

    /** notify_changes: what is left in the new map after the common keys was added, in the old map deleted. */
    method NotifyChanges(table: Table, latest: Rows, installed: Rows)
      requires TableOf(table, latest) && TableOf(table, installed)
      modifies this
      ensures forall k ::
        About(published, k) == About(old(published), k) + NoticesAt(table, latest, installed, k)
    {
      var newDb, oldDb := NotifyCommon(table, latest, installed);
      NotifyUpdates(newDb, true);
      NotifyUpdates(oldDb, false);
    }

    /** One notice for every row of a map; notifyUpdates does it at shutdown for what is still installed. */
    method NotifyUpdates(rows: Rows, add: bool)
      requires forall k :: k in rows ==> KeyOf(rows[k]) == k
      modifies this
      ensures forall k :: About(published, k) == About(old(published), k) + Each(rows, rows.Keys, add, k)
    {
      ghost var start := published;
      ghost var done: set<NetKey> := {};
      var todo := rows.Keys;
      while todo != {}
        invariant todo <= rows.Keys && done == rows.Keys - todo
        invariant forall k :: About(published, k) == About(start, k) + Each(rows, done, add, k)
        decreases |todo|
      {
        var k :| k in todo;
        todo := todo - {k};
        var n := if add then Added(rows[k]) else Deleted(rows[k]);
        forall j ensures About(published + [n], j) == About(published, j) + if j == k then [n] else [] {
          AboutAppend(published, n, j);
        }
        NotifyAddDel(n);
        done := done + {k};
      }
      assert done == rows.Keys;
    }
  }

  // ---------------------------------------------------------------------
  // A subscriber
  // ---------------------------------------------------------------------

  function ApplyNotice(sub: Rows, n: Notice): Rows {
    if n.Deleted? then sub - {KeyOf(n.row)} else sub[KeyOf(n.row) := n.row]
  }

  function ApplyAll(sub: Rows, notices: seq<Notice>): Rows {
    if notices == [] then sub
    else ApplyNotice(ApplyAll(sub, notices[..|notices| - 1]), notices[|notices| - 1])
  }

  function At(rows: Rows, k: NetKey): Option<Row> {
    if k in rows then Some(rows[k]) else None
  }

  /** What a subscriber holds under a key is decided by the last notice about it. */
  lemma {:induction false} LastNoticeDecides(sub: Rows, notices: seq<Notice>, k: NetKey)
    ensures var about := About(notices, k);
      At(ApplyAll(sub, notices), k) ==
        if about == [] then At(sub, k)
        else if about[|about| - 1].Deleted? then None
        else Some(about[|about| - 1].row)
  {
    if notices != [] {
      LastNoticeDecides(sub, notices[..|notices| - 1], k);
    }
  }

  // ---------------------------------------------------------------------
  // Whole runs of polls
  // ---------------------------------------------------------------------

  /** The table the differ took as installed before the last poll. */
  function Installed(polls: seq<Rows>): Rows {
    if polls == [] then map[] else polls[|polls| - 1]
  }

  ghost predicate Tables(table: Table, polls: seq<Rows>) {
    forall i :: 0 <= i < |polls| ==> TableOf(table, polls[i])
  }

  /** `k` is installed and last changed while its VRF was to be deleted. */
  ghost predicate Suppressed(table: Table, polls: seq<Rows>, k: NetKey)
    requires Tables(table, polls)
  {
    if polls == [] then false
    else
      var before, latest := polls[..|polls| - 1], polls[|polls| - 1];
      var installed := Installed(before);
      && k in latest && k in installed
      && if DeepCheck(latest[k], installed[k]) then Suppressed(table, before, k)
         else (table == Routes || table == Nexthops) && latest[k].vrfStatus == ToBeDeleted
  }

  /** What each poll published, in some order of its own. */
  ghost predicate Published(table: Table, polls: seq<Rows>, notices: seq<seq<Notice>>)
    requires Tables(table, polls)
  {
    |notices| == |polls| && forall i :: 0 <= i < |polls| ==>
      Publishes(table, polls[i], Installed(polls[..i]), notices[i])
  }

  function Subscriber(notices: seq<seq<Notice>>): Rows {
    if notices == [] then map[]
    else ApplyAll(Subscriber(notices[..|notices| - 1]), notices[|notices| - 1])
  }

  /** The subscriber lacks exactly the suppressed keys and otherwise holds an equal row. */
  ghost predicate TracksAt(table: Table, polls: seq<Rows>, sub: Rows, k: NetKey)
    requires Tables(table, polls)
  {
    && (k in sub <==> k in Installed(polls) && !Suppressed(table, polls, k))
    && (k in sub && k in Installed(polls) ==>
         && RowOf(sub[k], table) && Installable(sub[k]) && KeyOf(sub[k]) == k
         && DeepCheck(Installed(polls)[k], sub[k]))
  }

  lemma {:induction false} SubscriberTracks(table: Table, polls: seq<Rows>, notices: seq<seq<Notice>>, k: NetKey)
    requires Tables(table, polls) && Published(table, polls, notices)
    ensures TracksAt(table, polls, Subscriber(notices), k)
  {
    if polls != [] {
      var n := |polls| - 1;
      assert forall i :: 0 <= i < n ==> polls[..n][..i] == polls[..i];
      SubscriberTracks(table, polls[..n], notices[..n], k);
      TracksStep(table, polls[..n], polls[n], Subscriber(notices[..n]), notices[n], k);
      assert polls[..n] + [polls[n]] == polls;
    }
  }

  lemma TracksStep(table: Table, before: seq<Rows>, latest: Rows, sub: Rows, notices: seq<Notice>, k: NetKey)
    requires Tables(table, before) && TableOf(table, latest) && TableOf(table, Installed(before))
    requires TracksAt(table, before, sub, k) && Publishes(table, latest, Installed(before), notices)
    ensures Tables(table, before + [latest]) && TracksAt(table, before + [latest], ApplyAll(sub, notices), k)
  {
    var polls := before + [latest];
    assert polls[..|polls| - 1] == before;
    LastNoticeDecides(sub, notices, k);
    TracksOneMore(table, latest, Installed(before), sub, ApplyAll(sub, notices), k, Suppressed(table, before, k));
  }

  /** One more poll, seen from one key: `silent` says that the key was suppressed before. */
  lemma TracksOneMore(table: Table, latest: Rows, installed: Rows, sub: Rows, sub': Rows, k: NetKey, silent: bool)
    requires TableOf(table, latest) && TableOf(table, installed)
    requires k in sub <==> k in installed && !silent
    requires k in sub && k in installed ==>
      RowOf(sub[k], table) && Installable(sub[k]) && KeyOf(sub[k]) == k && DeepCheck(installed[k], sub[k])
    requires var about := NoticesAt(table, latest, installed, k);
      At(sub', k) == if about == [] then At(sub, k)
                     else if about[|about| - 1].Deleted? then None
                     else Some(about[|about| - 1].row)
    ensures k in sub' <==>
      k in latest &&
      !(k in installed && if DeepCheck(latest[k], installed[k]) then silent
                          else (table == Routes || table == Nexthops) && latest[k].vrfStatus == ToBeDeleted)
    ensures k in sub' && k in latest ==>
      RowOf(sub'[k], table) && Installable(sub'[k]) && KeyOf(sub'[k]) == k && DeepCheck(latest[k], sub'[k])
  {
    if k in latest {
      DeepCheckIsEquivalence(table, latest[k], latest[k], latest[k]);
      if k in installed && k in sub {
        DeepCheckIsEquivalence(table, latest[k], installed[k], sub[k]);
      }
    }
  }

  /** A key none of whose rows was ever of a VRF to be deleted is held exactly while it is installed. */
  lemma {:induction false} NeverDoomedIsHeld(table: Table, polls: seq<Rows>, notices: seq<seq<Notice>>, k: NetKey)
    requires Tables(table, polls) && Published(table, polls, notices)
    requires forall i :: 0 <= i < |polls| && k in polls[i] && (polls[i][k].RouteRow? || polls[i][k].NexthopRow?) ==>
      polls[i][k].vrfStatus != ToBeDeleted
    ensures k in Subscriber(notices) <==> k in Installed(polls)
  {
    SubscriberTracks(table, polls, notices, k);
    NeverSuppressed(table, polls, k);
  }

  lemma {:induction false} NeverSuppressed(table: Table, polls: seq<Rows>, k: NetKey)
    requires Tables(table, polls)
    requires forall i :: 0 <= i < |polls| && k in polls[i] && (polls[i][k].RouteRow? || polls[i][k].NexthopRow?) ==>
      polls[i][k].vrfStatus != ToBeDeleted
    ensures !Suppressed(table, polls, k)
  {
    if polls != [] {
      NeverSuppressed(table, polls[..|polls| - 1], k);
    }
  }

  /**
   A route or nexthop that a poll finds changed is held afterwards exactly when its VRF is
   not to be deleted: else it is withdrawn, and stays so until it changes again.
   */
  lemma {:induction false} ChangedIsHeldUnlessDoomed(table: Table, polls: seq<Rows>, notices: seq<seq<Notice>>,
                                                     k: NetKey)
    requires Tables(table, polls) && Published(table, polls, notices) && |polls| >= 2
    requires (table == Routes || table == Nexthops) && k in polls[|polls| - 2] && k in polls[|polls| - 1]
    requires LookOf(polls[|polls| - 1][k]) != LookOf(polls[|polls| - 2][k])
    ensures k in Subscriber(notices) <==> polls[|polls| - 1][k].vrfStatus != ToBeDeleted
  {
    SubscriberTracks(table, polls, notices, k);
    DeepCheckComparesLooks(table, polls[|polls| - 1][k], polls[|polls| - 2][k]);
  }

  // ---------------------------------------------------------------------
  // The order of the notices about one key
  // ---------------------------------------------------------------------

  /** A key is added only when it is not held, and updated or deleted only when it is. */
  ghost predicate Orderly(sub: Rows, notices: seq<Notice>, k: NetKey) {
    forall i :: 0 <= i < |notices| && KeyOf(notices[i].row) == k ==> FitsHeld(ApplyAll(sub, notices[..i]), notices[i])
  }

  predicate FitsHeld(held: Rows, n: Notice) {
    n.Added? <==> KeyOf(n.row) !in held
  }

  lemma {:induction false} AboutSplit(notices: seq<Notice>, i: nat, k: NetKey)
    requires i < |notices| && KeyOf(notices[i].row) == k
    ensures About(notices[..i], k) + [notices[i]] <= About(notices, k)
  {
    if i == |notices| - 1 {
    } else {
      var front := notices[..|notices| - 1];
      assert front[..i] == notices[..i];
      AboutSplit(front, i, k);
    }
  }

  /** Every notice that `About` lists is somewhere in the list. */
  lemma {:induction false} AboutAt(notices: seq<Notice>, k: NetKey, m: nat) returns (i: nat)
    requires m < |About(notices, k)|
    ensures i < |notices| && KeyOf(notices[i].row) == k
    ensures About(notices[..i], k) == About(notices, k)[..m] && notices[i] == About(notices, k)[m]
  {
    var front := notices[..|notices| - 1];
    if m < |About(front, k)| {
      i := AboutAt(front, k, m);
      assert front[..i] == notices[..i];
    } else {
      i := |notices| - 1;
    }
  }

  /** The `m`-th notice fits what the ones before leave behind. */
  predicate FitsAt(held: bool, about: seq<Notice>, m: nat)
    requires m < |about|
  {
    about[m].Added? <==> !(if m == 0 then held else !about[m - 1].Deleted?)
  }

  predicate FitAll(held: bool, about: seq<Notice>) {
    forall m :: 0 <= m < |about| ==> FitsAt(held, about, m)
  }

  /** The order matters only among the notices about the key. */
  lemma {:induction false} OrderlyIsAbout(sub: Rows, notices: seq<Notice>, k: NetKey)
    ensures Orderly(sub, notices, k) <==> FitAll(k in sub, About(notices, k))
  {
    var about := About(notices, k);
    if Orderly(sub, notices, k) {
      forall m | 0 <= m < |about| ensures FitsAt(k in sub, about, m) {
        var i := AboutAt(notices, k, m);
        LastNoticeDecides(sub, notices[..i], k);
        assert FitsHeld(ApplyAll(sub, notices[..i]), notices[i]);
      }
    }
    if FitAll(k in sub, about) {
      forall i | 0 <= i < |notices| && KeyOf(notices[i].row) == k
        ensures FitsHeld(ApplyAll(sub, notices[..i]), notices[i])
      {
        AboutSplit(notices, i, k);
        LastNoticeDecides(sub, notices[..i], k);
        assert FitsAt(k in sub, about, |About(notices[..i], k)|);
      }
    }
  }

  lemma NoticesFit(table: Table, latest: Rows, installed: Rows, k: NetKey, silent: bool)
    requires TableOf(table, latest) && TableOf(table, installed) && (silent ==> k in installed)
    ensures var about := NoticesAt(table, latest, installed, k);
      FitAll(k in installed && !silent, about) <==> !(silent && about != [])
  {
    var about := NoticesAt(table, latest, installed, k);
    if silent && about != [] {
      assert !FitsAt(false, about, 0);
    }
  }

  /**
   What a poll publishes about a key fits what subscribers hold, except about a suppressed
   key: any notice about that one updates or deletes what they do not have.
   */
  lemma {:induction false} NoticesFitHeld(table: Table, polls: seq<Rows>, notices: seq<seq<Notice>>, k: NetKey)
    requires Tables(table, polls) && Published(table, polls, notices) && polls != []
    ensures var n := |polls| - 1;
      Orderly(Subscriber(notices[..n]), notices[n], k) <==>
      !(Suppressed(table, polls[..n], k) && About(notices[n], k) != [])
  {
    var n := |polls| - 1;
    assert forall i :: 0 <= i < n ==> polls[..n][..i] == polls[..i];
    SubscriberTracks(table, polls[..n], notices[..n], k);
    OrderlyIsAbout(Subscriber(notices[..n]), notices[n], k);
    assert About(notices[n], k) == NoticesAt(table, polls[n], Installed(polls[..n]), k);
    NoticesFit(table, polls[n], Installed(polls[..n]), k, Suppressed(table, polls[..n], k));
  }

  /** FDB entries and L2 nexthops know no VRF, so nothing of them is ever suppressed. */
  lemma {:induction false} OnlyRoutesAndNexthopsSuppressed(table: Table, polls: seq<Rows>, k: NetKey)
    requires Tables(table, polls) && Suppressed(table, polls, k)
    ensures table == Routes || table == Nexthops
  {
    var before, latest := polls[..|polls| - 1], polls[|polls| - 1];
    if DeepCheck(latest[k], Installed(before)[k]) {
      OnlyRoutesAndNexthopsSuppressed(table, before, k);
    }
  }

  /** After the shutdown notices for the last table the subscriber holds nothing of it. */
  lemma ShutdownEmpties(table: Table, polls: seq<Rows>, notices: seq<seq<Notice>>, last: seq<Notice>)
    requires Tables(table, polls) && Published(table, polls, notices)
    requires forall k :: About(last, k) == Each(Installed(polls), Installed(polls).Keys, false, k)
    ensures ApplyAll(Subscriber(notices), last) == map[]
  {
    forall k ensures k !in ApplyAll(Subscriber(notices), last) {
      SubscriberTracks(table, polls, notices, k);
      LastNoticeDecides(Subscriber(notices), last, k);
    }
  }
}
