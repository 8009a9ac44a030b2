/**
 Deletion: an object leaves the store only when every one of its modules has reported
 Success after the latest request to delete it, and a request to delete is never taken
 back. Read off the log of the run; nothing is assumed about modules.
 */
module Teardown {
  import opened Basics
  import opened Intents
  import opened TaskManager
  import opened Protocol
  import opened NoLostIntent

  /** An entry that starts or ends a life of the object, or asks for its end. */
  predicate IsMilestone(e: Entry, k: Key) {
    (e.Created? || e.Marked? || e.Removed?) && e.key == k
  }

  predicate Touches(e: Entry, k: Key) {
    IsMilestone(e, k) || ((e.Replayed? || e.Reported?) && e.key == k)
  }

  /** Whether the latest milestone is a request to delete. */
  function Doomed(log: seq<Entry>, k: Key): bool {
    if log == [] then false
    else
      var last := log[|log| - 1];
      if IsMilestone(last, k) then last.Marked? else Doomed(log[..|log| - 1], k)
  }

  /** The modules whose latest word since the latest milestone is Success. */
  function Confirmed(log: seq<Entry>, k: Key): set<string> {
    if log == [] then {}
    else
      var last := log[|log| - 1];
      var before := Confirmed(log[..|log| - 1], k);
      if IsMilestone(last, k) then {}
      else if last.Replayed? && last.key == k then before - {last.component}
      else if last.Reported? && last.key == k then
        if last.ok then before + {last.component} else before - {last.component}
      else before
  }

  /** The version the object was last given. */
  function VersionOf(log: seq<Entry>, k: Key): Option<int> {
    if log == [] then None
    else
      var last := log[|log| - 1];
      if (last.Created? || last.Marked? || last.Replayed?) && last.key == k then Some(last.version)
      else VersionOf(log[..|log| - 1], k)
  }

  ghost predicate EntrySafe(cfg: Config, before: seq<Entry>, e: Entry) {
    && (e.Removed? ==> Doomed(before, e.key) && Elems(cfg.Of(e.key.kind)) <= Confirmed(before, e.key))
    && (e.Reported? ==> VersionOf(before, e.key) == Some(e.version))
  }

  ghost predicate LogSafe(cfg: Config, log: seq<Entry>) {
    forall n :: 0 <= n < |log| ==> EntrySafe(cfg, log[..n], log[n])
  }

  /** The store is what the log says it is. */
  ghost predicate Told(cfg: Config, log: seq<Entry>, k: Key, x: Intent) {
    && Follows(x, cfg.Of(k.kind))
    && (forall i :: 0 <= i < |x.comps| ==> (x.comps[i].status == Success <==> x.comps[i].name in Confirmed(log, k)))
    && (x.oper == ToBeDeleted <==> Doomed(log, k))
    && VersionOf(log, k) == Some(x.version)
  }

  ghost predicate Faithful(cfg: Config, s: Sys) {
    LogSafe(cfg, s.log) && forall k :: k in s.store ==> Told(cfg, s.log, k, s.store[k])
  }

  lemma AppendSafe(cfg: Config, log: seq<Entry>, e: Entry)
    requires LogSafe(cfg, log) && EntrySafe(cfg, log, e)
    ensures LogSafe(cfg, log + [e])
  {
    forall n | 0 <= n < |log + [e]| ensures EntrySafe(cfg, (log + [e])[..n], (log + [e])[n]) {
      assert (log + [e])[..n] == if n < |log| then log[..n] else log;
    }
  }

  /** What one entry changes for an object. */
  lemma AfterEntry(log: seq<Entry>, e: Entry, k: Key)
    ensures Doomed(log + [e], k) == if IsMilestone(e, k) then e.Marked? else Doomed(log, k)
    ensures VersionOf(log + [e], k) ==
      if (e.Created? || e.Marked? || e.Replayed?) && e.key == k then Some(e.version) else VersionOf(log, k)
    ensures Confirmed(log + [e], k) ==
      if IsMilestone(e, k) then {}
      else if e.Replayed? && e.key == k then Confirmed(log, k) - {e.component}
      else if e.Reported? && e.key == k then
        if e.ok then Confirmed(log, k) + {e.component} else Confirmed(log, k) - {e.component}
      else Confirmed(log, k)
  {
    assert (log + [e])[..|log + [e]| - 1] == log;
  }

  lemma {:induction false} AppendAside(cfg: Config, log: seq<Entry>, more: seq<Entry>, k: Key)
    requires forall e :: e in more ==> !Touches(e, k)
    ensures Doomed(log + more, k) == Doomed(log, k)
    ensures VersionOf(log + more, k) == VersionOf(log, k)
    ensures Confirmed(log + more, k) == Confirmed(log, k)
  {
    if more == [] {
      assert log + more == log;
    } else {
      var fewer := more[..|more| - 1];
      assert log + more == log + fewer + [more[|more| - 1]];
      AfterEntry(log + fewer, more[|more| - 1], k);
      assert more[|more| - 1] in more;
      AppendAside(cfg, log, fewer, k);
    }
  }

  lemma {:induction false} AppendPlain(cfg: Config, log: seq<Entry>, more: seq<Entry>)
    requires LogSafe(cfg, log) && forall e :: e in more ==> !e.Removed? && !e.Reported?
    ensures LogSafe(cfg, log + more)
  {
    if more == [] {
      assert log + more == log;
    } else {
      var fewer := more[..|more| - 1];
      AppendPlain(cfg, log, fewer);
      assert more[|more| - 1] in more;
      AppendSafe(cfg, log + fewer, more[|more| - 1]);
      assert log + more == log + fewer + [more[|more| - 1]];
    }
  }

  // ---------------------------------------------------------------------
  // Every step keeps it
  // ---------------------------------------------------------------------

  lemma AsideKeeps(cfg: Config, s: Sys, s': Sys, more: seq<Entry>)
    requires Faithful(cfg, s) && s'.store == s.store && s'.log == s.log + more
    requires forall e, k :: e in more ==> !Touches(e, k)
    requires forall e :: e in more ==> !e.Removed? && !e.Reported?
    ensures Faithful(cfg, s')
  {
    AppendPlain(cfg, s.log, more);
    forall k | k in s'.store ensures Told(cfg, s'.log, k, s'.store[k]) {
      AppendAside(cfg, s.log, more, k);
      assert Told(cfg, s.log, k, s.store[k]);
    }
  }

  lemma DriveFaithful(cfg: Config, s: Sys, input: Input)
    requires Faithful(cfg, s)
    ensures Faithful(cfg, Drive(s, input))
  {
    AsideKeeps(cfg, s, Drive(s, input), LogOf(s.mgr, input));
  }

  lemma MilestoneKeeps(cfg: Config, s: Sys, s': Sys, k: Key, x: Intent, e: Entry)
    requires Faithful(cfg, s) && s'.store == s.store[k := x] && s'.log == s.log + [e]
    requires Follows(x, cfg.Of(k.kind)) && forall i :: 0 <= i < |x.comps| ==> x.comps[i].status == Pending
    requires (e.Created? && x.oper == Down) || (e.Marked? && x.oper == ToBeDeleted)
    requires e.key == k && e.version == x.version
    ensures Faithful(cfg, s')
  {
    AppendSafe(cfg, s.log, e);
    forall j | j in s'.store ensures Told(cfg, s'.log, j, s'.store[j]) {
      AfterEntry(s.log, e, j);
      if j != k {
        assert Told(cfg, s.log, j, s.store[j]);
      }
    }
  }

  lemma {:induction false} CreateFaithful(cfg: Config, s: Sys, key: Key)
    requires Faithful(cfg, s) && cfg.Valid()
    ensures Faithful(cfg, DoCreate(cfg, s, key))
  {
    var subs := cfg.Of(key.kind);
    if subs != [] {
      var x := NewIntent(subs, s.nextVersion);
      assert Names(x.comps) == subs;
      MilestoneKeeps(cfg, s, DoCreate(cfg, s, key), key, x, Created(key, s.nextVersion));
    }
  }

  lemma {:induction false} DeleteFaithful(cfg: Config, s: Sys, key: Key)
    requires Faithful(cfg, s)
    ensures Faithful(cfg, DoDelete(cfg, s, key))
  {
    var subs := cfg.Of(key.kind);
    if subs != [] && key in s.store && |subs| <= |s.store[key].comps| {
      assert Told(cfg, s.log, key, s.store[key]);
      assert |Names(s.store[key].comps)| == |s.store[key].comps|;
      var x := MarkDeleted(s.store[key], |subs|, s.nextVersion);
      assert Names(x.comps) == subs;
      MilestoneKeeps(cfg, s, DoDelete(cfg, s, key), key, x, Marked(key, s.nextVersion));
    }
  }

  /** The object after a report, against the log with the report. */
  lemma ReportTold(cfg: Config, log: seq<Entry>, k: Key, x: Intent, comp: Component)
    requires Told(cfg, log, k, x)
    ensures var e := ReportEntry(k, x.version, comp);
      && EntrySafe(cfg, log, e)
      && (AfterReport(x, comp).Some? ==> Told(cfg, log + [e], k, AfterReport(x, comp).value))
      && (AfterReport(x, comp).None? ==> EntrySafe(cfg, log + [e], Removed(k)))
  {
    var e := ReportEntry(k, x.version, comp);
    AfterEntry(log, e, k);
    SetComponentAt(x.comps, comp);
    var comps := SetComponent(x.comps, comp);
    assert forall i :: 0 <= i < |comps| ==> (comps[i].status == Success <==> comps[i].name in Confirmed(log + [e], k));
    if AfterReport(x, comp).None? {
      forall c | c in Elems(cfg.Of(k.kind)) ensures c in Confirmed(log + [e], k) {
        var i :| 0 <= i < |cfg.Of(k.kind)| && cfg.Of(k.kind)[i] == c;
        assert Names(comps)[i] == comps[i].name;
      }
    }
  }

  /** A report on one object, and its removal, say nothing about another. */
  lemma OtherTold(cfg: Config, log: seq<Entry>, more: seq<Entry>, j: Key, x: Intent)
    requires Told(cfg, log, j, x) && forall i :: 0 <= i < |more| ==> !Touches(more[i], j)
    ensures Told(cfg, log + more, j, x)
  {
    assert forall e :: e in more ==> exists i :: 0 <= i < |more| && more[i] == e;
    AppendAside(cfg, log, more, j);
  }

  /** A report on the current version that is written to the object. */
  lemma {:induction false} KeptFaithful(cfg: Config, s: Sys, s': Sys, k: Key, comp: Component)
    requires Faithful(cfg, s) && k in s.store && AfterReport(s.store[k], comp).Some?
    requires s'.store == s.store[k := AfterReport(s.store[k], comp).value]
    requires s'.log == s.log + [ReportEntry(k, s.store[k].version, comp)]
    ensures Faithful(cfg, s')
  {
    var r := ReportEntry(k, s.store[k].version, comp);
    assert Told(cfg, s.log, k, s.store[k]);
    ReportTold(cfg, s.log, k, s.store[k], comp);
    AppendSafe(cfg, s.log, r);
    forall j | j in s'.store ensures Told(cfg, s'.log, j, s'.store[j]) {
      if j != k {
        assert Told(cfg, s.log, j, s.store[j]);
        OtherTold(cfg, s.log, [r], j, s.store[j]);
      }
    }
  }

  /** A report that completes a deletion: the object is removed. */
  lemma {:induction false} RemovedFaithful(cfg: Config, s: Sys, s': Sys, k: Key, comp: Component)
    requires Faithful(cfg, s) && k in s.store && AfterReport(s.store[k], comp).None?
    requires s'.store == s.store - {k}
    requires s'.log == s.log + [ReportEntry(k, s.store[k].version, comp), Removed(k)]
    ensures Faithful(cfg, s')
  {
    var r := ReportEntry(k, s.store[k].version, comp);
    assert Told(cfg, s.log, k, s.store[k]);
    ReportTold(cfg, s.log, k, s.store[k], comp);
    AppendSafe(cfg, s.log, r);
    AppendSafe(cfg, s.log + [r], Removed(k));
    assert s'.log == s.log + [r] + [Removed(k)];
    forall j | j in s'.store ensures Told(cfg, s'.log, j, s'.store[j]) {
      assert Told(cfg, s.log, j, s.store[j]);
      OtherTold(cfg, s.log, [r, Removed(k)], j, s.store[j]);
    }
  }

  lemma RecordFaithful(cfg: Config, s: Sys, e: Event, comp: Component)
    requires Faithful(cfg, s)
    ensures Faithful(cfg, Record(s, e, comp).0)
  {
    var s' := Record(s, e, comp).0;
    if Current(s.store, e.key, e.version) && !comp.replay {
      var r := ReportEntry(e.key, e.version, comp);
      if AfterReport(s.store[e.key], comp).Some? {
        assert s'.log == s.log + [r];
        KeptFaithful(cfg, s, s', e.key, comp);
      } else {
        assert s'.log == s.log + [r, Removed(e.key)];
        RemovedFaithful(cfg, s, s', e.key, comp);
      }
    } else {
      assert s.log + [] == s.log;
      AsideKeeps(cfg, s, s', []);
    }
  }

  lemma ReportFaithful(cfg: Config, s: Sys, slot: Slot, comp: Component, delivered: bool)
    requires Faithful(cfg, s)
    ensures Faithful(cfg, DoReport(s, slot, comp, delivered))
  {
    if slot in s.hands {
      var e := s.hands[slot];
      var s1 := s.(hands := s.hands - {slot});
      AsideKeeps(cfg, s, s1, []);
      RecordFaithful(cfg, s1, e, comp);
      var (s2, drop) := Record(s1, e, comp);
      if delivered {
        DriveFaithful(cfg, s2, Received(Signal(e.nid, drop, comp)));
      }
    }
  }

  ghost predicate ReplaysOthers(entries: seq<Entry>, k: Key) {
    forall i :: 0 <= i < |entries| ==> entries[i].Replayed? && entries[i].key != k
  }

  /** Entries of a replay of other objects say nothing about `k`. */
  lemma {:induction false} OthersReplayed(log: seq<Entry>, more: seq<Entry>, k: Key)
    requires ReplaysOthers(more, k)
    ensures Doomed(log + more, k) == Doomed(log, k)
    ensures VersionOf(log + more, k) == VersionOf(log, k)
    ensures Confirmed(log + more, k) == Confirmed(log, k)
    decreases |more|
  {
    if more == [] {
      assert log + more == log;
    } else {
      var front, e := more[..|more| - 1], more[|more| - 1];
      OthersReplayed(log, front, k);
      AfterEntry(log + front, e, k);
      assert log + more == log + front + [e];
    }
  }

  lemma {:induction false} ReplayLogIs(order: seq<Key>, c: string, v: int)
    ensures |ReplayLog(order, c, v)| == |order|
    ensures forall i :: 0 <= i < |order| ==> ReplayLog(order, c, v)[i] == Replayed(order[i], v + i, c)
    decreases |order|
  {
    if order != [] {
      ReplayLogIs(order[1..], c, v + 1);
    }
  }

  /** A replay's log around the object at `i`: the entry about it, and others before and after. */
  lemma ReplayLogAround(order: seq<Key>, c: string, v: int, i: nat)
    requires NoDup(order) && i < |order|
    ensures var all := ReplayLog(order, c, v);
      && |all| == |order| && all[i] == Replayed(order[i], v + i, c) && all == all[..i] + [all[i]] + all[i + 1..]
      && ReplaysOthers(all[..i], order[i]) && ReplaysOthers(all[i + 1..], order[i])
  {
    ReplayLogIs(order, c, v);
  }

  /** The object at `i` gets its version; the module that asked has to confirm again. */
  lemma ReplayLogAt(log: seq<Entry>, order: seq<Key>, c: string, v: int, i: nat)
    requires NoDup(order) && i < |order|
    ensures var after := log + ReplayLog(order, c, v); var k := order[i];
      Doomed(after, k) == Doomed(log, k) && VersionOf(after, k) == Some(v + i)
      && Confirmed(after, k) == Confirmed(log, k) - {c}
  {
    var all := ReplayLog(order, c, v);
    ReplayLogAround(order, c, v, i);
    EntryAmid(log, all[..i], all[i], all[i + 1..], order[i]);
    assert log + all == log + all[..i] + [all[i]] + all[i + 1..];
  }

  lemma EntryAmid(log: seq<Entry>, pre: seq<Entry>, e: Entry, post: seq<Entry>, k: Key)
    requires e.Replayed? && e.key == k && ReplaysOthers(pre, k) && ReplaysOthers(post, k)
    ensures var after := log + pre + [e] + post;
      Doomed(after, k) == Doomed(log, k) && VersionOf(after, k) == Some(e.version)
      && Confirmed(after, k) == Confirmed(log, k) - {e.component}
  {
    OthersReplayed(log, pre, k);
    AfterEntry(log + pre, e, k);
    OthersReplayed(log + pre + [e], post, k);
  }

  /** What the log of a gather says about one object. */
  lemma ReplayLogSays(log: seq<Entry>, order: seq<Key>, c: string, v: int, k: Key)
    requires NoDup(order)
    ensures var after := log + ReplayLog(order, c, v);
      && Doomed(after, k) == Doomed(log, k)
      && (k !in order ==> VersionOf(after, k) == VersionOf(log, k) && Confirmed(after, k) == Confirmed(log, k))
      && (forall i :: 0 <= i < |order| && order[i] == k ==>
           VersionOf(after, k) == Some(v + i) && Confirmed(after, k) == Confirmed(log, k) - {c})
  {
    if k !in order {
      ReplayLogIs(order, c, v);
      OthersReplayed(log, ReplayLog(order, c, v), k);
    } else {
      var j :| 0 <= j < |order| && order[j] == k;
      ReplayLogAt(log, order, c, v, j);
    }
  }

  lemma {:induction false} ReplayLogPlain(order: seq<Key>, c: string, v: int)
    ensures forall e :: e in ReplayLog(order, c, v) ==> !e.Removed? && !e.Reported?
  {
    if order != [] {
      ReplayLogPlain(order[1..], c, v + 1);
    }
  }

  lemma PreparedTold(cfg: Config, log: seq<Entry>, log': seq<Entry>, k: Key, x: Intent, c: string, v: int)
    requires Told(cfg, log, k, x)
    requires Doomed(log', k) == Doomed(log, k) && VersionOf(log', k) == Some(v)
    requires Confirmed(log', k) == Confirmed(log, k) - {c}
    ensures Told(cfg, log', k, Prepared(x, c, v))
  {
    assert Names(PreparedComps(x.comps, c)) == Names(x.comps);
  }

  lemma GatherFaithful(cfg: Config, s: Sys, p: nat, order: seq<Key>)
    requires Faithful(cfg, s) && Possible(cfg, s, Gather(p, order))
    ensures Faithful(cfg, DoGather(cfg, s, p, order))
  {
    if p < |s.procs| && s.procs[p].Requested? {
      var c := s.procs[p].component;
      GatherAt(cfg, s.store, order, c, s.nextVersion);
      GatheredFaithful(cfg, s, DoGather(cfg, s, p, order), order, c);
    }
  }

  lemma GatheredFaithful(cfg: Config, s: Sys, s': Sys, order: seq<Key>, c: string)
    requires Faithful(cfg, s) && NoDup(order) && forall k :: k in order ==> k in s.store
    requires s'.log == s.log + ReplayLog(order, c, s.nextVersion) && s'.store.Keys == s.store.Keys
    requires forall i :: 0 <= i < |order| ==> s'.store[order[i]] == Prepared(s.store[order[i]], c, s.nextVersion + i)
    requires forall k :: k in s.store && k !in order ==> s'.store[k] == s.store[k]
    ensures Faithful(cfg, s')
  {
    ReplayLogPlain(order, c, s.nextVersion);
    AppendPlain(cfg, s.log, ReplayLog(order, c, s.nextVersion));
    forall k | k in s'.store ensures Told(cfg, s'.log, k, s'.store[k]) {
      assert Told(cfg, s.log, k, s.store[k]);
      GatheredOne(cfg, s.log, s.store, s'.store, order, c, s.nextVersion, k);
    }
  }

  lemma GatheredOne(cfg: Config, log: seq<Entry>, store: map<Key, Intent>, store': map<Key, Intent>,
                    order: seq<Key>, c: string, v: int, k: Key)
    requires NoDup(order) && k in store && k in store' && Told(cfg, log, k, store[k])
    requires forall i :: 0 <= i < |order| && order[i] == k ==> store'[k] == Prepared(store[k], c, v + i)
    requires k !in order ==> store'[k] == store[k]
    ensures Told(cfg, log + ReplayLog(order, c, v), k, store'[k])
  {
    if k in order {
      var i :| 0 <= i < |order| && order[i] == k;
      GatheredTold(cfg, log, order, c, v, i, store[k]);
    } else {
      PassedOverTold(cfg, log, order, c, v, k, store[k]);
    }
  }

  lemma PassedOverTold(cfg: Config, log: seq<Entry>, order: seq<Key>, c: string, v: int, k: Key, x: Intent)
    requires NoDup(order) && k !in order && Told(cfg, log, k, x)
    ensures Told(cfg, log + ReplayLog(order, c, v), k, x)
  {
    ReplayLogSays(log, order, c, v, k);
  }

  lemma GatheredTold(cfg: Config, log: seq<Entry>, order: seq<Key>, c: string, v: int, i: nat, x: Intent)
    requires NoDup(order) && i < |order| && Told(cfg, log, order[i], x)
    ensures Told(cfg, log + ReplayLog(order, c, v), order[i], Prepared(x, c, v + i))
  {
    ReplayLogSays(log, order, c, v, order[i]);
    PreparedTold(cfg, log, log + ReplayLog(order, c, v), order[i], x, c, v + i);
  }

  lemma {:induction false} StepFaithful(cfg: Config, s: Sys, step: Step)
    requires Faithful(cfg, s) && cfg.Valid() && Possible(cfg, s, step)
    ensures Faithful(cfg, Apply(cfg, s, step))
  {
    match step {
      case ApiCreate(key) => CreateFaithful(cfg, s, key);
      case ApiDelete(key) => DeleteFaithful(cfg, s, key);
      case Gather(p, order) => GatherFaithful(cfg, s, p, order);
      case Report(slot, comp, delivered) => ReportFaithful(cfg, s, slot, comp, delivered);
      case _ => OtherFaithful(cfg, s, step);
    }
  }

  lemma OtherFaithful(cfg: Config, s: Sys, step: Step)
    requires Faithful(cfg, s)
    requires !step.ApiCreate? && !step.ApiDelete? && !step.Gather? && !step.Report?
    ensures Faithful(cfg, Apply(cfg, s, step))
  {
    var s' := Apply(cfg, s, step);
    OtherStores(cfg, s, step);
    AsideKeeps(cfg, s, s', s'.log[|s.log|..]);
  }

  /** The manager's own entries are about tasks, not about objects. */
  lemma DriveLogs(s: Sys, input: Input)
    ensures Drive(s, input).store == s.store && Drive(s, input).log == s.log + LogOf(s.mgr, input)
    ensures forall e :: e in LogOf(s.mgr, input) ==> !e.Removed? && !e.Reported? && forall k :: !Touches(e, k)
  {}

  lemma OtherStores(cfg: Config, s: Sys, step: Step)
    requires !step.ApiCreate? && !step.ApiDelete? && !step.Gather? && !step.Report?
    ensures var s' := Apply(cfg, s, step);
      && s'.store == s.store && s.log <= s'.log && s'.log == s.log + s'.log[|s.log|..]
      && forall e :: e in s'.log[|s.log|..] ==> !e.Removed? && !e.Reported? && forall k :: !Touches(e, k)
  {
    match step
    case Dequeue => if s.mgr.Idle? && s.queue != [] { DriveLogs(s.(queue := s.queue[1..]), Dequeued(s.queue[0])); }
    case Publish(ok) => PublishLogs(s, ok);
    case Timeout => DriveLogs(s, TimedOut);
    case Finish(p) =>
      if p < |s.procs| && s.procs[p].Gathered? {
        DriveLogs(s.(procs := Without(s.procs, p), pending := s.pending + s.procs[p].tasks), ReplayDone);
      }
    case _ =>
  }

  lemma PublishLogs(s: Sys, ok: bool)
    ensures var s' := DoPublish(s, ok);
      && s'.store == s.store && s.log <= s'.log && s'.log == s.log + s'.log[|s.log|..]
      && forall e :: e in s'.log[|s.log|..] ==> !e.Removed? && !e.Reported? && forall k :: !Touches(e, k)
  {}

  lemma {:induction false} RunFaithful(cfg: Config, steps: seq<Step>)
    requires cfg.Valid() && PossibleRun(cfg, steps)
    ensures Faithful(cfg, Run(cfg, steps))
  {
    if steps != [] {
      RunFaithful(cfg, steps[..|steps| - 1]);
      StepFaithful(cfg, Run(cfg, steps[..|steps| - 1]), steps[|steps| - 1]);
    }
  }

  // ---------------------------------------------------------------------
  // What it means
  // ---------------------------------------------------------------------

  /** `c` reported Success at `j`, under the version the object then had, and has not taken it back by `n`. */
  ghost predicate ConfirmedAt(log: seq<Entry>, k: Key, c: string, j: nat, n: nat) {
    && j < n <= |log|
    && log[j].Reported? && log[j].key == k && log[j].component == c && log[j].ok
    && VersionOf(log[..j], k) == Some(log[j].version)
    && forall i :: j < i < n ==>
      !IsMilestone(log[i], k)
      && !(log[i].Reported? && log[i].key == k && log[i].component == c && !log[i].ok)
      && !(log[i].Replayed? && log[i].key == k && log[i].component == c)
  }

  lemma {:induction false} ConfirmedMeans(cfg: Config, log: seq<Entry>, n: nat, k: Key, c: string) returns (j: nat)
    requires LogSafe(cfg, log) && n <= |log| && c in Confirmed(log[..n], k)
    ensures ConfirmedAt(log, k, c, j, n)
  {
    var last := log[n - 1];
    assert log[..n][..n - 1] == log[..n - 1] && log[..n][n - 1] == last;
    if last.Reported? && last.key == k && last.component == c && last.ok {
      j := n - 1;
      assert EntrySafe(cfg, log[..j], log[j]);
    } else {
      j := ConfirmedMeans(cfg, log, n - 1, k, c);
    }
  }

  lemma {:induction false} DoomedMeans(log: seq<Entry>, n: nat, k: Key) returns (m: nat)
    requires n <= |log| && Doomed(log[..n], k)
    ensures m < n && log[m].Marked? && log[m].key == k
    ensures forall i :: m < i < n ==> !IsMilestone(log[i], k)
  {
    var last := log[n - 1];
    assert log[..n][..n - 1] == log[..n - 1] && log[..n][n - 1] == last;
    if IsMilestone(last, k) {
      m := n - 1;
    } else {
      m := DoomedMeans(log, n - 1, k);
    }
  }

  /** The latest milestone of `k` before `n` is the deletion request at `m`, and all of `subs` confirmed after it. */
  ghost predicate TornDown(log: seq<Entry>, k: Key, subs: seq<string>, m: nat, n: nat) {
    && m < n <= |log| && log[m].Marked? && log[m].key == k
    && (forall i :: m < i < n ==> !IsMilestone(log[i], k))
    && forall c :: c in subs ==> exists j: nat :: m < j && ConfirmedAt(log, k, c, j, n)
  }

  /**
   Teardown safety. In every run, when an object is removed, its latest milestone is a
   request to delete it, and each of its modules has since then reported Success under
   the version the object had at that moment, without taking it back: a late success for
   an older version never counts.
   */
  lemma {:induction false} RemovedOnlyAfterTeardown(cfg: Config, steps: seq<Step>, n: nat, k: Key)
    requires cfg.Valid() && PossibleRun(cfg, steps)
    requires n < |Run(cfg, steps).log| && Run(cfg, steps).log[n] == Removed(k)
    ensures exists m :: TornDown(Run(cfg, steps).log, k, cfg.Of(k.kind), m, n)
  {
    var log := Run(cfg, steps).log;
    RunFaithful(cfg, steps);
    assert EntrySafe(cfg, log[..n], log[n]);
    var m := DoomedMeans(log, n, k);
    forall c | c in cfg.Of(k.kind) ensures exists j: nat :: m < j && ConfirmedAt(log, k, c, j, n) {
      assert c in Elems(cfg.Of(k.kind));
      var j := ConfirmedMeans(cfg, log, n, k, c);
      assert IsMilestone(log[m], k);
      assert m < j;
    }
    assert TornDown(log, k, cfg.Of(k.kind), m, n);
  }

  /** An object leaves the store by a logged removal, or it was not there. */
  lemma LeavesOnlyByRemoval(cfg: Config, s: Sys, step: Step, k: Key)
    requires Possible(cfg, s, step)
    requires k in s.store && k !in Apply(cfg, s, step).store
    ensures Removed(k) in Apply(cfg, s, step).log
  {
    if step.Gather? && step.p < |s.procs| && s.procs[step.p].Requested? {
      GatherAt(cfg, s.store, step.order, s.procs[step.p].component, s.nextVersion);
      assert false;
    } else {
      OnlyReportsRemove(cfg, s, step, k);
      var s2 := Record(s.(hands := s.hands - {step.slot}), s.hands[step.slot], step.comp).0;
      RecordRemoves(s.(hands := s.hands - {step.slot}), s.hands[step.slot], step.comp, k);
      assert s2.log <= Apply(cfg, s, step).log;
    }
  }

  lemma OnlyReportsRemove(cfg: Config, s: Sys, step: Step, k: Key)
    requires !step.Gather? || step.p >= |s.procs| || !s.procs[step.p].Requested?
    requires k in s.store && k !in Apply(cfg, s, step).store
    ensures step.Report? && step.slot in s.hands
    ensures k !in Record(s.(hands := s.hands - {step.slot}), s.hands[step.slot], step.comp).0.store
  {}

  lemma RecordRemoves(s: Sys, e: Event, comp: Component, k: Key)
    requires k in s.store && k !in Record(s, e, comp).0.store
    ensures Removed(k) in Record(s, e, comp).0.log
  {
    var log := Record(s, e, comp).0.log;
    assert log[|log| - 1] == Removed(k);
  }

  /**
   A request to delete is taken back by one kind of step only: storing a new object
   under the same name. Reports and replays keep it.
   */
  lemma DoomStays(cfg: Config, s: Sys, step: Step, k: Key)
    requires Possible(cfg, s, step)
    requires k in s.store && s.store[k].oper == ToBeDeleted && k in Apply(cfg, s, step).store
    ensures Apply(cfg, s, step).store[k].oper == ToBeDeleted <==>
      !(step == ApiCreate(k) && cfg.Of(k.kind) != [])
  {
    if step.Gather? && step.p < |s.procs| && s.procs[step.p].Requested? {
      GatherAt(cfg, s.store, step.order, s.procs[step.p].component, s.nextVersion);
      if k in step.order {
        var i :| 0 <= i < |step.order| && step.order[i] == k;
      }
    } else {
      OthersKeepDoom(cfg, s, step, k);
    }
  }

  lemma OthersKeepDoom(cfg: Config, s: Sys, step: Step, k: Key)
    requires !step.Gather? || step.p >= |s.procs| || !s.procs[step.p].Requested?
    requires k in s.store && s.store[k].oper == ToBeDeleted && k in Apply(cfg, s, step).store
    ensures Apply(cfg, s, step).store[k].oper == ToBeDeleted <==>
      !(step == ApiCreate(k) && cfg.Of(k.kind) != [])
  {
    if step.Report? {
      ReportKeepsDoom(s, step.slot, step.comp, step.delivered, k);
    }
  }

  lemma ReportKeepsDoom(s: Sys, slot: Slot, comp: Component, delivered: bool, k: Key)
    requires k in s.store && s.store[k].oper == ToBeDeleted && k in DoReport(s, slot, comp, delivered).store
    ensures DoReport(s, slot, comp, delivered).store[k].oper == ToBeDeleted
  {}
}
