/**
 When an object may be shown Up: only a report that leaves all of its components Success
 turns it Up, so in every run each module of an object that is Up has realized it.
 Read off the log; nothing is assumed about modules.
 */
module UpStatus {
  import opened Basics
  import opened Intents
  import opened TaskManager
  import opened Protocol
  import opened NoLostIntent
  import opened Realization
  import opened Teardown

  // ---------------------------------------------------------------------
  // One step
  // ---------------------------------------------------------------------

  /** A report that leaves some component not Success leaves the operational status as it was. */
  lemma PartialReportKeepsOper(s: Sys, slot: Slot, comp: Component, delivered: bool, k: Key)
    requires k in s.store && k in DoReport(s, slot, comp, delivered).store
    requires !AllSuccess(DoReport(s, slot, comp, delivered).store[k].comps)
    ensures DoReport(s, slot, comp, delivered).store[k].oper == s.store[k].oper
  {
    ReportStore(s, slot, comp, delivered);
  }

  lemma ReportStore(s: Sys, slot: Slot, comp: Component, delivered: bool)
    ensures DoReport(s, slot, comp, delivered).store ==
      if slot in s.hands && Current(s.store, s.hands[slot].key, s.hands[slot].version) && !comp.replay
      then StoreAfterReport(s.store, s.hands[slot].key, comp)
      else s.store
  {}

  /** Only a report on an object turns it Up, and then every component of it is Success. */
  lemma {:induction false} UpOnlyWhenAllSucceed(cfg: Config, s: Sys, step: Step, k: Key)
    requires Possible(cfg, s, step)
    requires k in Apply(cfg, s, step).store && Apply(cfg, s, step).store[k].oper == Up
    requires k !in s.store || s.store[k].oper != Up
    ensures step.Report? && step.slot in s.hands && s.hands[step.slot].key == k
    ensures AllSuccess(Apply(cfg, s, step).store[k].comps)
  {
    if step.Report? {
      ReportStore(s, step.slot, step.comp, step.delivered);
      assert Apply(cfg, s, step) == DoReport(s, step.slot, step.comp, step.delivered);
    } else {
      NeverUpOtherwise(cfg, s, step, k);
    }
  }

  /** A replay leaves no object Up that it contacts modules for. */
  lemma GatheredNotUp(cfg: Config, store: map<Key, Intent>, order: seq<Key>, c: string, v: int, k: Key)
    requires NoDup(order) && forall j :: j in order ==> j in store
    ensures k in StoreAfterGather(store, order, c, v) <==> k in store
    ensures k in order ==> StoreAfterGather(store, order, c, v)[k].oper != Up
    ensures k in store && k !in order ==> StoreAfterGather(store, order, c, v)[k] == store[k]
  {
    GatherAt(cfg, store, order, c, v);
    if k in order {
      var i :| 0 <= i < |order| && order[i] == k;
    }
  }

  lemma NeverUpOtherwise(cfg: Config, s: Sys, step: Step, k: Key)
    requires Possible(cfg, s, step) && !step.Report?
    requires k in Apply(cfg, s, step).store && Apply(cfg, s, step).store[k].oper == Up
    ensures k in s.store && s.store[k].oper == Up
  {
    if step.Gather? {
      if step.p < |s.procs| && s.procs[step.p].Requested? {
        GatheredNotUp(cfg, s.store, step.order, s.procs[step.p].component, s.nextVersion, k);
      }
    } else if !step.ApiCreate? && !step.ApiDelete? {
      OtherStores(cfg, s, step);
    }
  }

  // ---------------------------------------------------------------------
  // Which modules have realized the object since it was created, marked or replayed
  // ---------------------------------------------------------------------

  /**
   The modules that reported Success under the version of the object, or had done so before
   the replay that gave it that version and were left alone by it. A later Error of the same
   module does not take it back: the object stays Up.
   */
  function EverConfirmed(log: seq<Entry>, k: Key): set<string> {
    if log == [] then {}
    else
      var front, last := log[..|log| - 1], log[|log| - 1];
      if IsMilestone(last, k) then {}
      else if last.Replayed? && last.key == k then Confirmed(front, k) - {last.component}
      else if last.Reported? && last.key == k && last.ok then EverConfirmed(front, k) + {last.component}
      else EverConfirmed(front, k)
  }

  ghost predicate Earned(cfg: Config, log: seq<Entry>, k: Key, x: Intent) {
    x.oper == Up ==> Elems(cfg.Of(k.kind)) <= EverConfirmed(log, k)
  }

  ghost predicate AllEarned(cfg: Config, s: Sys) {
    forall k :: k in s.store ==> Earned(cfg, s.log, k, s.store[k])
  }

  lemma EverOne(log: seq<Entry>, e: Entry, k: Key)
    ensures EverConfirmed(log + [e], k) ==
      if IsMilestone(e, k) then {}
      else if e.Replayed? && e.key == k then Confirmed(log, k) - {e.component}
      else if e.Reported? && e.key == k && e.ok then EverConfirmed(log, k) + {e.component}
      else EverConfirmed(log, k)
  {
    assert (log + [e])[..|log + [e]| - 1] == log;
  }

  lemma {:induction false} EverAside(log: seq<Entry>, more: seq<Entry>, k: Key)
    requires forall i :: 0 <= i < |more| ==> !Touches(more[i], k)
    ensures EverConfirmed(log + more, k) == EverConfirmed(log, k)
    decreases |more|
  {
    if more == [] {
      assert log + more == log;
    } else {
      var front, e := more[..|more| - 1], more[|more| - 1];
      EverAside(log, front, k);
      EverOne(log + front, e, k);
      assert log + more == log + front + [e];
    }
  }

  lemma {:induction false} ConfirmedIsEver(log: seq<Entry>, k: Key)
    ensures Confirmed(log, k) <= EverConfirmed(log, k)
  {
    if log != [] {
      ConfirmedIsEver(log[..|log| - 1], k);
    }
  }

  // ---------------------------------------------------------------------
  // Every step keeps it
  // ---------------------------------------------------------------------

  /** Entries about no stored object, and a store that only lost objects. */
  lemma AsideEarned(cfg: Config, s: Sys, s': Sys, more: seq<Entry>)
    requires AllEarned(cfg, s) && s'.log == s.log + more
    requires forall k :: k in s'.store ==> k in s.store && s'.store[k] == s.store[k]
    requires forall k, i :: k in s'.store && 0 <= i < |more| ==> !Touches(more[i], k)
    ensures AllEarned(cfg, s')
  {
    forall k | k in s'.store ensures Earned(cfg, s'.log, k, s'.store[k]) {
      EverAside(s.log, more, k);
    }
  }

  /** One object is rewritten and one entry about it is logged. */
  lemma OneEarned(cfg: Config, s: Sys, s': Sys, key: Key, x: Intent, e: Entry)
    requires AllEarned(cfg, s) && s'.store == s.store[key := x] && s'.log == s.log + [e]
    requires Earned(cfg, s.log + [e], key, x) && forall k :: k != key ==> !Touches(e, k)
    ensures AllEarned(cfg, s')
  {
    forall k | k in s'.store ensures Earned(cfg, s'.log, k, s'.store[k]) {
      if k != key {
        EverAside(s.log, [e], k);
      }
    }
  }

  /** The object after a report: with all components Success every module has confirmed. */
  lemma ReportEarned(cfg: Config, log: seq<Entry>, k: Key, x: Intent, comp: Component)
    requires Told(cfg, log, k, x) && Earned(cfg, log, k, x) && AfterReport(x, comp).Some?
    ensures Earned(cfg, log + [ReportEntry(k, x.version, comp)], k, AfterReport(x, comp).value)
  {
    var e := ReportEntry(k, x.version, comp);
    var y := AfterReport(x, comp).value;
    EverOne(log, e, k);
    if AllSuccess(y.comps) {
      ReportTold(cfg, log, k, x, comp);
      ConfirmedIsEver(log + [e], k);
      forall c | c in Elems(cfg.Of(k.kind)) ensures c in Confirmed(log + [e], k) {
        var i := IndexOfName(y.comps, cfg.Of(k.kind), c);
      }
    }
  }

  lemma RecordEarned(cfg: Config, s: Sys, e: Event, comp: Component)
    requires AllEarned(cfg, s) && Faithful(cfg, s)
    ensures AllEarned(cfg, Record(s, e, comp).0)
  {
    var s' := Record(s, e, comp).0;
    if Current(s.store, e.key, e.version) && !comp.replay {
      var r := ReportEntry(e.key, e.version, comp);
      assert Told(cfg, s.log, e.key, s.store[e.key]);
      if AfterReport(s.store[e.key], comp).Some? {
        ReportEarned(cfg, s.log, e.key, s.store[e.key], comp);
        assert s'.log == s.log + [r];
        OneEarned(cfg, s, s', e.key, AfterReport(s.store[e.key], comp).value, r);
      } else {
        assert s'.log == s.log + [r, Removed(e.key)];
        AsideEarned(cfg, s, s', [r, Removed(e.key)]);
      }
    } else {
      AsideEarned(cfg, s, s', []);
    }
  }

  lemma DriveEarned(cfg: Config, s: Sys, input: Input)
    requires AllEarned(cfg, s)
    ensures AllEarned(cfg, Drive(s, input))
  {
    DriveLogs(s, input);
    AsideEarned(cfg, s, Drive(s, input), LogOf(s.mgr, input));
  }

  lemma DoReportEarned(cfg: Config, s: Sys, slot: Slot, comp: Component, delivered: bool)
    requires AllEarned(cfg, s) && Faithful(cfg, s)
    ensures AllEarned(cfg, DoReport(s, slot, comp, delivered))
  {
    if slot in s.hands {
      var e := s.hands[slot];
      var s1 := s.(hands := s.hands - {slot});
      RecordEarned(cfg, s1, e, comp);
      var (s2, drop) := Record(s1, e, comp);
      if delivered {
        DriveEarned(cfg, s2, Received(Signal(e.nid, drop, comp)));
      }
    }
  }

  /** After a gather no replayed object is Up. */
  lemma GatherEarned(cfg: Config, s: Sys, p: nat, order: seq<Key>)
    requires AllEarned(cfg, s) && Possible(cfg, s, Gather(p, order))
    ensures AllEarned(cfg, DoGather(cfg, s, p, order))
  {
    if p < |s.procs| && s.procs[p].Requested? {
      var c := s.procs[p].component;
      var s' := DoGather(cfg, s, p, order);
      GatherAt(cfg, s.store, order, c, s.nextVersion);
      ReplayLogIs(order, c, s.nextVersion);
      forall k | k in s'.store ensures Earned(cfg, s'.log, k, s'.store[k]) {
        GatheredNotUp(cfg, s.store, order, c, s.nextVersion, k);
        if k !in order {
          EverAside(s.log, ReplayLog(order, c, s.nextVersion), k);
        }
      }
    }
  }

  lemma {:induction false} StepEarned(cfg: Config, s: Sys, step: Step)
    requires AllEarned(cfg, s) && Faithful(cfg, s) && Possible(cfg, s, step)
    ensures AllEarned(cfg, Apply(cfg, s, step))
  {
    match step {
      case ApiCreate(key) => CreateEarned(cfg, s, key);
      case ApiDelete(key) => DeleteEarned(cfg, s, key);
      case Gather(p, order) => GatherEarned(cfg, s, p, order);
      case Report(slot, comp, delivered) => DoReportEarned(cfg, s, slot, comp, delivered);
      case _ => OtherEarned(cfg, s, step);
    }
  }

  lemma CreateEarned(cfg: Config, s: Sys, key: Key)
    requires AllEarned(cfg, s)
    ensures AllEarned(cfg, DoCreate(cfg, s, key))
  {
    var subs := cfg.Of(key.kind);
    if subs != [] {
      OneEarned(cfg, s, DoCreate(cfg, s, key), key, NewIntent(subs, s.nextVersion), Created(key, s.nextVersion));
    }
  }

  lemma DeleteEarned(cfg: Config, s: Sys, key: Key)
    requires AllEarned(cfg, s)
    ensures AllEarned(cfg, DoDelete(cfg, s, key))
  {
    var subs := cfg.Of(key.kind);
    if subs != [] && key in s.store && |subs| <= |s.store[key].comps| {
      OneEarned(cfg, s, DoDelete(cfg, s, key), key, MarkDeleted(s.store[key], |subs|, s.nextVersion),
                Marked(key, s.nextVersion));
    }
  }

  lemma OtherEarned(cfg: Config, s: Sys, step: Step)
    requires AllEarned(cfg, s) && !step.ApiCreate? && !step.ApiDelete? && !step.Gather? && !step.Report?
    ensures AllEarned(cfg, Apply(cfg, s, step))
  {
    OtherStores(cfg, s, step);
    AsideEarned(cfg, s, Apply(cfg, s, step), Apply(cfg, s, step).log[|s.log|..]);
  }

  lemma {:induction false} RunEarned(cfg: Config, steps: seq<Step>)
    requires cfg.Valid() && PossibleRun(cfg, steps)
    ensures AllEarned(cfg, Run(cfg, steps))
  {
    if steps != [] {
      var before := steps[..|steps| - 1];
      RunEarned(cfg, before);
      RunFaithful(cfg, before);
      StepEarned(cfg, Run(cfg, before), steps[|steps| - 1]);
    }
  }

  // ---------------------------------------------------------------------
  // What it means
  // ---------------------------------------------------------------------

  /**
   `c` reported Success at `j`, under the version the object then had. The object was not
   created, marked or removed since, and every replay since found the success standing and
   was asked for by another module.
   */
  ghost predicate RealizedAt(log: seq<Entry>, k: Key, c: string, j: nat, n: nat) {
    && j < n <= |log|
    && log[j].Reported? && log[j].key == k && log[j].component == c && log[j].ok
    && VersionOf(log[..j], k) == Some(log[j].version)
    && forall i :: j < i < n ==>
      !IsMilestone(log[i], k)
      && (log[i].Replayed? && log[i].key == k ==> log[i].component != c && ConfirmedAt(log, k, c, j, i))
  }

  lemma {:induction false} EverMeans(cfg: Config, log: seq<Entry>, n: nat, k: Key, c: string) returns (j: nat)
    requires LogSafe(cfg, log) && n <= |log| && c in EverConfirmed(log[..n], k)
    ensures RealizedAt(log, k, c, j, n)
  {
    var last := log[n - 1];
    assert log[..n][..n - 1] == log[..n - 1] && log[..n][n - 1] == last;
    if last.Reported? && last.key == k && last.component == c && last.ok {
      j := n - 1;
      assert EntrySafe(cfg, log[..j], log[j]);
    } else if last.Replayed? && last.key == k {
      j := ConfirmedMeans(cfg, log, n - 1, k, c);
      forall i | j < i < n - 1 && log[i].Replayed? && log[i].key == k ensures ConfirmedAt(log, k, c, j, i) {}
    } else {
      j := EverMeans(cfg, log, n - 1, k, c);
    }
  }

  /**
   In every run, whatever modules do, each module of an object that is Up has reported
   Success for it, under the version it then had, since it was created or marked, and no
   replay has asked the module again since.
   */
  lemma {:induction false} UpMeansRealized(cfg: Config, steps: seq<Step>, k: Key, c: string)
    requires cfg.Valid() && PossibleRun(cfg, steps)
    requires k in Run(cfg, steps).store && Run(cfg, steps).store[k].oper == Up && c in cfg.Of(k.kind)
    ensures exists j: nat :: RealizedAt(Run(cfg, steps).log, k, c, j, |Run(cfg, steps).log|)
  {
    var s := Run(cfg, steps);
    RunEarned(cfg, steps);
    RunFaithful(cfg, steps);
    assert Earned(cfg, s.log, k, s.store[k]);
    assert s.log[..|s.log|] == s.log && c in Elems(cfg.Of(k.kind));
    var j := EverMeans(cfg, s.log, |s.log|, k, c);
  }
}
