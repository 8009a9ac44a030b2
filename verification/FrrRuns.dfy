/**
 The back-off timer of module FRR over whole runs of the protocol, read off the log:
 what the stored component shows, and which report asks for a replay.
 */
module FrrRuns {
  import opened Basics
  import opened Intents
  import opened TaskManager
  import opened Protocol
  import opened NoLostIntent
  import opened Realization
  import opened Teardown
  import opened Delivery
  import opened Backoff

  /**
   Modules report under their own name, and what FRR reports on the stored version of an
   object starts from the component stored in it, as its handlers do.
   */
  ghost predicate FrrReports(s: Sys, step: Step) {
    step.Report? && step.slot in s.hands ==>
      && step.comp.name == step.slot.name
      && var e := s.hands[step.slot];
         (step.slot.name == FRR && Current(s.store, e.key, e.version) ==>
           step.comp == Outcome(Own(s.store[e.key].comps), step.comp.details, step.comp.status == Success))
  }

  ghost predicate FrrRun(cfg: Config, steps: seq<Step>) {
    steps != [] ==>
      var before := steps[..|steps| - 1];
      FrrRun(cfg, before) && FrrReports(Run(cfg, before), steps[|steps| - 1])
  }

  /** Failures of FRR stored for the object since it was created, was replayed or FRR last succeeded. */
  function FailuresIn(log: seq<Entry>, k: Key): nat {
    if log == [] then 0
    else
      var last := log[|log| - 1];
      var before := FailuresIn(log[..|log| - 1], k);
      match last
      case Created(key, _) => if key == k then 0 else before
      case Replayed(key, _, _) => if key == k then 0 else before
      case Reported(key, _, c, ok, _) =>
        if key != k || c != FRR then before else if ok then 0 else before + 1
      case _ => before
  }

  ghost predicate Ticks(cfg: Config, s: Sys) {
    forall k :: k in s.store && FRR in cfg.Of(k.kind) ==> TicksAt(s.store[k], s.log, k)
  }

  /** Six failures are stored at most: the seventh asks for a replay instead. */
  ghost predicate TicksAt(x: Intent, log: seq<Entry>, k: Key) {
    HasFailed(Own(x.comps), FailuresIn(log, k)) && FailuresIn(log, k) <= 6
  }

  // ---------------------------------------------------------------------
  // The count in the log
  // ---------------------------------------------------------------------

  lemma CountedOne(log: seq<Entry>, e: Entry, k: Key)
    ensures FailuresIn(log + [e], k) ==
      match e
      case Created(key, _) => if key == k then 0 else FailuresIn(log, k)
      case Replayed(key, _, _) => if key == k then 0 else FailuresIn(log, k)
      case Reported(key, _, c, ok, _) =>
        if key != k || c != FRR then FailuresIn(log, k) else if ok then 0 else FailuresIn(log, k) + 1
      case _ => FailuresIn(log, k)
  {
    assert (log + [e])[..|log + [e]| - 1] == log;
  }

  lemma {:induction false} CountedAside(log: seq<Entry>, more: seq<Entry>, k: Key)
    requires forall i :: 0 <= i < |more| ==> !Touches(more[i], k)
    ensures FailuresIn(log + more, k) == FailuresIn(log, k)
    decreases |more|
  {
    if more == [] {
      assert log + more == log;
    } else {
      var front, e := more[..|more| - 1], more[|more| - 1];
      CountedAside(log, front, k);
      CountedOne(log + front, e, k);
      assert log + more == log + front + [e];
    }
  }

  lemma {:induction false} CountedReplay(log: seq<Entry>, order: seq<Key>, c: string, v: int, k: Key)
    requires NoDup(order)
    ensures FailuresIn(log + ReplayLog(order, c, v), k) == if k in order then 0 else FailuresIn(log, k)
  {
    if k in order {
      var i :| 0 <= i < |order| && order[i] == k;
      CountedAt(log, order, c, v, i);
    } else {
      ReplayLogIs(order, c, v);
      CountedAside(log, ReplayLog(order, c, v), k);
    }
  }

  lemma CountedAt(log: seq<Entry>, order: seq<Key>, c: string, v: int, i: nat)
    requires NoDup(order) && i < |order|
    ensures FailuresIn(log + ReplayLog(order, c, v), order[i]) == 0
  {
    var all := ReplayLog(order, c, v);
    ReplayLogAround(order, c, v, i);
    CountedAmid(log, all[..i], all[i], all[i + 1..], order[i]);
    assert log + all == log + all[..i] + [all[i]] + all[i + 1..];
  }

  lemma CountedAmid(log: seq<Entry>, pre: seq<Entry>, e: Entry, post: seq<Entry>, k: Key)
    requires e.Replayed? && e.key == k && ReplaysOthers(post, k)
    ensures FailuresIn(log + pre + [e] + post, k) == 0
  {
    CountedOne(log + pre, e, k);
    CountedAside(log + pre + [e], post, k);
  }

  // ---------------------------------------------------------------------
  // Every step keeps it
  // ---------------------------------------------------------------------

  lemma OwnIndex(x: Intent, subs: seq<string>) returns (i: nat)
    requires Follows(x, subs) && FRR in subs
    ensures i < |x.comps| && x.comps[i].name == FRR && Own(x.comps) == x.comps[i]
  {
    i := IndexOfName(x.comps, subs, FRR);
    OwnIs(x.comps, i);
  }

  /** The component of FRR is where it was. */
  lemma OwnStaysAt(x: Intent, y: Intent, subs: seq<string>, i: nat)
    requires Follows(x, subs) && Names(y.comps) == Names(x.comps) && i < |x.comps| && x.comps[i].name == FRR
    ensures i < |y.comps| && Own(y.comps) == y.comps[i]
  {
    assert |Names(y.comps)| == |y.comps| && |Names(x.comps)| == |x.comps|;
    assert Names(y.comps)[i] == y.comps[i].name && Names(x.comps)[i] == x.comps[i].name;
    OwnIs(y.comps, i);
  }

  lemma MarkedTicks(x: Intent, subs: seq<string>, version: int, log: seq<Entry>, k: Key)
    requires Follows(x, subs) && FRR in subs && TicksAt(x, log, k)
    ensures TicksAt(MarkDeleted(x, |x.comps|, version), log, k)
  {
    var i := OwnIndex(x, subs);
    var y := MarkDeleted(x, |x.comps|, version);
    assert Names(y.comps) == Names(x.comps);
    OwnStaysAt(x, y, subs, i);
    TurnCounts(x.comps[i], FailuresIn(log, k), MarkedDeleted);
  }

  lemma PreparedTicks(x: Intent, subs: seq<string>, c: string, version: int, log: seq<Entry>, log': seq<Entry>, k: Key)
    requires Follows(x, subs) && FRR in subs && TicksAt(x, log, k) && FailuresIn(log', k) == 0
    ensures TicksAt(Prepared(x, c, version), log', k)
  {
    var i := OwnIndex(x, subs);
    var y := Prepared(x, c, version);
    assert Names(y.comps) == Names(x.comps);
    OwnStaysAt(x, y, subs, i);
    TurnCounts(x.comps[i], FailuresIn(log, k), ReplayedBy(c));
  }

  /** A stored report of FRR is one of its turns; another module's leaves the component of FRR alone. */
  lemma ReportedTicks(x: Intent, subs: seq<string>, comp: Component, log: seq<Entry>, k: Key)
    requires Follows(x, subs) && FRR in subs && TicksAt(x, log, k) && !comp.replay && AfterReport(x, comp).Some?
    requires comp.name == FRR ==> comp == Outcome(Own(x.comps), comp.details, comp.status == Success)
    ensures TicksAt(AfterReport(x, comp).value, log + [ReportEntry(k, x.version, comp)], k)
  {
    var i := OwnIndex(x, subs);
    var y := AfterReport(x, comp).value;
    SetComponentAt(x.comps, comp);
    OwnStaysAt(x, y, subs, i);
    CountedOne(log, ReportEntry(k, x.version, comp), k);
    TurnCounts(x.comps[i], FailuresIn(log, k), Handled(comp.details, comp.status == Success));
  }

  lemma NewTicks(subs: seq<string>, version: int, log: seq<Entry>, k: Key)
    requires FRR in subs && NoDup(subs)
    ensures TicksAt(NewIntent(subs, version), log + [Created(k, version)], k)
  {
    var x := NewIntent(subs, version);
    assert Names(x.comps) == subs;
    var i := OwnIndex(x, subs);
    CountedOne(log, Created(k, version), k);
  }

  /** One object is rewritten and one entry about it is logged. */
  lemma OneTicks(cfg: Config, s: Sys, store: map<Key, Intent>, key: Key, e: Entry)
    requires Ticks(cfg, s) && (forall k :: k in store && k != key ==> k in s.store && store[k] == s.store[k])
    requires key in store && FRR in cfg.Of(key.kind) ==> TicksAt(store[key], s.log + [e], key)
    requires forall k :: k != key ==> !Touches(e, k)
    ensures forall k :: k in store && FRR in cfg.Of(k.kind) ==> TicksAt(store[k], s.log + [e], k)
  {
    forall k | k in store && FRR in cfg.Of(k.kind) ensures TicksAt(store[k], s.log + [e], k) {
      if k != key {
        CountedAside(s.log, [e], k);
      }
    }
  }

  lemma CreateTicks(cfg: Config, s: Sys, key: Key)
    requires Ticks(cfg, s) && cfg.Valid()
    ensures Ticks(cfg, DoCreate(cfg, s, key))
  {
    var subs := cfg.Of(key.kind);
    if subs != [] {
      if FRR in subs {
        NewTicks(subs, s.nextVersion, s.log, key);
      }
      OneTicks(cfg, s, s.store[key := NewIntent(subs, s.nextVersion)], key, Created(key, s.nextVersion));
    }
  }

  lemma DeleteTicks(cfg: Config, s: Sys, key: Key)
    requires Ticks(cfg, s) && (key in s.store ==> Follows(s.store[key], cfg.Of(key.kind)))
    ensures Ticks(cfg, DoDelete(cfg, s, key))
  {
    var subs := cfg.Of(key.kind);
    if subs != [] && key in s.store && |subs| <= |s.store[key].comps| {
      assert |Names(s.store[key].comps)| == |s.store[key].comps|;
      CountedOne(s.log, Marked(key, s.nextVersion), key);
      if FRR in subs {
        MarkedTicks(s.store[key], subs, s.nextVersion, s.log, key);
      }
      OneTicks(cfg, s, s.store[key := MarkDeleted(s.store[key], |subs|, s.nextVersion)], key,
               Marked(key, s.nextVersion));
    }
  }

  lemma GatherTicks(cfg: Config, s: Sys, p: nat, order: seq<Key>)
    requires Ticks(cfg, s) && Possible(cfg, s, Gather(p, order))
    requires forall k :: k in s.store ==> Follows(s.store[k], cfg.Of(k.kind))
    ensures Ticks(cfg, DoGather(cfg, s, p, order))
  {
    if p < |s.procs| && s.procs[p].Requested? {
      var c := s.procs[p].component;
      var s' := DoGather(cfg, s, p, order);
      GatherAt(cfg, s.store, order, c, s.nextVersion);
      forall k | k in s'.store && FRR in cfg.Of(k.kind) ensures TicksAt(s'.store[k], s'.log, k) {
        CountedReplay(s.log, order, c, s.nextVersion, k);
        if k in order {
          var i :| 0 <= i < |order| && order[i] == k;
          PreparedTicks(s.store[k], cfg.Of(k.kind), c, s.nextVersion + i, s.log, s'.log, k);
        }
      }
    }
  }

  /** Entries about no object, and a store that only lost objects, change no count. */
  lemma AsideTicks(cfg: Config, s: Sys, s': Sys, more: seq<Entry>)
    requires Ticks(cfg, s) && s'.log == s.log + more
    requires forall k :: k in s'.store ==> k in s.store && s'.store[k] == s.store[k]
    requires forall k, i :: k in s'.store && 0 <= i < |more| ==> !Touches(more[i], k)
    ensures Ticks(cfg, s')
  {
    forall k | k in s'.store && FRR in cfg.Of(k.kind) ensures TicksAt(s'.store[k], s'.log, k) {
      CountedAside(s.log, more, k);
    }
  }

  lemma RecordTicks(cfg: Config, s: Sys, e: Event, comp: Component)
    requires Ticks(cfg, s) && (e.key in s.store ==> Follows(s.store[e.key], cfg.Of(e.key.kind)))
    requires Current(s.store, e.key, e.version) && comp.name == FRR ==>
      comp == Outcome(Own(s.store[e.key].comps), comp.details, comp.status == Success)
    ensures Ticks(cfg, Record(s, e, comp).0)
  {
    var s' := Record(s, e, comp).0;
    if Current(s.store, e.key, e.version) && !comp.replay {
      var r := ReportEntry(e.key, e.version, comp);
      if AfterReport(s.store[e.key], comp).Some? {
        if FRR in cfg.Of(e.key.kind) {
          ReportedTicks(s.store[e.key], cfg.Of(e.key.kind), comp, s.log, e.key);
        }
        assert s'.log == s.log + [r];
        OneTicks(cfg, s, s'.store, e.key, r);
      } else {
        AsideTicks(cfg, s, s', [r, Removed(e.key)]);
      }
    } else {
      AsideTicks(cfg, s, s', []);
    }
  }

  lemma ReportTicks(cfg: Config, s: Sys, slot: Slot, comp: Component, delivered: bool)
    requires Ticks(cfg, s) && FrrReports(s, Report(slot, comp, delivered))
    requires forall k :: k in s.store ==> Follows(s.store[k], cfg.Of(k.kind))
    ensures Ticks(cfg, DoReport(s, slot, comp, delivered))
  {
    if slot in s.hands {
      var e := s.hands[slot];
      var s1 := s.(hands := s.hands - {slot});
      RecordTicks(cfg, s1, e, comp);
      var (s2, drop) := Record(s1, e, comp);
      if delivered {
        DriveLogs(s2, Received(Signal(e.nid, drop, comp)));
        AsideTicks(cfg, s2, Drive(s2, Received(Signal(e.nid, drop, comp))),
                   LogOf(s2.mgr, Received(Signal(e.nid, drop, comp))));
      }
    }
  }

  lemma {:induction false} StepTicks(cfg: Config, s: Sys, step: Step)
    requires Ticks(cfg, s) && cfg.Valid() && Possible(cfg, s, step) && FrrReports(s, step)
    requires forall k :: k in s.store ==> Follows(s.store[k], cfg.Of(k.kind))
    ensures Ticks(cfg, Apply(cfg, s, step))
  {
    match step {
      case ApiCreate(key) => CreateTicks(cfg, s, key);
      case ApiDelete(key) => DeleteTicks(cfg, s, key);
      case Gather(p, order) => GatherTicks(cfg, s, p, order);
      case Report(slot, comp, delivered) => ReportTicks(cfg, s, slot, comp, delivered);
      case _ => OtherTicks(cfg, s, step);
    }
  }

  lemma OtherTicks(cfg: Config, s: Sys, step: Step)
    requires Ticks(cfg, s) && !step.ApiCreate? && !step.ApiDelete? && !step.Gather? && !step.Report?
    ensures Ticks(cfg, Apply(cfg, s, step))
  {
    OtherStores(cfg, s, step);
    AsideTicks(cfg, s, Apply(cfg, s, step), Apply(cfg, s, step).log[|s.log|..]);
  }

  // ---------------------------------------------------------------------
  // Whole runs
  // ---------------------------------------------------------------------

  lemma {:induction false} RunTicks(cfg: Config, steps: seq<Step>)
    requires cfg.Valid() && PossibleRun(cfg, steps) && FrrRun(cfg, steps)
    ensures Ticks(cfg, Run(cfg, steps))
  {
    if steps != [] {
      var before := steps[..|steps| - 1];
      RunTicks(cfg, before);
      RunFollows(cfg, before);
      StepTicks(cfg, Run(cfg, before), steps[|steps| - 1]);
    }
  }

  /**
   In every state of every run, the stored timer of FRR is 0, or 2^k seconds after k
   failures in a row, at most 64; no replay and no success leaves a failure counted.
   */
  lemma {:induction false} StoredTimerCountsFailures(cfg: Config, steps: seq<Step>, k: Key, i: nat)
    requires cfg.Valid() && PossibleRun(cfg, steps) && FrrRun(cfg, steps)
    requires k in Run(cfg, steps).store && i < |Run(cfg, steps).store[k].comps|
    requires Run(cfg, steps).store[k].comps[i].name == FRR
    ensures var s := Run(cfg, steps); var n := FailuresIn(s.log, k);
      && n <= 6
      && s.store[k].comps[i].timer == (if n == 0 then 0 else Pow2(n))
      && (s.store[k].comps[i].status == Success ==> n == 0)
  {
    var s := Run(cfg, steps);
    RunTicks(cfg, steps);
    RunFollows(cfg, steps);
    var x := s.store[k];
    assert Names(x.comps)[i] == FRR;
    OwnIs(x.comps, i);
    assert FRR in cfg.Of(k.kind);
    assert TicksAt(x, s.log, k);
  }

  /**
   In every run, a report of FRR on the stored version of an object asks for a replay
   if and only if it is a failure and six failures in a row are stored.
   */
  lemma {:induction false} ReplayAskedForOnSeventh(cfg: Config, steps: seq<Step>, step: Step)
    requires cfg.Valid() && PossibleRun(cfg, steps) && FrrRun(cfg, steps + [step])
    requires step.Report? && step.slot in Run(cfg, steps).hands && step.slot.name == FRR
    requires var e := Run(cfg, steps).hands[step.slot];
      Current(Run(cfg, steps).store, e.key, e.version) && FRR in cfg.Of(e.key.kind)
    ensures var s := Run(cfg, steps);
      step.comp.replay <==> step.comp.status != Success && FailuresIn(s.log, s.hands[step.slot].key) == 6
  {
    assert (steps + [step])[..|steps + [step]| - 1] == steps;
    var s := Run(cfg, steps);
    RunTicks(cfg, steps);
    var k := s.hands[step.slot].key;
    assert TicksAt(s.store[k], s.log, k);
    TurnCounts(Own(s.store[k].comps), FailuresIn(s.log, k), Handled(step.comp.details, step.comp.status == Success));
  }

  // ---------------------------------------------------------------------
  // The delay of the task
  // ---------------------------------------------------------------------

  /** A stored failure of FRR carries the timer of the count that it makes. */
  ghost predicate FrrTimed(cfg: Config, before: seq<Entry>, e: Entry) {
    e.Reported? && e.component == FRR && FRR in cfg.Of(e.key.kind) && !e.ok ==>
      FailuresIn(before + [e], e.key) <= 6 && e.timer == Pow2(FailuresIn(before + [e], e.key))
  }

  ghost predicate LogTimed(cfg: Config, log: seq<Entry>) {
    forall n :: 0 <= n < |log| ==> FrrTimed(cfg, log[..n], log[n])
  }

  lemma TimedOne(cfg: Config, log: seq<Entry>, e: Entry)
    requires LogTimed(cfg, log) && FrrTimed(cfg, log, e)
    ensures LogTimed(cfg, log + [e])
  {
    forall n | 0 <= n < |log + [e]| ensures FrrTimed(cfg, (log + [e])[..n], (log + [e])[n]) {
      assert (log + [e])[..n] == if n < |log| then log[..n] else log;
    }
  }

  lemma {:induction false} TimedAside(cfg: Config, log: seq<Entry>, more: seq<Entry>)
    requires LogTimed(cfg, log) && forall e :: e in more ==> !e.Reported?
    ensures LogTimed(cfg, log + more)
  {
    if more == [] {
      assert log + more == log;
    } else {
      var front, e := more[..|more| - 1], more[|more| - 1];
      TimedAside(cfg, log, front);
      assert e in more;
      TimedOne(cfg, log + front, e);
      assert log + more == log + front + [e];
    }
  }

  /** What FRR stores after a failure counts it. */
  lemma StoredTimer(x: Intent, log: seq<Entry>, k: Key, comp: Component)
    requires TicksAt(x, log, k) && !comp.replay && comp.status != Success
    requires comp == Outcome(Own(x.comps), comp.details, comp.status == Success)
    ensures var n := FailuresIn(log + [ReportEntry(k, x.version, comp)], k); n <= 6 && comp.timer == Pow2(n)
  {
    CountedOne(log, ReportEntry(k, x.version, comp), k);
    TurnCounts(Own(x.comps), FailuresIn(log, k), Handled(comp.details, false));
    TimersUpToThreshold(FailuresIn(log, k));
  }

  lemma RecordTimed(cfg: Config, s: Sys, e: Event, comp: Component)
    requires Ticks(cfg, s) && LogTimed(cfg, s.log)
    requires Current(s.store, e.key, e.version) && comp.name == FRR ==>
      comp == Outcome(Own(s.store[e.key].comps), comp.details, comp.status == Success)
    ensures LogTimed(cfg, Record(s, e, comp).0.log)
  {
    if Current(s.store, e.key, e.version) && !comp.replay {
      var r := ReportEntry(e.key, e.version, comp);
      if comp.name == FRR && FRR in cfg.Of(e.key.kind) && comp.status != Success {
        StoredTimer(s.store[e.key], s.log, e.key, comp);
      }
      TimedOne(cfg, s.log, r);
      TimedOne(cfg, s.log + [r], Removed(e.key));
      assert Record(s, e, comp).0.log ==
        if AfterReport(s.store[e.key], comp).None? then s.log + [r] + [Removed(e.key)] else s.log + [r];
    }
  }

  lemma {:induction false} StepTimed(cfg: Config, s: Sys, step: Step)
    requires Ticks(cfg, s) && LogTimed(cfg, s.log) && FrrReports(s, step)
    ensures LogTimed(cfg, Apply(cfg, s, step).log)
  {
    if step.Report? {
      if step.slot in s.hands {
        var s1 := s.(hands := s.hands - {step.slot});
        RecordTimed(cfg, s1, s.hands[step.slot], step.comp);
        var (s2, drop) := Record(s1, s.hands[step.slot], step.comp);
        var input := Received(Signal(s.hands[step.slot].nid, drop, step.comp));
        DriveLogs(s2, input);
        TimedAside(cfg, s2.log, LogOf(s2.mgr, input));
        assert DoReport(s, step.slot, step.comp, step.delivered).log ==
          if step.delivered then s2.log + LogOf(s2.mgr, input) else s2.log;
      }
    } else {
      var more := LogsNoReport(cfg, s, step);
      TimedAside(cfg, s.log, more);
    }
  }

  lemma LogsNoReport(cfg: Config, s: Sys, step: Step) returns (more: seq<Entry>)
    requires !step.Report?
    ensures Apply(cfg, s, step).log == s.log + more && forall e :: e in more ==> !e.Reported?
  {
    more := [];
    if step.ApiCreate? {
      more := if Apply(cfg, s, step) == s then [] else [Created(step.key, s.nextVersion)];
    } else if step.ApiDelete? {
      more := if Apply(cfg, s, step) == s then [] else [Marked(step.key, s.nextVersion)];
    } else if step.Gather? {
      if step.p < |s.procs| && s.procs[step.p].Requested? {
        ReplayLogPlain(step.order, s.procs[step.p].component, s.nextVersion);
        more := ReplayLog(step.order, s.procs[step.p].component, s.nextVersion);
      }
    } else {
      OtherStores(cfg, s, step);
      more := Apply(cfg, s, step).log[|s.log|..];
    }
  }

  lemma {:induction false} RunTimed(cfg: Config, steps: seq<Step>)
    requires cfg.Valid() && PossibleRun(cfg, steps) && FrrRun(cfg, steps)
    ensures LogTimed(cfg, Run(cfg, steps).log)
  {
    if steps != [] {
      var before := steps[..|steps| - 1];
      RunTimed(cfg, before);
      RunTicks(cfg, before);
      StepTimed(cfg, Run(cfg, before), steps[|steps| - 1]);
    }
  }

  /**
   Exponential back-off. In every honest run, when FRR's failure sends a task away, the task
   comes back after 2^k seconds, k being the failures of FRR stored for the object since it
   was created or replayed or FRR last succeeded, this one included: 2, 4, 8, up to 64.
   */
  lemma {:induction false} TaskBacksOff(cfg: Config, steps: seq<Step>, n: nat)
    requires cfg.Valid() && HonestRun(cfg, steps) && FrrRun(cfg, steps)
    requires n < |Run(cfg, steps).log| && Run(cfg, steps).log[n].Answered? && Run(cfg, steps).log[n].name == FRR
    requires FRR in cfg.Of(Run(cfg, steps).log[n].id.key.kind)
    ensures var log := Run(cfg, steps).log; var k := FailuresIn(log[..n], log[n].id.key);
      1 <= k <= 6 && log[n].after == Some(Pow2(k))
  {
    var log := Run(cfg, steps).log;
    HonestIsPossible(cfg, steps);
    AnswerWasWritten(cfg, steps, n);
    RunTimed(cfg, steps);
    CountAtAnswer(cfg, log, n, ReportBefore(log, n));
  }

  /** The answer at `n` that follows the stored failure at `r`: the count there is the one the timer shows. */
  lemma CountAtAnswer(cfg: Config, log: seq<Entry>, n: nat, r: nat)
    requires LogTimed(cfg, log) && r < n < |log| && log[r].Reported? && !log[r].ok && log[r].component == FRR
    requires FRR in cfg.Of(log[r].key.kind)
    requires n == r + 1 || (n == r + 2 && log[r + 1].Removed?)
    ensures 1 <= FailuresIn(log[..n], log[r].key) <= 6
    ensures log[r].timer == Pow2(FailuresIn(log[..n], log[r].key))
  {
    var k := log[r].key;
    assert FrrTimed(cfg, log[..r], log[r]);
    CountedOne(log[..r], log[r], k);
    assert log[..r + 1] == log[..r] + [log[r]];
    if n == r + 2 {
      CountedOne(log[..r + 1], log[r + 1], k);
      assert log[..n] == log[..r + 1] + [log[r + 1]];
    }
  }

  // ---------------------------------------------------------------------
  // Reading the component first and reporting later is the same
  // ---------------------------------------------------------------------

  /**
   While FRR works on a notification, its component of the object changes only together
   with the version: what it read when it began is what its report on the stored version
   meets.
   */
  lemma {:induction false} ReadStaysValid(cfg: Config, s: Sys, step: Step, slot: Slot)
    requires Inv(cfg, s) && Possible(cfg, s, step) && (step.Report? ==> step.comp.name == step.slot.name)
    requires slot.name == FRR && slot in s.hands && Current(s.store, s.hands[slot].key, s.hands[slot].version)
    requires slot in Apply(cfg, s, step).hands && Apply(cfg, s, step).hands[slot] == s.hands[slot]
    requires Current(Apply(cfg, s, step).store, s.hands[slot].key, s.hands[slot].version)
    ensures var k := s.hands[slot].key; Own(Apply(cfg, s, step).store[k].comps) == Own(s.store[k].comps)
  {
    var e := s.hands[slot];
    assert EventOk(cfg, s.nextVersion, s.nextNid, slot, e);
    match step
    case Report(other, comp, delivered) =>
      ApplyReport(cfg, s, other, comp, delivered);
      ReportLeavesOwn(cfg, s, slot, other, comp, delivered);
    case _ =>
      SameVersionSameObject(cfg, s, step, e.key);
  }

  lemma ApplyReport(cfg: Config, s: Sys, slot: Slot, comp: Component, delivered: bool)
    ensures Apply(cfg, s, Report(slot, comp, delivered)) == DoReport(s, slot, comp, delivered)
  {}

  /** Everything but a report gives an object it rewrites a fresh version. */
  lemma SameVersionSameObject(cfg: Config, s: Sys, step: Step, k: Key)
    requires Possible(cfg, s, step) && !step.Report? && k in s.store && s.store[k].version < s.nextVersion
    requires Current(Apply(cfg, s, step).store, k, s.store[k].version)
    ensures Apply(cfg, s, step).store[k] == s.store[k]
  {
    match step {
      case ApiCreate(key) =>
      case ApiDelete(key) =>
      case Gather(p, order) =>
        if p < |s.procs| && s.procs[p].Requested? {
          GatherRenewsOrSpares(cfg, s.store, order, s.procs[p].component, s.nextVersion, k);
        }
      case _ => OtherStores(cfg, s, step);
    }
  }

  lemma GatherRenewsOrSpares(cfg: Config, store: map<Key, Intent>, order: seq<Key>, c: string, v: int, k: Key)
    requires NoDup(order) && (forall j :: j in order ==> j in store) && k in store && store[k].version < v
    requires k in StoreAfterGather(store, order, c, v)
    requires StoreAfterGather(store, order, c, v)[k].version == store[k].version
    ensures StoreAfterGather(store, order, c, v)[k] == store[k]
  {
    GatherAt(cfg, store, order, c, v);
    forall i | 0 <= i < |order| ensures order[i] != k {
      assert StoreAfterGather(store, order, c, v)[order[i]].version == v + i;
    }
  }

  lemma ReportLeavesOwn(cfg: Config, s: Sys, slot: Slot, other: Slot, comp: Component, delivered: bool)
    requires Sound(cfg, s) && slot.name == FRR && slot in s.hands && comp.name == other.name
    requires s.hands[slot].key in s.store
    requires slot in DoReport(s, other, comp, delivered).hands
    requires s.hands[slot].key in DoReport(s, other, comp, delivered).store
    ensures var k := s.hands[slot].key;
      Own(DoReport(s, other, comp, delivered).store[k].comps) == Own(s.store[k].comps)
  {
    if other in s.hands {
      var k := s.hands[slot].key;
      assert EventOk(cfg, s.nextVersion, s.nextNid, slot, s.hands[slot]);
      assert EventOk(cfg, s.nextVersion, s.nextNid, other, s.hands[other]);
      assert IntentOk(cfg, s.nextVersion, k, s.store[k]);
      ReportOutcome(s, other, comp, delivered);
      OthersReport(s.store, DoReport(s, other, comp, delivered).store, cfg.Of(k.kind), s.hands[other], comp, k,
                   slot, other);
    }
  }

  /** A report of another goroutine leaves FRR's component of the object alone. */
  lemma OthersReport(store: map<Key, Intent>, store': map<Key, Intent>, subs: seq<string>, e: Event, comp: Component,
                     k: Key, slot: Slot, other: Slot)
    requires k in store && k in store' && Follows(store[k], subs) && FRR in subs
    requires slot.name == FRR && slot.kind == k.kind && other.kind == e.key.kind && other != slot
    requires comp.name == other.name
    requires store' == if Current(store, e.key, e.version) && !comp.replay then StoreAfterReport(store, e.key, comp)
                       else store
    ensures Own(store'[k].comps) == Own(store[k].comps)
  {
    if e.key == k {
      OtherLeavesOwn(store[k], subs, comp);
    }
  }

  lemma ReportOutcome(s: Sys, slot: Slot, comp: Component, delivered: bool)
    requires slot in s.hands
    ensures var e := s.hands[slot]; var s' := DoReport(s, slot, comp, delivered);
      && s'.hands == s.hands - {slot}
      && s'.store == if Current(s.store, e.key, e.version) && !comp.replay then StoreAfterReport(s.store, e.key, comp)
                     else s.store
  {}

  lemma OtherLeavesOwn(x: Intent, subs: seq<string>, comp: Component)
    requires Follows(x, subs) && FRR in subs && comp.name != FRR
    ensures Own(SetComponent(x.comps, comp)) == Own(x.comps)
  {
    var i := OwnIndex(x, subs);
    SetComponentAt(x.comps, comp);
    OwnStaysAt(x, x.(comps := SetComponent(x.comps, comp)), subs, i);
  }
}
