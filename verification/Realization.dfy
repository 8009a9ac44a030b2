/**
 What the protocol promises about realization, over all runs: the main results,
 and exactly where the code does not keep the promise.
 */
module Realization {
  import opened Basics
  import opened Intents
  import opened TaskManager
  import opened Protocol
  import opened NoLostIntent
  import opened TaskConservation

  ghost predicate Covers(t: Task, key: Key, x: Intent) {
    && t.key == key && t.version == x.version
    && forall i :: 0 <= i < |x.comps| && x.comps[i].status != Success ==> x.comps[i].name in Remaining(t)
  }

  /** A task still to be done: live, or held back by a replay that has prepared the store. */
  ghost predicate IsOpen(s: Sys, t: Task) {
    IsLive(s, t) || t in Held(s.procs)
  }

  ghost predicate ReplayAhead(cfg: Config, s: Sys, kind: Kind) {
    exists p :: 0 <= p < |s.procs| && s.procs[p].Requested? && Replayable(cfg, kind, s.procs[p].component)
  }

  lemma {:induction false} HeldMember(procs: seq<Proc>, p: nat, t: Task)
    requires p < |procs| && procs[p].Gathered? && t in procs[p].tasks
    ensures t in Held(procs)
  {
    if p > 0 {
      HeldMember(procs[1..], p - 1, t);
    }
  }

  /** What backs a component is a replay that is still to gather, or an open task. */
  lemma {:induction false} BackedBy(cfg: Config, s: Sys, k: Key, v: int, n: string)
    requires Backed(cfg, s, k, v, n) && !ReplayAhead(cfg, s, k.kind)
    ensures exists t :: IsOpen(s, t) && WillContact(t, k, v, n)
  {
    if t :| IsLive(s, t) && WillContact(t, k, v, n) {
      assert IsOpen(s, t);
    } else {
      var p :| 0 <= p < |s.procs| && ReplayWillContact(cfg, s.procs[p], k, v, n);
      var t :| t in s.procs[p].tasks && WillContact(t, k, v, n);
      HeldMember(s.procs, p, t);
      assert IsOpen(s, t);
    }
  }

  lemma OneOpenTask(s: Sys, a: Task, b: Task)
    requires Conserved(s) && IsOpen(s, a) && IsOpen(s, b) && IdOf(a) == IdOf(b)
    ensures a == b
  {
    var id := IdOf(a);
    CountDistinct(s.created, id);
    assert Places(s, id) <= 1;
    var rest := s.timers + (MgrTasks(s.mgr) + Held(s.procs));
    var all := s.pending + (s.queue + rest);
    CountConcat(s.pending, s.queue + rest, id);
    CountConcat(s.queue, rest, id);
    CountConcat(s.timers, MgrTasks(s.mgr) + Held(s.procs), id);
    CountConcat(MgrTasks(s.mgr), Held(s.procs), id);
    assert a in all && b in all;
    if a != b {
      TwoCounts(all, a, b);
    }
  }

  /**
   No lost intent. In every state of every honest run, an object that is not fully
   realized has one open task of its own version whose remaining subscribers include
   every component that is not Success, unless a replay of its kind is still ahead.
   */
  lemma {:induction false} NoIntentIsLost(cfg: Config, steps: seq<Step>, k: Key)
    requires cfg.Valid() && HonestRun(cfg, steps)
    requires k in Run(cfg, steps).store && !AllSuccess(Run(cfg, steps).store[k].comps)
    ensures var s := Run(cfg, steps);
      ReplayAhead(cfg, s, k.kind) || exists t :: IsOpen(s, t) && Covers(t, k, s.store[k])
  {
    var s := Run(cfg, steps);
    RunKeeps(cfg, steps);
    RunConserves(cfg, steps);
    if !ReplayAhead(cfg, s, k.kind) {
      var x := s.store[k];
      var i0 :| 0 <= i0 < |x.comps| && x.comps[i0].status != Success;
      BackedBy(cfg, s, k, x.version, x.comps[i0].name);
      var t :| IsOpen(s, t) && WillContact(t, k, x.version, x.comps[i0].name);
      forall i | 0 <= i < |x.comps| && x.comps[i].status != Success
        ensures x.comps[i].name in Remaining(t)
      {
        BackedBy(cfg, s, k, x.version, x.comps[i].name);
        var u :| IsOpen(s, u) && WillContact(u, k, x.version, x.comps[i].name);
        OneOpenTask(s, t, u);
      }
      assert Covers(t, k, x);
    }
  }

  /** Nothing left to do. */
  ghost predicate Quiescent(s: Sys) {
    s.pending == [] && s.queue == [] && s.timers == [] && MgrTasks(s.mgr) == [] && s.procs == []
  }

  lemma QuiescentIsEmpty(cfg: Config, s: Sys, kind: Kind)
    requires Quiescent(s)
    ensures !ReplayAhead(cfg, s, kind) && forall t :: !IsOpen(s, t)
  {}

  /** When nothing is left to do, every object in the store is realized and up; none waits to be deleted. */
  lemma {:induction false} QuiescentMeansRealized(cfg: Config, steps: seq<Step>)
    requires cfg.Valid() && HonestRun(cfg, steps) && Quiescent(Run(cfg, steps))
    ensures forall k :: k in Run(cfg, steps).store ==>
      AllSuccess(Run(cfg, steps).store[k].comps) && Run(cfg, steps).store[k].oper == Up
  {
    var s := Run(cfg, steps);
    RunKeeps(cfg, steps);
    forall k | k in s.store ensures AllSuccess(s.store[k].comps) && s.store[k].oper == Up {
      if !AllSuccess(s.store[k].comps) {
        NoIntentIsLost(cfg, steps, k);
        QuiescentIsEmpty(cfg, s, k.kind);
        assert false;
      }
      assert IntentOk(cfg, s.nextVersion, k, s.store[k]);
    }
  }

  // ---------------------------------------------------------------------
  // Where the promise is broken, exactly
  // ---------------------------------------------------------------------

  /** The report in `slot` answers the notification the manager waits on, for the stored version. */
  ghost predicate Answers(s: Sys, slot: Slot) {
    && slot in s.hands && s.mgr.Waiting? && s.mgr.nid == s.hands[slot].nid
    && Current(s.store, s.hands[slot].key, s.hands[slot].version)
  }

  /** Once the manager drops the task it holds, nothing but a replay contacts the object's version. */
  lemma DroppedIsGone(cfg: Config, s: Sys, s': Sys, k: Key, n: string)
    requires Conserved(s) && s.mgr.Waiting? && s.mgr.task.key == k
    requires s'.pending == s.pending && s'.queue == s.queue && s'.timers == s.timers
    requires MgrTasks(s'.mgr) == [] && Held(s'.procs) == Held(s.procs)
    requires !ReplayAhead(cfg, s', k.kind)
    ensures !Backed(cfg, s', k, s.mgr.task.version, n)
  {
    var v := s.mgr.task.version;
    if Backed(cfg, s', k, v, n) {
      BackedBy(cfg, s', k, v, n);
      var t :| IsOpen(s', t) && WillContact(t, k, v, n);
      var id := IdOf(t);
      CountDistinct(s.created, id);
      CountOne(At(s.mgr.task, s.mgr.i), id);
      assert Places(s, id) <= 1;
      if t in s.pending { OneCounts(s.pending, t); }
      if t in s.queue { OneCounts(s.queue, t); }
      if t in s.timers { OneCounts(s.timers, t); }
      if t in Held(s.procs) { OneCounts(Held(s.procs), t); }
      assert false;
    }
  }

  /**
   A module that answers with neither Success nor Error: the task is dropped, and
   the intent is lost exactly when no replay of its kind is ahead.
   */
  lemma {:induction false} VagueStatusLosesIntent(cfg: Config, s: Sys, slot: Slot, comp: Component)
    requires Inv(cfg, s) && Conserved(s) && Answers(s, slot)
    requires comp.name == slot.name && !comp.replay && (comp.status == Pending || comp.status == Unspecified)
    ensures NoneLost(cfg, DoReport(s, slot, comp, true)) <==> ReplayAhead(cfg, s, slot.kind)
  {
    var s' := DoReport(s, slot, comp, true);
    var e := s.hands[slot];
    assert EventOk(cfg, s.nextVersion, s.nextNid, slot, e);
    VagueEffect(cfg, s, slot, comp);
    if ReplayAhead(cfg, s, slot.kind) {
      DroppedOthers(cfg, s, s', e.key);
    } else {
      VagueLoses(cfg, s, s', slot, comp);
    }
  }

  /** The component holds the vague status, and the task that was to contact it again is dropped. */
  lemma {:induction false} VagueLoses(cfg: Config, s: Sys, s': Sys, slot: Slot, comp: Component)
    requires Sound(cfg, s) && Conserved(s) && Answers(s, slot) && comp.name == slot.name && comp.status != Success
    requires var e := s.hands[slot];
      && s.mgr.task.key == e.key && s.mgr.task.version == e.version
      && AfterReport(s.store[e.key], comp).Some?
      && s'.store == s.store[e.key := AfterReport(s.store[e.key], comp).value]
    requires s'.mgr == Idle && s'.procs == s.procs && !ReplayAhead(cfg, s, slot.kind)
    requires s'.pending == s.pending && s'.queue == s.queue && s'.timers == s.timers
    ensures !NoneLost(cfg, s')
  {
    var e := s.hands[slot];
    assert EventOk(cfg, s.nextVersion, s.nextNid, slot, e);
    assert IntentOk(cfg, s.nextVersion, e.key, s.store[e.key]);
    ReportAt(cfg, s.nextVersion, e.key, s.store[e.key], comp);
    var i := IndexOfName(s.store[e.key].comps, cfg.Of(slot.kind), slot.name);
    DroppedIsGone(cfg, s, s', e.key, slot.name);
    assert s'.store[e.key].comps[i] == comp;
  }

  lemma IndexOfName(comps: seq<Component>, subs: seq<string>, n: string) returns (i: nat)
    requires Names(comps) == subs && n in subs
    ensures i < |comps| && comps[i].name == n
  {
    i :| 0 <= i < |subs| && subs[i] == n;
    assert Names(comps)[i] == comps[i].name;
  }

  lemma {:induction false} VagueEffect(cfg: Config, s: Sys, slot: Slot, comp: Component)
    requires Answers(s, slot) && !comp.replay && (comp.status == Pending || comp.status == Unspecified)
    requires Inv(cfg, s) && comp.name == slot.name
    ensures var s' := DoReport(s, slot, comp, true); var e := s.hands[slot];
      && AfterReport(s.store[e.key], comp).Some?
      && s'.store == s.store[e.key := AfterReport(s.store[e.key], comp).value]
      && s'.mgr == Idle && s'.procs == s.procs && s'.hands == s.hands - {slot}
      && s'.pending == s.pending && s'.queue == s.queue && s'.timers == s.timers
      && s.mgr.task.key == e.key && s.mgr.task.version == e.version
  {
    var e := s.hands[slot];
    AnsweredTask(s, slot);
    VagueStays(cfg, s, slot, comp);
    var (s2, drop) := Record(s.(hands := s.hands - {slot}), e, comp);
    DriveDrops(s2, Signal(e.nid, drop, comp));
  }

  lemma {:induction false} VagueStays(cfg: Config, s: Sys, slot: Slot, comp: Component)
    requires Inv(cfg, s) && slot in s.hands && comp.name == slot.name && comp.status != Success
    requires Current(s.store, s.hands[slot].key, s.hands[slot].version)
    ensures AfterReport(s.store[s.hands[slot].key], comp).Some?
  {
    var e := s.hands[slot];
    var x := s.store[e.key];
    assert EventOk(cfg, s.nextVersion, s.nextNid, slot, e);
    assert IntentOk(cfg, s.nextVersion, e.key, x);
    SetComponentAt(x.comps, comp);
    var i := IndexOfName(x.comps, cfg.Of(slot.kind), slot.name);
    assert SetComponent(x.comps, comp)[i] == comp;
  }

  lemma AnsweredTask(s: Sys, slot: Slot)
    requires Answers(s, slot) && MgrOk(s)
    ensures s.mgr.task.key == s.hands[slot].key && s.mgr.task.version == s.hands[slot].version
  {}

  lemma DriveDrops(s: Sys, signal: Signal)
    requires s.mgr.Waiting? && s.mgr.nid == signal.nid
    requires signal.drop || signal.comp.status == Pending || signal.comp.status == Unspecified
    ensures Drive(s, Received(signal)) == s.(
      mgr := if signal.drop && signal.comp.replay then AwaitingReplay else Idle,
      log := s.log + LogOf(s.mgr, Received(signal)),
      dropped := s.dropped + [IdOf(s.mgr.task)])
  {}

  /** A replay of its kind that is still ahead backs every component of an object. */
  lemma AheadBacks(cfg: Config, s: Sys, s': Sys, k: Key, v: int, n: string)
    requires ReplayAhead(cfg, s, k.kind) && s.procs <= s'.procs
    ensures Backed(cfg, s', k, v, n)
  {
    var p :| 0 <= p < |s.procs| && s.procs[p].Requested? && Replayable(cfg, k.kind, s.procs[p].component);
    assert s'.procs[p] == s.procs[p];
    assert ReplayWillContact(cfg, s'.procs[p], k, v, n);
  }

  /**
   A module that answers a bridge port notification by asking for a replay: the task
   is dropped and ports are never replayed, so the intent is lost exactly when some
   component of the port is not Success at that moment.
   */
  lemma {:induction false} PortReplayLosesIntent(cfg: Config, s: Sys, slot: Slot, comp: Component)
    requires Inv(cfg, s) && Conserved(s) && Answers(s, slot)
    requires slot.kind == PortKind && comp.replay
    ensures NoneLost(cfg, DoReport(s, slot, comp, true)) <==> AllSuccess(s.store[s.hands[slot].key].comps)
  {
    assert EventOk(cfg, s.nextVersion, s.nextNid, slot, s.hands[slot]);
    ReplayRequestEffect(cfg, s, slot, comp);
    PortDropped(cfg, s, DoReport(s, slot, comp, true), s.hands[slot].key, comp.name);
  }

  /** The task of a port is dropped and a replay requested, which will pass the port over. */
  lemma PortDropped(cfg: Config, s: Sys, s': Sys, key: Key, c: string)
    requires NoneLost(cfg, s) && Conserved(s) && key.kind == PortKind
    requires s.mgr.Waiting? && s.mgr.task.key == key && Current(s.store, key, s.mgr.task.version)
    requires s'.store == s.store && s'.mgr == AwaitingReplay && s'.procs == s.procs + [Requested(c)]
    requires s'.pending == s.pending && s'.queue == s.queue && s'.timers == s.timers
    ensures NoneLost(cfg, s') <==> AllSuccess(s.store[key].comps)
  {
    if AllSuccess(s.store[key].comps) {
      DroppedOthers(cfg, s, s', key);
    } else {
      HoldsNothing(s.procs, Requested(c));
      PortsHaveNoReplay(cfg, s', key.kind);
      DroppedIsForgotten(cfg, s, s', key);
    }
  }

  lemma HoldsNothing(procs: seq<Proc>, p: Proc)
    requires p.Requested? || p.tasks == []
    ensures Held(procs + [p]) == Held(procs)
  {
    HeldConcat(procs, [p]);
    HeldOne(p);
    assert Held(procs) + [] == Held(procs);
  }

  lemma PortsHaveNoReplay(cfg: Config, s: Sys, kind: Kind)
    ensures kind == PortKind ==> !ReplayAhead(cfg, s, kind)
  {}

  /**
   A module whose request for a replay meets a pre-replay step that fails: the task is
   dropped and the replay makes none, so the intent is lost exactly when some component of
   the object is not Success and no other replay of its kind is ahead.
   */
  lemma {:induction false} FailedReplayLosesIntent(cfg: Config, s: Sys, slot: Slot, comp: Component)
    requires Inv(cfg, s) && Conserved(s) && Answers(s, slot) && comp.replay
    ensures var s' := DoAbort(DoReport(s, slot, comp, true), |s.procs|);
      NoneLost(cfg, s') <==> AllSuccess(s.store[s.hands[slot].key].comps) || ReplayAhead(cfg, s, slot.kind)
  {
    assert EventOk(cfg, s.nextVersion, s.nextNid, slot, s.hands[slot]);
    ReplayRequestEffect(cfg, s, slot, comp);
    AbortEffect(DoReport(s, slot, comp, true), s.procs, comp.name);
    FailedDropped(cfg, s, DoAbort(DoReport(s, slot, comp, true), |s.procs|), s.hands[slot].key);
  }

  /** The task is dropped and the replay that was requested has failed. */
  lemma FailedDropped(cfg: Config, s: Sys, s': Sys, key: Key)
    requires NoneLost(cfg, s) && Conserved(s)
    requires s.mgr.Waiting? && s.mgr.task.key == key && Current(s.store, key, s.mgr.task.version)
    requires s'.store == s.store && s'.mgr == AwaitingReplay && s'.procs == s.procs + [Gathered([])]
    requires s'.pending == s.pending && s'.queue == s.queue && s'.timers == s.timers
    ensures NoneLost(cfg, s') <==> AllSuccess(s.store[key].comps) || ReplayAhead(cfg, s, key.kind)
  {
    if AllSuccess(s.store[key].comps) || ReplayAhead(cfg, s, key.kind) {
      DroppedOthers(cfg, s, s', key);
    } else {
      HoldsNothing(s.procs, Gathered([]));
      DroppedIsForgotten(cfg, s, s', key);
    }
  }

  lemma AbortEffect(s: Sys, procs: seq<Proc>, c: string)
    requires s.procs == procs + [Requested(c)]
    ensures DoAbort(s, |procs|) == s.(procs := procs + [Gathered([])])
  {
    assert s.procs[|procs| := Gathered([])] == procs + [Gathered([])];
  }

  lemma UnheardRequestEffect(s: Sys, slot: Slot, comp: Component)
    requires slot in s.hands && comp.replay && Current(s.store, s.hands[slot].key, s.hands[slot].version)
    ensures DoReport(s, slot, comp, false) == s.(hands := s.hands - {slot}, procs := s.procs + [Requested(comp.name)])
  {}

  /** When the status of a replay request is lost the manager keeps the task: a failing replay loses nothing. */
  lemma {:induction false} UndeliveredRequestLosesNothing(cfg: Config, s: Sys, slot: Slot, comp: Component)
    requires Inv(cfg, s) && slot in s.hands && comp.replay
    requires Current(s.store, s.hands[slot].key, s.hands[slot].version)
    ensures NoneLost(cfg, DoAbort(DoReport(s, slot, comp, false), |s.procs|))
  {
    var s' := DoAbort(DoReport(s, slot, comp, false), |s.procs|);
    UnheardRequestEffect(s, slot, comp);
    AbortEffect(DoReport(s, slot, comp, false), s.procs, comp.name);
    forall k, i | k in s'.store && 0 <= i < |s'.store[k].comps| && s'.store[k].comps[i].status != Success
      ensures Backed(cfg, s', k, s'.store[k].version, s'.store[k].comps[i].name)
    {
      BackedStays(cfg, s, s', k, s.store[k].version, s.store[k].comps[i].name);
    }
  }

  /** The manager has dropped the task of an unrealized object and no replay will make another. */
  lemma DroppedIsForgotten(cfg: Config, s: Sys, s': Sys, key: Key)
    requires Conserved(s) && s.mgr.Waiting? && s.mgr.task.key == key
    requires Current(s.store, key, s.mgr.task.version) && !AllSuccess(s.store[key].comps)
    requires s'.store == s.store && MgrTasks(s'.mgr) == [] && Held(s'.procs) == Held(s.procs)
    requires s'.pending == s.pending && s'.queue == s.queue && s'.timers == s.timers
    requires !ReplayAhead(cfg, s', key.kind)
    ensures !NoneLost(cfg, s')
  {
    var i :| 0 <= i < |s.store[key].comps| && s.store[key].comps[i].status != Success;
    DroppedIsGone(cfg, s, s', key, s.store[key].comps[i].name);
  }

  /** Nothing else is lost when the manager drops the task of a realized object, or of one a replay is ahead for. */
  lemma DroppedOthers(cfg: Config, s: Sys, s': Sys, key: Key)
    requires NoneLost(cfg, s) && s.mgr.Waiting? && s.mgr.task.key == key
    requires key in s'.store ==> AllSuccess(s'.store[key].comps) || ReplayAhead(cfg, s, key.kind)
    requires forall k :: k in s'.store && k != key ==> k in s.store && s'.store[k] == s.store[k]
    requires s'.pending == s.pending && s'.queue == s.queue && s'.timers == s.timers && s.procs <= s'.procs
    ensures NoneLost(cfg, s')
  {
    forall k, i | k in s'.store && 0 <= i < |s'.store[k].comps| && s'.store[k].comps[i].status != Success
      ensures Backed(cfg, s', k, s'.store[k].version, s'.store[k].comps[i].name)
    {
      if k == key {
        AheadBacks(cfg, s, s', k, s'.store[k].version, s'.store[k].comps[i].name);
      } else {
        BackedStays(cfg, s, s', k, s.store[k].version, s.store[k].comps[i].name);
      }
    }
  }

  lemma {:induction false} ReplayRequestEffect(cfg: Config, s: Sys, slot: Slot, comp: Component)
    requires Answers(s, slot) && comp.replay && Inv(cfg, s)
    ensures var s' := DoReport(s, slot, comp, true); var e := s.hands[slot];
      && s'.store == s.store && s'.mgr == AwaitingReplay
      && s'.procs == s.procs + [Requested(comp.name)] && s'.hands == s.hands - {slot}
      && s'.pending == s.pending && s'.queue == s.queue && s'.timers == s.timers
      && s.mgr.task.key == e.key && s.mgr.task.version == e.version
  {
    var e := s.hands[slot];
    AnsweredTask(s, slot);
    var (s2, drop) := Record(s.(hands := s.hands - {slot}), e, comp);
    DriveDrops(s2, Signal(e.nid, drop, comp));
  }

  // ---------------------------------------------------------------------
  // A manager that waits for a replay nobody runs
  // ---------------------------------------------------------------------

  /** While the manager waits for a replay, there is one. */
  ghost predicate ReplayRuns(s: Sys) {
    s.mgr.AwaitingReplay? ==> s.procs != []
  }

  /**
   A report that asks for a replay but is about an old version or a missing object
   starts no replay, yet the manager waits for one.
   */
  lemma StaleReplayBlocks(cfg: Config, s: Sys, step: Step)
    requires ReplayRuns(s)
    ensures ReplayRuns(Apply(cfg, s, step)) <==>
      !(&& step.Report? && step.delivered && step.comp.replay && step.slot in s.hands
        && s.mgr.Waiting? && s.mgr.nid == s.hands[step.slot].nid && s.procs == []
        && !Current(s.store, s.hands[step.slot].key, s.hands[step.slot].version))
  {
    if step.Report? && step.slot in s.hands {
      ReportReplayRuns(s, step.slot, step.comp, step.delivered);
    }
  }

  lemma ReportReplayRuns(s: Sys, slot: Slot, comp: Component, delivered: bool)
    requires ReplayRuns(s) && slot in s.hands
    ensures ReplayRuns(DoReport(s, slot, comp, delivered)) <==>
      !(&& delivered && comp.replay && s.mgr.Waiting? && s.mgr.nid == s.hands[slot].nid && s.procs == []
        && !Current(s.store, s.hands[slot].key, s.hands[slot].version))
  {}

  /** Blocked that way, the manager finishes no task as long as no module gets a replay going. */
  lemma {:induction false} BlockedForEver(cfg: Config, s: Sys, steps: seq<Step>)
    requires s.mgr.AwaitingReplay? && s.procs == []
    requires forall step :: step in steps && step.Report? ==> !step.comp.replay
    ensures var s' := After(cfg, s, steps);
      s'.mgr.AwaitingReplay? && s'.procs == [] && s'.finished == s.finished && s.queue <= s'.queue
    decreases |steps|
  {
    if steps != [] {
      BlockedStep(cfg, s, steps[0]);
      BlockedForEver(cfg, Apply(cfg, s, steps[0]), steps[1..]);
    }
  }

  lemma BlockedStep(cfg: Config, s: Sys, step: Step)
    requires s.mgr.AwaitingReplay? && s.procs == [] && (step.Report? ==> !step.comp.replay)
    ensures var s' := Apply(cfg, s, step);
      s'.mgr.AwaitingReplay? && s'.procs == [] && s'.finished == s.finished && s.queue <= s'.queue
  {}

  function After(cfg: Config, s: Sys, steps: seq<Step>): Sys
    decreases |steps|
  {
    if steps == [] then s else After(cfg, Apply(cfg, s, steps[0]), steps[1..])
  }

  // ---------------------------------------------------------------------
  // A replay nobody waits for
  // ---------------------------------------------------------------------

  /** The manager waits for a replay exactly while there is one, and there is one at most. */
  ghost predicate Paired(s: Sys) {
    |s.procs| == if s.mgr.AwaitingReplay? then 1 else 0
  }

  /** The manager hears the report as the answer to the notification it waits on. */
  ghost predicate Heard(s: Sys, slot: Slot, delivered: bool) {
    slot in s.hands && delivered && s.mgr.Waiting? && s.mgr.nid == s.hands[slot].nid
  }

  /**
   Replays and the manager's waiting stay paired unless a replay is asked for by a report
   that is current but not heard, or heard but not current: the first starts a replay
   nobody waits for, the second makes the manager wait for none.
   */
  lemma PairsBreakOnlyOn(cfg: Config, s: Sys, step: Step)
    requires Paired(s)
    ensures Paired(Apply(cfg, s, step)) <==>
      !(&& step.Report? && step.slot in s.hands && step.comp.replay
        && Current(s.store, s.hands[step.slot].key, s.hands[step.slot].version) != Heard(s, step.slot, step.delivered))
  {
    if step.Report? && step.slot in s.hands {
      ReportPairs(s, step.slot, step.comp, step.delivered);
    }
  }

  lemma ReportPairs(s: Sys, slot: Slot, comp: Component, delivered: bool)
    requires Paired(s) && slot in s.hands
    ensures Paired(DoReport(s, slot, comp, delivered)) <==>
      !(comp.replay && Current(s.store, s.hands[slot].key, s.hands[slot].version) != Heard(s, slot, delivered))
  {}

  /** The tasks of a replay nobody waits for are held back as long as no report asks for another replay. */
  lemma {:induction false} HeldForEver(cfg: Config, s: Sys, steps: seq<Step>, p: nat)
    requires p < |s.procs| && s.procs[p].Gathered? && !s.mgr.AwaitingReplay?
    requires forall step :: step in steps && step.Report? ==> !step.comp.replay
    ensures var s' := After(cfg, s, steps);
      !s'.mgr.AwaitingReplay? && p < |s'.procs| && s'.procs[p] == s.procs[p]
    decreases |steps|
  {
    if steps != [] {
      HeldStep(cfg, s, steps[0], p);
      HeldForEver(cfg, Apply(cfg, s, steps[0]), steps[1..], p);
    }
  }

  lemma HeldStep(cfg: Config, s: Sys, step: Step, p: nat)
    requires p < |s.procs| && s.procs[p].Gathered? && !s.mgr.AwaitingReplay?
    requires step.Report? ==> !step.comp.replay
    ensures var s' := Apply(cfg, s, step);
      !s'.mgr.AwaitingReplay? && p < |s'.procs| && s'.procs[p] == s.procs[p]
  {
    if step.Report? {
      ReportHolds(s, step.slot, step.comp, step.delivered);
    } else {
      assert Apply(cfg, s, step).procs == s.procs || step.Gather? || step.Abort?;
    }
  }

  lemma ReportHolds(s: Sys, slot: Slot, comp: Component, delivered: bool)
    requires !s.mgr.AwaitingReplay? && !comp.replay
    ensures var s' := DoReport(s, slot, comp, delivered); !s'.mgr.AwaitingReplay? && s'.procs == s.procs
  {}
}
