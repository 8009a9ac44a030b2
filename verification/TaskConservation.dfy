/**
 Every task that was ever created is in exactly one place, in every run: waiting
 to be queued, queued, held by the manager, on a timer, held back by a replay,
 finished or dropped. Nothing is assumed about modules here.
 */
module TaskConservation {
  import opened Basics
  import opened Intents
  import opened TaskManager
  import opened Protocol
  import opened NoLostIntent

  ghost function Ids(ts: seq<Task>): seq<Id> {
    seq(|ts|, i requires 0 <= i < |ts| => IdOf(ts[i]))
  }

  /** How often a task occurs in a list. */
  ghost function Count(ts: seq<Task>, id: Id): nat {
    if ts == [] then 0 else (if IdOf(ts[0]) == id then 1 else 0) + Count(ts[1..], id)
  }

  ghost function CountIds(ids: seq<Id>, id: Id): nat {
    if ids == [] then 0 else (if ids[0] == id then 1 else 0) + CountIds(ids[1..], id)
  }

  ghost function Held(procs: seq<Proc>): seq<Task> {
    if procs == [] then [] else (if procs[0].Gathered? then procs[0].tasks else []) + Held(procs[1..])
  }

  /** How often a task occurs while it is still to be done. */
  ghost function Open(s: Sys, id: Id): nat {
    Count(s.pending, id) + Count(s.queue, id) + Count(s.timers, id) + Count(MgrTasks(s.mgr), id)
    + Count(Held(s.procs), id)
  }

  /** How often a task occurs, over all places together. */
  ghost function Places(s: Sys, id: Id): nat {
    Open(s, id) + CountIds(s.finished, id) + CountIds(s.dropped, id)
  }

  /** Versions only grow, so no two tasks share one. */
  ghost predicate FreshIds(s: Sys) {
    && (forall i, j :: 0 <= i < j < |s.created| ==> s.created[i].version < s.created[j].version)
    && (forall id :: id in s.created ==> id.version < s.nextVersion)
  }

  ghost predicate Conserved(s: Sys) {
    FreshIds(s) && forall id :: Places(s, id) == CountIds(s.created, id)
  }

  lemma {:induction false} CountConcat(a: seq<Task>, b: seq<Task>, id: Id)
    ensures Count(a + b, id) == Count(a, id) + Count(b, id)
  {
    if a == [] {
      assert a + b == b;
    } else {
      assert (a + b)[1..] == a[1..] + b;
      CountConcat(a[1..], b, id);
    }
  }

  lemma {:induction false} CountIdsConcat(a: seq<Id>, b: seq<Id>, id: Id)
    ensures CountIds(a + b, id) == CountIds(a, id) + CountIds(b, id)
  {
    if a == [] {
      assert a + b == b;
    } else {
      assert (a + b)[1..] == a[1..] + b;
      CountIdsConcat(a[1..], b, id);
    }
  }

  lemma CountOne(t: Task, id: Id)
    ensures Count([t], id) == if IdOf(t) == id then 1 else 0
  {
    assert [t][1..] == [];
  }

  lemma CountIdsOne(one: Id, id: Id)
    ensures CountIds([one], id) == if one == id then 1 else 0
  {
    assert [one][1..] == [];
  }

  lemma CountWithout(ts: seq<Task>, j: nat, id: Id)
    requires j < |ts|
    ensures Count(ts, id) == Count(Without(ts, j), id) + Count([ts[j]], id)
  {
    assert ts == ts[..j] + ([ts[j]] + ts[j + 1..]);
    CountConcat(ts[..j], [ts[j]] + ts[j + 1..], id);
    CountConcat([ts[j]], ts[j + 1..], id);
    CountConcat(ts[..j], ts[j + 1..], id);
  }

  lemma {:induction false} HeldConcat(a: seq<Proc>, b: seq<Proc>)
    ensures Held(a + b) == Held(a) + Held(b)
  {
    if a == [] {
      assert a + b == b;
    } else {
      HeldConcat(a[1..], b);
      assert (a + b)[1..] == a[1..] + b && (a + b)[0] == a[0];
      var first := if a[0].Gathered? then a[0].tasks else [];
      assert first + (Held(a[1..]) + Held(b)) == (first + Held(a[1..])) + Held(b);
    }
  }

  lemma HeldCount(procs: seq<Proc>, p: nat, id: Id)
    requires p < |procs|
    ensures Count(Held(procs), id) ==
      Count(Held(procs[..p]), id) + Count(Held([procs[p]]), id) + Count(Held(procs[p + 1..]), id)
  {
    var mid := [procs[p]] + procs[p + 1..];
    assert procs == procs[..p] + mid;
    HeldConcat(procs[..p], mid);
    HeldConcat([procs[p]], procs[p + 1..]);
    CountConcat(Held(procs[..p]), Held(mid), id);
    CountConcat(Held([procs[p]]), Held(procs[p + 1..]), id);
  }

  lemma HeldOne(p: Proc)
    ensures Held([p]) == if p.Gathered? then p.tasks else []
  {
    assert [p][1..] == [];
  }

  // ---------------------------------------------------------------------
  // No step copies or forgets a task
  // ---------------------------------------------------------------------

  /** The manager passes its task on, or keeps it. */
  lemma DriveConserves(s: Sys, input: Input, id: Id)
    requires !input.Dequeued?
    ensures Places(Drive(s, input), id) == Places(s, id)
  {
    var (m, f) := Next(s.mgr, input);
    if MgrTasks(s.mgr) != [] {
      CountOne(MgrTasks(s.mgr)[0], id);
    }
    if f.Kept? {
      if MgrTasks(m) != [] {
        CountOne(MgrTasks(m)[0], id);
      }
    } else {
      FateConserves(s, input, id);
    }
  }

  /** A task the manager gives up goes to exactly one place. */
  lemma FateConserves(s: Sys, input: Input, id: Id)
    requires !input.Dequeued? && !Next(s.mgr, input).1.Kept?
    ensures Places(Drive(s, input), id) == Places(s, id)
  {
    CountOne(MgrTasks(s.mgr)[0], id);
    FateKeepsId(s.mgr, input);
    match Next(s.mgr, input).1
    case Requeued(t, _) => CountConcat(s.timers, [t], id); CountOne(t, id);
    case Finished(t) => CountIdsConcat(s.finished, [IdOf(t)], id); CountIdsOne(IdOf(t), id);
    case Dropped(t) => CountIdsConcat(s.dropped, [IdOf(t)], id); CountIdsOne(IdOf(t), id);
  }

  /** The task the manager gives up is the one it held. */
  lemma FateKeepsId(m: Mgr, input: Input)
    requires !input.Dequeued? && !Next(m, input).1.Kept?
    ensures |MgrTasks(m)| == 1 && MgrTasks(Next(m, input).0) == []
    ensures IdOf(Next(m, input).1.task) == IdOf(MgrTasks(m)[0])
  {}

  lemma DequeueConserves(s: Sys, id: Id)
    ensures Places(DoDequeue(s), id) == Places(s, id)
  {
    if s.mgr.Idle? && s.queue != [] {
      var t := s.queue[0];
      CountOne(t, id);
      CountOne(At(t, 0), id);
      CountIdsConcat(s.finished, [IdOf(t)], id);
      CountIdsOne(IdOf(t), id);
    }
  }

  lemma EnqueueConserves(s: Sys, j: nat, id: Id)
    ensures Places(DoEnqueue(s, j), id) == Places(s, id)
  {
    if j < |s.pending| && |s.queue| < QUEUE_CAPACITY {
      CountWithout(s.pending, j, id);
      CountConcat(s.queue, [s.pending[j]], id);
    }
  }

  lemma FireConserves(s: Sys, j: nat, id: Id)
    ensures Places(DoFire(s, j), id) == Places(s, id)
  {
    if j < |s.timers| {
      CountWithout(s.timers, j, id);
      CountConcat(s.pending, [s.timers[j]], id);
    }
  }

  lemma PublishConserves(s: Sys, ok: bool, id: Id)
    ensures Places(DoPublish(s, ok), id) == Places(s, id)
  {
    if DoPublish(s, ok) != s {
      if ok {
        var t := s.mgr.task;
        var slot := Slot(t.key.kind, t.subs[t.subIndex + s.mgr.i]);
        var s1 := s.(hands := s.hands[slot := Event(t.key, t.version, s.nextNid)], nextNid := s.nextNid + 1);
        DriveConserves(s1, PublishOk(s.nextNid), id);
      } else {
        DriveConserves(s, PublishBusy, id);
      }
    }
  }

  lemma ReportConserves(s: Sys, slot: Slot, comp: Component, delivered: bool, id: Id)
    ensures Places(DoReport(s, slot, comp, delivered), id) == Places(s, id)
  {
    if slot in s.hands {
      var e := s.hands[slot];
      var (s', drop) := Record(s.(hands := s.hands - {slot}), e, comp);
      HeldConcat(s.procs, [Requested(comp.name)]);
      HeldOne(Requested(comp.name));
      CountConcat(Held(s.procs), [], id);
      assert Places(s', id) == Places(s, id);
      if delivered {
        DriveConserves(s', Received(Signal(e.nid, drop, comp)), id);
      }
    }
  }

  lemma FinishConserves(s: Sys, p: nat, id: Id)
    ensures Places(DoFinish(s, p), id) == Places(s, id)
  {
    if p < |s.procs| && s.procs[p].Gathered? && s.mgr.AwaitingReplay? {
      var s1 := s.(procs := Without(s.procs, p), pending := s.pending + s.procs[p].tasks);
      HeldCount(s.procs, p, id);
      HeldOne(s.procs[p]);
      HeldConcat(s.procs[..p], s.procs[p + 1..]);
      CountConcat(Held(s.procs[..p]), Held(s.procs[p + 1..]), id);
      CountConcat(s.pending, s.procs[p].tasks, id);
      assert Places(s1, id) == Places(s, id);
      DriveConserves(s1, ReplayDone, id);
    }
  }

  /** A replay that turns from asked for to done adds just the tasks it now holds. */
  lemma SettledCounts(s: Sys, s': Sys, p: nat, tasks: seq<Task>, id: Id)
    requires p < |s.procs| && s.procs[p].Requested? && s'.procs == s.procs[p := Gathered(tasks)]
    requires s'.pending == s.pending && s'.queue == s.queue && s'.timers == s.timers && s'.mgr == s.mgr
    requires s'.finished == s.finished && s'.dropped == s.dropped
    ensures Places(s', id) == Places(s, id) + Count(tasks, id)
  {
    HeldCount(s.procs, p, id);
    HeldCount(s'.procs, p, id);
    assert s'.procs[..p] == s.procs[..p] && s'.procs[p + 1..] == s.procs[p + 1..];
    HeldOne(s.procs[p]);
    HeldOne(Gathered(tasks));
  }

  lemma {:induction false} CountAsIds(ts: seq<Task>, id: Id)
    ensures CountIds(Ids(ts), id) == Count(ts, id)
  {
    if ts != [] {
      assert Ids(ts)[1..] == Ids(ts[1..]);
      CountAsIds(ts[1..], id);
    }
  }

  lemma {:induction false} ReplayTaskVersions(cfg: Config, store: map<Key, Intent>, order: seq<Key>, c: string, v: int)
    ensures var tasks := ReplayTasks(cfg, store, order, c, v);
      |tasks| <= |order| && forall i :: 0 <= i < |tasks| ==> tasks[i].version == v + i
  {
    if order != [] && order[0] in store {
      ReplayTaskVersions(cfg, store, order[1..], c, v + 1);
    }
  }

  lemma FreshAppend(was: seq<Id>, more: seq<Id>, v: int)
    requires forall i, j :: 0 <= i < j < |was| ==> was[i].version < was[j].version
    requires forall id :: id in was ==> id.version < v
    requires forall i :: 0 <= i < |more| ==> more[i].version == v + i
    ensures forall i, j :: 0 <= i < j < |was + more| ==> (was + more)[i].version < (was + more)[j].version
    ensures forall id :: id in was + more ==> id.version < v + |more|
  {
    forall i, j | 0 <= i < j < |was + more| ensures (was + more)[i].version < (was + more)[j].version {
      if i < |was| <= j {
        assert was[i] in was;
      }
    }
  }

  lemma GatherConserves(cfg: Config, s: Sys, p: nat, order: seq<Key>)
    requires Conserved(s)
    ensures Conserved(DoGather(cfg, s, p, order))
  {
    if p < |s.procs| && s.procs[p].Requested? {
      var c := s.procs[p].component;
      var tasks := ReplayTasks(cfg, s.store, order, c, s.nextVersion);
      var s' := DoGather(cfg, s, p, order);
      ReplayTaskVersions(cfg, s.store, order, c, s.nextVersion);
      FreshAppend(s.created, Ids(tasks), s.nextVersion);
      assert s'.created == s.created + Ids(tasks);
      forall id ensures Places(s', id) == CountIds(s'.created, id) {
        SettledCounts(s, s', p, tasks, id);
        CountAsIds(tasks, id);
        CountIdsConcat(s.created, Ids(tasks), id);
      }
    }
  }

  /** A new task is counted once more, and its version is new. */
  lemma RenewConserves(s: Sys, s': Sys, t: Task)
    requires Conserved(s) && t.version == s.nextVersion
    requires s'.pending == s.pending + [t] && s'.created == s.created + [IdOf(t)] && s'.nextVersion == s.nextVersion + 1
    requires s'.queue == s.queue && s'.timers == s.timers && s'.mgr == s.mgr && s'.procs == s.procs
    requires s'.finished == s.finished && s'.dropped == s.dropped
    ensures Conserved(s')
  {
    FreshAppend(s.created, [IdOf(t)], s.nextVersion);
    forall id ensures Places(s', id) == CountIds(s'.created, id) {
      CountConcat(s.pending, [t], id);
      CountOne(t, id);
      CountIdsConcat(s.created, [IdOf(t)], id);
      CountIdsOne(IdOf(t), id);
    }
  }

  lemma StepConserves(cfg: Config, s: Sys, step: Step)
    requires Conserved(s)
    ensures Conserved(Apply(cfg, s, step))
  {
    var s' := Apply(cfg, s, step);
    match step {
      case ApiCreate(key) =>
        if s' != s { RenewConserves(s, s', NewTask(key, s.nextVersion, cfg.Of(key.kind))); }
      case ApiDelete(key) =>
        if s' != s { RenewConserves(s, s', NewTask(key, s.nextVersion, cfg.Of(key.kind))); }
      case Gather(p, order) => GatherConserves(cfg, s, p, order);
      case _ =>
        MoveCreatesNone(cfg, s, step);
        forall id ensures Places(s', id) == CountIds(s'.created, id) {
          MoveConserves(cfg, s, step, id);
        }
    }
  }

  lemma MoveCreatesNone(cfg: Config, s: Sys, step: Step)
    requires !step.ApiCreate? && !step.ApiDelete? && !step.Gather?
    ensures Apply(cfg, s, step).created == s.created && Apply(cfg, s, step).nextVersion == s.nextVersion
  {}

  lemma MoveConserves(cfg: Config, s: Sys, step: Step, id: Id)
    requires !step.ApiCreate? && !step.ApiDelete? && !step.Gather?
    ensures Places(Apply(cfg, s, step), id) == Places(s, id)
  {
    match step {
      case Enqueue(j) => EnqueueConserves(s, j, id);
      case Fire(j) => FireConserves(s, j, id);
      case Dequeue => DequeueConserves(s, id);
      case Publish(ok) => PublishConserves(s, ok, id);
      case Report(slot, comp, delivered) => ReportConserves(s, slot, comp, delivered, id);
      case Quit(slot) =>
      case Timeout => if s.mgr.Waiting? { DriveConserves(s, TimedOut, id); }
      case Abort(p) => if p < |s.procs| && s.procs[p].Requested? { SettledCounts(s, DoAbort(s, p), p, [], id); }
      case Finish(p) => FinishConserves(s, p, id);
    }
  }

  // ---------------------------------------------------------------------
  // Whole runs
  // ---------------------------------------------------------------------

  lemma {:induction false} RunConserves(cfg: Config, steps: seq<Step>)
    ensures Conserved(Run(cfg, steps))
  {
    if steps != [] {
      RunConserves(cfg, steps[..|steps| - 1]);
      StepConserves(cfg, Run(cfg, steps[..|steps| - 1]), steps[|steps| - 1]);
    }
  }

  lemma {:induction false} CountDistinct(ids: seq<Id>, id: Id)
    requires NoDup(ids)
    ensures CountIds(ids, id) == if id in ids then 1 else 0
  {
    if ids != [] {
      CountDistinct(ids[1..], id);
      assert ids[0] !in ids[1..];
    }
  }

  /** In every run, each created task is in exactly one place exactly once; nothing else is in any place. */
  lemma {:induction false} EachTaskInOnePlace(cfg: Config, steps: seq<Step>, id: Id)
    ensures Places(Run(cfg, steps), id) == if id in Run(cfg, steps).created then 1 else 0
  {
    RunConserves(cfg, steps);
    CountDistinct(Run(cfg, steps).created, id);
  }

  lemma {:induction false} CountMember(ids: seq<Id>, id: Id)
    ensures id in ids <==> CountIds(ids, id) >= 1
  {
    if ids != [] {
      CountMember(ids[1..], id);
    }
  }

  lemma DoneGrows(cfg: Config, s: Sys, step: Step)
    ensures forall id :: id in s.finished + s.dropped ==>
      id in Apply(cfg, s, step).finished + Apply(cfg, s, step).dropped
  {}

  predicate IsDone(s: Sys, id: Id) {
    id in s.finished + s.dropped
  }

  lemma {:induction false} DoneStays(cfg: Config, steps: seq<Step>, more: seq<Step>, id: Id)
    requires IsDone(Run(cfg, steps), id)
    ensures IsDone(Run(cfg, steps + more), id)
  {
    if more == [] {
      assert steps + more == steps;
    } else {
      var before := steps + more[..|more| - 1];
      DoneStays(cfg, steps, more[..|more| - 1], id);
      assert steps + more == before + [more[|more| - 1]];
      DoneStep(cfg, before, more[|more| - 1], id);
    }
  }

  lemma DoneStep(cfg: Config, before: seq<Step>, step: Step, id: Id)
    requires IsDone(Run(cfg, before), id)
    ensures IsDone(Run(cfg, before + [step]), id)
  {
    assert (before + [step])[..|before|] == before;
    DoneGrows(cfg, Run(cfg, before), step);
  }

  lemma DoneIsNowhereElse(s: Sys, id: Id)
    requires IsDone(s, id) && Places(s, id) <= 1
    ensures Open(s, id) == 0
  {
    CountMember(s.finished, id);
    CountMember(s.dropped, id);
  }

  /** A task that is finished or dropped is nowhere else, and stays done for ever. */
  lemma DoneIsForEver(cfg: Config, steps: seq<Step>, more: seq<Step>, id: Id)
    requires IsDone(Run(cfg, steps), id)
    ensures IsDone(Run(cfg, steps + more), id) && Open(Run(cfg, steps + more), id) == 0
  {
    DoneStays(cfg, steps, more, id);
    EachTaskInOnePlace(cfg, steps + more, id);
    DoneIsNowhereElse(Run(cfg, steps + more), id);
  }

  // ---------------------------------------------------------------------
  // At most one open task per object version
  // ---------------------------------------------------------------------

  lemma {:induction false} TwoCounts(ts: seq<Task>, a: Task, b: Task)
    requires a in ts && b in ts && a != b && IdOf(a) == IdOf(b)
    ensures Count(ts, IdOf(a)) >= 2
  {
    if ts[0] == a || ts[0] == b {
      OneCounts(ts[1..], if ts[0] == a then b else a);
    } else {
      TwoCounts(ts[1..], a, b);
    }
  }

  lemma {:induction false} OneCounts(ts: seq<Task>, a: Task)
    requires a in ts
    ensures Count(ts, IdOf(a)) >= 1
  {
    if ts[0] != a {
      OneCounts(ts[1..], a);
    }
  }

  /** Two live tasks of one object and version are the same task. */
  lemma OneLiveTask(cfg: Config, steps: seq<Step>, a: Task, b: Task)
    requires IsLive(Run(cfg, steps), a) && IsLive(Run(cfg, steps), b) && IdOf(a) == IdOf(b)
    ensures a == b
  {
    var s := Run(cfg, steps);
    var id := IdOf(a);
    EachTaskInOnePlace(cfg, steps, id);
    var all := s.pending + (s.queue + (s.timers + MgrTasks(s.mgr)));
    CountConcat(s.pending, s.queue + (s.timers + MgrTasks(s.mgr)), id);
    CountConcat(s.queue, s.timers + MgrTasks(s.mgr), id);
    CountConcat(s.timers, MgrTasks(s.mgr), id);
    assert a in all && b in all;
    if a != b {
      TwoCounts(all, a, b);
    }
  }
}
