/**
 Replays (pkg/infradb/replay.go): what a gather does to the store and which tasks it
 makes, and two runs that end badly.
 */
module Replay {
  import opened Basics
  import opened Intents
  import opened TaskManager
  import opened Protocol
  import opened NoLostIntent
  import opened TaskConservation
  import opened Realization
  import opened Teardown

  /** What a replay asked for by `component` does to one object `x`, given its new task. */
  ghost predicate ReplayedRight(cfg: Config, k: Key, x: Intent, y: Intent, component: string, t: Task) {
    && t.key == k && t.version == y.version && t.subIndex == 0 && t.systemTimer == INITIAL_TIMER
    && y.version > x.version
    && Names(y.comps) == Names(x.comps)
    && (forall i :: 0 <= i < |y.comps| ==>
         if y.comps[i].name in t.subs then y.comps[i] == Fresh(y.comps[i].name)
         else y.comps[i] == x.comps[i] && y.comps[i].status == Success)
    && component in t.subs
    && InOrder(t.subs, cfg.Of(k.kind)) && NoDup(t.subs)
    && y.oper == if x.oper == Up then Down else x.oper
  }

  lemma PreparedRight(cfg: Config, next: int, k: Key, x: Intent, c: string, v: int)
    requires Follows(x, cfg.Of(k.kind)) && c in cfg.Of(k.kind) && x.version < v
    ensures ReplayedRight(cfg, k, x, Prepared(x, c, v), c, NewTask(k, v, PreparedSubs(x.comps, c, cfg.Of(k.kind))))
  {
    var subs := cfg.Of(k.kind);
    var y := Prepared(x, c, v);
    PreparedSubsExact(x.comps, c, subs);
    assert Names(y.comps) == Names(x.comps);
    var i := IndexOfName(x.comps, subs, c);
    assert y.comps[i].status == Pending;
  }

  /**
   Replay exactness. When a replay gathers, every stored VRF, logical bridge or SVI of a
   kind its module subscribes to gets one task under a new version; the task contacts,
   in priority order, exactly the components set back to Pending, all others being
   Success; and everything else in the store is untouched.
   */
  lemma {:induction false} ReplayIsExact(cfg: Config, steps: seq<Step>, p: nat, order: seq<Key>, k: Key)
    requires cfg.Valid() && HonestRun(cfg, steps)
    requires p < |Run(cfg, steps).procs| && Run(cfg, steps).procs[p].Requested?
    requires Possible(cfg, Run(cfg, steps), Gather(p, order)) && k in Run(cfg, steps).store
    ensures var s := Run(cfg, steps); var s' := DoGather(cfg, Run(cfg, steps), p, order);
      var c := s.procs[p].component;
      && k in s'.store && s'.procs[p].Gathered?
      && (Replayable(cfg, k.kind, c) ==>
           exists t :: t in s'.procs[p].tasks && ReplayedRight(cfg, k, s.store[k], s'.store[k], c, t))
      && (!Replayable(cfg, k.kind, c) ==>
           s'.store[k] == s.store[k] && forall t :: t in s'.procs[p].tasks ==> t.key != k)
  {
    RunIsSound(cfg, steps);
    DoGatherIsExact(cfg, Run(cfg, steps), p, order, k);
  }

  lemma {:induction false} RunIsSound(cfg: Config, steps: seq<Step>)
    requires cfg.Valid() && HonestRun(cfg, steps)
    ensures var s := Run(cfg, steps);
      && (forall k :: k in s.store ==> IntentOk(cfg, s.nextVersion, k, s.store[k]))
      && (forall slot :: slot in s.hands ==> EventOk(cfg, s.nextVersion, s.nextNid, slot, s.hands[slot]))
  {
    RunKeeps(cfg, steps);
  }

  lemma DoGatherIsExact(cfg: Config, s: Sys, p: nat, order: seq<Key>, k: Key)
    requires p < |s.procs| && s.procs[p].Requested? && WalksReplayed(cfg, s.store, s.procs[p].component, order)
    requires k in s.store && IntentOk(cfg, s.nextVersion, k, s.store[k])
    ensures var s' := DoGather(cfg, s, p, order); var c := s.procs[p].component;
      && k in s'.store && s'.procs[p].Gathered?
      && (Replayable(cfg, k.kind, c) ==>
           exists t :: t in s'.procs[p].tasks && ReplayedRight(cfg, k, s.store[k], s'.store[k], c, t))
      && (!Replayable(cfg, k.kind, c) ==>
           s'.store[k] == s.store[k] && forall t :: t in s'.procs[p].tasks ==> t.key != k)
  {
    var c := s.procs[p].component;
    GatherHasEffect(cfg, s, p, order);
    GatherIsExact(cfg, s, DoGather(cfg, s, p, order), p, order, c,
                  ReplayTasks(cfg, s.store, order, c, s.nextVersion), k);
  }

  lemma GatherIsExact(cfg: Config, s: Sys, s': Sys, p: nat, order: seq<Key>, c: string, tasks: seq<Task>, k: Key)
    requires GatherEffect(cfg, s, s', p, order, c, tasks) && k in s.store && IntentOk(cfg, s.nextVersion, k, s.store[k])
    ensures k in s'.store && s'.procs[p] == Gathered(tasks)
    ensures Replayable(cfg, k.kind, c) ==>
      exists t :: t in tasks && ReplayedRight(cfg, k, s.store[k], s'.store[k], c, t)
    ensures !Replayable(cfg, k.kind, c) ==> s'.store[k] == s.store[k] && forall t :: t in tasks ==> t.key != k
  {
    if k in order {
      var t := GatheredTask(cfg, s, s', p, order, c, tasks, k);
    } else {
      TasksOfOthers(cfg, s, s', p, order, c, tasks, k);
    }
  }

  lemma GatheredTask(cfg: Config, s: Sys, s': Sys, p: nat, order: seq<Key>, c: string, tasks: seq<Task>, k: Key)
    returns (t: Task)
    requires GatherEffect(cfg, s, s', p, order, c, tasks) && k in s.store && IntentOk(cfg, s.nextVersion, k, s.store[k])
    requires k in order
    ensures t in tasks && k in s'.store && ReplayedRight(cfg, k, s.store[k], s'.store[k], c, t)
  {
    var i :| 0 <= i < |order| && order[i] == k;
    PreparedRight(cfg, s.nextVersion, k, s.store[k], c, s.nextVersion + i);
    t := tasks[i];
  }

  lemma TasksOfOthers(cfg: Config, s: Sys, s': Sys, p: nat, order: seq<Key>, c: string, tasks: seq<Task>, k: Key)
    requires GatherEffect(cfg, s, s', p, order, c, tasks) && k !in order
    ensures forall t :: t in tasks ==> t.key != k
  {
    forall t | t in tasks ensures t.key != k {
      var i :| 0 <= i < |tasks| && tasks[i] == t;
      assert order[i] in order;
    }
  }

  /** After a gather, no notification handed out before it can change a replayed object any more. */
  lemma {:induction false} OldVersionsAreDead(cfg: Config, steps: seq<Step>, p: nat, order: seq<Key>, slot: Slot)
    requires cfg.Valid() && HonestRun(cfg, steps)
    requires p < |Run(cfg, steps).procs| && Run(cfg, steps).procs[p].Requested?
    requires Possible(cfg, Run(cfg, steps), Gather(p, order)) && slot in Run(cfg, steps).hands
    requires Run(cfg, steps).hands[slot].key in order
    ensures var s' := DoGather(cfg, Run(cfg, steps), p, order);
      s'.hands == Run(cfg, steps).hands && !Current(s'.store, s'.hands[slot].key, s'.hands[slot].version)
  {
    RunIsSound(cfg, steps);
    DoGatherRenews(cfg, Run(cfg, steps), p, order, slot);
  }

  lemma DoGatherRenews(cfg: Config, s: Sys, p: nat, order: seq<Key>, slot: Slot)
    requires p < |s.procs| && s.procs[p].Requested? && WalksReplayed(cfg, s.store, s.procs[p].component, order)
    requires slot in s.hands && s.hands[slot].key in order
    requires EventOk(cfg, s.nextVersion, s.nextNid, slot, s.hands[slot])
    ensures var s' := DoGather(cfg, s, p, order);
      s'.hands == s.hands && !Current(s'.store, s'.hands[slot].key, s'.hands[slot].version)
  {
    var c := s.procs[p].component;
    GatherHasEffect(cfg, s, p, order);
    GatherRenews(cfg, s, DoGather(cfg, s, p, order), p, order, c,
                 ReplayTasks(cfg, s.store, order, c, s.nextVersion), s.hands[slot].key);
  }

  lemma GatherRenews(cfg: Config, s: Sys, s': Sys, p: nat, order: seq<Key>, c: string, tasks: seq<Task>, k: Key)
    requires GatherEffect(cfg, s, s', p, order, c, tasks) && k in order
    ensures k in s'.store && s'.store[k].version >= s.nextVersion && s'.hands == s.hands
  {
    var i :| 0 <= i < |order| && order[i] == k;
  }

  /** A report on a version that is not the stored one leaves the store as it is. */
  lemma StaleReportsAreIgnored(s: Sys, slot: Slot, comp: Component, delivered: bool)
    requires slot in s.hands && !Current(s.store, s.hands[slot].key, s.hands[slot].version)
    ensures DoReport(s, slot, comp, delivered).store == s.store
  {}

  // ---------------------------------------------------------------------
  // Two runs
  // ---------------------------------------------------------------------

  const ONLY_FRR := Config(["frr"], [], [], [])
  const BLUE := Key(VrfKind, "blue")
  const FRR_SLOT := Slot(VrfKind, "frr")
  /** The report of the seventh failure in a row. */
  const FRR_GIVES_UP := Component("frr", Error, "", 128, true)

  lemma Snoc(cfg: Config, steps: seq<Step>, step: Step)
    ensures Run(cfg, steps + [step]) == Apply(cfg, Run(cfg, steps), step)
    ensures HonestRun(cfg, steps + [step]) <==>
      HonestRun(cfg, steps) && Possible(cfg, Run(cfg, steps), step) && Honest(Run(cfg, steps), step)
  {
    assert (steps + [step])[..|steps + [step]| - 1] == steps;
  }

  /** The states on the way to module frr having the notification for the only VRF in hand. */
  const FIRST_TASK := Task(BLUE, 0, 0, 1, ["frr"])
  const STORED := Init.(
    store := map[BLUE := NewIntent(["frr"], 0)], pending := [FIRST_TASK], nextVersion := 1,
    created := [Id(BLUE, 0)], log := [Created(BLUE, 0)])
  const QUEUED := STORED.(pending := [], queue := [FIRST_TASK])
  const TAKEN := QUEUED.(queue := [], mgr := Publishing(FIRST_TASK, 0))
  const NOTIFIED := TAKEN.(
    mgr := Waiting(FIRST_TASK, 0, 0), hands := map[FRR_SLOT := Event(BLUE, 0, 0)], nextNid := 1,
    log := [Created(BLUE, 0), Notified(Id(BLUE, 0), 0, 0, "frr")])

  const TO_STORED := [ApiCreate(BLUE)]
  const TO_NOTIFIED := TO_STORED + [Enqueue(0)] + [Dequeue] + [Publish(true)]

  lemma StoredStep()
    ensures Apply(ONLY_FRR, Init, ApiCreate(BLUE)) == STORED
  {
    assert Init.store[BLUE := NewIntent(["frr"], 0)] == STORED.store;
  }

  lemma QueuedStep()
    ensures Apply(ONLY_FRR, STORED, Enqueue(0)) == QUEUED
  {}

  lemma TakenStep()
    ensures Apply(ONLY_FRR, QUEUED, Dequeue) == TAKEN
  {}

  lemma NotifiedStep()
    ensures Apply(ONLY_FRR, TAKEN, Publish(true)) == NOTIFIED
  {
    assert TAKEN.log + [Notified(Id(BLUE, 0), 0, 0, "frr")] == NOTIFIED.log;
  }

  lemma NotifiedRun()
    ensures Run(ONLY_FRR, TO_NOTIFIED) == NOTIFIED && HonestRun(ONLY_FRR, TO_NOTIFIED)
  {
    var cfg := ONLY_FRR;
    Snoc(cfg, [], ApiCreate(BLUE));
    assert [] + [ApiCreate(BLUE)] == TO_STORED;
    StoredStep();
    Snoc(cfg, TO_STORED, Enqueue(0));
    QueuedStep();
    Snoc(cfg, TO_STORED + [Enqueue(0)], Dequeue);
    TakenStep();
    Snoc(cfg, TO_STORED + [Enqueue(0)] + [Dequeue], Publish(true));
    NotifiedStep();
  }

  /** The VRF marked, with the task of its deletion about to be queued. */
  const MARKED := NOTIFIED.(
    store := map[BLUE := MarkDeleted(NewIntent(["frr"], 0), 1, 1)], pending := [Task(BLUE, 1, 0, 1, ["frr"])],
    nextVersion := 2, created := [Id(BLUE, 0), Id(BLUE, 1)],
    log := [Created(BLUE, 0), Notified(Id(BLUE, 0), 0, 0, "frr"), Marked(BLUE, 1)])
  const BLOCKED := MARKED.(mgr := AwaitingReplay, hands := map[], dropped := [Id(BLUE, 0)])
  const GIVE_UP := Report(FRR_SLOT, FRR_GIVES_UP, true)

  lemma MarkedStep()
    ensures Apply(ONLY_FRR, NOTIFIED, ApiDelete(BLUE)) == MARKED
  {
    assert NOTIFIED.store[BLUE] == NewIntent(["frr"], 0) && |NOTIFIED.store[BLUE].comps| == 1;
    assert NOTIFIED.store[BLUE := MARKED.store[BLUE]] == MARKED.store;
  }

  lemma BlockedStep()
    ensures Apply(ONLY_FRR, MARKED, GIVE_UP) == BLOCKED
  {
    assert MARKED.hands - {FRR_SLOT} == map[];
    assert MARKED.store[BLUE].version == 1;
    assert MARKED.log + [] == BLOCKED.log;
  }

  /**
   The VRF is deleted through the API while module frr is failing for the seventh time: frr asks for
   a replay of a version that is gone. No module misbehaves, yet the manager now waits for
   a replay that nobody runs, and the task of the deletion is never taken up.
   */
  lemma ManagerCanBlock()
    ensures var steps := TO_NOTIFIED + [ApiDelete(BLUE)] + [GIVE_UP];
      var s := Run(ONLY_FRR, steps);
      && HonestRun(ONLY_FRR, steps)
      && s.mgr == AwaitingReplay && s.procs == [] && |s.pending| == 1
      && BLUE in s.store && s.store[BLUE].oper == ToBeDeleted
  {
    var cfg := ONLY_FRR;
    NotifiedRun();
    Snoc(cfg, TO_NOTIFIED, ApiDelete(BLUE));
    MarkedStep();
    Snoc(cfg, TO_NOTIFIED + [ApiDelete(BLUE)], GIVE_UP);
    BlockedStep();
  }

  const ASKED := NOTIFIED.(mgr := AwaitingReplay, hands := map[], procs := [Requested("frr")], dropped := [Id(BLUE, 0)])

  lemma AskedStep()
    ensures Apply(ONLY_FRR, NOTIFIED, GIVE_UP) == ASKED
  {
    assert NOTIFIED.hands - {FRR_SLOT} == map[];
    assert NOTIFIED.log + [] == ASKED.log;
  }

  lemma FailedStep()
    ensures var s := Apply(ONLY_FRR, Apply(ONLY_FRR, ASKED, Abort(0)), Finish(0));
      Quiescent(s) && s.store == ASKED.store
  {
    assert Apply(ONLY_FRR, ASKED, Abort(0)).procs == [Gathered([])];
  }

  /** A replay whose pre-replay step fails: nothing is left to do, and the VRF is not realized. */
  lemma FailedPreReplayLosesIntent()
    ensures var s := Run(ONLY_FRR, TO_NOTIFIED + [GIVE_UP] + [Abort(0)] + [Finish(0)]);
      Quiescent(s) && BLUE in s.store && !AllSuccess(s.store[BLUE].comps)
  {
    var cfg := ONLY_FRR;
    NotifiedRun();
    Snoc(cfg, TO_NOTIFIED, GIVE_UP);
    AskedStep();
    Snoc(cfg, TO_NOTIFIED + [GIVE_UP], Abort(0));
    Snoc(cfg, TO_NOTIFIED + [GIVE_UP] + [Abort(0)], Finish(0));
    FailedStep();
    assert NewIntent(["frr"], 0).comps[0].status == Pending;
  }
}
