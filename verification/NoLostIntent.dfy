/**
 No intent is ever lost: in every state of every honest run, each component of a
 stored object that is not realized is still going to be contacted.
 */
module NoLostIntent {
  import opened Basics
  import opened Intents
  import opened TaskManager
  import opened Protocol

  // ---------------------------------------------------------------------
  // What it means that a component will still be contacted
  // ---------------------------------------------------------------------

  function MgrTasks(m: Mgr): seq<Task> {
    match m
    case Publishing(t, i) => [At(t, i)]
    case Waiting(t, i, _) => [At(t, i)]
    case _ => []
  }

  ghost predicate IsLive(s: Sys, t: Task) {
    t in s.pending || t in s.queue || t in s.timers || t in MgrTasks(s.mgr)
  }

  ghost predicate WillContact(t: Task, key: Key, version: int, name: string) {
    t.key == key && t.version == version && name in Remaining(t)
  }

  ghost predicate ReplayWillContact(cfg: Config, p: Proc, key: Key, version: int, name: string) {
    match p
    case Requested(c) => Replayable(cfg, key.kind, c)
    case Gathered(tasks) => exists t :: t in tasks && WillContact(t, key, version, name)
  }

  ghost predicate Backed(cfg: Config, s: Sys, key: Key, version: int, name: string) {
    || (exists t :: IsLive(s, t) && WillContact(t, key, version, name))
    || (exists p :: 0 <= p < |s.procs| && ReplayWillContact(cfg, s.procs[p], key, version, name))
  }

  /** Every unrealized component of every stored object will be contacted under the object's version. */
  ghost predicate NoneLost(cfg: Config, s: Sys) {
    forall k, i :: k in s.store && 0 <= i < |s.store[k].comps| && s.store[k].comps[i].status != Success ==>
      Backed(cfg, s, k, s.store[k].version, s.store[k].comps[i].name)
  }

  // ---------------------------------------------------------------------
  // The invariant that carries it
  // ---------------------------------------------------------------------

  ghost predicate TaskOk(cfg: Config, next: int, t: Task) {
    && t.version < next
    && t.subIndex < |t.subs|
    && forall n :: n in t.subs ==> n in cfg.Of(t.key.kind)
  }

  ghost predicate IntentOk(cfg: Config, next: int, k: Key, x: Intent) {
    && Follows(x, cfg.Of(k.kind))
    && x.version < next
    && (AllSuccess(x.comps) ==> x.oper == Up)
  }

  ghost predicate ProcOk(cfg: Config, next: int, p: Proc) {
    p.Gathered? ==> forall t :: t in p.tasks ==> TaskOk(cfg, next, t)
  }

  ghost predicate EventOk(cfg: Config, next: int, nextNid: int, slot: Slot, e: Event) {
    && e.key.kind == slot.kind
    && slot.name in cfg.Of(slot.kind)
    && e.version < next
    && e.nid < nextNid
  }

  /** The notification the manager waits on is the one its task's subscriber has in hand, if any has it. */
  ghost predicate MgrOk(s: Sys) {
    s.mgr.Waiting? ==>
      && s.mgr.nid < s.nextNid
      && forall slot :: slot in s.hands && s.hands[slot].nid == s.mgr.nid ==>
        var t := At(s.mgr.task, s.mgr.i);
        && s.hands[slot].key == t.key
        && s.hands[slot].version == t.version
        && t.subIndex < |t.subs|
        && slot.name == t.subs[t.subIndex]
  }

  ghost predicate Sound(cfg: Config, s: Sys) {
    && (forall k :: k in s.store ==> IntentOk(cfg, s.nextVersion, k, s.store[k]))
    && (forall t :: IsLive(s, t) ==> TaskOk(cfg, s.nextVersion, t))
    && (forall p :: p in s.procs ==> ProcOk(cfg, s.nextVersion, p))
    && (forall slot :: slot in s.hands ==> EventOk(cfg, s.nextVersion, s.nextNid, slot, s.hands[slot]))
    && MgrOk(s)
  }

  /** A goroutine that may still report on the current version is itself still going to be contacted. */
  ghost predicate HandsBacked(cfg: Config, s: Sys) {
    forall slot :: slot in s.hands && Current(s.store, s.hands[slot].key, s.hands[slot].version) ==>
      Backed(cfg, s, s.hands[slot].key, s.hands[slot].version, slot.name)
  }

  ghost predicate Inv(cfg: Config, s: Sys) {
    Sound(cfg, s) && NoneLost(cfg, s) && HandsBacked(cfg, s)
  }

  // ---------------------------------------------------------------------
  // Moving tasks around
  // ---------------------------------------------------------------------

  lemma InWithout<T>(s: seq<T>, j: nat, x: T)
    requires j < |s|
    ensures x in s <==> x == s[j] || x in Without(s, j)
  {
    if x in s {
      var i :| 0 <= i < |s| && s[i] == x;
      if i < j {
        assert Without(s, j)[i] == x;
      } else if i > j {
        assert Without(s, j)[i - 1] == x;
      }
    }
  }

  /** Same live tasks, no replay forgotten: whatever was backed still is. */
  lemma BackedStays(cfg: Config, s: Sys, s': Sys, key: Key, version: int, name: string)
    requires Backed(cfg, s, key, version, name)
    requires forall t :: IsLive(s, t) && WillContact(t, key, version, name) ==> IsLive(s', t)
    requires forall p :: 0 <= p < |s.procs| && ReplayWillContact(cfg, s.procs[p], key, version, name) ==>
      s.procs[p] in s'.procs
    ensures Backed(cfg, s', key, version, name)
  {
    if t :| IsLive(s, t) && WillContact(t, key, version, name) {
      assert IsLive(s', t);
    } else {
      var p :| 0 <= p < |s.procs| && ReplayWillContact(cfg, s.procs[p], key, version, name);
      var q :| 0 <= q < |s'.procs| && s'.procs[q] == s.procs[p];
    }
  }

  /** The manager gives up contacting `name` only on a status that answers its notification. */
  ghost predicate LetsGo(s: Sys, input: Input, key: Key, version: int, name: string) {
    && s.mgr.Waiting? && input.Received? && input.signal.nid == s.mgr.nid
    && s.mgr.task.key == key && s.mgr.task.version == version
    && (input.signal.drop || input.signal.comp.status == Success || input.signal.comp.status != Error)
    && (!input.signal.drop && input.signal.comp.status == Success ==>
        var t := At(s.mgr.task, s.mgr.i);
        t.subIndex < |t.subs| && name == t.subs[t.subIndex])
  }

  lemma DriveKeepsOthers(s: Sys, input: Input)
    ensures Drive(s, input).procs == s.procs
    ensures Drive(s, input).pending == s.pending && Drive(s, input).queue == s.queue
    ensures Drive(s, input).store == s.store && Drive(s, input).hands == s.hands
    ensures Drive(s, input).nextVersion == s.nextVersion && Drive(s, input).nextNid == s.nextNid
    ensures forall t :: t in s.timers ==> t in Drive(s, input).timers
  {}

  lemma {:induction false} DriveBacked(cfg: Config, s: Sys, input: Input, key: Key, version: int, name: string)
    requires Backed(cfg, s, key, version, name) && !input.Dequeued?
    requires forall t :: t in MgrTasks(s.mgr) ==> t.subIndex < |t.subs|
    ensures Backed(cfg, Drive(s, input), key, version, name) || LetsGo(s, input, key, version, name)
  {
    var s' := Drive(s, input);
    DriveKeepsOthers(s, input);
    if t :| IsLive(s, t) && WillContact(t, key, version, name) {
      if t in MgrTasks(s.mgr) && !LetsGo(s, input, key, version, name) {
        DriveKeepsTask(s, input, t, name);
      } else if t !in MgrTasks(s.mgr) {
        assert IsLive(s', t);
      }
    } else {
      var p :| 0 <= p < |s.procs| && ReplayWillContact(cfg, s.procs[p], key, version, name);
      assert ReplayWillContact(cfg, s'.procs[p], key, version, name);
    }
  }

  lemma DriveKeepsTask(s: Sys, input: Input, t: Task, name: string)
    requires t in MgrTasks(s.mgr) && WillContact(t, t.key, t.version, name) && t.subIndex < |t.subs|
    requires !input.Dequeued? && !LetsGo(s, input, t.key, t.version, name)
    ensures exists t' :: IsLive(Drive(s, input), t') && WillContact(t', t.key, t.version, name)
  {
    var s' := Drive(s, input);
    var (m, f) := Next(s.mgr, input);
    KeepsContact(s, input, t, name);
    assert HasNext(s.mgr, input, t, name);
    if f.Requeued? {
      assert f.task in s'.timers;
      assert IsLive(s', f.task);
    } else {
      assert IsLive(s', MgrTasks(m)[0]);
    }
  }

  /** The task the manager passes on or keeps still has the module to contact. */
  lemma KeepsContact(s: Sys, input: Input, t: Task, name: string)
    requires t in MgrTasks(s.mgr) && WillContact(t, t.key, t.version, name) && t.subIndex < |t.subs|
    requires !input.Dequeued? && !LetsGo(s, input, t.key, t.version, name)
    ensures HasNext(s.mgr, input, t, name)
  {
    if s.mgr.Waiting? && input.Received? && input.signal.nid == s.mgr.nid && input.signal.comp.status == Success {
      PassesOn(s.mgr, input.signal, t, name);
    } else {
      StaysPut(s.mgr, input, t);
      var (m, f) := Next(s.mgr, input);
      SameRest(t, if f.Requeued? then f.task else MgrTasks(m)[0], name);
    }
  }

  /** What becomes of the manager's task, which still has the module to contact. */
  ghost predicate HasNext(m: Mgr, input: Input, t: Task, name: string) {
    var (m', f) := Next(m, input);
    || (f.Requeued? && WillContact(f.task, t.key, t.version, name))
    || (f.Kept? && |MgrTasks(m')| == 1 && WillContact(MgrTasks(m')[0], t.key, t.version, name))
  }

  lemma PassesOn(m: Mgr, signal: Signal, t: Task, name: string)
    requires m.Waiting? && t == At(m.task, m.i) && signal.nid == m.nid
    requires !signal.drop && signal.comp.status == Success
    requires name in Remaining(t) && t.subIndex < |t.subs| && name != t.subs[t.subIndex]
    ensures HasNext(m, Received(signal), t, name)
  {
    var heard := m.task.(systemTimer := INITIAL_TIMER);
    assert At(heard, m.i).subs == t.subs && At(heard, m.i).subIndex == t.subIndex;
    NextHasRest(heard, m.i, name);
    assert Next(m, Received(signal)) == (Publishing(heard, m.i + 1), Kept);
  }

  /** Without an answer that moves it on or drops it, the task stays at its subscriber. */
  lemma StaysPut(m: Mgr, input: Input, t: Task)
    requires t in MgrTasks(m) && !input.Dequeued?
    requires m.Waiting? && input.Received? && input.signal.nid == m.nid ==>
      !input.signal.drop && input.signal.comp.status == Error
    ensures var (m', f) := Next(m, input);
      && (f.Requeued? || (f.Kept? && |MgrTasks(m')| == 1))
      && var u := if f.Requeued? then f.task else MgrTasks(m')[0];
         u.key == t.key && u.version == t.version && u.subIndex == t.subIndex && u.subs == t.subs
  {}

  lemma SameRest(t: Task, u: Task, name: string)
    requires u.key == t.key && u.version == t.version && u.subIndex == t.subIndex && u.subs == t.subs
    requires name in Remaining(t)
    ensures WillContact(u, t.key, t.version, name)
  {}

  /** Past a subscriber that is not the one in question the task goes on to it. */
  lemma NextHasRest(t: Task, i: nat, name: string)
    requires name in Remaining(At(t, i)) && t.subIndex + i < |t.subs| && name != t.subs[t.subIndex + i]
    ensures Advance(t, i + 1) == (Publishing(t, i + 1), Kept) && name in Remaining(At(t, i + 1))
  {
    assert Remaining(At(t, i)) == [t.subs[t.subIndex + i]] + t.subs[t.subIndex + i + 1..];
  }

  // ---------------------------------------------------------------------
  // API calls
  // ---------------------------------------------------------------------

  lemma TaskBacks(cfg: Config, s: Sys, t: Task, name: string)
    requires IsLive(s, t) && name in Remaining(t)
    ensures Backed(cfg, s, t.key, t.version, name)
  {
    assert WillContact(t, t.key, t.version, name);
  }

  lemma RenewSound(cfg: Config, s: Sys, s': Sys, key: Key, x: Intent)
    requires Sound(cfg, s) && cfg.Valid()
    requires cfg.Of(key.kind) != [] && Names(x.comps) == cfg.Of(key.kind) && x.version == s.nextVersion
    requires !AllSuccess(x.comps)
    requires s'.store == s.store[key := x] && s'.nextVersion == s.nextVersion + 1
    requires s'.pending == s.pending + [NewTask(key, x.version, cfg.Of(key.kind))]
    requires s'.queue == s.queue && s'.timers == s.timers && s'.mgr == s.mgr
    requires s'.hands == s.hands && s'.procs == s.procs && s'.nextNid == s.nextNid
    ensures Sound(cfg, s')
  {
    forall u | IsLive(s', u) ensures TaskOk(cfg, s'.nextVersion, u) {
      assert u == NewTask(key, x.version, cfg.Of(key.kind)) || IsLive(s, u);
    }
  }

  /** A step that gives one object a fresh version and a task for all its modules. */
  lemma RenewKeeps(cfg: Config, s: Sys, s': Sys, key: Key, x: Intent)
    requires Inv(cfg, s) && cfg.Valid()
    requires cfg.Of(key.kind) != [] && Names(x.comps) == cfg.Of(key.kind) && x.version == s.nextVersion
    requires !AllSuccess(x.comps)
    requires s'.store == s.store[key := x] && s'.nextVersion == s.nextVersion + 1
    requires s'.pending == s.pending + [NewTask(key, x.version, cfg.Of(key.kind))]
    requires s'.queue == s.queue && s'.timers == s.timers && s'.mgr == s.mgr
    requires s'.hands == s.hands && s'.procs == s.procs && s'.nextNid == s.nextNid
    ensures Inv(cfg, s')
  {
    RenewSound(cfg, s, s', key, x);
    RenewBacked(cfg, s, s', key, x);
    forall slot | slot in s'.hands && Current(s'.store, s'.hands[slot].key, s'.hands[slot].version)
      ensures Backed(cfg, s', s'.hands[slot].key, s'.hands[slot].version, slot.name)
    {
      assert EventOk(cfg, s.nextVersion, s.nextNid, slot, s.hands[slot]);
      BackedStays(cfg, s, s', s.hands[slot].key, s.hands[slot].version, slot.name);
    }
  }

  lemma RenewBacked(cfg: Config, s: Sys, s': Sys, key: Key, x: Intent)
    requires NoneLost(cfg, s) && Names(x.comps) == cfg.Of(key.kind)
    requires s'.store == s.store[key := x] && s'.procs == s.procs && s'.mgr == s.mgr
    requires s'.pending == s.pending + [NewTask(key, x.version, cfg.Of(key.kind))]
    requires s'.queue == s.queue && s'.timers == s.timers
    ensures NoneLost(cfg, s')
  {
    var t := NewTask(key, x.version, cfg.Of(key.kind));
    assert IsLive(s', t) && Remaining(t) == cfg.Of(key.kind);
    forall k, i | k in s'.store && 0 <= i < |s'.store[k].comps| && s'.store[k].comps[i].status != Success
      ensures Backed(cfg, s', k, s'.store[k].version, s'.store[k].comps[i].name)
    {
      if k == key {
        assert Names(x.comps)[i] == x.comps[i].name;
        TaskBacks(cfg, s', t, x.comps[i].name);
      } else {
        BackedStays(cfg, s, s', k, s.store[k].version, s.store[k].comps[i].name);
      }
    }
  }

  lemma CreateKeeps(cfg: Config, s: Sys, key: Key)
    requires Inv(cfg, s) && cfg.Valid()
    ensures Inv(cfg, DoCreate(cfg, s, key))
  {
    var subs := cfg.Of(key.kind);
    if subs != [] {
      var x := NewIntent(subs, s.nextVersion);
      assert Names(x.comps) == subs;
      assert x.comps[0].status == Pending;
      RenewKeeps(cfg, s, DoCreate(cfg, s, key), key, x);
    }
  }

  lemma {:induction false} DeleteKeeps(cfg: Config, s: Sys, key: Key)
    requires Inv(cfg, s) && cfg.Valid()
    ensures Inv(cfg, DoDelete(cfg, s, key))
  {
    var subs := cfg.Of(key.kind);
    if subs != [] && key in s.store && |subs| <= |s.store[key].comps| {
      var x := MarkDeleted(s.store[key], |subs|, s.nextVersion);
      assert Names(x.comps) == Names(s.store[key].comps);
      assert x.comps[0].status == Pending;
      RenewKeeps(cfg, s, DoDelete(cfg, s, key), key, x);
    }
  }

  // ---------------------------------------------------------------------
  // Steps that only move tasks or notifications
  // ---------------------------------------------------------------------

  /** Same store and versions, nothing that was backed is given up. */
  lemma MoveKeeps(cfg: Config, s: Sys, s': Sys)
    requires Inv(cfg, s) && Sound(cfg, s')
    requires s'.store == s.store
    requires forall slot :: slot in s'.hands ==> slot in s.hands && s'.hands[slot] == s.hands[slot]
    requires forall k, v, n :: Backed(cfg, s, k, v, n) ==> Backed(cfg, s', k, v, n)
    ensures Inv(cfg, s')
  {}

  lemma {:induction false} EnqueueKeeps(cfg: Config, s: Sys, j: nat)
    requires Inv(cfg, s)
    ensures Inv(cfg, DoEnqueue(s, j))
  {
    var s' := DoEnqueue(s, j);
    if s' != s {
      forall t ensures IsLive(s', t) <==> IsLive(s, t) {
        InWithout(s.pending, j, t);
      }
      forall k, v, n | Backed(cfg, s, k, v, n) ensures Backed(cfg, s', k, v, n) {
        BackedStays(cfg, s, s', k, v, n);
      }
      MoveKeeps(cfg, s, s');
    }
  }

  lemma {:induction false} FireKeeps(cfg: Config, s: Sys, j: nat)
    requires Inv(cfg, s)
    ensures Inv(cfg, DoFire(s, j))
  {
    var s' := DoFire(s, j);
    if j < |s.timers| {
      forall t ensures IsLive(s', t) <==> IsLive(s, t) {
        InWithout(s.timers, j, t);
      }
      forall k, v, n | Backed(cfg, s, k, v, n) ensures Backed(cfg, s', k, v, n) {
        BackedStays(cfg, s, s', k, v, n);
      }
      MoveKeeps(cfg, s, s');
    }
  }

  lemma DequeueKeeps(cfg: Config, s: Sys)
    requires Inv(cfg, s)
    ensures Inv(cfg, DoDequeue(s))
  {
    if s.mgr.Idle? && s.queue != [] {
      var s' := DoDequeue(s);
      var t := s.queue[0];
      assert IsLive(s, t);
      assert At(t, 0) == t;
      assert s'.mgr == Publishing(t, 0);
      forall u ensures IsLive(s', u) <==> IsLive(s, u) {
        assert s.queue == [t] + s.queue[1..];
      }
      forall k, v, n | Backed(cfg, s, k, v, n) ensures Backed(cfg, s', k, v, n) {
        BackedStays(cfg, s, s', k, v, n);
      }
      MoveKeeps(cfg, s, s');
    }
  }

  /** What the manager requeues or goes on with is as well formed as what it held. */
  lemma DriveSound(cfg: Config, s: Sys, input: Input)
    requires Sound(cfg, s) && !input.Dequeued?
    requires input.PublishOk? && s.mgr.Publishing? ==> MgrOk(Drive(s, input))
    ensures Sound(cfg, Drive(s, input))
  {
    var s' := Drive(s, input);
    DriveKeepsOthers(s, input);
    DriveMgrOk(s, input);
    forall t | IsLive(s', t) ensures TaskOk(cfg, s.nextVersion, t) {
      DriveTaskOk(cfg, s, input, t);
    }
    SoundStays(cfg, s, s');
  }

  lemma SoundStays(cfg: Config, s: Sys, s': Sys)
    requires Sound(cfg, s) && MgrOk(s') && forall t :: IsLive(s', t) ==> TaskOk(cfg, s.nextVersion, t)
    requires s'.store == s.store && s'.hands == s.hands && s'.procs == s.procs
    requires s'.nextVersion == s.nextVersion && s'.nextNid == s.nextNid
    ensures Sound(cfg, s')
  {}

  lemma DriveMgrOk(s: Sys, input: Input)
    requires MgrOk(s) && !input.Dequeued?
    requires input.PublishOk? && s.mgr.Publishing? ==> MgrOk(Drive(s, input))
    ensures MgrOk(Drive(s, input))
  {}

  lemma DriveTaskOk(cfg: Config, s: Sys, input: Input, t: Task)
    requires (forall u :: IsLive(s, u) ==> TaskOk(cfg, s.nextVersion, u)) && !input.Dequeued?
    requires IsLive(Drive(s, input), t)
    ensures TaskOk(cfg, s.nextVersion, t)
  {
    DriveKeepsOthers(s, input);
    var (m, f) := Next(s.mgr, input);
    if MgrTasks(s.mgr) != [] {
      assert MgrTasks(s.mgr)[0] in MgrTasks(s.mgr);
      assert IsLive(s, MgrTasks(s.mgr)[0]);
    }
    if !IsLive(s, t) {
      assert t in MgrTasks(m) || (f.Requeued? && t == f.task);
    }
  }

  lemma BusyKeeps(cfg: Config, s: Sys)
    requires Inv(cfg, s)
    ensures Inv(cfg, DoPublish(s, false))
  {
    var s' := DoPublish(s, false);
    if s' != s {
      assert forall t :: t in MgrTasks(s.mgr) ==> IsLive(s, t);
      DriveSound(cfg, s, PublishBusy);
      forall k, v, n | Backed(cfg, s, k, v, n) ensures Backed(cfg, s', k, v, n) {
        DriveBacked(cfg, s, PublishBusy, k, v, n);
      }
      MoveKeeps(cfg, s, s');
    }
  }

  lemma SentKeeps(cfg: Config, s: Sys)
    requires Inv(cfg, s)
    ensures Inv(cfg, DoPublish(s, true))
  {
    var s' := DoPublish(s, true);
    if s' != s {
      var t := At(s.mgr.task, s.mgr.i);
      var slot := Slot(t.key.kind, t.subs[t.subIndex]);
      SentSound(cfg, s, slot, Event(t.key, t.version, s.nextNid));
      HandedOutKeeps(cfg, s, s', t, slot, Event(t.key, t.version, s.nextNid));
    }
  }

  /** A notification handed to a subscriber of a live task. */
  lemma {:induction false} HandedOutKeeps(cfg: Config, s: Sys, s': Sys, t: Task, slot: Slot, e: Event)
    requires Inv(cfg, s) && Sound(cfg, s')
    requires MgrTasks(s.mgr) == [t] && MgrTasks(s'.mgr) == [t] && t.subIndex < |t.subs|
    requires slot.name == t.subs[t.subIndex] && e.key == t.key && e.version == t.version
    requires s'.hands == s.hands[slot := e]
    requires s'.store == s.store && s'.procs == s.procs
    requires s'.pending == s.pending && s'.queue == s.queue && s'.timers == s.timers
    ensures Inv(cfg, s')
  {
    forall k, v, n | Backed(cfg, s, k, v, n) ensures Backed(cfg, s', k, v, n) {
      BackedStays(cfg, s, s', k, v, n);
    }
    assert Remaining(t)[0] == slot.name;
    assert t in MgrTasks(s'.mgr);
    TaskBacks(cfg, s', t, slot.name);
  }

  lemma SentSound(cfg: Config, s: Sys, slot: Slot, e: Event)
    requires Sound(cfg, s) && s.mgr.Publishing? && slot !in s.hands
    requires s.mgr.task.subIndex + s.mgr.i < |s.mgr.task.subs|
    requires slot == Slot(s.mgr.task.key.kind, s.mgr.task.subs[s.mgr.task.subIndex + s.mgr.i])
    requires e == Event(s.mgr.task.key, s.mgr.task.version, s.nextNid)
    ensures Sound(cfg, DoPublish(s, true))
  {
    var s' := DoPublish(s, true);
    var t := At(s.mgr.task, s.mgr.i);
    assert t in MgrTasks(s.mgr) && IsLive(s, t);
    assert forall u :: IsLive(s', u) ==> IsLive(s, u);
    assert EventOk(cfg, s'.nextVersion, s'.nextNid, slot, e);
    forall other | other in s'.hands
      ensures EventOk(cfg, s'.nextVersion, s'.nextNid, other, s'.hands[other])
      ensures s'.hands[other].nid == s.nextNid ==> other == slot
    {
      assert other != slot ==> EventOk(cfg, s.nextVersion, s.nextNid, other, s.hands[other]);
    }
  }

  lemma QuitKeeps(cfg: Config, s: Sys, slot: Slot)
    requires Inv(cfg, s)
    ensures Inv(cfg, DoQuit(s, slot))
  {
    var s' := DoQuit(s, slot);
    forall k, v, n | Backed(cfg, s, k, v, n) ensures Backed(cfg, s', k, v, n) {
      BackedStays(cfg, s, s', k, v, n);
    }
    assert forall t :: IsLive(s', t) ==> IsLive(s, t);
    MoveKeeps(cfg, s, s');
  }

  lemma TimeoutKeeps(cfg: Config, s: Sys)
    requires Inv(cfg, s)
    ensures Inv(cfg, DoTimeout(s))
  {
    if s.mgr.Waiting? {
      assert forall t :: t in MgrTasks(s.mgr) ==> IsLive(s, t);
      DriveSound(cfg, s, TimedOut);
      forall k, v, n | Backed(cfg, s, k, v, n) ensures Backed(cfg, DoTimeout(s), k, v, n) {
        DriveBacked(cfg, s, TimedOut, k, v, n);
      }
      MoveKeeps(cfg, s, DoTimeout(s));
    }
  }

  // ---------------------------------------------------------------------
  // Reports
  // ---------------------------------------------------------------------

  /** The reported component is settled as reported; every other one is as it was. */
  lemma ReportAt(cfg: Config, next: int, k: Key, x: Intent, comp: Component)
    requires IntentOk(cfg, next, k, x) && comp.name in cfg.Of(k.kind)
    ensures AfterReport(x, comp).Some? ==>
      var y := AfterReport(x, comp).value;
      && IntentOk(cfg, next, k, y) && y.version == x.version
      && forall i :: 0 <= i < |x.comps| ==>
        y.comps[i] == if x.comps[i].name == comp.name then comp else x.comps[i]
  {
    SetComponentAt(x.comps, comp);
  }

  /** A report on the current version, written to the store. */
  lemma {:induction false} WrittenKeeps(cfg: Config, s: Sys, s': Sys, key: Key, comp: Component)
    requires Inv(cfg, s) && key in s.store && comp.name in cfg.Of(key.kind)
    requires comp.status != Success ==> Backed(cfg, s, key, s.store[key].version, comp.name)
    requires s'.store == StoreAfterReport(s.store, key, comp)
    requires s'.pending == s.pending && s'.queue == s.queue && s'.timers == s.timers && s'.mgr == s.mgr
    requires s'.hands == s.hands && s'.procs == s.procs
    requires s'.nextVersion == s.nextVersion && s'.nextNid == s.nextNid
    ensures Inv(cfg, s')
  {
    assert IntentOk(cfg, s.nextVersion, key, s.store[key]);
    WrittenSound(cfg, s, s', key, comp);
    forall k, v, n | Backed(cfg, s, k, v, n) ensures Backed(cfg, s', k, v, n) {
      BackedStays(cfg, s, s', k, v, n);
    }
    WrittenBacked(cfg, s, s'.store, key, comp);
    SameVersions(s.store, key, comp);
  }

  lemma SameVersions(store: map<Key, Intent>, key: Key, comp: Component)
    requires key in store
    ensures forall k, v :: Current(StoreAfterReport(store, key, comp), k, v) ==> Current(store, k, v)
  {}

  /** What is stored under the reported name is the report. */
  lemma WrittenAt(cfg: Config, next: int, store: map<Key, Intent>, key: Key, comp: Component)
    requires key in store && IntentOk(cfg, next, key, store[key]) && comp.name in cfg.Of(key.kind)
    ensures var after := StoreAfterReport(store, key, comp);
      key in after ==> forall i :: 0 <= i < |after[key].comps| && after[key].comps[i].name == comp.name ==>
        after[key].comps[i] == comp
  {
    ReportAt(cfg, next, key, store[key], comp);
  }

  /** What is unrealized in the written store was backed before. */
  lemma WrittenBacked(cfg: Config, s: Sys, store: map<Key, Intent>, key: Key, comp: Component)
    requires NoneLost(cfg, s) && key in s.store && comp.name in cfg.Of(key.kind)
    requires IntentOk(cfg, s.nextVersion, key, s.store[key])
    requires comp.status != Success ==> Backed(cfg, s, key, s.store[key].version, comp.name)
    requires store == StoreAfterReport(s.store, key, comp)
    ensures forall k, i :: k in store && 0 <= i < |store[k].comps| && store[k].comps[i].status != Success ==>
      Backed(cfg, s, k, store[k].version, store[k].comps[i].name)
  {
    ReportAt(cfg, s.nextVersion, key, s.store[key], comp);
    forall k, i | k in store && 0 <= i < |store[k].comps| && store[k].comps[i].status != Success
      ensures Backed(cfg, s, k, store[k].version, store[k].comps[i].name)
    {
      if k == key && s.store[k].comps[i].name == comp.name {
        assert store[k].comps[i] == comp;
      } else {
        assert store[k].comps[i] == s.store[k].comps[i] && store[k].version == s.store[k].version;
      }
    }
  }

  lemma {:induction false} WrittenSound(cfg: Config, s: Sys, s': Sys, key: Key, comp: Component)
    requires Sound(cfg, s) && key in s.store && comp.name in cfg.Of(key.kind)
    requires s'.store == StoreAfterReport(s.store, key, comp)
    requires s'.pending == s.pending && s'.queue == s.queue && s'.timers == s.timers && s'.mgr == s.mgr
    requires s'.hands == s.hands && s'.procs == s.procs
    requires s'.nextVersion == s.nextVersion && s'.nextNid == s.nextNid
    ensures Sound(cfg, s')
  {
    assert forall t :: IsLive(s', t) <==> IsLive(s, t);
    assert IntentOk(cfg, s.nextVersion, key, s.store[key]);
    ReportAt(cfg, s.nextVersion, key, s.store[key], comp);
  }

  /** A replay procedure started. */
  lemma {:induction false} RequestedKeeps(cfg: Config, s: Sys, s': Sys, c: string)
    requires Inv(cfg, s)
    requires s'.store == s.store && s'.procs == s.procs + [Requested(c)]
    requires s'.pending == s.pending && s'.queue == s.queue && s'.timers == s.timers && s'.mgr == s.mgr
    requires s'.hands == s.hands && s'.nextVersion == s.nextVersion && s'.nextNid == s.nextNid
    ensures Inv(cfg, s')
  {
    assert forall t :: IsLive(s', t) <==> IsLive(s, t);
    assert Sound(cfg, s');
    forall k, v, n | Backed(cfg, s, k, v, n) ensures Backed(cfg, s', k, v, n) {
      BackedStays(cfg, s, s', k, v, n);
    }
    MoveKeeps(cfg, s, s');
  }

  /** Why the manager may let go of the component whose status it just received. */
  ghost predicate MayLetGo(cfg: Config, s: Sys, slot: Slot, e: Event, signal: Signal) {
    && slot !in s.hands && slot.kind == e.key.kind && signal.nid == e.nid
    && (s.mgr.Waiting? && s.mgr.nid == e.nid ==>
        var t := At(s.mgr.task, s.mgr.i);
        t.key == e.key && t.version == e.version && t.subIndex < |t.subs| && slot.name == t.subs[t.subIndex])
    && (signal.drop && Current(s.store, e.key, e.version) ==>
        exists p :: 0 <= p < |s.procs| && s.procs[p].Requested? && Replayable(cfg, e.key.kind, s.procs[p].component))
    && (!signal.drop ==>
        && (signal.comp.status == Success || signal.comp.status == Error)
        && (signal.comp.status == Success && e.key in s.store ==>
            forall i :: 0 <= i < |s.store[e.key].comps| && s.store[e.key].comps[i].name == slot.name ==>
              s.store[e.key].comps[i].status == Success))
  }

  lemma AnswerKeeps(cfg: Config, s: Sys, slot: Slot, e: Event, signal: Signal)
    requires Inv(cfg, s) && MayLetGo(cfg, s, slot, e, signal)
    ensures Inv(cfg, Drive(s, Received(signal)))
  {
    var s' := Drive(s, Received(signal));
    assert s'.store == s.store && s'.hands == s.hands;
    DriveSound(cfg, s, Received(signal));
    forall k, v, n | Backed(cfg, s, k, v, n) && Current(s.store, k, v)
                     && (signal.drop || signal.comp.status != Success || k != e.key || v != e.version || n != slot.name)
      ensures Backed(cfg, s', k, v, n)
    {
      AnswerBacked(cfg, s, slot, e, signal, k, v, n);
    }
    WantedBacked(cfg, s, s', slot, e, signal);
  }

  lemma {:induction false} AnswerBacked(cfg: Config, s: Sys, slot: Slot, e: Event, signal: Signal, k: Key, v: int,
                                        n: string)
    requires Inv(cfg, s) && MayLetGo(cfg, s, slot, e, signal)
    requires Backed(cfg, s, k, v, n) && Current(s.store, k, v)
    requires signal.drop || signal.comp.status != Success || k != e.key || v != e.version || n != slot.name
    ensures Backed(cfg, Drive(s, Received(signal)), k, v, n)
  {
    var s' := Drive(s, Received(signal));
    assert forall t :: t in MgrTasks(s.mgr) ==> IsLive(s, t);
    DriveBacked(cfg, s, Received(signal), k, v, n);
    if LetsGo(s, Received(signal), k, v, n) {
      assert k == e.key && v == e.version && signal.drop;
      DriveKeepsOthers(s, Received(signal));
      var p :| 0 <= p < |s.procs| && s.procs[p].Requested? && Replayable(cfg, e.key.kind, s.procs[p].component);
      assert ReplayWillContact(cfg, s'.procs[p], k, v, n);
    }
  }

  lemma WantedBacked(cfg: Config, s: Sys, s': Sys, slot: Slot, e: Event, signal: Signal)
    requires Inv(cfg, s) && Sound(cfg, s') && MayLetGo(cfg, s, slot, e, signal)
    requires s'.store == s.store && s'.hands == s.hands
    requires forall k, v, n :: (
      Backed(cfg, s, k, v, n) && Current(s.store, k, v)
      && (signal.drop || signal.comp.status != Success || k != e.key || v != e.version || n != slot.name)
      ==> Backed(cfg, s', k, v, n))
    ensures Inv(cfg, s')
  {
    forall other | other in s.hands && Current(s.store, s.hands[other].key, s.hands[other].version)
      ensures Backed(cfg, s', s.hands[other].key, s.hands[other].version, other.name)
    {
      assert EventOk(cfg, s.nextVersion, s.nextNid, other, s.hands[other]);
      assert other.name == slot.name ==> other.kind != slot.kind;
    }
  }

  lemma {:induction false} ReportKeeps(cfg: Config, s: Sys, slot: Slot, comp: Component, delivered: bool)
    requires Inv(cfg, s) && Honest(s, Report(slot, comp, delivered))
    ensures Inv(cfg, DoReport(s, slot, comp, delivered))
  {
    if slot in s.hands {
      var e := s.hands[slot];
      var s1 := DoQuit(s, slot);
      assert EventOk(cfg, s.nextVersion, s.nextNid, slot, e);
      QuitKeeps(cfg, s, slot);
      var (s2, drop) := Record(s1, e, comp);
      RecordKeeps(cfg, s, slot, comp);
      if delivered {
        AnswerKeeps(cfg, s2, slot, e, Signal(e.nid, drop, comp));
      }
    }
  }

  lemma {:induction false} RecordKeeps(cfg: Config, s: Sys, slot: Slot, comp: Component)
    requires Inv(cfg, s) && Inv(cfg, DoQuit(s, slot)) && slot in s.hands && comp.name == slot.name
    requires comp.status == Success || comp.status == Error
    requires comp.replay ==> slot.kind != PortKind
    ensures var (s2, drop) := Record(DoQuit(s, slot), s.hands[slot], comp);
      Inv(cfg, s2) && MayLetGo(cfg, s2, slot, s.hands[slot], Signal(s.hands[slot].nid, drop, comp))
  {
    var e := s.hands[slot];
    var s1 := DoQuit(s, slot);
    var (s2, drop) := Record(s1, e, comp);
    assert EventOk(cfg, s.nextVersion, s.nextNid, slot, e);
    if Current(s.store, e.key, e.version) {
      if comp.replay {
        RequestedKeeps(cfg, s1, s2, comp.name);
        assert s2.procs[|s.procs|] == Requested(comp.name);
      } else {
        BackedStays(cfg, s, s1, e.key, e.version, slot.name);
        WrittenKeeps(cfg, s1, s2, e.key, comp);
        assert IntentOk(cfg, s.nextVersion, e.key, s.store[e.key]);
        WrittenAt(cfg, s.nextVersion, s.store, e.key, comp);
      }
    }
  }

  // ---------------------------------------------------------------------
  // Replays
  // ---------------------------------------------------------------------

  /** The objects on the walk are prepared, each under its own version, and have one task each. */
  ghost predicate GatheredStore(cfg: Config, store: map<Key, Intent>, store': map<Key, Intent>, order: seq<Key>,
                                c: string, v: int, tasks: seq<Task>)
    requires forall k :: k in order ==> k in store
  {
    && store'.Keys == store.Keys && |tasks| == |order|
    && (forall i :: 0 <= i < |order| ==>
         && store'[order[i]] == Prepared(store[order[i]], c, v + i)
         && tasks[i] == NewTask(order[i], v + i, PreparedSubs(store[order[i]].comps, c, cfg.Of(order[i].kind))))
    && (forall k :: k in store && k !in order ==> store'[k] == store[k])
  }

  /** Every object on the walk is prepared once, under its own fresh version, and gets one task. */
  lemma {:induction false} GatherAt(cfg: Config, store: map<Key, Intent>, order: seq<Key>, c: string, v: int)
    requires NoDup(order) && forall k :: k in order ==> k in store
    ensures GatheredStore(cfg, store, StoreAfterGather(store, order, c, v), order, c, v,
                          ReplayTasks(cfg, store, order, c, v))
  {
    GatherKeys(store, order, c, v);
    TasksCount(cfg, store, order, c, v);
    forall i | 0 <= i < |order|
      ensures StoreAfterGather(store, order, c, v)[order[i]] == Prepared(store[order[i]], c, v + i)
      ensures ReplayTasks(cfg, store, order, c, v)[i]
        == NewTask(order[i], v + i, PreparedSubs(store[order[i]].comps, c, cfg.Of(order[i].kind)))
    {
      GatherAtIndex(store, order, c, v, i);
      TaskAtIndex(cfg, store, order, c, v, i);
    }
  }

  lemma {:induction false} GatherKeys(store: map<Key, Intent>, order: seq<Key>, c: string, v: int)
    requires forall k :: k in order ==> k in store
    ensures StoreAfterGather(store, order, c, v).Keys == store.Keys
    ensures forall k :: k in store && k !in order ==> StoreAfterGather(store, order, c, v)[k] == store[k]
    decreases |order|
  {
    if order != [] {
      assert order[0] in order && forall k :: k in order[1..] ==> k in order;
      GatherKeys(store[order[0] := Prepared(store[order[0]], c, v)], order[1..], c, v + 1);
    }
  }

  lemma {:induction false} GatherAtIndex(store: map<Key, Intent>, order: seq<Key>, c: string, v: int, i: nat)
    requires NoDup(order) && i < |order| && forall k :: k in order ==> k in store
    ensures order[i] in StoreAfterGather(store, order, c, v)
    ensures StoreAfterGather(store, order, c, v)[order[i]] == Prepared(store[order[i]], c, v + i)
    decreases |order|
  {
    var store' := store[order[0] := Prepared(store[order[0]], c, v)];
    var rest := order[1..];
    assert forall k :: k in rest ==> k in order;
    GatherKeys(store', rest, c, v + 1);
    if i == 0 {
      assert order[0] !in rest;
    } else {
      assert rest[i - 1] == order[i] && order[i] != order[0];
      GatherAtIndex(store', rest, c, v + 1, i - 1);
    }
  }

  lemma {:induction false} TasksCount(cfg: Config, store: map<Key, Intent>, order: seq<Key>, c: string, v: int)
    requires forall k :: k in order ==> k in store
    ensures |ReplayTasks(cfg, store, order, c, v)| == |order|
    decreases |order|
  {
    if order != [] {
      assert order[0] in order && forall k :: k in order[1..] ==> k in order;
      TasksCount(cfg, store, order[1..], c, v + 1);
    }
  }

  lemma {:induction false} TaskAtIndex(cfg: Config, store: map<Key, Intent>, order: seq<Key>, c: string, v: int, i: nat)
    requires i < |order| && forall k :: k in order ==> k in store
    ensures |ReplayTasks(cfg, store, order, c, v)| == |order|
    ensures ReplayTasks(cfg, store, order, c, v)[i]
      == NewTask(order[i], v + i, PreparedSubs(store[order[i]].comps, c, cfg.Of(order[i].kind)))
    decreases |order|
  {
    TasksCount(cfg, store, order, c, v);
    assert order[0] in order && forall k :: k in order[1..] ==> k in order;
    if i > 0 {
      TaskAtIndex(cfg, store, order[1..], c, v + 1, i - 1);
    }
  }

  lemma PreparedIntentOk(cfg: Config, next: int, k: Key, x: Intent, c: string, v: int)
    requires IntentOk(cfg, next, k, x) && c in cfg.Of(k.kind)
    ensures IntentOk(cfg, v + 1, k, Prepared(x, c, v)) && !AllSuccess(Prepared(x, c, v).comps)
  {
    var subs := cfg.Of(k.kind);
    assert Names(PreparedComps(x.comps, c)) == Names(x.comps);
    var j :| 0 <= j < |subs| && subs[j] == c;
    assert Names(x.comps)[j] == x.comps[j].name;
    assert PreparedComps(x.comps, c)[j].status == Pending;
  }

  lemma PreparedTaskOk(cfg: Config, next: int, k: Key, x: Intent, c: string, v: int)
    requires IntentOk(cfg, next, k, x) && c in cfg.Of(k.kind)
    ensures TaskOk(cfg, v + 1, NewTask(k, v, PreparedSubs(x.comps, c, cfg.Of(k.kind))))
  {
    var subs := cfg.Of(k.kind);
    PreparedSubsExact(x.comps, c, subs);
    var j :| 0 <= j < |subs| && subs[j] == c;
    assert Names(x.comps)[j] == x.comps[j].name;
    assert PreparedComps(x.comps, c)[j].status == Pending;
    assert c in PreparedSubs(x.comps, c, subs);
  }

  /** A replayed object is well formed again and its task contacts all that is unrealized. */
  lemma PreparedOk(cfg: Config, next: int, k: Key, x: Intent, c: string, v: int)
    requires IntentOk(cfg, next, k, x) && c in cfg.Of(k.kind)
    ensures IntentOk(cfg, v + 1, k, Prepared(x, c, v))
    ensures TaskOk(cfg, v + 1, NewTask(k, v, PreparedSubs(x.comps, c, cfg.Of(k.kind))))
    ensures forall i :: 0 <= i < |x.comps| && Prepared(x, c, v).comps[i].status != Success ==>
      WillContact(NewTask(k, v, PreparedSubs(x.comps, c, cfg.Of(k.kind))), k, v, Prepared(x, c, v).comps[i].name)
    ensures !AllSuccess(Prepared(x, c, v).comps)
  {
    PreparedIntentOk(cfg, next, k, x, c, v);
    PreparedTaskOk(cfg, next, k, x, c, v);
    var some := PreparedSubs(x.comps, c, cfg.Of(k.kind));
    assert some[0..] == some;
    PreparedSubsExact(x.comps, c, cfg.Of(k.kind));
  }

  ghost predicate GatherEffect(cfg: Config, s: Sys, s': Sys, p: nat, order: seq<Key>, c: string, tasks: seq<Task>) {
    && p < |s.procs| && s.procs[p] == Requested(c) && s'.procs == s.procs[p := Gathered(tasks)]
    && WalksReplayed(cfg, s.store, c, order)
    && GatheredStore(cfg, s.store, s'.store, order, c, s.nextVersion, tasks)
    && s'.pending == s.pending && s'.queue == s.queue && s'.timers == s.timers && s'.mgr == s.mgr
    && s'.hands == s.hands && s'.nextVersion == s.nextVersion + |order| && s'.nextNid == s.nextNid
  }

  lemma GatherHasEffect(cfg: Config, s: Sys, p: nat, order: seq<Key>)
    requires p < |s.procs| && s.procs[p].Requested? && WalksReplayed(cfg, s.store, s.procs[p].component, order)
    ensures var c := s.procs[p].component;
      GatherEffect(cfg, s, DoGather(cfg, s, p, order), p, order, c, ReplayTasks(cfg, s.store, order, c, s.nextVersion))
  {
    var c := s.procs[p].component;
    GatherAt(cfg, s.store, order, c, s.nextVersion);
    GatherMoves(cfg, s, p, order);
  }

  lemma GatherMoves(cfg: Config, s: Sys, p: nat, order: seq<Key>)
    requires p < |s.procs| && s.procs[p].Requested?
    ensures var c := s.procs[p].component; var s' := DoGather(cfg, s, p, order);
      && s'.store == StoreAfterGather(s.store, order, c, s.nextVersion)
      && s'.procs == s.procs[p := Gathered(ReplayTasks(cfg, s.store, order, c, s.nextVersion))]
      && s'.pending == s.pending && s'.queue == s.queue && s'.timers == s.timers && s'.mgr == s.mgr
      && s'.hands == s.hands && s'.nextVersion == s.nextVersion + |order| && s'.nextNid == s.nextNid
  {}

  lemma {:induction false} GatherKeeps(cfg: Config, s: Sys, p: nat, order: seq<Key>)
    requires Inv(cfg, s) && Possible(cfg, s, Gather(p, order))
    ensures Inv(cfg, DoGather(cfg, s, p, order))
  {
    if p < |s.procs| && s.procs[p].Requested? {
      var c := s.procs[p].component;
      GatherHasEffect(cfg, s, p, order);
      GatheredKeeps(cfg, s, DoGather(cfg, s, p, order), p, order, c,
                    ReplayTasks(cfg, s.store, order, c, s.nextVersion));
    }
  }

  lemma GatheredKeeps(cfg: Config, s: Sys, s': Sys, p: nat, order: seq<Key>, c: string, tasks: seq<Task>)
    requires Inv(cfg, s) && GatherEffect(cfg, s, s', p, order, c, tasks)
    ensures Inv(cfg, s')
  {
    forall i | 0 <= i < |order|
      ensures IntentOk(cfg, s'.nextVersion, order[i], s'.store[order[i]])
      ensures TaskOk(cfg, s'.nextVersion, tasks[i])
    {
      assert order[i] in order;
      assert IntentOk(cfg, s.nextVersion, order[i], s.store[order[i]]);
      PreparedOk(cfg, s.nextVersion, order[i], s.store[order[i]], c, s.nextVersion + i);
    }
    GatheredSound(cfg, s, s', p, order, c, tasks);
    forall k, i | k in s'.store && 0 <= i < |s'.store[k].comps| && s'.store[k].comps[i].status != Success
      ensures Backed(cfg, s', k, s'.store[k].version, s'.store[k].comps[i].name)
    {
      if k in order {
        PreparedBacked(cfg, s, s', p, order, c, tasks, k, i);
      } else {
        GatheredBacked(cfg, s, s', p, order, c, tasks, k, s.store[k].comps[i].name);
      }
    }
    forall slot | slot in s'.hands && Current(s'.store, s'.hands[slot].key, s'.hands[slot].version)
      ensures Backed(cfg, s', s'.hands[slot].key, s'.hands[slot].version, slot.name)
    {
      assert EventOk(cfg, s.nextVersion, s.nextNid, slot, s.hands[slot]);
      assert s.hands[slot].key !in order;
      GatheredBacked(cfg, s, s', p, order, c, tasks, s.hands[slot].key, slot.name);
    }
  }

  lemma {:induction false} PreparedBacked(cfg: Config, s: Sys, s': Sys, p: nat, order: seq<Key>, c: string,
                                          tasks: seq<Task>, k: Key, i: nat)
    requires Sound(cfg, s) && GatherEffect(cfg, s, s', p, order, c, tasks) && k in order
    requires i < |s'.store[k].comps| && s'.store[k].comps[i].status != Success
    ensures Backed(cfg, s', k, s'.store[k].version, s'.store[k].comps[i].name)
  {
    var j :| 0 <= j < |order| && order[j] == k;
    var x := s.store[k];
    var v := s.nextVersion + j;
    assert s'.store[k] == Prepared(x, c, v);
    assert tasks[j] == NewTask(k, v, PreparedSubs(x.comps, c, cfg.Of(k.kind)));
    PreparedTaskBacked(cfg, s.nextVersion, s', p, tasks, j, k, x, c, v, i);
  }

  lemma PreparedTaskBacked(cfg: Config, next: int, s: Sys, p: nat, tasks: seq<Task>, j: nat,
                           k: Key, x: Intent, c: string, v: int, i: nat)
    requires IntentOk(cfg, next, k, x) && c in cfg.Of(k.kind)
    requires p < |s.procs| && s.procs[p] == Gathered(tasks)
    requires j < |tasks| && tasks[j] == NewTask(k, v, PreparedSubs(x.comps, c, cfg.Of(k.kind)))
    requires i < |x.comps| && Prepared(x, c, v).comps[i].status != Success
    ensures Backed(cfg, s, k, v, Prepared(x, c, v).comps[i].name)
  {
    PreparedOk(cfg, next, k, x, c, v);
    var n := Prepared(x, c, v).comps[i].name;
    assert tasks[j] in tasks && WillContact(tasks[j], k, v, n);
    assert ReplayWillContact(cfg, s.procs[p], k, v, n);
  }

  lemma GatheredSound(cfg: Config, s: Sys, s': Sys, p: nat, order: seq<Key>, c: string, tasks: seq<Task>)
    requires Inv(cfg, s) && GatherEffect(cfg, s, s', p, order, c, tasks)
    requires forall i :: 0 <= i < |order| ==> IntentOk(cfg, s'.nextVersion, order[i], s'.store[order[i]])
    requires forall i :: 0 <= i < |order| ==> TaskOk(cfg, s'.nextVersion, tasks[i])
    ensures Sound(cfg, s')
  {
    forall k | k in s'.store ensures IntentOk(cfg, s'.nextVersion, k, s'.store[k]) {
      if k in order {
        var j :| 0 <= j < |order| && order[j] == k;
      } else {
        assert IntentOk(cfg, s.nextVersion, k, s.store[k]);
      }
    }
    forall t | IsLive(s', t) ensures TaskOk(cfg, s'.nextVersion, t) {
      assert IsLive(s, t);
    }
    forall q | q in s'.procs ensures ProcOk(cfg, s'.nextVersion, q) {
      if q != Gathered(tasks) {
        assert q in s.procs && ProcOk(cfg, s.nextVersion, q);
      }
    }
    forall slot | slot in s'.hands
      ensures EventOk(cfg, s'.nextVersion, s'.nextNid, slot, s'.hands[slot])
    {
      assert EventOk(cfg, s.nextVersion, s.nextNid, slot, s.hands[slot]);
    }
  }

  lemma GatheredBacked(cfg: Config, s: Sys, s': Sys, p: nat, order: seq<Key>, c: string, tasks: seq<Task>, k: Key,
                       n: string)
    requires GatherEffect(cfg, s, s', p, order, c, tasks)
    requires k in s.store && k !in order && Backed(cfg, s, k, s.store[k].version, n)
    ensures Backed(cfg, s', k, s.store[k].version, n)
  {
    var v := s.store[k].version;
    if t :| IsLive(s, t) && WillContact(t, k, v, n) {
      assert IsLive(s', t);
    } else {
      var q :| 0 <= q < |s.procs| && ReplayWillContact(cfg, s.procs[q], k, v, n);
      assert q != p;
      assert ReplayWillContact(cfg, s'.procs[q], k, v, n);
    }
  }

  lemma FinishKeeps(cfg: Config, s: Sys, p: nat)
    requires Inv(cfg, s)
    ensures Inv(cfg, DoFinish(s, p))
  {
    if p < |s.procs| && s.procs[p].Gathered? && s.mgr.AwaitingReplay? {
      FinishedKeeps(cfg, s, DoFinish(s, p), p);
    }
  }

  /** What a finished replay was going to contact, its tasks now do. */
  lemma FinishedBacked(cfg: Config, s: Sys, s': Sys, p: nat, k: Key, v: int, n: string)
    requires p < |s.procs| && s.procs[p].Gathered? && s.mgr.AwaitingReplay?
    requires s'.procs == Without(s.procs, p) && s'.pending == s.pending + s.procs[p].tasks && s'.mgr == Idle
    requires s'.queue == s.queue && s'.timers == s.timers
    requires Backed(cfg, s, k, v, n)
    ensures Backed(cfg, s', k, v, n)
  {
    if t :| IsLive(s, t) && WillContact(t, k, v, n) {
      assert IsLive(s', t);
    } else {
      var q :| 0 <= q < |s.procs| && ReplayWillContact(cfg, s.procs[q], k, v, n);
      if q == p {
        var t :| t in s.procs[p].tasks && WillContact(t, k, v, n);
        assert IsLive(s', t);
      } else {
        var r := if q < p then q else q - 1;
        assert s'.procs[r] == s.procs[q];
      }
    }
  }

  lemma FinishedKeeps(cfg: Config, s: Sys, s': Sys, p: nat)
    requires Inv(cfg, s) && p < |s.procs| && s.procs[p].Gathered? && s.mgr.AwaitingReplay?
    requires s'.procs == Without(s.procs, p) && s'.pending == s.pending + s.procs[p].tasks && s'.mgr == Idle
    requires s'.store == s.store && s'.queue == s.queue && s'.timers == s.timers && s'.hands == s.hands
    requires s'.nextVersion == s.nextVersion && s'.nextNid == s.nextNid
    ensures Inv(cfg, s')
  {
    forall q ensures q in s.procs <==> q == s.procs[p] || q in s'.procs {
      InWithout(s.procs, p, q);
    }
    assert ProcOk(cfg, s.nextVersion, s.procs[p]);
    assert forall t :: IsLive(s', t) <==> IsLive(s, t) || t in s.procs[p].tasks;
    forall k, v, n | Backed(cfg, s, k, v, n) ensures Backed(cfg, s', k, v, n) {
      FinishedBacked(cfg, s, s', p, k, v, n);
    }
    MoveKeeps(cfg, s, s');
  }

  // ---------------------------------------------------------------------
  // Whole runs
  // ---------------------------------------------------------------------

  lemma {:induction false} StepKeeps(cfg: Config, s: Sys, step: Step)
    requires Inv(cfg, s) && cfg.Valid() && Possible(cfg, s, step) && Honest(s, step)
    ensures Inv(cfg, Apply(cfg, s, step))
  {
    match step {
      case ApiCreate(key) => CreateKeeps(cfg, s, key);
      case ApiDelete(key) => DeleteKeeps(cfg, s, key);
      case Enqueue(j) => EnqueueKeeps(cfg, s, j);
      case Fire(j) => FireKeeps(cfg, s, j);
      case Dequeue => DequeueKeeps(cfg, s);
      case Publish(ok) => if ok { SentKeeps(cfg, s); } else { BusyKeeps(cfg, s); }
      case Report(slot, comp, delivered) => ReportKeeps(cfg, s, slot, comp, delivered);
      case Quit(slot) => QuitKeeps(cfg, s, slot);
      case Timeout => TimeoutKeeps(cfg, s);
      case Gather(p, order) => GatherKeeps(cfg, s, p, order);
      case Finish(p) => FinishKeeps(cfg, s, p);
    }
  }

  lemma {:induction false} RunKeeps(cfg: Config, steps: seq<Step>)
    requires cfg.Valid() && HonestRun(cfg, steps)
    ensures Inv(cfg, Run(cfg, steps))
  {
    if steps != [] {
      RunKeeps(cfg, steps[..|steps| - 1]);
      StepKeeps(cfg, Run(cfg, steps[..|steps| - 1]), steps[|steps| - 1]);
    }
  }

  lemma {:induction false} HonestIsPossible(cfg: Config, steps: seq<Step>)
    requires HonestRun(cfg, steps)
    ensures PossibleRun(cfg, steps)
  {
    if steps != [] {
      HonestIsPossible(cfg, steps[..|steps| - 1]);
    }
  }
}
