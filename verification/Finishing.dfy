/**
 What a finished task stands for: in every honest run, a task that is open or finished
 under the version its object is stored with has every unrealized component, and every
 report still out on that version, among the subscribers it still has to contact.
 */
module Finishing {
  import opened Basics
  import opened Intents
  import opened TaskManager
  import opened Protocol
  import opened NoLostIntent
  import opened TaskConservation
  import opened Realization
  import opened Delivery

  /** The task `id` is open with `rest` still to contact, or finished with nothing left. */
  ghost predicate Stands(s: Sys, id: Id, rest: seq<string>) {
    (id in s.finished && rest == []) || exists t :: IsOpen(s, t) && IdOf(t) == id && Remaining(t) == rest
  }

  /** Nothing but the modules in `rest` is unrealized in the object, or still at work on this version of it. */
  ghost predicate SettledBut(store: map<Key, Intent>, hands: map<Slot, Event>, id: Id, rest: seq<string>) {
    Current(store, id.key, id.version) ==>
      && (forall i :: 0 <= i < |store[id.key].comps| && store[id.key].comps[i].status != Success ==>
           store[id.key].comps[i].name in rest)
      && (forall slot :: slot in hands && hands[slot].key == id.key && hands[slot].version == id.version ==>
           slot.name in rest)
  }

  ghost predicate PastIsSettled(s: Sys) {
    forall id, rest :: Stands(s, id, rest) ==> SettledBut(s.store, s.hands, id, rest)
  }

  // ---------------------------------------------------------------------
  // Which tasks there are
  // ---------------------------------------------------------------------

  lemma StandsIsOld(s: Sys, id: Id, rest: seq<string>)
    requires Conserved(s) && Stands(s, id, rest)
    ensures id.version < s.nextVersion
  {
    if id in s.finished {
      CountMember(s.finished, id);
      assert Places(s, id) == CountIds(s.created, id);
      CountMember(s.created, id);
    } else {
      var t :| IsOpen(s, t) && IdOf(t) == id && Remaining(t) == rest;
      OpenIsOld(s, t);
    }
  }

  /** The task the manager holds stands in one way only. */
  lemma MgrStandsOnce(s: Sys, t: Task, id: Id, rest: seq<string>)
    requires Conserved(s) && MgrTasks(s.mgr) == [t] && Stands(s, id, rest) && id == IdOf(t)
    ensures rest == Remaining(t)
  {
    assert t in MgrTasks(s.mgr) && IsOpen(s, t);
    assert Places(s, id) == CountIds(s.created, id);
    CountDistinct(s.created, id);
    CountOne(t, id);
    CountMember(s.finished, id);
    if id !in s.finished {
      var u :| IsOpen(s, u) && IdOf(u) == id && Remaining(u) == rest;
      OneOpenTask(s, t, u);
    }
  }

  /** Steps that write nothing to the store, hand out nothing and let no task go on. */
  lemma MoveSettles(s: Sys, s': Sys)
    requires PastIsSettled(s) && s'.store == s.store
    requires forall slot :: slot in s'.hands ==> slot in s.hands && s'.hands[slot] == s.hands[slot]
    requires forall id, rest :: Stands(s', id, rest) ==> Stands(s, id, rest)
    ensures PastIsSettled(s')
  {
    forall id, rest | Stands(s', id, rest) ensures SettledBut(s'.store, s'.hands, id, rest) {
      assert SettledBut(s.store, s.hands, id, rest);
    }
  }

  /** Open and finished tasks after a step, one by one. */
  lemma StandsFrom(s: Sys, s': Sys)
    requires s'.finished == s.finished
    requires forall t :: IsOpen(s', t) ==>
      exists u :: IsOpen(s, u) && IdOf(u) == IdOf(t) && Remaining(u) == Remaining(t)
    ensures forall id, rest :: Stands(s', id, rest) ==> Stands(s, id, rest)
  {}

  // ---------------------------------------------------------------------
  // Every step keeps it
  // ---------------------------------------------------------------------

  /** The manager gives up its task, or keeps it where it was: no subscriber is passed. */
  ghost predicate PassesNone(m: Mgr, input: Input) {
    input.Received? && m.Waiting? && input.signal.nid == m.nid ==>
      input.signal.drop || input.signal.comp.status != Success
  }

  lemma DriveStands(s: Sys, input: Input)
    requires !input.Dequeued? && PassesNone(s.mgr, input)
    ensures forall id, rest :: Stands(Drive(s, input), id, rest) ==> Stands(s, id, rest)
  {
    var s' := Drive(s, input);
    var (m, f) := Next(s.mgr, input);
    DriveKeepsOthers(s, input);
    forall t | IsOpen(s', t)
      ensures exists u :: IsOpen(s, u) && IdOf(u) == IdOf(t) && Remaining(u) == Remaining(t)
    {
      if t in MgrTasks(m) || (f.Requeued? && t == f.task) {
        var u := MgrTasks(s.mgr)[0];
        assert IsOpen(s, u) && IdOf(u) == IdOf(t) && Remaining(u) == Remaining(t);
      } else {
        assert IsOpen(s, t);
      }
    }
    StandsFrom(s, s');
  }

  lemma DriveSettles(s: Sys, input: Input)
    requires PastIsSettled(s) && !input.Dequeued? && PassesNone(s.mgr, input)
    ensures PastIsSettled(Drive(s, input))
  {
    DriveStands(s, input);
    DriveKeepsOthers(s, input);
    MoveSettles(s, Drive(s, input));
  }

  /** One object gets a fresh version and a task for all its modules. */
  lemma RenewSettles(cfg: Config, s: Sys, s': Sys, key: Key, x: Intent)
    requires PastIsSettled(s) && Sound(cfg, s) && Conserved(s)
    requires Names(x.comps) == cfg.Of(key.kind) && x.version == s.nextVersion
    requires s'.store == s.store[key := x]
    requires s'.pending == s.pending + [NewTask(key, x.version, cfg.Of(key.kind))]
    requires s'.queue == s.queue && s'.timers == s.timers && s'.mgr == s.mgr
    requires s'.hands == s.hands && s'.procs == s.procs && s'.finished == s.finished
    ensures PastIsSettled(s')
  {
    forall id, rest | Stands(s', id, rest) ensures SettledBut(s'.store, s'.hands, id, rest) {
      if Stands(s, id, rest) {
        StandsIsOld(s, id, rest);
        assert SettledBut(s.store, s.hands, id, rest);
      } else {
        var t := NewTask(key, x.version, cfg.Of(key.kind));
        assert rest == Remaining(t) == cfg.Of(key.kind) && id == IdOf(t);
        NamesAreSubs(x, cfg.Of(key.kind));
        FreshIsSettled(cfg, s, s'.store, id, x, rest);
      }
    }
  }

  lemma NamesAreSubs(x: Intent, subs: seq<string>)
    requires Names(x.comps) == subs
    ensures forall i :: 0 <= i < |x.comps| ==> x.comps[i].name in subs
  {
    assert forall i :: 0 <= i < |x.comps| ==> Names(x.comps)[i] == x.comps[i].name;
  }

  /** No report is out on a version that is not handed out yet. */
  lemma FreshIsSettled(cfg: Config, s: Sys, store: map<Key, Intent>, id: Id, x: Intent, rest: seq<string>)
    requires Sound(cfg, s) && id.version >= s.nextVersion && id.key in store && store[id.key] == x
    requires forall i :: 0 <= i < |x.comps| && x.comps[i].status != Success ==> x.comps[i].name in rest
    ensures SettledBut(store, s.hands, id, rest)
  {
    forall slot | slot in s.hands ensures s.hands[slot].version < s.nextVersion {
      assert EventOk(cfg, s.nextVersion, s.nextNid, slot, s.hands[slot]);
    }
  }

  lemma CreateSettles(cfg: Config, s: Sys, key: Key)
    requires PastIsSettled(s) && Sound(cfg, s) && Conserved(s)
    ensures PastIsSettled(DoCreate(cfg, s, key))
  {
    var subs := cfg.Of(key.kind);
    if subs != [] {
      var x := NewIntent(subs, s.nextVersion);
      assert Names(x.comps) == subs;
      RenewSettles(cfg, s, DoCreate(cfg, s, key), key, x);
    }
  }

  lemma DeleteSettles(cfg: Config, s: Sys, key: Key)
    requires PastIsSettled(s) && Sound(cfg, s) && Conserved(s)
    ensures PastIsSettled(DoDelete(cfg, s, key))
  {
    var subs := cfg.Of(key.kind);
    if subs != [] && key in s.store && |subs| <= |s.store[key].comps| {
      var x := MarkDeleted(s.store[key], |subs|, s.nextVersion);
      assert IntentOk(cfg, s.nextVersion, key, s.store[key]);
      assert Names(x.comps) == Names(s.store[key].comps);
      RenewSettles(cfg, s, DoDelete(cfg, s, key), key, x);
    }
  }

  lemma EnqueueSettles(s: Sys, j: nat)
    requires PastIsSettled(s)
    ensures PastIsSettled(DoEnqueue(s, j))
  {
    var s' := DoEnqueue(s, j);
    if s' != s {
      forall t ensures IsOpen(s', t) ==> IsOpen(s, t) {
        InWithout(s.pending, j, t);
      }
      StandsFrom(s, s');
      MoveSettles(s, s');
    }
  }

  lemma FireSettles(s: Sys, j: nat)
    requires PastIsSettled(s)
    ensures PastIsSettled(DoFire(s, j))
  {
    var s' := DoFire(s, j);
    if j < |s.timers| {
      forall t ensures IsOpen(s', t) ==> IsOpen(s, t) {
        InWithout(s.timers, j, t);
      }
      StandsFrom(s, s');
      MoveSettles(s, s');
    }
  }

  lemma DequeueSettles(cfg: Config, s: Sys)
    requires PastIsSettled(s) && Sound(cfg, s)
    ensures PastIsSettled(DoDequeue(s))
  {
    if s.mgr.Idle? && s.queue != [] {
      var s' := DoDequeue(s);
      var t := s.queue[0];
      assert IsLive(s, t);
      assert s'.mgr == Publishing(t, 0) && At(t, 0) == t;
      assert s.queue == [t] + s.queue[1..];
      forall u | IsOpen(s', u) ensures IsOpen(s, u) {
        assert u in MgrTasks(s'.mgr) ==> u == t;
      }
      StandsFrom(s, s');
      MoveSettles(s, s');
    }
  }

  /** The subscriber that is notified is one the task still has to contact. */
  lemma SentSettles(s: Sys)
    requires PastIsSettled(s) && Conserved(s)
    ensures PastIsSettled(DoPublish(s, true))
  {
    var s' := DoPublish(s, true);
    if s' != s {
      var t := At(s.mgr.task, s.mgr.i);
      var slot := Slot(t.key.kind, t.subs[t.subIndex]);
      assert forall u :: IsOpen(s', u) ==> IsOpen(s, u);
      StandsFrom(s, s');
      forall id, rest | Stands(s', id, rest) ensures SettledBut(s'.store, s'.hands, id, rest) {
        assert SettledBut(s.store, s.hands, id, rest);
        if id == IdOf(t) {
          MgrStandsOnce(s, t, id, rest);
          assert Remaining(t)[0] == slot.name;
        }
      }
    }
  }

  lemma BusySettles(s: Sys)
    requires PastIsSettled(s)
    ensures PastIsSettled(DoPublish(s, false))
  {
    if DoPublish(s, false) != s {
      DriveSettles(s, PublishBusy);
    }
  }

  lemma QuitSettles(s: Sys, slot: Slot)
    requires PastIsSettled(s)
    ensures PastIsSettled(DoQuit(s, slot))
  {
    assert forall t :: IsOpen(DoQuit(s, slot), t) ==> IsOpen(s, t);
    StandsFrom(s, DoQuit(s, slot));
    MoveSettles(s, DoQuit(s, slot));
  }

  lemma FinishSettles(s: Sys, p: nat)
    requires PastIsSettled(s)
    ensures PastIsSettled(DoFinish(s, p))
  {
    if p < |s.procs| && s.procs[p].Gathered? && s.mgr.AwaitingReplay? {
      var s' := DoFinish(s, p);
      forall t ensures IsOpen(s', t) ==> IsOpen(s, t) {
        HeldAfterFinish(s.procs, p, t);
      }
      StandsFrom(s, s');
      MoveSettles(s, s');
    }
  }

  lemma AbortSettles(s: Sys, p: nat)
    requires PastIsSettled(s)
    ensures PastIsSettled(DoAbort(s, p))
  {
    if p < |s.procs| && s.procs[p].Requested? {
      var s' := DoAbort(s, p);
      forall t ensures IsOpen(s', t) ==> IsOpen(s, t) {
        HeldAfterSettle(s.procs, p, [], t);
      }
      StandsFrom(s, s');
      MoveSettles(s, s');
    }
  }

  // ---------------------------------------------------------------------
  // Replays
  // ---------------------------------------------------------------------

  lemma GatherSettles(cfg: Config, s: Sys, p: nat, order: seq<Key>)
    requires PastIsSettled(s) && Sound(cfg, s) && Conserved(s) && Possible(cfg, s, Gather(p, order))
    ensures PastIsSettled(DoGather(cfg, s, p, order))
  {
    if p < |s.procs| && s.procs[p].Requested? {
      var c := s.procs[p].component;
      GatherHasEffect(cfg, s, p, order);
      GatheredSettles(cfg, s, DoGather(cfg, s, p, order), p, order, c,
                      ReplayTasks(cfg, s.store, order, c, s.nextVersion));
    }
  }

  lemma GatheredSettles(cfg: Config, s: Sys, s': Sys, p: nat, order: seq<Key>, c: string, tasks: seq<Task>)
    requires PastIsSettled(s) && Sound(cfg, s) && Conserved(s) && GatherEffect(cfg, s, s', p, order, c, tasks)
    requires s'.finished == s.finished
    ensures PastIsSettled(s')
  {
    forall id, rest | Stands(s', id, rest) ensures SettledBut(s'.store, s'.hands, id, rest) {
      if Stands(s, id, rest) {
        GatheredOld(cfg, s, s', p, order, c, tasks, id, rest);
      } else {
        var t :| IsOpen(s', t) && IdOf(t) == id && Remaining(t) == rest;
        HeldAfterSettle(s.procs, p, tasks, t);
        assert !IsOpen(s, t) && t in tasks;
        var i :| 0 <= i < |tasks| && tasks[i] == t;
        GatheredNew(cfg, s, s', p, order, c, tasks, i);
      }
    }
  }

  /** A task from before the gather is about an untouched object, or about a version that is gone. */
  lemma GatheredOld(cfg: Config, s: Sys, s': Sys, p: nat, order: seq<Key>, c: string, tasks: seq<Task>, id: Id,
                    rest: seq<string>)
    requires PastIsSettled(s) && Conserved(s) && GatherEffect(cfg, s, s', p, order, c, tasks)
    requires Stands(s, id, rest)
    ensures SettledBut(s'.store, s'.hands, id, rest)
  {
    StandsIsOld(s, id, rest);
    assert SettledBut(s.store, s.hands, id, rest);
    if id.key in order {
      var i :| 0 <= i < |order| && order[i] == id.key;
      assert s'.store[id.key].version == s.nextVersion + i;
    }
  }

  lemma GatheredNew(cfg: Config, s: Sys, s': Sys, p: nat, order: seq<Key>, c: string, tasks: seq<Task>, i: nat)
    requires Sound(cfg, s) && GatherEffect(cfg, s, s', p, order, c, tasks) && i < |tasks|
    ensures SettledBut(s'.store, s'.hands, IdOf(tasks[i]), Remaining(tasks[i]))
  {
    var k := order[i];
    assert k in order && IntentOk(cfg, s.nextVersion, k, s.store[k]);
    var x, v := s.store[k], s.nextVersion + i;
    assert tasks[i] == NewTask(k, v, PreparedSubs(x.comps, c, cfg.Of(k.kind))) && s'.store[k] == Prepared(x, c, v);
    PreparedIsIn(cfg, s.nextVersion, k, x, c, v, tasks[i]);
    FreshIsSettled(cfg, s, s'.store, IdOf(tasks[i]), Prepared(x, c, v), Remaining(tasks[i]));
  }

  lemma PreparedIsIn(cfg: Config, next: int, k: Key, x: Intent, c: string, v: int, t: Task)
    requires IntentOk(cfg, next, k, x) && c in cfg.Of(k.kind)
    requires t == NewTask(k, v, PreparedSubs(x.comps, c, cfg.Of(k.kind)))
    ensures var y := Prepared(x, c, v);
      forall i :: 0 <= i < |y.comps| && y.comps[i].status != Success ==> y.comps[i].name in Remaining(t)
  {
    PreparedOk(cfg, next, k, x, c, v);
  }

  // ---------------------------------------------------------------------
  // Reports
  // ---------------------------------------------------------------------

  /** A report written to the store settles its component, which its task still had to contact. */
  lemma WrittenSettles(cfg: Config, s: Sys, s': Sys, slot: Slot, comp: Component)
    requires PastIsSettled(s) && Sound(cfg, s) && slot in s.hands && comp.name == slot.name
    requires Current(s.store, s.hands[slot].key, s.hands[slot].version)
    requires s'.store == StoreAfterReport(s.store, s.hands[slot].key, comp) && s'.hands == s.hands - {slot}
    requires forall id, rest :: Stands(s', id, rest) ==> Stands(s, id, rest)
    ensures PastIsSettled(s')
  {
    var e := s.hands[slot];
    assert EventOk(cfg, s.nextVersion, s.nextNid, slot, e);
    assert IntentOk(cfg, s.nextVersion, e.key, s.store[e.key]);
    forall id, rest | Stands(s', id, rest) ensures SettledBut(s'.store, s'.hands, id, rest) {
      assert SettledBut(s.store, s.hands, id, rest);
      if id.key == e.key {
        WrittenOne(cfg, s.nextVersion, s.store, s.hands, slot, comp, id, rest);
      }
    }
  }

  lemma WrittenOne(cfg: Config, next: int, store: map<Key, Intent>, hands: map<Slot, Event>, slot: Slot,
                   comp: Component, id: Id, rest: seq<string>)
    requires slot in hands && id.key == hands[slot].key && Current(store, id.key, hands[slot].version)
    requires IntentOk(cfg, next, id.key, store[id.key]) && comp.name == slot.name && slot.name in cfg.Of(id.key.kind)
    requires SettledBut(store, hands, id, rest)
    ensures SettledBut(StoreAfterReport(store, id.key, comp), hands - {slot}, id, rest)
  {
    ReportAt(cfg, next, id.key, store[id.key], comp);
    var after := StoreAfterReport(store, id.key, comp);
    if Current(after, id.key, id.version) {
      forall i | 0 <= i < |after[id.key].comps| && after[id.key].comps[i].status != Success
        ensures after[id.key].comps[i].name in rest
      {
        assert store[id.key].comps[i].name == comp.name || after[id.key].comps[i] == store[id.key].comps[i];
      }
    }
  }

  /** After its success is written and its goroutine is done, nobody is unrealized or at work under `name`. */
  ghost predicate IsThrough(store: map<Key, Intent>, hands: map<Slot, Event>, id: Id, name: string) {
    && (id.key in store ==> forall i :: 0 <= i < |store[id.key].comps| && store[id.key].comps[i].name == name ==>
         store[id.key].comps[i].status == Success)
    && forall slot :: slot in hands && hands[slot].key == id.key ==> slot.name != name
  }

  lemma IsThroughAfter(cfg: Config, s: Sys, s': Sys, slot: Slot, comp: Component)
    requires Sound(cfg, s) && slot in s.hands && comp.name == slot.name && comp.status == Success
    requires Current(s.store, s.hands[slot].key, s.hands[slot].version)
    requires s'.store == StoreAfterReport(s.store, s.hands[slot].key, comp) && s'.hands == s.hands - {slot}
    ensures IsThrough(s'.store, s'.hands, Id(s.hands[slot].key, s.hands[slot].version), slot.name)
  {
    var e := s.hands[slot];
    assert EventOk(cfg, s.nextVersion, s.nextNid, slot, e);
    assert IntentOk(cfg, s.nextVersion, e.key, s.store[e.key]);
    ReportAt(cfg, s.nextVersion, e.key, s.store[e.key], comp);
    forall other | other in s'.hands && s'.hands[other].key == e.key ensures other.name != slot.name {
      assert EventOk(cfg, s.nextVersion, s.nextNid, other, s.hands[other]);
    }
  }

  /** The manager goes on to the next subscriber only past one that is through. */
  lemma PassSettles(s: Sys, signal: Signal, t: Task)
    requires PastIsSettled(s) && Conserved(s) && MgrTasks(s.mgr) == [t] && t.subIndex < |t.subs|
    requires s.mgr.Waiting? && s.mgr.nid == signal.nid && !signal.drop && signal.comp.status == Success
    requires IsThrough(s.store, s.hands, IdOf(t), t.subs[t.subIndex])
    ensures PastIsSettled(Drive(s, Received(signal)))
  {
    var s' := Drive(s, Received(signal));
    DriveKeepsOthers(s, Received(signal));
    forall id, rest | Stands(s', id, rest) ensures SettledBut(s.store, s.hands, id, rest) {
      if id == IdOf(t) {
        PassedRest(s, signal, t, rest);
        assert t in MgrTasks(s.mgr) && IsOpen(s, t);
        assert Stands(s, id, Remaining(t));
        assert Remaining(t) == [t.subs[t.subIndex]] + rest;
        PastOne(s.store, s.hands, id, t.subs[t.subIndex], rest);
      } else {
        PassedOthers(s, signal, t, id, rest);
      }
    }
  }

  lemma PastOne(store: map<Key, Intent>, hands: map<Slot, Event>, id: Id, first: string, rest: seq<string>)
    requires SettledBut(store, hands, id, [first] + rest) && IsThrough(store, hands, id, first)
    ensures SettledBut(store, hands, id, rest)
  {}

  lemma PassedRest(s: Sys, signal: Signal, t: Task, rest: seq<string>)
    requires Conserved(s) && MgrTasks(s.mgr) == [t] && t.subIndex < |t.subs|
    requires s.mgr.Waiting? && s.mgr.nid == signal.nid && !signal.drop && signal.comp.status == Success
    requires Stands(Drive(s, Received(signal)), IdOf(t), rest)
    ensures rest == t.subs[t.subIndex + 1..]
  {
    var s' := Drive(s, Received(signal));
    var (m, f) := Next(s.mgr, Received(signal));
    var id := IdOf(t);
    if id in s.finished {
      MgrStandsOnce(s, t, id, []);
    }
    if id !in s'.finished || rest != [] {
      var u :| IsOpen(s', u) && IdOf(u) == id && Remaining(u) == rest;
      if u !in MgrTasks(m) {
        MgrTaskAlone(s, u);
      }
    }
  }

  lemma PassedOthers(s: Sys, signal: Signal, t: Task, id: Id, rest: seq<string>)
    requires MgrTasks(s.mgr) == [t] && s.mgr.Waiting? && id != IdOf(t)
    requires Stands(Drive(s, Received(signal)), id, rest)
    ensures Stands(s, id, rest)
  {
    var s' := Drive(s, Received(signal));
    var (m, f) := Next(s.mgr, Received(signal));
    assert forall u :: u in MgrTasks(m) ==> IdOf(u) == IdOf(t);
    assert s'.finished == s.finished || s'.finished == s.finished + [IdOf(t)];
    if id !in s.finished || rest != [] {
      var u :| IsOpen(s', u) && IdOf(u) == id && Remaining(u) == rest;
      assert u !in MgrTasks(m);
    }
  }

  /** A report that writes nothing: it is stale, or asks for a replay. */
  lemma UnwrittenSettles(s: Sys, slot: Slot, comp: Component, delivered: bool)
    requires PastIsSettled(s) && slot in s.hands
    requires !Current(s.store, s.hands[slot].key, s.hands[slot].version) || comp.replay
    ensures PastIsSettled(DoReport(s, slot, comp, delivered))
  {
    var e := s.hands[slot];
    var (s2, drop) := Record(s.(hands := s.hands - {slot}), e, comp);
    HeldConcat(s.procs, [Requested(comp.name)]);
    HeldOne(Requested(comp.name));
    assert forall t :: IsOpen(s2, t) ==> IsOpen(s, t);
    StandsFrom(s, s2);
    MoveSettles(s, s2);
    if delivered {
      DriveSettles(s2, Received(Signal(e.nid, drop, comp)));
    }
  }

  lemma {:induction false} ReportSettles(cfg: Config, s: Sys, slot: Slot, comp: Component, delivered: bool)
    requires PastIsSettled(s) && Sound(cfg, s) && Conserved(s) && slot in s.hands && comp.name == slot.name
    ensures PastIsSettled(DoReport(s, slot, comp, delivered))
  {
    var e := s.hands[slot];
    if !Current(s.store, e.key, e.version) || comp.replay {
      UnwrittenSettles(s, slot, comp, delivered);
    } else {
      var s1 := s.(hands := s.hands - {slot});
      var (s2, drop) := Record(s1, e, comp);
      assert s2.store == StoreAfterReport(s.store, e.key, comp);
      assert forall t :: IsOpen(s2, t) ==> IsOpen(s, t);
      StandsFrom(s, s2);
      WrittenSettles(cfg, s, s2, slot, comp);
      if delivered {
        if comp.status == Success && s.mgr.Waiting? && s.mgr.nid == e.nid {
          AckSettles(cfg, s, s2, slot, comp);
        } else {
          DriveSettles(s2, Received(Signal(e.nid, drop, comp)));
        }
      }
    }
  }

  lemma AckSettles(cfg: Config, s: Sys, s2: Sys, slot: Slot, comp: Component)
    requires PastIsSettled(s2) && Sound(cfg, s) && Conserved(s) && slot in s.hands && comp.name == slot.name
    requires comp.status == Success && s.mgr.Waiting? && s.mgr.nid == s.hands[slot].nid
    requires Current(s.store, s.hands[slot].key, s.hands[slot].version)
    requires s2.store == StoreAfterReport(s.store, s.hands[slot].key, comp) && s2.hands == s.hands - {slot}
    requires s2.pending == s.pending && s2.queue == s.queue && s2.timers == s.timers && s2.mgr == s.mgr
    requires s2.procs == s.procs && s2.finished == s.finished && s2.dropped == s.dropped
    requires s2.created == s.created && s2.nextVersion == s.nextVersion
    ensures PastIsSettled(Drive(s2, Received(Signal(s.hands[slot].nid, false, comp))))
  {
    var t := At(s.mgr.task, s.mgr.i);
    IsThroughAfter(cfg, s, s2, slot, comp);
    assert Conserved(s2) by {
      assert forall id :: Places(s2, id) == Places(s, id);
    }
    PassSettles(s2, Signal(s.hands[slot].nid, false, comp), t);
  }

  lemma {:induction false} StepSettles(cfg: Config, s: Sys, step: Step)
    requires PastIsSettled(s) && Sound(cfg, s) && Conserved(s) && Possible(cfg, s, step)
    requires step.Report? ==> step.comp.name == step.slot.name
    ensures PastIsSettled(Apply(cfg, s, step))
  {
    match step {
      case ApiCreate(key) => CreateSettles(cfg, s, key);
      case ApiDelete(key) => DeleteSettles(cfg, s, key);
      case Enqueue(j) => EnqueueSettles(s, j);
      case Fire(j) => FireSettles(s, j);
      case Dequeue => DequeueSettles(cfg, s);
      case Publish(ok) => if ok { SentSettles(s); } else { BusySettles(s); }
      case Report(slot, comp, delivered) => if slot in s.hands { ReportSettles(cfg, s, slot, comp, delivered); }
      case Quit(slot) => QuitSettles(s, slot);
      case Timeout => if s.mgr.Waiting? { DriveSettles(s, TimedOut); }
      case Gather(p, order) => GatherSettles(cfg, s, p, order);
      case Abort(p) => AbortSettles(s, p);
      case Finish(p) => FinishSettles(s, p);
    }
  }

  // ---------------------------------------------------------------------
  // Whole runs
  // ---------------------------------------------------------------------

  lemma {:induction false} RunSettles(cfg: Config, steps: seq<Step>)
    requires cfg.Valid() && HonestRun(cfg, steps)
    ensures PastIsSettled(Run(cfg, steps))
  {
    if steps != [] {
      var before := steps[..|steps| - 1];
      RunSettles(cfg, before);
      RunKeeps(cfg, before);
      RunConserves(cfg, before);
      StepSettles(cfg, Run(cfg, before), steps[|steps| - 1]);
    }
  }

  /**
   Finishing means realized. In every state of every honest run, whatever replays are
   requested, an object whose stored version has a finished task is all Success and Up.
   */
  lemma {:induction false} FinishedMeansRealized(cfg: Config, steps: seq<Step>, id: Id)
    requires cfg.Valid() && HonestRun(cfg, steps) && id in Run(cfg, steps).finished
    requires Current(Run(cfg, steps).store, id.key, id.version)
    ensures var x := Run(cfg, steps).store[id.key]; AllSuccess(x.comps) && x.oper == Up
  {
    var s := Run(cfg, steps);
    RunKeeps(cfg, steps);
    RunSettles(cfg, steps);
    assert IntentOk(cfg, s.nextVersion, id.key, s.store[id.key]);
    assert Stands(s, id, []);
    assert SettledBut(s.store, s.hands, id, []);
  }

  /**
   An open task of the stored version has every unrealized component ahead of it: the
   subscribers it has gone past are Success and stay so under this version.
   */
  lemma {:induction false} OpenTaskCoversAll(cfg: Config, steps: seq<Step>, t: Task)
    requires cfg.Valid() && HonestRun(cfg, steps) && IsOpen(Run(cfg, steps), t)
    requires Current(Run(cfg, steps).store, t.key, t.version)
    ensures Covers(t, t.key, Run(cfg, steps).store[t.key])
  {
    var s := Run(cfg, steps);
    RunSettles(cfg, steps);
    assert Stands(s, IdOf(t), Remaining(t));
    assert SettledBut(s.store, s.hands, IdOf(t), Remaining(t));
  }
}
