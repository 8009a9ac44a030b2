/**
 The order of things in every run: the queue is first in, first out and bounded, a module
 works on one notification until it is done with it, and each task goes through the modules
 of its object in priority order (taskmanager.go, eventbus.go).
 */
module Order {
  import opened Basics
  import opened Intents
  import opened TaskManager
  import opened Protocol
  import opened NoLostIntent
  import opened TaskConservation
  import opened Realization
  import opened Teardown
  import opened Delivery

  // ---------------------------------------------------------------------
  // The queue and the hands
  // ---------------------------------------------------------------------

  /** A step leaves the queue, puts one task at its end while it has room, or takes the first for the idle manager. */
  lemma {:induction false} QueueIsFifo(cfg: Config, s: Sys, step: Step)
    ensures var q, q' := s.queue, Apply(cfg, s, step).queue;
      || q' == q
      || (|q| < 200 && exists j :: 0 <= j < |s.pending| && q' == q + [s.pending[j]])
      || (q != [] && s.mgr.Idle? && q' == q[1..]
          && if Remaining(q[0]) == [] then IdOf(q[0]) in Apply(cfg, s, step).finished
             else Apply(cfg, s, step).mgr == Publishing(q[0], 0))
  {
    if step.Dequeue? && s.queue != [] {
      assert At(s.queue[0], 0) == s.queue[0];
    }
  }

  lemma {:induction false} QueueStaysBounded(cfg: Config, steps: seq<Step>)
    ensures |Run(cfg, steps).queue| <= 200
  {
    if steps != [] {
      QueueStaysBounded(cfg, steps[..|steps| - 1]);
      QueueIsFifo(cfg, Run(cfg, steps[..|steps| - 1]), steps[|steps| - 1]);
    }
  }

  /** A notification stays in hand until the module reports on it or gives it up; no other one takes its place. */
  lemma {:induction false} HandsStay(cfg: Config, s: Sys, step: Step, slot: Slot)
    requires slot in s.hands
    ensures var hands := Apply(cfg, s, step).hands;
      if (step.Report? || step.Quit?) && step.slot == slot then slot !in hands
      else slot in hands && hands[slot] == s.hands[slot]
  {
    if step.Publish? {
      PublishHands(s, step.ok);
    } else if step.Report? {
      ReportHands(s, step.slot, step.comp, step.delivered);
    }
  }

  lemma PublishHands(s: Sys, ok: bool)
    ensures forall slot :: slot in s.hands ==>
      slot in DoPublish(s, ok).hands && DoPublish(s, ok).hands[slot] == s.hands[slot]
  {}

  lemma ReportHands(s: Sys, slot: Slot, comp: Component, delivered: bool)
    ensures DoReport(s, slot, comp, delivered).hands == s.hands - {slot}
  {
    if slot !in s.hands {
      assert s.hands - {slot} == s.hands;
    }
  }

  // ---------------------------------------------------------------------
  // The list of a task
  // ---------------------------------------------------------------------

  ghost predicate HasList(t: Task, lists: map<Id, seq<string>>) {
    IdOf(t) in lists && lists[IdOf(t)] == t.subs
  }

  /** The notification goes to the module at its place in the list. */
  ghost predicate GoesTo(e: Entry, list: seq<string>) {
    e.Notified? && e.index < |list| && e.name == list[e.index]
  }

  /** Every task has kept the list it was created with, and every notification went where the list says. */
  ghost predicate Listed(cfg: Config, s: Sys, lists: map<Id, seq<string>>) {
    && (forall t :: IsOpen(s, t) ==> HasList(t, lists))
    && (forall id :: id in lists ==> InOrder(lists[id], cfg.Of(id.key.kind)) && id.version < s.nextVersion)
    && (forall e :: e in s.log && e.Notified? ==> e.id in lists && GoesTo(e, lists[e.id]))
  }

  /** The task is one that was open before, moved on or requeued. */
  ghost predicate Descends(s: Sys, t: Task) {
    exists u :: IsOpen(s, u) && IdOf(u) == IdOf(t) && u.subs == t.subs
  }

  ghost predicate ToItsTurn(s: Sys, e: Entry) {
    e.Notified? ==> exists t :: IsOpen(s, t) && IdOf(t) == e.id && GoesTo(e, t.subs)
  }

  lemma ListedStep(cfg: Config, s: Sys, s': Sys, lists: map<Id, seq<string>>, newer: map<Id, seq<string>>,
                   more: seq<Entry>)
    requires Listed(cfg, s, lists) && s'.log == s.log + more && s.nextVersion <= s'.nextVersion
    requires forall t :: IsOpen(s', t) ==> Descends(s, t) || HasList(t, newer)
    requires forall id :: id in newer ==>
      InOrder(newer[id], cfg.Of(id.key.kind)) && s.nextVersion <= id.version < s'.nextVersion
    requires forall e :: e in more ==> ToItsTurn(s, e)
    ensures Listed(cfg, s', lists + newer)
  {
    assert forall id :: id in newer ==> id !in lists;
    forall t | IsOpen(s', t) ensures HasList(t, lists + newer) {
      if Descends(s, t) {
        var u :| IsOpen(s, u) && IdOf(u) == IdOf(t) && u.subs == t.subs;
        assert HasList(u, lists);
      }
    }
    forall e | e in s'.log && e.Notified? ensures e.id in lists + newer && GoesTo(e, (lists + newer)[e.id]) {
      if e in s.log {
        assert e.id in lists;
      } else {
        assert e in more && ToItsTurn(s, e);
        var t :| IsOpen(s, t) && IdOf(t) == e.id && GoesTo(e, t.subs);
        assert HasList(t, lists);
      }
    }
  }

  /** Steps without new tasks. */
  lemma ListedMove(cfg: Config, s: Sys, s': Sys, lists: map<Id, seq<string>>, more: seq<Entry>)
    requires Listed(cfg, s, lists) && s'.log == s.log + more && s.nextVersion <= s'.nextVersion
    requires forall t :: IsOpen(s', t) ==> Descends(s, t)
    requires forall e :: e in more ==> ToItsTurn(s, e)
    ensures Listed(cfg, s', lists)
  {
    ListedStep(cfg, s, s', lists, map[], more);
    assert lists + map[] == lists;
  }

  lemma OpenDescends(s: Sys, t: Task)
    requires IsOpen(s, t)
    ensures Descends(s, t)
  {}

  lemma DriveDescends(s: Sys, input: Input, t: Task)
    requires !input.Dequeued? && IsOpen(Drive(s, input), t)
    ensures Descends(s, t)
  {
    var (m, f) := Next(s.mgr, input);
    DriveKeepsOthers(s, input);
    if t in MgrTasks(m) || (f.Requeued? && t == f.task) {
      var u := MgrTasks(s.mgr)[0];
      assert IsOpen(s, u) && IdOf(u) == IdOf(t) && u.subs == t.subs;
    } else {
      OpenDescends(s, t);
    }
  }

  lemma DriveListed(cfg: Config, s: Sys, input: Input, lists: map<Id, seq<string>>)
    requires Listed(cfg, s, lists) && !input.Dequeued?
    requires s.mgr.Publishing? ==> s.mgr.task.subIndex + s.mgr.i < |s.mgr.task.subs|
    ensures Listed(cfg, Drive(s, input), lists)
  {
    forall t | IsOpen(Drive(s, input), t) ensures Descends(s, t) {
      DriveDescends(s, input, t);
    }
    forall e | e in LogOf(s.mgr, input) ensures ToItsTurn(s, e) {
      if e.Notified? {
        assert IsOpen(s, At(s.mgr.task, s.mgr.i)) && GoesTo(e, At(s.mgr.task, s.mgr.i).subs);
      }
    }
    ListedMove(cfg, s, Drive(s, input), lists, LogOf(s.mgr, input));
  }

  lemma SameListed(cfg: Config, s: Sys, s': Sys, lists: map<Id, seq<string>>)
    requires Listed(cfg, s, lists) && s'.log == s.log && s.nextVersion <= s'.nextVersion
    requires forall t :: IsOpen(s', t) ==> IsOpen(s, t)
    ensures Listed(cfg, s', lists)
  {
    forall t | IsOpen(s', t) ensures Descends(s, t) {
      OpenDescends(s, t);
    }
    ListedMove(cfg, s, s', lists, []);
  }

  lemma PublishListed(cfg: Config, s: Sys, ok: bool, lists: map<Id, seq<string>>)
    requires Listed(cfg, s, lists)
    ensures Listed(cfg, DoPublish(s, ok), lists)
  {
    if DoPublish(s, ok) != s {
      if ok {
        var t := s.mgr.task;
        var slot := Slot(t.key.kind, t.subs[t.subIndex + s.mgr.i]);
        var s1 := s.(hands := s.hands[slot := Event(t.key, t.version, s.nextNid)], nextNid := s.nextNid + 1);
        SameListed(cfg, s, s1, lists);
        DriveListed(cfg, s1, PublishOk(s.nextNid), lists);
      } else {
        DriveListed(cfg, s, PublishBusy, lists);
      }
    }
  }

  lemma RecordListed(cfg: Config, s: Sys, e: Event, comp: Component, lists: map<Id, seq<string>>)
    requires Listed(cfg, s, lists)
    ensures Listed(cfg, Record(s, e, comp).0, lists)
  {
    var s' := Record(s, e, comp).0;
    HeldConcat(s.procs, [Requested(comp.name)]);
    HeldOne(Requested(comp.name));
    var more := RecordLogs(s, e, comp);
    forall t | IsOpen(s', t) ensures Descends(s, t) {
      assert IsOpen(s, t);
      OpenDescends(s, t);
    }
    ListedMove(cfg, s, s', lists, more);
  }

  lemma ReportListed(cfg: Config, s: Sys, slot: Slot, comp: Component, delivered: bool, lists: map<Id, seq<string>>)
    requires Listed(cfg, s, lists)
    ensures Listed(cfg, DoReport(s, slot, comp, delivered), lists)
  {
    if slot in s.hands {
      var e := s.hands[slot];
      var s1 := s.(hands := s.hands - {slot});
      SameListed(cfg, s, s1, lists);
      RecordListed(cfg, s1, e, comp, lists);
      var (s2, drop) := Record(s1, e, comp);
      if delivered {
        HeardListed(cfg, s2, Signal(e.nid, drop, comp), lists);
      }
    }
  }

  lemma HeardListed(cfg: Config, s: Sys, signal: Signal, lists: map<Id, seq<string>>)
    requires Listed(cfg, s, lists)
    ensures Listed(cfg, Drive(s, Received(signal)), lists)
  {
    if s.mgr.Publishing? {
      SameListed(cfg, s, Drive(s, Received(signal)), lists);
    } else {
      DriveListed(cfg, s, Received(signal), lists);
    }
  }

  lemma {:induction false} WholeInOrder(subs: seq<string>)
    ensures InOrder(subs, subs)
  {
    if subs != [] {
      WholeInOrder(subs[1..]);
    }
  }

  /** An API call starts one task, for all modules of the kind. */
  lemma NewListed(cfg: Config, s: Sys, s': Sys, key: Key, e: Entry, lists: map<Id, seq<string>>)
    returns (lists': map<Id, seq<string>>)
    requires Listed(cfg, s, lists) && s'.log == s.log + [e] && !e.Notified? && s'.nextVersion == s.nextVersion + 1
    requires s'.pending == s.pending + [NewTask(key, s.nextVersion, cfg.Of(key.kind))]
    requires s'.queue == s.queue && s'.timers == s.timers && s'.mgr == s.mgr && s'.procs == s.procs
    ensures Listed(cfg, s', lists')
  {
    var t := NewTask(key, s.nextVersion, cfg.Of(key.kind));
    WholeInOrder(cfg.Of(key.kind));
    forall u | IsOpen(s', u) ensures Descends(s, u) || HasList(u, map[IdOf(t) := t.subs]) {
      if u != t {
        OpenDescends(s, u);
      }
    }
    lists' := lists + map[IdOf(t) := t.subs];
    ListedStep(cfg, s, s', lists, map[IdOf(t) := t.subs], [e]);
  }

  function ListsOf(tasks: seq<Task>): map<Id, seq<string>> {
    if tasks == [] then map[] else ListsOf(tasks[..|tasks| - 1])[IdOf(tasks[|tasks| - 1]) := tasks[|tasks| - 1].subs]
  }

  lemma {:induction false} ListsOfAre(tasks: seq<Task>, v: int)
    requires forall i :: 0 <= i < |tasks| ==> tasks[i].version == v + i
    ensures forall t :: t in tasks ==> HasList(t, ListsOf(tasks))
    ensures forall id :: id in ListsOf(tasks) ==>
      exists t :: t in tasks && IdOf(t) == id && ListsOf(tasks)[id] == t.subs && v <= id.version < v + |tasks|
  {
    if tasks != [] {
      var front, last := tasks[..|tasks| - 1], tasks[|tasks| - 1];
      ListsOfAre(front, v);
      forall t | t in tasks ensures HasList(t, ListsOf(tasks)) {
        var i :| 0 <= i < |tasks| && tasks[i] == t;
        if i < |front| {
          assert front[i] == t && t in front;
        }
      }
      forall id | id in ListsOf(tasks)
        ensures exists t :: t in tasks && IdOf(t) == id && ListsOf(tasks)[id] == t.subs && v <= id.version < v + |tasks|
      {
        if id == IdOf(last) {
          assert last in tasks;
        } else {
          var t :| t in front && IdOf(t) == id && ListsOf(front)[id] == t.subs && v <= id.version < v + |front|;
          assert t in tasks;
        }
      }
    }
  }

  /** A replay's tasks contact modules of their kind in priority order. */
  lemma ReplayInOrder(cfg: Config, store: map<Key, Intent>, order: seq<Key>, c: string, v: int)
    requires NoDup(order) && (forall k :: k in order ==> k in store)
    requires forall k :: k in store ==> Follows(store[k], cfg.Of(k.kind))
    ensures var tasks := ReplayTasks(cfg, store, order, c, v);
      && |tasks| == |order|
      && forall i :: 0 <= i < |tasks| ==>
        tasks[i].version == v + i && InOrder(tasks[i].subs, cfg.Of(tasks[i].key.kind))
  {
    GatherAt(cfg, store, order, c, v);
    forall i | 0 <= i < |order| ensures InOrder(PreparedSubs(store[order[i]].comps, c, cfg.Of(order[i].kind)),
                                               cfg.Of(order[i].kind))
    {
      assert order[i] in order;
      PreparedSubsExact(store[order[i]].comps, c, cfg.Of(order[i].kind));
    }
  }

  lemma GatherListed(cfg: Config, s: Sys, p: nat, order: seq<Key>, lists: map<Id, seq<string>>)
    returns (lists': map<Id, seq<string>>)
    requires Listed(cfg, s, lists) && Possible(cfg, s, Gather(p, order))
    requires forall k :: k in s.store ==> Follows(s.store[k], cfg.Of(k.kind))
    ensures Listed(cfg, DoGather(cfg, s, p, order), lists')
  {
    lists' := lists;
    if p < |s.procs| && s.procs[p].Requested? {
      var c := s.procs[p].component;
      var tasks := ReplayTasks(cfg, s.store, order, c, s.nextVersion);
      var s' := DoGather(cfg, s, p, order);
      ReplayInOrder(cfg, s.store, order, c, s.nextVersion);
      ReplayTasksNew(cfg, s, s.store, order, c, s.nextVersion);
      GatheredListed(cfg, s, s', p, tasks, ReplayLog(order, c, s.nextVersion), lists);
      lists' := lists + ListsOf(tasks);
    }
  }

  lemma GatheredListed(cfg: Config, s: Sys, s': Sys, p: nat, tasks: seq<Task>, more: seq<Entry>,
                       lists: map<Id, seq<string>>)
    requires Listed(cfg, s, lists) && p < |s.procs| && s.procs[p].Requested?
    requires s'.procs == s.procs[p := Gathered(tasks)] && s'.log == s.log + more
    requires s'.pending == s.pending && s'.queue == s.queue && s'.timers == s.timers && s'.mgr == s.mgr
    requires s'.nextVersion == s.nextVersion + |tasks|
    requires forall e :: e in more ==> Delivery.About(e).None?
    requires forall i :: 0 <= i < |tasks| ==>
      tasks[i].version == s.nextVersion + i && InOrder(tasks[i].subs, cfg.Of(tasks[i].key.kind))
    ensures Listed(cfg, s', lists + ListsOf(tasks))
  {
    ListsOfAre(tasks, s.nextVersion);
    forall t | IsOpen(s', t) ensures Descends(s, t) || HasList(t, ListsOf(tasks)) {
      HeldAfterSettle(s.procs, p, tasks, t);
      if IsOpen(s, t) {
        OpenDescends(s, t);
      }
    }
    forall id | id in ListsOf(tasks)
      ensures InOrder(ListsOf(tasks)[id], cfg.Of(id.key.kind)) && s.nextVersion <= id.version < s'.nextVersion
    {
      var t :| t in tasks && IdOf(t) == id && ListsOf(tasks)[id] == t.subs;
      var i :| 0 <= i < |tasks| && tasks[i] == t;
    }
    ListedStep(cfg, s, s', lists, ListsOf(tasks), more);
  }

  lemma {:induction false} StepListed(cfg: Config, s: Sys, step: Step, lists: map<Id, seq<string>>)
    returns (lists': map<Id, seq<string>>)
    requires Listed(cfg, s, lists) && Possible(cfg, s, step)
    requires forall k :: k in s.store ==> Follows(s.store[k], cfg.Of(k.kind))
    ensures Listed(cfg, Apply(cfg, s, step), lists')
  {
    lists' := lists;
    match step {
      case ApiCreate(key) =>
        if cfg.Of(key.kind) != [] {
          lists' := NewListed(cfg, s, DoCreate(cfg, s, key), key, Created(key, s.nextVersion), lists);
        }
      case ApiDelete(key) =>
        if cfg.Of(key.kind) != [] && key in s.store && |cfg.Of(key.kind)| <= |s.store[key].comps| {
          lists' := NewListed(cfg, s, DoDelete(cfg, s, key), key, Marked(key, s.nextVersion), lists);
        }
      case Publish(ok) => PublishListed(cfg, s, ok, lists);
      case Report(slot, comp, delivered) => ReportListed(cfg, s, slot, comp, delivered, lists);
      case Timeout => if s.mgr.Waiting? { DriveListed(cfg, s, TimedOut, lists); }
      case Gather(p, order) => lists' := GatherListed(cfg, s, p, order, lists);
      case _ => MoveListed(cfg, s, step, lists);
    }
  }

  lemma MoveListed(cfg: Config, s: Sys, step: Step, lists: map<Id, seq<string>>)
    requires Listed(cfg, s, lists)
    requires step.Enqueue? || step.Fire? || step.Dequeue? || step.Quit? || step.Abort? || step.Finish?
    ensures Listed(cfg, Apply(cfg, s, step), lists)
  {
    var s' := Apply(cfg, s, step);
    if s' != s {
      forall t | IsOpen(s', t) ensures IsOpen(s, t) {
        match step
        case Enqueue(j) => InWithout(s.pending, j, t);
        case Fire(j) => InWithout(s.timers, j, t);
        case Dequeue =>
          assert At(s.queue[0], 0) == s.queue[0];
          assert s.queue == [s.queue[0]] + s.queue[1..];
        case Quit(slot) =>
        case Abort(p) => HeldAfterSettle(s.procs, p, [], t);
        case Finish(p) => HeldAfterFinish(s.procs, p, t);
      }
      SameListed(cfg, s, s', lists);
    }
  }

  lemma {:induction false} RunListed(cfg: Config, steps: seq<Step>) returns (lists: map<Id, seq<string>>)
    requires cfg.Valid() && PossibleRun(cfg, steps)
    ensures Listed(cfg, Run(cfg, steps), lists)
  {
    if steps == [] {
      lists := map[];
    } else {
      var before := steps[..|steps| - 1];
      lists := RunListed(cfg, before);
      RunFollows(cfg, before);
      lists := StepListed(cfg, Run(cfg, before), steps[|steps| - 1], lists);
    }
  }

  // ---------------------------------------------------------------------
  // Priorities
  // ---------------------------------------------------------------------

  /** `a` stands before `b` in the list. */
  ghost predicate Before(list: seq<string>, a: string, b: string) {
    exists i, j :: 0 <= i < j < |list| && list[i] == a && list[j] == b
  }

  lemma {:induction false} InOrderKeepsBefore(part: seq<string>, list: seq<string>, i: nat, j: nat)
    requires InOrder(part, list) && i < j < |part|
    ensures Before(list, part[i], part[j])
    decreases |list|
  {
    if part[0] != list[0] {
      InOrderKeepsBefore(part, list[1..], i, j);
      LaterIsBefore(list, part[i], part[j]);
    } else if i > 0 {
      InOrderKeepsBefore(part[1..], list[1..], i - 1, j - 1);
      LaterIsBefore(list, part[i], part[j]);
    } else {
      var k := InOrderIsIn(part[1..], list[1..], j - 1);
      assert list[k + 1] == part[j] && list[0] == part[0];
    }
  }

  lemma LaterIsBefore(list: seq<string>, a: string, b: string)
    requires list != [] && Before(list[1..], a, b)
    ensures Before(list, a, b)
  {
    var i, j :| 0 <= i < j < |list[1..]| && list[1..][i] == a && list[1..][j] == b;
    assert list[i + 1] == a && list[j + 1] == b;
  }

  lemma {:induction false} InOrderIsIn(part: seq<string>, list: seq<string>, i: nat) returns (k: nat)
    requires InOrder(part, list) && i < |part|
    ensures k < |list| && list[k] == part[i]
    decreases |list|
  {
    if part[0] != list[0] {
      k := InOrderIsIn(part, list[1..], i);
      k := k + 1;
    } else if i > 0 {
      k := InOrderIsIn(part[1..], list[1..], i - 1);
      k := k + 1;
    } else {
      k := 0;
    }
  }

  /**
   Priority order. In every run, whatever modules do, all notifications of one task at one
   place of its list go to the same module, and at a later place to a module of lower
   priority, in the order in which modules are subscribed to the kind of the object.
   */
  lemma {:induction false} NotifiedByPriority(cfg: Config, steps: seq<Step>, a: nat, b: nat)
    requires cfg.Valid() && PossibleRun(cfg, steps)
    requires var log := Run(cfg, steps).log;
      a < |log| && b < |log| && log[a].Notified? && log[b].Notified? && log[a].id == log[b].id
    ensures var log := Run(cfg, steps).log; var subs := cfg.Of(log[a].id.key.kind);
      && log[a].name in subs
      && (log[a].index == log[b].index ==> log[a].name == log[b].name)
      && (log[a].index < log[b].index ==> Before(subs, log[a].name, log[b].name))
  {
    var log := Run(cfg, steps).log;
    var lists := RunListed(cfg, steps);
    assert log[a] in log && log[b] in log;
    var list := lists[log[a].id];
    var k := InOrderIsIn(list, cfg.Of(log[a].id.key.kind), log[a].index);
    if log[a].index < log[b].index {
      InOrderKeepsBefore(list, cfg.Of(log[a].id.key.kind), log[a].index, log[b].index);
    }
  }
}
