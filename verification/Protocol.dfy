/**
 The whole realization protocol as a step machine: API calls, the queue and its
 goroutines, the task manager, the subscriber goroutines with the notification
 each has in hand, status reports, and replays
 (pkg/infradb/infradb.go, pkg/infradb/replay.go, pkg/infradb/taskmanager).
 Every step is total: where its guard fails it changes nothing.
 */
module Protocol {
  import opened Basics
  import opened Intents
  import opened TaskManager

  /** One goroutine per module and event type. */
  datatype Slot = Slot(kind: Kind, name: string)

  /** A notification a goroutine is working on. */
  datatype Event = Event(key: Key, version: int, nid: int)

  /** A replay procedure: asked for, or done with the store and holding the tasks it will create. */
  datatype Proc = Requested(component: string) | Gathered(tasks: seq<Task>)

  /**
   What happened, oldest first. `after` is the delay in seconds with which the task was
   given to a timer; None when it was not.
   */
  datatype Entry =
    | Created(key: Key, version: int)
    | Marked(key: Key, version: int)
    | Replayed(key: Key, version: int, component: string)
    | Reported(key: Key, version: int, component: string, ok: bool, timer: int)
    | Removed(key: Key)
    | Notified(id: Id, index: nat, nid: int, name: string)
    | Acked(id: Id, index: nat, nid: int, name: string)
    | Answered(id: Id, name: string, after: Option<int>)
    | Missed(id: Id, after: Option<int>)

  datatype Sys = Sys(
    store: map<Key, Intent>,
    pending: seq<Task>,      // goroutines that are about to enqueue a task
    queue: seq<Task>,
    timers: seq<Task>,
    mgr: Mgr,
    hands: map<Slot, Event>,
    procs: seq<Proc>,
    nextVersion: int,
    nextNid: int,
    created: seq<Id>,
    finished: seq<Id>,
    dropped: seq<Id>,
    log: seq<Entry>)

  const Init := Sys(map[], [], [], [], Idle, map[], [], 0, 0, [], [], [], [])

  datatype Step =
    | ApiCreate(key: Key)
    | ApiDelete(key: Key)
    | Enqueue(j: nat)
    | Fire(j: nat)
    | Dequeue
    | Publish(ok: bool)
    | Report(slot: Slot, comp: Component, delivered: bool)
    | Quit(slot: Slot)
    | Timeout
    | Gather(p: nat, order: seq<Key>)
    | Abort(p: nat)
    | Finish(p: nat)

  // ---------------------------------------------------------------------
  // The effect of API calls, reports and replays on the store
  // ---------------------------------------------------------------------

  /** The report is about the stored version of a stored object. */
  predicate Current(store: map<Key, Intent>, key: Key, version: int) {
    key in store && store[key].version == version
  }

  function StoreAfterReport(store: map<Key, Intent>, key: Key, report: Component): map<Key, Intent>
    requires key in store
  {
    match AfterReport(store[key], report)
    case Some(x) => store[key := x]
    case None => store - {key}
  }

  /** Bridge ports are gathered under one type name and matched under another: they are never replayed. */
  predicate Replayable(cfg: Config, kind: Kind, component: string) {
    kind != PortKind && component in cfg.Of(kind)
  }

  /** `order` is one of the orders in which the index maps can be walked. */
  ghost predicate WalksReplayed(cfg: Config, store: map<Key, Intent>, component: string, order: seq<Key>) {
    NoDup(order) && forall k :: k in order <==> k in store && Replayable(cfg, k.kind, component)
  }

  function StoreAfterGather(store: map<Key, Intent>, order: seq<Key>, component: string,
                            version: int): map<Key, Intent> {
    if order == [] || order[0] !in store then store
    else
      var store' := store[order[0] := Prepared(store[order[0]], component, version)];
      StoreAfterGather(store', order[1..], component, version + 1)
  }

  function ReplayTasks(cfg: Config, store: map<Key, Intent>, order: seq<Key>, component: string,
                       version: int): seq<Task> {
    if order == [] || order[0] !in store then []
    else
      var k := order[0];
      [NewTask(k, version, PreparedSubs(store[k].comps, component, cfg.Of(k.kind)))]
      + ReplayTasks(cfg, store, order[1..], component, version + 1)
  }

  function ReplayLog(order: seq<Key>, component: string, version: int): seq<Entry> {
    if order == [] then []
    else [Replayed(order[0], version, component)] + ReplayLog(order[1..], component, version + 1)
  }

  // ---------------------------------------------------------------------
  // The manager's part of a step
  // ---------------------------------------------------------------------

  function DelayOf(f: Fate): Option<int> {
    if f.Requeued? then Some(f.after) else None
  }

  /** The module whose turn it is. */
  function Turn(t: Task, i: nat): string {
    if t.subIndex + i < |t.subs| then t.subs[t.subIndex + i] else ""
  }

  function LogOf(m: Mgr, input: Input): seq<Entry> {
    match (m, input)
    case (Publishing(t, i), PublishBusy) => [Missed(IdOf(t), DelayOf(Next(m, input).1))]
    case (Publishing(t, i), PublishOk(nid)) => [Notified(IdOf(t), t.subIndex + i, nid, Turn(t, i))]
    case (Waiting(t, i, nid), TimedOut) => [Missed(IdOf(t), DelayOf(Next(m, input).1))]
    case (Waiting(t, i, nid), Received(signal)) =>
      if signal.nid != nid || signal.drop then []
      else if signal.comp.status == Success then [Acked(IdOf(t), t.subIndex + i, nid, Turn(t, i))]
      else [Answered(IdOf(t), Turn(t, i), DelayOf(Next(m, input).1))]
    case _ => []
  }

  function Drive(s: Sys, input: Input): Sys {
    var (m, f) := Next(s.mgr, input);
    var s' := s.(mgr := m, log := s.log + LogOf(s.mgr, input));
    match f
    case Kept => s'
    case Requeued(t, _) => s'.(timers := s.timers + [t])
    case Finished(t) => s'.(finished := s.finished + [IdOf(t)])
    case Dropped(t) => s'.(dropped := s.dropped + [IdOf(t)])
  }

  // ---------------------------------------------------------------------
  // The steps
  // ---------------------------------------------------------------------

  function WithTask(s: Sys, t: Task): Sys {
    s.(pending := s.pending + [t], created := s.created + [IdOf(t)])
  }

  /** Create* stores the object over whatever had its name; the API layer checks names first. */
  function DoCreate(cfg: Config, s: Sys, key: Key): Sys {
    var subs := cfg.Of(key.kind);
    if subs == [] then s
    else
      WithTask(s.(store := s.store[key := NewIntent(subs, s.nextVersion)],
                  nextVersion := s.nextVersion + 1,
                  log := s.log + [Created(key, s.nextVersion)]),
               NewTask(key, s.nextVersion, subs))
  }

  function DoDelete(cfg: Config, s: Sys, key: Key): Sys {
    var subs := cfg.Of(key.kind);
    if subs == [] || key !in s.store || |s.store[key].comps| < |subs| then s
    else
      WithTask(s.(store := s.store[key := MarkDeleted(s.store[key], |subs|, s.nextVersion)],
                  nextVersion := s.nextVersion + 1,
                  log := s.log + [Marked(key, s.nextVersion)]),
               NewTask(key, s.nextVersion, subs))
  }

  function DoEnqueue(s: Sys, j: nat): Sys {
    if j < |s.pending| && |s.queue| < QUEUE_CAPACITY
    then s.(pending := Without(s.pending, j), queue := s.queue + [s.pending[j]])
    else s
  }

  function DoFire(s: Sys, j: nat): Sys {
    if j < |s.timers|
    then s.(timers := Without(s.timers, j), pending := s.pending + [s.timers[j]])
    else s
  }

  function DoDequeue(s: Sys): Sys {
    if s.mgr.Idle? && s.queue != []
    then Drive(s.(queue := s.queue[1..]), Dequeued(s.queue[0]))
    else s
  }

  /** A subscriber takes a notification only when its goroutine has none in hand. */
  function DoPublish(s: Sys, ok: bool): Sys {
    if !s.mgr.Publishing? || |s.mgr.task.subs| <= s.mgr.task.subIndex + s.mgr.i then s
    else if !ok then Drive(s, PublishBusy)
    else
      var t := s.mgr.task;
      var slot := Slot(t.key.kind, t.subs[t.subIndex + s.mgr.i]);
      if slot in s.hands then s
      else
        Drive(s.(hands := s.hands[slot := Event(t.key, t.version, s.nextNid)], nextNid := s.nextNid + 1),
              PublishOk(s.nextNid))
  }

  function ReportEntry(key: Key, version: int, comp: Component): Entry {
    Reported(key, version, comp.name, comp.status == Success, comp.timer)
  }

  /** The store part of Update*Status, with the status it sends to the manager. */
  function Record(s: Sys, e: Event, comp: Component): (Sys, bool) {
    if !Current(s.store, e.key, e.version) then (s, true)
    else if comp.replay then (s.(procs := s.procs + [Requested(comp.name)]), true)
    else
      (s.(store := StoreAfterReport(s.store, e.key, comp),
          log := s.log + [ReportEntry(e.key, e.version, comp)]
                 + if AfterReport(s.store[e.key], comp).None? then [Removed(e.key)] else []),
       false)
  }

  /** The send is lost when nobody is reading the channel. */
  function DoReport(s: Sys, slot: Slot, comp: Component, delivered: bool): Sys {
    if slot !in s.hands then s
    else
      var e := s.hands[slot];
      var (s', drop) := Record(s.(hands := s.hands - {slot}), e, comp);
      if delivered then Drive(s', Received(Signal(e.nid, drop, comp))) else s'
  }

  function DoQuit(s: Sys, slot: Slot): Sys {
    s.(hands := s.hands - {slot})
  }

  function DoTimeout(s: Sys): Sys {
    if s.mgr.Waiting? then Drive(s, TimedOut) else s
  }

  /** The locked part of a replay whose pre-replay step succeeded. */
  function DoGather(cfg: Config, s: Sys, p: nat, order: seq<Key>): Sys {
    if p < |s.procs| && s.procs[p].Requested? then
      var c := s.procs[p].component;
      var tasks := ReplayTasks(cfg, s.store, order, c, s.nextVersion);
      s.(store := StoreAfterGather(s.store, order, c, s.nextVersion),
         procs := s.procs[p := Gathered(tasks)],
         created := s.created + seq(|tasks|, i requires 0 <= i < |tasks| => IdOf(tasks[i])),
         nextVersion := s.nextVersion + |order|,
         log := s.log + ReplayLog(order, c, s.nextVersion))
    else s
  }

  /** A replay whose pre-replay step failed creates no task. */
  function DoAbort(s: Sys, p: nat): Sys {
    if p < |s.procs| && s.procs[p].Requested? then s.(procs := s.procs[p := Gathered([])]) else s
  }

  /** The rendezvous of ReplayFinished with the waiting manager, then the new tasks. */
  function DoFinish(s: Sys, p: nat): Sys {
    if p < |s.procs| && s.procs[p].Gathered? && s.mgr.AwaitingReplay?
    then Drive(s.(procs := Without(s.procs, p), pending := s.pending + s.procs[p].tasks), ReplayDone)
    else s
  }

  /** A gather walks the index maps; any other order cannot happen. */
  ghost predicate Possible(cfg: Config, s: Sys, step: Step) {
    step.Gather? && step.p < |s.procs| && s.procs[step.p].Requested? ==>
      WalksReplayed(cfg, s.store, s.procs[step.p].component, step.order)
  }

  function Apply(cfg: Config, s: Sys, step: Step): Sys {
    match step
    case ApiCreate(key) => DoCreate(cfg, s, key)
    case ApiDelete(key) => DoDelete(cfg, s, key)
    case Enqueue(j) => DoEnqueue(s, j)
    case Fire(j) => DoFire(s, j)
    case Dequeue => DoDequeue(s)
    case Publish(ok) => DoPublish(s, ok)
    case Report(slot, comp, delivered) => DoReport(s, slot, comp, delivered)
    case Quit(slot) => DoQuit(s, slot)
    case Timeout => DoTimeout(s)
    case Gather(p, order) => DoGather(cfg, s, p, order)
    case Abort(p) => DoAbort(s, p)
    case Finish(p) => DoFinish(s, p)
  }

  // ---------------------------------------------------------------------
  // Runs
  // ---------------------------------------------------------------------

  /** A run is read from its last step. */
  function Run(cfg: Config, steps: seq<Step>): Sys {
    if steps == [] then Init else Apply(cfg, Run(cfg, steps[..|steps| - 1]), steps[|steps| - 1])
  }

  ghost predicate PossibleRun(cfg: Config, steps: seq<Step>) {
    steps != [] ==>
      var before := steps[..|steps| - 1];
      PossibleRun(cfg, before) && Possible(cfg, Run(cfg, before), steps[|steps| - 1])
  }

  /** What the modules and the pre-replay step are relied on for. */
  ghost predicate Honest(s: Sys, step: Step) {
    && (step.Report? ==>
        step.comp.name == step.slot.name && (step.comp.status == Success || step.comp.status == Error))
    && (step.Report? && step.comp.replay ==> step.slot.kind != PortKind)
    && !step.Abort?
  }

  ghost predicate HonestRun(cfg: Config, steps: seq<Step>) {
    steps != [] ==>
      var before := steps[..|steps| - 1];
      HonestRun(cfg, before)
      && Possible(cfg, Run(cfg, before), steps[|steps| - 1])
      && Honest(Run(cfg, before), steps[|steps| - 1])
  }
}
