/**
 The task manager (pkg/infradb/taskmanager/taskmanager.go): one task at a time,
 its subscribers one by one, each notification followed by a wait for a status.
 `Next` is one step of that loop; `Manager.ProcessNext` is the loop itself.
 */
module TaskManager {
  import opened Basics
  import opened Intents

  const INITIAL_TIMER := 1
  const QUEUE_CAPACITY := 200

  /** `systemTimer` is in seconds; `subs` are module names in priority order. */
  datatype Task = Task(key: Key, version: int, subIndex: nat, systemTimer: int, subs: seq<string>)

  /** Resource versions are fresh, so an object's name and a version name one task. */
  datatype Id = Id(key: Key, version: int)

  function IdOf(t: Task): Id {
    Id(t.key, t.version)
  }

  function NewTask(key: Key, version: int, subs: seq<string>): Task {
    Task(key, version, 0, INITIAL_TIMER, subs)
  }

  /** The task as it is requeued when the loop stands at its `i`-th remaining subscriber. */
  function At(t: Task, i: nat): Task {
    t.(subIndex := t.subIndex + i)
  }

  /** What is left of a task's subscriber list. */
  function Remaining(t: Task): seq<string> {
    if t.subIndex <= |t.subs| then t.subs[t.subIndex..] else []
  }

  /** A status on the channel. */
  datatype Signal = Signal(nid: int, drop: bool, comp: Component)

  /** Where the loop stands; `i` counts subscribers since the task was dequeued. */
  datatype Mgr =
    | Idle
    | Publishing(task: Task, i: nat)
    | Waiting(task: Task, i: nat, nid: int)
    | AwaitingReplay

  datatype Input =
    | Dequeued(task: Task)
    | PublishBusy
    | PublishOk(nid: int)
    | TimedOut
    | Received(signal: Signal)
    | ReplayDone

  /** What the step did with the task the manager held. */
  datatype Fate =
    | Kept
    | Requeued(task: Task, after: int)
    | Finished(task: Task)
    | Dropped(task: Task)

  /** The next subscriber's turn, or the end of the task. */
  function Advance(t: Task, i: nat): (Mgr, Fate) {
    if t.subIndex + i < |t.subs| then (Publishing(t, i), Kept) else (Idle, Finished(At(t, i)))
  }

  /** Retry later from the subscriber that could not be reached. */
  function Retry(t: Task, i: nat): (Mgr, Fate) {
    var later := At(t, i).(systemTimer := 2 * t.systemTimer);
    (Idle, Requeued(later, later.systemTimer))
  }

  /** The decision on a status that answers the outstanding notification. */
  function Answer(t: Task, i: nat, signal: Signal): (Mgr, Fate) {
    if signal.drop then
      (if signal.comp.replay then AwaitingReplay else Idle, Dropped(t))
    else
      var heard := t.(systemTimer := INITIAL_TIMER);
      match signal.comp.status
      case Success => Advance(heard, i + 1)
      case Error => (Idle, Requeued(At(heard, i), signal.comp.timer))
      case _ => (Idle, Dropped(heard))
  }

  /** One step; an input the manager is not listening for changes nothing. */
  function Next(m: Mgr, input: Input): (Mgr, Fate) {
    match (m, input)
    case (Idle, Dequeued(t)) => Advance(t, 0)
    case (Publishing(t, i), PublishBusy) => Retry(t, i)
    case (Publishing(t, i), PublishOk(nid)) => (Waiting(t, i, nid), Kept)
    case (Waiting(t, i, nid), TimedOut) => Retry(t, i)
    case (Waiting(t, i, nid), Received(signal)) =>
      if signal.nid == nid then Answer(t, i, signal) else (m, Kept)
    case (AwaitingReplay, ReplayDone) => (Idle, Kept)
    case _ => (m, Kept)
  }

  // ---------------------------------------------------------------------
  // The loop
  // ---------------------------------------------------------------------

  /**
   What the world does for one subscriber: it is busy, or it takes the
   notification, a finite number of statuses arrive, and if none of them
   answers it the 30 seconds run out.
   */
  datatype Reply = Busy | Sent(nid: int, inbox: seq<Signal>)

  function Listen(m: Mgr, inbox: seq<Signal>): (Mgr, Fate)
    requires m.Waiting?
  {
    if inbox == [] then Next(m, TimedOut)
    else
      var (m', f) := Next(m, Received(inbox[0]));
      if m'.Waiting? then Listen(m', inbox[1..]) else (m', f)
  }

  function PlayReply(m: Mgr, reply: Reply): (Mgr, Fate)
    requires m.Publishing?
  {
    match reply
    case Busy => Next(m, PublishBusy)
    case Sent(nid, inbox) => Listen(Next(m, PublishOk(nid)).0, inbox)
  }

  /** The steps taken for one task, as long as the manager holds it. */
  function Play(m: Mgr, f: Fate, replies: seq<Reply>): (Mgr, Fate)
    decreases |replies|
  {
    if !m.Publishing? || replies == [] then (m, f)
    else
      var (m', f') := PlayReply(m, replies[0]);
      Play(m', f', replies[1..])
  }

  // ---------------------------------------------------------------------
  // What a pass comes to, read off the replies alone
  // ---------------------------------------------------------------------

  /** The subscriber did not take the notification, or nothing about it was heard. */
  predicate Unreached(reply: Reply) {
    reply.Busy? || forall j :: 0 <= j < |reply.inbox| ==> reply.inbox[j].nid != reply.nid
  }

  /** The `j`-th status is the first that is about the notification. */
  predicate Hears(reply: Reply, j: nat) {
    && reply.Sent? && j < |reply.inbox| && reply.inbox[j].nid == reply.nid
    && forall i :: 0 <= i < j ==> reply.inbox[i].nid != reply.nid
  }

  ghost predicate Acknowledges(reply: Reply) {
    exists j: nat :: Hears(reply, j) && !reply.inbox[j].drop && reply.inbox[j].comp.status == Success
  }

  /** The task's own timer at its `k`-th subscriber: a status starts it again from one second. */
  function TimerAt(t: Task, k: nat): int {
    if k == 0 then t.systemTimer else 1
  }

  /** What a status that is no acknowledgement does to the task that stands at its `k`-th subscriber. */
  predicate Heard(t: Task, k: nat, signal: Signal, fate: Fate, awaitsReplay: bool) {
    if signal.drop then
      fate.Dropped? && IdOf(fate.task) == IdOf(t) && awaitsReplay == signal.comp.replay
    else if signal.comp.status == Error then
      fate == Requeued(t.(subIndex := t.subIndex + k, systemTimer := 1), signal.comp.timer) && !awaitsReplay
    else
      signal.comp.status != Success && fate.Dropped? && IdOf(fate.task) == IdOf(t) && !awaitsReplay
  }

  /**
   The pass over the remaining subscribers ends at the `k`-th: all before it acknowledged.
   With no subscriber left the task is finished. One that could not be reached is tried
   again after twice the task's timer; after an Error the task comes back when the module
   asked for it.
   */
  ghost predicate PassEnds(t: Task, replies: seq<Reply>, k: nat, fate: Fate, awaitsReplay: bool) {
    && k <= |Remaining(t)| <= |replies|
    && (forall i :: 0 <= i < k ==> Acknowledges(replies[i]))
    && if k == |Remaining(t)| then
         fate == Finished(t.(subIndex := t.subIndex + k, systemTimer := TimerAt(t, k))) && !awaitsReplay
       else if Unreached(replies[k]) then
         var after := 2 * TimerAt(t, k);
         fate == Requeued(t.(subIndex := t.subIndex + k, systemTimer := after), after) && !awaitsReplay
       else
         exists j: nat :: Hears(replies[k], j) && Heard(t, k, replies[k].inbox[j], fate, awaitsReplay)
  }

  ghost predicate PassIs(t: Task, replies: seq<Reply>, fate: Fate, awaitsReplay: bool) {
    exists k :: PassEnds(t, replies, k, fate, awaitsReplay)
  }

  lemma {:induction false} ListenHears(m: Mgr, inbox: seq<Signal>)
    requires m.Waiting?
    ensures Unreached(Sent(m.nid, inbox)) ==> Listen(m, inbox) == Retry(m.task, m.i)
    ensures forall j: nat :: Hears(Sent(m.nid, inbox), j) ==> Listen(m, inbox) == Answer(m.task, m.i, inbox[j])
    ensures Unreached(Sent(m.nid, inbox)) || exists j: nat :: Hears(Sent(m.nid, inbox), j)
  {
    if inbox != [] {
      if inbox[0].nid == m.nid {
        assert Hears(Sent(m.nid, inbox), 0);
      } else {
        ListenHears(m, inbox[1..]);
        forall j: nat | Hears(Sent(m.nid, inbox), j)
          ensures Listen(m, inbox) == Answer(m.task, m.i, inbox[j])
        {
          assert Hears(Sent(m.nid, inbox[1..]), j - 1);
        }
        if !Unreached(Sent(m.nid, inbox)) {
          var j: nat :| Hears(Sent(m.nid, inbox[1..]), j);
          assert Hears(Sent(m.nid, inbox), j + 1);
        }
      }
    }
  }

  /** The subscriber at `i` ends the pass, or it acknowledges and the next one has its turn. */
  lemma ReplyDecides(t: Task, i: nat, replies: seq<Reply>)
    requires i < |Remaining(t)| <= |replies| && forall j :: 0 <= j < i ==> Acknowledges(replies[j])
    ensures var (m, f) := PlayReply(Publishing(t.(systemTimer := TimerAt(t, i)), i), replies[i]);
      if Acknowledges(replies[i]) then (m, f) == Advance(t.(systemTimer := 1), i + 1)
      else (m.Idle? || m.AwaitingReplay?) && PassEnds(t, replies, i, f, m.AwaitingReplay?)
  {
    if replies[i].Sent? {
      var sent := Waiting(t.(systemTimer := TimerAt(t, i)), i, replies[i].nid);
      ListenHears(sent, replies[i].inbox);
      if !Unreached(replies[i]) {
        var j: nat :| Hears(replies[i], j);
        AnswerDecides(t, i, replies[i].inbox[j]);
      }
    }
  }

  /** A status that is no acknowledgement ends the pass as `Heard` says. */
  lemma AnswerDecides(t: Task, i: nat, signal: Signal)
    ensures var (m, f) := Answer(t.(systemTimer := TimerAt(t, i)), i, signal);
      if !signal.drop && signal.comp.status == Success then (m, f) == Advance(t.(systemTimer := 1), i + 1)
      else (m.Idle? || m.AwaitingReplay?) && Heard(t, i, signal, f, m.AwaitingReplay?)
  {}

  /** The pass from its `i`-th subscriber on, when those before have acknowledged. */
  lemma {:induction false} PassFrom(t: Task, i: nat, replies: seq<Reply>) returns (k: nat)
    requires i <= |Remaining(t)| <= |replies| && forall j :: 0 <= j < i ==> Acknowledges(replies[j])
    ensures var start := Advance(t.(systemTimer := TimerAt(t, i)), i);
      var end := Play(start.0, start.1, replies[i..]);
      (end.0.Idle? || end.0.AwaitingReplay?) && PassEnds(t, replies, k, end.1, end.0.AwaitingReplay?)
    decreases |replies| - i
  {
    k := i;
    if i < |Remaining(t)| {
      assert replies[i..][1..] == replies[i + 1..];
      ReplyDecides(t, i, replies);
      if Acknowledges(replies[i]) {
        k := PassFrom(t, i + 1, replies);
      }
    }
  }

  /** The steps of `Next` over one task come to what the replies say. */
  lemma {:induction false} PassIsPlay(t: Task, replies: seq<Reply>)
    requires |Remaining(t)| <= |replies|
    ensures var start := Next(Idle, Dequeued(t)); var end := Play(start.0, start.1, replies);
      end.0 in {Idle, AwaitingReplay} && PassIs(t, replies, end.1, end.0.AwaitingReplay?)
  {
    assert replies[0..] == replies && t.(systemTimer := TimerAt(t, 0)) == t;
    var k := PassFrom(t, 0, replies);
  }

  /** A task waiting for its timer to put it back into the queue. */
  datatype Timed = Timed(task: Task, after: int)

  class Manager {
    var queue: seq<Task>
    var timers: seq<Timed>

    constructor ()
      ensures queue == [] && timers == []
    {
      queue, timers := [], [];
    }

    /** A send on the buffered channel: it goes through only while there is room. */
    method Enqueue(task: Task) returns (sent: bool)
      modifies this`queue
      ensures sent <==> |old(queue)| < 200
      ensures queue == if sent then old(queue) + [task] else old(queue)
    {
      sent := |queue| < QUEUE_CAPACITY;
      if sent {
        queue := queue + [task];
      }
    }

    /**
     One pass of the outer loop. `awaitsReplay` says that the pass ends waiting
     for a replay to finish. The loops take exactly the steps of `Next`.
     */
    method ProcessNext(replies: seq<Reply>) returns (fate: Fate, awaitsReplay: bool)
      requires queue != [] && |Remaining(queue[0])| <= |replies|
      modifies this
      ensures queue == old(queue)[1..]
      ensures var start := Next(Idle, Dequeued(old(queue)[0]));
        (if awaitsReplay then AwaitingReplay else Idle, fate) == Play(start.0, start.1, replies)
      ensures PassIs(old(queue)[0], replies, fate, awaitsReplay)
      ensures timers == old(timers) + if fate.Requeued? then [Timed(fate.task, fate.after)] else []
    {
      var task := queue[0];
      ghost var first := task;
      queue := queue[1..];
      awaitsReplay := false;
      var subsToIterate := Remaining(task);
      ghost var start := Next(Idle, Dequeued(task));
      ghost var end := Play(start.0, start.1, replies);
      assert replies[0..] == replies;
      fate := Kept;
      label loopTwo:
      for i := 0 to |subsToIterate|
        invariant queue == old(queue)[1..] && timers == old(timers) && !awaitsReplay && fate.Kept?
        invariant Remaining(task) == subsToIterate
        invariant var (m, f) := Advance(task, i); end == Play(m, f, replies[i..])
      {
        ghost var rest := replies[i + 1..];
        assert replies[i..][1..] == rest;
        match replies[i] {
          case Busy =>
            task := At(task, i).(systemTimer := 2 * task.systemTimer);
            timers := timers + [Timed(task, task.systemTimer)];
            fate := Requeued(task, task.systemTimer);
            break loopTwo;
          case Sent(nid, inbox) =>
            var taskStatus := AwaitStatus(nid, inbox, Waiting(task, i, nid));
            match taskStatus {
              case None =>
                task := At(task, i).(systemTimer := 2 * task.systemTimer);
                timers := timers + [Timed(task, task.systemTimer)];
                fate := Requeued(task, task.systemTimer);
                break loopTwo;
              case Some(signal) =>
                if signal.drop {
                  fate, awaitsReplay := Dropped(task), signal.comp.replay;
                  break loopTwo;
                }
                task := task.(systemTimer := INITIAL_TIMER);
                match signal.comp.status {
                  case Success =>
                  case Error =>
                    task := At(task, i);
                    timers := timers + [Timed(task, signal.comp.timer)];
                    fate := Requeued(task, signal.comp.timer);
                    break loopTwo;
                  case _ =>
                    fate := Dropped(task);
                    break loopTwo;
                }
            }
        }
      }
      if fate.Kept? {
        fate := Finished(At(task, |subsToIterate|));
      }
      assert end == (if awaitsReplay then AwaitingReplay else Idle, fate);
      PassIsPlay(first, replies);
    }

    /** The innermost loop: skip statuses of other notifications until one fits or time is up. */
    method AwaitStatus(nid: int, inbox: seq<Signal>, ghost m: Mgr) returns (taskStatus: Option<Signal>)
      requires m.Waiting? && m.nid == nid
      ensures Listen(m, inbox) ==
        if taskStatus.None? then Retry(m.task, m.i) else Answer(m.task, m.i, taskStatus.value)
      ensures taskStatus.Some? ==> taskStatus.value in inbox && taskStatus.value.nid == nid
      ensures taskStatus.None? ==> forall signal :: signal in inbox ==> signal.nid != nid
    {
      var k := 0;
      while k < |inbox|
        invariant 0 <= k <= |inbox|
        invariant Listen(m, inbox) == Listen(m, inbox[k..])
        invariant forall j :: 0 <= j < k ==> inbox[j].nid != nid
      {
        if inbox[k].nid == nid {
          return Some(inbox[k]);
        }
        assert inbox[k..][1..] == inbox[k + 1..];
        k := k + 1;
      }
      return None;
    }
  }
}
