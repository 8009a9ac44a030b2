/**
 The order in which a task's subscribers are notified, and its delivery timer, read
 off the log of the run. Holds in every run, whatever modules do.
 */
module Delivery {
  import opened Basics
  import opened Intents
  import opened TaskManager
  import opened Protocol
  import opened NoLostIntent
  import opened TaskConservation
  import opened Realization
  import opened Teardown

  function About(e: Entry): Option<Id> {
    match e
    case Notified(id, _, _, _) => Some(id)
    case Acked(id, _, _, _) => Some(id)
    case Answered(id, _, _) => Some(id)
    case Missed(id, _) => Some(id)
    case _ => None
  }

  predicate IsNotice(e: Entry, id: Id, k: nat, nid: int) {
    e.Notified? && e.id == id && e.index == k && e.nid == nid
  }

  predicate IsAck(e: Entry, id: Id, k: nat, nid: int) {
    e.Acked? && e.id == id && e.index == k && e.nid == nid
  }

  /** The subscriber whose turn it is: one past the last acknowledged one. */
  function Progress(log: seq<Entry>, id: Id): nat {
    if log == [] then 0
    else
      var before := Progress(log[..|log| - 1], id);
      match log[|log| - 1]
      case Notified(other, k, _, _) => if other == id then k else before
      case Acked(other, k, _, _) => if other == id then k + 1 else before
      case _ => before
  }

  /** A notification and the module it went to. */
  datatype Call = Call(nid: int, name: string)

  /** The notification that is out and neither answered nor given up. */
  function Outstanding(log: seq<Entry>, id: Id): Option<Call> {
    if log == [] then None
    else
      var last := log[|log| - 1];
      if About(last) != Some(id) then Outstanding(log[..|log| - 1], id)
      else if last.Notified? then Some(Call(last.nid, last.name))
      else None
  }

  /** Delivery failures since the last status. */
  function Failures(log: seq<Entry>, id: Id): nat {
    if log == [] then 0
    else
      var last := log[|log| - 1];
      var before := Failures(log[..|log| - 1], id);
      if About(last) != Some(id) || last.Notified? then before
      else if last.Missed? then before + 1
      else 0
  }

  /** An entry fits the log before it. */
  ghost predicate Fits(before: seq<Entry>, e: Entry) {
    match e
    case Notified(id, k, _, _) => k == Progress(before, id)
    case Acked(id, k, nid, name) => k == Progress(before, id) && Outstanding(before, id) == Some(Call(nid, name))
    case Answered(id, name, _) => Outstanding(before, id).Some? && Outstanding(before, id).value.name == name
    case Missed(id, after) => after == Some(Pow2(Failures(before, id) + 1))
    case _ => true
  }

  ghost predicate WellOrdered(log: seq<Entry>) {
    forall n :: 0 <= n < |log| ==> Fits(log[..n], log[n])
  }

  // ---------------------------------------------------------------------
  // The invariant
  // ---------------------------------------------------------------------

  ghost predicate InStep(log: seq<Entry>, t: Task) {
    t.subIndex == Progress(log, IdOf(t)) && t.systemTimer == Pow2(Failures(log, IdOf(t)))
  }

  /** The call the manager waits for. */
  function CallOf(m: Mgr): Call
    requires m.Waiting?
  {
    Call(m.nid, Turn(m.task, m.i))
  }

  ghost predicate OnlyOlder(log: seq<Entry>, next: int) {
    forall e :: e in log && About(e).Some? ==> About(e).value.version < next
  }

  ghost predicate Tracked(s: Sys) {
    && WellOrdered(s.log)
    && OnlyOlder(s.log, s.nextVersion)
    && (forall t :: IsOpen(s, t) ==> InStep(s.log, t))
    && (s.mgr.Waiting? ==> Outstanding(s.log, IdOf(s.mgr.task)) == Some(CallOf(s.mgr)))
  }

  lemma AppendOne(log: seq<Entry>, e: Entry)
    requires WellOrdered(log) && Fits(log, e)
    ensures WellOrdered(log + [e])
  {
    forall n | 0 <= n < |log + [e]| ensures Fits((log + [e])[..n], (log + [e])[n]) {
      if n < |log| {
        assert (log + [e])[..n] == log[..n];
      } else {
        assert (log + [e])[..n] == log;
      }
    }
  }

  /** What one entry about a task changes. */
  lemma AfterOne(log: seq<Entry>, e: Entry, id: Id)
    requires About(e) == Some(id)
    ensures Progress(log + [e], id) ==
      if e.Notified? then e.index else if e.Acked? then e.index + 1 else Progress(log, id)
    ensures Failures(log + [e], id) ==
      if e.Notified? then Failures(log, id) else if e.Missed? then Failures(log, id) + 1 else 0
    ensures Outstanding(log + [e], id) == if e.Notified? then Some(Call(e.nid, e.name)) else None
  {
    assert (log + [e])[..|log + [e]| - 1] == log;
  }

  /** Entries about other tasks, or about no task, change nothing for a task. */
  lemma {:induction false} AppendOthers(log: seq<Entry>, more: seq<Entry>, id: Id)
    requires forall e :: e in more ==> About(e) != Some(id)
    ensures Progress(log + more, id) == Progress(log, id)
    ensures Failures(log + more, id) == Failures(log, id)
    ensures Outstanding(log + more, id) == Outstanding(log, id)
  {
    if more == [] {
      assert log + more == log;
    } else {
      var fewer := more[..|more| - 1];
      assert (log + more)[..|log + more| - 1] == log + fewer;
      AppendOthers(log, fewer, id);
      assert more[|more| - 1] in more;
    }
  }

  lemma {:induction false} AppendSilent(log: seq<Entry>, more: seq<Entry>)
    requires WellOrdered(log) && forall e :: e in more ==> About(e).None?
    ensures WellOrdered(log + more)
  {
    if more == [] {
      assert log + more == log;
    } else {
      var fewer := more[..|more| - 1];
      AppendSilent(log, fewer);
      assert more[|more| - 1] in more;
      AppendOne(log + fewer, more[|more| - 1]);
      assert log + more == log + fewer + [more[|more| - 1]];
    }
  }

  /** A task nothing was ever said about has made no progress and no failure. */
  lemma {:induction false} Untouched(log: seq<Entry>, id: Id)
    requires forall e :: e in log ==> About(e) != Some(id)
    ensures Progress(log, id) == 0 && Failures(log, id) == 0
  {
    AppendOthers([], log, id);
    assert [] + log == log;
  }

  /** Open tasks are older than the next version, and the manager's is nobody else's. */
  lemma OpenIsOld(s: Sys, t: Task)
    requires Conserved(s) && IsOpen(s, t)
    ensures t.version < s.nextVersion
  {
    var id := IdOf(t);
    var rest := s.timers + (MgrTasks(s.mgr) + Held(s.procs));
    var all := s.pending + (s.queue + rest);
    CountConcat(s.pending, s.queue + rest, id);
    CountConcat(s.queue, rest, id);
    CountConcat(s.timers, MgrTasks(s.mgr) + Held(s.procs), id);
    CountConcat(MgrTasks(s.mgr), Held(s.procs), id);
    assert t in all;
    OneCounts(all, t);
    assert Places(s, id) == CountIds(s.created, id);
    CountMember(s.created, id);
    assert id in s.created;
  }

  lemma MgrTaskAlone(s: Sys, t: Task)
    requires Conserved(s) && MgrTasks(s.mgr) != []
    requires t in s.pending || t in s.queue || t in s.timers || t in Held(s.procs)
    ensures IdOf(t) != IdOf(MgrTasks(s.mgr)[0])
  {
    var id := IdOf(t);
    CountDistinct(s.created, id);
    assert Places(s, id) == CountIds(s.created, id);
    CountOne(MgrTasks(s.mgr)[0], id);
    if t in s.pending { OneCounts(s.pending, t); }
    else if t in s.queue { OneCounts(s.queue, t); }
    else if t in s.timers { OneCounts(s.timers, t); }
    else { OneCounts(Held(s.procs), t); }
  }

  // ---------------------------------------------------------------------
  // Every step keeps it
  // ---------------------------------------------------------------------

  /** What a manager step leaves behind: the log fits, and what it holds or requeues is in step with it. */
  ghost predicate DriveEffect(s: Sys, input: Input) {
    var s' := Drive(s, input);
    var (m, f) := Next(s.mgr, input);
    && WellOrdered(s'.log)
    && OnlyOlder(s'.log, s'.nextVersion)
    && (forall t :: t in MgrTasks(m) ==> InStep(s'.log, t))
    && (f.Requeued? ==> InStep(s'.log, f.task))
    && (m.Waiting? ==> Outstanding(s'.log, IdOf(m.task)) == Some(CallOf(m)))
  }

  lemma DriveTask(s: Sys, input: Input)
    requires Tracked(s) && Conserved(s) && !input.Dequeued?
    ensures DriveEffect(s, input)
  {
    if LogOf(s.mgr, input) == [] {
      assert s.log + [] == s.log;
      SilentDrive(s, input);
    } else {
      LoudDrive(s, input, MgrTasks(s.mgr)[0], LogOf(s.mgr, input)[0]);
    }
  }

  lemma LogsItsTask(m: Mgr, input: Input)
    ensures forall e :: e in LogOf(m, input) ==> MgrTasks(m) != [] && About(e) == Some(IdOf(MgrTasks(m)[0]))
  {}

  lemma LoudLog(s: Sys, input: Input, t: Task, e: Entry)
    requires Tracked(s) && Conserved(s) && !input.Dequeued?
    requires LogOf(s.mgr, input) == [e] && MgrTasks(s.mgr) == [t]
    ensures InStep(s.log, t) && WellOrdered(s.log + [e]) && OnlyOlder(s.log + [e], s.nextVersion)
  {
    assert t in MgrTasks(s.mgr) && IsOpen(s, t);
    OpenIsOld(s, t);
    assert InStep(s.log, t);
    LogsItsTask(s.mgr, input);
    assert e in [e];
    AppendOne(s.log, e);
    AfterOne(s.log, e, IdOf(t));
    assert forall x :: x in s.log + [e] ==> x in s.log || x == e;
  }

  lemma LoudDrive(s: Sys, input: Input, t: Task, e: Entry)
    requires Tracked(s) && Conserved(s) && !input.Dequeued?
    requires LogOf(s.mgr, input) == [e] && MgrTasks(s.mgr) == [t]
    ensures DriveEffect(s, input)
  {
    LoudLog(s, input, t, e);
    LoudOutcome(s.mgr, input, s.log, t, e);
  }

  /** The manager's next task or its requeued one, against the log with the new entry. */
  lemma LoudOutcome(m: Mgr, input: Input, log: seq<Entry>, t: Task, e: Entry)
    requires LogOf(m, input) == [e] && MgrTasks(m) == [t] && InStep(log, t) && !input.Dequeued?
    requires m.Waiting? ==> Outstanding(log, IdOf(t)) == Some(CallOf(m))
    ensures var (m', f) := Next(m, input);
      && (forall u :: u in MgrTasks(m') ==> InStep(log + [e], u))
      && (f.Requeued? ==> InStep(log + [e], f.task))
      && (m'.Waiting? ==> Outstanding(log + [e], IdOf(m'.task)) == Some(CallOf(m')))
  {
    AfterOne(log, e, IdOf(t));
    var (m', f) := Next(m, input);
    if MgrTasks(m') != [] {
      assert MgrTasks(m') == [MgrTasks(m')[0]];
    }
  }

  lemma SilentDrive(s: Sys, input: Input)
    requires Tracked(s) && !input.Dequeued? && LogOf(s.mgr, input) == []
    ensures var (m, f) := Next(s.mgr, input);
      && !f.Requeued? && (m == s.mgr || MgrTasks(m) == [])
      && (forall t :: t in MgrTasks(m) ==> InStep(s.log, t))
      && (m.Waiting? ==> m == s.mgr)
  {
    assert forall t :: t in MgrTasks(s.mgr) ==> IsOpen(s, t);
  }

  lemma {:induction false} DriveTracks(s: Sys, input: Input)
    requires Tracked(s) && Conserved(s) && !input.Dequeued?
    ensures Tracked(Drive(s, input))
  {
    var s' := Drive(s, input);
    DriveTask(s, input);
    DriveKeepsOthers(s, input);
    forall t | IsOpen(s', t) ensures InStep(s'.log, t) {
      if t !in MgrTasks(s'.mgr) {
        DriveOthers(s, input, t);
      }
    }
  }

  lemma DriveOthers(s: Sys, input: Input, t: Task)
    requires Tracked(s) && Conserved(s) && !input.Dequeued?
    requires IsOpen(Drive(s, input), t) && t !in MgrTasks(Drive(s, input).mgr)
    ensures InStep(Drive(s, input).log, t)
  {
    var s' := Drive(s, input);
    var (m, f) := Next(s.mgr, input);
    if f.Requeued? && t == f.task {
      DriveTask(s, input);
    } else {
      assert t in s.pending || t in s.queue || t in s.timers || t in Held(s.procs);
      assert IsOpen(s, t);
      if MgrTasks(s.mgr) != [] {
        MgrTaskAlone(s, t);
      }
      LogsItsTask(s.mgr, input);
      AppendOthers(s.log, LogOf(s.mgr, input), IdOf(t));
    }
  }

  /** Steps that log nothing about tasks and bring in no open task but brand new ones. */
  lemma QuietTracks(s: Sys, s': Sys, more: seq<Entry>)
    requires Tracked(s) && s'.log == s.log + more && s.nextVersion <= s'.nextVersion
    requires forall e :: e in more ==> About(e).None?
    requires forall t :: IsOpen(s', t) ==> IsOpen(s, t) || IsNew(s, t)
    requires s'.mgr.Waiting? ==> s'.mgr == s.mgr
    ensures Tracked(s')
  {
    AppendSilent(s.log, more);
    forall t | IsOpen(s', t) ensures InStep(s'.log, t) {
      AppendOthers(s.log, more, IdOf(t));
      if !IsOpen(s, t) {
        Untouched(s.log, IdOf(t));
      }
    }
    if s'.mgr.Waiting? {
      AppendOthers(s.log, more, IdOf(s.mgr.task));
    }
  }

  ghost predicate IsNew(s: Sys, t: Task) {
    t.version >= s.nextVersion && t.subIndex == 0 && t.systemTimer == INITIAL_TIMER
  }

  lemma {:induction false} ReplayTasksNew(cfg: Config, s: Sys, store: map<Key, Intent>, order: seq<Key>, c: string,
                                          v: int)
    requires s.nextVersion <= v
    ensures forall t :: t in ReplayTasks(cfg, store, order, c, v) ==> IsNew(s, t)
    ensures forall e :: e in ReplayLog(order, c, v) ==> About(e).None?
  {
    if order != [] {
      ReplayTasksNew(cfg, s, store, order[1..], c, v + 1);
    }
  }

  lemma {:induction false} HeldAfterSettle(procs: seq<Proc>, p: nat, tasks: seq<Task>, t: Task)
    requires p < |procs| && procs[p].Requested?
    ensures t in Held(procs[p := Gathered(tasks)]) ==> t in Held(procs) || t in tasks
  {
    var after := procs[p := Gathered(tasks)];
    if p == 0 {
      assert after[1..] == procs[1..];
    } else {
      assert after[1..] == procs[1..][p - 1 := Gathered(tasks)];
      HeldAfterSettle(procs[1..], p - 1, tasks, t);
    }
  }

  lemma {:induction false} HeldAfterFinish(procs: seq<Proc>, p: nat, t: Task)
    requires p < |procs| && procs[p].Gathered?
    ensures t in Held(Without(procs, p)) || t in procs[p].tasks <==> t in Held(procs)
  {
    HeldConcat(procs[..p], procs[p + 1..]);
    assert procs == procs[..p] + ([procs[p]] + procs[p + 1..]);
    HeldConcat(procs[..p], [procs[p]] + procs[p + 1..]);
    HeldConcat([procs[p]], procs[p + 1..]);
    HeldOne(procs[p]);
  }

  lemma RecordTracks(s: Sys, e: Event, comp: Component)
    requires Tracked(s)
    ensures Tracked(Record(s, e, comp).0)
  {
    var s' := Record(s, e, comp).0;
    HeldConcat(s.procs, [Requested(comp.name)]);
    HeldOne(Requested(comp.name));
    assert forall t :: IsOpen(s', t) ==> IsOpen(s, t);
    var more := RecordLogs(s, e, comp);
    QuietTracks(s, s', more);
  }

  lemma RecordLogs(s: Sys, e: Event, comp: Component) returns (more: seq<Entry>)
    ensures Record(s, e, comp).0.log == s.log + more && forall x :: x in more ==> About(x).None?
    ensures Record(s, e, comp).0.mgr == s.mgr && Record(s, e, comp).0.nextVersion == s.nextVersion
  {
    if !Current(s.store, e.key, e.version) || comp.replay {
      more := [];
    } else {
      more := [ReportEntry(e.key, e.version, comp)]
              + if AfterReport(s.store[e.key], comp).None? then [Removed(e.key)] else [];
    }
  }

  lemma RecordConserves(s: Sys, e: Event, comp: Component)
    requires Conserved(s)
    ensures Conserved(Record(s, e, comp).0)
  {
    var s' := Record(s, e, comp).0;
    forall id ensures Places(s', id) == Places(s, id) {
      HeldConcat(s.procs, [Requested(comp.name)]);
      HeldOne(Requested(comp.name));
      CountConcat(Held(s.procs), [], id);
    }
  }

  lemma ReportTracks(s: Sys, slot: Slot, comp: Component, delivered: bool)
    requires Tracked(s) && Conserved(s)
    ensures Tracked(DoReport(s, slot, comp, delivered))
  {
    if slot in s.hands {
      var e := s.hands[slot];
      var s1 := s.(hands := s.hands - {slot});
      assert forall t :: IsOpen(s1, t) ==> IsOpen(s, t);
      assert forall id :: Places(s1, id) == Places(s, id);
      RecordTracks(s1, e, comp);
      RecordConserves(s1, e, comp);
      var (s2, drop) := Record(s1, e, comp);
      if delivered {
        DriveTracks(s2, Received(Signal(e.nid, drop, comp)));
      }
    }
  }

  lemma {:induction false} PublishTracks(s: Sys, ok: bool)
    requires Tracked(s) && Conserved(s)
    ensures Tracked(DoPublish(s, ok))
  {
    if DoPublish(s, ok) != s {
      if ok {
        var t := s.mgr.task;
        var slot := Slot(t.key.kind, t.subs[t.subIndex + s.mgr.i]);
        var s1 := s.(hands := s.hands[slot := Event(t.key, t.version, s.nextNid)], nextNid := s.nextNid + 1);
        assert forall u :: IsOpen(s1, u) ==> IsOpen(s, u);
        assert forall id :: Places(s1, id) == Places(s, id);
        DriveTracks(s1, PublishOk(s.nextNid));
      } else {
        DriveTracks(s, PublishBusy);
      }
    }
  }

  lemma DequeueTracks(s: Sys)
    requires Tracked(s)
    ensures Tracked(DoDequeue(s))
  {
    if s.mgr.Idle? && s.queue != [] {
      var s' := DoDequeue(s);
      assert At(s.queue[0], 0) == s.queue[0];
      assert s.queue == [s.queue[0]] + s.queue[1..];
      QuietTracks(s, s', []);
    }
  }

  lemma FinishTracks(s: Sys, p: nat)
    requires Tracked(s)
    ensures Tracked(DoFinish(s, p))
  {
    if p < |s.procs| && s.procs[p].Gathered? && s.mgr.AwaitingReplay? {
      var s' := DoFinish(s, p);
      forall t ensures IsOpen(s', t) ==> IsOpen(s, t) {
        HeldAfterFinish(s.procs, p, t);
      }
      QuietTracks(s, s', []);
    }
  }

  lemma SettleTracks(s: Sys, s': Sys, p: nat, tasks: seq<Task>, more: seq<Entry>)
    requires Tracked(s) && p < |s.procs| && s.procs[p].Requested?
    requires s'.procs == s.procs[p := Gathered(tasks)] && s'.log == s.log + more
    requires s'.pending == s.pending && s'.queue == s.queue && s'.timers == s.timers && s'.mgr == s.mgr
    requires s.nextVersion <= s'.nextVersion
    requires forall t :: t in tasks ==> IsNew(s, t)
    requires forall e :: e in more ==> About(e).None?
    ensures Tracked(s')
  {
    forall t ensures IsOpen(s', t) ==> IsOpen(s, t) || IsNew(s, t) {
      HeldAfterSettle(s.procs, p, tasks, t);
    }
    QuietTracks(s, s', more);
  }

  lemma StepTracks(cfg: Config, s: Sys, step: Step)
    requires Tracked(s) && Conserved(s)
    ensures Tracked(Apply(cfg, s, step))
  {
    var s' := Apply(cfg, s, step);
    match step {
      case ApiCreate(key) => if s' != s { QuietTracks(s, s', [Created(key, s.nextVersion)]); }
      case ApiDelete(key) => if s' != s { QuietTracks(s, s', [Marked(key, s.nextVersion)]); }
      case Enqueue(j) =>
        if s' != s {
          forall t ensures IsOpen(s', t) ==> IsOpen(s, t) { InWithout(s.pending, j, t); }
          QuietTracks(s, s', []);
        }
      case Fire(j) =>
        if j < |s.timers| {
          forall t ensures IsOpen(s', t) ==> IsOpen(s, t) { InWithout(s.timers, j, t); }
          QuietTracks(s, s', []);
        }
      case Dequeue => DequeueTracks(s);
      case Publish(ok) => PublishTracks(s, ok);
      case Report(slot, comp, delivered) => ReportTracks(s, slot, comp, delivered);
      case Quit(slot) => QuietTracks(s, s', []);
      case Timeout => if s.mgr.Waiting? { DriveTracks(s, TimedOut); }
      case Gather(p, order) =>
        if p < |s.procs| && s.procs[p].Requested? {
          var c := s.procs[p].component;
          ReplayTasksNew(cfg, s, s.store, order, c, s.nextVersion);
          SettleTracks(s, s', p, ReplayTasks(cfg, s.store, order, c, s.nextVersion),
                       ReplayLog(order, c, s.nextVersion));
        }
      case Abort(p) => if p < |s.procs| && s.procs[p].Requested? { SettleTracks(s, s', p, [], []); }
      case Finish(p) => FinishTracks(s, p);
    }
  }

  lemma {:induction false} RunTracks(cfg: Config, steps: seq<Step>)
    ensures Tracked(Run(cfg, steps))
  {
    if steps != [] {
      RunTracks(cfg, steps[..|steps| - 1]);
      RunConserves(cfg, steps[..|steps| - 1]);
      StepTracks(cfg, Run(cfg, steps[..|steps| - 1]), steps[|steps| - 1]);
    }
  }

  // ---------------------------------------------------------------------
  // What the log of every run looks like
  // ---------------------------------------------------------------------

  /** Progress past a subscriber means that subscriber acknowledged the notification that was out. */
  lemma {:induction false} PassedMeansAcked(log: seq<Entry>, id: Id) returns (m: nat, nid: int)
    requires WellOrdered(log) && Progress(log, id) > 0
    ensures m < |log| && IsAck(log[m], id, Progress(log, id) - 1, nid)
    ensures Outstanding(log[..m], id) == Some(Call(nid, log[m].name))
  {
    var before := log[..|log| - 1];
    var last := log[|log| - 1];
    assert Fits(before, last);
    PrefixOrdered(log, |log| - 1);
    if last.Acked? && last.id == id {
      m, nid := |log| - 1, last.nid;
    } else {
      m, nid := PassedMeansAcked(before, id);
      assert before[..m] == log[..m];
    }
  }

  lemma PrefixOrdered(log: seq<Entry>, n: nat)
    requires WellOrdered(log) && n <= |log|
    ensures WellOrdered(log[..n])
  {
    forall i | 0 <= i < n ensures Fits(log[..n][..i], log[..n][i]) {
      assert log[..n][..i] == log[..i];
      assert Fits(log[..i], log[i]);
    }
  }

  /** The notification that is out is in the log, and nothing was said about its task since. */
  lemma {:induction false} OutstandingIsLogged(log: seq<Entry>, id: Id) returns (n: nat)
    requires WellOrdered(log) && Outstanding(log, id).Some?
    ensures n < |log| && IsNotice(log[n], id, Progress(log, id), Outstanding(log, id).value.nid)
    ensures log[n].name == Outstanding(log, id).value.name
    ensures forall i :: n < i < |log| ==> About(log[i]) != Some(id)
  {
    var before := log[..|log| - 1];
    if About(log[|log| - 1]) == Some(id) {
      n := |log| - 1;
      assert Fits(before, log[n]);
    } else {
      PrefixOrdered(log, |log| - 1);
      n := OutstandingIsLogged(before, id);
      assert forall i :: n < i < |before| ==> log[i] == before[i];
    }
  }

  /** Subscriber `k` got notification `nid` at `a` and that very notification was answered Success at `m`. */
  ghost predicate Delivered(log: seq<Entry>, id: Id, k: nat, nid: int, a: nat, m: nat) {
    && a < m < |log| && IsNotice(log[a], id, k, nid) && IsAck(log[m], id, k, nid)
    && log[a].name == log[m].name
    && forall i :: a < i < m ==> About(log[i]) != Some(id)
  }

  /**
   Priority-ordered delivery. In every run, before a task notifies its (k+1)-th
   subscriber its k-th one answered Success to the very notification that was out to it.
   */
  lemma {:induction false} NextOnlyAfterSuccess(cfg: Config, steps: seq<Step>, n: nat, id: Id, k: nat, nid: int)
    requires n < |Run(cfg, steps).log| && IsNotice(Run(cfg, steps).log[n], id, k + 1, nid)
    ensures exists nid': int, a: nat, m: nat :: m < n && Delivered(Run(cfg, steps).log, id, k, nid', a, m)
  {
    var log := Run(cfg, steps).log;
    RunTracks(cfg, steps);
    assert Fits(log[..n], log[n]);
    PrefixOrdered(log, n);
    var m, nid' := PassedMeansAcked(log[..n], id);
    assert log[..n][..m] == log[..m];
    assert Fits(log[..m], log[m]);
    PrefixOrdered(log, m);
    var a := OutstandingIsLogged(log[..m], id);
    assert forall i :: a < i < m ==> log[i] == log[..m][i];
    assert Delivered(log, id, k, nid', a, m);
  }

  /** Where a task stands after a stretch of the log without notifications of its own. */
  lemma {:induction false} QuietProgress(log: seq<Entry>, a: nat, b: nat, id: Id, k: nat, nid: int)
    requires WellOrdered(log) && a < b <= |log| && IsNotice(log[a], id, k, nid)
    requires forall i :: a < i < b && log[i].Notified? ==> log[i].id != id
    ensures
      || (Progress(log[..b], id) == k && forall i :: a < i < b && log[i].Acked? ==> log[i].id != id)
      || (Progress(log[..b], id) == k + 1 && exists m :: a < m < b && IsAck(log[m], id, k, nid))
    ensures Outstanding(log[..b], id).Some? ==> Outstanding(log[..b], id) == Some(Call(nid, log[a].name))
    ensures Progress(log[..b], id) == k + 1 ==> Outstanding(log[..b], id).None?
  {
    assert log[..b][..|log[..b]| - 1] == log[..b - 1];
    if b > a + 1 {
      QuietProgress(log, a, b - 1, id, k, nid);
      assert Fits(log[..b - 1], log[b - 1]);
      if log[b - 1].Acked? && log[b - 1].id == id {
        assert IsAck(log[b - 1], id, k, nid);
      }
    }
  }

  /**
   A task is retried exactly where it stopped: two successive notifications of it go to
   the same subscriber, or to the next one when the first was acknowledged in between.
   */
  lemma {:induction false} RetriedWhereItStopped(cfg: Config, steps: seq<Step>, a: nat, b: nat, id: Id, k: nat,
                                                 k': nat, nid: int, nid': int)
    requires a < b < |Run(cfg, steps).log|
    requires IsNotice(Run(cfg, steps).log[a], id, k, nid) && IsNotice(Run(cfg, steps).log[b], id, k', nid')
    requires forall i :: a < i < b && Run(cfg, steps).log[i].Notified? ==> Run(cfg, steps).log[i].id != id
    ensures var log := Run(cfg, steps).log;
      || (k' == k && forall i :: a < i < b && log[i].Acked? ==> log[i].id != id)
      || (k' == k + 1 && exists m :: a < m < b && IsAck(log[m], id, k, nid))
  {
    var log := Run(cfg, steps).log;
    RunTracks(cfg, steps);
    assert Fits(log[..b], log[b]);
    QuietProgress(log, a, b, id, k, nid);
  }

  /** The delivery timer of an open task is 2^k seconds after k delivery failures since its last status. */
  lemma {:induction false} TimerCountsFailures(cfg: Config, steps: seq<Step>, t: Task)
    requires IsOpen(Run(cfg, steps), t)
    ensures t.systemTimer == Pow2(Failures(Run(cfg, steps).log, IdOf(t)))
    ensures t.subIndex == Progress(Run(cfg, steps).log, IdOf(t))
  {
    RunTracks(cfg, steps);
  }

  // ---------------------------------------------------------------------
  // Open tasks have a next subscriber
  // ---------------------------------------------------------------------

  ghost predicate InList(s: Sys) {
    forall t :: IsOpen(s, t) ==> t.subIndex < |t.subs|
  }

  lemma DriveInList(s: Sys, input: Input)
    requires InList(s) && !input.Dequeued?
    ensures InList(Drive(s, input))
  {
    var (m, f) := Next(s.mgr, input);
    DriveKeepsOthers(s, input);
    forall t | IsOpen(Drive(s, input), t) ensures t.subIndex < |t.subs| {
      if f.Requeued? && t == f.task {
        assert IsOpen(s, MgrTasks(s.mgr)[0]);
      } else if t !in MgrTasks(m) {
        assert IsOpen(s, t);
      }
    }
  }

  lemma PublishInList(s: Sys, ok: bool)
    requires InList(s)
    ensures InList(DoPublish(s, ok))
  {
    if DoPublish(s, ok) != s {
      if ok {
        var t := s.mgr.task;
        var slot := Slot(t.key.kind, t.subs[t.subIndex + s.mgr.i]);
        var s1 := s.(hands := s.hands[slot := Event(t.key, t.version, s.nextNid)], nextNid := s.nextNid + 1);
        assert forall u :: IsOpen(s1, u) ==> IsOpen(s, u);
        DriveInList(s1, PublishOk(s.nextNid));
      } else {
        DriveInList(s, PublishBusy);
      }
    }
  }

  lemma ReportInList(s: Sys, slot: Slot, comp: Component, delivered: bool)
    requires InList(s)
    ensures InList(DoReport(s, slot, comp, delivered))
  {
    if slot in s.hands {
      var e := s.hands[slot];
      var (s2, drop) := Record(s.(hands := s.hands - {slot}), e, comp);
      HeldConcat(s.procs, [Requested(comp.name)]);
      HeldOne(Requested(comp.name));
      assert forall t :: IsOpen(s2, t) ==> IsOpen(s, t);
      if delivered {
        DriveInList(s2, Received(Signal(e.nid, drop, comp)));
      }
    }
  }

  /** The module that asks for a replay is contacted by every task of it. */
  lemma ReplayTasksInList(cfg: Config, store: map<Key, Intent>, order: seq<Key>, c: string, v: int, t: Task)
    requires NoDup(order) && t in ReplayTasks(cfg, store, order, c, v)
    requires forall k :: k in order ==> k in store && c in cfg.Of(k.kind) && Follows(store[k], cfg.Of(k.kind))
    ensures t.subIndex < |t.subs|
  {
    GatherAt(cfg, store, order, c, v);
    var i :| 0 <= i < |order| && ReplayTasks(cfg, store, order, c, v)[i] == t;
    var k := order[i];
    assert k in order;
    PreparedSubsExact(store[k].comps, c, cfg.Of(k.kind));
    var j := IndexOfName(store[k].comps, cfg.Of(k.kind), c);
    assert PreparedComps(store[k].comps, c)[j].status == Pending;
  }

  lemma GatherInList(cfg: Config, s: Sys, p: nat, order: seq<Key>)
    requires InList(s) && Possible(cfg, s, Gather(p, order))
    requires forall k :: k in s.store ==> Follows(s.store[k], cfg.Of(k.kind))
    ensures InList(DoGather(cfg, s, p, order))
  {
    if p < |s.procs| && s.procs[p].Requested? {
      var c := s.procs[p].component;
      var tasks := ReplayTasks(cfg, s.store, order, c, s.nextVersion);
      forall t | IsOpen(DoGather(cfg, s, p, order), t) ensures t.subIndex < |t.subs| {
        HeldAfterSettle(s.procs, p, tasks, t);
        if !IsOpen(s, t) {
          ReplayTasksInList(cfg, s.store, order, c, s.nextVersion, t);
        }
      }
    }
  }

  lemma {:induction false} StepInList(cfg: Config, s: Sys, step: Step)
    requires InList(s) && Possible(cfg, s, step)
    requires forall k :: k in s.store ==> Follows(s.store[k], cfg.Of(k.kind))
    ensures InList(Apply(cfg, s, step))
  {
    var s' := Apply(cfg, s, step);
    match step {
      case ApiCreate(key) =>
        assert forall t :: IsOpen(s', t) ==> IsOpen(s, t) || t == NewTask(key, s.nextVersion, cfg.Of(key.kind));
      case ApiDelete(key) =>
        assert forall t :: IsOpen(s', t) ==> IsOpen(s, t) || t == NewTask(key, s.nextVersion, cfg.Of(key.kind));
      case Dequeue => DequeueInList(s);
      case Publish(ok) => PublishInList(s, ok);
      case Report(slot, comp, delivered) => ReportInList(s, slot, comp, delivered);
      case Timeout => if s.mgr.Waiting? { DriveInList(s, TimedOut); }
      case Gather(p, order) => GatherInList(cfg, s, p, order);
      case _ => MoveInList(cfg, s, step);
    }
  }

  lemma MoveInList(cfg: Config, s: Sys, step: Step)
    requires InList(s) && (step.Enqueue? || step.Fire? || step.Quit? || step.Abort? || step.Finish?)
    ensures InList(Apply(cfg, s, step))
  {
    var s' := Apply(cfg, s, step);
    if s' != s {
      forall t | IsOpen(s', t) ensures IsOpen(s, t) {
        match step
        case Enqueue(j) => InWithout(s.pending, j, t);
        case Fire(j) => InWithout(s.timers, j, t);
        case Quit(slot) =>
        case Abort(p) => HeldAfterSettle(s.procs, p, [], t);
        case Finish(p) => HeldAfterFinish(s.procs, p, t);
      }
    }
  }

  lemma DequeueInList(s: Sys)
    requires InList(s)
    ensures InList(DoDequeue(s))
  {
    if s.mgr.Idle? && s.queue != [] {
      assert IsOpen(s, s.queue[0]);
      assert s.queue == [s.queue[0]] + s.queue[1..];
      assert At(s.queue[0], 0) == s.queue[0];
      assert forall t :: IsOpen(DoDequeue(s), t) ==> IsOpen(s, t);
    }
  }

  lemma {:induction false} RunInList(cfg: Config, steps: seq<Step>)
    requires cfg.Valid() && PossibleRun(cfg, steps)
    ensures InList(Run(cfg, steps))
  {
    if steps != [] {
      var before := steps[..|steps| - 1];
      RunInList(cfg, before);
      RunFollows(cfg, before);
      StepInList(cfg, Run(cfg, before), steps[|steps| - 1]);
    }
  }

  lemma RunFollows(cfg: Config, steps: seq<Step>)
    requires cfg.Valid() && PossibleRun(cfg, steps)
    ensures forall k :: k in Run(cfg, steps).store ==> Follows(Run(cfg, steps).store[k], cfg.Of(k.kind))
  {
    RunFaithful(cfg, steps);
    forall k | k in Run(cfg, steps).store ensures Follows(Run(cfg, steps).store[k], cfg.Of(k.kind)) {
      assert Told(cfg, Run(cfg, steps).log, k, Run(cfg, steps).store[k]);
    }
  }

  /** Whatever modules do, an open task has a next subscriber: its index stays within its list. */
  lemma {:induction false} IndexStaysInList(cfg: Config, steps: seq<Step>, t: Task)
    requires cfg.Valid() && PossibleRun(cfg, steps) && IsOpen(Run(cfg, steps), t)
    ensures t.subIndex < |t.subs|
  {
    RunInList(cfg, steps);
  }

  // ---------------------------------------------------------------------
  // What an answer stands for
  // ---------------------------------------------------------------------

  predicate IsAnswer(e: Entry) {
    e.Acked? || e.Answered?
  }

  /** Where the report is that was written to the store just before the answer at `n`. */
  function ReportBefore(log: seq<Entry>, n: nat): int
    requires n < |log| && IsAnswer(log[n])
  {
    if n > 0 && log[n - 1] == Removed(log[n].id.key) then n - 2 else n - 1
  }

  /** `r` is the report of the module that answered, and says what the answer `e` says. */
  predicate Carries(r: Entry, e: Entry)
    requires IsAnswer(e)
  {
    && r.Reported? && r.key == e.id.key && r.version == e.id.version && r.component == e.name
    && (r.ok <==> e.Acked?)
    && (e.Answered? ==> e.after == Some(r.timer))
  }

  /**
   The answer at `n` directly follows a report written to the store for the object and the
   version of the task by the module that was notified: a Success when it is an
   acknowledgement, else an Error whose timer is the time after which the task comes back.
   */
  ghost predicate FollowsReport(log: seq<Entry>, n: nat)
    requires n < |log| && IsAnswer(log[n])
  {
    ReportBefore(log, n) >= 0 && Carries(log[ReportBefore(log, n)], log[n])
  }

  ghost predicate AnswersFollowReports(log: seq<Entry>) {
    forall n :: 0 <= n < |log| && IsAnswer(log[n]) ==> FollowsReport(log, n)
  }

  lemma AnswersAppend(log: seq<Entry>, more: seq<Entry>)
    requires AnswersFollowReports(log) && forall e :: e in more ==> !IsAnswer(e)
    ensures AnswersFollowReports(log + more)
  {
    assert forall i :: 0 <= i < |more| ==> more[i] in more;
    forall n | 0 <= n < |log + more| && IsAnswer((log + more)[n]) ensures FollowsReport(log + more, n) {
      assert FollowsReport(log, n);
    }
  }

  lemma {:induction false} AnswersStep(cfg: Config, s: Sys, step: Step)
    requires MgrOk(s) && AnswersFollowReports(s.log) && Honest(s, step)
    ensures AnswersFollowReports(Apply(cfg, s, step).log)
  {
    if step.Report? {
      if step.slot in s.hands {
        ReportAnswers(s, step.slot, step.comp, step.delivered);
      }
    } else {
      var more := LogGrows(cfg, s, step);
      AnswersAppend(s.log, more);
    }
  }

  lemma DriveNeverAnswers(s: Sys, input: Input)
    requires !input.Received?
    ensures Drive(s, input).log == s.log + LogOf(s.mgr, input) && forall e :: e in LogOf(s.mgr, input) ==> !IsAnswer(e)
  {}

  /** Steps that are no reports log no answer. */
  lemma LogGrows(cfg: Config, s: Sys, step: Step) returns (more: seq<Entry>)
    requires !step.Report?
    ensures Apply(cfg, s, step).log == s.log + more && forall e :: e in more ==> !IsAnswer(e)
  {
    more := [];
    match step {
      case ApiCreate(key) => if Apply(cfg, s, step) != s { more := [Created(key, s.nextVersion)]; }
      case ApiDelete(key) => if Apply(cfg, s, step) != s { more := [Marked(key, s.nextVersion)]; }
      case Dequeue =>
        if s.mgr.Idle? && s.queue != [] {
          DriveNeverAnswers(s.(queue := s.queue[1..]), Dequeued(s.queue[0]));
        }
      case Publish(ok) => more := PublishLogGrows(s, ok);
      case Timeout =>
        if s.mgr.Waiting? {
          DriveNeverAnswers(s, TimedOut);
          more := LogOf(s.mgr, TimedOut);
        }
      case Gather(p, order) =>
        if p < |s.procs| && s.procs[p].Requested? {
          ReplayTasksNew(cfg, s, s.store, order, s.procs[p].component, s.nextVersion);
          more := ReplayLog(order, s.procs[p].component, s.nextVersion);
        }
      case _ =>
    }
  }

  lemma PublishLogGrows(s: Sys, ok: bool) returns (more: seq<Entry>)
    ensures DoPublish(s, ok).log == s.log + more && forall e :: e in more ==> !IsAnswer(e)
  {
    more := if DoPublish(s, ok) == s then [] else LogOf(s.mgr, if ok then PublishOk(s.nextNid) else PublishBusy);
  }

  lemma {:induction false} ReportAnswers(s: Sys, slot: Slot, comp: Component, delivered: bool)
    requires MgrOk(s) && AnswersFollowReports(s.log) && slot in s.hands && comp.name == slot.name
    requires comp.status == Success || comp.status == Error
    ensures AnswersFollowReports(DoReport(s, slot, comp, delivered).log)
  {
    var e := s.hands[slot];
    var (s2, drop) := Record(s.(hands := s.hands - {slot}), e, comp);
    RecordAnswers(s, slot, comp);
    if delivered {
      AnsweredByReport(s, slot, comp);
      var more := LogOf(s2.mgr, Received(Signal(e.nid, drop, comp)));
      assert DoReport(s, slot, comp, delivered).log == s2.log + more;
      if more == [] {
        assert s2.log + more == s2.log;
      } else {
        AnswerAppend(s2.log, more[0], e, comp);
        assert more == [more[0]];
      }
    } else {
      assert DoReport(s, slot, comp, delivered).log == s2.log;
    }
  }

  /** The log ends with the report written for the event, and its removal if that finished a deletion. */
  ghost predicate EndsWithReport(log: seq<Entry>, e: Event, comp: Component) {
    var r := ReportEntry(e.key, e.version, comp);
    || (|log| >= 1 && log[|log| - 1] == r)
    || (|log| >= 2 && log[|log| - 1] == Removed(e.key) && log[|log| - 2] == r)
  }

  lemma RecordAnswers(s: Sys, slot: Slot, comp: Component)
    requires AnswersFollowReports(s.log) && slot in s.hands
    ensures var (s2, drop) := Record(s.(hands := s.hands - {slot}), s.hands[slot], comp);
      && AnswersFollowReports(s2.log) && s2.mgr == s.mgr
      && (!drop ==> EndsWithReport(s2.log, s.hands[slot], comp))
  {
    var (s2, drop) := Record(s.(hands := s.hands - {slot}), s.hands[slot], comp);
    AnswersAppend(s.log, s2.log[|s.log|..]);
    assert s2.log == s.log + s2.log[|s.log|..];
  }

  lemma AnsweredByReport(s: Sys, slot: Slot, comp: Component)
    requires MgrOk(s) && slot in s.hands && comp.name == slot.name
    requires comp.status == Success || comp.status == Error
    ensures var (s2, drop) := Record(s.(hands := s.hands - {slot}), s.hands[slot], comp);
      var more := LogOf(s2.mgr, Received(Signal(s.hands[slot].nid, drop, comp)));
      more != [] ==>
        && !drop && |more| == 1
        && IsAnswer(more[0])
        && Carries(ReportEntry(s.hands[slot].key, s.hands[slot].version, comp), more[0])
  {}

  lemma AnswerAppend(log: seq<Entry>, a: Entry, e: Event, comp: Component)
    requires AnswersFollowReports(log) && EndsWithReport(log, e, comp)
    requires IsAnswer(a) && Carries(ReportEntry(e.key, e.version, comp), a)
    ensures AnswersFollowReports(log + [a])
  {
    forall n | 0 <= n < |log + [a]| && IsAnswer((log + [a])[n]) ensures FollowsReport(log + [a], n) {
      if n < |log| {
        assert FollowsReport(log, n);
      }
    }
  }

  lemma {:induction false} RunAnswers(cfg: Config, steps: seq<Step>)
    requires cfg.Valid() && HonestRun(cfg, steps)
    ensures AnswersFollowReports(Run(cfg, steps).log)
  {
    if steps != [] {
      RunAnswers(cfg, steps[..|steps| - 1]);
      RunKeeps(cfg, steps[..|steps| - 1]);
      AnswersStep(cfg, Run(cfg, steps[..|steps| - 1]), steps[|steps| - 1]);
    }
  }

  /**
   In honest runs every status the manager took was just written to the store, by the module
   it had notified, for that object and version: an acknowledgement is its Success. After its
   Error the task waits exactly as long as the module asked for.
   */
  lemma {:induction false} AnswerWasWritten(cfg: Config, steps: seq<Step>, n: nat)
    requires cfg.Valid() && HonestRun(cfg, steps)
    requires n < |Run(cfg, steps).log| && IsAnswer(Run(cfg, steps).log[n])
    ensures var log := Run(cfg, steps).log; var r := ReportBefore(log, n);
      && 0 <= r < n && log[r].Reported?
      && log[r].key == log[n].id.key && log[r].version == log[n].id.version && log[r].component == log[n].name
      && (log[r].ok <==> log[n].Acked?)
      && (log[n].Answered? ==> log[n].after == Some(log[r].timer))
  {
    RunAnswers(cfg, steps);
    assert FollowsReport(Run(cfg, steps).log, n);
  }

  /** In every run a task that could not be delivered comes back after 2^k seconds, k the failures in a row. */
  lemma {:induction false} RetryDelayDoubles(cfg: Config, steps: seq<Step>, n: nat)
    requires n < |Run(cfg, steps).log| && Run(cfg, steps).log[n].Missed?
    ensures var log := Run(cfg, steps).log;
      log[n].after == Some(Pow2(Failures(log[..n + 1], log[n].id)))
  {
    RunTracks(cfg, steps);
    MissedDelay(Run(cfg, steps).log, n);
  }

  lemma MissedDelay(log: seq<Entry>, n: nat)
    requires WellOrdered(log) && n < |log| && log[n].Missed?
    ensures log[n].after == Some(Pow2(Failures(log[..n + 1], log[n].id)))
  {
    assert Fits(log[..n], log[n]);
    assert log[..n + 1] == log[..n] + [log[n]];
    AfterOne(log[..n], log[n], log[n].id);
  }

  /**
   A subscriber that is busy or does not answer in time: the manager is free again, and the
   task waits on a timer to be tried again at that subscriber.
   */
  lemma UnreachedIsRetried(cfg: Config, s: Sys, step: Step)
    requires (step == Timeout && s.mgr.Waiting?) || (step == Publish(false) && s.mgr.Publishing?)
    requires s.mgr.task.subIndex + s.mgr.i < |s.mgr.task.subs|
    ensures var s' := Apply(cfg, s, step); var t := s.mgr.task;
      && s'.mgr == Idle
      && s'.timers == s.timers + [t.(subIndex := t.subIndex + s.mgr.i, systemTimer := 2 * t.systemTimer)]
  {}
}
