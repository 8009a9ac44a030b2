/**
 The relational store and the realization protocol together: InfraDB calls write the
 store and start tasks, reports and replays rewrite it. The store always shows what the
 protocol's abstract one holds, so the protocol's theorems are about the stored objects.
 */
module Gateway {
  import opened Basics
  import opened Intents
  import opened TaskManager
  import opened Protocol
  import opened NoLostIntent
  import opened Realization
  import opened Teardown
  import opened UpStatus
  import opened Store
  import opened StoreIntegrity
  import opened StoreRuns
  import opened StoreView

  datatype Gw = Gw(db: DB, sys: Sys)

  datatype Act =
    | Create(op: Op)
    | Remove(key: Key)
    | Other(step: Step)

  const Start := Gw(EmptyDB, Init)

  function Do(cfg: Config, g: Gw, act: Act): Gw {
    match act
    case Create(op) =>
      if !Creates(op) then g
      else
        var (db, out) := CreateOf(cfg, g.db, op);
        Gw(db, if out.Done? then DoCreate(cfg, g.sys, KeyOf(op)) else g.sys)
    case Remove(key) =>
      var (db, out) := DeleteOf(cfg, g.db, key, g.sys.nextVersion);
      Gw(db, if out.Done? then DoDelete(cfg, g.sys, key) else g.sys)
    case Other(step) =>
      Gw(Rewritten(g, step), Apply(cfg, g.sys, step))
  }

  /** What the protocol's own steps write to the store. */
  function Rewritten(g: Gw, step: Step): DB {
    if step.Report? && step.slot in g.sys.hands then
      var e := g.sys.hands[step.slot];
      StatusOf(g.db, e.key, e.version, step.comp).0
    else if step.Gather? && step.p < |g.sys.procs| && g.sys.procs[step.p].Requested? then
      GatherAll(g.db, step.order, g.sys.procs[step.p].component, g.sys.nextVersion)
    else g.db
  }

  function RunActs(cfg: Config, acts: seq<Act>): Gw {
    if acts == [] then Start else Do(cfg, RunActs(cfg, acts[..|acts| - 1]), acts[|acts| - 1])
  }

  /** Callers create carefully, with new objects; modules and replays are honest. */
  ghost predicate Proper(cfg: Config, g: Gw, act: Act) {
    match act
    case Create(op) =>
      && Creates(op)
      && (cfg.Of(KeyOf(op).kind) != [] ==>
           && StatusIn(op) == NewIntent(cfg.Of(KeyOf(op).kind), g.sys.nextVersion)
           && Built(cfg, op) && Careful(cfg, g.db, op))
    case Remove(key) => true
    case Other(step) =>
      !step.ApiCreate? && !step.ApiDelete? && Possible(cfg, g.sys, step) && Honest(g.sys, step)
  }

  ghost predicate ProperRun(cfg: Config, acts: seq<Act>) {
    acts != [] ==>
      var before := acts[..|acts| - 1];
      ProperRun(cfg, before) && Proper(cfg, RunActs(cfg, before), acts[|acts| - 1])
  }

  /** Store and protocol agree. */
  ghost predicate Agree(cfg: Config, g: Gw) {
    Integrity(cfg, g.db) && View(g.db) == g.sys.store
  }

  /** The protocol step an action amounts to; a refused call is none. */
  function StepOf(cfg: Config, g: Gw, act: Act): Option<Step> {
    match act
    case Create(op) =>
      if Creates(op) && CreateOf(cfg, g.db, op).1.Done? then Some(ApiCreate(KeyOf(op))) else None
    case Remove(key) =>
      if DeleteOf(cfg, g.db, key, g.sys.nextVersion).1.Done? then Some(ApiDelete(key)) else None
    case Other(step) => Some(step)
  }

  lemma {:induction false} CreateAgrees(cfg: Config, g: Gw, op: Op)
    requires Agree(cfg, g) && Proper(cfg, g, Create(op))
    ensures Agree(cfg, Do(cfg, g, Create(op)))
  {
    CreateKeepsIntegrity(cfg, g, op);
    CreateKeepsView(cfg, g, op);
  }

  lemma CreateIsPerform(cfg: Config, db: DB, op: Op)
    requires Creates(op)
    ensures CreateOf(cfg, db, op).0 == Perform(cfg, db, op)
    ensures cfg.Of(KeyOf(op).kind) == [] ==> CreateOf(cfg, db, op) == (db, Failed(NoSubscribers))
  {}

  lemma {:induction false} CreateKeepsIntegrity(cfg: Config, g: Gw, op: Op)
    requires Agree(cfg, g) && Proper(cfg, g, Create(op))
    ensures Integrity(cfg, CreateOf(cfg, g.db, op).0)
  {
    CreateIsPerform(cfg, g.db, op);
    if cfg.Of(KeyOf(op).kind) != [] {
      KeepsIffCareful(cfg, g.db, op);
    }
  }

  lemma {:induction false} CreateKeepsView(cfg: Config, g: Gw, op: Op)
    requires Agree(cfg, g) && Proper(cfg, g, Create(op))
    ensures View(Do(cfg, g, Create(op)).db) == Do(cfg, g, Create(op)).sys.store
  {
    CreateIsPerform(cfg, g.db, op);
    CreationsRefine(cfg, g.db, op);
    if cfg.Of(KeyOf(op).kind) != [] {
      CreatesInStore(cfg, g.sys, KeyOf(op));
    }
  }

  lemma CreatesInStore(cfg: Config, s: Sys, k: Key)
    requires cfg.Of(k.kind) != []
    ensures DoCreate(cfg, s, k).store == s.store[k := NewIntent(cfg.Of(k.kind), s.nextVersion)]
  {}

  lemma {:induction false} RemoveAgrees(cfg: Config, g: Gw, key: Key)
    requires Agree(cfg, g)
    ensures Agree(cfg, Do(cfg, g, Remove(key)))
  {
    DeleteOfKeeps(cfg, g.db, key, g.sys.nextVersion);
    DeletionsRefine(cfg, g.db, key, g.sys.nextVersion);
  }

  lemma ReportStore(s: Sys, slot: Slot, comp: Component, delivered: bool)
    requires slot in s.hands
    ensures var e := s.hands[slot];
      DoReport(s, slot, comp, delivered).store ==
        if Current(s.store, e.key, e.version) && !comp.replay then StoreAfterReport(s.store, e.key, comp) else s.store
  {}

  lemma {:induction false} ReportAgrees(cfg: Config, g: Gw, slot: Slot, comp: Component, delivered: bool)
    requires Agree(cfg, g) && slot in g.sys.hands
    ensures Agree(cfg, Do(cfg, g, Other(Step.Report(slot, comp, delivered))))
  {
    var e := g.sys.hands[slot];
    StatusOfKeeps(cfg, g.db, e.key, e.version, comp);
    ReportView(cfg, g, slot, comp, delivered);
  }

  lemma {:induction false} ReportView(cfg: Config, g: Gw, slot: Slot, comp: Component, delivered: bool)
    requires Agree(cfg, g) && slot in g.sys.hands
    ensures var e := g.sys.hands[slot];
      View(StatusOf(g.db, e.key, e.version, comp).0) == DoReport(g.sys, slot, comp, delivered).store
  {
    var e := g.sys.hands[slot];
    ReportStore(g.sys, slot, comp, delivered);
    ReportsRefine(cfg, g.db, e.key, e.version, comp);
    StatusOfShape(cfg, g.db, e.key, e.version, comp);
    var (db, out, verdict) := StatusOf(g.db, e.key, e.version, comp);
    assert verdict.Counts? <==> Current(g.sys.store, e.key, e.version) && !comp.replay;
  }

  lemma GatherStore(cfg: Config, s: Sys, p: nat, order: seq<Key>)
    requires p < |s.procs| && s.procs[p].Requested?
    ensures DoGather(cfg, s, p, order).store ==
      StoreAfterGather(s.store, order, s.procs[p].component, s.nextVersion)
  {}

  lemma {:induction false} GatherAgrees(cfg: Config, g: Gw, p: nat, order: seq<Key>)
    requires Agree(cfg, g) && p < |g.sys.procs| && g.sys.procs[p].Requested?
    ensures Agree(cfg, Do(cfg, g, Other(Step.Gather(p, order))))
  {
    GathersRefine(cfg, g.db, order, g.sys.procs[p].component, g.sys.nextVersion);
    GatherStore(cfg, g.sys, p, order);
  }

  lemma {:induction false} QuietAgrees(cfg: Config, g: Gw, step: Step)
    requires Agree(cfg, g) && !step.ApiCreate? && !step.ApiDelete?
    requires step.Report? ==> step.slot !in g.sys.hands
    requires step.Gather? ==> !(step.p < |g.sys.procs| && g.sys.procs[step.p].Requested?)
    ensures Agree(cfg, Do(cfg, g, Other(step)))
  {
    QuietStore(cfg, g.sys, step);
  }

  lemma QuietStore(cfg: Config, s: Sys, step: Step)
    requires !step.ApiCreate? && !step.ApiDelete?
    requires step.Report? ==> step.slot !in s.hands
    requires step.Gather? ==> !(step.p < |s.procs| && s.procs[step.p].Requested?)
    ensures Apply(cfg, s, step).store == s.store
  {}

  /** Every action keeps store and protocol in agreement. */
  lemma {:induction false} DoAgrees(cfg: Config, g: Gw, act: Act)
    requires Agree(cfg, g) && Proper(cfg, g, act)
    ensures Agree(cfg, Do(cfg, g, act))
  {
    match act
    case Create(op) => CreateAgrees(cfg, g, op);
    case Remove(key) => RemoveAgrees(cfg, g, key);
    case Other(step) =>
      if step.Report? && step.slot in g.sys.hands {
        ReportAgrees(cfg, g, step.slot, step.comp, step.delivered);
      } else if step.Gather? && step.p < |g.sys.procs| && g.sys.procs[step.p].Requested? {
        GatherAgrees(cfg, g, step.p, step.order);
      } else {
        QuietAgrees(cfg, g, step);
      }
  }

  /** A run of the gateway is an honest run of the protocol over the statuses of the stored objects. */
  lemma {:induction false} RunRefines(cfg: Config, acts: seq<Act>) returns (steps: seq<Step>)
    requires ProperRun(cfg, acts)
    ensures Agree(cfg, RunActs(cfg, acts))
    ensures HonestRun(cfg, steps) && Run(cfg, steps) == RunActs(cfg, acts).sys
  {
    steps := [];
    if acts == [] {
      EmptyHasIntegrity(cfg);
    } else {
      var before := acts[..|acts| - 1];
      var act := acts[|acts| - 1];
      var g := RunActs(cfg, before);
      steps := RunRefines(cfg, before);
      DoAgrees(cfg, g, act);
      StepOfDoes(cfg, g, act);
      if StepOf(cfg, g, act).Some? {
        var step := StepOf(cfg, g, act).value;
        assert (steps + [step])[..|steps|] == steps;
        steps := steps + [step];
      }
    }
  }

  lemma StepOfDoes(cfg: Config, g: Gw, act: Act)
    requires Proper(cfg, g, act)
    ensures match StepOf(cfg, g, act)
            case None => Do(cfg, g, act).sys == g.sys
            case Some(step) =>
              Do(cfg, g, act).sys == Apply(cfg, g.sys, step) && Possible(cfg, g.sys, step) && Honest(g.sys, step)
  {}

  // ---------------------------------------------------------------------
  // The protocol's theorems, about stored objects
  // ---------------------------------------------------------------------

  /** No stored object is ever forgotten: what it still waits for, a task or a replay will ask for. */
  lemma {:induction false} NoStoredIntentIsLost(cfg: Config, acts: seq<Act>, k: Key)
    requires cfg.Valid() && ProperRun(cfg, acts)
    requires Stored(RunActs(cfg, acts).db, k) && !AllSuccess(StatusAt(RunActs(cfg, acts).db, k).comps)
    ensures var g := RunActs(cfg, acts);
      ReplayAhead(cfg, g.sys, k.kind) || exists t :: IsOpen(g.sys, t) && Covers(t, k, StatusAt(g.db, k))
  {
    var steps := RunRefines(cfg, acts);
    ViewAt(RunActs(cfg, acts).db, k);
    NoIntentIsLost(cfg, steps, k);
  }

  /** With nothing left to do, every stored bridge, port, VRF and SVI is realized by all its modules and up. */
  lemma {:induction false} QuietGatewayIsRealized(cfg: Config, acts: seq<Act>, k: Key)
    requires cfg.Valid() && ProperRun(cfg, acts) && Quiescent(RunActs(cfg, acts).sys)
    requires Stored(RunActs(cfg, acts).db, k)
    ensures var x := StatusAt(RunActs(cfg, acts).db, k); AllSuccess(x.comps) && x.oper == Up
  {
    var steps := RunRefines(cfg, acts);
    ViewAt(RunActs(cfg, acts).db, k);
    QuiescentMeansRealized(cfg, steps);
  }

  /** A stored object is shown Up only when each of its modules has realized it. */
  lemma {:induction false} ShownUpIsRealized(cfg: Config, acts: seq<Act>, k: Key, c: string)
    requires cfg.Valid() && ProperRun(cfg, acts)
    requires Stored(RunActs(cfg, acts).db, k) && StatusAt(RunActs(cfg, acts).db, k).oper == Up && c in cfg.Of(k.kind)
    ensures var log := RunActs(cfg, acts).sys.log; exists j: nat :: RealizedAt(log, k, c, j, |log|)
  {
    var steps := RunRefines(cfg, acts);
    ViewAt(RunActs(cfg, acts).db, k);
    HonestIsPossible(cfg, steps);
    UpMeansRealized(cfg, steps, k, c);
  }

  /** A stored object disappears only by a teardown that every one of its modules has confirmed. */
  lemma {:induction false} StoredGoesOnlyTornDown(cfg: Config, acts: seq<Act>, act: Act, k: Key)
    requires cfg.Valid() && ProperRun(cfg, acts + [act])
    requires Stored(RunActs(cfg, acts).db, k) && !Stored(RunActs(cfg, acts + [act]).db, k)
    ensures exists m: nat, n: nat :: TornDown(RunActs(cfg, acts + [act]).sys.log, k, cfg.Of(k.kind), m, n)
  {
    assert (acts + [act])[..|acts|] == acts;
    var g, g' := RunActs(cfg, acts), RunActs(cfg, acts + [act]);
    var before := RunRefines(cfg, acts);
    var steps := RunRefines(cfg, acts + [act]);
    ViewAt(g.db, k);
    ViewAt(g'.db, k);
    GoneByStep(cfg, g, act, k);
    HonestIsPossible(cfg, steps);
    var n: nat :| n < |g'.sys.log| && g'.sys.log[n] == Removed(k);
    RemovedOnlyAfterTeardown(cfg, steps, n, k);
    var m: nat :| TornDown(g'.sys.log, k, cfg.Of(k.kind), m, n);
  }

  lemma GoneByStep(cfg: Config, g: Gw, act: Act, k: Key)
    requires Proper(cfg, g, act) && k in g.sys.store && k !in Do(cfg, g, act).sys.store
    ensures Removed(k) in Do(cfg, g, act).sys.log
  {
    StepOfDoes(cfg, g, act);
    LeavesOnlyByRemoval(cfg, g.sys, StepOf(cfg, g, act).value, k);
  }

  // ---------------------------------------------------------------------
  // Deletions are carried out
  // ---------------------------------------------------------------------

  /** The object is gone or to be deleted. */
  ghost predicate GoneOrDoomed(s: Sys, k: Key) {
    k in s.store ==> s.store[k].oper == ToBeDeleted
  }

  lemma BringsNothing(cfg: Config, s: Sys, step: Step, k: Key)
    requires Possible(cfg, s, step) && step != ApiCreate(k) && k !in s.store
    ensures k !in Apply(cfg, s, step).store
  {
    if step.Gather? && step.p < |s.procs| && s.procs[step.p].Requested? {
      GatherAt(cfg, s.store, step.order, s.procs[step.p].component, s.nextVersion);
    }
  }

  lemma ActKeepsDoom(cfg: Config, g: Gw, act: Act, k: Key)
    requires Proper(cfg, g, act) && (act.Create? ==> KeyOf(act.op) != k) && GoneOrDoomed(g.sys, k)
    ensures GoneOrDoomed(Do(cfg, g, act).sys, k)
  {
    StepOfDoes(cfg, g, act);
    if StepOf(cfg, g, act).Some? {
      var step := StepOf(cfg, g, act).value;
      if k !in g.sys.store {
        BringsNothing(cfg, g.sys, step, k);
      } else if k in Apply(cfg, g.sys, step).store {
        DoomStays(cfg, g.sys, step, k);
      }
    }
  }

  /**
   A deletion is carried out: once the system has nothing left to do, an object that was
   to be deleted is gone, unless a new one was created under its name.
   */
  lemma {:induction false} DeletedIsGoneWhenQuiet(cfg: Config, acts: seq<Act>, more: seq<Act>, k: Key)
    requires cfg.Valid() && ProperRun(cfg, acts + more) && Quiescent(RunActs(cfg, acts + more).sys)
    requires GoneOrDoomed(RunActs(cfg, acts).sys, k)
    requires forall i :: 0 <= i < |more| && more[i].Create? && Creates(more[i].op) ==> KeyOf(more[i].op) != k
    ensures !Stored(RunActs(cfg, acts + more).db, k)
  {
    StaysGoneOrDoomed(cfg, acts, more, k);
    var steps := RunRefines(cfg, acts + more);
    ViewAt(RunActs(cfg, acts + more).db, k);
    if Stored(RunActs(cfg, acts + more).db, k) {
      QuietGatewayIsRealized(cfg, acts + more, k);
    }
  }

  lemma {:induction false} StaysGoneOrDoomed(cfg: Config, acts: seq<Act>, more: seq<Act>, k: Key)
    requires ProperRun(cfg, acts + more) && GoneOrDoomed(RunActs(cfg, acts).sys, k)
    requires forall i :: 0 <= i < |more| && more[i].Create? && Creates(more[i].op) ==> KeyOf(more[i].op) != k
    ensures GoneOrDoomed(RunActs(cfg, acts + more).sys, k)
    decreases |more|
  {
    if more == [] {
      assert acts + more == acts;
    } else {
      var front, act := more[..|more| - 1], more[|more| - 1];
      assert (acts + more)[..|acts + more| - 1] == acts + front;
      StaysGoneOrDoomed(cfg, acts, front, k);
      ActKeepsDoom(cfg, RunActs(cfg, acts + front), act, k);
    }
  }

  /** The names in the index maps of the kinds a replay covers. */
  ghost predicate InIndex(cfg: Config, db: DB, component: string, k: Key) {
    && Replayable(cfg, k.kind, component)
    && k.name in match k.kind
                 case BridgeKind => Members(db.lbIndex)
                 case PortKind => Members(db.bpIndex)
                 case VrfKind => Members(db.vrfIndex)
                 case SviKind => Members(db.sviIndex)
  }

  /** A walk over the index maps meets every replayed object once and never a missing one. */
  lemma IndexWalksReplayed(cfg: Config, g: Gw, component: string, order: seq<Key>)
    requires Agree(cfg, g) && NoDup(order) && forall k :: k in order <==> InIndex(cfg, g.db, component, k)
    ensures WalksReplayed(cfg, g.sys.store, component, order)
  {
    forall k ensures k in order <==> k in g.sys.store && Replayable(cfg, k.kind, component) {
      ViewAt(g.db, k);
    }
  }
}
