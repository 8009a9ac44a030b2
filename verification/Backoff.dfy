/**
 Back-off and the replay threshold of the FRR module (pkg/frr/frr.go, CheckReplayThreshold in
 pkg/infradb/common/common.go): the timer stored with the component, and when a replay is
 asked for. Times are in seconds.
 */
module Backoff {
  import opened Basics
  import opened Intents

  const FRR := "frr"
  const REPLAY_THRESHOLD := 64
  const FIRST_TIMER := 2

  /** The component the handler starts from: the last one of its name, or an empty one. */
  function Own(comps: seq<Component>): Component {
    if comps == [] then Component("", Unspecified, "", 0, false)
    else
      var last := comps[|comps| - 1];
      if last.name == FRR then last else Own(comps[..|comps| - 1])
  }

  function CheckReplayThreshold(c: Component, threshold: int): Component {
    c.(replay := c.timer > threshold)
  }

  function Doubled(timer: int): int {
    if timer == 0 then FIRST_TIMER else timer * 2
  }

  /** What handlevrf and handlesvi report after setting up or tearing down. */
  function Outcome(c: Component, details: string, ok: bool): Component {
    var tried := c.(name := FRR, details := details,
                    timer := if ok then 0 else Doubled(c.timer),
                    status := if ok then Success else Error);
    CheckReplayThreshold(tried, REPLAY_THRESHOLD)
  }

  /** The handler, with the loop that looks for its own component. */
  method Handle(comps: seq<Component>, details: string, ok: bool) returns (comp: Component)
    ensures comp == Outcome(Own(comps), details, ok)
    ensures comp.name == "frr" && comp.details == details && comp.status == if ok then Success else Error
    ensures comp.timer == if ok then 0 else if Own(comps).timer == 0 then 2 else 2 * Own(comps).timer
    ensures comp.replay <==> comp.timer > 64
  {
    comp := Component("", Unspecified, "", 0, false);
    for i := 0 to |comps|
      invariant comp == Own(comps[..i])
    {
      assert comps[..i + 1][..i] == comps[..i];
      if comps[i].name == FRR {
        comp := comps[i];
      }
    }
    assert comps[..|comps|] == comps;
    comp := comp.(name := FRR, details := details);
    if ok {
      comp := comp.(status := Success, timer := 0);
    } else {
      if comp.timer == 0 {
        comp := comp.(timer := FIRST_TIMER);
      } else {
        comp := comp.(timer := comp.timer * 2);
      }
      comp := comp.(status := Error);
    }
    comp := comp.(replay := comp.timer > REPLAY_THRESHOLD);
  }

  // ---------------------------------------------------------------------
  // Whole histories of one stored component
  // ---------------------------------------------------------------------

  /**
   What can happen to the stored component: the handler runs and its report reaches the
   object, which stores it unless it asks for a replay; the handler runs but its report
   comes too late, for a version or an object that is gone; a replay asked for by some
   module prepares the object; a deletion makes it pending.
   */
  datatype Turn = Handled(details: string, ok: bool) | TooLate | ReplayedBy(component: string) | MarkedDeleted

  function After(c: Component, turn: Turn): Component {
    match turn
    case Handled(details, ok) =>
      var report := Outcome(c, details, ok);
      if report.replay then c else report
    case TooLate => c
    case ReplayedBy(component) => if Contacts(c, component) then Fresh(c.name) else c
    case MarkedDeleted => c.(status := Pending)
  }

  function History(turns: seq<Turn>): Component {
    if turns == [] then Fresh(FRR) else After(History(turns[..|turns| - 1]), turns[|turns| - 1])
  }

  /** Failures reported in time since the last success or replay. */
  function Failures(turns: seq<Turn>): nat {
    if turns == [] then 0
    else FailuresAfter(Failures(turns[..|turns| - 1]), turns[|turns| - 1])
  }

  function FailuresAfter(before: nat, turn: Turn): nat {
    match turn
    case Handled(_, ok) => if ok then 0 else before + 1
    case TooLate => before
    case ReplayedBy(_) => 0
    case MarkedDeleted => before
  }

  predicate AsksForReplay(c: Component, ok: bool) {
    Outcome(c, "", ok).replay
  }

  /** The stored timer doubles with every failure, up to the replay threshold. */
  function TimerOf(failures: nat): int {
    if failures == 0 then 0 else Pow2(if failures < 6 then failures else 6)
  }

  /** The component of module FRR after `failures` failures. */
  ghost predicate HasFailed(c: Component, failures: nat) {
    && c.name == FRR
    && c.timer == TimerOf(failures)
    && (c.status == Success ==> failures == 0)
  }

  lemma TimersUpToThreshold(failures: nat)
    ensures failures < 6 ==> Doubled(TimerOf(failures)) == TimerOf(failures + 1) <= REPLAY_THRESHOLD
    ensures failures >= 6 ==> TimerOf(failures) == REPLAY_THRESHOLD && Doubled(TimerOf(failures)) > REPLAY_THRESHOLD
  {
    assert Pow2(4) == 16 && Pow2(6) == 64;
    if failures < 6 {
      Pow2Grows(failures + 1, 6);
    }
  }

  lemma {:induction false} Pow2Grows(m: nat, n: nat)
    requires m <= n
    ensures Pow2(m) <= Pow2(n)
    decreases n
  {
    if m < n {
      Pow2Grows(m, n - 1);
    }
  }

  /** One turn: the timer follows the count, and a replay is asked for from the seventh failure on. */
  lemma TurnCounts(c: Component, failures: nat, turn: Turn)
    requires HasFailed(c, failures)
    ensures HasFailed(After(c, turn), FailuresAfter(failures, turn))
    ensures turn.Handled? ==> (Outcome(c, turn.details, turn.ok).replay <==> !turn.ok && failures >= 6)
  {
    TimersUpToThreshold(failures);
  }

  /** The stored timer is 0 without failures, else 2^k seconds after k of them, 64 at most. */
  lemma {:induction false} TimerCountsFailures(turns: seq<Turn>)
    ensures History(turns).timer == TimerOf(Failures(turns))
    ensures HasFailed(History(turns), Failures(turns))
  {
    if turns != [] {
      TimerCountsFailures(turns[..|turns| - 1]);
      TurnCounts(History(turns[..|turns| - 1]), Failures(turns[..|turns| - 1]), turns[|turns| - 1]);
    }
  }

  /**
   The seventh failure in a row asks for a replay, and so does every later one as long as
   no replay has come; no earlier failure does, and no success does.
   */
  lemma SeventhFailureAsksForReplay(turns: seq<Turn>, ok: bool)
    ensures AsksForReplay(History(turns), ok) <==> !ok && Failures(turns) >= 6
  {
    TimerCountsFailures(turns);
    TurnCounts(History(turns), Failures(turns), Handled("", ok));
  }

  /** A replay, whoever asked for it, starts the count again like a success; asking for deletion does not. */
  lemma TimerRestarts(turns: seq<Turn>, turn: Turn)
    ensures turn.ReplayedBy? || (turn.Handled? && turn.ok) ==> History(turns + [turn]).timer == 0
    ensures turn == MarkedDeleted || turn == TooLate ==> History(turns + [turn]).timer == History(turns).timer
  {
    assert (turns + [turn])[..|turns|] == turns;
    TimerCountsFailures(turns + [turn]);
  }

  /** The turns are what the store does to the component. */
  lemma TurnsAreStoreUpdates(x: Intent, i: nat, details: string, ok: bool, component: string, version: int)
    requires NoDup(Names(x.comps)) && i < |x.comps| && x.comps[i].name == FRR
    ensures Own(x.comps) == x.comps[i]
    ensures var report := Outcome(x.comps[i], details, ok);
      |SetComponent(x.comps, report)| == |x.comps|
    ensures var report := Outcome(x.comps[i], details, ok);
      !report.replay ==> SetComponent(x.comps, report)[i] == After(x.comps[i], Handled(details, ok))
    ensures PreparedComps(x.comps, component)[i] == After(x.comps[i], ReplayedBy(component))
    ensures MarkDeleted(x, |x.comps|, version).comps[i] == After(x.comps[i], MarkedDeleted)
  {
    OwnIs(x.comps, i);
    SetComponentAt(x.comps, Outcome(x.comps[i], details, ok));
  }

  lemma {:induction false} OwnIs(comps: seq<Component>, i: nat)
    requires NoDup(Names(comps)) && i < |comps| && comps[i].name == FRR
    ensures Own(comps) == comps[i]
  {
    if i < |comps| - 1 {
      assert Names(comps)[|comps| - 1] == comps[|comps| - 1].name && Names(comps)[i] == FRR;
      var front := comps[..|comps| - 1];
      assert Names(front) == Names(comps)[..|comps| - 1];
      OwnIs(front, i);
    }
  }
}
