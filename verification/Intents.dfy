/**
 The realization status every stored object carries: one component per
 subscribed module, an operational status and a resource version
 (pkg/infradb/common/common.go, and the status methods that bridge.go, vrf.go,
 svi.go and port.go repeat word for word).
 */
module Intents {
  import opened Basics

  datatype Kind = VrfKind | BridgeKind | SviKind | PortKind

  /** Resource names are full paths, so a name belongs to one kind only. */
  datatype Key = Key(kind: Kind, name: string)

  /** Who is subscribed to each kind, in priority order; fixed once the modules have started. */
  datatype Config = Config(vrf: seq<string>, bridge: seq<string>, svi: seq<string>, port: seq<string>) {
    function Of(kind: Kind): seq<string> {
      match kind
      case VrfKind => vrf
      case BridgeKind => bridge
      case SviKind => svi
      case PortKind => port
    }

    ghost predicate Valid() {
      forall kind: Kind :: NoDup(Of(kind))
    }
  }

  datatype CompStatus = Unspecified | Pending | Success | Error

  /** `timer` is the back-off in seconds; `replay` asks for a replay of the store. */
  datatype Component = Component(name: string, status: CompStatus, details: string, timer: int, replay: bool)

  datatype Oper = OperUnspecified | Up | Down | ToBeDeleted

  datatype Intent = Intent(version: int, oper: Oper, comps: seq<Component>)

  // ---------------------------------------------------------------------
  // What the status methods compute
  // ---------------------------------------------------------------------

  function Names(comps: seq<Component>): (r: seq<string>)
  {
    seq(|comps|, i requires 0 <= i < |comps| => comps[i].name)
  }

  predicate AllSuccess(comps: seq<Component>) {
    forall i :: 0 <= i < |comps| ==> comps[i].status == Success
  }

  function Fresh(name: string): Component {
    Component(name, Pending, "", 0, false)
  }

  /** A new object: every module still has to realize it. */
  function NewIntent(subs: seq<string>, version: int): Intent {
    Intent(version, Down, seq(|subs|, i requires 0 <= i < |subs| => Fresh(subs[i])))
  }

  /** The first component that has the reported name takes the report. */
  function SetComponent(comps: seq<Component>, report: Component): seq<Component> {
    if comps == [] then []
    else if comps[0].name == report.name then [report] + comps[1..]
    else [comps[0]] + SetComponent(comps[1..], report)
  }

  /** A deletion request makes the first `n` components pending and keeps their timers. */
  function MarkDeleted(x: Intent, n: nat, version: int): Intent
    requires n <= |x.comps|
  {
    Intent(version, ToBeDeleted,
           seq(|x.comps|, i requires 0 <= i < |x.comps| =>
             if i < n then x.comps[i].(status := Pending) else x.comps[i]))
  }

  /** The object after a report on its current version; None once it has been torn down. */
  function AfterReport(x: Intent, report: Component): Option<Intent> {
    var comps := SetComponent(x.comps, report);
    if !AllSuccess(comps) then Some(x.(comps := comps))
    else if x.oper == ToBeDeleted then None
    else Some(x.(comps := comps, oper := Up))
  }

  /** A replay asked for by `component` contacts it and every module that is not done. */
  predicate Contacts(c: Component, component: string) {
    c.name == component || c.status != Success
  }

  function PreparedComps(comps: seq<Component>, component: string): seq<Component> {
    seq(|comps|, i requires 0 <= i < |comps| =>
      if Contacts(comps[i], component) then Fresh(comps[i].name) else comps[i])
  }

  function PreparedSubs(comps: seq<Component>, component: string, subs: seq<string>): seq<string> {
    if comps == [] || subs == [] then []
    else (if Contacts(comps[0], component) then [subs[0]] else []) + PreparedSubs(comps[1..], component, subs[1..])
  }

  lemma PreparedSubsStep(comps: seq<Component>, component: string, subs: seq<string>, i: nat, sofar: seq<string>)
    requires i < |comps| <= |subs|
    ensures sofar + PreparedSubs(comps[i..], component, subs[i..]) ==
      (if Contacts(comps[i], component) then sofar + [subs[i]] else sofar)
      + PreparedSubs(comps[i + 1..], component, subs[i + 1..])
  {
    assert comps[i..][1..] == comps[i + 1..] && subs[i..][1..] == subs[i + 1..];
  }

  function Prepared(x: Intent, component: string, version: int): Intent {
    Intent(version, if x.oper == Up then Down else x.oper, PreparedComps(x.comps, component))
  }

  /** The components of an object are the modules subscribed to its kind, once each. */
  ghost predicate Follows(x: Intent, subs: seq<string>) {
    Names(x.comps) == subs && NoDup(subs) && subs != []
  }

  // ---------------------------------------------------------------------
  // Facts about them
  // ---------------------------------------------------------------------

  lemma {:induction false} SetComponentAt(comps: seq<Component>, report: Component)
    requires NoDup(Names(comps))
    ensures |SetComponent(comps, report)| == |comps|
    ensures Names(SetComponent(comps, report)) == Names(comps)
    ensures forall i :: 0 <= i < |comps| ==>
      SetComponent(comps, report)[i] == if comps[i].name == report.name then report else comps[i]
  {
    if comps != [] {
      assert Names(comps)[0] == comps[0].name;
      if comps[0].name == report.name {
        forall i | 1 <= i < |comps| ensures comps[i].name != report.name {
          assert Names(comps)[i] == comps[i].name;
        }
      } else {
        assert Names(comps[1..]) == Names(comps)[1..];
        SetComponentAt(comps[1..], report);
      }
      var r := SetComponent(comps, report);
      assert forall i :: 0 <= i < |comps| ==>
        r[i] == if comps[i].name == report.name then report else comps[i];
    }
  }

  /** A replay contacts exactly, and in priority order, the modules it made pending. */
  lemma {:induction false} PreparedSubsExact(comps: seq<Component>, component: string, subs: seq<string>)
    requires Names(comps) == subs && NoDup(subs)
    ensures forall i :: 0 <= i < |comps| ==>
      (PreparedComps(comps, component)[i].status != Success <==>
       comps[i].name in PreparedSubs(comps, component, subs))
    ensures forall n :: n in PreparedSubs(comps, component, subs) ==> n in subs
    ensures NoDup(PreparedSubs(comps, component, subs))
    ensures InOrder(PreparedSubs(comps, component, subs), subs)
  {
    if comps != [] {
      assert Names(comps[1..]) == subs[1..];
      assert comps[0].name == subs[0];
      PreparedSubsExact(comps[1..], component, subs[1..]);
      var rest := PreparedSubs(comps[1..], component, subs[1..]);
      var r := PreparedSubs(comps, component, subs);
      forall n | n in rest ensures n in subs && n != subs[0] {
        assert n in subs[1..];
      }
      if Contacts(comps[0], component) {
        assert r[1..] == rest;
      } else {
        assert r == rest;
        assert rest != [] ==> rest[0] in rest;
      }
      forall i | 0 <= i < |comps|
        ensures PreparedComps(comps, component)[i].status != Success <==> comps[i].name in r
      {
        if i > 0 {
          assert comps[1..][i - 1] == comps[i] && subs[i] == comps[i].name;
          assert PreparedComps(comps, component)[i] == PreparedComps(comps[1..], component)[i - 1];
        }
      }
    }
  }

  /** `a` lists elements of `b` in the order `b` has them. */
  ghost predicate InOrder(a: seq<string>, b: seq<string>)
    decreases |b|
  {
    if a == [] then true
    else if b == [] then false
    else if a[0] == b[0] then InOrder(a[1..], b[1..])
    else InOrder(a, b[1..])
  }

  // ---------------------------------------------------------------------
  // The methods that rewrite the status in place
  // ---------------------------------------------------------------------

  /** The part of an API object that holds its realization status. */
  class Status {
    var version: int
    var oper: Oper
    var comps: seq<Component>

    function Value(): Intent
      reads this
    {
      Intent(version, oper, comps)
    }

    constructor (x: Intent)
      ensures Value() == x
    {
      version, oper, comps := x.version, x.oper, x.comps;
    }

    method SetComponentState(report: Component)
      modifies this
      ensures Value() == old(Value()).(comps := SetComponent(old(comps), report))
    {
      var i := 0;
      while i < |comps|
        invariant 0 <= i <= |comps|
        invariant Value() == old(Value())
        invariant SetComponent(comps, report) == comps[..i] + SetComponent(comps[i..], report)
      {
        if comps[i].name == report.name {
          assert comps[i..][1..] == comps[i + 1..];
          comps := comps[i := report];
          return;
        }
        assert comps[i..][1..] == comps[i + 1..];
        i := i + 1;
      }
    }

    method CheckForAllSuccess() returns (all: bool)
      ensures all <==> AllSuccess(comps)
    {
      for i := 0 to |comps|
        invariant forall j :: 0 <= j < i ==> comps[j].status == Success
      {
        if comps[i].status != Success {
          return false;
        }
      }
      return true;
    }

    /** DeleteLB, DeleteBP, DeleteVrf and DeleteSvi mark the object with one loop over the subscribers. */
    method MarkToBeDeleted(n: nat, newVersion: int)
      requires n <= |comps|
      modifies this
      ensures Value() == MarkDeleted(old(Value()), n, newVersion)
    {
      for i := 0 to n
        invariant oper == old(oper) && |comps| == |old(comps)|
        invariant forall j :: 0 <= j < |comps| ==>
          comps[j] == if j < i then old(comps)[j].(status := Pending) else old(comps)[j]
      {
        comps := comps[i := comps[i].(status := Pending)];
      }
      version, oper := newVersion, ToBeDeleted;
    }

    method PrepareObjectsForReplay(component: string, subs: seq<string>, newVersion: int)
      returns (tempSubs: seq<string>)
      requires |comps| <= |subs|
      modifies this
      ensures Value() == Prepared(old(Value()), component, newVersion)
      ensures tempSubs == PreparedSubs(old(comps), component, subs)
      ensures |comps| == |old(comps)|
      ensures forall i :: 0 <= i < |comps| ==>
        comps[i] == if old(comps)[i].name == component || old(comps)[i].status != Success
                    then Component(old(comps)[i].name, Pending, "", 0, false)
                    else old(comps)[i]
    {
      tempSubs := [];
      ghost var was := comps;
      for i := 0 to |comps|
        invariant oper == old(oper) && |comps| == |was| && was == old(comps)
        invariant forall j :: 0 <= j < |was| ==>
          comps[j] == if j < i && Contacts(was[j], component) then Fresh(was[j].name) else was[j]
        invariant PreparedSubs(was, component, subs) == tempSubs + PreparedSubs(was[i..], component, subs[i..])
      {
        PreparedSubsStep(was, component, subs, i, tempSubs);
        assert was[i] == comps[i];
        if Contacts(comps[i], component) {
          comps := comps[i := Fresh(comps[i].name)];
          tempSubs := tempSubs + [subs[i]];
        }
      }
      assert comps == PreparedComps(was, component);
      if oper == Up {
        oper := Down;
      }
      version := newVersion;
    }
  }
}
