/**
 Registration of modules (pkg/infradb/subscriberframework/eventbus/eventbus.go).
 The list of an event type decides the order in which a task contacts modules.
 */
module EventBus {
  import opened Basics

  datatype Subscriber = Subscriber(name: string, priority: int)

  function ModuleNames(s: seq<Subscriber>): seq<string> {
    seq(|s|, i requires 0 <= i < |s| => s[i].name)
  }

  ghost predicate ByPriority(s: seq<Subscriber>) {
    forall i, j :: 0 <= i < j < |s| ==> s[i].priority <= s[j].priority
  }

  /** What a list of subscribers must be for tasks and components to line up with it. */
  ghost predicate WellFormed(s: seq<Subscriber>) {
    ByPriority(s) && NoDup(ModuleNames(s))
  }

  /** What sort.Slice promises with the priority comparison; it may put equal priorities in any order. */
  ghost predicate IsSortOf(sorted: seq<Subscriber>, s: seq<Subscriber>) {
    ByPriority(sorted) && multiset(sorted) == multiset(s)
  }

  function Insert(r: seq<Subscriber>, x: Subscriber): seq<Subscriber> {
    if r == [] || x.priority < r[0].priority then [x] + r
    else [r[0]] + Insert(r[1..], x)
  }

  lemma {:induction false} InsertKeepsAll(r: seq<Subscriber>, x: Subscriber)
    ensures multiset(Insert(r, x)) == multiset(r) + multiset{x}
  {
    if r != [] && x.priority >= r[0].priority {
      InsertKeepsAll(r[1..], x);
      assert r == [r[0]] + r[1..];
    }
  }

  lemma {:induction false} InsertKeepsOrder(r: seq<Subscriber>, x: Subscriber)
    requires ByPriority(r)
    ensures ByPriority(Insert(r, x))
    ensures forall y :: y in Insert(r, x) ==> y == x || y in r
  {
    if r != [] && x.priority >= r[0].priority {
      InsertKeepsOrder(r[1..], x);
      var q := Insert(r[1..], x);
      forall i | 0 <= i < |q| ensures r[0].priority <= q[i].priority {
        assert q[i] in q;
      }
    }
  }

  /** Sorting, in one of the orders it can give; callers rely on what every order has. */
  method SortByPriority(s: seq<Subscriber>) returns (sorted: seq<Subscriber>)
    ensures IsSortOf(sorted, s)
  {
    sorted := [];
    for i := 0 to |s|
      invariant IsSortOf(sorted, s[..i])
    {
      InsertKeepsAll(sorted, s[i]);
      InsertKeepsOrder(sorted, s[i]);
      assert s[..i + 1] == s[..i] + [s[i]];
      sorted := Insert(sorted, s[i]);
    }
    assert s[..|s|] == s;
  }

  /** A permutation has the same elements, and repeats none if the other repeats none. */
  lemma {:induction false} SortKeeps(sorted: seq<Subscriber>, s: seq<Subscriber>)
    requires IsSortOf(sorted, s)
    ensures forall x :: x in sorted <==> x in s
    ensures NoDup(ModuleNames(s)) ==> NoDup(ModuleNames(sorted))
  {
    forall x ensures x in sorted <==> x in s {
      assert x in multiset(sorted) <==> x in multiset(s);
    }
    if NoDup(ModuleNames(s)) {
      forall i, j | 0 <= i < |s| && 0 <= j < |s| && s[i].name == s[j].name ensures i == j {
        assert ModuleNames(s)[i] == ModuleNames(s)[j];
      }
      NoDupCounts(s);
      NoDupCounts(sorted);
      forall i, j | 0 <= i < j < |sorted| ensures ModuleNames(sorted)[i] != ModuleNames(sorted)[j] {
        assert sorted[i] in s && sorted[j] in s;
      }
    }
  }

  lemma NamesOf(s: seq<Subscriber>, name: string)
    ensures name in ModuleNames(s) <==> exists x :: x in s && x.name == name
  {
    if name in ModuleNames(s) {
      var i :| 0 <= i < |s| && ModuleNames(s)[i] == name;
      assert s[i] in s;
    }
    if x :| x in s && x.name == name {
      var i :| 0 <= i < |s| && s[i] == x;
      assert ModuleNames(s)[i] == name;
    }
  }

  /** Appending an unknown module and sorting, in any way: the list stays well formed and gains just that module. */
  lemma {:induction false} SubscribeKeeps(was: seq<Subscriber>, x: Subscriber, sorted: seq<Subscriber>)
    requires WellFormed(was) && x.name !in ModuleNames(was) && IsSortOf(sorted, was + [x])
    ensures WellFormed(sorted)
    ensures forall m :: m in ModuleNames(sorted) <==> m == x.name || m in ModuleNames(was)
  {
    var longer := was + [x];
    assert ModuleNames(longer) == ModuleNames(was) + [x.name];
    SortKeeps(sorted, longer);
    forall m ensures m in ModuleNames(sorted) <==> m in ModuleNames(longer) {
      NamesOf(sorted, m);
      NamesOf(longer, m);
    }
  }

  class Bus {
    var subscribers: map<string, seq<Subscriber>>

    constructor ()
      ensures subscribers == map[]
    {
      subscribers := map[];
    }

    ghost predicate Valid()
      reads this
    {
      forall e :: e in subscribers ==> WellFormed(subscribers[e])
    }

    function GetSubscribers(eventType: string): seq<Subscriber>
      reads this
    {
      if eventType in subscribers then subscribers[eventType] else []
    }

    method SubscriberExist(eventType: string, moduleName: string) returns (found: bool)
      ensures found <==> moduleName in ModuleNames(GetSubscribers(eventType))
    {
      var subList := GetSubscribers(eventType);
      for i := 0 to |subList|
        invariant forall j :: 0 <= j < i ==> subList[j].name != moduleName
      {
        if subList[i].name == moduleName {
          assert ModuleNames(subList)[i] == moduleName;
          return true;
        }
      }
      return false;
    }

    /** A module is added once per event type, and every list stays in priority order. */
    method StartSubscriber(moduleName: string, eventType: string, priority: int)
      requires Valid()
      modifies this
      ensures Valid()
      ensures moduleName in old(ModuleNames(GetSubscribers(eventType))) ==> subscribers == old(subscribers)
      ensures moduleName !in old(ModuleNames(GetSubscribers(eventType))) ==>
        IsSortOf(GetSubscribers(eventType), old(GetSubscribers(eventType)) + [Subscriber(moduleName, priority)])
      ensures forall m :: m in ModuleNames(GetSubscribers(eventType)) <==>
        m == moduleName || m in old(ModuleNames(GetSubscribers(eventType)))
      ensures forall e :: e != eventType ==> GetSubscribers(e) == old(GetSubscribers(e))
    {
      var exists' := SubscriberExist(eventType, moduleName);
      if !exists' {
        Subscribe(moduleName, eventType, priority);
      }
    }

    method Subscribe(moduleName: string, eventType: string, priority: int)
      requires Valid()
      requires moduleName !in ModuleNames(GetSubscribers(eventType))
      modifies this
      ensures Valid()
      ensures IsSortOf(GetSubscribers(eventType),
                       old(GetSubscribers(eventType)) + [Subscriber(moduleName, priority)])
      ensures forall m :: m in ModuleNames(GetSubscribers(eventType)) <==>
        m == moduleName || m in old(ModuleNames(GetSubscribers(eventType)))
      ensures forall e :: e != eventType ==> GetSubscribers(e) == old(GetSubscribers(e))
    {
      var sorted := SortByPriority(GetSubscribers(eventType) + [Subscriber(moduleName, priority)]);
      SubscribeKeeps(GetSubscribers(eventType), Subscriber(moduleName, priority), sorted);
      subscribers := subscribers[eventType := sorted];
    }
  }
}
