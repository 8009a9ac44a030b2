/**
 The id pool (pkg/utils/idpool.go) as written. Its comment promises that a key gets its old
 id back and that released ids are recycled; neither branch keeps the old id, so an id is
 handed out at most once. Exclusivity and reference counting hold.
 */
module IdPool {
  import opened Basics

  const TWO_32 := 0x1_0000_0000

  newtype uint32 = x: int | 0 <= x < TWO_32

  type Key = string
  type Ref = string

  datatype Pool = Pool(unused: seq<int>, inUse: map<Key, int>, reuse: map<Key, int>, refs: map<int, set<Ref>>)

  datatype InitResult = Refused | Panicked | Ready(pool: Pool)

  /** `max` down to `min`; ids are taken from the end. */
  function Descending(min: int, max: int): seq<int>
    decreases max - min + 1
  {
    if max < min then [] else [max] + Descending(min, max - 1)
  }

  lemma {:induction false} DescendingAt(min: int, max: int)
    requires min <= max + 1
    ensures |Descending(min, max)| == max - min + 1
    ensures forall i :: 0 <= i <= max - min ==> Descending(min, max)[i] == max - i
    decreases max - min + 1
  {
    if min <= max {
      DescendingAt(min, max - 1);
    }
  }

  lemma DescendingStep(sofar: seq<int>, min: int, value: int)
    requires min <= value
    ensures sofar + Descending(min, value) == (sofar + [value]) + Descending(min, value - 1)
  {}

  /** The wrapping decrement of a uint32. */
  function Decrement(v: uint32): uint32 {
    if v == 0 then (TWO_32 - 1) as uint32 else v - 1
  }

  /** IDPoolInit: the loop counts a uint32 down and never falls below 0, so a pool from 0 runs off its slice. */
  method InitPool(min: uint32, max: uint32) returns (r: InitResult)
    ensures max < min ==> r == Refused
    ensures min <= max && min == 0 ==> r == Panicked
    ensures 1 <= min <= max ==> r == Ready(Pool(Descending(min as int, max as int), map[], map[], map[]))
  {
    if max < min {
      return Refused;
    }
    var size := ((max - min) as int + 1) % TWO_32;
    var unused: seq<int> := [];
    var value := max;
    while value >= min
      invariant 0 <= |unused| <= size
      invariant min >= 1 ==> value as int == max as int - |unused| && size == max as int - min as int + 1
      invariant min >= 1 ==> |unused| <= max as int - min as int + 1
      invariant min >= 1 ==> unused + Descending(min as int, value as int) == Descending(min as int, max as int)
      decreases size - |unused|
    {
      if |unused| >= size {
        if min >= 1 {
          assert false;
        }
        return Panicked;
      }
      DescendingStep(unused, min as int, value as int);
      unused := unused + [value as int];
      value := Decrement(value);
    }
    assert unused + [] == unused;
    return Ready(Pool(unused, map[], map[], map[]));
  }

  // ---------------------------------------------------------------------
  // The operations
  // ---------------------------------------------------------------------

  /** assignid; `pick` is the key whose released id is taken when nothing unused is left. */
  function AssignId(p: Pool, key: Key, pick: Key): (Pool, int) {
    if key in p.reuse then (p.(reuse := p.reuse - {key}), 0)
    else if p.unused != [] then
      var id := p.unused[|p.unused| - 1];
      var p' := p.(unused := p.unused[..|p.unused| - 1]);
      (if id != 0 then p'.(inUse := p'.inUse[key := id]) else p', id)
    else if p.reuse != map[] then (p.(reuse := p.reuse - {pick}), 0)
    else (p, 0)
  }

  function GetId(p: Pool, key: Key, pick: Key): (Pool, int) {
    if key in p.inUse then (p, p.inUse[key]) else AssignId(p, key, pick)
  }

  function RefsOf(p: Pool, id: int): set<Ref> {
    if id in p.refs then p.refs[id] else {}
  }

  function GetIdWithRef(p: Pool, key: Key, ref: Option<Ref>, pick: Key): (Pool, int, nat) {
    var (p', id) := GetId(p, key, pick);
    if id == 0 then (p', 0, 0)
    else if ref.Some? then
      var refs := RefsOf(p', id) + {ref.value};
      (p'.(refs := p'.refs[id := refs]), id, |refs|)
    else (p', id, 0)
  }

  function ReleaseId(p: Pool, key: Key): (Pool, int) {
    if key !in p.inUse then (p, 0)
    else
      var id := p.inUse[key];
      if id in p.refs then (p, 0)
      else (p.(inUse := p.inUse - {key}, reuse := p.reuse[key := id]), id)
  }

  function ReleaseIdWithRef(p: Pool, key: Key, ref: Option<Ref>): (Pool, int, nat) {
    if key !in p.inUse then (p, 0, 0)
    else
      var id := p.inUse[key];
      var left := if ref.Some? then RefsOf(p, id) - {ref.value} else RefsOf(p, id);
      var p1 := if id in p.refs then p.(refs := p.refs[id := left]) else p;
      if left == {} then
        (p1.(inUse := p1.inUse - {key}, reuse := p1.reuse[key := id], refs := p1.refs - {id}), id, 0)
      else (p1, id, if ref.Some? then |left| else 0)
  }

  // ---------------------------------------------------------------------
  // Exclusivity
  // ---------------------------------------------------------------------

  ghost predicate Injective(m: map<Key, int>) {
    forall a, b :: a in m && b in m && m[a] == m[b] ==> a == b
  }

  /** Ids below `next` have been handed out, ids from `next` on are unused. */
  ghost predicate PoolOk(min: int, next: int, max: int, p: Pool) {
    && 1 <= min <= next <= max + 1
    && p.unused == Descending(next, max)
    && Injective(p.inUse) && Injective(p.reuse)
    && (forall k :: k in p.inUse ==> min <= p.inUse[k] < next)
    && (forall k :: k in p.reuse ==> min <= p.reuse[k] < next)
    && (forall a, b :: a in p.inUse && b in p.reuse ==> p.inUse[a] != p.reuse[b])
    && (forall id :: id in p.refs ==> p.refs[id] != {} && exists k :: k in p.inUse && p.inUse[k] == id)
  }

  /** No id is unused and handed out at once, held by two keys, or both in use and released. */
  lemma IdsAreExclusive(min: int, next: int, max: int, p: Pool, i: nat)
    requires PoolOk(min, next, max, p) && i < |p.unused|
    ensures min <= p.unused[i] <= max
    ensures forall j :: 0 <= j < |p.unused| && j != i ==> p.unused[j] != p.unused[i]
    ensures forall k :: k in p.inUse ==> p.inUse[k] != p.unused[i]
    ensures forall k :: k in p.reuse ==> p.reuse[k] != p.unused[i]
  {
    DescendingAt(next, max);
  }

  datatype Op =
    | Get(key: Key, pick: Key)
    | GetRef(key: Key, ref: Option<Ref>, pick: Key)
    | Release(key: Key)
    | ReleaseRef(key: Key, ref: Option<Ref>)

  function Do(p: Pool, op: Op): Pool {
    match op
    case Get(key, pick) => GetId(p, key, pick).0
    case GetRef(key, ref, pick) => GetIdWithRef(p, key, ref, pick).0
    case Release(key) => ReleaseId(p, key).0
    case ReleaseRef(key, ref) => ReleaseIdWithRef(p, key, ref).0
  }

  /** The first id not handed out yet. */
  function NextOf(max: int, p: Pool): int {
    max + 1 - |p.unused|
  }

  lemma NextIs(min: int, next: int, max: int, p: Pool)
    requires PoolOk(min, next, max, p)
    ensures NextOf(max, p) == next
    ensures p.unused != [] <==> next <= max
    ensures p.unused != [] ==>
      p.unused[|p.unused| - 1] == next && p.unused[..|p.unused| - 1] == Descending(next + 1, max)
  {
    DescendingAt(next, max);
    if next <= max {
      DescendingAt(next + 1, max);
      assert p.unused[..|p.unused| - 1] == Descending(next + 1, max);
    }
  }

  lemma AssignShape(min: int, next: int, max: int, p: Pool, key: Key, pick: Key)
    requires PoolOk(min, next, max, p) && key !in p.inUse
    ensures var (p', id) := AssignId(p, key, pick);
      && p'.refs == p.refs
      && (id != 0 ==> id == next && p'.inUse == p.inUse[key := id] && p'.reuse == p.reuse)
      && (id == 0 ==> p'.inUse == p.inUse && p'.unused == p.unused)
      && (forall k :: k in p'.reuse ==> k in p.reuse && p'.reuse[k] == p.reuse[k])
      && (id != 0 <==> key !in p.reuse && next <= max)
      && p'.unused == Descending(if id == 0 then next else next + 1, max)
  {
    NextIs(min, next, max, p);
  }

  lemma AssignKeeps(min: int, next: int, max: int, p: Pool, key: Key, pick: Key)
    requires PoolOk(min, next, max, p) && key !in p.inUse
    ensures var (p', id) := AssignId(p, key, pick);
      PoolOk(min, if id == 0 then next else next + 1, max, p')
  {
    var (p', id) := AssignId(p, key, pick);
    AssignShape(min, next, max, p, key, pick);
    forall i | i in p'.refs ensures exists k :: k in p'.inUse && p'.inUse[k] == i {
      var k :| k in p.inUse && p.inUse[k] == i;
      assert k in p'.inUse && p'.inUse[k] == i;
    }
  }

  lemma GetKeeps(min: int, next: int, max: int, p: Pool, key: Key, pick: Key)
    requires PoolOk(min, next, max, p)
    ensures var (p', id) := GetId(p, key, pick);
      PoolOk(min, NextOf(max, p'), max, p') && (id != 0 <==> key in p'.inUse) && (id != 0 ==> p'.inUse[key] == id)
  {
    NextIs(min, next, max, p);
    if key !in p.inUse {
      AssignKeeps(min, next, max, p, key, pick);
      AssignShape(min, next, max, p, key, pick);
      var (p', id) := AssignId(p, key, pick);
      NextIs(min, if id == 0 then next else next + 1, max, p');
    }
  }

  lemma GetRefKeeps(min: int, next: int, max: int, p: Pool, key: Key, ref: Option<Ref>, pick: Key)
    requires PoolOk(min, next, max, p)
    ensures var p' := GetIdWithRef(p, key, ref, pick).0; PoolOk(min, NextOf(max, p'), max, p')
  {
    GetKeeps(min, next, max, p, key, pick);
  }

  lemma FreeKeeps(min: int, next: int, max: int, p: Pool, key: Key)
    requires PoolOk(min, next, max, p) && key in p.inUse
    ensures var id := p.inUse[key];
      PoolOk(min, next, max, p.(inUse := p.inUse - {key}, reuse := p.reuse[key := id], refs := p.refs - {id}))
  {
    var id := p.inUse[key];
    forall i | i in p.refs - {id} ensures exists k :: k in p.inUse - {key} && (p.inUse - {key})[k] == i {
      var k :| k in p.inUse && p.inUse[k] == i;
      assert k in p.inUse - {key};
    }
  }

  /** Every operation keeps the pool exclusive. */
  lemma DoKeeps(min: int, next: int, max: int, p: Pool, op: Op)
    requires PoolOk(min, next, max, p)
    ensures PoolOk(min, NextOf(max, Do(p, op)), max, Do(p, op))
  {
    NextIs(min, next, max, p);
    match op
    case Get(key, pick) => GetKeeps(min, next, max, p, key, pick);
    case GetRef(key, ref, pick) => GetRefKeeps(min, next, max, p, key, ref, pick);
    case Release(key) => ReleaseKeeps(min, next, max, p, key);
    case ReleaseRef(key, ref) =>
      if key in p.inUse {
        ReleaseRefKeeps(min, next, max, p, key, ref);
      }
  }

  lemma ReleaseKeeps(min: int, next: int, max: int, p: Pool, key: Key)
    requires PoolOk(min, next, max, p)
    ensures PoolOk(min, next, max, ReleaseId(p, key).0)
  {
    if key in p.inUse && p.inUse[key] !in p.refs {
      FreeKeeps(min, next, max, p, key);
      assert p.refs - {p.inUse[key]} == p.refs;
    }
  }

  lemma ReleaseRefKeeps(min: int, next: int, max: int, p: Pool, key: Key, ref: Option<Ref>)
    requires PoolOk(min, next, max, p) && key in p.inUse
    ensures PoolOk(min, next, max, ReleaseIdWithRef(p, key, ref).0)
  {
    var id := p.inUse[key];
    var left := if ref.Some? then RefsOf(p, id) - {ref.value} else RefsOf(p, id);
    if left == {} {
      FreeKeeps(min, next, max, p, key);
      assert p.refs[id := left] - {id} == p.refs - {id};
    }
  }

  // ---------------------------------------------------------------------
  // Runs
  // ---------------------------------------------------------------------

  function RunOps(min: int, max: int, ops: seq<Op>): Pool {
    if ops == [] then Pool(Descending(min, max), map[], map[], map[])
    else Do(RunOps(min, max, ops[..|ops| - 1]), ops[|ops| - 1])
  }

  lemma {:induction false} RunKeeps(min: int, max: int, ops: seq<Op>)
    requires 1 <= min <= max
    ensures PoolOk(min, NextOf(max, RunOps(min, max, ops)), max, RunOps(min, max, ops))
  {
    DescendingAt(min, max);
    if ops != [] {
      RunKeeps(min, max, ops[..|ops| - 1]);
      var p := RunOps(min, max, ops[..|ops| - 1]);
      DoKeeps(min, NextOf(max, p), max, p, ops[|ops| - 1]);
    }
  }

  /** After any calls: ids in range, no two keys share one, and only ids in use have references. */
  lemma PoolStaysExclusive(min: int, max: int, ops: seq<Op>, a: Key, b: Key)
    requires 1 <= min <= max
    ensures var p := RunOps(min, max, ops);
      && (a in p.inUse && b in p.inUse && p.inUse[a] == p.inUse[b] ==> a == b)
      && (a in p.inUse && b in p.reuse ==> p.inUse[a] != p.reuse[b])
      && (a in p.inUse ==> min <= p.inUse[a] <= max)
      && forall id :: id in p.refs ==> p.refs[id] != {} && exists k :: k in p.inUse && p.inUse[k] == id
  {
    RunKeeps(min, max, ops);
  }

  /** Which key an id went to, oldest first: one entry per id that was newly assigned. */
  function Handed(min: int, max: int, ops: seq<Op>): seq<Key> {
    if ops == [] then []
    else
      var before := ops[..|ops| - 1];
      var op := ops[|ops| - 1];
      var p := RunOps(min, max, before);
      Handed(min, max, before)
      + if (op.Get? || op.GetRef?) && op.key !in p.inUse && op.key in Do(p, op).inUse then [op.key] else []
  }

  ghost predicate Owns(handed: seq<Key>, i: int, k: Key) {
    0 <= i < |handed| && handed[i] == k
  }

  /** The id under a key is the one that was handed to it. */
  ghost predicate Honours(min: int, handed: seq<Key>, m: map<Key, int>) {
    forall k :: k in m ==> Owns(handed, m[k] - min, k)
  }

  /** The next id goes to the key. */
  ghost predicate HandsNext(next: int, max: int, p: Pool, p': Pool, key: Key) {
    p'.inUse == p.inUse[key := next] && p'.reuse == p.reuse && NextOf(max, p') == next + 1
  }

  /** Ids in use stay; released ones may be forgotten. */
  ghost predicate LeavesIds(next: int, max: int, p: Pool, p': Pool) {
    && p'.inUse == p.inUse && NextOf(max, p') == next
    && forall k :: k in p'.reuse ==> k in p.reuse && p'.reuse[k] == p.reuse[k]
  }

  /** The id of the key becomes a released one. */
  ghost predicate FreesId(next: int, max: int, p: Pool, p': Pool, key: Key) {
    && key in p.inUse && p'.inUse == p.inUse - {key} && p'.reuse == p.reuse[key := p.inUse[key]]
    && NextOf(max, p') == next
  }

  predicate Gets(p: Pool, op: Op) {
    (op.Get? || op.GetRef?) && op.key !in p.inUse
  }

  /** An operation hands out the next id, releases one, or leaves ids in use alone. */
  lemma DoShape(min: int, next: int, max: int, p: Pool, op: Op)
    requires PoolOk(min, next, max, p)
    ensures Gets(p, op) ==>
      HandsNext(next, max, p, Do(p, op), op.key) || (op.key !in Do(p, op).inUse && LeavesIds(next, max, p, Do(p, op)))
    ensures !Gets(p, op) ==> LeavesIds(next, max, p, Do(p, op)) || FreesId(next, max, p, Do(p, op), op.key)
  {
    if Gets(p, op) {
      GetShape(min, next, max, p, op.key, op.pick);
    } else {
      HeldShape(min, next, max, p, op);
    }
  }

  lemma HeldShape(min: int, next: int, max: int, p: Pool, op: Op)
    requires PoolOk(min, next, max, p) && !Gets(p, op)
    ensures LeavesIds(next, max, p, Do(p, op)) || FreesId(next, max, p, Do(p, op), op.key)
  {
    NextIs(min, next, max, p);
    match op
    case Get(key, pick) => assert Do(p, op) == p;
    case GetRef(key, ref, pick) => assert Do(p, op).inUse == p.inUse && Do(p, op).reuse == p.reuse;
    case Release(key) => ReleaseShape(next, max, p, key);
    case ReleaseRef(key, ref) => ReleaseRefShape(next, max, p, key, ref);
  }

  lemma ReleaseShape(next: int, max: int, p: Pool, key: Key)
    requires NextOf(max, p) == next
    ensures LeavesIds(next, max, p, ReleaseId(p, key).0) || FreesId(next, max, p, ReleaseId(p, key).0, key)
  {}

  lemma ReleaseRefShape(next: int, max: int, p: Pool, key: Key, ref: Option<Ref>)
    requires NextOf(max, p) == next
    ensures var p' := ReleaseIdWithRef(p, key, ref).0; LeavesIds(next, max, p, p') || FreesId(next, max, p, p', key)
  {}

  lemma GetShape(min: int, next: int, max: int, p: Pool, key: Key, pick: Key)
    requires PoolOk(min, next, max, p) && key !in p.inUse
    ensures var (p', id) := GetId(p, key, pick);
      || (id != 0 && HandsNext(next, max, p, p', key))
      || (id == 0 && LeavesIds(next, max, p, p'))
  {
    AssignKeeps(min, next, max, p, key, pick);
    AssignShape(min, next, max, p, key, pick);
    var (p', id) := AssignId(p, key, pick);
    NextIs(min, if id == 0 then next else next + 1, max, p');
  }

  /** Ids are handed out once each, in the order min, min + 1, and so on: none is ever recycled. */
  lemma {:induction false} HandedOnce(min: int, max: int, ops: seq<Op>)
    requires 1 <= min <= max
    ensures var p := RunOps(min, max, ops); var handed := Handed(min, max, ops);
      NextOf(max, p) == min + |handed| && Honours(min, handed, p.inUse) && Honours(min, handed, p.reuse)
  {
    DescendingAt(min, max);
    if ops != [] {
      var before, op := ops[..|ops| - 1], ops[|ops| - 1];
      HandedOnce(min, max, before);
      RunKeeps(min, max, before);
      var p := RunOps(min, max, before);
      DoShape(min, NextOf(max, p), max, p, op);
      HandStep(min, max, p, Do(p, op), op.key, Handed(min, max, before), Handed(min, max, ops));
    }
  }

  lemma HandStep(min: int, max: int, p: Pool, p': Pool, key: Key, handed: seq<Key>, handed': seq<Key>)
    requires NextOf(max, p) == min + |handed| && Honours(min, handed, p.inUse) && Honours(min, handed, p.reuse)
    requires
      || (handed' == handed + [key] && HandsNext(NextOf(max, p), max, p, p', key))
      || (handed' == handed && LeavesIds(NextOf(max, p), max, p, p'))
      || (handed' == handed && FreesId(NextOf(max, p), max, p, p', key))
    ensures NextOf(max, p') == min + |handed'| && Honours(min, handed', p'.inUse) && Honours(min, handed', p'.reuse)
  {
    forall k | k in p'.reuse ensures Owns(handed', p'.reuse[k] - min, k) {
      if k in p.reuse && p.reuse[k] == p'.reuse[k] {
        assert Owns(handed, p.reuse[k] - min, k);
      } else {
        assert Owns(handed, p.inUse[k] - min, k);
      }
    }
    forall k | k in p'.inUse ensures Owns(handed', p'.inUse[k] - min, k) {
      if k in p.inUse && p.inUse[k] == p'.inUse[k] {
        assert Owns(handed, p.inUse[k] - min, k);
      }
    }
  }

  /**
   When a key gets an id after any calls, and which: the one it holds, or the next of the
   range, unless it has released one or all were handed out. A pool that has run dry refuses
   new keys for ever, whatever is released.
   */
  lemma {:induction false} GetGrantedIff(min: int, max: int, ops: seq<Op>, key: Key, pick: Key)
    requires 1 <= min <= max
    ensures var p := RunOps(min, max, ops); var handed := |Handed(min, max, ops)|;
      && handed <= max - min + 1
      && GetId(p, key, pick).1 ==
         if key in p.inUse then p.inUse[key]
         else if key in p.reuse || handed == max - min + 1 then 0
         else min + handed
  {
    var p := RunOps(min, max, ops);
    HandedOnce(min, max, ops);
    RunKeeps(min, max, ops);
    NextIs(min, NextOf(max, p), max, p);
  }

  /** What a refusal costs: the id the key has released, or in a dry pool one that some other key has, is forgotten. */
  lemma RefusalForgets(min: int, next: int, max: int, p: Pool, key: Key, pick: Key)
    requires PoolOk(min, next, max, p) && GetId(p, key, pick).1 == 0
    ensures key !in p.inUse && (key in p.reuse || p.unused == [])
    ensures GetId(p, key, pick).0 == p.(reuse := p.reuse - {if key in p.reuse then key else pick})
  {
    NextIs(min, next, max, p);
    if key !in p.inUse && key !in p.reuse {
      assert p.reuse == map[] ==> p.reuse - {pick} == p.reuse;
    }
  }

  /** The id was handed out and is not in use. */
  ghost predicate IsReleased(min: int, max: int, p: Pool, id: int) {
    min <= id < NextOf(max, p) && forall k :: k in p.inUse ==> p.inUse[k] != id
  }

  /** An id that was handed out and is not in use now will not be in use ever again. */
  lemma {:induction false} ReleasedIdNeverReturns(min: int, max: int, ops: seq<Op>, more: seq<Op>, id: int)
    requires 1 <= min <= max && IsReleased(min, max, RunOps(min, max, ops), id)
    ensures IsReleased(min, max, RunOps(min, max, ops + more), id)
  {
    if more == [] {
      assert ops + more == ops;
    } else {
      var before, op := ops + more[..|more| - 1], more[|more| - 1];
      ReleasedIdNeverReturns(min, max, ops, more[..|more| - 1], id);
      assert ops + more == before + [op];
      NotBackInRun(min, max, before, op, id);
    }
  }

  lemma NotBackInRun(min: int, max: int, before: seq<Op>, op: Op, id: int)
    requires 1 <= min <= max && IsReleased(min, max, RunOps(min, max, before), id)
    ensures IsReleased(min, max, RunOps(min, max, before + [op]), id)
  {
    assert (before + [op])[..|before|] == before;
    var p := RunOps(min, max, before);
    RunKeeps(min, max, before);
    NotBackByOne(min, NextOf(max, p), max, p, op, id);
  }

  lemma NotBackByOne(min: int, next: int, max: int, p: Pool, op: Op, id: int)
    requires PoolOk(min, next, max, p) && IsReleased(min, max, p, id)
    ensures IsReleased(min, max, Do(p, op), id)
  {
    NextIs(min, next, max, p);
    DoShape(min, next, max, p, op);
  }

  /** The comment's promise, exactly: a key gets the id it once had if and only if it still has it. */
  lemma SameIdOnlyWhileHeld(min: int, max: int, ops: seq<Op>, key: Key, pick: Key, id: int)
    requires 1 <= min <= max && min <= id
    requires id - min < |Handed(min, max, ops)| && Handed(min, max, ops)[id - min] == key
    ensures GetId(RunOps(min, max, ops), key, pick).1 == id <==>
      key in RunOps(min, max, ops).inUse && RunOps(min, max, ops).inUse[key] == id
  {
    var p := RunOps(min, max, ops);
    HandedOnce(min, max, ops);
    RunKeeps(min, max, ops);
    if key !in p.inUse {
      AssignShape(min, NextOf(max, p), max, p, key, pick);
    }
  }

  /** A key that released its id is refused once, although ids are free, and its id is lost. */
  lemma ReleasedKeyIsRefused(min: int, max: int)
    requires 1 <= min < max
    ensures var p := RunOps(min, max, [Get("a", ""), Release("a")]);
      && p.unused != [] && p.reuse == map["a" := min]
      && GetId(p, "a", "").1 == 0
      && GetId(GetId(p, "a", "").0, "a", "").1 == min + 1
  {
    var ops := [Get("a", ""), Release("a")];
    assert ops[..1] == [Get("a", "")] && ops[..1][..0] == [];
    var p0 := RunOps(min, max, []);
    DescendingAt(min, max);
    NextIs(min, min, max, p0);
    var p1 := RunOps(min, max, ops[..1]);
    assert p1 == Do(p0, Get("a", ""));
    var p2 := RunOps(min, max, ops);
    RunKeeps(min, max, ops);
    NextIs(min, min + 1, max, p2);
  }

  // ---------------------------------------------------------------------
  // References
  // ---------------------------------------------------------------------

  /** Releasing with a reference drops just that reference, and frees the id exactly when it was the last. */
  lemma ReleaseFreesOnLast(min: int, next: int, max: int, p: Pool, key: Key, ref: Ref)
    requires PoolOk(min, next, max, p) && key in p.inUse
    ensures var (p', id, n) := ReleaseIdWithRef(p, key, Some(ref));
      && id == p.inUse[key] && n == |RefsOf(p, id) - {ref}|
      && RefsOf(p', id) == RefsOf(p, id) - {ref}
      && (key !in p'.inUse <==> RefsOf(p, id) <= {ref})
      && (forall i :: i != id ==> RefsOf(p', i) == RefsOf(p, i))
      && (forall k :: k != key ==> (k in p'.inUse <==> k in p.inUse) && (k in p.inUse ==> p'.inUse[k] == p.inUse[k]))
  {}

  /** Getting with a reference adds just that reference and counts them. */
  lemma GetCountsReferences(min: int, next: int, max: int, p: Pool, key: Key, ref: Ref, pick: Key)
    requires PoolOk(min, next, max, p) && GetIdWithRef(p, key, Some(ref), pick).1 != 0
    ensures var (p', id, n) := GetIdWithRef(p, key, Some(ref), pick);
      && RefsOf(p', id) == RefsOf(p, id) + {ref} && n == |RefsOf(p', id)|
      && (key !in p.inUse ==> n == 1)
      && (forall i :: i != id ==> RefsOf(p', i) == RefsOf(p, i))
  {
    if key !in p.inUse {
      AssignShape(min, next, max, p, key, pick);
      assert next !in p.refs;
    }
  }

  /** Without references a release needs none; with references ReleaseID refuses. */
  lemma PlainReleaseNeedsNoReferences(min: int, next: int, max: int, p: Pool, key: Key)
    requires PoolOk(min, next, max, p) && key in p.inUse
    ensures var (p', id) := ReleaseId(p, key);
      if RefsOf(p, p.inUse[key]) != {} then id == 0 && p' == p
      else id == p.inUse[key] != 0 && p' == p.(inUse := p.inUse - {key}, reuse := p.reuse[key := id])
  {}

  /** The calls that can take a reference, without one: nothing is counted, and an id with references stays in use. */
  lemma WithoutReference(min: int, next: int, max: int, p: Pool, key: Key, pick: Key)
    requires PoolOk(min, next, max, p)
    ensures var (p', id, n) := GetIdWithRef(p, key, None, pick); (p', id) == GetId(p, key, pick) && n == 0
    ensures key in p.inUse ==>
      var (p', id, n) := ReleaseIdWithRef(p, key, None);
      && id == p.inUse[key] && n == 0
      && p' == if RefsOf(p, id) != {} then p else p.(inUse := p.inUse - {key}, reuse := p.reuse[key := id])
    ensures key !in p.inUse ==> ReleaseIdWithRef(p, key, None) == (p, 0, 0) && ReleaseId(p, key) == (p, 0)
  {
    if key in p.inUse && p.inUse[key] in p.refs {
      assert p.refs[p.inUse[key] := p.refs[p.inUse[key]]] == p.refs;
    } else if key in p.inUse {
      assert p.refs - {p.inUse[key]} == p.refs;
    }
  }

  // ---------------------------------------------------------------------
  // The methods
  // ---------------------------------------------------------------------

  class IDPool {
    var unusedIDs: seq<int>
    var idsInUse: map<Key, int>
    var idsForReuse: map<Key, int>
    var refs: map<int, set<Ref>>

    function Value(): Pool
      reads this
    {
      Pool(unusedIDs, idsInUse, idsForReuse, refs)
    }

    constructor (p: Pool)
      ensures Value() == p
    {
      unusedIDs, idsInUse, idsForReuse, refs := p.unused, p.inUse, p.reuse, p.refs;
    }

    method AssignKey(key: Key) returns (id: int, ghost pick: Key)
      modifies this
      ensures (Value(), id) == AssignId(old(Value()), key, pick)
    {
      pick := key;
      id := 0;
      if key in idsForReuse {
        // The id that stood here is dropped, not reused.
        idsForReuse := idsForReuse - {key};
      } else if |unusedIDs| != 0 {
        id := unusedIDs[|unusedIDs| - 1];
        unusedIDs := unusedIDs[..|unusedIDs| - 1];
      } else if idsForReuse != map[] {
        var oldKey :| oldKey in idsForReuse;
        pick := oldKey;
        idsForReuse := idsForReuse - {oldKey};
      } else {
        return 0, pick;
      }
      if id != 0 {
        idsInUse := idsInUse[key := id];
      }
    }

    method GetID(key: Key) returns (id: int, ghost pick: Key)
      modifies this
      ensures (Value(), id) == GetId(old(Value()), key, pick)
    {
      pick := key;
      if key in idsInUse {
        return idsInUse[key], pick;
      }
      id, pick := AssignKey(key);
    }

    method GetIDWithRef(key: Key, ref: Option<Ref>) returns (id: int, count: nat, ghost pick: Key)
      modifies this
      ensures (Value(), id, count) == GetIdWithRef(old(Value()), key, ref, pick)
    {
      id, pick := GetID(key);
      ghost var p := Value();
      if id == 0 {
        return 0, 0, pick;
      }
      if ref.Some? {
        if id !in refs {
          refs := refs[id := {}];
        }
        refs := refs[id := refs[id] + {ref.value}];
        assert refs == p.refs[id := RefsOf(p, id) + {ref.value}];
        return id, |refs[id]|, pick;
      }
      return id, 0, pick;
    }

    method ReleaseID(key: Key) returns (id: int)
      modifies this
      ensures (Value(), id) == ReleaseId(old(Value()), key)
    {
      if key !in idsInUse {
        return 0;
      }
      id := idsInUse[key];
      if id in refs {
        return 0;
      }
      idsInUse := idsInUse - {key};
      idsForReuse := idsForReuse[key := id];
    }

    method ReleaseIDWithRef(key: Key, ref: Option<Ref>) returns (id: int, count: nat)
      modifies this
      ensures (Value(), id, count) == ReleaseIdWithRef(old(Value()), key, ref)
    {
      if key !in idsInUse {
        return 0, 0;
      }
      id := idsInUse[key];
      assert id in refs ==> refs[id := refs[id]] == refs;
      if id in refs && ref.Some? {
        refs := refs[id := refs[id] - {ref.value}];
      }
      var left := if id in refs then refs[id] else {};
      if |left| == 0 {
        idsInUse := idsInUse - {key};
        refs := refs - {id};
        idsForReuse := idsForReuse[key := id];
      }
      if ref.Some? {
        return id, |left|;
      }
      return id, 0;
    }
  }
}
