/**
 * A fixed-capacity pool of pre-built items with a parallel table of active flags
 * (src/engine/ObjectPool.ts). Items are addressed by slot index: releasing "an item" is
 * releasing its slot, and an index outside the pool stands for an object that is not a member.
 */
module Pool {
  import opened Wrappers

  /** Number of `true` entries of a flag sequence. */
  function CountTrue(s: seq<bool>): (n: nat)
    ensures n <= |s|
  {
    if |s| == 0 then 0 else CountTrue(s[..|s| - 1]) + (if s[|s| - 1] then 1 else 0)
  }

  /** Every flag is set exactly when the count is the length, and none is exactly when the
      count is zero. */
  lemma {:induction false} CountTrueExtremes(s: seq<bool>)
    ensures CountTrue(s) == |s| <==> forall i :: 0 <= i < |s| ==> s[i]
    ensures CountTrue(s) == 0 <==> forall i :: 0 <= i < |s| ==> !s[i]
    decreases |s|
  {
    if |s| > 0 {
      var init := s[..|s| - 1];
      CountTrueExtremes(init);
      assert forall i :: 0 <= i < |s| - 1 ==> s[i] == init[i];
    }
  }

  /** The set of active slots. */
  ghost function ActiveSet(s: seq<bool>): set<nat> {
    set i: nat | i < |s| && s[i]
  }

  /** The counter the pool keeps equals the size of the set of active slots. */
  lemma {:induction false} CountTrueIsActiveSetSize(s: seq<bool>)
    ensures CountTrue(s) == |ActiveSet(s)|
  {
    if |s| > 0 {
      var init := s[..|s| - 1];
      CountTrueIsActiveSetSize(init);
      var last := |s| - 1;
      assert ActiveSet(s) == ActiveSet(init) + (if s[last] then {last} else {});
      assert last !in ActiveSet(init);
    }
  }

  /** Overwriting one flag changes the count by the flag's change and by nothing else. */
  lemma {:induction false} CountTrueUpdate(s: seq<bool>, i: nat, b: bool)
    requires i < |s|
    ensures CountTrue(s[i := b]) ==
      CountTrue(s) - (if s[i] then 1 else 0) + (if b then 1 else 0)
  {
    var last := |s| - 1;
    var t := s[i := b];
    assert t[..last] == if i == last then s[..last] else s[..last][i := b];
    if i < last {
      CountTrueUpdate(s[..last], i, b);
    }
  }

  /** If the flags `a` split, slot by slot, into the disjoint flags `b` and `c`, the counts add up. */
  lemma {:induction false} CountTrueSplit(a: seq<bool>, b: seq<bool>, c: seq<bool>)
    requires |a| == |b| == |c|
    requires forall i :: 0 <= i < |a| ==> a[i] == (b[i] || c[i]) && !(b[i] && c[i])
    ensures CountTrue(a) == CountTrue(b) + CountTrue(c)
  {
    if |a| > 0 {
      var n := |a| - 1;
      CountTrueSplit(a[..n], b[..n], c[..n]);
    }
  }

  /** Index of the lowest inactive slot, or `|s|` when every slot is active. */
  function FirstFree(s: seq<bool>): (k: nat)
    ensures k <= |s|
    ensures forall j :: 0 <= j < k ==> s[j]
    ensures k < |s| ==> !s[k]
  {
    if |s| == 0 || !s[0] then 0 else 1 + FirstFree(s[1..])
  }

  /** The flags and items after an item is written into the lowest free slot, if there is one. */
  function Place<T>(flags: seq<bool>, items: seq<T>, x: T): (seq<bool>, seq<T>)
    requires |flags| == |items|
  {
    var k := FirstFree(flags);
    if k < |flags| then (flags[k := true], items[k := x]) else (flags, items)
  }

  /** Placing into a pool either fills the lowest free slot, raising the count by one, or,
      when every slot is taken, changes nothing. */
  lemma PlaceEffect<T>(flags: seq<bool>, items: seq<T>, x: T)
    requires |flags| == |items|
    ensures var (f, it) := Place(flags, items, x);
      |f| == |flags| && |it| == |items| &&
      (CountTrue(flags) == |flags| ==> f == flags && it == items) &&
      (CountTrue(flags) < |flags| ==>
        var k := FirstFree(flags);
        CountTrue(f) == CountTrue(flags) + 1 && f[k] && it[k] == x &&
        (forall j :: 0 <= j < k ==> flags[j]) &&
        (forall j :: 0 <= j < |flags| && j != k ==> f[j] == flags[j] && it[j] == items[j]))
  {
    var k := FirstFree(flags);
    CountTrueExtremes(flags);
    if k < |flags| {
      CountTrueUpdate(flags, k, true);
    }
  }

  /**
   * What a `forEachActive` pass computes. The callback sees the state `acc` it has built up so
   * far (the variables its closure captures), the item and its index, and returns the new state
   * and the item as it leaves it. Slots `i..` are still to be visited, in ascending order.
   */
  function Visit<A, T>(step: (A, T, nat) -> (A, T), acc: A, items: seq<T>, flags: seq<bool>, i: nat): (r: (A, seq<T>))
    requires |items| == |flags| && i <= |items|
    ensures |r.1| == |items|
    decreases |items| - i
  {
    if i == |items| then (acc, items)
    else if flags[i] then
      var next := step(acc, items[i], i);
      Visit(step, next.0, items[i := next.1], flags, i + 1)
    else Visit(step, acc, items, flags, i + 1)
  }

  /** The active slots from `i` on, in ascending order. */
  function ActiveFrom(flags: seq<bool>, i: nat): (r: seq<nat>)
    requires i <= |flags|
    ensures |r| <= |flags| - i
    decreases |flags| - i
  {
    if i == |flags| then []
    else if flags[i] then [i] + ActiveFrom(flags, i + 1)
    else ActiveFrom(flags, i + 1)
  }

  /** The active slots from `i` on are listed in strictly ascending order, each active slot
      from `i` on appears, and nothing else does. */
  lemma {:induction false} ActiveFromExactly(flags: seq<bool>, i: nat)
    requires i <= |flags|
    ensures forall k :: 0 <= k < |ActiveFrom(flags, i)| ==>
      i <= ActiveFrom(flags, i)[k] < |flags| && flags[ActiveFrom(flags, i)[k]]
    ensures forall j :: i <= j < |flags| && flags[j] ==> j in ActiveFrom(flags, i)
    ensures forall k, l :: 0 <= k < l < |ActiveFrom(flags, i)| ==> ActiveFrom(flags, i)[k] < ActiveFrom(flags, i)[l]
    decreases |flags| - i
  {
    if i < |flags| {
      ActiveFromExactly(flags, i + 1);
      var t := ActiveFrom(flags, i + 1);
      if flags[i] {
        assert forall k :: 1 <= k < |[i] + t| ==> ([i] + t)[k] == t[k - 1];
        assert forall j :: i < j < |flags| && flags[j] ==> j in t;
      }
    }
  }

  /** A callback that records each index it is handed. */
  function RecordIndex<T>(): (A: (seq<nat>, T, nat) -> (seq<nat>, T)) {
    (seen: seq<nat>, t: T, k: nat) => (seen + [k], t)
  }

  /** A callback that rewrites each item it is handed by `f` and keeps no state. */
  function Lift<A, T>(f: T -> T): ((A, T, nat) -> (A, T)) {
    (a: A, t: T, k: nat) => (a, f(t))
  }

  /** `forEachActive` visits exactly the active slots, each once, in ascending index order. */
  lemma {:induction false} VisitOrder<T>(seen: seq<nat>, items: seq<T>, flags: seq<bool>, i: nat)
    requires |items| == |flags| && i <= |items|
    ensures Visit(RecordIndex(), seen, items, flags, i) == (seen + ActiveFrom(flags, i), items)
    decreases |items| - i
  {
    var rec := RecordIndex<T>();
    if i < |items| {
      if flags[i] {
        var next := rec(seen, items[i], i);
        assert next == (seen + [i], items[i]);
        assert items[i := items[i]] == items;
        assert Visit(rec, seen, items, flags, i) == Visit(rec, seen + [i], items, flags, i + 1);
        VisitOrder(seen + [i], items, flags, i + 1);
        assert seen + [i] + ActiveFrom(flags, i + 1) == seen + ActiveFrom(flags, i);
      } else {
        VisitOrder(seen, items, flags, i + 1);
      }
    } else {
      assert seen + [] == seen;
    }
  }

  /** A pass with a stateless rewriting callback rewrites exactly the active items from `i` on. */
  lemma {:induction false} VisitRewrites<A, T>(f: T -> T, acc: A, items: seq<T>, flags: seq<bool>, i: nat)
    requires |items| == |flags| && i <= |items|
    ensures var r := Visit(Lift(f), acc, items, flags, i);
      r.0 == acc &&
      forall j :: 0 <= j < |items| ==> r.1[j] == if i <= j && flags[j] then f(items[j]) else items[j]
    decreases |items| - i
  {
    if i < |items| {
      if flags[i] {
        VisitRewrites(f, acc, items[i := f(items[i])], flags, i + 1);
      } else {
        VisitRewrites(f, acc, items, flags, i + 1);
      }
    }
  }

  /** Slot-wise: the active slots whose item satisfies `pred`. */
  function Matching<T>(flags: seq<bool>, items: seq<T>, pred: T -> bool): (m: seq<bool>)
    requires |flags| == |items|
    ensures |m| == |flags|
    ensures forall i :: 0 <= i < |m| ==> m[i] == (flags[i] && pred(items[i]))
  {
    seq(|flags|, i requires 0 <= i < |flags| => flags[i] && pred(items[i]))
  }

  class ObjectPool<T> {
    const items: array<T>
    const flags: array<bool>
    var activeCount: int

    ghost function Repr(): set<object> {
      {this, items, flags}
    }

    /** The class invariant: one flag per item and the counter equals the number of active slots. */
    ghost predicate Valid()
      reads this, flags
    {
      && items.Length == flags.Length
      && (items as object) != (flags as object)
      && activeCount == CountTrue(flags[..])
    }

    constructor (size: nat, factory: () -> T)
      ensures Valid() && fresh(items) && fresh(flags)
      ensures items.Length == size
      ensures forall i :: 0 <= i < size ==> items[i] == factory() && !flags[i]
      ensures activeCount == 0
    {
      items := new T[size](_ => factory());
      flags := new bool[size](_ => false);
      activeCount := 0;
      new;
      CountTrueExtremes(flags[..]);
    }

    /** The counter, which is exactly the number of active slots and at most the capacity. */
    function ActiveCount(): (n: int)
      requires Valid()
      reads this, flags
      ensures 0 <= n <= items.Length
      ensures n == |ActiveSet(flags[..])|
    {
      CountTrueIsActiveSetSize(flags[..]);
      activeCount
    }

    /** Marks the lowest inactive slot active and returns it; `None` when every slot is active. */
    method Acquire() returns (slot: Option<nat>)
      requires Valid()
      modifies this, flags
      ensures Valid()
      ensures var k := FirstFree(old(flags[..]));
        if k < flags.Length then
          slot == Some(k) && flags[..] == old(flags[..])[k := true] && activeCount == old(activeCount) + 1
        else
          slot == None && flags[..] == old(flags[..]) && activeCount == old(activeCount)
      ensures slot.None? <==> old(activeCount) == items.Length
    {
      CountTrueExtremes(flags[..]);
      var i := 0;
      while i < flags.Length
        invariant 0 <= i <= flags.Length
        invariant forall j :: 0 <= j < i ==> flags[j]
        invariant flags[..] == old(flags[..]) && activeCount == old(activeCount)
      {
        if !flags[i] {
          FirstFreeIs(flags[..], i);
          flags[i] := true;
          activeCount := activeCount + 1;
          CountTrueUpdate(old(flags[..]), i, true);
          return Some(i);
        }
        i := i + 1;
      }
      FirstFreeIs(flags[..], i);
      return None;
    }

    /** Writes through the reference `acquire` handed out for slot `k`: its item becomes `x`. */
    method Write(k: nat, x: T)
      requires Valid() && k < items.Length
      modifies items
      ensures Valid()
      ensures items[..] == old(items[..])[k := x]
    {
      items[k] := x;
    }

    /** Deactivates slot `idx` when it is an active slot of this pool; otherwise does nothing. */
    method Release(idx: int)
      requires Valid()
      modifies this, flags
      ensures Valid()
      ensures if 0 <= idx < flags.Length && old(flags[idx]) then
          flags[..] == old(flags[..])[idx := false] && activeCount == old(activeCount) - 1
        else
          flags[..] == old(flags[..]) && activeCount == old(activeCount)
    {
      if 0 <= idx < flags.Length && flags[idx] {
        CountTrueUpdate(flags[..], idx, false);
        flags[idx] := false;
        activeCount := activeCount - 1;
      }
    }

    /** Runs `step` on each active slot in ascending order, threading its state and storing the
        item it returns. */
    method ForEachActive<A>(step: (A, T, nat) -> (A, T), acc0: A) returns (acc: A)
      requires Valid()
      modifies items
      ensures Valid()
      ensures (acc, items[..]) == Visit(step, acc0, old(items[..]), flags[..], 0)
    {
      acc := acc0;
      var i := 0;
      while i < items.Length
        invariant 0 <= i <= items.Length
        invariant Visit(step, acc, items[..], flags[..], i) == Visit(step, acc0, old(items[..]), flags[..], 0)
      {
        if flags[i] {
          var next := step(acc, items[i], i);
          acc := next.0;
          items[i] := next.1;
        }
        i := i + 1;
      }
    }

    /** Deactivates every active slot whose item satisfies `pred`. */
    method ReleaseIf(pred: T -> bool)
      requires Valid()
      modifies this, flags
      ensures Valid()
      ensures forall j :: 0 <= j < flags.Length ==> flags[j] == (old(flags[j]) && !pred(items[j]))
      ensures activeCount == old(activeCount) - CountTrue(Matching(old(flags[..]), items[..], pred))
    {
      var i := 0;
      while i < flags.Length
        invariant 0 <= i <= flags.Length
        invariant Valid()
        invariant forall j :: 0 <= j < i ==> flags[j] == (old(flags[j]) && !pred(items[j]))
        invariant forall j :: i <= j < flags.Length ==> flags[j] == old(flags[j])
      {
        if flags[i] && pred(items[i]) {
          CountTrueUpdate(flags[..], i, false);
          flags[i] := false;
          activeCount := activeCount - 1;
        }
        i := i + 1;
      }
      CountTrueSplit(old(flags[..]), flags[..], Matching(old(flags[..]), items[..], pred));
    }

    /** Deactivates every slot; the items keep their contents. */
    method ReleaseAll()
      requires Valid()
      modifies this, flags
      ensures Valid()
      ensures forall j :: 0 <= j < flags.Length ==> !flags[j]
      ensures activeCount == 0
    {
      forall j | 0 <= j < flags.Length {
        flags[j] := false;
      }
      activeCount := 0;
      CountTrueExtremes(flags[..]);
    }
  }

  /** After `size` acquisitions from a fresh pool every slot is taken, so one more yields `None`. */
  method ExhaustFreshPool(size: nat) returns (acquired: seq<Option<nat>>, extra: Option<nat>)
    ensures |acquired| == size
    ensures forall k :: 0 <= k < size ==> acquired[k] == Some(k)
    ensures extra == None
  {
    var pool := new ObjectPool<int>(size, () => 0);
    acquired := [];
    var k := 0;
    while k < size
      invariant 0 <= k <= size && pool.Valid() && pool.items.Length == size
      invariant |acquired| == k && forall j :: 0 <= j < k ==> acquired[j] == Some(j)
      invariant forall j :: 0 <= j < size ==> pool.flags[j] == (j < k)
    {
      FirstFreeIs(pool.flags[..], k);
      var s := pool.Acquire();
      acquired := acquired + [s];
      k := k + 1;
    }
    CountTrueExtremes(pool.flags[..]);
    assert pool.activeCount == size;
    extra := pool.Acquire();
  }

  /** With capacity 1, acquire, release and acquire again hand out the same slot. */
  method ReacquireAfterRelease() returns (first: Option<nat>, second: Option<nat>)
    ensures first == Some(0) && second == first
  {
    var pool := new ObjectPool<int>(1, () => 0);
    first := pool.Acquire();
    pool.Release(first.value);
    second := pool.Acquire();
  }

  /** Releasing a slot twice leaves any pool as releasing it once does: the first release frees
      the slot if it was taken, and the second finds it free and changes nothing. */
  method DoubleReleaseIsIdempotent<T>(pool: ObjectPool<T>, idx: int) returns (onceFlags: seq<bool>, onceCount: int)
    requires pool.Valid()
    modifies pool, pool.flags
    ensures pool.Valid()
    ensures onceFlags == (if 0 <= idx < pool.flags.Length then old(pool.flags[..])[idx := false] else old(pool.flags[..]))
    ensures onceCount == CountTrue(onceFlags)
    ensures pool.flags[..] == onceFlags && pool.activeCount == onceCount
  {
    pool.Release(idx);
    onceFlags, onceCount := pool.flags[..], pool.activeCount;
    pool.Release(idx);
  }

  lemma FirstFreeIs(s: seq<bool>, i: nat)
    requires i <= |s| && (forall j :: 0 <= j < i ==> s[j]) && (i < |s| ==> !s[i])
    ensures FirstFree(s) == i
  {
  }
}
