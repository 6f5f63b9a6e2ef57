/**
 The pool of physical operators: records in one fixed array, threaded by next and prev into a list
 of free operators and a list of operators in use.  The links are kept in arrays of their own.
 */
module Manager {
  import opened Common
  import opened PhysicalPlan

  // ---------------------------------------------------------------- doubly linked lists

  ghost predicate NoDup(s: seq<nat>) {
    forall j, k :: 0 <= j < k < |s| ==> s[j] != s[k]
  }

  /** The links thread the elements of s, in order, starting at head. */
  ghost predicate IsList(next: seq<Ptr>, prev: seq<Ptr>, head: Ptr, s: seq<nat>) {
    && |next| == |prev|
    && NoDup(s)
    && (forall k :: 0 <= k < |s| ==> s[k] < |next|)
    && head == (if s == [] then Null else At(s[0]))
    && (forall k {:trigger next[s[k]]} :: 0 <= k < |s| ==> next[s[k]] == if k + 1 < |s| then At(s[k + 1]) else Null)
    && (forall k {:trigger prev[s[k]]} :: 0 <= k < |s| ==> prev[s[k]] == if k > 0 then At(s[k - 1]) else Null)
  }

  function Without(s: seq<nat>, k: nat): (r: seq<nat>)
    requires k < |s|
    ensures |r| == |s| - 1
  {
    s[..k] + s[k + 1..]
  }

  /** The elements of the list are exactly those of the set. */
  ghost predicate Lists(s: seq<nat>, elems: set<nat>) {
    forall i {:trigger i in s} :: i in s <==> i in elems
  }

  lemma ListsAt(s: seq<nat>, elems: set<nat>, k: nat)
    requires Lists(s, elems) && k < |s|
    ensures s[k] in elems
  {
    assert s[k] in s;
  }

  lemma ListsIndex(s: seq<nat>, elems: set<nat>, i: nat) returns (k: nat)
    requires Lists(s, elems) && i in elems
    ensures k < |s| && s[k] == i
  {
    assert i in s;
    k :| 0 <= k < |s| && s[k] == i;
  }

  lemma WithoutIn(s: seq<nat>, k: nat)
    requires k < |s| && NoDup(s)
    ensures NoDup(Without(s, k))
    ensures forall i :: i in Without(s, k) <==> i in s && i != s[k]
  {
    forall i | i in s && i != s[k]
      ensures i in Without(s, k)
    {
      var j :| 0 <= j < |s| && s[j] == i;
      assert Without(s, k)[if j < k then j else j - 1] == i;
    }
  }

  lemma WithoutLists(s: seq<nat>, elems: set<nat>, k: nat)
    requires k < |s| && NoDup(s) && Lists(s, elems)
    ensures NoDup(Without(s, k)) && Lists(Without(s, k), elems - {s[k]})
  {
    WithoutIn(s, k);
  }

  lemma ListsPush(s: seq<nat>, elems: set<nat>, i: nat)
    requires Lists(s, elems)
    ensures Lists([i] + s, elems + {i})
  {
  }

  lemma ListFrame(next: seq<Ptr>, prev: seq<Ptr>, next2: seq<Ptr>, prev2: seq<Ptr>, head: Ptr, s: seq<nat>)
    requires IsList(next, prev, head, s) && |next2| == |prev2| == |next|
    requires forall i :: i in s ==> next2[i] == next[i] && prev2[i] == prev[i]
    ensures IsList(next2, prev2, head, s)
  {
  }

  lemma ListPush(next: seq<Ptr>, prev: seq<Ptr>, next2: seq<Ptr>, prev2: seq<Ptr>, head: Ptr, s: seq<nat>, i: nat)
    requires IsList(next, prev, head, s) && i !in s && i < |next|
    requires next2 == next[i := head]
    requires prev2 == (if s == [] then prev else prev[s[0] := At(i)])[i := Null]
    ensures IsList(next2, prev2, At(i), [i] + s)
  {
  }

  lemma ListRemove(next: seq<Ptr>, prev: seq<Ptr>, next2: seq<Ptr>, prev2: seq<Ptr>, head: Ptr, s: seq<nat>, k: nat)
    requires IsList(next, prev, head, s) && k < |s|
    requires next2 == if k > 0 then next[s[k - 1] := next[s[k]]] else next
    requires prev2 == if k + 1 < |s| then prev[s[k + 1] := prev[s[k]]] else prev
    ensures IsList(next2, prev2, if k > 0 then head else next[s[k]], Without(s, k))
  {
    WithoutIn(s, k);
    var r := Without(s, k);
    ListRemoveHead(next, prev, head, s, k);
    forall j | 0 <= j < |r|
      ensures r[j] < |next2|
      ensures next2[r[j]] == if j + 1 < |r| then At(r[j + 1]) else Null
      ensures prev2[r[j]] == if j > 0 then At(r[j - 1]) else Null
    {
      ListRemoveAt(next, prev, next2, prev2, head, s, k, j);
    }
    hide Without;
  }

  lemma ListRemoveHead(next: seq<Ptr>, prev: seq<Ptr>, head: Ptr, s: seq<nat>, k: nat)
    requires IsList(next, prev, head, s) && k < |s|
    ensures (if k > 0 then head else next[s[k]]) == if |s| == 1 then Null else At(Without(s, k)[0])
  {
    assert next[s[k]] == if k + 1 < |s| then At(s[k + 1]) else Null;
  }

  lemma ListRemoveAt(next: seq<Ptr>, prev: seq<Ptr>, next2: seq<Ptr>, prev2: seq<Ptr>, head: Ptr, s: seq<nat>,
                     k: nat, j: nat)
    requires IsList(next, prev, head, s) && k < |s| && j < |s| - 1
    requires next2 == if k > 0 then next[s[k - 1] := next[s[k]]] else next
    requires prev2 == if k + 1 < |s| then prev[s[k + 1] := prev[s[k]]] else prev
    ensures Without(s, k)[j] < |next2|
    ensures next2[Without(s, k)[j]] == if j + 2 < |s| then At(Without(s, k)[j + 1]) else Null
    ensures prev2[Without(s, k)[j]] == if j > 0 then At(Without(s, k)[j - 1]) else Null
  {
    var r := Without(s, k);
    var p := if j < k then j else j + 1;
    assert r[j] == s[p];
    assert j + 2 < |s| ==> r[j + 1] == s[if j + 1 < k then j + 1 else j + 2];
    assert j > 0 ==> r[j - 1] == s[if j - 1 < k then j - 1 else j];
    assert next[s[k]] == if k + 1 < |s| then At(s[k + 1]) else Null;
    assert prev[s[k]] == if k > 0 then At(s[k - 1]) else Null;
    assert k > 0 && p != k - 1 ==> s[p] != s[k - 1];
    assert k + 1 < |s| && p != k + 1 ==> s[p] != s[k + 1];
  }

  /** The slots below n are used, free or gone, and only one of these. */
  ghost predicate Partition(used: seq<nat>, free: seq<nat>, gone: set<nat>, n: nat) {
    && (forall i :: i in used ==> i !in free && i !in gone && i < n)
    && (forall i :: i in free ==> i !in gone && i < n)
    && (forall i :: i in gone ==> i < n)
    && (forall i: nat :: i < n ==> i in used || i in free || i in gone)
  }

  lemma PartitionDrop(used: seq<nat>, free: seq<nat>, gone: set<nat>, n: nat, k: nat)
    requires Partition(used, free, gone, n) && NoDup(used) && k < |used|
    ensures Partition(Without(used, k), free, gone + {used[k]}, n)
  {
    assert used[k] in used;
    WithoutIn(used, k);
  }

  lemma PartitionMove(used: seq<nat>, free: seq<nat>, gone: set<nat>, n: nat)
    requires NoDup(free) && free != [] && Partition(used, free, gone, n)
    ensures Partition([free[0]] + used, free[1..], gone, n)
  {
    assert Without(free, 0) == free[1..];
    WithoutIn(free, 0);
    assert free[0] in free;
    forall i | i in [free[0]] + used
      ensures i !in free[1..] && i !in gone && i < n
    {
    }
  }

  // ---------------------------------------------------------------- the pool

  class PlanManager {
    const ops: array<Operator>
    const next: array<Ptr>
    const prev: array<Ptr>
    var freeOps: Ptr
    var usedOps: Ptr

    ghost var used: seq<nat>
    ghost var free: seq<nat>
    /** The operators in use, as a set. */
    ghost var live: set<nat>
    /** Operators that were merged into others; they are never reused. */
    ghost var gone: set<nat>
    /** A measure that is lower on the inputs of an operator than on the operator. */
    ghost var rank: seq<nat>

    /** Every slot of the pool is in use, free or merged away, and only one of these. */
    ghost predicate PoolValid()
      reads this, next, prev
    {
      && next != prev
      && ops.Length == next.Length == prev.Length
      && IsList(next[..], prev[..], usedOps, used)
      && IsList(next[..], prev[..], freeOps, free)
      && Lists(used, live)
      && Partition(used, free, gone, ops.Length)
    }

    /** The pool is in order and the operators in use form a plan. */
    ghost predicate Valid()
      reads this, ops, next, prev
    {
      PoolValid() && GraphValid()
    }

    /** The operators in use form a plan. */
    ghost predicate GraphValid()
      reads this, ops
    {
      IsPlan(ops[..], live, rank)
    }

    /** Organizes all the operators as a list of free ones. */
    constructor (size: nat, blank: Operator)
      requires size > 0
      ensures PoolValid() && fresh(ops) && fresh(next) && fresh(prev)
      ensures ops.Length == size && used == [] && live == {} && gone == {}
      ensures free == seq(size, i requires 0 <= i < size => i)
      ensures forall i :: 0 <= i < size ==> ops[i] == blank
    {
      ops := new Operator[size](i => blank);
      next := new Ptr[size](i => Null);
      prev := new Ptr[size](i => Null);
      usedOps := Null;
      freeOps := At(0);
      used := [];
      live := {};
      free := seq(size, i requires 0 <= i < size => i);
      gone := {};
      new;
      var o := 1;
      while o < size
        invariant 1 <= o <= size
        invariant usedOps == Null && freeOps == At(0) && used == [] && live == {} && gone == {}
        invariant free == seq(size, i requires 0 <= i < size => i)
        invariant forall i :: 0 <= i < o ==> prev[i] == if i > 0 then At(i - 1) else Null
        invariant forall i :: 0 <= i < o ==> next[i] == if i + 1 < o then At(i + 1) else Null
        invariant forall i :: 0 <= i < size ==> ops[i] == blank
      {
        prev[o] := At(o - 1);
        next[o - 1] := At(o);
        next[o] := Null;
        o := o + 1;
      }
      assert |free| == size && forall i :: 0 <= i < size ==> free[i] == i;
      forall i: nat | i < size
        ensures i in free
      {
        assert free[i] == i;
      }
    }

    /**
     Moves the first free operator to the front of the used list.  The list of free operators must
     not be about to run empty: the new head is dereferenced.
     */
    method NewOp(kind: Payload) returns (op: Ptr)
      requires PoolValid() && |free| != 1
      modifies this, ops, next, prev
      ensures PoolValid() && gone == old(gone) && rank == old(rank)
      ensures old(free) == [] ==>
        op == Null && used == old(used) && live == old(live) && free == [] && ops[..] == old(ops[..])
      ensures old(free) != [] ==>
        && op == At(old(free)[0]) && used == [op.id] + old(used) && free == old(free)[1..]
        && live == old(live) + {op.id} && op.id !in old(live)
        && op.id < ops.Length
        && ops[..] == old(ops[..])[op.id := old(ops[free[0]]).(
             payload := kind, attrs := [], outputs := [], inputs := [])]
    {
      if freeOps == Null {
        return Null;
      }
      var o := PopFree();
      PushUsed(o);
      ops[o] := ops[o].(payload := kind, attrs := [], outputs := [], inputs := []);
      op := At(o);
    }

    /** Puts the operator taken off the free list at the front of the used list. */
    method PushUsed(o: nat)
      requires next != prev && next.Length == prev.Length == ops.Length && o < ops.Length && free != []
      requires IsList(next[..], prev[..], usedOps, used) && IsList(next[..], prev[..], freeOps, free[1..])
      requires Lists(used, live) && o !in used && prev[o] == Null
      requires Partition([o] + used, free[1..], gone, ops.Length)
      modifies this`usedOps, this`used, this`live, this`free, next, prev
      ensures PoolValid()
      ensures used == [o] + old(used) && live == old(live) + {o} && free == old(free)[1..]
    {
      ghost var n1, p1 := next[..], prev[..];
      assert used != [] ==> used[0] in used;
      next[o] := usedOps;
      if usedOps != Null {
        prev[usedOps.id] := At(o);
      }
      ListPush(n1, p1, next[..], prev[..], usedOps, used, o);
      assert forall i :: i in free[1..] ==> i !in [o] + used;
      ListFrame(n1, p1, next[..], prev[..], freeOps, free[1..]);
      ListsPush(used, live, o);
      hide IsList, Lists, Partition;
      usedOps := At(o);
      used := [o] + used;
      live := live + {o};
      free := free[1..];
    }

    /** Takes the first operator off the list of free ones. */
    method PopFree() returns (o: nat)
      requires PoolValid() && |free| >= 2
      modifies this`freeOps, next, prev
      ensures o == free[0] && o < ops.Length && o !in used && prev[o] == Null
      ensures IsList(next[..], prev[..], freeOps, free[1..])
      ensures IsList(next[..], prev[..], usedOps, used)
      ensures Partition([o] + used, free[1..], gone, ops.Length)
    {
      o := freeOps.id;
      ghost var n0, p0 := next[..], prev[..];
      assert o == free[0] && o in free && o !in used;
      assert n0[free[0]] == At(free[1]) && free[1] in free && p0[free[0]] == Null;
      freeOps := next[o];
      prev[freeOps.id] := Null;
      ListRemove(n0, p0, next[..], prev[..], At(o), free, 0);
      assert Without(free, 0) == free[1..];
      ListFrame(n0, p0, next[..], prev[..], usedOps, used);
      PartitionMove(used, free, gone, ops.Length);
    }

    /** Links the neighbours of a used operator to each other. */
    method Detach(op: nat, ghost k: nat)
      requires PoolValid() && k < |used| && used[k] == op
      modifies this`usedOps, next, prev
      ensures IsList(next[..], prev[..], usedOps, Without(used, k))
      ensures IsList(next[..], prev[..], freeOps, free)
    {
      ghost var n0, p0 := next[..], prev[..];
      assert n0[used[k]] == if k + 1 < |used| then At(used[k + 1]) else Null;
      assert p0[used[k]] == if k > 0 then At(used[k - 1]) else Null;
      if prev[op] != Null {
        next[prev[op].id] := next[op];
      } else {
        usedOps := next[op];
      }
      if next[op] != Null {
        prev[next[op].id] := prev[op];
      }
      ListRemove(n0, p0, next[..], prev[..], old(usedOps), used, k);
      ListFrame(n0, p0, next[..], prev[..], freeOps, free);
    }

    /** Moves an operator from the used list to the front of the free list. */
    method FreeOp(op: nat, ghost k: nat)
      requires PoolValid() && k < |used| && used[k] == op
      modifies this`usedOps, this`freeOps, this`used, this`live, this`free, next, prev
      ensures PoolValid()
      ensures used == Without(old(used), k) && live == old(live) - {op} && free == [op] + old(free)
    {
      assert op in used;
      WithoutIn(used, k);
      Detach(op, k);
      used := Without(used, k);
      live := live - {op};
      PushFree(op);
    }

    /** Puts a detached operator at the front of the free list. */
    method PushFree(op: nat)
      requires next != prev && next.Length == prev.Length == ops.Length && op < ops.Length
      requires IsList(next[..], prev[..], usedOps, used) && IsList(next[..], prev[..], freeOps, free)
      requires Lists(used, live) && op !in used && op !in free && Partition(used, [op] + free, gone, ops.Length)
      modifies this`freeOps, this`free, next, prev
      ensures PoolValid() && free == [op] + old(free)
    {
      ghost var n1, p1 := next[..], prev[..];
      assert free != [] ==> free[0] in free;
      next[op] := freeOps;
      prev[op] := Null;
      if freeOps != Null {
        prev[freeOps.id] := At(op);
      }
      ListPush(n1, p1, next[..], prev[..], freeOps, free, op);
      assert forall i :: i in used ==> i in [op] + free || i !in free;
      ListFrame(n1, p1, next[..], prev[..], usedOps, used);
      freeOps := At(op);
      free := [op] + free;
    }

    /**
     Takes an operator that was merged into another out of the used list.  Both neighbours are
     dereferenced, so it must be neither the first nor the last one.
     */
    method Unlink(op: nat, ghost k: nat)
      requires PoolValid() && 0 < k < |used| - 1 && used[k] == op
      modifies this`usedOps, this`used, this`live, this`gone, next, prev
      ensures PoolValid() && gone == old(gone) + {op}
      ensures used == Without(old(used), k) && live == old(live) - {op} && free == old(free)
    {
      ghost var n0, p0 := next[..], prev[..];
      assert n0[used[k]] == At(used[k + 1]) && p0[used[k]] == At(used[k - 1]);
      assert used[k - 1] in used && used[k + 1] in used && used[k - 1] != used[k + 1];
      var after := next[op];
      next[prev[op].id] := after;
      prev[after.id] := prev[op];
      ListRemove(n0, p0, next[..], prev[..], usedOps, used, k);
      ListFrame(n0, p0, next[..], prev[..], freeOps, free);
      WithoutLists(used, live, k);
      PartitionDrop(used, free, gone, ops.Length, k);
      hide IsList, Lists, Partition;
      used := Without(used, k);
      live := live - {op};
      gone := gone + {op};
    }
  }
}
