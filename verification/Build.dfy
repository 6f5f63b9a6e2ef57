/** Constructors of physical operators: take a free operator, fill in its record, link it to its inputs. */
module Build {
  import opened Common
  import opened PhysicalPlan
  import opened Surgery
  import opened Manager
  import opened Extend
  import opened MergePasses

  /** What a successful constructor call leaves: one more operator in the plan, in front of the list. */
  ghost predicate Built(pm: PlanManager, g: Graph, used: seq<nat>, live: set<nat>, rank: seq<nat>, free: seq<nat>,
                        op: nat, p: Payload, attrs: seq<Column>, bStream: bool, ins: seq<nat>)
    reads pm, pm.ops, pm.next, pm.prev
    requires Wf(g, live, rank)
  {
    && pm.PoolValid()
    && pm.used == [op] + used && pm.live == live + {op} && free != [] && pm.free == free[1..] && op == free[0]
    && Added(g, pm.ops[..], live, op, ins)
    && pm.rank == RankAbove(rank, op, ins)
    && pm.ops[op].payload == p && pm.ops[op].attrs == attrs && pm.ops[op].bStream == bStream
    && pm.ops[op].queryClass == g[op].queryClass
    && (forall i :: i in live ==> pm.ops[i].queryClass == g[i].queryClass)
    && (forall i :: 0 <= i < |g| && i != op && i !in ins ==> pm.ops[i] == g[i])
  }

  /** The record of a new operator fits the records of its inputs. */
  predicate Fits(g: Graph, p: Payload, attrs: seq<Column>, bStream: bool, ins: seq<nat>)
    requires forall k :: 0 <= k < |ins| ==> ins[k] < |g|
  {
    && |ins| == Arity(p)
    && StreamRule(p, seq(|ins|, k requires 0 <= k < |ins| => g[ins[k]].bStream), bStream)
    && SchemaRule(p, seq(|ins|, k requires 0 <= k < |ins| => g[ins[k]].attrs), attrs)
    && RefsRule(p)
  }

  lemma BuiltTyped(g: Graph, g2: Graph, live: set<nat>, op: nat, ins: seq<nat>)
    requires (forall i :: i in live ==> i < |g|) && Added(g, g2, live, op, ins)
    requires Fits(g, g2[op].payload, g2[op].attrs, g2[op].bStream, ins)
    requires forall j :: j in live + {op} ==> j < |g2|
    ensures Typed(g2, live + {op}, op)
  {
    assert InputFlags(g2, ins) == seq(|ins|, k requires 0 <= k < |ins| => g[ins[k]].bStream);
    assert InputSchemas(g2, ins) == seq(|ins|, k requires 0 <= k < |ins| => g[ins[k]].attrs);
  }

  /** A plan with an operator added whose record fits is a plan. */
  lemma BuiltPlan(g: Graph, g2: Graph, live: set<nat>, rank: seq<nat>, op: nat, ins: seq<nat>)
    requires IsPlan(g, live, rank) && Added(g, g2, live, op, ins)
    requires Fits(g, g2[op].payload, g2[op].attrs, g2[op].bStream, ins)
    ensures IsPlan(g2, live + {op}, RankAbove(rank, op, ins))
  {
    BuiltTyped(g, g2, live, op, ins);
    AddedPlan(g, g2, live, rank, op, ins);
  }

  /** Adding an operator in front keeps operators before their inputs. */
  lemma AddedOrdered(g: Graph, g2: Graph, live: set<nat>, used: seq<nat>, op: nat, ins: seq<nat>)
    requires (forall i :: i in live ==> i < |g|) && Added(g, g2, live, op, ins) && Lists(used, live) && Ordered(g, used)
    requires forall i :: i in live ==> op !in g[i].inputs
    ensures Ordered(g2, [op] + used)
  {
    forall j, k | 0 <= j < |used| + 1 && 0 <= k < |used| + 1 && ([op] + used)[k] in g2[([op] + used)[j]].inputs
      ensures j < k
    {
      if j > 0 {
        ListsAt(used, live, j - 1);
        assert g2[used[j - 1]].inputs == g[used[j - 1]].inputs;
      }
      if k > 0 {
        ListsAt(used, live, k - 1);
      }
    }
  }

  /** A unary operator on top of `child`. */
  method MkUnary(pm: PlanManager, p: Payload, attrs: seq<Column>, bStream: bool, child: nat) returns (rc: int, op: nat)
    requires pm.Valid() && child in pm.live && |pm.free| != 1
    requires Fits(pm.ops[..], p, attrs, bStream, [child])
    modifies pm, pm.next, pm.prev, pm.ops
    ensures rc == 0 ==> pm.Valid()
    ensures rc == 0 ==>
      Built(pm, old(pm.ops[..]), old(pm.used), old(pm.live), old(pm.rank), old(pm.free), op, p, attrs, bStream, [child])
    ensures rc == 0 <==> old(pm.free) != [] && |old(pm.ops[child]).outputs| < MAX_OUT_BRANCHING
  {
    hide IsList, Partition, EdgesAgree, AllTyped, FanOutFits;
    ghost var g, live, rank := pm.ops[..], pm.live, pm.rank;
    var slot := pm.NewOp(p);
    if slot == Null {
      return -1, 0;
    }
    op := slot.id;
    pm.ops[op] := pm.ops[op].(attrs := attrs, bStream := bStream, inputs := [child]);
    rc := AddOutput(pm, child, op);
    if rc == 0 {
      UnaryAdded(g, pm.ops[..], live, rank, op, child);
      pm.rank := RankAbove(rank, op, [child]);
      BuiltPlan(g, pm.ops[..], live, rank, op, [child]);
    }
  }

  lemma UnaryAdded(g: Graph, g2: Graph, live: set<nat>, rank: seq<nat>, op: nat, child: nat)
    requires IsPlan(g, live, rank) && op < |g| && op !in live && child in live && |g[child].outputs| < MAX_OUT_BRANCHING
    requires |g2| == |g| && g2[op].inputs == [child] && g2[op].outputs == []
    requires g2[child] == g[child].(outputs := g[child].outputs + [op])
    requires forall i :: i in live && i != child ==> g2[i] == g[i]
    ensures Added(g, g2, live, op, [child])
  {
    forall i, x | i in live
      ensures Occ(g2[i].outputs, x) == Occ(g[i].outputs, x) + if x == op then Occ([child], i) else 0
    {
      OccOne(child, i);
      OccConcat(g[child].outputs, [op], x);
      OccOne(op, x);
    }
    forall i | i in live
      ensures |g2[i].outputs| == |g[i].outputs| + Occ([child], i)
    {
      OccOne(child, i);
    }
  }

  /** A binary operator on top of `left` and `right`, which may be the same. */
  method MkBinary(pm: PlanManager, p: Payload, attrs: seq<Column>, bStream: bool, left: nat, right: nat) returns (rc: int, op: nat)
    requires pm.Valid() && left in pm.live && right in pm.live && |pm.free| != 1
    requires Fits(pm.ops[..], p, attrs, bStream, [left, right])
    modifies pm, pm.next, pm.prev, pm.ops
    ensures rc == 0 ==> pm.Valid()
    ensures rc == 0 ==>
      Built(pm, old(pm.ops[..]), old(pm.used), old(pm.live), old(pm.rank), old(pm.free), op, p, attrs, bStream, [left, right])
    ensures rc == 0 <==>
      && old(pm.free) != [] && |old(pm.ops[left]).outputs| < MAX_OUT_BRANCHING
      && |old(pm.ops[right]).outputs| + (if left == right then 1 else 0) < MAX_OUT_BRANCHING
  {
    hide IsList, Partition, MoreReaders;
    ghost var g, live, rank := pm.ops[..], pm.live, pm.rank;
    var slot := pm.NewOp(p);
    if slot == Null {
      return -1, 0;
    }
    op := slot.id;
    pm.ops[op] := pm.ops[op].(attrs := attrs, bStream := bStream, inputs := [left, right]);
    rc := LinkTwo(pm, op, left, right, g, live, rank);
  }

  /** Links a new operator to its two inputs. */
  method LinkTwo(pm: PlanManager, op: nat, left: nat, right: nat, ghost g: Graph, ghost live: set<nat>, ghost rank: seq<nat>) returns (rc: int)
    requires pm.PoolValid() && pm.live == live + {op} && IsPlan(g, live, rank) && left in live && right in live
    requires op < |g| == pm.ops.Length && op !in live && pm.ops[op].inputs == [left, right] && pm.ops[op].outputs == []
    requires forall i :: i in live ==> pm.ops[i] == g[i]
    requires Fits(g, pm.ops[op].payload, pm.ops[op].attrs, pm.ops[op].bStream, [left, right])
    modifies pm`rank, pm.ops
    ensures rc == 0 <==>
      |g[left].outputs| < MAX_OUT_BRANCHING && |g[right].outputs| + (if left == right then 1 else 0) < MAX_OUT_BRANCHING
    ensures rc == 0 ==> pm.Valid() && Added(g, pm.ops[..], live, op, [left, right]) && pm.rank == RankAbove(rank, op, [left, right])
    ensures forall i :: 0 <= i < pm.ops.Length ==> pm.ops[i] == old(pm.ops[i]).(outputs := pm.ops[i].outputs)
    ensures forall i :: 0 <= i < pm.ops.Length && i != left && i != right ==> pm.ops[i] == old(pm.ops[i])
  {
    hide IsList, Partition, MoreReaders, EdgesAgree, AllTyped;
    rc := AddOutput(pm, left, op);
    if rc != 0 {
      return;
    }
    rc := AddOutput(pm, right, op);
    if rc == 0 {
      BinaryAdded(g, pm.ops[..], live, rank, op, left, right);
      pm.rank := RankAbove(rank, op, [left, right]);
      BuiltPlan(g, pm.ops[..], live, rank, op, [left, right]);
    }
  }

  lemma BinaryAdded(g: Graph, g2: Graph, live: set<nat>, rank: seq<nat>, op: nat, left: nat, right: nat)
    requires IsPlan(g, live, rank) && op < |g| && op !in live && left in live && right in live
    requires |g[left].outputs| < MAX_OUT_BRANCHING && |g[right].outputs| + (if left == right then 1 else 0) < MAX_OUT_BRANCHING
    requires |g2| == |g| && g2[op].inputs == [left, right] && g2[op].outputs == []
    requires forall i :: i in live ==>
      g2[i] == g[i].(outputs := g[i].outputs + (if i == left then [op] else []) + (if i == right then [op] else []))
    ensures Added(g, g2, live, op, [left, right])
  {
    forall i, x | i in live
      ensures Occ(g2[i].outputs, x) == Occ(g[i].outputs, x) + if x == op then Occ([left, right], i) else 0
    {
      TwoReaders(g[i].outputs, op, left, right, i, x);
    }
    forall i | i in live
      ensures |g2[i].outputs| == |g[i].outputs| + Occ([left, right], i)
    {
      OccTwo(left, right, i);
    }
  }

  lemma TwoReaders(outs: seq<nat>, op: nat, left: nat, right: nat, i: nat, x: nat)
    ensures Occ(outs + (if i == left then [op] else []) + (if i == right then [op] else []), x)
         == Occ(outs, x) + if x == op then Occ([left, right], i) else 0
  {
    var a: seq<nat>, b: seq<nat> := if i == left then [op] else [], if i == right then [op] else [];
    OccConcat(outs + a, b, x);
    OccConcat(outs, a, x);
    OccOne(op, x);
    OccTwo(left, right, i);
  }

  /** A source, which reads nothing. */
  method MkSource(pm: PlanManager, p: Payload, attrs: seq<Column>, bStream: bool) returns (rc: int, op: nat)
    requires pm.Valid() && |pm.free| != 1
    requires Fits(pm.ops[..], p, attrs, bStream, [])
    modifies pm, pm.next, pm.prev, pm.ops
    ensures rc == 0 ==> pm.Valid()
    ensures rc == 0 ==>
      Built(pm, old(pm.ops[..]), old(pm.used), old(pm.live), old(pm.rank), old(pm.free), op, p, attrs, bStream, [])
    ensures rc == 0 <==> old(pm.free) != []
  {
    hide IsList, Partition, MoreReaders;
    ghost var g, live, rank := pm.ops[..], pm.live, pm.rank;
    var slot := pm.NewOp(p);
    if slot == Null {
      return -1, 0;
    }
    op := slot.id;
    pm.ops[op] := pm.ops[op].(attrs := attrs, bStream := bStream, inputs := []);
    rc := 0;
    SourceAdded(g, pm.ops[..], live, rank, op);
    pm.rank := RankAbove(rank, op, []);
    BuiltPlan(g, pm.ops[..], live, rank, op, []);
  }

  lemma SourceAdded(g: Graph, g2: Graph, live: set<nat>, rank: seq<nat>, op: nat)
    requires IsPlan(g, live, rank) && op < |g| && op !in live && |g2| == |g| && g2[op].inputs == [] && g2[op].outputs == []
    requires forall i :: i in live ==> g2[i] == g[i]
    ensures Added(g, g2, live, op, [])
  {
  }

  // ---------------------------------------------------------------- sinks

  /** The plan so far, with sinks on top of some operators of the original one. */
  ghost predicate Sinking(g0: Graph, live0: set<nat>, used0: seq<nat>, g: Graph, live: set<nat>, used: seq<nat>, k: nat)
    requires (forall i :: i in live0 ==> i < |g0|) && (forall i :: i in live ==> i < |g|)
  {
    && Extends(g0, live0, g, live)
    && (forall i :: i in live && i !in live0 ==> g[i].payload.Sink?)
    && |used0| <= |used| && used[|used| - |used0|..] == used0
    && k <= |used0| && (forall m :: 0 <= m < k ==> !Unread(g, used0[m]))
  }

  /** What is still without readers from position k on, and room for as many sinks. */
  ghost predicate Left(g0: Graph, used0: seq<nat>, g: Graph, k: nat, free0: nat, free: nat) {
    && k <= |used0|
    && var left := Unreads(g, used0[k..]);
       left <= Unreads(g0, used0)
       && if free0 == 0 then free == 0 && left == Unreads(g0, used0) else left == {} || free > |left|
  }

  /**
   Puts a sink on every operator that nobody reads.  As for every new operator, the list of free ones
   must not be about to run empty.
   */
  method AddSinks(pm: PlanManager) returns (rc: int)
    requires pm.Valid() && Ordered(pm.ops[..], pm.used)
    requires pm.free == [] || Unreads(pm.ops[..], pm.used) == {} || |pm.free| > |Unreads(pm.ops[..], pm.used)|
    modifies pm, pm.next, pm.prev, pm.ops
    ensures rc == 0 <==> old(pm.free) != [] || Unreads(old(pm.ops[..]), old(pm.used)) == {}
    ensures rc == 0 ==> pm.Valid() && Ordered(pm.ops[..], pm.used)
    ensures rc == 0 ==> Sinking(old(pm.ops[..]), old(pm.live), old(pm.used), pm.ops[..], pm.live, pm.used, |old(pm.used)|)
    ensures rc == 0 ==> AllRead(pm.ops[..], pm.live)
  {
    ghost var g0, live0, used0, free0 := pm.ops[..], pm.live, pm.used, |pm.free|;
    SweepStart(pm);
    hide Sweeping;
    var op := pm.usedOps;
    ghost var k: nat := 0;
    while op != Null
      invariant k <= |used0| && op == At0(used0, k) && Sweeping(pm, g0, live0, used0, free0, k)
      decreases |used0| - k
    {
      rc, op := SinkNext(pm, op.id, g0, live0, used0, free0, k);
      if rc != 0 {
        return;
      }
      k := k + 1;
    }
    SweepEnd(pm, g0, live0, used0, free0);
    rc := 0;
  }

  /** The operators before position k of the original list have their sinks. */
  ghost predicate Sweeping(pm: PlanManager, g0: Graph, live0: set<nat>, used0: seq<nat>, free0: nat, k: nat)
    reads pm, pm.ops, pm.next, pm.prev
  {
    && (forall i :: i in live0 ==> i < |g0|) && Lists(used0, live0) && NoDup(used0)
    && pm.Valid() && Ordered(pm.ops[..], pm.used)
    && Sinking(g0, live0, used0, pm.ops[..], pm.live, pm.used, k)
    && Left(g0, used0, pm.ops[..], k, free0, |pm.free|)
  }

  lemma SweepStart(pm: PlanManager)
    requires pm.Valid() && Ordered(pm.ops[..], pm.used)
    requires pm.free == [] || Unreads(pm.ops[..], pm.used) == {} || |pm.free| > |Unreads(pm.ops[..], pm.used)|
    ensures Sweeping(pm, pm.ops[..], pm.live, pm.used, |pm.free|, 0)
    ensures pm.usedOps == At0(pm.used, 0)
  {
    hide EdgesAgree, AllTyped, FanOutFits, Partition;
    LeftStart(pm.ops[..], pm.live, pm.used, |pm.free|);
  }

  lemma SweepEnd(pm: PlanManager, g0: Graph, live0: set<nat>, used0: seq<nat>, free0: nat)
    requires Sweeping(pm, g0, live0, used0, free0, |used0|)
    ensures (forall i :: i in live0 ==> i < |g0|) && pm.Valid() && Ordered(pm.ops[..], pm.used)
    ensures Sinking(g0, live0, used0, pm.ops[..], pm.live, pm.used, |used0|)
    ensures AllRead(pm.ops[..], pm.live) && (free0 != 0 || Unreads(g0, used0) == {})
  {
    hide EdgesAgree, AllTyped, FanOutFits, Partition, IsList;
    SunkRead(g0, live0, used0, pm.ops[..], pm.live, pm.used);
    LeftEnd(g0, used0, pm.ops[..], free0, |pm.free|);
  }

  /** Puts a sink on the operator at position k if nobody reads it, and moves on. */
  method SinkNext(pm: PlanManager, op: nat, ghost g0: Graph, ghost live0: set<nat>, ghost used0: seq<nat>, ghost free0: nat, ghost k: nat)
    returns (rc: int, next: Ptr)
    requires k < |used0| && op == used0[k] && Sweeping(pm, g0, live0, used0, free0, k)
    modifies pm, pm.next, pm.prev, pm.ops
    ensures rc == 0 ==> Sweeping(pm, g0, live0, used0, free0, k + 1) && next == At0(used0, k + 1)
    ensures rc != 0 ==> free0 == 0 && Unreads(g0, used0) != {}
  {
    hide EdgesAgree, AllTyped, FanOutFits, Left, Partition;
    ghost var g, free := pm.ops[..], |pm.free|;
    if Unread(g, op) {
      LeftNow(g0, used0, g, k, free0, free);
    }
    rc := SinkOne(pm, op, g0, live0, used0, k);
    if rc != 0 {
      return rc, Null;
    }
    LeftNext(g0, live0, used0, g, pm.ops[..], k, free0, free, |pm.free|);
    NextInSuffix(pm.next[..], pm.prev[..], pm.usedOps, pm.used, used0, k);
    next := pm.next[op];
  }

  lemma LeftStart(g0: Graph, live0: set<nat>, used0: seq<nat>, free0: nat)
    requires (forall i :: i in live0 ==> i < |g0|) && Lists(used0, live0)
    requires free0 == 0 || Unreads(g0, used0) == {} || free0 > |Unreads(g0, used0)|
    ensures Sinking(g0, live0, used0, g0, live0, used0, 0) && Left(g0, used0, g0, 0, free0, free0)
  {
    assert used0[0..] == used0;
  }

  lemma LeftNow(g0: Graph, used0: seq<nat>, g: Graph, k: nat, free0: nat, free: nat)
    requires Left(g0, used0, g, k, free0, free) && k < |used0| && Unread(g, used0[k])
    ensures free != 1 && (free == 0 <==> free0 == 0) && Unreads(g0, used0) != {}
  {
    assert used0[k] == used0[k..][0];
    assert used0[k] in Unreads(g, used0[k..]);
  }

  lemma LeftEnd(g0: Graph, used0: seq<nat>, g: Graph, free0: nat, free: nat)
    requires Left(g0, used0, g, |used0|, free0, free)
    ensures free0 != 0 || Unreads(g0, used0) == {}
  {
  }

  lemma LeftNext(g0: Graph, live0: set<nat>, used0: seq<nat>, g: Graph, g2: Graph, k: nat, free0: nat, free: nat, free2: nat)
    requires Left(g0, used0, g, k, free0, free) && k < |used0| && NoDup(used0) && Lists(used0, live0)
    requires forall i :: i in live0 && i != used0[k] ==> Unread(g2, i) == Unread(g, i)
    requires if Unread(g, used0[k]) then free > 0 && free2 == free - 1 else free2 == free
    ensures Left(g0, used0, g2, k + 1, free0, free2)
  {
    var left := Unreads(g, used0[k..]);
    assert used0[k..] == [used0[k]] + used0[k + 1..];
    assert used0[k] !in used0[k + 1..];
    forall i | i in used0[k + 1..]
      ensures Unread(g2, i) == Unread(g, i)
    {
      assert i in used0;
    }
    assert Unreads(g2, used0[k + 1..]) == left - {used0[k]};
    assert Unread(g, used0[k]) <==> used0[k] in left;
  }

  lemma SunkRead(g0: Graph, live0: set<nat>, used0: seq<nat>, g: Graph, live: set<nat>, used: seq<nat>)
    requires (forall i :: i in live0 ==> i < |g0|) && (forall i :: i in live ==> i < |g|) && Lists(used0, live0)
    requires Sinking(g0, live0, used0, g, live, used, |used0|)
    ensures AllRead(g, live)
  {
    forall i | i in live && Unread(g, i)
      ensures g[i].payload.Sink?
    {
      if i in live0 {
        var m := ListsIndex(used0, live0, i);
      }
    }
  }

  /** Puts a sink on operator op if nobody reads it. */
  method SinkOne(pm: PlanManager, op: nat, ghost g0: Graph, ghost live0: set<nat>, ghost used0: seq<nat>, ghost k: nat) returns (rc: int)
    requires pm.Valid() && Ordered(pm.ops[..], pm.used) && k < |used0| && op == used0[k]
    requires (forall i :: i in live0 ==> i < |g0|) && Lists(used0, live0)
    requires Sinking(g0, live0, used0, pm.ops[..], pm.live, pm.used, k)
    requires Unread(pm.ops[..], op) ==> |pm.free| != 1
    modifies pm, pm.next, pm.prev, pm.ops
    ensures rc == 0 <==> old(pm.free) != [] || !Unread(old(pm.ops[..]), op)
    ensures rc == 0 ==> pm.Valid() && Ordered(pm.ops[..], pm.used)
    ensures rc == 0 ==> Sinking(g0, live0, used0, pm.ops[..], pm.live, pm.used, k + 1)
    ensures rc == 0 ==> pm.free == if Unread(old(pm.ops[..]), op) then old(pm.free)[1..] else old(pm.free)
    ensures rc == 0 ==> forall i :: i in live0 && i != op ==> Unread(pm.ops[..], i) == Unread(old(pm.ops[..]), i)
  {
    hide EdgesAgree, AllTyped;
    ghost var g, live, used, rank := pm.ops[..], pm.live, pm.used, pm.rank;
    ListsAt(used0, live0, k);
    rc := 0;
    if |pm.ops[op].outputs| == 0 && !pm.ops[op].payload.Output? && !pm.ops[op].payload.SsGen? {
      var sink;
      rc, sink := MkUnary(pm, Sink, pm.ops[op].attrs, pm.ops[op].bStream, op);
      if rc == 0 {
        SinkAdded(g0, live0, used0, g, live, used, rank, pm.ops[..], sink, op, k);
        AddedOrdered(g, pm.ops[..], live, used, sink, [op]);
      }
    }
  }

  /** Moving on in the part of the used list that was there from the start. */
  lemma NextInSuffix(next: seq<Ptr>, prev: seq<Ptr>, head: Ptr, used: seq<nat>, used0: seq<nat>, k: nat)
    requires IsList(next, prev, head, used) && |used0| <= |used| && used[|used| - |used0|..] == used0 && k < |used0|
    ensures used0[k] < |next| && next[used0[k]] == At0(used0, k + 1)
  {
    var at := |used| - |used0| + k;
    assert used[at] == used[|used| - |used0|..][k];
    NextInList(next, prev, head, used, at);
    assert k + 1 < |used0| ==> used[at + 1] == used[|used| - |used0|..][k + 1];
  }

  lemma SinkAdded(g0: Graph, live0: set<nat>, used0: seq<nat>, g: Graph, live: set<nat>, used: seq<nat>, rank: seq<nat>,
                  g2: Graph, sink: nat, op: nat, k: nat)
    requires (forall i :: i in live0 ==> i < |g0|) && Lists(used0, live0)
    requires Wf(g, live, rank) && Sinking(g0, live0, used0, g, live, used, k)
    requires k < |used0| && op == used0[k] && op in live && Added(g, g2, live, sink, [op]) && g2[sink].payload.Sink?
    requires forall i :: i in live && i != op ==> g2[i].outputs == g[i].outputs
    ensures Sinking(g0, live0, used0, g2, live + {sink}, [sink] + used, k + 1)
    ensures forall i :: i in live ==> sink !in g[i].inputs
  {
    OccOne(op, op);
    OccIn(g2[op].outputs, sink);
    assert ([sink] + used)[|used| + 1 - |used0|..] == used[|used| - |used0|..];
    forall m | 0 <= m < k
      ensures !Unread(g2, used0[m])
    {
      ListsAt(used0, live0, m);
      assert !Unread(g, used0[m]);
    }
  }
}
