/** In-place rewiring of the plan: adding readers, short-circuiting, merging. */
module Surgery {
  import opened Common
  import opened PhysicalPlan
  import opened Rewire
  import opened Manager

  /** Some of the references to a in ids have been redirected to b. */
  ghost predicate Partly(ids: seq<nat>, now: seq<nat>, a: nat, b: nat) {
    && |now| == |ids|
    && forall k :: 0 <= k < |ids| ==> now[k] == ids[k] || (ids[k] == a && now[k] == b)
  }

  /** The readers of a are being redirected to b; those listed in `pending` are still to go. */
  ghost predicate Redirecting(g: Graph, g2: Graph, live: set<nat>, a: nat, b: nat, pending: seq<nat>)
    requires |g2| == |g| && forall i :: i in live ==> i < |g|
  {
    forall r :: r in live && r != a ==>
      && Partly(g[r].inputs, g2[r].inputs, a, b)
      && Occ(g2[r].inputs, a) == Occ(pending, r)
  }

  lemma RedirectingDone(g: Graph, g2: Graph, live: set<nat>, a: nat, b: nat, r: nat)
    requires |g2| == |g| && (forall i :: i in live ==> i < |g|) && a != b
    requires Redirecting(g, g2, live, a, b, []) && r in live && r != a
    ensures g2[r].inputs == Redirect(g[r].inputs, a, b)
  {
    OccIn(g2[r].inputs, a);
  }

  /** Redirecting one more reference. */
  lemma RedirectingStep(g: Graph, g2: Graph, g3: Graph, live: set<nat>, a: nat, b: nat,
                        pending: seq<nat>, idx: nat)
    requires |g3| == |g2| == |g| && (forall i :: i in live ==> i < |g|) && a != b
    requires pending != [] && pending[0] in live && pending[0] != a
    requires Redirecting(g, g2, live, a, b, pending)
    requires idx < |g2[pending[0]].inputs| && g2[pending[0]].inputs[idx] == a
    requires g3[pending[0]].inputs == g2[pending[0]].inputs[idx := b]
    requires forall i :: i in live && i != pending[0] ==> g3[i].inputs == g2[i].inputs
    ensures Redirecting(g, g3, live, a, b, pending[1..])
  {
    forall r | r in live && r != a
      ensures Occ(g3[r].inputs, a) == Occ(pending[1..], r)
    {
      OccTail(pending, 0, r);
      assert pending[0..] == pending;
      if r == pending[0] {
        OccUpdate(g2[r].inputs, idx, b, a);
      }
    }
  }

  method GetOutputIndex(pm: PlanManager, child: nat, parent: nat) returns (o: nat)
    requires child < pm.ops.Length && parent in pm.ops[child].outputs
    ensures o < |pm.ops[child].outputs| && pm.ops[child].outputs[o] == parent
    ensures parent !in pm.ops[child].outputs[..o]
  {
    o := 0;
    while pm.ops[child].outputs[o] != parent
      invariant o < |pm.ops[child].outputs| && parent !in pm.ops[child].outputs[..o]
      decreases |pm.ops[child].outputs| - o
    {
      o := o + 1;
    }
  }

  method GetInputIndex(pm: PlanManager, parent: nat, child: nat) returns (i: nat)
    requires parent < pm.ops.Length && child in pm.ops[parent].inputs
    ensures i < |pm.ops[parent].inputs| && pm.ops[parent].inputs[i] == child
    ensures child !in pm.ops[parent].inputs[..i]
  {
    i := 0;
    while pm.ops[parent].inputs[i] != child
      invariant i < |pm.ops[parent].inputs| && child !in pm.ops[parent].inputs[..i]
      decreases |pm.ops[parent].inputs| - i
    {
      i := i + 1;
    }
  }

  /** Adds a reader unless there is no room for one. */
  method AddOutput(pm: PlanManager, child: nat, parent: nat) returns (rc: int)
    requires child < pm.ops.Length
    modifies pm.ops
    ensures rc == 0 || rc == -1
    ensures rc == 0 <==> |old(pm.ops[child]).outputs| < MAX_OUT_BRANCHING
    ensures rc != 0 ==> pm.ops[..] == old(pm.ops[..])
    ensures rc == 0 ==> pm.ops[..] == old(pm.ops[..])[child := old(pm.ops[child]).(
                          outputs := old(pm.ops[child]).outputs + [parent])]
  {
    if |pm.ops[child].outputs| >= MAX_OUT_BRANCHING {
      return -1;
    }
    pm.ops[child] := pm.ops[child].(outputs := pm.ops[child].outputs + [parent]);
    return 0;
  }

  /** Everything but the inputs and the readers is as it was. */
  ghost predicate SameButLinks(g: Graph, g2: Graph) {
    && |g2| == |g|
    && forall i :: 0 <= i < |g| ==> SameOp(g[i], g2[i]) && g2[i].queryClass == g[i].queryClass
  }

  /** The part of a rewiring done so far: b has taken over the first o readers of a. */
  ghost predicate TakingOver(g: Graph, g2: Graph, live: set<nat>, a: nat, b: nat, o: nat)
    requires (forall i :: i in live ==> i < |g|) && a < |g| && b < |g| && o <= |g[a].outputs|
  {
    && SameButLinks(g, g2)
    && g2[a] == g[a]
    && g2[b].outputs == g[b].outputs + g[a].outputs[..o]
    && (forall i :: 0 <= i < |g| && i != b ==> g2[i].outputs == g[i].outputs)
    && Redirecting(g, g2, live, a, b, g[a].outputs[o..])
  }

  /** A reader about to be redirected: it is live, distinct from a and b, and still reads a. */
  lemma NextReader(g: Graph, g2: Graph, live: set<nat>, rank: seq<nat>, a: nat, b: nat, o: nat)
    requires Wf(g, live, rank) && EdgesAgree(g, live) && a in live && b in live && a != b
    requires rank[b] <= rank[a] && o < |g[a].outputs|
    requires TakingOver(g, g2, live, a, b, o)
    ensures var r := g[a].outputs[o]; r in live && r != a && r != b && a in g2[r].inputs
  {
    var r := g[a].outputs[o];
    assert r in g[a].outputs;
    ReaderAbove(g, live, rank, a, r);
    OccTail(g[a].outputs, o, r);
    OccIn(g2[r].inputs, a);
  }

  lemma ReaderAbove(g: Graph, live: set<nat>, rank: seq<nat>, a: nat, r: nat)
    requires Wf(g, live, rank) && EdgesAgree(g, live) && a in live && r in g[a].outputs
    ensures r in live && a in g[r].inputs && rank[a] < rank[r]
  {
    assert r in live;
    OccIn(g[a].outputs, r);
    OccIn(g[r].inputs, a);
  }

  lemma InputReads(g: Graph, live: set<nat>, rank: seq<nat>, r: nat, p: nat)
    requires Wf(g, live, rank) && EdgesAgree(g, live) && r in live && p in g[r].inputs
    ensures p in live && r in g[p].outputs && rank[p] < rank[r]
  {
    OccIn(g[r].inputs, p);
    OccIn(g[p].outputs, r);
  }

  /** One iteration: the reader's reference and the reader list of b are updated. */
  lemma TakeOverStep(g: Graph, g2: Graph, g3: Graph, live: set<nat>, a: nat, b: nat, o: nat, r: nat, idx: nat)
    requires (forall i :: i in live ==> i < |g|) && a in live && b in live && a != b
    requires o < |g[a].outputs| && g[a].outputs[o] == r
    requires TakingOver(g, g2, live, a, b, o)
    requires r in live && r != a && r != b
    requires idx < |g2[r].inputs| && g2[r].inputs[idx] == a
    requires g3 == g2[r := g2[r].(inputs := g2[r].inputs[idx := b])][b := g2[b].(outputs := g2[b].outputs + [r])]
    ensures TakingOver(g, g3, live, a, b, o + 1)
  {
    var outs := g[a].outputs;
    assert outs[o..][1..] == outs[o + 1..] && outs[o..][0] == r;
    RedirectingStep(g, g2, g3, live, a, b, outs[o..], idx);
    assert outs[..o + 1] == outs[..o] + [r];
  }

  /** The readers of the two operators fit into one record while the first still is a reader. */
  predicate RoomFor(into: Operator, from: Operator) {
    from.outputs == [] || |into.outputs| + |from.outputs| <= MAX_OUT_BRANCHING
  }

  /**
   Removes an operator with one input from the plan: its readers read its input instead.  It
   succeeds exactly if there is room for these readers while the operator still is one.
   */
  method ShortCircuitInputOutput(pm: PlanManager, op: nat, ghost live: set<nat>, ghost rank: seq<nat>)
    returns (rc: int)
    requires Wf(pm.ops[..], live, rank) && EdgesAgree(pm.ops[..], live) && FanOutFits(pm.ops[..], live)
    requires op in live && |pm.ops[op].inputs| == 1
    modifies pm.ops
    ensures rc == 0 || rc == -1
    ensures rc == 0 <==> RoomFor(old(pm.ops[pm.ops[op].inputs[0]]), old(pm.ops[op]))
    ensures rc == 0 ==>
      ShortCircuited(old(pm.ops[..]), pm.ops[..], live, op, old(pm.ops[op]).inputs[0])
  {
    ghost var g := pm.ops[..];
    var inOp := pm.ops[op].inputs[0];
    assert inOp in g[op].inputs;
    InputReads(g, live, rank, op, inOp);
    var outputIdx := GetOutputIndex(pm, inOp, op);
    rc := TakeOverReaders(pm, op, inOp, live, rank);
    if rc == 0 {
      ghost var g2 := pm.ops[..];
      var outs := pm.ops[inOp].outputs;
      pm.ops[inOp] := pm.ops[inOp].(outputs := outs[outputIdx := outs[|outs| - 1]][..|outs| - 1]);
      ShortCircuitDone(g, g2, pm.ops[..], live, rank, op, inOp, outputIdx);
    }
  }

  /** What a successful short-circuit leaves. */
  ghost predicate ShortCircuited(g: Graph, g2: Graph, live: set<nat>, a: nat, b: nat)
    requires (forall i :: i in live ==> i < |g|) && a < |g| && b < |g|
  {
    && Spliced(g, g2, live, a, b)
    && SameButLinks(g, g2)
    && |g2[b].outputs| == |g[b].outputs| + |g[a].outputs| - 1
    && forall i :: i in live && i != b ==> g2[i].outputs == g[i].outputs
  }

  /** Lets the readers of a read b, and adds them to the readers of b while there is room. */
  method TakeOverReaders(pm: PlanManager, a: nat, b: nat, ghost live: set<nat>, ghost rank: seq<nat>) returns (rc: int)
    requires Wf(pm.ops[..], live, rank) && EdgesAgree(pm.ops[..], live)
    requires a in live && b in live && a != b && rank[b] <= rank[a]
    requires |pm.ops[b].outputs| <= MAX_OUT_BRANCHING
    modifies pm.ops
    ensures rc == 0 || rc == -1
    ensures rc == 0 <==> RoomFor(old(pm.ops[b]), old(pm.ops[a]))
    ensures rc == 0 ==> TakingOver(old(pm.ops[..]), pm.ops[..], live, a, b, |old(pm.ops[a]).outputs|)
  {
    ghost var g := pm.ops[..];
    var o := 0;
    rc := 0;
    assert g[a].outputs[0..] == g[a].outputs;
    while o < |pm.ops[a].outputs|
      invariant o <= |g[a].outputs|
      invariant TakingOver(g, pm.ops[..], live, a, b, o)
      invariant |g[b].outputs| + o <= MAX_OUT_BRANCHING
      invariant rc == 0
    {
      ghost var g2 := pm.ops[..];
      NextReader(g, g2, live, rank, a, b, o);
      var r := pm.ops[a].outputs[o];
      var inputIdx := GetInputIndex(pm, r, a);
      pm.ops[r] := pm.ops[r].(inputs := pm.ops[r].inputs[inputIdx := b]);
      rc := AddOutput(pm, b, r);
      if rc != 0 {
        return;
      }
      TakeOverStep(g, g2, pm.ops[..], live, a, b, o, r, inputIdx);
      o := o + 1;
    }
  }

  lemma ShortCircuitDone(g: Graph, g2: Graph, g3: Graph, live: set<nat>, rank: seq<nat>, a: nat, b: nat, k: nat)
    requires Wf(g, live, rank) && EdgesAgree(g, live) && a in live && b in live && a != b
    requires rank[b] < rank[a] && g[a].inputs == [b]
    requires TakingOver(g, g2, live, a, b, |g[a].outputs|)
    requires k < |g[b].outputs| && g[b].outputs[k] == a
    requires g3 == g2[b := g2[b].(outputs := g2[b].outputs[k := g2[b].outputs[|g2[b].outputs| - 1]][..|g2[b].outputs| - 1])]
    ensures ShortCircuited(g, g3, live, a, b)
  {
    var outs := g[a].outputs;
    assert outs[|outs|..] == [] && outs[..|outs|] == outs;
    forall i | i in live && i != a
      ensures g3[i].inputs == Redirect(g[i].inputs, a, b)
    {
      RedirectingDone(g, g2, live, a, b, i);
    }
    forall i, x | i in live && i != a
      ensures Occ(g3[i].outputs, x) == Readings(g, a, b, i, x)
    {
      OccOne(b, i);
      if i == b {
        OccSwapOut(g2[b].outputs, k, x);
        OccConcat(g[b].outputs, outs, x);
        NoSelfReader(g, live, rank, a);
      }
    }
  }

  // ---------------------------------------------------------------- merging equal operators

  /** Finds the last occurrence of x, which the caller knows to be there. */
  method FindLast(s: seq<nat>, x: nat) returns (found: nat)
    requires x in s
    ensures found < |s| && s[found] == x && x !in s[found + 1..]
  {
    found := |s|;
    var l := 0;
    while l < |s|
      invariant l <= |s|
      invariant found == |s| || found < l
      invariant found == |s| ==> x !in s[..l]
      invariant found < |s| ==> s[found] == x && forall k :: found < k < l ==> s[k] != x
    {
      if s[l] == x {
        found := l;
      }
      l := l + 1;
    }
  }

  /** Operator a has been taken off the reader lists of its first m inputs. */
  ghost predicate Leaving(g: Graph, g2: Graph, live: set<nat>, a: nat, m: nat)
    requires (forall i :: i in live ==> i < |g|) && a < |g| && m <= |g[a].inputs|
  {
    && SameButLinks(g, g2)
    && (forall i :: 0 <= i < |g| ==> g2[i].inputs == g[i].inputs)
    && g2[a] == g[a]
    && (forall i :: 0 <= i < |g| ==> |g2[i].outputs| <= |g[i].outputs|)
    && (forall i :: 0 <= i < |g| && i !in g[a].inputs ==> g2[i].outputs == g[i].outputs)
    && (forall p, x :: p in live && p != a ==>
         Occ(g2[p].outputs, x) + (if x == a then Occ(g[a].inputs[..m], p) else 0) == Occ(g[p].outputs, x))
  }

  lemma LeavingStep(g: Graph, g2: Graph, g3: Graph, live: set<nat>, a: nat, m: nat, p: nat, k: nat)
    requires (forall i :: i in live ==> i < |g|) && a < |g| && m < |g[a].inputs|
    requires Leaving(g, g2, live, a, m) && g[a].inputs[m] == p && p in live && p != a
    requires k < |g2[p].outputs| && g2[p].outputs[k] == a
    requires g3 == g2[p := g2[p].(outputs := g2[p].outputs[..k] + g2[p].outputs[k + 1..])]
    ensures Leaving(g, g3, live, a, m + 1)
  {
    var ids := g[a].inputs;
    assert ids[..m + 1] == ids[..m] + [p];
    assert p in ids;
    forall q, x | q in live && q != a
      ensures Occ(g3[q].outputs, x) + (if x == a then Occ(ids[..m + 1], q) else 0) == Occ(g[q].outputs, x)
    {
      OccConcat(ids[..m], [p], q);
      OccOne(p, q);
      if q == p {
        OccDrop(g2[p].outputs, k, x);
      }
    }
  }

  /** The reader list still to be shortened still has the operator on it. */
  lemma StillReader(g: Graph, g2: Graph, live: set<nat>, a: nat, m: nat)
    requires (forall i :: i in live ==> i < |g|) && a in live && m < |g[a].inputs|
    requires Leaving(g, g2, live, a, m) && g[a].inputs[m] in live && g[a].inputs[m] != a
    requires Occ(g[a].inputs, g[a].inputs[m]) == Occ(g[g[a].inputs[m]].outputs, a)
    ensures a in g2[g[a].inputs[m]].outputs
  {
    var p := g[a].inputs[m];
    OccSplit(g[a].inputs, m, p);
    OccIn(g2[p].outputs, a);
  }

  /** What a successful merge of a into b leaves. */
  ghost predicate Merged(g: Graph, g2: Graph, live: set<nat>, b: nat, a: nat)
    requires (forall i :: i in live ==> i < |g|) && a < |g| && b < |g|
  {
    && Spliced(g, g2, live, a, b)
    && |g2| == |g|
    && (forall i :: 0 <= i < |g| ==> SameOp(g[i], g2[i]))
    && (forall i :: 0 <= i < |g| && i != b ==> g2[i].queryClass == g[i].queryClass)
    && g2[b].queryClass == (if g[a].queryClass < g[b].queryClass then g[a].queryClass else g[b].queryClass)
    && g2[b].outputs == g[b].outputs + g[a].outputs
    && (forall i :: i in live && i != b && i !in g[a].inputs ==> g2[i].outputs == g[i].outputs)
    && (forall i :: i in live && i != b ==> |g2[i].outputs| <= |g[i].outputs|)
  }

  /**
   Merges op2 into op1: the readers of op2 read op1, and op2 leaves the reader lists of its inputs
   and the list of used operators.  Operators of different classes are left alone unless classes
   may share; that is the only reason for it to refuse.
   */
  method MergeOperators(pm: PlanManager, op1: nat, op2: nat, sharing: bool, ghost k: nat) returns (done: bool)
    requires pm.Valid() && op1 in pm.live && op1 != op2
    requires 0 < k < |pm.used| - 1 && pm.used[k] == op2
    requires pm.rank[op1] <= pm.rank[op2] && op1 !in pm.ops[op2].inputs
    requires |pm.ops[op1].outputs| + |pm.ops[op2].outputs| <= MAX_OUT_BRANCHING
    modifies pm`usedOps, pm`used, pm`live, pm`gone, pm.next, pm.prev, pm.ops
    ensures pm.PoolValid()
    ensures done <==> sharing || old(pm.ops[op1]).queryClass == old(pm.ops[op2]).queryClass
    ensures !done ==> pm.ops[..] == old(pm.ops[..]) && pm.used == old(pm.used) && pm.live == old(pm.live) && pm.gone == old(pm.gone)
    ensures done ==>
      && pm.used == Without(old(pm.used), k) && pm.live == old(pm.live) - {op2}
      && pm.gone == old(pm.gone) + {op2}
      && Merged(old(pm.ops[..]), pm.ops[..], old(pm.live), op1, op2)
  {
    if pm.ops[op1].queryClass != pm.ops[op2].queryClass && !sharing {
      return false;
    }
    ListsAt(pm.used, pm.live, k);
    MergeRecords(pm, op1, op2, pm.live, pm.rank);
    pm.Unlink(op2, k);
    done := true;
  }

  /** The part of a merge that concerns the operator records. */
  method MergeRecords(pm: PlanManager, op1: nat, op2: nat, ghost live: set<nat>, ghost rank: seq<nat>)
    requires Wf(pm.ops[..], live, rank) && EdgesAgree(pm.ops[..], live)
    requires op1 in live && op2 in live && op1 != op2
    requires rank[op1] <= rank[op2] && op1 !in pm.ops[op2].inputs
    modifies pm.ops
    ensures Merged(old(pm.ops[..]), pm.ops[..], live, op1, op2)
  {
    ghost var g := pm.ops[..];
    if pm.ops[op2].queryClass < pm.ops[op1].queryClass {
      pm.ops[op1] := pm.ops[op1].(queryClass := pm.ops[op2].queryClass);
    }
    ghost var g1 := pm.ops[..];
    Reclassed(g, g1, live, rank, op1, pm.ops[op1].queryClass);
    MoveReaders(pm, op1, op2, live, rank);
    ghost var g2 := pm.ops[..];
    LeaveInputs(pm, g1, op1, op2, live, rank);
    MergeDone(g, g1, g2, pm.ops[..], live, rank, op1, op2);
  }

  /** Changing the class of an operator changes nothing the links depend on. */
  lemma Reclassed(g: Graph, g1: Graph, live: set<nat>, rank: seq<nat>, b: nat, cls: int)
    requires Wf(g, live, rank) && EdgesAgree(g, live) && b in live
    requires g1 == g[b := g[b].(queryClass := cls)]
    ensures Wf(g1, live, rank) && EdgesAgree(g1, live)
  {
  }

  method MoveReaders(pm: PlanManager, b: nat, a: nat, ghost live: set<nat>, ghost rank: seq<nat>)
    requires Wf(pm.ops[..], live, rank) && EdgesAgree(pm.ops[..], live)
    requires a in live && b in live && a != b && rank[b] <= rank[a]
    modifies pm.ops
    ensures TakingOver(old(pm.ops[..]), pm.ops[..], live, a, b, |old(pm.ops[a]).outputs|)
  {
    ghost var g := pm.ops[..];
    var j := 0;
    assert g[a].outputs[0..] == g[a].outputs;
    while j < |pm.ops[a].outputs|
      invariant j <= |g[a].outputs|
      invariant TakingOver(g, pm.ops[..], live, a, b, j)
    {
      ghost var g2 := pm.ops[..];
      NextReader(g, g2, live, rank, a, b, j);
      var r := pm.ops[a].outputs[j];
      pm.ops[b] := pm.ops[b].(outputs := pm.ops[b].outputs + [r]);
      var found := FindLast(pm.ops[r].inputs, a);
      pm.ops[r] := pm.ops[r].(inputs := pm.ops[r].inputs[found := b]);
      TakeOverStep(g, g2, pm.ops[..], live, a, b, j, r, found);
      j := j + 1;
    }
  }

  method LeaveInputs(pm: PlanManager, ghost g: Graph, ghost b: nat, a: nat, ghost live: set<nat>, ghost rank: seq<nat>)
    requires Wf(g, live, rank) && EdgesAgree(g, live) && a in live && b in live
    requires a != b && b !in g[a].inputs
    requires |g| == pm.ops.Length && pm.ops[a] == g[a]
    requires forall i :: 0 <= i < |g| && i != b ==> pm.ops[i].outputs == g[i].outputs
    modifies pm.ops
    ensures Leaving(old(pm.ops[..]), pm.ops[..], live, a, |g[a].inputs|)
  {
    ghost var g2 := pm.ops[..];
    var m := 0;
    while m < |pm.ops[a].inputs|
      invariant m <= |g[a].inputs|
      invariant Leaving(g2, pm.ops[..], live, a, m)
    {
      var p := pm.ops[a].inputs[m];
      ghost var g3 := pm.ops[..];
      assert p in g[a].inputs && p in live && rank[p] < rank[a];
      StillReader(g2, g3, live, a, m);
      var found := FindLast(pm.ops[p].outputs, a);
      var outs := pm.ops[p].outputs;
      pm.ops[p] := pm.ops[p].(outputs := outs[..found] + outs[found + 1..]);
      LeavingStep(g2, g3, pm.ops[..], live, a, m, p, found);
      m := m + 1;
    }
  }

  lemma MergeDone(g: Graph, g1: Graph, g2: Graph, g3: Graph, live: set<nat>, rank: seq<nat>, b: nat, a: nat)
    requires Wf(g, live, rank) && EdgesAgree(g, live) && a in live && b in live && a != b
    requires rank[b] <= rank[a] && b !in g[a].inputs
    requires g1 == g[b := g[b].(queryClass := if g[a].queryClass < g[b].queryClass then g[a].queryClass else g[b].queryClass)]
    requires TakingOver(g1, g2, live, a, b, |g[a].outputs|)
    requires Leaving(g2, g3, live, a, |g[a].inputs|)
    ensures Merged(g, g3, live, b, a)
  {
    var outs := g[a].outputs;
    assert outs[..|outs|] == outs;
    assert g1[a].outputs == outs && g2[b].outputs == g[b].outputs + outs;
    MergeSplices(g, g1, g2, g3, live, rank, b, a);
  }

  lemma MergeSplices(g: Graph, g1: Graph, g2: Graph, g3: Graph, live: set<nat>, rank: seq<nat>, b: nat, a: nat)
    requires Wf(g, live, rank) && EdgesAgree(g, live) && a in live && b in live && a != b
    requires b !in g[a].inputs && |g1| == |g|
    requires forall i :: 0 <= i < |g| ==> g1[i].inputs == g[i].inputs && g1[i].outputs == g[i].outputs
    requires TakingOver(g1, g2, live, a, b, |g[a].outputs|)
    requires g2[b].outputs == g[b].outputs + g[a].outputs
    requires Leaving(g2, g3, live, a, |g[a].inputs|)
    ensures Spliced(g, g3, live, a, b)
  {
    assert g[a].outputs[|g[a].outputs|..] == [];
    forall i | i in live && i != a
      ensures g3[i].inputs == Redirect(g[i].inputs, a, b)
    {
      RedirectingDone(g1, g2, live, a, b, i);
    }
    MergeAllReaders(g, g2, g3, live, rank, b, a);
  }

  lemma MergeAllReaders(g: Graph, g2: Graph, g3: Graph, live: set<nat>, rank: seq<nat>, b: nat, a: nat)
    requires Wf(g, live, rank) && EdgesAgree(g, live) && a in live && b in live && a != b
    requires b !in g[a].inputs && |g2| == |g| && g2[a].inputs == g[a].inputs
    requires g2[b].outputs == g[b].outputs + g[a].outputs
    requires forall i :: i in live && i != b ==> g2[i].outputs == g[i].outputs
    requires Leaving(g2, g3, live, a, |g[a].inputs|)
    ensures forall i, x :: i in live && i != a ==>
      Occ(g3[i].outputs, x) == Readings(g, a, b, i, x)
  {
    forall i, x | i in live && i != a
      ensures Occ(g3[i].outputs, x) == Readings(g, a, b, i, x)
    {
      MergeReaders(g, g2, g3, live, rank, b, a, i, x);
    }
  }

  lemma MergeReaders(g: Graph, g2: Graph, g3: Graph, live: set<nat>, rank: seq<nat>, b: nat, a: nat, i: nat, x: nat)
    requires Wf(g, live, rank) && EdgesAgree(g, live) && a in live && b in live && a != b
    requires b !in g[a].inputs && |g2| == |g| && g2[a].inputs == g[a].inputs
    requires g2[b].outputs == g[b].outputs + g[a].outputs
    requires forall i :: i in live && i != b ==> g2[i].outputs == g[i].outputs
    requires Leaving(g2, g3, live, a, |g[a].inputs|)
    requires i in live && i != a
    ensures Occ(g3[i].outputs, x) == Readings(g, a, b, i, x)
  {
    assert g[a].inputs[..|g[a].inputs|] == g[a].inputs;
    OccConcat(g[b].outputs, g[a].outputs, x);
    NoSelfReader(g, live, rank, a);
    OccIn(g[a].inputs, b);
  }
}
