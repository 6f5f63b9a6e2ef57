/** Structural comparison of operators: it decides equality of the trees they unfold to. */
module Compare {
  import opened Common
  import opened PhysicalPlan
  import opened Manager

  predicate ExprEq(e1: PExpr, e2: PExpr) {
    match (e1, e2)
    case (Const(v1), Const(v2)) =>
      (match (v1, v2)
       case (IntVal(i1), IntVal(i2)) => i1 == i2
       case (FloatVal(f1), FloatVal(f2)) => f1 == f2
       case (ByteVal(b1), ByteVal(b2)) => b1 == b2
       case (CharVal(s1), CharVal(s2)) => s1 == s2
       case _ => false)
    case (Comp(o1, l1, r1), Comp(o2, l2, r2)) => o1 == o2 && ExprEq(l1, l2) && ExprEq(r1, r2)
    case (AttrRef(a1), AttrRef(a2)) => a1.input == a2.input && a1.pos == a2.pos
    case _ => false
  }

  predicate PredEq(b1: seq<PBExpr>, b2: seq<PBExpr>) {
    if b1 == [] || b2 == [] then b1 == [] && b2 == []
    else
      && b1[0].op == b2[0].op
      && ExprEq(b1[0].left, b2[0].left)
      && ExprEq(b1[0].right, b2[0].right)
      && PredEq(b1[1..], b2[1..])
  }

  lemma {:induction false} ExprEqCorrect(e1: PExpr, e2: PExpr)
    ensures ExprEq(e1, e2) <==> e1 == e2
  {
    if e1.Comp? && e2.Comp? {
      ExprEqCorrect(e1.left, e2.left);
      ExprEqCorrect(e1.right, e2.right);
    }
  }

  lemma {:induction false} PredEqCorrect(b1: seq<PBExpr>, b2: seq<PBExpr>)
    ensures PredEq(b1, b2) <==> b1 == b2
  {
    if b1 != [] && b2 != [] {
      ExprEqCorrect(b1[0].left, b2[0].left);
      ExprEqCorrect(b1[0].right, b2[0].right);
      PredEqCorrect(b1[1..], b2[1..]);
      assert b1 == [b1[0]] + b1[1..] && b2 == [b2[0]] + b2[1..];
    }
  }

  /** Compares the projections of two operators of the same number of attributes. */
  method CompareProjs(p1: seq<PExpr>, p2: seq<PExpr>, numAttrs: nat) returns (same: bool)
    requires |p1| == |p2| == numAttrs
    ensures same <==> p1 == p2
  {
    var i := 0;
    while i < numAttrs
      invariant i <= numAttrs && forall k :: 0 <= k < i ==> p1[k] == p2[k]
    {
      ExprEqCorrect(p1[i], p2[i]);
      if !ExprEq(p1[i], p2[i]) {
        return false;
      }
      i := i + 1;
    }
    return true;
  }

  method CompareGroupAggrs(g1: seq<Attr>, a1: seq<(AggrFn, Attr)>, g2: seq<Attr>, a2: seq<(AggrFn, Attr)>)
    returns (same: bool)
    ensures same <==> g1 == g2 && a1 == a2
  {
    if |g1| != |g2| || |a1| != |a2| {
      return false;
    }
    var i := 0;
    while i < |a1|
      invariant i <= |a1| && forall k :: 0 <= k < i ==> a1[k] == a2[k]
    {
      if a1[i].1 != a2[i].1 || a1[i].0 != a2[i].0 {
        return false;
      }
      i := i + 1;
    }
    i := 0;
    while i < |g1|
      invariant i <= |g1| && forall k :: 0 <= k < i ==> g1[k] == g2[k]
    {
      if g1[i] != g2[i] {
        return false;
      }
      i := i + 1;
    }
    return true;
  }

  method ComparePartnWins(p1: seq<Attr>, rows1: nat, p2: seq<Attr>, rows2: nat) returns (same: bool)
    ensures same <==> p1 == p2 && rows1 == rows2
  {
    if |p1| != |p2| || rows1 != rows2 {
      return false;
    }
    var i := 0;
    while i < |p1|
      invariant i <= |p1| && forall k :: 0 <= k < i ==> p1[k] == p2[k]
    {
      if p1[i] != p2[i] {
        return false;
      }
      i := i + 1;
    }
    return true;
  }

  predicate SameKind(p1: Payload, p2: Payload) {
    match p1
    case Select(_) => p2.Select?
    case Project(_) => p2.Project?
    case Join(_, _, _) => p2.Join?
    case StrJoin(_, _, _) => p2.StrJoin?
    case JoinProject(_, _) => p2.JoinProject?
    case StrJoinProject(_, _) => p2.StrJoinProject?
    case GroupAggr(_, _) => p2.GroupAggr?
    case Distinct => p2.Distinct?
    case RowWin(_) => p2.RowWin?
    case RangeWin(_) => p2.RangeWin?
    case PartnWin(_, _) => p2.PartnWin?
    case Istream => p2.Istream?
    case Dstream => p2.Dstream?
    case Rstream => p2.Rstream?
    case Union => p2.Union?
    case Except => p2.Except?
    case StreamSource(_, _) => p2.StreamSource?
    case RelnSource(_, _) => p2.RelnSource?
    case QuerySource => p2.QuerySource?
    case Output(_, _) => p2.Output?
    case Sink => p2.Sink?
    case SsGen => p2.SsGen?
  }

  predicate ProjsFit(p: Payload, numAttrs: nat) {
    match p
    case Project(projs) => |projs| == numAttrs
    case JoinProject(projs, _) => |projs| == numAttrs
    case StrJoinProject(projs, _) => |projs| == numAttrs
    case _ => true
  }

  /** Compares what is specific to the kind; kinds that are never combined compare unequal. */
  method ComparePayloads(p1: Payload, p2: Payload, numAttrs: nat) returns (same: bool)
    requires SameKind(p1, p2) && ProjsFit(p1, numAttrs) && ProjsFit(p2, numAttrs)
    ensures same <==> p1 == p2 && !Unshareable(p1)
  {
    match p1
    case Select(pred) =>
      PredEqCorrect(pred, p2.pred);
      return PredEq(pred, p2.pred);
    case Project(projs) =>
      same := CompareProjs(projs, p2.projs, numAttrs);
    case Join(outer, inner, pred) =>
      PredEqCorrect(pred, p2.pred);
      return outer == p2.outer && inner == p2.inner && PredEq(pred, p2.pred);
    case StrJoin(outer, inner, pred) =>
      PredEqCorrect(pred, p2.pred);
      return outer == p2.outer && inner == p2.inner && PredEq(pred, p2.pred);
    case JoinProject(projs, pred) =>
      PredEqCorrect(pred, p2.pred);
      if !PredEq(pred, p2.pred) {
        return false;
      }
      same := CompareProjs(projs, p2.projs, numAttrs);
    case StrJoinProject(projs, pred) =>
      PredEqCorrect(pred, p2.pred);
      if !PredEq(pred, p2.pred) {
        return false;
      }
      same := CompareProjs(projs, p2.projs, numAttrs);
    case GroupAggr(groups, aggrs) =>
      same := CompareGroupAggrs(groups, aggrs, p2.groups, p2.aggrs);
    case RowWin(rows) =>
      return rows == p2.rows;
    case RangeWin(units) =>
      return units == p2.units;
    case PartnWin(partn, rows) =>
      same := ComparePartnWins(partn, rows, p2.partn, p2.rows);
    case Distinct => return true;
    case Istream => return true;
    case Dstream => return true;
    case Rstream => return true;
    case Union => return true;
    case Except => return true;
    case StreamSource(_, _) => return false;
    case RelnSource(_, _) => return false;
    case QuerySource => return false;
    case Output(_, _) => return false;
    case Sink => return false;
    case SsGen => return false;
  }

  /** The projections of a typed operator are as many as its attributes. */
  lemma TypedProjsFit(g: Graph, live: set<nat>, rank: seq<nat>, i: nat)
    requires Wf(g, live, rank) && AllTyped(g, live, rank) && i in live
    ensures ProjsFit(g[i].payload, |g[i].attrs|)
  {
    assert Typed(g, live, i);
  }

  method CompareAttrs(a1: seq<Column>, a2: seq<Column>) returns (same: bool)
    requires |a1| == |a2|
    ensures same <==> a1 == a2
  {
    var i := 0;
    while i < |a1|
      invariant i <= |a1| && forall k :: 0 <= k < i ==> a1[k] == a2[k]
    {
      if a1[i].typ != a2[i].typ || a1[i].len != a2[i].len {
        return false;
      }
      i := i + 1;
    }
    return true;
  }

  /** Two operators unfold to the same tree exactly if they are one, or agree in every part. */
  lemma UnfoldEqual(g: Graph, live: set<nat>, rank: seq<nat>, i: nat, j: nat)
    requires Wf(g, live, rank) && i in live && j in live && i != j
    ensures Unfold(g, live, rank, i) == Unfold(g, live, rank, j) <==>
      && g[i].payload == g[j].payload && !Unshareable(g[i].payload)
      && g[i].attrs == g[j].attrs && g[i].bStream == g[j].bStream
      && |g[i].inputs| == |g[j].inputs|
      && SameInputs(g, live, rank, g[i].inputs, g[j].inputs, |g[i].inputs|)
  {
    var t, u := Unfold(g, live, rank, i), Unfold(g, live, rank, j);
    if |g[i].inputs| == |g[j].inputs| {
      if SameInputs(g, live, rank, g[i].inputs, g[j].inputs, |g[i].inputs|) {
        assert t.ins == u.ins;
      } else {
        var k :| 0 <= k < |g[i].inputs|
          && Unfold(g, live, rank, g[i].inputs[k]) != Unfold(g, live, rank, g[j].inputs[k]);
        assert t.ins[k] != u.ins[k];
      }
    } else {
      assert |t.ins| != |u.ins|;
    }
  }

  ghost predicate SameInputs(g: Graph, live: set<nat>, rank: seq<nat>, us: seq<nat>, vs: seq<nat>, n: nat)
    requires Wf(g, live, rank) && n <= |us| == |vs|
    requires forall k :: 0 <= k < |us| ==> us[k] in live && vs[k] in live
  {
    forall k :: 0 <= k < n ==> Unfold(g, live, rank, us[k]) == Unfold(g, live, rank, vs[k])
  }

  /** Two operators compare equal exactly if they unfold to the same tree. */
  method CompareOperators(pm: PlanManager, op1: nat, op2: nat, ghost live: set<nat>, ghost rank: seq<nat>)
    returns (same: bool)
    requires Wf(pm.ops[..], live, rank) && AllTyped(pm.ops[..], live, rank) && op1 in live && op2 in live
    ensures same <==> Unfold(pm.ops[..], live, rank, op1) == Unfold(pm.ops[..], live, rank, op2)
    decreases rank[op1]
  {
    ghost var g := pm.ops[..];
    if op1 == op2 {
      return true;
    }
    UnfoldEqual(g, live, rank, op1, op2);
    var o1, o2 := pm.ops[op1], pm.ops[op2];
    if !SameKind(o1.payload, o2.payload) {
      return false;
    }
    if |o1.attrs| != |o2.attrs| || o1.bStream != o2.bStream || |o1.inputs| != |o2.inputs| {
      return false;
    }
    same := CompareAttrs(o1.attrs, o2.attrs);
    if !same {
      return;
    }
    var i := 0;
    while i < |o2.inputs|
      invariant i <= |o2.inputs| && SameInputs(g, live, rank, o1.inputs, o2.inputs, i)
    {
      assert o1.inputs[i] in live && rank[o1.inputs[i]] < rank[op1] && o2.inputs[i] in live;
      same := CompareOperators(pm, o1.inputs[i], o2.inputs[i], live, rank);
      if !same {
        return;
      }
      i := i + 1;
    }
    TypedProjsFit(g, live, rank, op1);
    TypedProjsFit(g, live, rank, op2);
    same := ComparePayloads(o1.payload, o2.payload, |o1.attrs|);
  }
}
