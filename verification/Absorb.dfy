/**
 Why an operator may take over the work of its only reader: selects fold into selects and joins,
 projects fold into joins.  References to a joined tuple become references to the pair.
 */
module Absorb {
  import opened Common
  import opened Bags
  import opened Histories
  import opened Semantics
  import opened PhysicalPlan

  /** The reference below a join with `outer` attributes on the left. */
  function TransToJoinAttr(attr: Attr, outer: nat): Attr {
    if outer <= attr.pos then Attr(1, attr.pos - outer) else attr
  }

  function TransToJoinExpr(e: PExpr, outer: nat): PExpr {
    match e
    case Const(_) => e
    case AttrRef(a) => AttrRef(TransToJoinAttr(a, outer))
    case Comp(op, l, r) => Comp(op, TransToJoinExpr(l, outer), TransToJoinExpr(r, outer))
  }

  function TransToJoinPred(pred: seq<PBExpr>, outer: nat): (r: seq<PBExpr>)
    ensures |r| == |pred|
  {
    if pred == [] then []
    else
      [BExpr(pred[0].op, TransToJoinExpr(pred[0].left, outer), TransToJoinExpr(pred[0].right, outer))]
      + TransToJoinPred(pred[1..], outer)
  }

  function TransToJoinProjs(projs: seq<PExpr>, outer: nat): (r: seq<PExpr>)
    ensures |r| == |projs|
  {
    seq(|projs|, k requires 0 <= k < |projs| => TransToJoinExpr(projs[k], outer))
  }

  /** Evaluating on the concatenated tuple is evaluating the transformed expression on the pair. */
  lemma {:induction false} TransExprEval(env: Env, e: PExpr, x: Tuple, y: Tuple)
    requires RefersTo(e, 0)
    ensures Eval(env, TransToJoinExpr(e, |x|), [x, y]) == Eval(env, e, [x + y])
  {
    match e
    case Const(_) =>
    case AttrRef(a) =>
    case Comp(op, l, r) =>
      TransExprEval(env, l, x, y);
      TransExprEval(env, r, x, y);
  }

  lemma {:induction false} TransPredAt(pred: seq<PBExpr>, outer: nat, k: nat)
    requires k < |pred|
    ensures TransToJoinPred(pred, outer)[k]
         == BExpr(pred[k].op, TransToJoinExpr(pred[k].left, outer), TransToJoinExpr(pred[k].right, outer))
  {
    if k > 0 {
      TransPredAt(pred[1..], outer, k - 1);
    }
  }

  lemma TransPredHolds(env: Env, pred: seq<PBExpr>, x: Tuple, y: Tuple)
    requires PredRefersTo(pred, 0)
    ensures Holds(env, TransToJoinPred(pred, |x|), [x, y]) <==> Holds(env, pred, [x + y])
  {
    var tp := TransToJoinPred(pred, |x|);
    forall k | 0 <= k < |pred|
      ensures HoldsAtom(env, tp[k], [x, y]) == HoldsAtom(env, pred[k], [x + y])
    {
      TransPredAt(pred, |x|, k);
      TransExprEval(env, pred[k].left, x, y);
      TransExprEval(env, pred[k].right, x, y);
    }
  }

  lemma TransProjsEmit(env: Env, projs: seq<PExpr>, x: Tuple, y: Tuple)
    requires forall k :: 0 <= k < |projs| ==> RefersTo(projs[k], 0)
    ensures Emit(env, TransToJoinProjs(projs, |x|), [x, y]) == Emit(env, projs, [x + y])
  {
    forall k | 0 <= k < |projs|
      ensures Emit(env, TransToJoinProjs(projs, |x|), [x, y])[k] == Emit(env, projs, [x + y])[k]
    {
      TransExprEval(env, projs[k], x, y);
    }
  }

  lemma HoldsBoth(env: Env, p: seq<PBExpr>, q: seq<PBExpr>, row: seq<Tuple>)
    ensures Holds(env, p + q, row) <==> Holds(env, p, row) && Holds(env, q, row)
  {
    var r := p + q;
    assert forall k :: 0 <= k < |p| ==> r[k] == p[k];
    assert forall k :: 0 <= k < |q| ==> r[|p| + k] == q[k];
    if Holds(env, r, row) {
      forall k | 0 <= k < |q|
        ensures HoldsAtom(env, q[k], row)
      {
        assert HoldsAtom(env, r[|p| + k], row);
      }
    }
  }

  // ---------------------------------------------------------------- per kind

  lemma SelectIntoSelect(env: Env, h: Hist, p: seq<PBExpr>, q: seq<PBExpr>)
    ensures FilterH(FilterH(h, Passes(env, p)), Passes(env, q)) == FilterH(h, Passes(env, p + q))
  {
    forall x: Tuple
      ensures Passes(env, p + q)(x) == (Passes(env, p)(x) && Passes(env, q)(x))
    {
      HoldsBoth(env, p, q, [x]);
    }
    forall t | 0 <= t < |h|
      ensures FilterH(FilterH(h, Passes(env, p)), Passes(env, q))[t] == FilterH(h, Passes(env, p + q))[t]
    {
      FilterFilter(h[t], Passes(env, p), Passes(env, q), Passes(env, p + q));
    }
  }

  lemma JoinsSelected(env: Env, p: seq<PBExpr>, q: seq<PBExpr>, x: Tuple, y: Tuple)
    requires PredRefersTo(q, 0)
    ensures Joins(env, p + TransToJoinPred(q, |x|))(x, y) == Bind(Joins(env, p)(x, y), Keep(Passes(env, q)))
  {
    HoldsBoth(env, p, TransToJoinPred(q, |x|), [x, y]);
    TransPredHolds(env, q, x, y);
    if Holds(env, p, [x, y]) {
      BindSingle(x + y, Keep(Passes(env, q)));
    }
  }

  /** A filter above a join is a longer join predicate. */
  lemma SelectIntoJoin(env: Env, a: Hist, b: Hist, p: seq<PBExpr>, q: seq<PBExpr>, outer: nat)
    requires |a| == |b| && HasWidth(a, outer) && PredRefersTo(q, 0)
    ensures FilterH(JoinH(a, b, Joins(env, p)), Passes(env, q)) == JoinH(a, b, Joins(env, p + TransToJoinPred(q, outer)))
  {
    forall t | 0 <= t < |a|
      ensures FilterH(JoinH(a, b, Joins(env, p)), Passes(env, q))[t]
           == JoinH(a, b, Joins(env, p + TransToJoinPred(q, outer)))[t]
    {
      forall x, y | x in a[t] && y in b[t]
        ensures Joins(env, p + TransToJoinPred(q, outer))(x, y) == Bind(Joins(env, p)(x, y), Keep(Passes(env, q)))
      {
        JoinsSelected(env, p, q, x, y);
      }
      BindJoin(a[t], b[t], Joins(env, p), Keep(Passes(env, q)), Joins(env, p + TransToJoinPred(q, outer)));
    }
  }

  lemma JoinsProjected(env: Env, p: seq<PBExpr>, projs: seq<PExpr>, x: Tuple, y: Tuple)
    requires forall k :: 0 <= k < |projs| ==> RefersTo(projs[k], 0)
    ensures JoinProjects(env, TransToJoinProjs(projs, |x|), p)(x, y) == Bind(Joins(env, p)(x, y), Each(Projects(env, projs)))
  {
    TransProjsEmit(env, projs, x, y);
    if Holds(env, p, [x, y]) {
      BindSingle(x + y, Each(Projects(env, projs)));
    }
  }

  /** A projection above a join is a joining projection. */
  lemma ProjectIntoJoin(env: Env, a: Hist, b: Hist, p: seq<PBExpr>, projs: seq<PExpr>, outer: nat)
    requires |a| == |b| && HasWidth(a, outer)
    requires forall k :: 0 <= k < |projs| ==> RefersTo(projs[k], 0)
    ensures MapH(JoinH(a, b, Joins(env, p)), Projects(env, projs))
         == JoinH(a, b, JoinProjects(env, TransToJoinProjs(projs, outer), p))
  {
    forall t | 0 <= t < |a|
      ensures MapH(JoinH(a, b, Joins(env, p)), Projects(env, projs))[t]
           == JoinH(a, b, JoinProjects(env, TransToJoinProjs(projs, outer), p))[t]
    {
      forall x, y | x in a[t] && y in b[t]
        ensures JoinProjects(env, TransToJoinProjs(projs, outer), p)(x, y)
             == Bind(Joins(env, p)(x, y), Each(Projects(env, projs)))
      {
        JoinsProjected(env, p, projs, x, y);
      }
      BindJoin(a[t], b[t], Joins(env, p), Each(Projects(env, projs)),
               JoinProjects(env, TransToJoinProjs(projs, outer), p));
    }
  }

  /** Work on the result of a join of relations or streams can be done on the joined state. */
  lemma ReportedJoin(ins: seq<Hist>, flags: seq<bool>, f: (Tuple, Tuple) -> Bag, g: Tuple -> Bag)
    requires |ins| == |flags| == 2 && |ins[0]| == |ins[1]|
    ensures BindH(Report(JoinH(View(ins[0], flags[0]), View(ins[1], flags[1]), f), flags[0] && flags[1]), g)
         == Report(BindH(JoinH(View(ins[0], flags[0]), View(ins[1], flags[1]), f), g), flags[0] && flags[1])
  {
    if flags[0] && flags[1] {
      ViewsJoinGrows(ins[0], ins[1], f);
    }
    ReportBind(JoinH(View(ins[0], flags[0]), View(ins[1], flags[1]), f), g, flags[0] && flags[1]);
  }

  // ---------------------------------------------------------------- payloads

  /** The payload of an operator after it took over the work of its reader, if it can. */
  function Absorbed(into: Payload, from: Payload): (r: Payload)
    requires CanAbsorb(into, from)
  {
    match from
    case Select(q) =>
      (match into
       case Select(p) => Select(p + q)
       case Join(outer, inner, p) => Join(outer, inner, p + TransToJoinPred(q, outer))
       case StrJoin(outer, inner, p) => StrJoin(outer, inner, p + TransToJoinPred(q, outer)))
    case Project(projs) =>
      (match into
       case Join(outer, _, p) => JoinProject(TransToJoinProjs(projs, outer), p)
       case StrJoin(outer, _, p) => StrJoinProject(TransToJoinProjs(projs, outer), p))
    case QuerySource => into
  }

  /** Selects fold into selects and joins, projects into joins, query sources into anything. */
  predicate CanAbsorb(into: Payload, from: Payload) {
    || (from.Select? && (into.Select? || into.Join? || into.StrJoin?))
    || (from.Project? && (into.Join? || into.StrJoin?))
    || from.QuerySource?
  }

  function OuterAttrs(p: Payload): nat {
    match p
    case Join(outer, _, _) => outer
    case StrJoin(outer, _, _) => outer
    case _ => 0
  }

  /** An operator that absorbed its reader computes what the reader computed. */
  lemma AbsorbedDen(env: Env, n: nat, into: Payload, from: Payload, flags: seq<bool>, ins: seq<Hist>, flag: bool)
    requires CanAbsorb(into, from) && RefsRule(from)
    requires |flags| == |ins| == Arity(into) && forall k :: 0 <= k < |ins| ==> |ins[k]| == n
    requires into.Join? || into.StrJoin? ==> HasWidth(ins[0], OuterAttrs(into))
    ensures OpDen(env, n, Absorbed(into, from), flags, ins)
         == OpDen(env, n, from, [flag], [OpDen(env, n, into, flags, ins)])
  {
    match from
    case QuerySource =>
    case Select(q) => SelectAbsorbed(env, n, into, q, flags, ins, flag);
    case Project(projs) => ProjectAbsorbed(env, n, into, projs, flags, ins, flag);
  }

  lemma SelectAbsorbed(env: Env, n: nat, into: Payload, q: seq<PBExpr>, flags: seq<bool>, ins: seq<Hist>, flag: bool)
    requires CanAbsorb(into, Select(q)) && PredRefersTo(q, 0)
    requires |flags| == |ins| == Arity(into) && forall k :: 0 <= k < |ins| ==> |ins[k]| == n
    requires into.Join? || into.StrJoin? ==> HasWidth(ins[0], OuterAttrs(into))
    ensures OpDen(env, n, Absorbed(into, Select(q)), flags, ins)
         == OpDen(env, n, Select(q), [flag], [OpDen(env, n, into, flags, ins)])
  {
    match into
    case Select(p) => SelectIntoSelect(env, ins[0], p, q);
    case Join(outer, _, p) =>
      ViewWidth(ins[0], flags[0], outer);
      ReportedJoin(ins, flags, Joins(env, p), Keep(Passes(env, q)));
      SelectIntoJoin(env, View(ins[0], flags[0]), View(ins[1], flags[1]), p, q, outer);
    case StrJoin(outer, _, p) =>
      SelectIntoJoin(env, ins[0], View(ins[1], flags[1]), p, q, outer);
  }

  lemma ProjectAbsorbed(env: Env, n: nat, into: Payload, projs: seq<PExpr>, flags: seq<bool>, ins: seq<Hist>, flag: bool)
    requires CanAbsorb(into, Project(projs)) && RefsRule(Project(projs))
    requires |flags| == |ins| == 2 && forall k :: 0 <= k < |ins| ==> |ins[k]| == n
    requires HasWidth(ins[0], OuterAttrs(into))
    ensures OpDen(env, n, Absorbed(into, Project(projs)), flags, ins)
         == OpDen(env, n, Project(projs), [flag], [OpDen(env, n, into, flags, ins)])
  {
    match into
    case Join(outer, inner, p) => ProjectIntoJoinDen(env, n, outer, inner, p, projs, flags, ins, flag);
    case StrJoin(outer, inner, p) => ProjectIntoStrJoinDen(env, n, outer, inner, p, projs, flags, ins, flag);
  }

  lemma ProjectIntoJoinDen(env: Env, n: nat, outer: nat, inner: nat, p: seq<PBExpr>, projs: seq<PExpr>, flags: seq<bool>, ins: seq<Hist>, flag: bool)
    requires RefsRule(Project(projs)) && |flags| == |ins| == 2 && forall k :: 0 <= k < |ins| ==> |ins[k]| == n
    requires HasWidth(ins[0], outer)
    ensures OpDen(env, n, JoinProject(TransToJoinProjs(projs, outer), p), flags, ins)
         == OpDen(env, n, Project(projs), [flag], [OpDen(env, n, Join(outer, inner, p), flags, ins)])
  {
    JoinDen(env, n, outer, inner, p, flags, ins);
    ProjectDen(env, n, projs, flag, OpDen(env, n, Join(outer, inner, p), flags, ins));
    JoinProjectDen(env, n, TransToJoinProjs(projs, outer), p, flags, ins);
    ProjectReportedJoin(env, ins, flags, p, projs, outer);
  }

  lemma ProjectIntoStrJoinDen(env: Env, n: nat, outer: nat, inner: nat, p: seq<PBExpr>, projs: seq<PExpr>, flags: seq<bool>, ins: seq<Hist>, flag: bool)
    requires RefsRule(Project(projs)) && |flags| == |ins| == 2 && forall k :: 0 <= k < |ins| ==> |ins[k]| == n
    requires HasWidth(ins[0], outer)
    ensures OpDen(env, n, StrJoinProject(TransToJoinProjs(projs, outer), p), flags, ins)
         == OpDen(env, n, Project(projs), [flag], [OpDen(env, n, StrJoin(outer, inner, p), flags, ins)])
  {
    StrJoinDen(env, n, outer, inner, p, flags, ins);
    ProjectDen(env, n, projs, flag, OpDen(env, n, StrJoin(outer, inner, p), flags, ins));
    StrJoinProjectDen(env, n, TransToJoinProjs(projs, outer), p, flags, ins);
    ProjectIntoJoin(env, ins[0], View(ins[1], flags[1]), p, projs, outer);
  }

  lemma ProjectReportedJoin(env: Env, ins: seq<Hist>, flags: seq<bool>, p: seq<PBExpr>, projs: seq<PExpr>, outer: nat)
    requires |ins| == |flags| == 2 && |ins[0]| == |ins[1]| && HasWidth(ins[0], outer)
    requires RefsRule(Project(projs))
    ensures MapH(Report(JoinH(View(ins[0], flags[0]), View(ins[1], flags[1]), Joins(env, p)), flags[0] && flags[1]),
                 Projects(env, projs))
         == Report(JoinH(View(ins[0], flags[0]), View(ins[1], flags[1]), JoinProjects(env, TransToJoinProjs(projs, outer), p)),
                   flags[0] && flags[1])
  {
    ViewWidth(ins[0], flags[0], outer);
    ReportedJoin(ins, flags, Joins(env, p), Each(Projects(env, projs)));
    ProjectIntoJoin(env, View(ins[0], flags[0]), View(ins[1], flags[1]), p, projs, outer);
  }
}
