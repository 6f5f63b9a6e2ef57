/** From names to positions: what the translation of a logical operator computes. */
module Translate {
  import opened Common
  import opened Bags
  import opened Histories
  import opened Semantics
  import L = LogicalPlan
  import P = PhysicalPlan

  // ---------------------------------------------------------------- references

  /** The position of a name in the one input of an operator. */
  function TransAttr(s: L.Schema, a: L.Attr): P.Attr {
    P.Attr(0, L.Find(s, a))
  }

  function TransAttrs(s: L.Schema, attrs: seq<L.Attr>): (r: seq<P.Attr>)
    ensures |r| == |attrs|
  {
    seq(|attrs|, k requires 0 <= k < |attrs| => TransAttr(s, attrs[k]))
  }

  function TransExpr(s: L.Schema, e: L.LExpr): P.PExpr {
    match e
    case Const(v) => Const(v)
    case AttrRef(a) => AttrRef(TransAttr(s, a))
    case Comp(op, l, r) => Comp(op, TransExpr(s, l), TransExpr(s, r))
  }

  function TransExprs(s: L.Schema, es: seq<L.LExpr>): (r: seq<P.PExpr>)
    ensures |r| == |es|
  {
    seq(|es|, k requires 0 <= k < |es| => TransExpr(s, es[k]))
  }

  function TransPred(s: L.Schema, b: L.LBExpr): P.PBExpr {
    BExpr(b.op, TransExpr(s, b.left), TransExpr(s, b.right))
  }

  /** Counting does not need an attribute: it gets the first one. */
  function TransAggr(s: L.Schema, aggr: (AggrFn, L.Attr)): (AggrFn, P.Attr) {
    (aggr.0, if aggr.0 == COUNT then P.Attr(0, 0) else TransAttr(s, aggr.1))
  }

  function TransAggrs(s: L.Schema, aggrs: seq<(AggrFn, L.Attr)>): (r: seq<(AggrFn, P.Attr)>)
    ensures |r| == |aggrs|
  {
    seq(|aggrs|, k requires 0 <= k < |aggrs| => TransAggr(s, aggrs[k]))
  }

  /** The physical operator for a logical one that is not a source, given the schemas of its inputs. */
  function TransOp(op: L.Payload, schemas: seq<L.Schema>): P.Payload
    requires L.ArityFits(op, |schemas|) && |schemas| > 0
  {
    match op
    case RowWin(rows) => P.RowWin(rows)
    case RangeWin(units) => P.RangeWin(units)
    case NowWin => P.RangeWin(1)
    case PartnWin(partn, rows) => P.PartnWin(TransAttrs(schemas[0], partn), rows)
    case Select(pred) => P.Select([TransPred(schemas[0], pred)])
    case Project(projs) => P.Project(TransExprs(schemas[0], projs))
    case Cross => P.Join(|schemas[0]|, |schemas[1]|, [])
    case StreamCross => P.StrJoin(|schemas[0]|, |schemas[1]|, [])
    case GroupAggr(groups, aggrs) => P.GroupAggr(TransAttrs(schemas[0], groups), TransAggrs(schemas[0], aggrs))
    case Distinct => P.Distinct
    case Istream => P.Istream
    case Dstream => P.Dstream
    case Rstream => P.Rstream
    case Union => P.Union
    case Except => P.Except
  }

  /** Counting gives the same whatever attribute it is asked to count. */
  ghost predicate CountsRows(env: Env) {
    forall groups, aggrs, aggrs2, m {:trigger env.aggr(groups, aggrs, m), env.aggr(groups, aggrs2, m)} ::
      SameCounts(aggrs, aggrs2) ==> env.aggr(groups, aggrs, m) == env.aggr(groups, aggrs2, m)
  }

  ghost predicate SameCounts(aggrs: seq<(AggrFn, nat)>, aggrs2: seq<(AggrFn, nat)>) {
    && |aggrs| == |aggrs2|
    && forall k :: 0 <= k < |aggrs| ==> aggrs[k].0 == aggrs2[k].0 && (aggrs[k].0 != COUNT ==> aggrs[k].1 == aggrs2[k].1)
  }

  // ---------------------------------------------------------------- evaluation

  /** Looking up by position gives what looking up by name gives. */
  lemma {:induction false} TransEval(env: Env, s: L.Schema, e: L.LExpr, x: Tuple)
    requires L.Resolves(e, s) && |x| == |s|
    ensures P.Eval(env, TransExpr(s, e), [x]) == L.ValueIn(env, e, s, x)
    ensures P.RefersTo(TransExpr(s, e), 0)
  {
    match e
    case Const(_) =>
    case AttrRef(a) =>
    case Comp(_, l, r) => TransEval(env, s, l, x); TransEval(env, s, r, x);
  }

  lemma {:induction false} TransRefers(s: L.Schema, e: L.LExpr)
    ensures P.RefersTo(TransExpr(s, e), 0)
  {
    match e
    case Const(_) =>
    case AttrRef(a) =>
    case Comp(_, l, r) => TransRefers(s, l); TransRefers(s, r);
  }

  /** A conjunction with one more conjunct in front. */
  lemma HoldsMore(env: Env, b: P.PBExpr, pred: seq<P.PBExpr>, row: seq<Tuple>)
    ensures P.Holds(env, [b] + pred, row) <==> P.HoldsAtom(env, b, row) && P.Holds(env, pred, row)
  {
    var all := [b] + pred;
    assert all[0] == b;
    if P.Holds(env, all, row) {
      forall k | 0 <= k < |pred|
        ensures P.HoldsAtom(env, pred[k], row)
      {
        assert all[k + 1] == pred[k];
      }
    }
  }

  lemma TransSelects(env: Env, s: L.Schema, b: L.LBExpr, h: Hist)
    requires L.PredResolves(b, s) && HasWidth(h, |s|)
    ensures FilterH(h, P.Passes(env, [TransPred(s, b)])) == FilterH(h, L.Selects(env, b, s))
  {
    forall t | 0 <= t < |h|
      ensures Filter(h[t], P.Passes(env, [TransPred(s, b)])) == Filter(h[t], L.Selects(env, b, s))
    {
      forall x | x in h[t]
        ensures P.Passes(env, [TransPred(s, b)])(x) == L.Selects(env, b, s)(x)
      {
        AtomSame(env, s, b, x);
      }
      FilterSame(h[t], P.Passes(env, [TransPred(s, b)]), L.Selects(env, b, s));
    }
  }

  lemma AtomSame(env: Env, s: L.Schema, b: L.LBExpr, x: Tuple)
    requires L.PredResolves(b, s) && |x| == |s|
    ensures P.HoldsAtom(env, TransPred(s, b), [x]) == L.HoldsIn(env, b, s, x)
    ensures P.Holds(env, [TransPred(s, b)], [x]) == L.HoldsIn(env, b, s, x)
  {
    TransEval(env, s, b.left, x);
    TransEval(env, s, b.right, x);
    HoldsMore(env, TransPred(s, b), [], [x]);
    assert [TransPred(s, b)] + [] == [TransPred(s, b)];
  }

  /** Filtering by a predicate put in front of a conjunction is filtering twice. */
  lemma FuseSelects(env: Env, s: L.Schema, b: L.LBExpr, pred: seq<P.PBExpr>, h: Hist)
    requires L.PredResolves(b, s) && HasWidth(h, |s|)
    ensures FilterH(h, P.Passes(env, [TransPred(s, b)] + pred))
         == FilterH(FilterH(h, P.Passes(env, pred)), L.Selects(env, b, s))
  {
    forall t | 0 <= t < |h|
      ensures Filter(h[t], P.Passes(env, [TransPred(s, b)] + pred))
           == Filter(Filter(h[t], P.Passes(env, pred)), L.Selects(env, b, s))
    {
      forall x | x in h[t]
        ensures P.Passes(env, [TransPred(s, b)] + pred)(x) == (P.Passes(env, pred)(x) && L.Selects(env, b, s)(x))
      {
        AtomSame(env, s, b, x);
        HoldsMore(env, TransPred(s, b), pred, [x]);
      }
      FilterFilter(h[t], P.Passes(env, pred), L.Selects(env, b, s), P.Passes(env, [TransPred(s, b)] + pred));
    }
  }

  lemma TransComputes(env: Env, s: L.Schema, projs: seq<L.LExpr>, h: Hist)
    requires (forall k :: 0 <= k < |projs| ==> L.Resolves(projs[k], s)) && HasWidth(h, |s|)
    ensures MapH(h, P.Projects(env, TransExprs(s, projs))) == MapH(h, L.Computes(env, projs, s))
  {
    forall t | 0 <= t < |h|
      ensures Map(h[t], P.Projects(env, TransExprs(s, projs))) == Map(h[t], L.Computes(env, projs, s))
    {
      forall x | x in h[t]
        ensures P.Projects(env, TransExprs(s, projs))(x) == L.Computes(env, projs, s)(x)
      {
        EmitSame(env, s, projs, x);
      }
      MapSame(h[t], P.Projects(env, TransExprs(s, projs)), L.Computes(env, projs, s));
    }
  }

  lemma EmitSame(env: Env, s: L.Schema, projs: seq<L.LExpr>, x: Tuple)
    requires (forall k :: 0 <= k < |projs| ==> L.Resolves(projs[k], s)) && |x| == |s|
    ensures P.Emit(env, TransExprs(s, projs), [x]) == L.ValuesIn(env, projs, s, x)
  {
    forall k | 0 <= k < |projs|
      ensures P.Eval(env, TransExprs(s, projs)[k], [x]) == L.ValueIn(env, projs[k], s, x)
    {
      TransEval(env, s, projs[k], x);
    }
  }

  /** A join without predicate is a product. */
  lemma JoinAll(env: Env, a: Hist, b: Hist)
    requires |a| == |b|
    ensures JoinH(a, b, P.Joins(env, [])) == JoinH(a, b, Concat)
  {
    forall t | 0 <= t < |a|
      ensures Join(a[t], b[t], P.Joins(env, [])) == Join(a[t], b[t], Concat)
    {
      forall x, y | x in a[t] && y in b[t]
        ensures P.Joins(env, [])(x, y) == Concat(x, y)
      {
        assert P.Holds(env, [], [x, y]);
      }
      JoinSame(a[t], b[t], P.Joins(env, []), Concat);
    }
  }

  lemma TransGroups(env: Env, s: L.Schema, groups: seq<L.Attr>, aggrs: seq<(AggrFn, L.Attr)>, h: Hist)
    requires CountsRows(env)
    ensures AggrH(env, P.Positions(TransAttrs(s, groups)), P.AggrPositions(TransAggrs(s, aggrs)), h)
         == AggrH(env, L.FindAll(s, groups), L.FindAggrs(s, aggrs), h)
  {
    assert P.Positions(TransAttrs(s, groups)) == L.FindAll(s, groups);
    assert SameCounts(P.AggrPositions(TransAggrs(s, aggrs)), L.FindAggrs(s, aggrs));
  }

  // ---------------------------------------------------------------- operators

  /** The translated operator computes what the logical one means. */
  ghost predicate TransRight(env: Env, n: nat, op: L.Payload, schemas: seq<L.Schema>, flags: seq<bool>, ins: seq<Hist>)
    requires |schemas| == |flags| == |ins| && L.ArityFits(op, |ins|) && |ins| > 0
    requires forall k :: 0 <= k < |ins| ==> |ins[k]| == n
  {
    P.OpDen(env, n, TransOp(op, schemas), flags, ins) == L.OpMeaning(env, n, op, schemas, flags, ins)
  }

  lemma TransSelectRight(env: Env, n: nat, pred: L.LBExpr, s: L.Schema, f: bool, h: Hist)
    requires |h| == n && HasWidth(h, |s|) && L.PredResolves(pred, s)
    ensures TransRight(env, n, L.Select(pred), [s], [f], [h])
  {
    TransSelects(env, s, pred, h);
  }

  lemma TransProjectRight(env: Env, n: nat, projs: seq<L.LExpr>, s: L.Schema, f: bool, h: Hist)
    requires |h| == n && HasWidth(h, |s|) && forall k :: 0 <= k < |projs| ==> L.Resolves(projs[k], s)
    ensures TransRight(env, n, L.Project(projs), [s], [f], [h])
  {
    TransComputes(env, s, projs, h);
    P.ProjectDen(env, n, TransExprs(s, projs), f, h);
    ProjectMeaning(env, n, projs, s, f, h);
    RightFrom(env, n, L.Project(projs), [s], [f], [h], P.Project(TransExprs(s, projs)));
  }

  lemma RightFrom(env: Env, n: nat, op: L.Payload, schemas: seq<L.Schema>, flags: seq<bool>, ins: seq<Hist>, p: P.Payload)
    requires |schemas| == |flags| == |ins| && L.ArityFits(op, |ins|) && |ins| > 0 && p == TransOp(op, schemas)
    requires forall k :: 0 <= k < |ins| ==> |ins[k]| == n
    requires P.OpDen(env, n, p, flags, ins) == L.OpMeaning(env, n, op, schemas, flags, ins)
    ensures TransRight(env, n, op, schemas, flags, ins)
  {
  }

  lemma ProjectMeaning(env: Env, n: nat, projs: seq<L.LExpr>, s: L.Schema, f: bool, h: Hist)
    requires |h| == n
    ensures L.OpMeaning(env, n, L.Project(projs), [s], [f], [h]) == MapH(h, L.Computes(env, projs, s))
  {
    var op := L.Project(projs);
    assert op.projs == projs;
  }

  lemma TransGroupRight(env: Env, n: nat, groups: seq<L.Attr>, aggrs: seq<(AggrFn, L.Attr)>, s: L.Schema, f: bool, h: Hist)
    requires |h| == n && CountsRows(env)
    ensures TransRight(env, n, L.GroupAggr(groups, aggrs), [s], [f], [h])
  {
    TransGroups(env, s, groups, aggrs, View(h, f));
  }

  lemma TransPartnRight(env: Env, n: nat, partn: seq<L.Attr>, rows: nat, s: L.Schema, f: bool, h: Hist)
    requires |h| == n
    ensures TransRight(env, n, L.PartnWin(partn, rows), [s], [f], [h])
  {
    assert P.Positions(TransAttrs(s, partn)) == L.FindAll(s, partn);
  }

  lemma TransWindowRight(env: Env, n: nat, op: L.Payload, s: L.Schema, f: bool, h: Hist)
    requires (op.RowWin? || op.RangeWin? || op.NowWin?) && |h| == n
    ensures TransRight(env, n, op, [s], [f], [h])
  {
    RangeOneIsNow(h);
  }

  lemma TransKeepRight(env: Env, n: nat, op: L.Payload, s: L.Schema, f: bool, h: Hist)
    requires (op.Distinct? || op.Istream? || op.Dstream? || op.Rstream?) && |h| == n
    ensures TransRight(env, n, op, [s], [f], [h])
  {
  }

  lemma TransUnary(env: Env, n: nat, tb: L.Tables, op: L.Payload, s: L.Schema, f: bool, h: Hist)
    requires L.ArityFits(op, 1) && |h| == n && HasWidth(h, |s|) && CountsRows(env)
    requires L.OpSound(tb, op, [s], [f])
    ensures TransRight(env, n, op, [s], [f], [h])
  {
    match op {
      case Select(pred) => TransSelectRight(env, n, pred, s, f, h);
      case Project(projs) => TransProjectRight(env, n, projs, s, f, h);
      case PartnWin(partn, rows) => TransPartnRight(env, n, partn, rows, s, f, h);
      case GroupAggr(groups, aggrs) => TransGroupRight(env, n, groups, aggrs, s, f, h);
      case RowWin(_) => TransWindowRight(env, n, op, s, f, h);
      case RangeWin(_) => TransWindowRight(env, n, op, s, f, h);
      case NowWin => TransWindowRight(env, n, op, s, f, h);
      case _ => TransKeepRight(env, n, op, s, f, h);
    }
  }

  lemma TransCrossRight(env: Env, n: nat, s: L.Schema, r: L.Schema, f: bool, g: bool, a: Hist, b: Hist)
    requires |a| == n && |b| == n
    ensures TransRight(env, n, L.Cross, [s, r], [f, g], [a, b])
  {
    JoinAll(env, View(a, f), View(b, g));
    CrossMeaning(env, n, s, r, f, g, a, b);
    P.JoinDen(env, n, |s|, |r|, [], [f, g], [a, b]);
    RightFrom(env, n, L.Cross, [s, r], [f, g], [a, b], P.Join(|s|, |r|, []));
  }

  lemma CrossMeaning(env: Env, n: nat, s: L.Schema, r: L.Schema, f: bool, g: bool, a: Hist, b: Hist)
    requires |a| == n && |b| == n
    ensures L.OpMeaning(env, n, L.Cross, [s, r], [f, g], [a, b]) == Report(JoinH(View(a, f), View(b, g), Concat), f && g)
  {
    assert L.Views([a, b], [f, g]) == [View(a, f), View(b, g)];
    L.ProductTwo(n, View(a, f), View(b, g));
    L.AllTwo(f, g);
  }

  lemma TransStreamCrossRight(env: Env, n: nat, s: L.Schema, r: L.Schema, f: bool, g: bool, a: Hist, b: Hist)
    requires |a| == n && |b| == n
    ensures TransRight(env, n, L.StreamCross, [s, r], [f, g], [a, b])
  {
    JoinAll(env, a, View(b, g));
    StreamCrossMeaning(env, n, s, r, f, g, a, b);
    P.StrJoinDen(env, n, |s|, |r|, [], [f, g], [a, b]);
    RightFrom(env, n, L.StreamCross, [s, r], [f, g], [a, b], P.StrJoin(|s|, |r|, []));
  }

  lemma StreamCrossMeaning(env: Env, n: nat, s: L.Schema, r: L.Schema, f: bool, g: bool, a: Hist, b: Hist)
    requires |a| == n && |b| == n
    ensures L.OpMeaning(env, n, L.StreamCross, [s, r], [f, g], [a, b]) == JoinH(a, View(b, g), Concat)
  {
    assert L.Views([a, b], [f, g])[0 := a] == [a, View(b, g)];
    L.ProductTwo(n, a, View(b, g));
  }

  lemma TransSetRight(env: Env, n: nat, op: L.Payload, s: L.Schema, r: L.Schema, f: bool, g: bool, a: Hist, b: Hist)
    requires (op.Union? || op.Except?) && |a| == n && |b| == n
    ensures TransRight(env, n, op, [s, r], [f, g], [a, b])
  {
  }

  lemma TransBinary(env: Env, n: nat, op: L.Payload, s: L.Schema, r: L.Schema, f: bool, g: bool, a: Hist, b: Hist)
    requires L.ArityFits(op, 2) && |a| == n && |b| == n
    ensures TransRight(env, n, op, [s, r], [f, g], [a, b])
  {
    match op {
      case Cross => TransCrossRight(env, n, s, r, f, g, a, b);
      case StreamCross => TransStreamCrossRight(env, n, s, r, f, g, a, b);
      case _ => TransSetRight(env, n, op, s, r, f, g, a, b);
    }
  }
}
