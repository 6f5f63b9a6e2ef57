/** Which interpreted queries have a plan in which every reference resolves. */
module Resolution {
  import opened Common
  import opened LogicalPlan
  import opened NaivePlan
  import opened SemInterp

  predicate NoAggr(e: SemExpr) {
    match e
    case AggrOf(_, _) => false
    case Compute(_, l, r) => NoAggr(l) && NoAggr(r)
    case _ => true
  }

  /** Attributes outside of aggregations are grouping attributes. */
  predicate OnlyGroups(q: Query, e: SemExpr)
    requires q.Sfw?
  {
    match e
    case Attribute(a) => a in q.groups
    case Compute(_, l, r) => OnlyGroups(q, l) && OnlyGroups(q, r)
    case _ => true
  }

  lemma {:induction false} PlainFrom(tb: Tables, q: Query, e: SemExpr)
    requires Bound(q) && FromExpr(tb, q, e) && NoAggr(e)
    ensures PlainExpr(tb, q, e)
  {
    match e
    case Compute(_, l, r) => PlainFrom(tb, q, l); PlainFrom(tb, q, r);
    case _ =>
  }

  lemma {:induction false} GroupedFrom(tb: Tables, q: Query, e: SemExpr)
    requires Bound(q) && FromExpr(tb, q, e) && OnlyGroups(q, e)
    ensures GroupedExpr(tb, q, e)
  {
    match e
    case Compute(_, l, r) => GroupedFrom(tb, q, l); GroupedFrom(tb, q, r);
    case _ =>
  }

  lemma {:induction false} UsesNothing(e: SemExpr)
    requires forall fn, a :: !Uses(e, fn, a)
    ensures NoAggr(e)
  {
    match e
    case ConstVal(_) =>
    case Attribute(_) =>
    case AggrOf(fn, a) => assert Uses(e, fn, a);
    case Compute(_, l, r) =>
      forall fn, a
        ensures !Uses(l, fn, a) && !Uses(r, fn, a)
      {
        assert !Uses(e, fn, a);
      }
      UsesNothing(l);
      UsesNothing(r);
  }

  /**
   What interpretation leaves unchecked: predicates without aggregations, partition windows over
   attributes of their own stream, and with grouping only grouping attributes outside of aggregations.
   */
  predicate Unchecked(tb: Tables, q: Query)
    requires Bound(q)
  {
    && (forall k :: 0 <= k < |q.preds| ==> NoAggr(q.preds[k].left) && NoAggr(q.preds[k].right))
    && (forall k :: 0 <= k < |q.from| ==> WindowFits(tb, q, k))
    && (Aggregates(q) ==> forall k :: 0 <= k < |q.projs| ==> OnlyGroups(q, q.projs[k]))
  }

  lemma {:induction false} PlainNoAggr(tb: Tables, q: Query, e: SemExpr)
    requires Bound(q) && PlainExpr(tb, q, e)
    ensures NoAggr(e)
  {
    match e
    case Compute(_, l, r) => PlainNoAggr(tb, q, l); PlainNoAggr(tb, q, r);
    case _ =>
  }

  lemma {:induction false} GroupedOnly(tb: Tables, q: Query, e: SemExpr)
    requires Bound(q) && GroupedExpr(tb, q, e)
    ensures OnlyGroups(q, e)
  {
    match e
    case Compute(_, l, r) => GroupedOnly(tb, q, l); GroupedOnly(tb, q, r);
    case _ =>
  }

  /** An interpreted query is well formed exactly if it passes. */
  lemma ResolvedWellFormed(tb: Tables, q: Query)
    requires Resolved(tb, q)
    ensures WellFormed(tb, q) <==> Unchecked(tb, q)
  {
    if Unchecked(tb, q) {
      forall k | 0 <= k < |q.preds|
        ensures PlainExpr(tb, q, q.preds[k].left) && PlainExpr(tb, q, q.preds[k].right)
      {
        PlainFrom(tb, q, q.preds[k].left);
        PlainFrom(tb, q, q.preds[k].right);
      }
      forall k | 0 <= k < |q.projs|
        ensures if Aggregates(q) then GroupedExpr(tb, q, q.projs[k]) else PlainExpr(tb, q, q.projs[k])
      {
        ProjectionFits(tb, q, k);
      }
    }
    if WellFormed(tb, q) {
      forall k | 0 <= k < |q.preds|
        ensures NoAggr(q.preds[k].left) && NoAggr(q.preds[k].right)
      {
        PlainNoAggr(tb, q, q.preds[k].left);
        PlainNoAggr(tb, q, q.preds[k].right);
      }
      forall k | 0 <= k < |q.projs| && Aggregates(q)
        ensures OnlyGroups(q, q.projs[k])
      {
        GroupedOnly(tb, q, q.projs[k]);
      }
    }
  }

  lemma NothingUsed(refTables: seq<nat>, projs: seq<SemExpr>, k: nat)
    requires k < |projs| && CollectedAll(refTables, projs) == []
    ensures forall fn, a :: !Uses(projs[k], fn, a)
  {
    CollectedAllHas(refTables, projs);
    forall fn, a
      ensures !Uses(projs[k], fn, a)
    {
      assert (fn, LogAttr(refTables, a)) !in CollectedAll(refTables, projs);
    }
  }

  lemma ProjectionFits(tb: Tables, q: Query, k: nat)
    requires Resolved(tb, q) && k < |q.projs| && (Aggregates(q) ==> OnlyGroups(q, q.projs[k]))
    ensures if Aggregates(q) then GroupedExpr(tb, q, q.projs[k]) else PlainExpr(tb, q, q.projs[k])
  {
    if Aggregates(q) {
      GroupedFrom(tb, q, q.projs[k]);
    } else {
      NothingUsed(q.refTables, q.projs, k);
      UsesNothing(q.projs[k]);
      PlainFrom(tb, q, q.projs[k]);
    }
  }

  // ---------------------------------------------------------------- what the plan demands of the query

  /** A predicate over the joined tables cannot refer to an aggregation. */
  lemma {:induction false} ResolvesPlain(tb: Tables, q: Query, e: SemExpr, s: Schema)
    requires Bound(q) && FromExpr(tb, q, e) && Resolves(LogExpr(q.refTables, e), s)
    requires forall i :: 0 <= i < |s| ==> s[i].Named?
    ensures NoAggr(e)
  {
    match e
    case ConstVal(_) =>
    case Attribute(_) =>
    case AggrOf(fn, a) => var k := Find(s, LogAggr(q.refTables, fn, a));
    case Compute(_, l, r) => ResolvesPlain(tb, q, l, s); ResolvesPlain(tb, q, r, s);
  }

  /** A projection over an aggregation can only refer to grouping attributes and aggregations. */
  lemma {:induction false} ResolvesGrouped(tb: Tables, q: Query, e: SemExpr)
    requires Bound(q) && FromExpr(tb, q, e) && forall k :: 0 <= k < |q.groups| ==> InFrom(tb, q, q.groups[k])
    requires Resolves(LogExpr(q.refTables, e), GroupSchema(tb, q))
    ensures OnlyGroups(q, e)
  {
    match e
    case ConstVal(_) =>
    case Attribute(a) =>
      var s := GroupSchema(tb, q);
      var k := Find(s, LogAttr(q.refTables, a));
      assert k < |q.groups| && InFrom(tb, q, q.groups[k]);
      assert q.groups[k] == a;
    case AggrOf(_, _) =>
    case Compute(_, l, r) => ResolvesGrouped(tb, q, l); ResolvesGrouped(tb, q, r);
  }

  lemma {:induction false} SelectPlanDemands(tb: Tables, q: Query, preds: seq<SemPred>, t: Plan)
    requires Bound(q) && NoRepeat(q.from) && SchemaOf(tb, t) == FromSchema(tb, q)
    requires forall k :: 0 <= k < |preds| ==> FromExpr(tb, q, preds[k].left) && FromExpr(tb, q, preds[k].right)
    ensures var s := SelectPlan(q.refTables, preds, t);
      && SchemaOf(tb, s) == FromSchema(tb, q)
      && (Sound(tb, s) ==> Sound(tb, t) && forall k :: 0 <= k < |preds| ==> NoAggr(preds[k].left) && NoAggr(preds[k].right))
  {
    hide Sound, FromExpr;
    if preds != [] {
      var m := |preds| - 1;
      SelectPlanDemands(tb, q, preds[..m], t);
      SelectDemands(tb, q, preds[m], SelectPlan(q.refTables, preds[..m], t));
    }
  }

  lemma SelectDemands(tb: Tables, q: Query, p: SemPred, t: Plan)
    requires Bound(q) && NoRepeat(q.from) && SchemaOf(tb, t) == FromSchema(tb, q)
    requires FromExpr(tb, q, p.left) && FromExpr(tb, q, p.right)
    ensures var s := Plan(0, Select(LogPred(q.refTables, p)), [t]);
      SchemaOf(tb, s) == FromSchema(tb, q) && (Sound(tb, s) ==> Sound(tb, t) && NoAggr(p.left) && NoAggr(p.right))
  {
    var s := Plan(0, Select(LogPred(q.refTables, p)), [t]);
    SchemaStep(tb, s);
    assert Schemas(tb, s.ins)[0] == FromSchema(tb, q) && s.ins[0] == t;
    if Sound(tb, s) {
      JoinPlanShape(tb, q);
      ResolvesPlain(tb, q, p.left, FromSchema(tb, q));
      ResolvesPlain(tb, q, p.right, FromSchema(tb, q));
    }
  }

  lemma AggrPlanDemands(tb: Tables, q: Query, t: Plan)
    requires q.Sfw? && Bound(q) && SchemaOf(tb, t) == FromSchema(tb, q)
    ensures SchemaOf(tb, AggrPlan(q, t)) == if Aggregates(q) then GroupSchema(tb, q) else FromSchema(tb, q)
    ensures Sound(tb, AggrPlan(q, t)) ==> Sound(tb, t)
  {
    SchemaStep(tb, AggrPlan(q, t));
    assert Aggregates(q) ==> AggrPlan(q, t).ins[0] == t;
  }

  lemma ProjectPlanDemands(tb: Tables, q: Query, t: Plan)
    requires Resolved(tb, q) && Sound(tb, ProjectPlan(q, t))
    requires SchemaOf(tb, t) == if Aggregates(q) then GroupSchema(tb, q) else FromSchema(tb, q)
    ensures Sound(tb, t) && (Aggregates(q) ==> forall k :: 0 <= k < |q.projs| ==> OnlyGroups(q, q.projs[k]))
  {
    var u := ProjectPlan(q, t);
    assert u.ins[0] == t && Schemas(tb, u.ins)[0] == SchemaOf(tb, t);
    forall k | 0 <= k < |q.projs| && Aggregates(q)
      ensures OnlyGroups(q, q.projs[k])
    {
      assert Resolves(u.op.projs[k], GroupSchema(tb, q));
      ResolvesGrouped(tb, q, q.projs[k]);
    }
  }

  lemma OverDemands(tb: Tables, q: Query, t: Plan)
    requires q.Sfw? && Sound(tb, R2SPlan(q.r2s, DistinctPlan(q, t)))
    ensures Sound(tb, t)
  {
    var d := DistinctPlan(q, t);
    assert !q.r2s.NoR2S? ==> R2SPlan(q.r2s, d).ins[0] == d;
    assert q.distinct ==> d.ins[0] == t;
  }

  /**
   In the naive plan of an interpreted query every reference resolves exactly if the query passes
   what the interpretation leaves unchecked.
   */
  lemma ReferencesResolve(tb: Tables, q: Query)
    requires Resolved(tb, q)
    ensures Sound(tb, SfwPlan(tb, q)) <==> Unchecked(tb, q)
  {
    ResolvedWellFormed(tb, q);
    if Unchecked(tb, q) {
      SfwPlanSound(tb, q);
    }
    if Sound(tb, SfwPlan(tb, q)) {
      var join := JoinPlan(tb, q);
      var select := SelectPlan(q.refTables, q.preds, join);
      JoinPlanShape(tb, q);
      SelectPlanDemands(tb, q, q.preds, join);
      AggrPlanDemands(tb, q, select);
      OverDemands(tb, q, ProjectPlan(q, UpToAggr(tb, q)));
      ProjectPlanDemands(tb, q, UpToAggr(tb, q));
    }
  }

  // ---------------------------------------------------------------- stars and types

  lemma {:induction false} StarPrefix(tb: Tables, symbols: seq<Symbol>, q: Query, v: nat)
    requires Bound(q) && q.refTables == TableIds(symbols) && |q.from| == |symbols| && v <= |symbols|
    requires forall k :: 0 <= k < |symbols| ==> q.from[k] == k
    ensures var xs, s := AllAttrs(tb, symbols[..v]), Flat(FromSchemas(tb, q)[..v]);
      |xs| == |s| && forall k :: 0 <= k < |xs| ==> LogExpr(q.refTables, xs[k]) == AttrRef(s[k])
  {
    if v > 0 {
      var m := v - 1;
      StarPrefix(tb, symbols, q, m);
      assert symbols[..v][..m] == symbols[..m] && FromSchemas(tb, q)[..v][..m] == FromSchemas(tb, q)[..m];
      var xs, s := AllAttrs(tb, symbols[..m]), Flat(FromSchemas(tb, q)[..m]);
      var ys, t := AttrsOf(m, tb.width(symbols[m].tableId)), FromSchemas(tb, q)[m];
      forall k | 0 <= k < |ys|
        ensures LogExpr(q.refTables, ys[k]) == AttrRef(t[k])
      {
      }
      assert AllAttrs(tb, symbols[..v]) == xs + ys && Flat(FromSchemas(tb, q)[..v]) == s + t;
    }
  }

  /** The k-th projection of a star is the k-th column of the joined tables. */
  lemma StarColumns(cat: Catalog, tb: Tables, symbols: seq<Symbol>, tree: ParseTree, q: Query)
    requires Interprets(cat, tb, symbols, tree, q) && tree.select.Star? && Bound(q)
    ensures |q.projs| == |FromSchema(tb, q)|
    ensures forall k :: 0 <= k < |q.projs| ==> LogExpr(q.refTables, q.projs[k]) == AttrRef(FromSchema(tb, q)[k])
  {
    StarPrefix(tb, symbols, q, |symbols|);
    assert symbols[..|symbols|] == symbols && FromSchemas(tb, q)[..|symbols|] == FromSchemas(tb, q);
  }

  /** The type interpretation gives an expression is that of the expression in the plan. */
  lemma {:induction false} TypesAgree(tb: Tables, symbols: seq<Symbol>, e: SemExpr)
    requires ValidExpr(tb, symbols, e)
    ensures SemType(tb, symbols, e) == ExprType(tb, LogExpr(TableIds(symbols), e))
  {
    match e
    case ConstVal(_) =>
    case Attribute(_) =>
    case AggrOf(_, _) =>
    case Compute(_, l, r) => TypesAgree(tb, symbols, l);
  }

  // ---------------------------------------------------------------- queries that are accepted all the same

  /** SELECT a FROM R WHERE COUNT(*) = 1 */
  function AggrInWhere(): ParseTree {
    ParseTree([RelVar("R", NoName, NoWindow)], [SynCond(EQ, SynAggr(COUNT, SynAttr(NoName, "*")), SynConst(IntVal(1)))], [],
              Exprs([SynRef(SynAttr(NoName, "a"))]), false, NoR2S)
  }

  /** What interpretation makes of it, if a is the one attribute of R and R is the first table. */
  function AggrInWhereQuery(): Query {
    Sfw([0], [0], [Unbounded], [SemPred(EQ, AggrOf(COUNT, SemAttr(0, 0)), ConstVal(IntVal(1)))],
        [Attribute(SemAttr(0, 0))], [], false, NoR2S)
  }

  lemma AggrInWhereReads(tb: Tables)
    requires tb.width(0) == 1 && !tb.isStream(0) && tb.typ(0, 0) == INT
    ensures Interprets([TableInfo("R", ["a"])], tb, [Symbol("R", 0)], AggrInWhere(), AggrInWhereQuery())
  {
    var cat, symbols := [TableInfo("R", ["a"])], [Symbol("R", 0)];
    assert TableIds(symbols) == [0];
    assert Denotes(cat, symbols, SynAttr(NoName, "a"), SemAttr(0, 0));
  }

  /** Interpretation accepts an aggregation in a predicate; the plan then has a reference that does not resolve. */
  lemma AcceptedInVain(tb: Tables)
    requires tb.width(0) == 1 && !tb.isStream(0) && tb.typ(0, 0) == INT
    ensures Interprets([TableInfo("R", ["a"])], tb, [Symbol("R", 0)], AggrInWhere(), AggrInWhereQuery())
    ensures Resolved(tb, AggrInWhereQuery()) && !Sound(tb, SfwPlan(tb, AggrInWhereQuery()))
  {
    AggrInWhereReads(tb);
    hide Interprets, Sound;
    assert InFrom(tb, AggrInWhereQuery(), SemAttr(0, 0));
    ReferencesResolve(tb, AggrInWhereQuery());
    assert !NoAggr(AggrInWhereQuery().preds[0].left);
  }
}
