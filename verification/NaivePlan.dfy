/** Queries as the interpretation of the parse tree leaves them, and the naive plan of a query. */
module NaivePlan {
  import opened Common
  import opened LogicalPlan
  import opened LogicalOps
  import opened Products

  /** An attribute of a query: a variable of the FROM clause and a position in its table. */
  datatype SemAttr = SemAttr(varId: nat, attrId: nat)

  datatype SemExpr =
    | ConstVal(val: Value)
    | Attribute(attr: SemAttr)
    | AggrOf(fn: AggrFn, attr: SemAttr)
    | Compute(op: ArithOp, left: SemExpr, right: SemExpr)

  datatype SemPred = SemPred(op: CompOp, left: SemExpr, right: SemExpr)

  datatype Window =
    | RangeSpec(units: nat)
    | RowSpec(rows: nat)
    | PartitionSpec(attrs: seq<SemAttr>, rows: nat)
    | NowSpec
    | Unbounded

  datatype R2S = NoR2S | ToIstream | ToDstream | ToRstream

  /** refTables gives the table of every variable; windows are aligned with the FROM clause. */
  datatype Query =
    | Sfw(refTables: seq<nat>, from: seq<nat>, windows: seq<Window>, preds: seq<SemPred>, projs: seq<SemExpr>,
          groups: seq<SemAttr>, distinct: bool, r2s: R2S)
    | BinaryOp(refTables: seq<nat>, isUnion: bool, r2s: R2S)

  const MAX_PRED: nat := 10

  // ---------------------------------------------------------------- from query names to plan names

  function LogAttr(refTables: seq<nat>, a: SemAttr): Attr {
    if a.varId < |refTables| then Named(a.varId, refTables[a.varId], a.attrId) else Unnamed(INT)
  }

  function LogAggr(refTables: seq<nat>, fn: AggrFn, a: SemAttr): Attr {
    if a.varId < |refTables| then Aggr(a.varId, refTables[a.varId], a.attrId, fn) else Unnamed(INT)
  }

  function LogExpr(refTables: seq<nat>, e: SemExpr): LExpr {
    match e
    case ConstVal(v) => Const(v)
    case Attribute(a) => AttrRef(LogAttr(refTables, a))
    case AggrOf(fn, a) => AttrRef(LogAggr(refTables, fn, a))
    case Compute(op, l, r) => Comp(op, LogExpr(refTables, l), LogExpr(refTables, r))
  }

  function LogPred(refTables: seq<nat>, b: SemPred): LBExpr {
    BExpr(b.op, LogExpr(refTables, b.left), LogExpr(refTables, b.right))
  }

  function LogAttrs(refTables: seq<nat>, attrs: seq<SemAttr>): (r: seq<Attr>)
    ensures |r| == |attrs|
  {
    seq(|attrs|, k requires 0 <= k < |attrs| => LogAttr(refTables, attrs[k]))
  }

  // ---------------------------------------------------------------- aggregations

  /** The list with the aggregations of e that it does not have yet, in the order in which they occur. */
  function Collected(refTables: seq<nat>, e: SemExpr, aggrs: seq<(AggrFn, Attr)>): (r: seq<(AggrFn, Attr)>)
    ensures |r| >= |aggrs|
  {
    match e
    case ConstVal(_) => aggrs
    case Attribute(_) => aggrs
    case AggrOf(fn, a) =>
      var aggr := (fn, LogAttr(refTables, a));
      if aggr in aggrs then aggrs else aggrs + [aggr]
    case Compute(_, l, r) => Collected(refTables, r, Collected(refTables, l, aggrs))
  }

  function CollectedAll(refTables: seq<nat>, projs: seq<SemExpr>): (r: seq<(AggrFn, Attr)>) {
    if projs == [] then []
    else Collected(refTables, projs[|projs| - 1], CollectedAll(refTables, projs[..|projs| - 1]))
  }

  /** Whether e uses the aggregation. */
  predicate Uses(e: SemExpr, fn: AggrFn, a: SemAttr) {
    match e
    case ConstVal(_) => false
    case Attribute(_) => false
    case AggrOf(g, b) => g == fn && b == a
    case Compute(_, l, r) => Uses(l, fn, a) || Uses(r, fn, a)
  }

  predicate NoRepeat<T(==)>(s: seq<T>) {
    forall j, k :: 0 <= j < k < |s| ==> s[j] != s[k]
  }

  /** Everything in the list stays, and everything e uses is in it afterwards, once. */
  lemma {:induction false} CollectedHas(refTables: seq<nat>, e: SemExpr, aggrs: seq<(AggrFn, Attr)>)
    ensures aggrs <= Collected(refTables, e, aggrs)
    ensures forall fn, a :: Uses(e, fn, a) ==> (fn, LogAttr(refTables, a)) in Collected(refTables, e, aggrs)
    ensures forall x :: x in Collected(refTables, e, aggrs) ==>
      x in aggrs || exists a: SemAttr :: Uses(e, x.0, a) && x.1 == LogAttr(refTables, a)
    ensures NoRepeat(aggrs) ==> NoRepeat(Collected(refTables, e, aggrs))
  {
    match e
    case ConstVal(_) =>
    case Attribute(_) =>
    case AggrOf(fn, a) =>
      assert Uses(e, fn, a);
    case Compute(_, l, r) =>
      CollectedHas(refTables, l, aggrs);
      CollectedHas(refTables, r, Collected(refTables, l, aggrs));
      forall x | x in Collected(refTables, e, aggrs) && x !in aggrs
        ensures exists a: SemAttr :: Uses(e, x.0, a) && x.1 == LogAttr(refTables, a)
      {
        if x in Collected(refTables, l, aggrs) {
          var a: SemAttr :| Uses(l, x.0, a) && x.1 == LogAttr(refTables, a);
          assert Uses(e, x.0, a);
        } else {
          var a: SemAttr :| Uses(r, x.0, a) && x.1 == LogAttr(refTables, a);
          assert Uses(e, x.0, a);
        }
      }
  }

  /** The aggregations collected from all projections are exactly those the projections use, each once. */
  lemma {:induction false} CollectedAllHas(refTables: seq<nat>, projs: seq<SemExpr>)
    ensures NoRepeat(CollectedAll(refTables, projs))
    ensures forall k, fn, a :: 0 <= k < |projs| && Uses(projs[k], fn, a) ==>
      (fn, LogAttr(refTables, a)) in CollectedAll(refTables, projs)
    ensures forall x :: x in CollectedAll(refTables, projs) ==>
      exists k, a: SemAttr :: 0 <= k < |projs| && Uses(projs[k], x.0, a) && x.1 == LogAttr(refTables, a)
  {
    if projs != [] {
      var m := |projs| - 1;
      CollectedAllHas(refTables, projs[..m]);
      CollectedHas(refTables, projs[m], CollectedAll(refTables, projs[..m]));
      forall x | x in CollectedAll(refTables, projs)
        ensures exists k, a: SemAttr :: 0 <= k < |projs| && Uses(projs[k], x.0, a) && x.1 == LogAttr(refTables, a)
      {
        if x in CollectedAll(refTables, projs[..m]) {
          var k, a: SemAttr :| 0 <= k < m && Uses(projs[..m][k], x.0, a) && x.1 == LogAttr(refTables, a);
          assert Uses(projs[k], x.0, a);
        }
      }
    }
  }

  // ---------------------------------------------------------------- the naive plan

  /** A source, with the window of the query over it if it is a stream. */
  function TablePlan(tb: Tables, q: Query, k: nat): Plan
    requires q.Sfw? && k < |q.from| == |q.windows| && q.from[k] < |q.refTables|
  {
    var varId, tableId := q.from[k], q.refTables[q.from[k]];
    if !tb.isStream(tableId) then Plan(0, RelnSource(varId, tableId), [])
    else
      var source := Plan(0, StreamSource(varId, tableId), []);
      match q.windows[k]
      case RangeSpec(units) => Plan(0, RangeWin(units), [source])
      case RowSpec(rows) => Plan(0, RowWin(rows), [source])
      case PartitionSpec(attrs, rows) => Plan(0, PartnWin(LogAttrs(q.refTables, attrs), rows), [source])
      case NowSpec => Plan(0, NowWin, [source])
      case Unbounded => source
  }

  /** The variables of the FROM clause are bound to tables, and every stream has a window. */
  predicate Bound(q: Query) {
    q.Sfw? && 0 < |q.from| == |q.windows| && forall k :: 0 <= k < |q.from| ==> q.from[k] < |q.refTables|
  }

  function TablePlans(tb: Tables, q: Query): (r: seq<Plan>)
    requires Bound(q)
    ensures |r| == |q.from|
  {
    seq(|q.from|, k requires 0 <= k < |q.from| => TablePlan(tb, q, k))
  }

  function JoinPlan(tb: Tables, q: Query): Plan
    requires Bound(q)
  {
    if |q.from| > 1 then Plan(0, Cross, TablePlans(tb, q)) else TablePlan(tb, q, 0)
  }

  /** One select per predicate, the first predicate lowest. */
  function SelectPlan(refTables: seq<nat>, preds: seq<SemPred>, t: Plan): Plan {
    if preds == [] then t
    else Plan(0, Select(LogPred(refTables, preds[|preds| - 1])), [SelectPlan(refTables, preds[..|preds| - 1], t)])
  }

  /** Whether the query needs an aggregation operator. */
  predicate Aggregates(q: Query)
    requires q.Sfw?
  {
    CollectedAll(q.refTables, q.projs) != [] || q.groups != []
  }

  function AggrPlan(q: Query, t: Plan): Plan
    requires q.Sfw?
  {
    if !Aggregates(q) then t
    else Plan(0, GroupAggr(LogAttrs(q.refTables, q.groups), CollectedAll(q.refTables, q.projs)), [t])
  }

  function LogExprs(refTables: seq<nat>, projs: seq<SemExpr>): (r: seq<LExpr>)
    ensures |r| == |projs|
  {
    seq(|projs|, k requires 0 <= k < |projs| => LogExpr(refTables, projs[k]))
  }

  function ProjectPlan(q: Query, t: Plan): Plan
    requires q.Sfw?
  {
    Plan(0, Project(LogExprs(q.refTables, q.projs)), [t])
  }

  function DistinctPlan(q: Query, t: Plan): Plan
    requires q.Sfw?
  {
    if q.distinct then Plan(0, Distinct, [t]) else t
  }

  function R2SPlan(r2s: R2S, t: Plan): Plan {
    match r2s
    case NoR2S => t
    case ToIstream => Plan(0, Istream, [t])
    case ToDstream => Plan(0, Dstream, [t])
    case ToRstream => Plan(0, Rstream, [t])
  }

  function SfwPlan(tb: Tables, q: Query): Plan
    requires Bound(q)
  {
    R2SPlan(q.r2s, DistinctPlan(q, ProjectPlan(q, UpToAggr(tb, q))))
  }

  /** The part of the plan below the project. */
  function UpToAggr(tb: Tables, q: Query): Plan
    requires Bound(q)
  {
    AggrPlan(q, SelectPlan(q.refTables, q.preds, JoinPlan(tb, q)))
  }

  function SourcePlan(tb: Tables, varId: nat, tableId: nat): Plan {
    Plan(0, if tb.isStream(tableId) then StreamSource(varId, tableId) else RelnSource(varId, tableId), [])
  }

  function BinaryPlan(tb: Tables, q: Query): Plan
    requires q.BinaryOp? && |q.refTables| == 2
  {
    R2SPlan(q.r2s, Plan(0, if q.isUnion then Union else Except,
                        [SourcePlan(tb, 0, q.refTables[0]), SourcePlan(tb, 0, q.refTables[1])]))
  }

  // ---------------------------------------------------------------- well-formed queries

  /** The attribute belongs to the table of a variable of the FROM clause. */
  predicate InFrom(tb: Tables, q: Query, a: SemAttr)
    requires Bound(q)
  {
    a.varId in q.from && a.varId < |q.refTables| && a.attrId < tb.width(q.refTables[a.varId])
  }

  /** All attributes are of FROM variables, and there are no aggregations. */
  predicate PlainExpr(tb: Tables, q: Query, e: SemExpr)
    requires Bound(q)
  {
    match e
    case ConstVal(_) => true
    case Attribute(a) => InFrom(tb, q, a)
    case AggrOf(_, _) => false
    case Compute(_, l, r) => PlainExpr(tb, q, l) && PlainExpr(tb, q, r)
  }

  /** With grouping, attributes outside of aggregations are grouping attributes. */
  predicate GroupedExpr(tb: Tables, q: Query, e: SemExpr)
    requires Bound(q)
  {
    match e
    case ConstVal(_) => true
    case Attribute(a) => a in q.groups
    case AggrOf(_, a) => InFrom(tb, q, a)
    case Compute(_, l, r) => GroupedExpr(tb, q, l) && GroupedExpr(tb, q, r)
  }

  /** A partition window partitions by attributes of the stream it is over.  The window of a relation is not used. */
  predicate WindowFits(tb: Tables, q: Query, k: nat)
    requires Bound(q) && k < |q.from|
  {
    tb.isStream(q.refTables[q.from[k]]) && q.windows[k].PartitionSpec? ==>
      forall j :: 0 <= j < |q.windows[k].attrs| ==> WindowAttr(tb, q, k, q.windows[k].attrs[j])
  }

  /** An attribute of the k-th table of the FROM clause. */
  predicate WindowAttr(tb: Tables, q: Query, k: nat, a: SemAttr)
    requires Bound(q) && k < |q.from|
  {
    a.varId == q.from[k] && a.attrId < tb.width(q.refTables[q.from[k]])
  }

  /** An accepted select-from-where query. */
  predicate WellFormed(tb: Tables, q: Query) {
    && Bound(q) && NoRepeat(q.from)
    && (forall k :: 0 <= k < |q.from| ==> WindowFits(tb, q, k))
    && (forall k :: 0 <= k < |q.preds| ==> PlainExpr(tb, q, q.preds[k].left) && PlainExpr(tb, q, q.preds[k].right))
    && (forall k :: 0 <= k < |q.groups| ==> InFrom(tb, q, q.groups[k]))
    && (forall k :: 0 <= k < |q.projs| ==>
         if Aggregates(q) then GroupedExpr(tb, q, q.projs[k]) else PlainExpr(tb, q, q.projs[k]))
  }

  // ---------------------------------------------------------------- references resolve

  /** The references of a table's window resolve exactly if it partitions by attributes of its own stream. */
  lemma TablePlanShape(tb: Tables, q: Query, k: nat)
    requires Bound(q) && k < |q.from|
    ensures SchemaOf(tb, TablePlan(tb, q, k)) == TableSchema(tb, q.from[k], q.refTables[q.from[k]])
    ensures Sound(tb, TablePlan(tb, q, k)) <==> WindowFits(tb, q, k)
  {
    var t, s := TablePlan(tb, q, k), TableSchema(tb, q.from[k], q.refTables[q.from[k]]);
    SchemaStep(tb, t);
    if t.ins != [] {
      SchemaStep(tb, t.ins[0]);
      assert Schemas(tb, t.ins)[0] == s && Flags(t.ins)[0];
      if t.op.PartnWin? {
        forall j | 0 <= j < |t.op.partn|
          ensures Find(s, t.op.partn[j]) < |s| <==> WindowAttr(tb, q, k, q.windows[k].attrs[j])
        {
          TableFinds(tb, q.refTables, q.from[k], q.windows[k].attrs[j]);
        }
      }
    }
  }

  /** The columns of a table are found under its own variable and at its own positions only. */
  lemma TableFinds(tb: Tables, refTables: seq<nat>, v: nat, a: SemAttr)
    requires v < |refTables|
    ensures var s := TableSchema(tb, v, refTables[v]);
      Find(s, LogAttr(refTables, a)) < |s| <==> a.varId == v && a.attrId < tb.width(refTables[v])
  {
    var s := TableSchema(tb, v, refTables[v]);
    if a.varId == v && a.attrId < tb.width(refTables[v]) {
      assert Same(LogAttr(refTables, a), s[a.attrId]);
    }
  }

  /** The schema of the joined tables. */
  function FromSchema(tb: Tables, q: Query): Schema
    requires Bound(q)
  {
    Flat(FromSchemas(tb, q))
  }

  function FromSchemas(tb: Tables, q: Query): (r: seq<Schema>)
    requires Bound(q)
    ensures |r| == |q.from|
  {
    seq(|q.from|, k requires 0 <= k < |q.from| => TableSchema(tb, q.from[k], q.refTables[q.from[k]]))
  }

  lemma {:induction false} FlatFinds(parts: seq<Schema>, k: nat, j: nat, a: Attr)
    requires k < |parts| && j < |parts[k]| && Same(a, parts[k][j])
    ensures Find(Flat(parts), a) < |Flat(parts)|
  {
    var m := |parts| - 1;
    if k < m {
      FlatFinds(parts[..m], k, j, a);
      var i := Find(Flat(parts[..m]), a);
      assert Flat(parts)[i] == Flat(parts[..m])[i];
    } else {
      var i := |Flat(parts[..m])| + j;
      assert Flat(parts)[i] == parts[m][j];
    }
  }

  /** Every name in a schema made of tables of different variables is there once. */
  lemma {:induction false} TablesUnique(tb: Tables, vars: seq<nat>, tables: seq<nat>, schemas: seq<Schema>)
    requires |vars| == |tables| == |schemas| && NoRepeat(vars)
    requires forall k :: 0 <= k < |vars| ==> schemas[k] == TableSchema(tb, vars[k], tables[k])
    ensures Unique(Flat(schemas))
    ensures forall i :: 0 <= i < |Flat(schemas)| ==> Flat(schemas)[i].Named? && Flat(schemas)[i].varId in vars
  {
    if vars != [] {
      var m := |vars| - 1;
      TablesUnique(tb, vars[..m], tables[..m], schemas[..m]);
      assert Flat(schemas) == Flat(schemas[..m]) + schemas[m];
      forall i, j | 0 <= i < j < |Flat(schemas)|
        ensures !Same(Flat(schemas)[i], Flat(schemas)[j])
      {
        if i < |Flat(schemas[..m])| <= j {
          assert Flat(schemas)[j].varId == vars[m] && Flat(schemas)[i].varId in vars[..m];
        }
      }
    }
  }

  lemma JoinPlanShape(tb: Tables, q: Query)
    requires Bound(q) && NoRepeat(q.from)
    ensures SchemaOf(tb, JoinPlan(tb, q)) == FromSchema(tb, q)
    ensures Sound(tb, JoinPlan(tb, q)) <==> forall k :: 0 <= k < |q.from| ==> WindowFits(tb, q, k)
    ensures Unique(FromSchema(tb, q)) && forall i :: 0 <= i < |FromSchema(tb, q)| ==> FromSchema(tb, q)[i].Named?
  {
    var t := JoinPlan(tb, q);
    var tables := seq(|q.from|, k requires 0 <= k < |q.from| => q.refTables[q.from[k]]);
    TablesUnique(tb, q.from, tables, FromSchemas(tb, q));
    forall k | 0 <= k < |q.from|
      ensures SchemaOf(tb, TablePlan(tb, q, k)) == FromSchemas(tb, q)[k]
      ensures Sound(tb, TablePlan(tb, q, k)) <==> WindowFits(tb, q, k)
    {
      TablePlanShape(tb, q, k);
    }
    if |q.from| > 1 {
      SchemaStep(tb, t);
      assert Schemas(tb, t.ins) == FromSchemas(tb, q);
      assert forall k :: 0 <= k < |q.from| ==> t.ins[k] == TablePlan(tb, q, k);
    } else {
      FlatOne(FromSchemas(tb, q)[0]);
      assert FromSchemas(tb, q) == [FromSchemas(tb, q)[0]];
    }
  }

  lemma InFromFinds(tb: Tables, q: Query, a: SemAttr)
    requires Bound(q) && InFrom(tb, q, a)
    ensures Find(FromSchema(tb, q), LogAttr(q.refTables, a)) < |FromSchema(tb, q)|
  {
    var k :| 0 <= k < |q.from| && q.from[k] == a.varId;
    FlatFinds(FromSchemas(tb, q), k, a.attrId, LogAttr(q.refTables, a));
  }

  lemma {:induction false} PlainResolves(tb: Tables, q: Query, e: SemExpr)
    requires Bound(q) && PlainExpr(tb, q, e)
    ensures Resolves(LogExpr(q.refTables, e), FromSchema(tb, q))
  {
    match e
    case ConstVal(_) =>
    case Attribute(a) => InFromFinds(tb, q, a);
    case Compute(_, l, r) => PlainResolves(tb, q, l); PlainResolves(tb, q, r);
  }

  lemma {:induction false} SelectPlanShape(tb: Tables, q: Query, preds: seq<SemPred>, t: Plan)
    requires Bound(q) && Sound(tb, t) && SchemaOf(tb, t) == FromSchema(tb, q)
    requires forall k :: 0 <= k < |preds| ==> PlainExpr(tb, q, preds[k].left) && PlainExpr(tb, q, preds[k].right)
    ensures var s := SelectPlan(q.refTables, preds, t);
      SchemaOf(tb, s) == FromSchema(tb, q) && Sound(tb, s) && IsStream(s) == IsStream(t)
  {
    if preds != [] {
      var m := |preds| - 1;
      var s := SelectPlan(q.refTables, preds, t);
      SelectPlanShape(tb, q, preds[..m], t);
      SchemaStep(tb, s);
      assert Schemas(tb, s.ins)[0] == FromSchema(tb, q) && Flags(s.ins)[0] == IsStream(t);
      PlainResolves(tb, q, preds[m].left);
      PlainResolves(tb, q, preds[m].right);
    }
  }

  /** The columns of the aggregation operator. */
  function GroupSchema(tb: Tables, q: Query): Schema
    requires q.Sfw?
  {
    LogAttrs(q.refTables, q.groups) + AggrSchema(tb, CollectedAll(q.refTables, q.projs))
  }

  lemma AggrPlanShape(tb: Tables, q: Query, t: Plan)
    requires WellFormed(tb, q) && Aggregates(q) && Sound(tb, t) && SchemaOf(tb, t) == FromSchema(tb, q)
    ensures SchemaOf(tb, AggrPlan(q, t)) == GroupSchema(tb, q) && Sound(tb, AggrPlan(q, t))
  {
    var u, aggrs := AggrPlan(q, t), CollectedAll(q.refTables, q.projs);
    SchemaStep(tb, u);
    assert Schemas(tb, u.ins)[0] == FromSchema(tb, q);
    forall k | 0 <= k < |q.groups|
      ensures Find(FromSchema(tb, q), LogAttrs(q.refTables, q.groups)[k]) < |FromSchema(tb, q)|
    {
      InFromFinds(tb, q, q.groups[k]);
    }
    forall k | 0 <= k < |aggrs|
      ensures Find(FromSchema(tb, q), aggrs[k].1) < |FromSchema(tb, q)|
    {
      AggrFinds(tb, q, k);
    }
  }

  lemma {:induction false} GroupedUses(tb: Tables, q: Query, e: SemExpr, fn: AggrFn, a: SemAttr)
    requires Bound(q) && GroupedExpr(tb, q, e) && Uses(e, fn, a)
    ensures InFrom(tb, q, a)
  {
    match e
    case AggrOf(_, _) =>
    case Compute(_, l, r) =>
      if Uses(l, fn, a) {
        GroupedUses(tb, q, l, fn, a);
      } else {
        GroupedUses(tb, q, r, fn, a);
      }
  }

  lemma AggrFinds(tb: Tables, q: Query, k: nat)
    requires WellFormed(tb, q) && Aggregates(q) && k < |CollectedAll(q.refTables, q.projs)|
    ensures Find(FromSchema(tb, q), CollectedAll(q.refTables, q.projs)[k].1) < |FromSchema(tb, q)|
    ensures CollectedAll(q.refTables, q.projs)[k].1.Named?
  {
    var x := CollectedAll(q.refTables, q.projs)[k];
    CollectedAllHas(q.refTables, q.projs);
    var j, a: SemAttr :| 0 <= j < |q.projs| && Uses(q.projs[j], x.0, a) && x.1 == LogAttr(q.refTables, a);
    GroupedUses(tb, q, q.projs[j], x.0, a);
    InFromFinds(tb, q, a);
  }

  /** Where an aggregation that a projection uses has been collected. */
  lemma AggrAt(q: Query, k: nat, fn: AggrFn, a: SemAttr) returns (j: nat)
    requires q.Sfw? && k < |q.projs| && Uses(q.projs[k], fn, a)
    ensures j < |CollectedAll(q.refTables, q.projs)| && CollectedAll(q.refTables, q.projs)[j] == (fn, LogAttr(q.refTables, a))
  {
    var x, aggrs := (fn, LogAttr(q.refTables, a)), CollectedAll(q.refTables, q.projs);
    CollectedAllHas(q.refTables, q.projs);
    assert x in aggrs;
    j :| 0 <= j < |aggrs| && aggrs[j] == x;
  }

  /** Every reference of a projection over the aggregation operator resolves. */
  lemma {:induction false} GroupedResolves(tb: Tables, q: Query, k: nat, e: SemExpr)
    requires WellFormed(tb, q) && Aggregates(q) && k < |q.projs| && GroupedExpr(tb, q, e)
    requires forall fn, a :: Uses(e, fn, a) ==> Uses(q.projs[k], fn, a)
    ensures Resolves(LogExpr(q.refTables, e), GroupSchema(tb, q))
  {
    var s := GroupSchema(tb, q);
    match e
    case ConstVal(_) =>
    case Attribute(a) =>
      var j :| 0 <= j < |q.groups| && q.groups[j] == a;
      assert InFrom(tb, q, q.groups[j]);
      assert Same(LogAttr(q.refTables, a), s[j]);
    case AggrOf(fn, a) =>
      assert Uses(e, fn, a);
      var j := AggrAt(q, k, fn, a);
      assert Same(LogAggr(q.refTables, fn, a), s[|q.groups| + j]);
    case Compute(_, l, r) =>
      GroupedResolves(tb, q, k, l);
      GroupedResolves(tb, q, k, r);
  }

  lemma ProjectPlanShape(tb: Tables, q: Query, t: Plan)
    requires WellFormed(tb, q) && Sound(tb, t)
    requires SchemaOf(tb, t) == if Aggregates(q) then GroupSchema(tb, q) else FromSchema(tb, q)
    ensures Sound(tb, ProjectPlan(q, t))
  {
    var u := ProjectPlan(q, t);
    var s := SchemaOf(tb, t);
    assert Schemas(tb, u.ins)[0] == s;
    forall k | 0 <= k < |q.projs|
      ensures Resolves(LogExpr(q.refTables, q.projs[k]), s)
    {
      if Aggregates(q) {
        GroupedResolves(tb, q, k, q.projs[k]);
      } else {
        PlainResolves(tb, q, q.projs[k]);
      }
    }
  }

  lemma UpToAggrShape(tb: Tables, q: Query)
    requires WellFormed(tb, q)
    ensures Sound(tb, UpToAggr(tb, q))
    ensures SchemaOf(tb, UpToAggr(tb, q)) == if Aggregates(q) then GroupSchema(tb, q) else FromSchema(tb, q)
  {
    JoinPlanShape(tb, q);
    SelectPlanShape(tb, q, q.preds, JoinPlan(tb, q));
    if Aggregates(q) {
      AggrPlanShape(tb, q, SelectPlan(q.refTables, q.preds, JoinPlan(tb, q)));
    }
  }

  /** In the naive plan of an accepted query, every reference resolves in the schema of its operator's input. */
  lemma SfwPlanSound(tb: Tables, q: Query)
    requires WellFormed(tb, q)
    ensures Sound(tb, SfwPlan(tb, q))
  {
    var project := ProjectPlan(q, UpToAggr(tb, q));
    UpToAggrShape(tb, q);
    ProjectPlanShape(tb, q, UpToAggr(tb, q));
    OverSound(tb, q, project);
  }

  lemma OverSound(tb: Tables, q: Query, t: Plan)
    requires q.Sfw? && Sound(tb, t)
    ensures Sound(tb, R2SPlan(q.r2s, DistinctPlan(q, t)))
  {
    UnarySound(tb, t);
    R2SSound(tb, q.r2s, DistinctPlan(q, t));
  }

  lemma R2SSound(tb: Tables, r2s: R2S, t: Plan)
    requires Sound(tb, t)
    ensures Sound(tb, R2SPlan(r2s, t))
  {
    UnarySound(tb, t);
  }

  lemma UnarySound(tb: Tables, t: Plan)
    requires Sound(tb, t)
    ensures Sound(tb, Plan(0, Distinct, [t])) && Sound(tb, Plan(0, Istream, [t]))
    ensures Sound(tb, Plan(0, Dstream, [t])) && Sound(tb, Plan(0, Rstream, [t]))
  {
    assert [t][0] == t;
  }
}
