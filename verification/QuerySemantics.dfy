/**
 What a query means, without any plan: windows over the tables of its FROM clause, the rows of their
 product for which the conditions hold, groups, projections, and what is reported of the result.
 */
module QuerySemantics {
  import opened Common
  import opened Bags
  import opened Histories
  import opened Semantics
  import opened LogicalPlan
  import opened Products
  import opened RewriteBinary
  import opened NaivePlan
  import opened NaiveGen

  // ---------------------------------------------------------------- where values stand in a row

  /** The table of the k-th variable of the FROM clause. */
  function TableOf(q: Query, k: nat): nat
    requires Bound(q) && k < |q.from|
  {
    q.refTables[q.from[k]]
  }

  /** How many columns the first k tables have together. */
  function Offset(tb: Tables, q: Query, k: nat): nat
    requires Bound(q) && k <= |q.from|
  {
    if k == 0 then 0 else Offset(tb, q, k - 1) + tb.width(TableOf(q, k - 1))
  }

  /** The first place of x in a list, or its length. */
  function PlaceOf<T(==)>(s: seq<T>, x: T): (k: nat)
    ensures k <= |s|
    ensures k < |s| ==> s[k] == x
    ensures forall j :: 0 <= j < k ==> s[j] != x
  {
    if s == [] || s[0] == x then 0 else 1 + PlaceOf(s[1..], x)
  }

  /** The place of an attribute in a row of the product: after the columns of the tables before its own. */
  function RowPlace(tb: Tables, q: Query, a: SemAttr): nat
    requires Bound(q)
  {
    Offset(tb, q, PlaceOf(q.from, a.varId)) + a.attrId
  }

  function ValueAt(x: Tuple, k: nat): Value {
    if k < |x| then x[k] else NoValue
  }

  // ---------------------------------------------------------------- expressions

  /** The value of an expression in a row of the product. */
  ghost function RowValue(env: Env, tb: Tables, q: Query, e: SemExpr, x: Tuple): Value
    requires Bound(q)
  {
    match e
    case ConstVal(v) => v
    case Attribute(a) => ValueAt(x, RowPlace(tb, q, a))
    case AggrOf(_, _) => NoValue
    case Compute(op, l, r) => env.arith(op, RowValue(env, tb, q, l, x), RowValue(env, tb, q, r, x))
  }

  /** Every condition of the query holds for the row. */
  ghost predicate Admits(env: Env, tb: Tables, q: Query, m: nat, x: Tuple)
    requires Bound(q) && m <= |q.preds|
  {
    forall k :: 0 <= k < m ==>
      env.cmp(q.preds[k].op, RowValue(env, tb, q, q.preds[k].left, x), RowValue(env, tb, q, q.preds[k].right, x))
  }

  /** The aggregations an expression mentions, from left to right. */
  function Mentions(e: SemExpr): seq<(AggrFn, SemAttr)> {
    match e
    case ConstVal(_) => []
    case Attribute(_) => []
    case AggrOf(fn, a) => [(fn, a)]
    case Compute(_, l, r) => Mentions(l) + Mentions(r)
  }

  function AllMentions(projs: seq<SemExpr>): seq<(AggrFn, SemAttr)> {
    if projs == [] then [] else AllMentions(projs[..|projs| - 1]) + Mentions(projs[|projs| - 1])
  }

  /** The elements of a list in the order in which each occurs first. */
  function Once<T(==)>(s: seq<T>): seq<T> {
    if s == [] then []
    else
      var front := Once(s[..|s| - 1]);
      if s[|s| - 1] in front then front else front + [s[|s| - 1]]
  }

  /** The aggregations the query computes. */
  function Aggrs(q: Query): seq<(AggrFn, SemAttr)>
    requires q.Sfw?
  {
    Once(AllMentions(q.projs))
  }

  /** A query with grouping attributes or aggregations has one row per group. */
  predicate Groups(q: Query)
    requires q.Sfw?
  {
    q.groups != [] || Aggrs(q) != []
  }

  /** The value of an expression for a group: the row has the grouping attributes, then the aggregations. */
  ghost function GroupValue(env: Env, q: Query, e: SemExpr, x: Tuple): Value
    requires q.Sfw?
  {
    match e
    case ConstVal(v) => v
    case Attribute(a) => ValueAt(x, PlaceOf(q.groups, a))
    case AggrOf(fn, a) => ValueAt(x, |q.groups| + PlaceOf(Aggrs(q), (fn, a)))
    case Compute(op, l, r) => env.arith(op, GroupValue(env, q, l, x), GroupValue(env, q, r, x))
  }

  // ---------------------------------------------------------------- the clauses

  function AttrIds(attrs: seq<SemAttr>): (r: seq<nat>)
    ensures |r| == |attrs|
  {
    seq(|attrs|, j requires 0 <= j < |attrs| => attrs[j].attrId)
  }

  /** The relation a window makes of a stream. */
  ghost function Windowed(env: Env, w: Window, h: Hist): (r: Hist)
    ensures |r| == |h|
  {
    match w
    case RangeSpec(units) => RangeH(h, units)
    case RowSpec(rows) => RowWinH(env, rows, h)
    case PartitionSpec(attrs, rows) => PartnWinH(env, AttrIds(attrs), rows, h)
    case NowSpec => h
    case Unbounded => Cumulate(h)
  }

  /** The relation the k-th table of the FROM clause stands for. */
  ghost function TableState(env: Env, n: nat, tb: Tables, q: Query, k: nat): (h: Hist)
    requires Bound(q) && k < |q.from|
    ensures |h| == n
  {
    var base := BaseH(env, n, TableOf(q, k));
    if tb.isStream(TableOf(q, k)) then Windowed(env, q.windows[k], base) else base
  }

  /** The product of the first m tables. */
  ghost function JoinState(env: Env, n: nat, tb: Tables, q: Query, m: nat): (h: Hist)
    requires Bound(q) && 1 <= m <= |q.from|
    ensures |h| == n
  {
    if m == 1 then TableState(env, n, tb, q, 0)
    else JoinH(JoinState(env, n, tb, q, m - 1), TableState(env, n, tb, q, m - 1), Concat)
  }

  /** The rows that meet the first m conditions. */
  ghost function WhereState(env: Env, n: nat, tb: Tables, q: Query, m: nat): (h: Hist)
    requires Bound(q) && m <= |q.preds|
    ensures |h| == n
  {
    FilterH(JoinState(env, n, tb, q, |q.from|), x => Admits(env, tb, q, m, x))
  }

  function GroupPlaces(tb: Tables, q: Query): (r: seq<nat>)
    requires Bound(q)
    ensures |r| == |q.groups|
  {
    seq(|q.groups|, k requires 0 <= k < |q.groups| => RowPlace(tb, q, q.groups[k]))
  }

  function AggrPlaces(tb: Tables, q: Query): (r: seq<(AggrFn, nat)>)
    requires Bound(q)
    ensures |r| == |Aggrs(q)|
  {
    seq(|Aggrs(q)|, k requires 0 <= k < |Aggrs(q)| => (Aggrs(q)[k].0, RowPlace(tb, q, Aggrs(q)[k].1)))
  }

  /** The values of the SELECT clause, for a group or for a row of the product. */
  ghost function Chosen(env: Env, tb: Tables, q: Query, x: Tuple): (y: Tuple)
    requires Bound(q)
    ensures |y| == |q.projs|
  {
    seq(|q.projs|, k requires 0 <= k < |q.projs| =>
      if Groups(q) then GroupValue(env, q, q.projs[k], x) else RowValue(env, tb, q, q.projs[k], x))
  }

  ghost function GroupState(env: Env, n: nat, tb: Tables, q: Query): (h: Hist)
    requires Bound(q)
    ensures |h| == n
  {
    var rows := WhereState(env, n, tb, q, |q.preds|);
    if Groups(q) then AggrH(env, GroupPlaces(tb, q), AggrPlaces(tb, q), rows) else rows
  }

  ghost function SelectState(env: Env, n: nat, tb: Tables, q: Query): (h: Hist)
    requires Bound(q)
    ensures |h| == n
  {
    MapH(GroupState(env, n, tb, q), x => Chosen(env, tb, q, x))
  }

  /** The result of a query as a relation. */
  ghost function QueryState(env: Env, n: nat, tb: Tables, q: Query): (h: Hist)
    requires q.Sfw? ==> Bound(q)
    requires q.BinaryOp? ==> |q.refTables| == 2
    ensures |h| == n
  {
    if q.Sfw? then
      if q.distinct then DedupH(SelectState(env, n, tb, q)) else SelectState(env, n, tb, q)
    else
      var left, right := WholeTable(env, n, tb, q.refTables[0]), WholeTable(env, n, tb, q.refTables[1]);
      if q.isUnion then PlusH(left, right) else MinusH(left, right)
  }

  /** A table without a window. */
  ghost function WholeTable(env: Env, n: nat, tb: Tables, table: nat): (h: Hist)
    ensures |h| == n
  {
    View(BaseH(env, n, table), tb.isStream(table))
  }

  /** The table keeps bringing tuples, and no window drops any. */
  predicate Arriving(tb: Tables, q: Query, k: nat)
    requires Bound(q) && k < |q.from|
  {
    tb.isStream(TableOf(q, k)) && q.windows[k].Unbounded?
  }

  predicate AllArriving(tb: Tables, q: Query)
    requires Bound(q)
  {
    forall k :: 0 <= k < |q.from| ==> Arriving(tb, q, k)
  }

  /** The result only grows with what arrives, so that reporting what is new tells everything. */
  predicate OnlyArrivals(tb: Tables, q: Query)
    requires q.Sfw? ==> Bound(q)
    requires q.BinaryOp? ==> |q.refTables| == 2
  {
    if q.Sfw? then !Groups(q) && AllArriving(tb, q)
    else q.isUnion && tb.isStream(q.refTables[0]) && tb.isStream(q.refTables[1])
  }

  /** What is reported of a result at every instant. */
  ghost function Reported(r2s: R2S, state: Hist, flag: bool): (h: Hist)
    ensures |h| == |state|
  {
    match r2s
    case NoR2S => Report(state, flag)
    case ToIstream => Delta(state)
    case ToDstream => Gone(state)
    case ToRstream => state
  }

  /** What a query delivers at every instant. */
  ghost function QueryMeaning(env: Env, n: nat, tb: Tables, q: Query): (h: Hist)
    requires q.Sfw? ==> Bound(q)
    requires q.BinaryOp? ==> |q.refTables| == 2
    ensures |h| == n
  {
    Reported(q.r2s, QueryState(env, n, tb, q), OnlyArrivals(tb, q))
  }

  // ---------------------------------------------------------------- names stand at their places

  lemma FindIs(s: Schema, a: Attr, k: nat)
    requires k < |s| && Same(a, s[k]) && forall j :: 0 <= j < k ==> !Same(a, s[j])
    ensures Find(s, a) == k
  {
  }

  lemma {:induction false} OffsetFlat(tb: Tables, q: Query, k: nat)
    requires Bound(q) && k <= |q.from|
    ensures Offset(tb, q, k) == |Flat(FromSchemas(tb, q)[..k])|
  {
    if k > 0 {
      OffsetFlat(tb, q, k - 1);
      assert FromSchemas(tb, q)[..k][..k - 1] == FromSchemas(tb, q)[..k - 1];
    }
  }

  /** An element of a part, in the whole. */
  lemma FlatAt<T>(parts: seq<seq<T>>, k: nat, j: nat)
    requires k < |parts| && j < |parts[k]|
    ensures |Flat(parts[..k])| + j < |Flat(parts)| && Flat(parts)[|Flat(parts[..k])| + j] == parts[k][j]
  {
    assert parts == parts[..k] + [parts[k]] + parts[k + 1..];
    FlatConcat(parts[..k] + [parts[k]], parts[k + 1..]);
    FlatConcat(parts[..k], [parts[k]]);
    FlatOne(parts[k]);
  }

  /** An attribute is found at its place in the row. */
  lemma FindPlace(tb: Tables, q: Query, a: SemAttr)
    requires Bound(q) && NoRepeat(q.from) && InFrom(tb, q, a)
    ensures Find(FromSchema(tb, q), LogAttr(q.refTables, a)) == RowPlace(tb, q, a) < |FromSchema(tb, q)|
  {
    hide Flat, Find;
    var k := PlaceOf(q.from, a.varId);
    OffsetFlat(tb, q, k);
    FlatAt(FromSchemas(tb, q), k, a.attrId);
    JoinPlanShape(tb, q);
    FindUnique(FromSchema(tb, q), LogAttr(q.refTables, a), RowPlace(tb, q, a));
  }

  lemma {:induction false} RowEval(env: Env, tb: Tables, q: Query, e: SemExpr, x: Tuple)
    requires Bound(q) && NoRepeat(q.from) && PlainExpr(tb, q, e) && |x| == |FromSchema(tb, q)|
    ensures ValueIn(env, LogExpr(q.refTables, e), FromSchema(tb, q), x) == RowValue(env, tb, q, e, x)
  {
    match e
    case ConstVal(_) =>
    case Attribute(a) => FindPlace(tb, q, a);
    case Compute(_, l, r) => RowEval(env, tb, q, l, x); RowEval(env, tb, q, r, x);
  }

  // ---------------------------------------------------------------- aggregations

  function LogAggrs(refTables: seq<nat>, aggrs: seq<(AggrFn, SemAttr)>): (r: seq<(AggrFn, Attr)>)
    ensures |r| == |aggrs|
  {
    seq(|aggrs|, k requires 0 <= k < |aggrs| => (aggrs[k].0, LogAttr(refTables, aggrs[k].1)))
  }

  /** All aggregated attributes are of known variables. */
  predicate Known(refTables: seq<nat>, aggrs: seq<(AggrFn, SemAttr)>) {
    forall x :: x in aggrs ==> x.1.varId < |refTables|
  }

  lemma {:induction false} OnceHas<T>(s: seq<T>, x: T)
    ensures x in Once(s) <==> x in s
  {
    if s != [] {
      OnceHas(s[..|s| - 1], x);
      assert s == s[..|s| - 1] + [s[|s| - 1]];
    }
  }

  /** Collecting from an expression goes on with what it mentions. */
  lemma {:induction false} CollectedOnce(refTables: seq<nat>, e: SemExpr, seen: seq<(AggrFn, SemAttr)>)
    requires Known(refTables, seen) && Known(refTables, Mentions(e))
    ensures Collected(refTables, e, LogAggrs(refTables, Once(seen))) == LogAggrs(refTables, Once(seen + Mentions(e)))
  {
    hide LogAttr, LogAggrs, Once;
    match e
    case ConstVal(_) => assert seen + [] == seen;
    case Attribute(_) => assert seen + [] == seen;
    case AggrOf(fn, a) => OnceMore(refTables, seen, (fn, a));
    case Compute(_, l, r) =>
      var ls, rs := Mentions(l), Mentions(r);
      CollectedOnce(refTables, l, seen);
      CollectedOnce(refTables, r, seen + ls);
      assert seen + ls + rs == seen + (ls + rs);
  }

  lemma OnceMore(refTables: seq<nat>, seen: seq<(AggrFn, SemAttr)>, x: (AggrFn, SemAttr))
    requires Known(refTables, seen) && x.1.varId < |refTables|
    ensures var y, was := (x.0, LogAttr(refTables, x.1)), LogAggrs(refTables, Once(seen));
      LogAggrs(refTables, Once(seen + [x])) == if y in was then was else was + [y]
  {
    var front := Once(seen);
    assert (seen + [x])[..|seen|] == seen;
    var y, was := (x.0, LogAttr(refTables, x.1)), LogAggrs(refTables, front);
    assert x in front <==> y in was by {
      if y in was {
        var k :| 0 <= k < |was| && was[k] == y;
        assert front[k] in front;
      }
      if x in front {
        var k :| 0 <= k < |front| && front[k] == x;
        assert was[k] == y;
      }
    }
  }

  lemma {:induction false} CollectedMentions(refTables: seq<nat>, projs: seq<SemExpr>)
    requires Known(refTables, AllMentions(projs))
    ensures CollectedAll(refTables, projs) == LogAggrs(refTables, Once(AllMentions(projs)))
  {
    if projs != [] {
      var m := |projs| - 1;
      var front, last := AllMentions(projs[..m]), Mentions(projs[m]);
      CollectedMentions(refTables, projs[..m]);
      CollectedOnce(refTables, projs[m], front);
    }
  }

  lemma {:induction false} MentionsUsed(e: SemExpr, x: (AggrFn, SemAttr))
    ensures x in Mentions(e) <==> Uses(e, x.0, x.1)
  {
    match e
    case ConstVal(_) =>
    case Attribute(_) =>
    case AggrOf(_, _) =>
    case Compute(_, l, r) => MentionsUsed(l, x); MentionsUsed(r, x);
  }

  lemma {:induction false} AllMentionsUsed(projs: seq<SemExpr>, x: (AggrFn, SemAttr))
    ensures x in AllMentions(projs) <==> exists k :: 0 <= k < |projs| && Uses(projs[k], x.0, x.1)
  {
    if projs != [] {
      var m := |projs| - 1;
      AllMentionsUsed(projs[..m], x);
      MentionsUsed(projs[m], x);
      if k :| 0 <= k < |projs| && Uses(projs[k], x.0, x.1) {
        assert k < m ==> Uses(projs[..m][k], x.0, x.1);
      }
    }
  }

  /** A query mentions aggregations exactly if it collects some. */
  lemma {:induction false} NothingMentioned(refTables: seq<nat>, projs: seq<SemExpr>)
    ensures CollectedAll(refTables, projs) == [] <==> AllMentions(projs) == []
  {
    CollectedAllHas(refTables, projs);
    if AllMentions(projs) != [] {
      var x := AllMentions(projs)[0];
      AllMentionsUsed(projs, x);
      assert (x.0, LogAttr(refTables, x.1)) in CollectedAll(refTables, projs);
    }
    if CollectedAll(refTables, projs) != [] {
      var x := CollectedAll(refTables, projs)[0];
      assert x in CollectedAll(refTables, projs);
      var k, a: SemAttr :| 0 <= k < |projs| && Uses(projs[k], x.0, a) && x.1 == LogAttr(refTables, a);
      AllMentionsUsed(projs, (x.0, a));
    }
  }

  lemma GroupsAggregates(q: Query)
    requires q.Sfw?
    ensures Groups(q) == Aggregates(q)
  {
    NothingMentioned(q.refTables, q.projs);
    var all := AllMentions(q.projs);
    if Once(all) != [] {
      OnceHas(all, Once(all)[0]);
    }
    if all != [] {
      OnceHas(all, all[0]);
    }
  }

  /** What is collected is what is mentioned, and belongs to the FROM clause. */
  lemma AggrsCollected(tb: Tables, q: Query)
    requires WellFormed(tb, q) && Aggregates(q)
    ensures CollectedAll(q.refTables, q.projs) == LogAggrs(q.refTables, Aggrs(q))
    ensures forall k :: 0 <= k < |Aggrs(q)| ==> InFrom(tb, q, Aggrs(q)[k].1)
  {
    var all := AllMentions(q.projs);
    forall x | x in all
      ensures InFrom(tb, q, x.1)
    {
      AllMentionsUsed(q.projs, x);
      var k :| 0 <= k < |q.projs| && Uses(q.projs[k], x.0, x.1);
      GroupedUses(tb, q, q.projs[k], x.0, x.1);
    }
    CollectedMentions(q.refTables, q.projs);
    forall k | 0 <= k < |Aggrs(q)|
      ensures InFrom(tb, q, Aggrs(q)[k].1)
    {
      OnceHas(all, Aggrs(q)[k]);
    }
  }

  // ---------------------------------------------------------------- the plan computes the clauses

  lemma FilterSameH(h: Hist, w: nat, p: Tuple -> bool, q: Tuple -> bool)
    requires HasWidth(h, w) && forall x :: |x| == w ==> p(x) == q(x)
    ensures FilterH(h, p) == FilterH(h, q)
  {
    forall t | 0 <= t < |h|
      ensures FilterH(h, p)[t] == FilterH(h, q)[t]
    {
      FilterSame(h[t], p, q);
    }
  }

  lemma MapSameH(h: Hist, w: nat, f: Tuple -> Tuple, g: Tuple -> Tuple)
    requires HasWidth(h, w) && forall x :: |x| == w ==> f(x) == g(x)
    ensures MapH(h, f) == MapH(h, g)
  {
    forall t | 0 <= t < |h|
      ensures MapH(h, f)[t] == MapH(h, g)[t]
    {
      MapSame(h[t], f, g);
    }
  }

  lemma FilterFilterH(h: Hist, p: Tuple -> bool, q: Tuple -> bool, r: Tuple -> bool)
    requires forall x :: r(x) == (p(x) && q(x))
    ensures FilterH(FilterH(h, p), q) == FilterH(h, r)
  {
    forall t | 0 <= t < |h|
      ensures FilterH(FilterH(h, p), q)[t] == FilterH(h, r)[t]
    {
      FilterFilter(h[t], p, q, r);
    }
  }

  /** What a reader of the plan sees is the given state, and whether the plan is a stream. */
  ghost predicate Shows(env: Env, n: nat, tb: Tables, t: Plan, state: Hist, flag: bool) {
    View(Meaning(env, n, tb, t), IsStream(t)) == state && IsStream(t) == flag
  }

  lemma PartitionPlaces(tb: Tables, q: Query, k: nat)
    requires Bound(q) && k < |q.from| && tb.isStream(TableOf(q, k)) && q.windows[k].PartitionSpec? && WindowFits(tb, q, k)
    ensures FindAll(TableSchema(tb, q.from[k], TableOf(q, k)), LogAttrs(q.refTables, q.windows[k].attrs)) == AttrIds(q.windows[k].attrs)
  {
    var s, attrs := TableSchema(tb, q.from[k], TableOf(q, k)), q.windows[k].attrs;
    forall j | 0 <= j < |attrs|
      ensures Find(s, LogAttr(q.refTables, attrs[j])) == attrs[j].attrId
    {
      assert WindowAttr(tb, q, k, attrs[j]);
      FindIs(s, LogAttr(q.refTables, attrs[j]), attrs[j].attrId);
    }
  }

  lemma SourceShows(env: Env, n: nat, tb: Tables, t: Plan)
    requires (t.op.StreamSource? || t.op.RelnSource?) && t.ins == []
    ensures Meaning(env, n, tb, t) == BaseH(env, n, if t.op.StreamSource? then t.op.strId else t.op.relId)
    ensures IsStream(t) == t.op.StreamSource?
    ensures SchemaOf(tb, t) == TableSchema(tb, t.op.varId, if t.op.StreamSource? then t.op.strId else t.op.relId)
  {
    MeaningStep(env, n, tb, t);
    SchemaStep(tb, t);
  }

  lemma WindowShows(env: Env, n: nat, tb: Tables, t: Plan, w: Window, refTables: seq<nat>)
    requires !w.Unbounded? && t.op == WindowOp(refTables, w) && |t.ins| == 1
    requires w.PartitionSpec? ==> FindAll(SchemaOf(tb, t.ins[0]), LogAttrs(refTables, w.attrs)) == AttrIds(w.attrs)
    ensures Shows(env, n, tb, t, Windowed(env, w, Meaning(env, n, tb, t.ins[0])), false)
  {
    OneInput(env, n, tb, t);
    SchemaStep(tb, t);
  }

  /** A table of the FROM clause under its window. */
  lemma TableShows(env: Env, n: nat, tb: Tables, q: Query, k: nat)
    requires Bound(q) && k < |q.from| && WindowFits(tb, q, k)
    ensures Shows(env, n, tb, TablePlan(tb, q, k), TableState(env, n, tb, q, k), Arriving(tb, q, k))
  {
    var t := TablePlan(tb, q, k);
    if t.ins == [] {
      SourceShows(env, n, tb, t);
    } else {
      SourceShows(env, n, tb, t.ins[0]);
      if q.windows[k].PartitionSpec? {
        PartitionPlaces(tb, q, k);
      }
      WindowShows(env, n, tb, t, q.windows[k], q.refTables);
    }
  }

  ghost function TableStates(env: Env, n: nat, tb: Tables, q: Query): (hs: seq<Hist>)
    requires Bound(q)
    ensures |hs| == |q.from| && forall k :: 0 <= k < |hs| ==> |hs[k]| == n
  {
    seq(|q.from|, k requires 0 <= k < |q.from| => TableState(env, n, tb, q, k))
  }

  lemma {:induction false} JoinProduct(env: Env, n: nat, tb: Tables, q: Query, m: nat)
    requires Bound(q) && 1 <= m <= |q.from|
    ensures ProductH(n, TableStates(env, n, tb, q)[..m]) == JoinState(env, n, tb, q, m)
  {
    hide TableState;
    if m > 1 {
      JoinProduct(env, n, tb, q, m - 1);
      assert TableStates(env, n, tb, q)[..m][..m - 1] == TableStates(env, n, tb, q)[..m - 1];
    }
  }

  ghost predicate TablesShow(env: Env, n: nat, tb: Tables, q: Query)
    requires Bound(q)
  {
    forall k :: 0 <= k < |q.from| ==> Shows(env, n, tb, TablePlan(tb, q, k), TableState(env, n, tb, q, k), Arriving(tb, q, k))
  }

  lemma FactorStates(env: Env, n: nat, tb: Tables, q: Query)
    requires Bound(q) && TablesShow(env, n, tb, q)
    ensures Factors(env, n, tb, TablePlans(tb, q)) == TableStates(env, n, tb, q)
    ensures AllTrue(Flags(TablePlans(tb, q))) <==> AllArriving(tb, q)
  {
    hide TablePlan, TableState, Arriving;
    var ts := TablePlans(tb, q);
    forall k | 0 <= k < |q.from|
      ensures Factors(env, n, tb, ts)[k] == TableStates(env, n, tb, q)[k] && Flags(ts)[k] == Arriving(tb, q, k)
    {
      assert ts[k] == TablePlan(tb, q, k);
    }
  }

  /** The joined tables. */
  lemma JoinShows(env: Env, n: nat, tb: Tables, q: Query)
    requires Bound(q) && forall k :: 0 <= k < |q.from| ==> WindowFits(tb, q, k)
    ensures Shows(env, n, tb, JoinPlan(tb, q), JoinState(env, n, tb, q, |q.from|), AllArriving(tb, q))
  {
    hide TablePlan, TableState, Arriving, Factors;
    forall k | 0 <= k < |q.from|
      ensures Shows(env, n, tb, TablePlan(tb, q, k), TableState(env, n, tb, q, k), Arriving(tb, q, k))
    {
      TableShows(env, n, tb, q, k);
    }
    if |q.from| > 1 {
      FactorStates(env, n, tb, q);
      ViewOfCross(env, n, tb, JoinPlan(tb, q));
      SchemaStep(tb, JoinPlan(tb, q));
      JoinProduct(env, n, tb, q, |q.from|);
      assert TableStates(env, n, tb, q)[..|q.from|] == TableStates(env, n, tb, q);
    }
  }

  /** A select over a plan that shows some state shows the filtered state. */
  lemma SelectShows(env: Env, n: nat, tb: Tables, t: Plan, state: Hist, flag: bool)
    requires t.op.Select? && |t.ins| == 1 && Shows(env, n, tb, t.ins[0], state, flag)
    ensures Shows(env, n, tb, t, FilterH(state, Selects(env, t.op.pred, SchemaOf(tb, t.ins[0]))), flag)
  {
    var h, p := Meaning(env, n, tb, t.ins[0]), Selects(env, t.op.pred, SchemaOf(tb, t.ins[0]));
    OneInput(env, n, tb, t);
    UnaryMeaning(env, n, t.op, SchemaOf(tb, t.ins[0]), IsStream(t.ins[0]), h);
    SchemaStep(tb, t);
    assert Flags(t.ins) == [flag];
    ViewBind(h, Keep(p), flag);
  }

  lemma ProjectShows(env: Env, n: nat, tb: Tables, t: Plan, state: Hist, flag: bool)
    requires t.op.Project? && |t.ins| == 1 && Shows(env, n, tb, t.ins[0], state, flag)
    ensures Shows(env, n, tb, t, MapH(state, Computes(env, t.op.projs, SchemaOf(tb, t.ins[0]))), flag)
  {
    var h, f := Meaning(env, n, tb, t.ins[0]), Computes(env, t.op.projs, SchemaOf(tb, t.ins[0]));
    OneInput(env, n, tb, t);
    UnaryMeaning(env, n, t.op, SchemaOf(tb, t.ins[0]), IsStream(t.ins[0]), h);
    SchemaStep(tb, t);
    assert Flags(t.ins) == [flag];
    ViewBind(h, Each(f), flag);
  }

  lemma DistinctShows(env: Env, n: nat, tb: Tables, t: Plan, state: Hist, flag: bool)
    requires t.op.Distinct? && |t.ins| == 1 && Shows(env, n, tb, t.ins[0], state, flag)
    ensures Shows(env, n, tb, t, DedupH(state), flag)
  {
    var h := Meaning(env, n, tb, t.ins[0]);
    OneInput(env, n, tb, t);
    UnaryMeaning(env, n, t.op, SchemaOf(tb, t.ins[0]), IsStream(t.ins[0]), h);
    SchemaStep(tb, t);
    assert Flags(t.ins) == [flag];
    DistinctWhole(h, flag);
  }

  lemma GroupShows(env: Env, n: nat, tb: Tables, t: Plan, state: Hist, flag: bool)
    requires t.op.GroupAggr? && |t.ins| == 1 && Shows(env, n, tb, t.ins[0], state, flag)
    ensures var s := SchemaOf(tb, t.ins[0]);
      Shows(env, n, tb, t, AggrH(env, FindAll(s, t.op.groups), FindAggrs(s, t.op.aggrs), state), false)
  {
    var h := Meaning(env, n, tb, t.ins[0]);
    OneInput(env, n, tb, t);
    UnaryMeaning(env, n, t.op, SchemaOf(tb, t.ins[0]), IsStream(t.ins[0]), h);
    SchemaStep(tb, t);
  }

  ghost predicate Meets(env: Env, tb: Tables, q: Query, k: nat, x: Tuple)
    requires Bound(q) && k < |q.preds|
  {
    env.cmp(q.preds[k].op, RowValue(env, tb, q, q.preds[k].left, x), RowValue(env, tb, q, q.preds[k].right, x))
  }

  /** One select per condition leaves the rows that meet all of them. */
  lemma {:induction false} WhereShows(env: Env, n: nat, tb: Tables, q: Query, m: nat, flag: bool)
    requires WellFormed(tb, q) && Matches(env, tb) && m <= |q.preds|
    requires Shows(env, n, tb, JoinPlan(tb, q), JoinState(env, n, tb, q, |q.from|), flag)
    ensures var t := SelectPlan(q.refTables, q.preds[..m], JoinPlan(tb, q));
      && Shows(env, n, tb, t, WhereState(env, n, tb, q, m), flag)
      && Sound(tb, t) && SchemaOf(tb, t) == FromSchema(tb, q)
  {
    hide Sound, PlainExpr, WhereState, JoinState, FromSchema, JoinPlan, Matches, Shows;
    var join := JoinPlan(tb, q);
    JoinPlanShape(tb, q);
    SelectPlanShape(tb, q, q.preds[..m], join);
    if m == 0 {
      NoCondition(env, n, tb, q);
    } else {
      WhereShows(env, n, tb, q, m - 1, flag);
      WhereStep(env, n, tb, q, m - 1, flag);
    }
  }

  lemma NoCondition(env: Env, n: nat, tb: Tables, q: Query)
    requires Bound(q)
    ensures WhereState(env, n, tb, q, 0) == JoinState(env, n, tb, q, |q.from|)
  {
    var h, p := JoinState(env, n, tb, q, |q.from|), (x: Tuple) => Admits(env, tb, q, 0, x);
    forall t | 0 <= t < n
      ensures FilterH(h, p)[t] == h[t]
    {
      BindId(h[t], Keep(p));
    }
  }

  lemma WhereStep(env: Env, n: nat, tb: Tables, q: Query, m: nat, flag: bool)
    requires WellFormed(tb, q) && Matches(env, tb) && m < |q.preds|
    requires var t := SelectPlan(q.refTables, q.preds[..m], JoinPlan(tb, q));
      && Shows(env, n, tb, t, WhereState(env, n, tb, q, m), flag)
      && Sound(tb, t) && SchemaOf(tb, t) == FromSchema(tb, q)
    ensures Shows(env, n, tb, SelectPlan(q.refTables, q.preds[..m + 1], JoinPlan(tb, q)), WhereState(env, n, tb, q, m + 1), flag)
  {
    var t, u := SelectPlan(q.refTables, q.preds[..m], JoinPlan(tb, q)), SelectPlan(q.refTables, q.preds[..m + 1], JoinPlan(tb, q));
    assert q.preds[..m + 1][..m] == q.preds[..m] && u.ins == [t];
    SelectShows(env, n, tb, u, WhereState(env, n, tb, q, m), flag);
    ShowsWidth(env, n, tb, t, WhereState(env, n, tb, q, m), flag);
    var s, b := FromSchema(tb, q), LogPred(q.refTables, q.preds[m]);
    forall x: Tuple | |x| == |s|
      ensures HoldsIn(env, b, s, x) == Meets(env, tb, q, m, x)
    {
      RowEval(env, tb, q, q.preds[m].left, x);
      RowEval(env, tb, q, q.preds[m].right, x);
    }
    FilterSameH(WhereState(env, n, tb, q, m), |s|, Selects(env, b, s), x => Meets(env, tb, q, m, x));
    OneConditionMore(env, n, tb, q, m);
  }

  lemma OneConditionMore(env: Env, n: nat, tb: Tables, q: Query, m: nat)
    requires Bound(q) && m < |q.preds|
    ensures WhereState(env, n, tb, q, m + 1) == FilterH(WhereState(env, n, tb, q, m), x => Meets(env, tb, q, m, x))
  {
    forall x
      ensures Admits(env, tb, q, m + 1, x) == (Admits(env, tb, q, m, x) && Meets(env, tb, q, m, x))
    {
    }
    FilterFilterH(JoinState(env, n, tb, q, |q.from|), x => Admits(env, tb, q, m, x), x => Meets(env, tb, q, m, x),
                  x => Admits(env, tb, q, m + 1, x));
  }

  lemma ShowsWidth(env: Env, n: nat, tb: Tables, t: Plan, state: Hist, flag: bool)
    requires Matches(env, tb) && Sound(tb, t) && Shows(env, n, tb, t, state, flag)
    ensures HasWidth(state, |SchemaOf(tb, t)|)
  {
    MeaningWidth(env, n, tb, t);
    ViewWidth(Meaning(env, n, tb, t), IsStream(t), |SchemaOf(tb, t)|);
  }

  // ---------------------------------------------------------------- groups

  lemma FindGroup(tb: Tables, q: Query, a: SemAttr)
    requires WellFormed(tb, q) && a in q.groups
    ensures Find(GroupSchema(tb, q), LogAttr(q.refTables, a)) == PlaceOf(q.groups, a) < |q.groups|
  {
    var s, k := GroupSchema(tb, q), PlaceOf(q.groups, a);
    forall j | 0 <= j < |q.groups|
      ensures Same(LogAttr(q.refTables, a), s[j]) <==> q.groups[j] == a
    {
      assert InFrom(tb, q, q.groups[j]) && InFrom(tb, q, q.groups[k]);
    }
    FindIs(s, LogAttr(q.refTables, a), k);
  }

  lemma FindAggr(tb: Tables, q: Query, fn: AggrFn, a: SemAttr)
    requires WellFormed(tb, q) && Aggregates(q) && (fn, a) in Aggrs(q)
    ensures Find(GroupSchema(tb, q), LogAggr(q.refTables, fn, a)) == |q.groups| + PlaceOf(Aggrs(q), (fn, a)) < |GroupSchema(tb, q)|
  {
    AggrsCollected(tb, q);
    var s, k, g := GroupSchema(tb, q), PlaceOf(Aggrs(q), (fn, a)), |q.groups|;
    var name := LogAggr(q.refTables, fn, a);
    assert InFrom(tb, q, Aggrs(q)[k].1);
    forall j | 0 <= j < g
      ensures !Same(name, s[j])
    {
      assert s[j] == LogAttr(q.refTables, q.groups[j]) && InFrom(tb, q, q.groups[j]);
    }
    forall j | 0 <= j < |Aggrs(q)|
      ensures Same(name, s[g + j]) <==> Aggrs(q)[j] == (fn, a)
    {
      assert InFrom(tb, q, Aggrs(q)[j].1);
      assert s[g + j] == AggrAttr(tb, CollectedAll(q.refTables, q.projs)[j]);
    }
    forall i | 0 <= i < g + k
      ensures !Same(name, s[i])
    {
      assert i >= g ==> Aggrs(q)[i - g] != (fn, a) && s[i] == s[g + (i - g)];
    }
    FindIs(s, name, g + k);
  }

  lemma {:induction false} GroupEval(env: Env, tb: Tables, q: Query, k: nat, e: SemExpr, x: Tuple)
    requires WellFormed(tb, q) && Aggregates(q) && k < |q.projs| && GroupedExpr(tb, q, e) && |x| == |GroupSchema(tb, q)|
    requires forall fn, a :: Uses(e, fn, a) ==> Uses(q.projs[k], fn, a)
    ensures ValueIn(env, LogExpr(q.refTables, e), GroupSchema(tb, q), x) == GroupValue(env, q, e, x)
  {
    hide Aggregates, GroupSchema, Aggrs, PlainExpr, InFrom;
    match e
    case ConstVal(_) =>
    case Attribute(a) => FindGroup(tb, q, a);
    case AggrOf(fn, a) =>
      assert Uses(e, fn, a);
      UsedAggr(q, k, fn, a);
      FindAggr(tb, q, fn, a);
    case Compute(_, l, r) =>
      GroupEval(env, tb, q, k, l, x);
      GroupEval(env, tb, q, k, r, x);
  }

  lemma UsedAggr(q: Query, k: nat, fn: AggrFn, a: SemAttr)
    requires q.Sfw? && k < |q.projs| && Uses(q.projs[k], fn, a)
    ensures (fn, a) in Aggrs(q)
  {
    AllMentionsUsed(q.projs, (fn, a));
    OnceHas(AllMentions(q.projs), (fn, a));
  }

  /** The operator for groups and aggregations looks them up at their places in the row. */
  lemma GroupFinds(tb: Tables, q: Query)
    requires WellFormed(tb, q) && Aggregates(q)
    ensures FindAll(FromSchema(tb, q), LogAttrs(q.refTables, q.groups)) == GroupPlaces(tb, q)
    ensures FindAggrs(FromSchema(tb, q), CollectedAll(q.refTables, q.projs)) == AggrPlaces(tb, q)
  {
    hide Find, Flat;
    AggrsCollected(tb, q);
    forall k | 0 <= k < |q.groups|
      ensures Find(FromSchema(tb, q), LogAttr(q.refTables, q.groups[k])) == RowPlace(tb, q, q.groups[k])
    {
      FindPlace(tb, q, q.groups[k]);
    }
    forall k | 0 <= k < |Aggrs(q)|
      ensures Find(FromSchema(tb, q), LogAttr(q.refTables, Aggrs(q)[k].1)) == RowPlace(tb, q, Aggrs(q)[k].1)
    {
      FindPlace(tb, q, Aggrs(q)[k].1);
    }
  }

  /** The rows that are projected: those of the product, or one per group. */
  lemma RowsShow(env: Env, n: nat, tb: Tables, q: Query)
    requires WellFormed(tb, q) && Matches(env, tb)
    ensures Shows(env, n, tb, UpToAggr(tb, q), GroupState(env, n, tb, q), OnlyArrivals(tb, q))
  {
    hide Shows, Sound, Matches, Aggregates, Groups, WhereState, JoinState, GroupState, FromSchema, AggrPlan, JoinPlan, PlainExpr, GroupedExpr;
    var t := SelectPlan(q.refTables, q.preds, JoinPlan(tb, q));
    JoinShows(env, n, tb, q);
    WhereShows(env, n, tb, q, |q.preds|, AllArriving(tb, q));
    assert q.preds[..|q.preds|] == q.preds;
    GroupsAggregates(q);
    GroupedShow(env, n, tb, q, t, AllArriving(tb, q));
  }

  lemma GroupedShow(env: Env, n: nat, tb: Tables, q: Query, t: Plan, flag: bool)
    requires WellFormed(tb, q) && SchemaOf(tb, t) == FromSchema(tb, q) && Groups(q) == Aggregates(q)
    requires Shows(env, n, tb, t, WhereState(env, n, tb, q, |q.preds|), flag)
    ensures Shows(env, n, tb, AggrPlan(q, t), GroupState(env, n, tb, q), !Groups(q) && flag)
  {
    hide Shows, WhereState, FromSchema, Aggregates, Groups, PlainExpr, GroupedExpr;
    if Aggregates(q) {
      GroupFinds(tb, q);
      GroupShows(env, n, tb, AggrPlan(q, t), WhereState(env, n, tb, q, |q.preds|), flag);
    }
  }

  lemma ChosenComputes(env: Env, tb: Tables, q: Query, x: Tuple)
    requires WellFormed(tb, q) && |x| == |if Aggregates(q) then GroupSchema(tb, q) else FromSchema(tb, q)|
    ensures ValuesIn(env, LogExprs(q.refTables, q.projs), if Aggregates(q) then GroupSchema(tb, q) else FromSchema(tb, q), x)
         == Chosen(env, tb, q, x)
  {
    hide GroupSchema, FromSchema, PlainExpr, GroupedExpr;
    GroupsAggregates(q);
    hide Aggregates, Groups;
    var s := if Aggregates(q) then GroupSchema(tb, q) else FromSchema(tb, q);
    forall k | 0 <= k < |q.projs|
      ensures ValueIn(env, LogExpr(q.refTables, q.projs[k]), s, x) == Chosen(env, tb, q, x)[k]
    {
      if Aggregates(q) {
        GroupEval(env, tb, q, k, q.projs[k], x);
      } else {
        RowEval(env, tb, q, q.projs[k], x);
      }
    }
  }

  lemma SelectedShow(env: Env, n: nat, tb: Tables, q: Query)
    requires WellFormed(tb, q) && Matches(env, tb)
    ensures Shows(env, n, tb, ProjectPlan(q, UpToAggr(tb, q)), SelectState(env, n, tb, q), OnlyArrivals(tb, q))
  {
    assert Bound(q);
    hide Matches, Sound, Shows, GroupState, Aggregates, Groups, OnlyArrivals, UpToAggr, WellFormed, PlainExpr, GroupedExpr;
    var u := UpToAggr(tb, q);
    var t, rows, s := ProjectPlan(q, u), GroupState(env, n, tb, q), SchemaOf(tb, u);
    RowsShow(env, n, tb, q);
    UpToAggrShape(tb, q);
    ShowsWidth(env, n, tb, u, rows, OnlyArrivals(tb, q));
    ProjectShows(env, n, tb, t, rows, OnlyArrivals(tb, q));
    forall x: Tuple | |x| == |s|
      ensures ValuesIn(env, LogExprs(q.refTables, q.projs), s, x) == Chosen(env, tb, q, x)
    {
      ChosenComputes(env, tb, q, x);
    }
    MapSameH(rows, |s|, Computes(env, LogExprs(q.refTables, q.projs), s), x => Chosen(env, tb, q, x));
  }

  // ---------------------------------------------------------------- the result

  lemma IstreamMeaning(env: Env, n: nat, s: Schema, f: bool, h: Hist)
    requires |h| == n
    ensures OpMeaning(env, n, Istream, [s], [f], [h]) == Delta(View(h, f))
  {
  }

  lemma DstreamMeaning(env: Env, n: nat, s: Schema, f: bool, h: Hist)
    requires |h| == n
    ensures OpMeaning(env, n, Dstream, [s], [f], [h]) == Gone(View(h, f))
  {
  }

  lemma RstreamMeaning(env: Env, n: nat, s: Schema, f: bool, h: Hist)
    requires |h| == n
    ensures OpMeaning(env, n, Rstream, [s], [f], [h]) == View(h, f)
  {
  }

  /** What is reported of a result, by a plan that shows it. */
  lemma ReportShows(env: Env, n: nat, tb: Tables, r2s: R2S, t: Plan, state: Hist, flag: bool)
    requires Shows(env, n, tb, t, state, flag)
    ensures Meaning(env, n, tb, R2SPlan(r2s, t)) == Reported(r2s, state, flag)
  {
    hide OpMeaning;
    var s, f, h := SchemaOf(tb, t), IsStream(t), Meaning(env, n, tb, t);
    if r2s.NoR2S? {
      DeltaCumulate(h);
    } else {
      OneInput(env, n, tb, R2SPlan(r2s, t));
      IstreamMeaning(env, n, s, f, h);
      DstreamMeaning(env, n, s, f, h);
      RstreamMeaning(env, n, s, f, h);
    }
  }

  lemma SourcePlanShows(env: Env, n: nat, tb: Tables, table: nat)
    ensures Shows(env, n, tb, SourcePlan(tb, 0, table), WholeTable(env, n, tb, table), tb.isStream(table))
  {
    SourceShows(env, n, tb, SourcePlan(tb, 0, table));
  }

  lemma TwoInputs(env: Env, n: nat, tb: Tables, t: Plan)
    requires |t.ins| == 2
    ensures Meaning(env, n, tb, t)
         == OpMeaning(env, n, t.op, [SchemaOf(tb, t.ins[0]), SchemaOf(tb, t.ins[1])], [IsStream(t.ins[0]), IsStream(t.ins[1])],
                      [Meaning(env, n, tb, t.ins[0]), Meaning(env, n, tb, t.ins[1])])
    ensures IsStream(t) == OpStream(t.op, [IsStream(t.ins[0]), IsStream(t.ins[1])])
  {
    hide OpMeaning;
    MeaningStep(env, n, tb, t);
    SchemaStep(tb, t);
    assert Schemas(tb, t.ins) == [SchemaOf(tb, t.ins[0]), SchemaOf(tb, t.ins[1])];
    assert Flags(t.ins) == [IsStream(t.ins[0]), IsStream(t.ins[1])];
    assert Meanings(env, n, tb, t.ins) == [Meaning(env, n, tb, t.ins[0]), Meaning(env, n, tb, t.ins[1])];
  }

  lemma UnionMeaning(env: Env, n: nat, s: Schema, r: Schema, f: bool, g: bool, a: Hist, b: Hist)
    requires |a| == |b| == n
    ensures OpMeaning(env, n, Union, [s, r], [f, g], [a, b]) == if f && g then PlusH(a, b) else PlusH(View(a, f), View(b, g))
  {
  }

  lemma ExceptMeaning(env: Env, n: nat, s: Schema, r: Schema, f: bool, g: bool, a: Hist, b: Hist)
    requires |a| == |b| == n
    ensures OpMeaning(env, n, Except, [s, r], [f, g], [a, b]) == MinusH(View(a, f), View(b, g))
  {
  }

  lemma SetShows(env: Env, n: nat, tb: Tables, t: Plan, a: Hist, b: Hist, f: bool, g: bool)
    requires (t.op.Union? || t.op.Except?) && |t.ins| == 2
    requires Shows(env, n, tb, t.ins[0], a, f) && Shows(env, n, tb, t.ins[1], b, g)
    ensures Shows(env, n, tb, t, if t.op.Union? then PlusH(a, b) else MinusH(a, b), t.op.Union? && f && g)
  {
    hide OpMeaning;
    var s, r, h, k := SchemaOf(tb, t.ins[0]), SchemaOf(tb, t.ins[1]), Meaning(env, n, tb, t.ins[0]), Meaning(env, n, tb, t.ins[1]);
    TwoInputs(env, n, tb, t);
    AllTwo(f, g);
    UnionMeaning(env, n, s, r, f, g, h, k);
    ExceptMeaning(env, n, s, r, f, g, h, k);
    if f && g {
      CumulatePlus(h, k);
    }
  }

  /** The naive plan of an accepted query computes what the query means. */
  lemma SfwMeans(env: Env, n: nat, tb: Tables, q: Query)
    requires WellFormed(tb, q) && Matches(env, tb)
    ensures Meaning(env, n, tb, SfwPlan(tb, q)) == QueryMeaning(env, n, tb, q)
  {
    assert Bound(q);
    hide Matches, Shows, SelectState, OnlyArrivals, UpToAggr, WellFormed, ProjectPlan;
    var t, u := ProjectPlan(q, UpToAggr(tb, q)), DistinctPlan(q, ProjectPlan(q, UpToAggr(tb, q)));
    SelectedShow(env, n, tb, q);
    if q.distinct {
      DistinctShows(env, n, tb, u, SelectState(env, n, tb, q), OnlyArrivals(tb, q));
    }
    ReportShows(env, n, tb, q.r2s, u, QueryState(env, n, tb, q), OnlyArrivals(tb, q));
  }

  lemma BinaryMeans(env: Env, n: nat, tb: Tables, q: Query)
    requires q.BinaryOp? && |q.refTables| == 2
    ensures Meaning(env, n, tb, BinaryPlan(tb, q)) == QueryMeaning(env, n, tb, q)
  {
    hide Shows;
    var left, right := SourcePlan(tb, 0, q.refTables[0]), SourcePlan(tb, 0, q.refTables[1]);
    var a, b := WholeTable(env, n, tb, q.refTables[0]), WholeTable(env, n, tb, q.refTables[1]);
    var t := Plan(0, if q.isUnion then Union else Except, [left, right]);
    SourcePlanShows(env, n, tb, q.refTables[0]);
    SourcePlanShows(env, n, tb, q.refTables[1]);
    SetShows(env, n, tb, t, a, b, tb.isStream(q.refTables[0]), tb.isStream(q.refTables[1]));
    ReportShows(env, n, tb, q.r2s, t, QueryState(env, n, tb, q), OnlyArrivals(tb, q));
  }
}
