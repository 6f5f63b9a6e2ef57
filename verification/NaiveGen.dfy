/** Building the naive plan of a query in the pool. */
module NaiveGen {
  import opened Common
  import opened LogicalPlan
  import opened LogicalTrees
  import opened LogicalOps
  import opened NaivePlan
  import opened Updates

  // ---------------------------------------------------------------- plans up to slots

  /** The plan without regard to the slots its operators are in. */
  ghost function Shape(t: Plan): Plan {
    Plan(0, t.op, seq(|t.ins|, k requires 0 <= k < |t.ins| => Shape(t.ins[k])))
  }

  lemma {:induction false} ShapeSchema(tb: Tables, t: Plan)
    ensures SchemaOf(tb, Shape(t)) == SchemaOf(tb, t) && IsStream(Shape(t)) == IsStream(t)
    ensures Sound(tb, Shape(t)) <==> Sound(tb, t)
  {
    var u := Shape(t);
    SchemaStep(tb, t);
    SchemaStep(tb, u);
    forall k | 0 <= k < |t.ins|
      ensures u.ins[k] == Shape(t.ins[k])
      ensures SchemaOf(tb, u.ins[k]) == SchemaOf(tb, t.ins[k]) && IsStream(u.ins[k]) == IsStream(t.ins[k])
      ensures Sound(tb, u.ins[k]) <==> Sound(tb, t.ins[k])
    {
      ShapeSchema(tb, t.ins[k]);
    }
    assert Schemas(tb, u.ins) == Schemas(tb, t.ins) && Flags(u.ins) == Flags(t.ins);
  }

  lemma ShapeOver(id: nat, op: Payload, t: Plan)
    ensures Shape(Plan(id, op, [t])) == Plan(0, op, [Shape(t)])
  {
    assert Shape(Plan(id, op, [t])).ins == [Shape(t)];
  }

  lemma ShapeTwo(id: nat, op: Payload, t: Plan, u: Plan)
    requires t.ins == [] && u.ins == []
    ensures Shape(Plan(id, op, [t, u])) == Plan(0, op, [Plan(0, t.op, []), Plan(0, u.op, [])])
  {
    assert Shape(t).ins == [] && Shape(u).ins == [];
    assert Shape(Plan(id, op, [t, u])).ins == [Shape(t), Shape(u)];
  }

  // ---------------------------------------------------------------- preconditions

  /** Registered tables have attributes, not more than there is room for. */
  ghost predicate TablesFit(tb: Tables) {
    forall table :: 0 < tb.width(table) <= MAX_ATTRS
  }

  ghost predicate Room(pool: Pool, n: nat)
    reads pool
  {
    pool.Valid() && pool.count + n <= MAX_OPERATOR
  }

  /** The operators of the plan are in slots from n on, and slots below are as before. */
  ghost predicate Newer(g: Nodes, g2: Nodes, n: nat, t: Plan) {
    && |g2| == |g| && n <= |g|
    && (forall i: nat {:trigger Has(t, i)} :: Has(t, i) ==> n <= i)
    && (forall i :: 0 <= i < n ==> g2[i] == g[i])
  }

  /** The plan is in the pool, waiting for a reader. */
  ghost predicate Ready(pool: Pool, op: nat, t: Plan)
    reads pool, pool.ops
  {
    pool.Holds(t) && op == t.id && t.id < pool.ops.Length && pool.ops[t.id].output == Null
  }

  // ---------------------------------------------------------------- FROM

  method GetSource(pool: Pool, varId: nat, tableId: nat) returns (op: nat, ghost t: Plan)
    requires Room(pool, 1) && TablesFit(pool.tables)
    modifies pool`count, pool.ops
    ensures Ready(pool, op, t) && pool.count == old(pool.count) + 1
    ensures t == Plan(op, SourcePlan(pool.tables, varId, tableId).op, [])
    ensures Newer(old(pool.ops[..]), pool.ops[..], old(pool.count), t)
  {
    var source;
    if pool.tables.isStream(tableId) {
      source := pool.MkSource(StreamSource(varId, tableId), varId, tableId, true);
    } else {
      source := pool.MkSource(RelnSource(varId, tableId), varId, tableId, false);
    }
    op := source.id;
    t := Plan(op, SourcePlan(pool.tables, varId, tableId).op, []);
  }

  /** A partition window with all its attributes. */
  method MakePartnWindow(pool: Pool, input: nat, refTables: seq<nat>, attrs: seq<SemAttr>, rows: nat, ghost s: Plan) returns (op: nat)
    requires Room(pool, 1) && Ready(pool, input, s) && IsStream(s) && |attrs| <= MAX_GROUP_ATTRS
    modifies pool`count, pool.ops
    ensures pool.count == old(pool.count) + 1 && op == old(pool.count)
    ensures Ready(pool, op, Plan(op, PartnWin(LogAttrs(refTables, attrs), rows), [s]))
    ensures forall i :: 0 <= i < old(pool.count) && i != input ==> pool.ops[i] == old(pool.ops[i])
  {
    assert NodeRight(pool.tables, pool.ops[..], s, Flag);
    var win := pool.MkUnary(PartnWin([], rows), input, s);
    op := win.id;
    ghost var g := pool.ops[..];
    for a := 0 to |attrs|
      invariant Ready(pool, op, Plan(op, PartnWin(LogAttrs(refTables, attrs)[..a], rows), [s]))
      invariant pool.count == old(pool.count) + 1
      invariant forall i :: 0 <= i < pool.ops.Length && i != op ==> pool.ops[i] == g[i]
    {
      ghost var t := Plan(op, PartnWin(LogAttrs(refTables, attrs)[..a], rows), [s]);
      var ok := pool.PartnWindowAddAttr(op, LogAttr(refTables, attrs[a]), t);
      assert LogAttrs(refTables, attrs)[..a + 1] == LogAttrs(refTables, attrs)[..a] + [LogAttr(refTables, attrs[a])];
    }
    assert LogAttrs(refTables, attrs)[..|attrs|] == LogAttrs(refTables, attrs);
  }

  /** The window of the query over a stream; an unbounded window is nothing at all. */
  method ApplyWindow(pool: Pool, win: Window, input: nat, refTables: seq<nat>, ghost s: Plan) returns (op: nat, ghost t: Plan)
    requires Room(pool, 1) && Ready(pool, input, s) && IsStream(s)
    requires win.PartitionSpec? ==> |win.attrs| <= MAX_GROUP_ATTRS
    modifies pool`count, pool.ops
    ensures Ready(pool, op, t) && old(pool.count) <= pool.count <= old(pool.count) + 1
    ensures win.Unbounded? ==> t == s
    ensures !win.Unbounded? ==> t == Plan(old(pool.count), WindowOp(refTables, win), [s])
    ensures forall i :: 0 <= i < old(pool.count) && i != input ==> pool.ops[i] == old(pool.ops[i])
  {
    assert NodeRight(pool.tables, pool.ops[..], s, Flag);
    var w: Ptr;
    match win {
      case RangeSpec(units) => w := pool.MkUnary(RangeWin(units), input, s);
      case RowSpec(rows) => w := pool.MkUnary(RowWin(rows), input, s);
      case PartitionSpec(attrs, rows) =>
        var p := MakePartnWindow(pool, input, refTables, attrs, rows, s);
        w := At(p);
      case NowSpec => w := pool.MkUnary(NowWin, input, s);
      case Unbounded =>
        return input, s;
    }
    op := w.id;
    t := Plan(op, WindowOp(refTables, win), [s]);
  }

  function WindowOp(refTables: seq<nat>, win: Window): Payload
    requires !win.Unbounded?
  {
    match win
    case RangeSpec(units) => RangeWin(units)
    case RowSpec(rows) => RowWin(rows)
    case PartitionSpec(attrs, rows) => PartnWin(LogAttrs(refTables, attrs), rows)
    case NowSpec => NowWin
  }

  /** The windows the interpretation lets through have room for their attributes. */
  predicate WindowsFit(q: Query)
    requires q.Sfw?
  {
    forall k :: 0 <= k < |q.windows| && q.windows[k].PartitionSpec? ==> |q.windows[k].attrs| <= MAX_GROUP_ATTRS
  }

  /** One table of the FROM clause, windowed if it is a stream. */
  method FromTable(pool: Pool, q: Query, k: nat) returns (op: nat, ghost t: Plan)
    requires Room(pool, 2) && TablesFit(pool.tables) && Bound(q) && WindowsFit(q) && k < |q.from|
    modifies pool`count, pool.ops
    ensures Ready(pool, op, t) && old(pool.count) <= pool.count <= old(pool.count) + 2
    ensures Shape(t) == TablePlan(pool.tables, q, k)
    ensures Newer(old(pool.ops[..]), pool.ops[..], old(pool.count), t)
  {
    var varId := q.from[k];
    var tableId := q.refTables[varId];
    op, t := GetSource(pool, varId, tableId);
    SchemaStep(pool.tables, t);
    if pool.tables.isStream(tableId) {
      ghost var s, n := t, old(pool.count);
      assert Has(s, s.id) && n <= s.id;
      op, t := ApplyWindow(pool, q.windows[k], op, q.refTables, s);
      if !q.windows[k].Unbounded? {
        ShapeOver(op, t.op, s);
      }
    }
  }

  /** Whether the joined tables fit into one operator. */
  predicate JoinFits(tb: Tables, q: Query)
    requires Bound(q)
  {
    |q.from| == 1 || (|FromSchema(tb, q)| <= MAX_ATTRS && |q.from| <= MAX_INPUT_OPS)
  }

  /** The state of the join after k tables. */
  ghost predicate Joining(pool: Pool, q: Query, cross: nat, c: Plan, k: nat, n: nat)
    requires Bound(q)
    reads pool, pool.ops
  {
    && Ready(pool, cross, c) && c.op.Cross? && |c.ins| == k <= |q.from| && k <= MAX_INPUT_OPS
    && (forall j :: 0 <= j < k ==> Shape(c.ins[j]) == TablePlan(pool.tables, q, j))
    && pool.count <= n + 1 + 2 * k && n <= c.id
  }

  lemma JoiningSchema(pool: Pool, q: Query, cross: nat, c: Plan, k: nat, n: nat)
    requires Bound(q) && Joining(pool, q, cross, c, k, n)
    ensures SchemaOf(pool.tables, c) == Flat(FromSchemas(pool.tables, q)[..k])
  {
    SchemaStep(pool.tables, c);
    forall j | 0 <= j < k
      ensures SchemaOf(pool.tables, c.ins[j]) == FromSchemas(pool.tables, q)[j]
    {
      ShapeSchema(pool.tables, c.ins[j]);
      TablePlanSchema(pool.tables, q, j);
    }
    assert Schemas(pool.tables, c.ins) == FromSchemas(pool.tables, q)[..k];
  }

  lemma TablePlanSchema(tb: Tables, q: Query, k: nat)
    requires Bound(q) && k < |q.from|
    ensures SchemaOf(tb, TablePlan(tb, q, k)) == TableSchema(tb, q.from[k], q.refTables[q.from[k]])
  {
    var t := TablePlan(tb, q, k);
    SchemaStep(tb, t);
    if t.ins != [] {
      SchemaStep(tb, t.ins[0]);
      assert Schemas(tb, t.ins)[0] == TableSchema(tb, q.from[k], q.refTables[q.from[k]]);
    }
  }

  /** One more table for the join. */
  method JoinTable(pool: Pool, q: Query, cross: nat, ghost c: Plan, k: nat, ghost n: nat) returns (ok: bool, ghost c2: Plan)
    requires Bound(q) && WindowsFit(q) && TablesFit(pool.tables) && k < |q.from| && Joining(pool, q, cross, c, k, n)
    requires n + 23 <= MAX_OPERATOR
    modifies pool`count, pool.ops
    ensures pool.Valid()
    ensures ok <==> |Flat(FromSchemas(pool.tables, q)[..k])| + |FromSchemas(pool.tables, q)[k]| <= MAX_ATTRS && k < MAX_INPUT_OPS
    ensures ok ==> Joining(pool, q, cross, c2, k + 1, n)
  {
    ghost var g, m := pool.ops[..], pool.count;
    JoiningSchema(pool, q, cross, c, k, n);
    assert Has(c, c.id);
    var op, t := FromTable(pool, q, k);
    KeptStands(pool.tables, g, pool.ops[..], m, pool.count, c);
    ShapeSchema(pool.tables, t);
    TablePlanSchema(pool.tables, q, k);
    ok := pool.CrossAddInput(cross, op, c, t);
    c2 := Plan(cross, Cross, c.ins + [t]);
  }

  /** Joins the tables of the FROM clause; a single table needs no join. */
  method JoinTables(pool: Pool, q: Query) returns (rc: int, op: nat, ghost t: Plan)
    requires Room(pool, 23) && TablesFit(pool.tables) && Bound(q) && WindowsFit(q)
    modifies pool`count, pool.ops
    ensures pool.Valid() && (rc == 0 <==> JoinFits(pool.tables, q))
    ensures rc == 0 ==> Ready(pool, op, t) && Shape(t) == JoinPlan(pool.tables, q) && pool.count <= old(pool.count) + 21
  {
    if |q.from| <= 1 {
      op, t := FromTable(pool, q, 0);
      return 0, op, t;
    }
    ghost var n := pool.count;
    var cross := pool.MkCross();
    op := cross.id;
    t := Plan(op, Cross, []);
    ghost var schemas := FromSchemas(pool.tables, q);
    var k: nat := 0;
    while k < |q.from|
      invariant Joining(pool, q, op, t, k, n)
      invariant |Flat(schemas[..k])| <= MAX_ATTRS
    {
      var ok;
      FlatRoom(schemas, k);
      ok, t := JoinTable(pool, q, op, t, k, n);
      if !ok {
        return -1, op, t;
      }
      k := k + 1;
    }
    assert schemas[..k] == schemas;
    assert Shape(t).ins == TablePlans(pool.tables, q);
    rc := 0;
  }

  // ---------------------------------------------------------------- WHERE, GROUP BY, SELECT

  /** One select operator per predicate. */
  method ApplyPreds(pool: Pool, q: Query, input: nat, ghost t: Plan) returns (rc: int, op: nat, ghost u: Plan)
    requires q.Sfw? && Ready(pool, input, t) && Room(pool, |q.preds|)
    modifies pool`count, pool.ops
    ensures rc == 0 && Ready(pool, op, u) && pool.count == old(pool.count) + |q.preds|
    ensures Shape(u) == SelectPlan(q.refTables, q.preds, Shape(t))
  {
    op, u := input, t;
    var p: nat := 0;
    assert q.preds[..0] == [];
    while p < |q.preds|
      invariant p <= |q.preds| && Ready(pool, op, u) && pool.count == old(pool.count) + p
      invariant Shape(u) == SelectPlan(q.refTables, q.preds[..p], Shape(t))
    {
      var kind := Select(LogPred(q.refTables, q.preds[p]));
      var select := pool.MkUnary(kind, op, u);
      if select == Null {
        return -1, op, u;
      }
      ShapeOver(select.id, kind, u);
      assert q.preds[..p + 1][..p] == q.preds[..p];
      op, u := select.id, Plan(select.id, kind, [u]);
      p := p + 1;
    }
    assert q.preds[..p] == q.preds;
    rc := 0;
  }

  /** Adds the aggregations of an expression that the list does not have yet, as far as there is room. */
  method CollectAggrs(refTables: seq<nat>, e: SemExpr, aggrs: seq<(AggrFn, Attr)>) returns (ok: bool, r: seq<(AggrFn, Attr)>)
    requires |aggrs| <= MAX_AGGR_ATTRS
    ensures ok <==> |Collected(refTables, e, aggrs)| <= MAX_AGGR_ATTRS
    ensures ok ==> r == Collected(refTables, e, aggrs)
  {
    ok, r := true, aggrs;
    match e {
      case ConstVal(_) =>
      case Attribute(_) =>
      case AggrOf(fn, a) =>
        var attr := LogAttr(refTables, a);
        var isNew := true;
        for i := 0 to |aggrs|
          invariant isNew <==> (fn, attr) !in aggrs[..i]
        {
          if aggrs[i].1 == attr && aggrs[i].0 == fn {
            isNew := false;
          }
        }
        assert aggrs[..|aggrs|] == aggrs;
        if isNew {
          if |aggrs| == MAX_AGGR_ATTRS {
            return false, aggrs;
          }
          r := aggrs + [(fn, attr)];
        }
      case Compute(_, left, right) =>
        ok, r := CollectAggrs(refTables, left, aggrs);
        if !ok {
          return;
        }
        ok, r := CollectAggrs(refTables, right, r);
    }
  }

  /** Whether the query's aggregations fit into one operator. */
  predicate AggrsFit(q: Query)
    requires q.Sfw?
  {
    |CollectedAll(q.refTables, q.projs)| <= MAX_AGGR_ATTRS
  }

  method CollectAll(q: Query) returns (ok: bool, aggrs: seq<(AggrFn, Attr)>)
    requires q.Sfw?
    ensures ok <==> AggrsFit(q)
    ensures ok ==> aggrs == CollectedAll(q.refTables, q.projs)
  {
    ok, aggrs := true, [];
    for e := 0 to |q.projs|
      invariant ok && aggrs == CollectedAll(q.refTables, q.projs[..e]) && |aggrs| <= MAX_AGGR_ATTRS
    {
      assert q.projs[..e + 1][..e] == q.projs[..e];
      CollectedMonotone(q.refTables, q.projs, e + 1);
      ok, aggrs := CollectAggrs(q.refTables, q.projs[e], aggrs);
      if !ok {
        return;
      }
    }
    assert q.projs[..|q.projs|] == q.projs;
  }

  lemma {:induction false} CollectedMonotone(refTables: seq<nat>, projs: seq<SemExpr>, k: nat)
    requires k <= |projs|
    ensures |CollectedAll(refTables, projs[..k])| <= |CollectedAll(refTables, projs)|
  {
    if k < |projs| {
      CollectedMonotone(refTables, projs[..|projs| - 1], k);
      assert projs[..|projs| - 1][..k] == projs[..k];
    } else {
      assert projs[..k] == projs;
    }
  }

  /** The grouping attributes of an aggregation operator. */
  method AddGroups(pool: Pool, q: Query, op: nat, ghost t: Plan)
    requires q.Sfw? && Ready(pool, op, Plan(op, GroupAggr([], []), [t])) && |q.groups| <= MAX_GROUP_ATTRS
    modifies pool.ops
    ensures Ready(pool, op, Plan(op, GroupAggr(LogAttrs(q.refTables, q.groups), []), [t]))
  {
    ghost var groups := LogAttrs(q.refTables, q.groups);
    for a := 0 to |q.groups|
      invariant Ready(pool, op, Plan(op, GroupAggr(groups[..a], []), [t]))
    {
      var ok := pool.AddGroupAttr(op, LogAttr(q.refTables, q.groups[a]), Plan(op, GroupAggr(groups[..a], []), [t]));
      assert groups[..a + 1] == groups[..a] + [groups[a]];
    }
    assert groups[..|q.groups|] == groups;
  }

  /** The aggregations of an aggregation operator. */
  method AddAggrs(pool: Pool, op: nat, groups: seq<Attr>, aggrs: seq<(AggrFn, Attr)>, ghost t: Plan)
    requires Ready(pool, op, Plan(op, GroupAggr(groups, []), [t])) && |aggrs| <= MAX_AGGR_ATTRS
    requires |groups| + |aggrs| <= MAX_ATTRS
    modifies pool.ops
    ensures Ready(pool, op, Plan(op, GroupAggr(groups, aggrs), [t]))
  {
    hide Linked, Right;
    for a := 0 to |aggrs|
      invariant Ready(pool, op, Plan(op, GroupAggr(groups, aggrs[..a]), [t]))
    {
      var ok := pool.AddAggr(op, aggrs[a].0, aggrs[a].1, Plan(op, GroupAggr(groups, aggrs[..a]), [t]));
      assert aggrs[..a + 1] == aggrs[..a] + [aggrs[a]];
    }
    assert aggrs[..|aggrs|] == aggrs;
  }

  /** The columns of the aggregation operator fit into its record; nothing checks this. */
  predicate GroupsFit(q: Query)
    requires q.Sfw?
  {
    |q.groups| <= MAX_GROUP_ATTRS && (AggrsFit(q) ==> |q.groups| + |CollectedAll(q.refTables, q.projs)| <= MAX_ATTRS)
  }

  /** An aggregation operator, if the query groups or aggregates. */
  method ApplyAggr(pool: Pool, q: Query, input: nat, ghost t: Plan) returns (rc: int, op: nat, ghost u: Plan)
    requires q.Sfw? && Ready(pool, input, t) && Room(pool, 1) && GroupsFit(q)
    modifies pool`count, pool.ops
    ensures pool.Valid() && (rc == 0 <==> AggrsFit(q))
    ensures rc == 0 ==> Ready(pool, op, u) && pool.count <= old(pool.count) + 1 && Shape(u) == AggrPlan(q, Shape(t))
  {
    op, u := input, t;
    var ok, aggrs := CollectAll(q);
    if !ok {
      return -1, op, u;
    }
    if |aggrs| == 0 && |q.groups| == 0 {
      return 0, op, u;
    }
    var aggr := pool.MkBare(GroupAggr([], []), input, t);
    if aggr == Null {
      return -1, op, u;
    }
    op := aggr.id;
    AddGroups(pool, q, op, t);
    AddAggrs(pool, op, LogAttrs(q.refTables, q.groups), aggrs, t);
    u := Plan(op, GroupAggr(LogAttrs(q.refTables, q.groups), aggrs), [t]);
    ShapeOver(op, u.op, t);
    rc := 0;
  }

  /** The projections of the SELECT clause. */
  method DoProjs(pool: Pool, q: Query, input: nat, ghost t: Plan) returns (rc: int, op: nat, ghost u: Plan)
    requires q.Sfw? && Ready(pool, input, t) && Room(pool, 1) && |q.projs| <= MAX_ATTRS
    modifies pool`count, pool.ops
    ensures rc == 0 && Ready(pool, op, u) && pool.count == old(pool.count) + 1 && Shape(u) == ProjectPlan(q, Shape(t))
  {
    ghost var projs := LogExprs(q.refTables, q.projs);
    var project := pool.MkBare(Project([]), input, t);
    if project == Null {
      return -1, input, t;
    }
    op := project.id;
    for e := 0 to |q.projs|
      invariant Ready(pool, op, Plan(op, Project(projs[..e]), [t])) && pool.count == old(pool.count) + 1
    {
      var ok := pool.AddProjectExpr(op, LogExpr(q.refTables, q.projs[e]), Plan(op, Project(projs[..e]), [t]));
      assert projs[..e + 1] == projs[..e] + [projs[e]];
    }
    assert projs[..|q.projs|] == projs;
    u := Plan(op, Project(projs), [t]);
    ShapeOver(op, u.op, t);
    rc := 0;
  }

  method ApplyDistinct(pool: Pool, q: Query, input: nat, ghost t: Plan) returns (rc: int, op: nat, ghost u: Plan)
    requires q.Sfw? && Ready(pool, input, t) && Room(pool, 1)
    modifies pool`count, pool.ops
    ensures rc == 0 && Ready(pool, op, u) && pool.count <= old(pool.count) + 1 && Shape(u) == DistinctPlan(q, Shape(t))
  {
    op, u := input, t;
    if q.distinct {
      var distinct := pool.MkUnary(Distinct, input, t);
      if distinct == Null {
        return -1, input, t;
      }
      op, u := distinct.id, Plan(distinct.id, Distinct, [t]);
      ShapeOver(op, Distinct, t);
    }
    rc := 0;
  }

  /** The relation-to-stream operator of the query. */
  method ApplyR2S(pool: Pool, r2s: R2S, input: nat, ghost t: Plan) returns (rc: int, op: nat, ghost u: Plan)
    requires Ready(pool, input, t) && Room(pool, 1)
    modifies pool`count, pool.ops
    ensures rc == 0 && Ready(pool, op, u) && pool.count <= old(pool.count) + 1 && Shape(u) == R2SPlan(r2s, Shape(t))
  {
    op, u := input, t;
    var kind;
    match r2s {
      case NoR2S => return 0, op, u;
      case ToIstream => kind := Istream;
      case ToDstream => kind := Dstream;
      case ToRstream => kind := Rstream;
    }
    var r := pool.MkUnary(kind, input, t);
    if r == Null {
      return -1, op, u;
    }
    op, u := r.id, Plan(r.id, kind, [t]);
    ShapeOver(op, kind, t);
    rc := 0;
  }

  // ---------------------------------------------------------------- the whole plan

  /** The limits the interpretation of the query enforces, and those nothing enforces. */
  ghost predicate WithinLimits(tb: Tables, q: Query) {
    && TablesFit(tb)
    && (q.Sfw? ==>
         && Bound(q) && WindowsFit(q) && GroupsFit(q)
         && |q.preds| <= MAX_PRED && |q.projs| <= MAX_ATTRS)
    && (q.BinaryOp? ==> |q.refTables| == 2)
  }

  /** The joined tables and the aggregations fit. */
  predicate Buildable(tb: Tables, q: Query)
    requires q.Sfw? ==> Bound(q)
  {
    q.Sfw? ==> JoinFits(tb, q) && AggrsFit(q)
  }

  function QueryPlan(tb: Tables, q: Query): Plan
    requires if q.Sfw? then Bound(q) else |q.refTables| == 2
  {
    if q.Sfw? then SfwPlan(tb, q) else BinaryPlan(tb, q)
  }

  method GenSfwPlan(pool: Pool, q: Query) returns (rc: int, op: nat, ghost t: Plan)
    requires q.Sfw? && WithinLimits(pool.tables, q) && Room(pool, 40)
    modifies pool`count, pool.ops
    ensures pool.Valid() && (rc == 0 <==> Buildable(pool.tables, q))
    ensures rc == 0 ==> Ready(pool, op, t) && Shape(t) == SfwPlan(pool.tables, q) && pool.count <= old(pool.count) + 35
  {
    rc, op, t := JoinTables(pool, q);
    if rc != 0 {
      return;
    }
    rc, op, t := ApplyPreds(pool, q, op, t);
    if rc != 0 {
      return;
    }
    rc, op, t := ApplyAggr(pool, q, op, t);
    if rc != 0 {
      return;
    }
    rc, op, t := DoProjs(pool, q, op, t);
    if rc != 0 {
      return;
    }
    rc, op, t := ApplyDistinct(pool, q, op, t);
    if rc != 0 {
      return;
    }
    rc, op, t := ApplyR2S(pool, q.r2s, op, t);
  }

  method GenBinOpPlan(pool: Pool, q: Query) returns (rc: int, op: nat, ghost t: Plan)
    requires q.BinaryOp? && WithinLimits(pool.tables, q) && Room(pool, 4)
    modifies pool`count, pool.ops
    ensures rc == 0 && Ready(pool, op, t) && Shape(t) == BinaryPlan(pool.tables, q) && pool.count <= old(pool.count) + 4
  {
    var left, a := GetSource(pool, 0, q.refTables[0]);
    ghost var g, n := pool.ops[..], pool.count;
    assert Has(a, a.id);
    var right, b := GetSource(pool, 0, q.refTables[1]);
    KeptStands(pool.tables, g, pool.ops[..], n, pool.count, a);
    var kind := if q.isUnion then Union else Except;
    var bin := pool.MkBinary(kind, left, right, a, b);
    t := Plan(bin.id, kind, [a, b]);
    ShapeTwo(bin.id, kind, a, b);
    rc, op, t := ApplyR2S(pool, q.r2s, bin.id, t);
  }

  /** The naive plan of a query. */
  method GenPlan(pool: Pool, q: Query) returns (rc: int, op: nat, ghost t: Plan)
    requires WithinLimits(pool.tables, q) && Room(pool, 40)
    modifies pool`count, pool.ops
    ensures pool.Valid() && (rc == 0 <==> Buildable(pool.tables, q))
    ensures rc == 0 ==> Ready(pool, op, t) && Shape(t) == QueryPlan(pool.tables, q) && pool.count <= old(pool.count) + 35
  {
    if q.Sfw? {
      rc, op, t := GenSfwPlan(pool, q);
    } else {
      rc, op, t := GenBinOpPlan(pool, q);
    }
  }
}
