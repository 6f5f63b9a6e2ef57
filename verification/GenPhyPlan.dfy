/** The methods that translate a logical plan: expressions, records of operators, and the recursion. */
module GenPhyPlan {
  import opened Common
  import L = LogicalPlan
  import P = PhysicalPlan
  import opened LogicalTrees
  import opened LogicalOps
  import opened Manager
  import opened Extend
  import opened Build
  import opened MergePasses
  import opened Translate
  import opened PlanColumns
  import opened Stacks
  import opened Compile
  import opened Readers
  import opened Semantics

  // ---------------------------------------------------------------- expressions

  /** The one input of a logical operator, and what is stored about it. */
  lemma OneChild(pool: Pool, op: nat, t: L.Plan)
    requires pool.Holds(t) && t.id == op && |t.ins| == 1
    ensures op < pool.ops.Length && pool.ops[op].op == t.op && |pool.ops[op].inputs| == 1
    ensures pool.ops[op].inputs[0] == t.ins[0].id < pool.ops.Length
    ensures pool.ops[t.ins[0].id].attrs == L.SchemaOf(pool.tables, t.ins[0])
    ensures pool.ops[t.ins[0].id].bStream == L.IsStream(t.ins[0])
  {
    StandsInput(pool.tables, pool.ops[..], pool.count, t, 0);
    assert Has(t, t.id);
    assert NodeRight(pool.tables, pool.ops[..], t.ins[0], Attrs) && NodeRight(pool.tables, pool.ops[..], t.ins[0], Flag);
  }

  /** The position of the first attribute with the name, among the inputs of a logical operator. */
  method TransformAttr(pool: Pool, attr: L.Attr, op: nat, ghost t: L.Plan) returns (p: P.Attr)
    requires pool.Holds(t) && t.id == op && |t.ins| == 1
    requires L.Find(L.SchemaOf(pool.tables, t.ins[0]), attr) < |L.SchemaOf(pool.tables, t.ins[0])|
    ensures p == TransAttr(L.SchemaOf(pool.tables, t.ins[0]), attr)
  {
    OneChild(pool, op, t);
    p := P.Attr(0, 0);
    for i := 0 to |pool.ops[op].inputs|
      invariant i == 0
    {
      var child := pool.ops[op].inputs[i];
      for a := 0 to |pool.ops[child].attrs|
        invariant forall j :: 0 <= j < a ==> !L.Same(attr, pool.ops[child].attrs[j])
      {
        if L.Same(attr, pool.ops[child].attrs[a]) {
          return P.Attr(i, a);
        }
      }
      assert false;
    }
  }

  method TransformExpr(pool: Pool, e: L.LExpr, op: nat, ghost t: L.Plan) returns (p: P.PExpr)
    requires pool.Holds(t) && t.id == op && |t.ins| == 1
    requires L.Resolves(e, L.SchemaOf(pool.tables, t.ins[0]))
    ensures p == TransExpr(L.SchemaOf(pool.tables, t.ins[0]), e)
  {
    match e {
      case Const(v) => p := Const(v);
      case AttrRef(a) =>
        var attr := TransformAttr(pool, a, op, t);
        p := AttrRef(attr);
      case Comp(o, l, r) =>
        var left := TransformExpr(pool, l, op, t);
        var right := TransformExpr(pool, r, op, t);
        p := Comp(o, left, right);
    }
  }

  method TransformBExpr(pool: Pool, b: L.LBExpr, op: nat, ghost t: L.Plan) returns (p: P.PBExpr)
    requires pool.Holds(t) && t.id == op && |t.ins| == 1
    requires L.PredResolves(b, L.SchemaOf(pool.tables, t.ins[0]))
    ensures p == TransPred(L.SchemaOf(pool.tables, t.ins[0]), b)
  {
    var left := TransformExpr(pool, b.left, op, t);
    var right := TransformExpr(pool, b.right, op, t);
    p := BExpr(b.op, left, right);
  }

  method TransformExprs(pool: Pool, es: seq<L.LExpr>, op: nat, ghost t: L.Plan) returns (ps: seq<P.PExpr>)
    requires pool.Holds(t) && t.id == op && |t.ins| == 1
    requires forall k :: 0 <= k < |es| ==> L.Resolves(es[k], L.SchemaOf(pool.tables, t.ins[0]))
    ensures ps == TransExprs(L.SchemaOf(pool.tables, t.ins[0]), es)
  {
    ps := [];
    for k := 0 to |es|
      invariant ps == TransExprs(L.SchemaOf(pool.tables, t.ins[0]), es)[..k]
    {
      var p := TransformExpr(pool, es[k], op, t);
      ps := ps + [p];
    }
  }

  method TransformAttrs(pool: Pool, attrs: seq<L.Attr>, op: nat, ghost t: L.Plan) returns (ps: seq<P.Attr>)
    requires pool.Holds(t) && t.id == op && |t.ins| == 1
    requires var s := L.SchemaOf(pool.tables, t.ins[0]); forall k :: 0 <= k < |attrs| ==> L.Find(s, attrs[k]) < |s|
    ensures ps == TransAttrs(L.SchemaOf(pool.tables, t.ins[0]), attrs)
  {
    ps := [];
    for k := 0 to |attrs|
      invariant ps == TransAttrs(L.SchemaOf(pool.tables, t.ins[0]), attrs)[..k]
    {
      var p := TransformAttr(pool, attrs[k], op, t);
      ps := ps + [p];
    }
  }

  method TransformAggrs(pool: Pool, aggrs: seq<(AggrFn, L.Attr)>, op: nat, ghost t: L.Plan) returns (ps: seq<(AggrFn, P.Attr)>)
    requires pool.Holds(t) && t.id == op && |t.ins| == 1
    requires var s := L.SchemaOf(pool.tables, t.ins[0]);
      forall k :: 0 <= k < |aggrs| && aggrs[k].0 != COUNT ==> L.Find(s, aggrs[k].1) < |s|
    ensures ps == TransAggrs(L.SchemaOf(pool.tables, t.ins[0]), aggrs)
  {
    ps := [];
    for k := 0 to |aggrs|
      invariant ps == TransAggrs(L.SchemaOf(pool.tables, t.ins[0]), aggrs)[..k]
    {
      var p := P.Attr(0, 0);
      if aggrs[k].0 != COUNT {
        p := TransformAttr(pool, aggrs[k].1, op, t);
      }
      ps := ps + [(aggrs[k].0, p)];
    }
  }

  // ---------------------------------------------------------------- columns

  /** The columns of a project; a string column keeps the length it has in the input. */
  method ProjectColumns(tb: L.Tables, es: seq<L.LExpr>, ps: seq<P.PExpr>, cols: seq<P.Column>, ghost s: L.Schema) returns (r: seq<P.Column>)
    requires ps == TransExprs(s, es)
    ensures r == OpColumns(tb, L.Project(es), [s], [cols])
  {
    r := [];
    for k := 0 to |es|
      invariant |r| == k && forall j :: 0 <= j < k ==> r[j] == Projected(tb, es[j], s, cols)
    {
      var typ := L.ExprType(tb, es[k]);
      var len := 0;
      match typ {
        case INT => len := INT_SIZE;
        case FLOAT => len := FLOAT_SIZE;
        case BYTE => len := BYTE_SIZE;
        case CHAR =>
          if ps[k].AttrRef? {
            len := ColumnAt(cols, ps[k].attr.pos).len;
          }
      }
      r := r + [P.Column(typ, len)];
    }
  }

  /** The columns of an aggregation: the grouping columns, then one per aggregation. */
  method GroupColumns(tb: L.Tables, groups: seq<P.Attr>, aggrs: seq<(AggrFn, P.Attr)>, cols: seq<P.Column>,
                      ghost s: L.Schema, ghost gs: seq<L.Attr>, ghost ags: seq<(AggrFn, L.Attr)>) returns (r: seq<P.Column>)
    requires groups == TransAttrs(s, gs) && aggrs == TransAggrs(s, ags)
    ensures r == OpColumns(tb, L.GroupAggr(gs, ags), [s], [cols])
  {
    r := [];
    for k := 0 to |groups|
      invariant |r| == k && forall j :: 0 <= j < k ==> r[j] == Named(s, cols, gs[j])
    {
      r := r + [ColumnAt(cols, groups[k].pos)];
    }
    ghost var front := r;
    for k := 0 to |aggrs|
      invariant |r| == |groups| + k && r[..|groups|] == front
      invariant forall j :: 0 <= j < k ==> r[|groups| + j] == Aggregated(ags[j], s, cols)
    {
      var typ := L.OutputType(aggrs[k].0, ColumnAt(cols, aggrs[k].1.pos).typ);
      var len := 0;
      match typ {
        case INT => len := INT_SIZE;
        case FLOAT => len := FLOAT_SIZE;
        case BYTE => len := BYTE_SIZE;
        case CHAR =>
      }
      r := r + [P.Column(typ, len)];
    }
    assert r[|groups|..] == seq(|ags|, k requires 0 <= k < |ags| => Aggregated(ags[k], s, cols));
    assert front == seq(|gs|, k requires 0 <= k < |gs| => Named(s, cols, gs[k]));
  }

  /** The columns of a union or difference; a string column has the longer of the two lengths. */
  method UnionColumns(a: seq<P.Column>, b: seq<P.Column>) returns (r: seq<P.Column>)
    requires |a| == |b|
    ensures r == Both(a, b)
  {
    r := [];
    for k := 0 to |a|
      invariant |r| == k && forall j :: 0 <= j < k ==> r[j] == Both(a, b)[j]
    {
      var len := a[k].len;
      if a[k].typ.CHAR? && b[k].len > a[k].len {
        len := b[k].len;
      }
      r := r + [P.Column(a[k].typ, len)];
    }
  }

  // ---------------------------------------------------------------- the record of an operator

  /** The kind-specific part and the columns of a unary operator over columns cols. */
  method UnaryRecord(pool: Pool, op: nat, cols: seq<P.Column>, ghost t: L.Plan) returns (p: P.Payload, attrs: seq<P.Column>)
    requires pool.Holds(t) && t.id == op && |t.ins| == 1 && L.ArityFits(t.op, 1) && L.Sound(pool.tables, t)
    requires |cols| == |L.SchemaOf(pool.tables, t.ins[0])|
    ensures p == TransOp(t.op, [L.SchemaOf(pool.tables, t.ins[0])])
    ensures |attrs| == |L.SchemaOf(pool.tables, t)| && P.SchemaRule(p, [cols], attrs)
    ensures attrs == OpColumns(pool.tables, t.op, [L.SchemaOf(pool.tables, t.ins[0])], [cols])
  {
    OneChild(pool, op, t);
    L.SchemaStep(pool.tables, t);
    assert L.Schemas(pool.tables, t.ins) == [L.SchemaOf(pool.tables, t.ins[0])];
    attrs := cols;
    match pool.ops[op].op {
      case RowWin(rows) => p := P.RowWin(rows);
      case RangeWin(units) => p := P.RangeWin(units);
      case NowWin => p := P.RangeWin(1);
      case PartnWin(partn, rows) =>
        var ps := TransformAttrs(pool, partn, op, t);
        p := P.PartnWin(ps, rows);
      case Select(pred) =>
        var b := TransformBExpr(pool, pred, op, t);
        p := P.Select([b]);
      case Project(projs) =>
        var ps := TransformExprs(pool, projs, op, t);
        p := P.Project(ps);
        attrs := ProjectColumns(pool.tables, projs, ps, cols, L.SchemaOf(pool.tables, t.ins[0]));
      case GroupAggr(groups, aggrs) =>
        var gs := TransformAttrs(pool, groups, op, t);
        var ags := TransformAggrs(pool, aggrs, op, t);
        p := P.GroupAggr(gs, ags);
        attrs := GroupColumns(pool.tables, gs, ags, cols, L.SchemaOf(pool.tables, t.ins[0]), groups, aggrs);
      case Distinct => p := P.Distinct;
      case Istream => p := P.Istream;
      case Dstream => p := P.Dstream;
      case Rstream => p := P.Rstream;
    }
  }

  /** The stream flag of a unary operator. */
  function UnaryStream(p: P.Payload, child: bool): bool {
    match p
    case RowWin(_) => false
    case RangeWin(_) => false
    case PartnWin(_, _) => false
    case GroupAggr(_, _) => false
    case Istream => true
    case Dstream => true
    case Rstream => true
    case _ => child
  }

  // ---------------------------------------------------------------- states of the translation

  /** The physical plan is in order, consumers are listed before producers, sources are known, and free operators have no class. */
  ghost predicate Based(pm: PlanManager, tb: L.Tables, src: seq<Source>)
    reads pm, pm.ops, pm.next, pm.prev
  {
    && pm.Valid() && SourcesIn(src, pm.live)
    && SourcesOk(tb, src, pm.ops[..], pm.live) && BaseFits(tb, pm.ops[..], pm.live)
    && Ordered(pm.ops[..], pm.used)
    && forall i :: i in pm.free ==> i < pm.ops.Length && pm.ops[i].queryClass == 0
  }

  /** The plan has only grown since g0: everything that was there does the same, with the same class. */
  ghost predicate Onto(pm: PlanManager, g0: P.Graph, live0: set<nat>)
    reads pm, pm.ops
    requires (forall i :: i in live0 ==> i < |g0|) && (forall i :: i in pm.live ==> i < pm.ops.Length)
  {
    && Extends(g0, live0, pm.ops[..], pm.live)
    && (forall i :: i in live0 ==> pm.ops[i].queryClass == g0[i].queryClass)
    && (forall i :: i in pm.live && i !in live0 ==> pm.ops[i].queryClass == 0 && NewKind(pm.ops[i].payload))
  }

  /** The result of a translation: a source that was there, or an operator nobody reads yet. */
  ghost predicate Result(pm: PlanManager, live0: set<nat>, op: nat)
    reads pm, pm.ops
    requires op < pm.ops.Length
  {
    (op in live0 ==> SourceKind(pm.ops[op].payload)) && (op !in live0 ==> pm.ops[op].outputs == [])
  }

  ghost predicate NewKind(p: P.Payload) {
    !p.StreamSource? && !p.RelnSource? && !p.SsGen?
  }

  lemma NotRead(g: P.Graph, live: set<nat>, rank: seq<nat>, op: nat)
    requires P.Wf(g, live, rank) && op !in live
    ensures forall i :: i in live ==> op !in g[i].inputs
  {
  }

  /** What adding an operator keeps. */
  lemma BuiltBased(pm: PlanManager, tb: L.Tables, src: seq<Source>, g: P.Graph, used: seq<nat>, live: set<nat>, rank: seq<nat>,
                   free: seq<nat>, op: nat, p: P.Payload, attrs: seq<P.Column>, bStream: bool, ins: seq<nat>)
    requires P.Wf(g, live, rank) && Built(pm, g, used, live, rank, free, op, p, attrs, bStream, ins) && pm.Valid()
    requires SourcesIn(src, live) && SourcesOk(tb, src, g, live) && BaseFits(tb, g, live) && NewKind(p)
    requires forall i :: i in free ==> i < |g| && g[i].queryClass == 0
    requires forall i :: i in free ==> i !in live
    requires Ordered(g, used) && Lists(used, live)
    ensures Based(pm, tb, src) && pm.ops[op].queryClass == 0 && pm.ops[op].outputs == []
  {
    hide P.EdgesAgree, P.AllTyped, IsList;
    assert op == free[0] && free[0] in free;
    NotRead(g, live, rank, op);
    AddedOrdered(g, pm.ops[..], live, used, op, ins);
    forall i | i in free[1..]
      ensures i in free
    {
    }
  }

  lemma FreeNotLive(pm: PlanManager)
    requires pm.PoolValid()
    ensures forall i :: i in pm.free ==> i !in pm.live && i < pm.ops.Length
  {
  }

  /** Growing goes on. */
  lemma OntoBuilt(pm: PlanManager, g0: P.Graph, live0: set<nat>, g: P.Graph, used: seq<nat>, live: set<nat>, rank: seq<nat>,
                  free: seq<nat>, op: nat, p: P.Payload, attrs: seq<P.Column>, bStream: bool, ins: seq<nat>)
    requires P.Wf(g, live, rank) && Built(pm, g, used, live, rank, free, op, p, attrs, bStream, ins) && pm.Valid()
    requires (forall i :: i in live0 ==> i < |g0|) && Extends(g0, live0, g, live) && pm.ops[op].queryClass == 0
    requires forall i :: i in live0 ==> g[i].queryClass == g0[i].queryClass
    requires forall i :: i in live && i !in live0 ==> g[i].queryClass == 0 && NewKind(g[i].payload)
    requires NewKind(p)
    ensures Onto(pm, g0, live0) && op !in live0
  {
    AddedWf(g, pm.ops[..], live, rank, op, ins);
    ExtendsTrans(g0, live0, g, live, pm.ops[..], pm.live);
  }

  lemma UnaryFits(g: P.Graph, op: L.Payload, schemas: seq<L.Schema>, attrs: seq<P.Column>, bStream: bool, child: nat)
    requires child < |g| && L.ArityFits(op, 1) && |schemas| == 1
    requires P.SchemaRule(TransOp(op, schemas), [g[child].attrs], attrs)
    requires bStream == UnaryStream(TransOp(op, schemas), g[child].bStream)
    ensures Fits(g, TransOp(op, schemas), attrs, bStream, [child]) && NewKind(TransOp(op, schemas))
    ensures bStream == L.OpStream(op, [g[child].bStream])
  {
    assert seq(1, k requires 0 <= k < 1 => g[[child][k]].attrs) == [g[child].attrs];
    assert seq(1, k requires 0 <= k < 1 => g[[child][k]].bStream) == [g[child].bStream];
    UnaryRefs(op, schemas);
  }

  lemma UnaryRefs(op: L.Payload, schemas: seq<L.Schema>)
    requires L.ArityFits(op, 1) && |schemas| == 1
    ensures P.RefsRule(TransOp(op, schemas))
  {
    if op.Select? {
      TransRefers(schemas[0], op.pred.left);
      TransRefers(schemas[0], op.pred.right);
    } else if op.Project? {
      forall k | 0 <= k < |op.projs|
        ensures P.RefersTo(TransExpr(schemas[0], op.projs[k]), 0)
      {
        TransRefers(schemas[0], op.projs[k]);
      }
    }
  }

  lemma OneStream(tb: L.Tables, t: L.Plan)
    requires |t.ins| == 1
    ensures L.IsStream(t) == L.OpStream(t.op, [L.IsStream(t.ins[0])])
  {
    L.SchemaStep(tb, t);
    assert L.Flags(t.ins) == [L.IsStream(t.ins[0])];
  }

  /** A new unary operator for the root of t. */
  method MkOne(pool: Pool, node: nat, pm: PlanManager, src: seq<Source>, child: nat, ghost t: L.Plan,
               ghost g0: P.Graph, ghost live0: set<nat>) returns (rc: int, op: nat)
    requires pool.Holds(t) && t.id == node && |t.ins| == 1 && L.ArityFits(t.op, 1) && L.Sound(pool.tables, t)
    requires Based(pm, pool.tables, src) && |pm.free| >= 2
    requires (forall i :: i in live0 ==> i < |g0|) && Onto(pm, g0, live0)
    requires Compiled(pool.tables, src, pm.ops[..], pm.live, pm.rank, child, t.ins[0])
    modifies pm, pm.next, pm.prev, pm.ops
    ensures rc == 0 ==> Based(pm, pool.tables, src) && Onto(pm, g0, live0) && |pm.free| == |old(pm.free)| - 1
    ensures rc == 0 ==> Compiled(pool.tables, src, pm.ops[..], pm.live, pm.rank, op, t) && op !in live0 && pm.ops[op].outputs == []
    ensures rc == 0 <==> |old(pm.ops[..])[child].outputs| < MAX_OUT_BRANCHING
    ensures rc == 0 ==> MoreReaders(old(pm.ops[..]), pm.ops[..], old(pm.live), [child])
  {
    hide IsList, P.EdgesAgree, P.AllTyped, Ordered, Columns, OpColumns, Partition, SourcesOk, BaseFits;
    ghost var g, used, live, rank, free := pm.ops[..], pm.used, pm.live, pm.rank, pm.free;
    BeforeNow(pm, pool.tables, src, g0, live0);
    var p, attrs := UnaryRecord(pool, node, pm.ops[child].attrs, t);
    var bStream := UnaryStream(p, pm.ops[child].bStream);
    UnaryFits(g, t.op, [L.SchemaOf(pool.tables, t.ins[0])], attrs, bStream, child);
    OneStream(pool.tables, t);
    OneColumns(pool.tables, t);
    rc, op := MkUnary(pm, p, attrs, bStream, child);
    if rc == 0 {
      OneDone(pm, pool.tables, src, g0, live0, g, used, live, rank, free, op, p, attrs, bStream, child, t);
    }
  }

  /** What was so before an operator was added. */
  ghost predicate Before(tb: L.Tables, src: seq<Source>, g0: P.Graph, live0: set<nat>, g: P.Graph, live: set<nat>, rank: seq<nat>, free: seq<nat>) {
    && P.Wf(g, live, rank) && SourcesIn(src, live) && SourcesOk(tb, src, g, live) && BaseFits(tb, g, live)
    && (forall i :: i in free ==> i < |g| && g[i].queryClass == 0 && i !in live)
    && (forall i :: i in live0 ==> i < |g0|) && Extends(g0, live0, g, live)
    && (forall i :: i in live0 ==> g[i].queryClass == g0[i].queryClass)
    && (forall i :: i in live && i !in live0 ==> g[i].queryClass == 0 && NewKind(g[i].payload))
  }

  lemma OneDone(pm: PlanManager, tb: L.Tables, src: seq<Source>, g0: P.Graph, live0: set<nat>,
                g: P.Graph, used: seq<nat>, live: set<nat>, rank: seq<nat>, free: seq<nat>,
                op: nat, p: P.Payload, attrs: seq<P.Column>, bStream: bool, child: nat, t: L.Plan)
    requires Before(tb, src, g0, live0, g, live, rank, free) && pm.Valid() && Ordered(g, used) && Lists(used, live)
    requires Built(pm, g, used, live, rank, free, op, p, attrs, bStream, [child]) && NewKind(p)
    requires L.Sound(tb, t) && |t.ins| == 1 && L.ArityFits(t.op, 1) && Compiled(tb, src, g, live, rank, child, t.ins[0])
    requires p == TransOp(t.op, [L.SchemaOf(tb, t.ins[0])]) && |attrs| == |L.SchemaOf(tb, t)| && bStream == L.IsStream(t)
    requires attrs == Columns(tb, t)
    ensures Based(pm, tb, src) && Onto(pm, g0, live0)
    ensures Compiled(tb, src, pm.ops[..], pm.live, pm.rank, op, t) && op !in live0 && pm.ops[op].outputs == []
  {
    BuiltBased(pm, tb, src, g, used, live, rank, free, op, p, attrs, bStream, [child]);
    OntoBuilt(pm, g0, live0, g, used, live, rank, free, op, p, attrs, bStream, [child]);
    CompiledUnary(tb, src, g, live, rank, pm.ops[..], op, child, t);
  }

  lemma TwoDone(pm: PlanManager, tb: L.Tables, src: seq<Source>, g0: P.Graph, live0: set<nat>,
                g: P.Graph, used: seq<nat>, live: set<nat>, rank: seq<nat>, free: seq<nat>,
                op: nat, p: P.Payload, attrs: seq<P.Column>, bStream: bool, left: nat, right: nat, t: L.Plan)
    requires Before(tb, src, g0, live0, g, live, rank, free) && pm.Valid() && Ordered(g, used) && Lists(used, live)
    requires Built(pm, g, used, live, rank, free, op, p, attrs, bStream, [left, right]) && NewKind(p)
    requires |t.ins| == 2 && L.ArityFits(t.op, 2)
    requires Compiled(tb, src, g, live, rank, left, t.ins[0]) && Compiled(tb, src, g, live, rank, right, t.ins[1])
    requires p == TransOp(t.op, [L.SchemaOf(tb, t.ins[0]), L.SchemaOf(tb, t.ins[1])])
    requires |attrs| == |L.SchemaOf(tb, t)| && attrs == Columns(tb, t) && bStream == L.IsStream(t)
    ensures Based(pm, tb, src) && Onto(pm, g0, live0)
    ensures Compiled(tb, src, pm.ops[..], pm.live, pm.rank, op, t) && op !in live0 && pm.ops[op].outputs == []
  {
    BuiltBased(pm, tb, src, g, used, live, rank, free, op, p, attrs, bStream, [left, right]);
    OntoBuilt(pm, g0, live0, g, used, live, rank, free, op, p, attrs, bStream, [left, right]);
    CompiledBinary(tb, src, g, live, rank, pm.ops[..], op, left, right, t);
  }

  lemma BeforeNow(pm: PlanManager, tb: L.Tables, src: seq<Source>, g0: P.Graph, live0: set<nat>)
    requires Based(pm, tb, src) && (forall i :: i in live0 ==> i < |g0|) && Onto(pm, g0, live0)
    ensures Before(tb, src, g0, live0, pm.ops[..], pm.live, pm.rank, pm.free)
  {
    FreeNotLive(pm);
  }

  // ---------------------------------------------------------------- selects

  /**
   A select over a select that was made for this plan becomes part of it; otherwise it gets an
   operator of its own.
   */
  method MkSelect(pool: Pool, node: nat, pm: PlanManager, src: seq<Source>, child: nat, ghost t: L.Plan,
                  ghost g0: P.Graph, ghost live0: set<nat>) returns (rc: int, op: nat)
    requires pool.Holds(t) && t.id == node && |t.ins| == 1 && t.op.Select? && L.Sound(pool.tables, t)
    requires Based(pm, pool.tables, src) && |pm.free| >= 2
    requires (forall i :: i in live0 ==> i < |g0|) && Onto(pm, g0, live0)
    requires Compiled(pool.tables, src, pm.ops[..], pm.live, pm.rank, child, t.ins[0]) && Result(pm, live0, child)
    modifies pm, pm.next, pm.prev, pm.ops
    ensures rc == 0 ==> Based(pm, pool.tables, src) && Onto(pm, g0, live0) && |pm.free| >= |old(pm.free)| - 1
    ensures rc == 0 ==> Compiled(pool.tables, src, pm.ops[..], pm.live, pm.rank, op, t) && op !in live0 && pm.ops[op].outputs == []
    ensures rc == 0 <==> old(pm.ops[..])[child].payload.Select? || |old(pm.ops[..])[child].outputs| < MAX_OUT_BRANCHING
    ensures rc == 0 ==>
      MoreReaders(old(pm.ops[..]), pm.ops[..], old(pm.live), if old(pm.ops[..])[child].payload.Select? then [] else [child])
  {
    hide IsList, P.EdgesAgree, P.AllTyped, Ordered;
    if !pm.ops[child].payload.Select? {
      rc, op := MkOne(pool, node, pm, src, child, t, g0, live0);
      return;
    }
    OneChild(pool, node, t);
    var b := TransformBExpr(pool, pool.ops[node].op.pred, node, t);
    FuseInto(pm, pool.tables, src, child, b, t, g0, live0);
    rc, op := 0, child;
  }

  /** Puts a conjunct in front of the predicate of a select. */
  method FuseInto(pm: PlanManager, ghost tb: L.Tables, ghost src: seq<Source>, child: nat, b: P.PBExpr, ghost t: L.Plan,
                  ghost g0: P.Graph, ghost live0: set<nat>)
    requires |t.ins| == 1 && t.op.Select? && L.Sound(tb, t) && b == TransPred(L.SchemaOf(tb, t.ins[0]), t.op.pred)
    requires Based(pm, tb, src) && (forall i :: i in live0 ==> i < |g0|) && Onto(pm, g0, live0)
    requires Compiled(tb, src, pm.ops[..], pm.live, pm.rank, child, t.ins[0]) && Result(pm, live0, child)
    requires pm.ops[child].payload.Select?
    modifies pm.ops
    ensures Based(pm, tb, src) && Onto(pm, g0, live0)
    ensures Compiled(tb, src, pm.ops[..], pm.live, pm.rank, child, t) && child !in live0 && pm.ops[child].outputs == []
    ensures MoreReaders(old(pm.ops[..]), pm.ops[..], pm.live, [])
  {
    hide IsList, P.EdgesAgree, P.AllTyped;
    ghost var g := pm.ops[..];
    BeforeNow(pm, tb, src, g0, live0);
    NobodyReads(g, pm.live, pm.rank, child);
    pm.ops[child] := pm.ops[child].(payload := P.Select([b] + pm.ops[child].payload.pred));
    FuseDone(pm, tb, src, g0, live0, g, child, b, t);
  }

  lemma FuseDone(pm: PlanManager, tb: L.Tables, src: seq<Source>, g0: P.Graph, live0: set<nat>, g: P.Graph, child: nat, b: P.PBExpr, t: L.Plan)
    requires Before(tb, src, g0, live0, g, pm.live, pm.rank, pm.free) && P.IsPlan(g, pm.live, pm.rank) && pm.PoolValid()
    requires Ordered(g, pm.used)
    requires Repredicated(g, pm.ops[..], pm.live, child) && child !in live0 && g[child].outputs == []
    requires pm.ops[child].payload == P.Select([b] + g[child].payload.pred)
    requires |t.ins| == 1 && t.op.Select? && L.Sound(tb, t) && b == TransPred(L.SchemaOf(tb, t.ins[0]), t.op.pred)
    requires Compiled(tb, src, g, pm.live, pm.rank, child, t.ins[0])
    ensures Based(pm, tb, src) && Onto(pm, g0, live0)
    ensures Compiled(tb, src, pm.ops[..], pm.live, pm.rank, child, t)
  {
    hide IsList, Partition, P.EdgesAgree;
    TransRefers(L.SchemaOf(tb, t.ins[0]), t.op.pred.left);
    TransRefers(L.SchemaOf(tb, t.ins[0]), t.op.pred.right);
    RepredicatedPlan(g, pm.ops[..], pm.live, pm.rank, child, b);
    CompiledFused(tb, src, g, pm.live, pm.rank, pm.ops[..], child, t);
  }

  lemma NobodyReads(g: P.Graph, live: set<nat>, rank: seq<nat>, op: nat)
    requires P.Wf(g, live, rank) && P.EdgesAgree(g, live) && op in live && g[op].outputs == []
    ensures forall i :: i in live ==> op !in g[i].inputs
  {
    forall i | i in live
      ensures op !in g[i].inputs
    {
      OccIn(g[i].inputs, op);
      assert Occ(g[i].inputs, op) == Occ(g[op].outputs, i);
    }
  }

  // ---------------------------------------------------------------- binary operators

  /** The schema and flag of a binary logical operator. */
  lemma TwoShape(tb: L.Tables, t: L.Plan)
    requires |t.ins| == 2 && L.ArityFits(t.op, 2)
    ensures L.IsStream(t) == BinaryStream(t.op, L.IsStream(t.ins[0]), L.IsStream(t.ins[1]))
    ensures |L.SchemaOf(tb, t)| ==
      |L.SchemaOf(tb, t.ins[0])| + if t.op.Cross? || t.op.StreamCross? then |L.SchemaOf(tb, t.ins[1])| else 0
    ensures (t.op.Union? || t.op.Except?) && L.Sound(tb, t) ==> |L.SchemaOf(tb, t.ins[0])| == |L.SchemaOf(tb, t.ins[1])|
  {
    var s, r := L.SchemaOf(tb, t.ins[0]), L.SchemaOf(tb, t.ins[1]);
    L.SchemaStep(tb, t);
    assert L.Schemas(tb, t.ins) == [s, r] && L.Flags(t.ins) == [L.IsStream(t.ins[0]), L.IsStream(t.ins[1])];
    L.AllTwo(L.IsStream(t.ins[0]), L.IsStream(t.ins[1]));
    assert [s, r][..1] == [s] && [s][..0] == [];
    assert L.Flat([s]) == [] + s && L.Flat([s, r]) == L.Flat([s]) + r;
  }

  lemma FlatTwo(a: seq<P.Column>, b: seq<P.Column>)
    ensures L.Flat([a, b]) == a + b
  {
    assert [a, b][..1] == [a] && [a][..0] == [];
    assert L.Flat([a]) == [] + a && L.Flat([a, b]) == L.Flat([a]) + b;
  }

  lemma OneColumns(tb: L.Tables, t: L.Plan)
    requires |t.ins| == 1
    ensures Columns(tb, t) == OpColumns(tb, t.op, [L.SchemaOf(tb, t.ins[0])], [Columns(tb, t.ins[0])])
  {
    ColumnsStep(tb, t);
    assert L.Schemas(tb, t.ins) == [L.SchemaOf(tb, t.ins[0])] && InputColumns(tb, t.ins) == [Columns(tb, t.ins[0])];
  }

  lemma TwoColumns(tb: L.Tables, t: L.Plan)
    requires |t.ins| == 2
    ensures Columns(tb, t)
         == OpColumns(tb, t.op, [L.SchemaOf(tb, t.ins[0]), L.SchemaOf(tb, t.ins[1])], [Columns(tb, t.ins[0]), Columns(tb, t.ins[1])])
  {
    ColumnsStep(tb, t);
    assert L.Schemas(tb, t.ins) == [L.SchemaOf(tb, t.ins[0]), L.SchemaOf(tb, t.ins[1])];
    assert InputColumns(tb, t.ins) == [Columns(tb, t.ins[0]), Columns(tb, t.ins[1])];
  }

  /** The stream flag of a binary operator. */
  function BinaryStream(op: L.Payload, left: bool, right: bool): bool {
    if op.StreamCross? then true
    else if op.Except? then false
    else left && right
  }

  /** The kind-specific part and the columns of a binary operator over columns a and b. */
  method BinaryRecord(op: L.Payload, a: seq<P.Column>, b: seq<P.Column>, ghost tb: L.Tables, ghost t: L.Plan)
    returns (p: P.Payload, attrs: seq<P.Column>)
    requires t.op == op && |t.ins| == 2 && L.ArityFits(op, 2) && L.Sound(tb, t)
    requires |a| == |L.SchemaOf(tb, t.ins[0])| && |b| == |L.SchemaOf(tb, t.ins[1])|
    ensures p == TransOp(op, [L.SchemaOf(tb, t.ins[0]), L.SchemaOf(tb, t.ins[1])])
    ensures |attrs| == |L.SchemaOf(tb, t)| && P.SchemaRule(p, [a, b], attrs)
    ensures attrs == OpColumns(tb, op, [L.SchemaOf(tb, t.ins[0]), L.SchemaOf(tb, t.ins[1])], [a, b])
  {
    TwoShape(tb, t);
    FlatTwo(a, b);
    match op {
      case Cross => p, attrs := P.Join(|a|, |b|, []), a + b;
      case StreamCross => p, attrs := P.StrJoin(|a|, |b|, []), a + b;
      case Union =>
        attrs := UnionColumns(a, b);
        p := P.Union;
      case Except =>
        attrs := UnionColumns(a, b);
        p := P.Except;
    }
  }

  lemma BinaryFits(g: P.Graph, op: L.Payload, schemas: seq<L.Schema>, attrs: seq<P.Column>, left: nat, right: nat)
    requires left < |g| && right < |g| && L.ArityFits(op, 2) && |schemas| == 2
    requires P.SchemaRule(TransOp(op, schemas), [g[left].attrs, g[right].attrs], attrs)
    ensures Fits(g, TransOp(op, schemas), attrs, BinaryStream(op, g[left].bStream, g[right].bStream), [left, right])
    ensures NewKind(TransOp(op, schemas))
  {
    assert seq(2, k requires 0 <= k < 2 => g[[left, right][k]].attrs) == [g[left].attrs, g[right].attrs];
    assert seq(2, k requires 0 <= k < 2 => g[[left, right][k]].bStream) == [g[left].bStream, g[right].bStream];
  }

  /** A new binary operator for the root of t. */
  method MkTwo(kind: L.Payload, pm: PlanManager, ghost tb: L.Tables, src: seq<Source>, left: nat, right: nat, ghost t: L.Plan,
               ghost g0: P.Graph, ghost live0: set<nat>) returns (rc: int, op: nat)
    requires t.op == kind && |t.ins| == 2 && L.ArityFits(t.op, 2) && L.Sound(tb, t)
    requires Based(pm, tb, src) && |pm.free| >= 2
    requires (forall i :: i in live0 ==> i < |g0|) && Onto(pm, g0, live0)
    requires Compiled(tb, src, pm.ops[..], pm.live, pm.rank, left, t.ins[0])
    requires Compiled(tb, src, pm.ops[..], pm.live, pm.rank, right, t.ins[1])
    modifies pm, pm.next, pm.prev, pm.ops
    ensures rc == 0 ==> Based(pm, tb, src) && Onto(pm, g0, live0) && |pm.free| == |old(pm.free)| - 1
    ensures rc == 0 ==> Compiled(tb, src, pm.ops[..], pm.live, pm.rank, op, t) && op !in live0 && pm.ops[op].outputs == []
    ensures rc == 0 <==>
      && |old(pm.ops[..])[left].outputs| < MAX_OUT_BRANCHING
      && |old(pm.ops[..])[right].outputs| + (if left == right then 1 else 0) < MAX_OUT_BRANCHING
    ensures rc == 0 ==> MoreReaders(old(pm.ops[..]), pm.ops[..], old(pm.live), [left, right])
  {
    hide IsList, P.EdgesAgree, P.AllTyped, Ordered, Partition, SourcesOk, BaseFits, Columns, OpColumns, Both;
    ghost var g, used, live, rank, free := pm.ops[..], pm.used, pm.live, pm.rank, pm.free;
    BeforeNow(pm, tb, src, g0, live0);
    var p, attrs := BinaryRecord(kind, pm.ops[left].attrs, pm.ops[right].attrs, tb, t);
    var bStream := BinaryStream(kind, pm.ops[left].bStream, pm.ops[right].bStream);
    BinaryFits(g, kind, [L.SchemaOf(tb, t.ins[0]), L.SchemaOf(tb, t.ins[1])], attrs, left, right);
    TwoShape(tb, t);
    TwoColumns(tb, t);
    rc, op := MkBinary(pm, p, attrs, bStream, left, right);
    if rc == 0 {
      TwoDone(pm, tb, src, g0, live0, g, used, live, rank, free, op, p, attrs, bStream, left, right, t);
    }
  }

  // ---------------------------------------------------------------- sources

  /** The operator registered first for a table. */
  method FindSource(src: seq<Source>, table: nat) returns (op: nat, ghost k: nat)
    requires Registered(src, table)
    ensures k == FirstOf(src, table) < |src| && op == src[k].op
  {
    op, k := 0, 0;
    assert src[0..] == src;
    for i := 0 to |src|
      invariant FirstOf(src, table) == i + FirstOf(src[i..], table)
    {
      if src[i].table == table {
        return src[i].op, i;
      }
      assert src[i..][1..] == src[i + 1..];
    }
    assert false;
  }

  lemma SourceCompiled(tb: L.Tables, src: seq<Source>, g: P.Graph, live: set<nat>, rank: seq<nat>, k: nat, t: L.Plan)
    requires P.Wf(g, live, rank) && SourcesIn(src, live) && SourcesOk(tb, src, g, live) && k < |src|
    requires SourceOp(t.op) && t.ins == [] && Provided(tb, src, t)
    requires src[k].table == if t.op.StreamSource? then t.op.strId else t.op.relId
    ensures Compiled(tb, src, g, live, rank, src[k].op, t)
  {
    L.SchemaStep(tb, t);
    ColumnsStep(tb, t);
    forall env: Env, n: nat | Agrees(env, n, tb, src, g, live, rank)
      ensures P.Meaning(env, n, g, live, rank, src[k].op) == L.Meaning(env, n, tb, t)
    {
      L.MeaningStep(env, n, tb, t);
    }
  }

  // ---------------------------------------------------------------- the recursion

  /** How many operators a plan has. */
  ghost function Size(t: L.Plan): nat {
    1 + SizeAll(t.ins)
  }

  ghost function SizeAll(ts: seq<L.Plan>): nat {
    if ts == [] then 0 else SizeAll(ts[..|ts| - 1]) + Size(ts[|ts| - 1])
  }

  lemma {:induction false} SizeOfInputs(ts: seq<L.Plan>, k: nat)
    requires k < |ts|
    ensures SizeAll(ts[..k + 1]) == SizeAll(ts[..k]) + Size(ts[k])
    ensures SizeAll(ts[..k + 1]) <= SizeAll(ts)
  {
    assert ts[..k + 1][..k] == ts[..k];
    if k + 1 < |ts| {
      SizeOfInputs(ts[..|ts| - 1], k);
      assert ts[..|ts| - 1][..k + 1] == ts[..k + 1] && ts[..|ts| - 1][..k] == ts[..k];
    } else {
      assert ts[..k + 1] == ts;
    }
  }

  /** The inputs translated so far. */
  ghost predicate KidsDone(pm: PlanManager, tb: L.Tables, src: seq<Source>, g0: P.Graph, live0: set<nat>, t: L.Plan, kids: seq<nat>)
    reads pm, pm.ops, pm.next, pm.prev
  {
    && Based(pm, tb, src) && (forall i :: i in live0 ==> i < |g0|) && |g0| == pm.ops.Length && Onto(pm, g0, live0)
    && |kids| <= |t.ins|
    && SourcesIn(src, live0) && KidsPlaced(src, g0, live0, pm.ops[..], t.ins, kids)
    && (forall k :: 0 <= k < |kids| ==> Compiled(tb, src, pm.ops[..], pm.live, pm.rank, kids[k], t.ins[k]))
  }

  /** Growing twice is growing. */
  lemma OntoTrans(pm: PlanManager, g0: P.Graph, live0: set<nat>, g1: P.Graph, live1: set<nat>)
    requires (forall i :: i in live0 ==> i < |g0|) && (forall i :: i in live1 ==> i < |g1|)
    requires forall i :: i in pm.live ==> i < pm.ops.Length
    requires Extends(g0, live0, g1, live1) && Onto(pm, g1, live1)
    requires forall i :: i in live0 ==> g1[i].queryClass == g0[i].queryClass
    requires forall i :: i in live1 && i !in live0 ==> g1[i].queryClass == 0 && NewKind(g1[i].payload)
    ensures Onto(pm, g0, live0)
  {
    ExtendsTrans(g0, live0, g1, live1, pm.ops[..], pm.live);
  }

  lemma KidsMore(pm: PlanManager, tb: L.Tables, src: seq<Source>, g0: P.Graph, live0: set<nat>, t: L.Plan, kids: seq<nat>,
                 g1: P.Graph, live1: set<nat>, rank1: seq<nat>, op: nat)
    requires Before(tb, src, g0, live0, g1, live1, rank1, []) && |kids| < |t.ins| && |g0| == |g1| == pm.ops.Length
    requires forall k :: 0 <= k < |kids| ==> Compiled(tb, src, g1, live1, rank1, kids[k], t.ins[k])
    requires SourcesIn(src, live0) && KidsPlaced(src, g0, live0, g1, t.ins, kids)
    requires Translated(pm, tb, src, g1, live1, op, t.ins[|kids|])
    ensures KidsDone(pm, tb, src, g0, live0, t, kids + [op])
  {
    hide KidsPlaced, Gained, Placed;
    OntoTrans(pm, g0, live0, g1, live1);
    KidsPlacedMore(src, g0, live0, g1, live1, pm.ops[..], t.ins, kids, op);
    forall k | 0 <= k < |kids|
      ensures Compiled(tb, src, pm.ops[..], pm.live, pm.rank, kids[k], t.ins[k])
    {
      CompiledExtends(tb, src, g1, live1, rank1, pm.ops[..], pm.live, pm.rank, kids[k], t.ins[k]);
    }
  }

  /** The input of a select is a source that was there, or an operator nobody reads yet. */
  lemma PlacedResult(pm: PlanManager, tb: L.Tables, src: seq<Source>, live0: set<nat>, op: nat, t: L.Plan)
    requires (forall i :: i in pm.live ==> i < pm.ops.Length) && SourcesOk(tb, src, pm.ops[..], pm.live)
    requires Placed(src, live0, pm.ops[..], op, t)
    ensures op < pm.ops.Length && Result(pm, live0, op)
    ensures op in live0 ==> !pm.ops[op].payload.Select?
  {
  }

  /** Once the root is linked to its inputs, the readers are those the plan gives. */
  lemma RootDone(src: seq<Source>, g0: P.Graph, live0: set<nat>, g: P.Graph, live: set<nat>, g2: P.Graph, live2: set<nat>,
                 t: L.Plan, kids: seq<nat>, ins: seq<nat>)
    requires (forall i :: i in live0 ==> i < |g0|) && (forall i :: i in live ==> i < |g|) && |g2| == |g| == |g0|
    requires (forall i :: i in live2 ==> i < |g2|) && live0 <= live && live0 <= live2 && P.FanOutFits(g2, live2)
    requires KidsPlaced(src, g0, live0, g, t.ins, kids) && |kids| == |t.ins|
    requires MoreReaders(g, g2, live, ins) && (ins == kids || (ins == [] && |kids| == 1 && kids[0] !in live0))
    ensures Gained(src, g0, live0, g2, t) && Room(src, g0, live0, t)
  {
    forall i | i in live0
      ensures |g2[i].outputs| == |g[i].outputs| + Occ(kids, i)
    {
      if ins == [] && |kids| == 1 {
        assert kids == [kids[0]];
        OccOne(kids[0], i);
      }
    }
    RootGained(src, g0, live0, g, g2, t, kids);
    GainedRoom(src, g0, live0, g2, live2, t);
  }

  /** An operator without room for the root shows that the plan does not fit. */
  lemma RootFails(src: seq<Source>, g0: P.Graph, live0: set<nat>, g: P.Graph, t: L.Plan, kids: seq<nat>, k: nat)
    requires (forall i :: i in live0 ==> i < |g0|) && |g| == |g0| && 1 <= |t.ins| <= 2
    requires KidsPlaced(src, g0, live0, g, t.ins, kids) && |kids| == |t.ins| && k < |kids| && kids[k] < |g|
    requires |g[kids[k]].outputs| + (if k > 0 && kids[0] == kids[k] then 1 else 0) >= MAX_OUT_BRANCHING
    ensures !Room(src, g0, live0, t)
  {
    if |kids| == 2 {
      assert kids == [kids[0], kids[1]];
      OccTwo(kids[0], kids[1], kids[k]);
    } else {
      assert kids == [kids[0]];
      OccOne(kids[0], kids[k]);
    }
    if Room(src, g0, live0, t) {
      RootRoom(src, g0, live0, g, t, kids, k);
    }
  }

  /** The operator for the root of t, over the operators for its inputs. */
  method MkRoot(pool: Pool, node: nat, pm: PlanManager, src: seq<Source>, kids: seq<nat>, ghost t: L.Plan,
                ghost g0: P.Graph, ghost live0: set<nat>) returns (rc: int, op: nat)
    requires pool.Holds(t) && t.id == node && L.Sound(pool.tables, t) && Provided(pool.tables, src, t)
    requires KidsDone(pm, pool.tables, src, g0, live0, t, kids) && |kids| == |t.ins| && |pm.free| >= 2
    modifies pm, pm.next, pm.prev, pm.ops
    ensures rc == 0 <==> (t.op.Cross? || t.op.StreamCross? ==> |t.ins| == 2) && Room(src, g0, live0, t)
    ensures rc == 0 ==> |pm.free| >= |old(pm.free)| - 1 && Translated(pm, pool.tables, src, g0, live0, op, t)
  {
    hide IsList, P.EdgesAgree, P.AllTyped, Ordered;
    assert Has(t, t.id);
    var kind := pool.ops[node].op;
    if kind.StreamSource? || kind.RelnSource? {
      rc, op := RootSource(pm, pool.tables, src, kind, kids, t, g0, live0);
    } else if kind.Cross? || kind.StreamCross? || kind.Union? || kind.Except? {
      if |kids| != 2 {
        return -1, 0;
      }
      rc, op := RootTwo(pm, pool.tables, src, kind, kids, t, g0, live0);
    } else {
      rc, op := RootOne(pool, node, pm, src, kids, t, g0, live0);
    }
  }

  /** A table is where it was registered. */
  method RootSource(pm: PlanManager, ghost tb: L.Tables, src: seq<Source>, kind: L.Payload, ghost kids: seq<nat>, ghost t: L.Plan,
                    ghost g0: P.Graph, ghost live0: set<nat>) returns (rc: int, op: nat)
    requires kind == t.op && SourceOp(kind) && L.Sound(tb, t) && Provided(tb, src, t)
    requires KidsDone(pm, tb, src, g0, live0, t, kids) && |kids| == |t.ins|
    ensures rc == 0 && Room(src, g0, live0, t) && Translated(pm, tb, src, g0, live0, op, t)
  {
    hide IsList, P.EdgesAgree, P.AllTyped, Ordered, Partition, Lists, BaseFits, Compiled;
    ghost var k;
    op, k := FindSource(src, if kind.StreamSource? then kind.strId else kind.relId);
    SourceCompiled(tb, src, pm.ops[..], pm.live, pm.rank, k, t);
    RootDone(src, g0, live0, pm.ops[..], pm.live, pm.ops[..], pm.live, t, kids, []);
    rc := 0;
  }

  method RootTwo(pm: PlanManager, ghost tb: L.Tables, src: seq<Source>, kind: L.Payload, kids: seq<nat>, ghost t: L.Plan,
                 ghost g0: P.Graph, ghost live0: set<nat>) returns (rc: int, op: nat)
    requires kind == t.op && L.ArityFits(kind, 2) && L.Sound(tb, t) && |kids| == |t.ins| == 2
    requires KidsDone(pm, tb, src, g0, live0, t, kids) && |pm.free| >= 2
    modifies pm, pm.next, pm.prev, pm.ops
    ensures rc == 0 <==> Room(src, g0, live0, t)
    ensures rc == 0 ==> |pm.free| >= |old(pm.free)| - 1 && Translated(pm, tb, src, g0, live0, op, t)
  {
    hide IsList, P.EdgesAgree, P.AllTyped, Ordered, Partition, Lists, SourcesOk, BaseFits, Columns;
    ghost var g, live := pm.ops[..], pm.live;
    rc, op := MkTwo(kind, pm, tb, src, kids[0], kids[1], t, g0, live0);
    if rc == 0 {
      RootDone(src, g0, live0, g, live, pm.ops[..], pm.live, t, kids, [kids[0], kids[1]]);
    } else {
      RootFails(src, g0, live0, g, t, kids, if |g[kids[0]].outputs| >= MAX_OUT_BRANCHING then 0 else 1);
    }
  }

  method RootOne(pool: Pool, node: nat, pm: PlanManager, src: seq<Source>, kids: seq<nat>, ghost t: L.Plan,
                 ghost g0: P.Graph, ghost live0: set<nat>) returns (rc: int, op: nat)
    requires pool.Holds(t) && t.id == node && L.Sound(pool.tables, t) && L.ArityFits(t.op, 1) && |kids| == |t.ins| == 1
    requires KidsDone(pm, pool.tables, src, g0, live0, t, kids) && |pm.free| >= 2
    modifies pm, pm.next, pm.prev, pm.ops
    ensures rc == 0 <==> Room(src, g0, live0, t)
    ensures rc == 0 ==> |pm.free| >= |old(pm.free)| - 1 && Translated(pm, pool.tables, src, g0, live0, op, t)
  {
    hide IsList, P.EdgesAgree, P.AllTyped, Ordered, Partition, Lists, BaseFits, Gained, Columns;
    assert Has(t, t.id);
    ghost var g, live := pm.ops[..], pm.live;
    PlacedResult(pm, pool.tables, src, live0, kids[0], t.ins[0]);
    ghost var fused := t.op.Select? && g[kids[0]].payload.Select?;
    if pool.ops[node].op.Select? {
      rc, op := MkSelect(pool, node, pm, src, kids[0], t, g0, live0);
    } else {
      rc, op := MkOne(pool, node, pm, src, kids[0], t, g0, live0);
    }
    if rc == 0 {
      RootDone(src, g0, live0, g, live, pm.ops[..], pm.live, t, kids, if fused then [] else [kids[0]]);
    } else {
      RootFails(src, g0, live0, g, t, kids, 0);
    }
  }

  /** A logical plan in the pool whose references resolve and whose tables are registered. */
  ghost predicate Translatable(pool: Pool, src: seq<Source>, t: L.Plan)
    reads pool, pool.ops
  {
    pool.Holds(t) && L.Sound(pool.tables, t) && Provided(pool.tables, src, t)
  }

  /** So can its inputs; and how they are found. */
  lemma TranslatableInputs(pool: Pool, src: seq<Source>, t: L.Plan)
    requires Translatable(pool, src, t)
    ensures t.id < pool.ops.Length && |pool.ops[t.id].inputs| == |t.ins|
    ensures forall k :: 0 <= k < |t.ins| ==> Translatable(pool, src, t.ins[k]) && pool.ops[t.id].inputs[k] == t.ins[k].id
  {
    assert Has(t, t.id);
    forall k | 0 <= k < |t.ins|
      ensures Translatable(pool, src, t.ins[k]) && pool.ops[t.id].inputs[k] == t.ins[k].id
    {
      StandsInput(pool.tables, pool.ops[..], pool.count, t, k);
    }
  }

  /** What a successful translation leaves. */
  ghost predicate Translated(pm: PlanManager, tb: L.Tables, src: seq<Source>, g0: P.Graph, live0: set<nat>, op: nat, t: L.Plan)
    reads pm, pm.ops, pm.next, pm.prev
  {
    && Based(pm, tb, src) && (forall i :: i in live0 ==> i < |g0|) && |g0| == pm.ops.Length && Onto(pm, g0, live0)
    && Compiled(tb, src, pm.ops[..], pm.live, pm.rank, op, t)
    && Gained(src, g0, live0, pm.ops[..], t) && Placed(src, live0, pm.ops[..], op, t)
  }

  /**
   Translates a logical plan: each operator, after its inputs.  The physical plan grows on top; what
   was there keeps doing the same.  It succeeds exactly if all products are binary and the sources have
   room for the readers the plan gives them.
   */
  method GenPhysicalPlan(pool: Pool, node: nat, pm: PlanManager, src: seq<Source>, ghost t: L.Plan) returns (rc: int, op: nat)
    requires Translatable(pool, src, t) && t.id == node
    requires Based(pm, pool.tables, src) && |pm.free| >= Size(t) + 1
    modifies pm, pm.next, pm.prev, pm.ops
    ensures rc == 0 <==> AllBinary(t) && Room(src, old(pm.ops[..]), old(pm.live), t)
    ensures rc == 0 ==> Translated(pm, pool.tables, src, old(pm.ops[..]), old(pm.live), op, t)
    ensures rc == 0 ==> |pm.free| >= |old(pm.free)| - Size(t)
    decreases t, 1
  {
    hide IsList, P.EdgesAgree, P.AllTyped, Ordered, Partition, Lists, SourcesOk, BaseFits;
    ghost var g0, live0 := pm.ops[..], pm.live;
    TranslatableInputs(pool, src, t);
    var inputs := pool.ops[node].inputs;
    var kids;
    rc, kids := GenInputs(pool, inputs, pm, src, t);
    if rc != 0 {
      if Room(src, g0, live0, t) {
        RoomInputs(src, g0, live0, t);
      }
      return rc, 0;
    }
    rc, op := MkRoot(pool, node, pm, src, kids, t, g0, live0);
  }

  /** The translations of all inputs. */
  method GenInputs(pool: Pool, inputs: seq<nat>, pm: PlanManager, src: seq<Source>, ghost t: L.Plan) returns (rc: int, kids: seq<nat>)
    requires forall k :: 0 <= k < |t.ins| ==> Translatable(pool, src, t.ins[k])
    requires |inputs| == |t.ins| && forall k :: 0 <= k < |t.ins| ==> inputs[k] == t.ins[k].id
    requires Based(pm, pool.tables, src) && |pm.free| >= Size(t) + 1
    modifies pm, pm.next, pm.prev, pm.ops
    ensures rc == 0 ==> KidsDone(pm, pool.tables, src, old(pm.ops[..]), old(pm.live), t, kids) && |kids| == |t.ins|
    ensures rc == 0 ==> |pm.free| >= |old(pm.free)| - SizeAll(t.ins)
    ensures rc == 0 ==> InputsBinary(t.ins)
    ensures rc != 0 ==> !InputsBinary(t.ins) || !RoomIn(src, old(pm.ops[..]), old(pm.live), t.ins)
    decreases t, 0
  {
    hide Translatable, IsList, P.EdgesAgree, P.AllTyped, Ordered, Compiled, SourcesOk, BaseFits, Partition, Lists, KidsPlaced;
    ghost var g0, live0, free0 := pm.ops[..], pm.live, |pm.free|;
    rc, kids := 0, [];
    KidsNone(pm, pool.tables, src, t);
    var i: nat := 0;
    while i < |inputs|
      invariant rc == 0 && |kids| == i <= |t.ins| && KidsDone(pm, pool.tables, src, g0, live0, t, kids)
      invariant Enough(t, i, free0, |pm.free|) && InputsBinary(t.ins[..i])
    {
      ghost var free1 := |pm.free|;
      EnoughNext(t, i, free0, free1);
      var kid;
      rc, kid := GenInput(pool, inputs[i], pm, src, t, kids, g0, live0);
      if rc != 0 {
        return;
      }
      EnoughAfter(t, i, free0, free1, |pm.free|);
      assert t.ins[..i + 1] == t.ins[..i] + [t.ins[i]];
      kids := kids + [kid];
      i := i + 1;
    }
    EnoughLast(t, free0, |pm.free|);
    assert t.ins[..i] == t.ins;
  }

  ghost predicate InputsBinary(ts: seq<L.Plan>) {
    forall k :: 0 <= k < |ts| ==> AllBinary(ts[k])
  }

  lemma KidsNone(pm: PlanManager, tb: L.Tables, src: seq<Source>, t: L.Plan)
    requires Based(pm, tb, src)
    ensures KidsDone(pm, tb, src, pm.ops[..], pm.live, t, [])
  {
    KidsPlacedNone(src, pm.ops[..], pm.live, t.ins);
  }

  /** After i inputs, there are enough free operators for the rest. */
  ghost predicate Enough(t: L.Plan, i: nat, free0: nat, free: nat)
  {
    i <= |t.ins| && free0 >= Size(t) + 1 && free >= free0 - SizeAll(t.ins[..i])
  }

  lemma EnoughNext(t: L.Plan, i: nat, free0: nat, free: nat)
    requires Enough(t, i, free0, free) && i < |t.ins|
    ensures free >= Size(t.ins[i]) + 1
  {
    SizeOfInputs(t.ins, i);
  }

  lemma EnoughAfter(t: L.Plan, i: nat, free0: nat, free: nat, free2: nat)
    requires Enough(t, i, free0, free) && i < |t.ins| && free2 >= free - Size(t.ins[i])
    ensures Enough(t, i + 1, free0, free2)
  {
    SizeOfInputs(t.ins, i);
  }

  lemma EnoughLast(t: L.Plan, free0: nat, free: nat)
    requires Enough(t, |t.ins|, free0, free)
    ensures free >= free0 - SizeAll(t.ins)
  {
    assert t.ins[..|t.ins|] == t.ins;
  }

  /** The translation of one input. */
  method GenInput(pool: Pool, input: nat, pm: PlanManager, src: seq<Source>, ghost t: L.Plan, ghost kids: seq<nat>,
                  ghost g0: P.Graph, ghost live0: set<nat>) returns (rc: int, kid: nat)
    requires |kids| < |t.ins| && Translatable(pool, src, t.ins[|kids|]) && input == t.ins[|kids|].id
    requires KidsDone(pm, pool.tables, src, g0, live0, t, kids)
    requires |pm.free| >= Size(t.ins[|kids|]) + 1
    modifies pm, pm.next, pm.prev, pm.ops
    ensures rc == 0 ==> KidsDone(pm, pool.tables, src, g0, live0, t, kids + [kid])
    ensures rc == 0 ==> |pm.free| >= |old(pm.free)| - Size(t.ins[|kids|])
    ensures rc == 0 ==> AllBinary(t.ins[|kids|])
    ensures rc != 0 ==> !InputsBinary(t.ins) || !RoomIn(src, g0, live0, t.ins)
    decreases t.ins[|kids|], 2
  {
    hide IsList, P.EdgesAgree, P.AllTyped, Ordered;
    ghost var g1, live1, rank1 := pm.ops[..], pm.live, pm.rank;
    BeforeNow(pm, pool.tables, src, g0, live0);
    rc, kid := GenPhysicalPlan(pool, input, pm, src, t.ins[|kids|]);
    if rc == 0 {
      KidsMore(pm, pool.tables, src, g0, live0, t, kids, g1, live1, rank1, kid);
    } else if AllBinary(t.ins[|kids|]) {
      KidNoRoom(src, g0, live0, g1, live1, t.ins, kids);
    }
  }
}
