/** Types and lengths of columns: what the columns of an operator are, by the names of a plan. */
module PlanColumns {
  import opened Common
  import L = LogicalPlan
  import P = PhysicalPlan

  const INT_SIZE: nat := 4
  const FLOAT_SIZE: nat := 4
  const BYTE_SIZE: nat := 1

  /** The length of a computed value; there are no computed strings. */
  function TypeLen(typ: Type): nat {
    match typ
    case INT => INT_SIZE
    case FLOAT => FLOAT_SIZE
    case BYTE => BYTE_SIZE
    case CHAR => 0
  }

  /** The columns registered for a table. */
  function TableColumns(tb: L.Tables, table: nat): (r: seq<P.Column>)
    ensures |r| == tb.width(table)
    ensures forall a :: 0 <= a < |r| ==> r[a] == P.Column(tb.typ(table, a), tb.len(table, a))
  {
    seq(tb.width(table), a requires 0 <= a < tb.width(table) => P.Column(tb.typ(table, a), tb.len(table, a)))
  }

  function ColumnAt(cols: seq<P.Column>, pos: nat): P.Column {
    if pos < |cols| then cols[pos] else P.Column(INT, INT_SIZE)
  }

  function Named(s: L.Schema, cols: seq<P.Column>, a: L.Attr): P.Column {
    ColumnAt(cols, L.Find(s, a))
  }

  /** A string column keeps the length it has in the input. */
  function Projected(tb: L.Tables, e: L.LExpr, s: L.Schema, cols: seq<P.Column>): P.Column {
    var typ := L.ExprType(tb, e);
    P.Column(typ, if typ.CHAR? && e.AttrRef? then Named(s, cols, e.attr).len else TypeLen(typ))
  }

  /** Counting counts the first column. */
  function Aggregated(aggr: (AggrFn, L.Attr), s: L.Schema, cols: seq<P.Column>): P.Column {
    var typ := L.OutputType(aggr.0, (if aggr.0 == COUNT then ColumnAt(cols, 0) else Named(s, cols, aggr.1)).typ);
    P.Column(typ, TypeLen(typ))
  }

  /** A string column of a union has room for the longer of the two. */
  function United(a: P.Column, b: P.Column): P.Column {
    P.Column(a.typ, if a.typ.CHAR? && b.len > a.len then b.len else a.len)
  }

  /** The columns of an operator from the schemas and columns of its inputs. */
  function OpColumns(tb: L.Tables, op: L.Payload, schemas: seq<L.Schema>, ins: seq<seq<P.Column>>): seq<P.Column>
    requires |schemas| == |ins|
  {
    var s, first := if ins == [] then [] else schemas[0], if ins == [] then [] else ins[0];
    match op
    case StreamSource(_, strId) => TableColumns(tb, strId)
    case RelnSource(_, relId) => TableColumns(tb, relId)
    case Project(projs) => seq(|projs|, k requires 0 <= k < |projs| => Projected(tb, projs[k], s, first))
    case GroupAggr(groups, aggrs) =>
      seq(|groups|, k requires 0 <= k < |groups| => Named(s, first, groups[k]))
      + seq(|aggrs|, k requires 0 <= k < |aggrs| => Aggregated(aggrs[k], s, first))
    case Cross => L.Flat(ins)
    case StreamCross => L.Flat(ins)
    case Union => Both(first, if |ins| < 2 then [] else ins[1])
    case Except => Both(first, if |ins| < 2 then [] else ins[1])
    case _ => first
  }

  function Both(a: seq<P.Column>, b: seq<P.Column>): (r: seq<P.Column>)
    ensures |r| == |a|
  {
    seq(|a|, k requires 0 <= k < |a| => United(a[k], ColumnAt(b, k)))
  }

  /** The columns of a plan. */
  ghost function Columns(tb: L.Tables, t: L.Plan): seq<P.Column> {
    OpColumns(tb, t.op, L.Schemas(tb, t.ins), seq(|t.ins|, k requires 0 <= k < |t.ins| => Columns(tb, t.ins[k])))
  }

  ghost function InputColumns(tb: L.Tables, ts: seq<L.Plan>): (r: seq<seq<P.Column>>)
    ensures |r| == |ts|
  {
    seq(|ts|, k requires 0 <= k < |ts| => Columns(tb, ts[k]))
  }

  lemma ColumnsStep(tb: L.Tables, t: L.Plan)
    ensures Columns(tb, t) == OpColumns(tb, t.op, L.Schemas(tb, t.ins), InputColumns(tb, t.ins))
  {
    assert seq(|t.ins|, k requires 0 <= k < |t.ins| => Columns(tb, t.ins[k])) == InputColumns(tb, t.ins);
  }

  // ---------------------------------------------------------------- columns have the types of their names

  /** For every column of a plan, whether its values count something: its type then follows another column. */
  ghost function Counts(tb: L.Tables, t: L.Plan): seq<bool> {
    OpCounts(tb, t.op, L.Schemas(tb, t.ins), seq(|t.ins|, k requires 0 <= k < |t.ins| => Counts(tb, t.ins[k])))
  }

  ghost function OpCounts(tb: L.Tables, op: L.Payload, schemas: seq<L.Schema>, ins: seq<seq<bool>>): seq<bool>
    requires |schemas| == |ins|
  {
    var s, first := if ins == [] then [] else schemas[0], if ins == [] then [] else ins[0];
    match op
    case StreamSource(_, strId) => seq(tb.width(strId), k => false)
    case RelnSource(_, relId) => seq(tb.width(relId), k => false)
    case Project(projs) => seq(|projs|, k => false)
    case GroupAggr(groups, aggrs) =>
      seq(|groups|, k requires 0 <= k < |groups| => CountAt(first, L.Find(s, groups[k])))
      + seq(|aggrs|, k requires 0 <= k < |aggrs| => aggrs[k].0 == COUNT || CountAt(first, L.Find(s, aggrs[k].1)))
    case Cross => L.Flat(ins)
    case StreamCross => L.Flat(ins)
    case _ => first
  }

  ghost predicate CountAt(counts: seq<bool>, pos: nat) {
    pos < |counts| && counts[pos]
  }

  /** Columns that count nothing have the types of their names. */
  ghost predicate WellTyped(tb: L.Tables, s: L.Schema, cols: seq<P.Column>, counts: seq<bool>) {
    |s| == |cols| == |counts| && forall k :: 0 <= k < |s| && !counts[k] ==> cols[k].typ == L.AttrType(tb, s[k])
  }

  lemma {:induction false} FlatTyped(tb: L.Tables, ss: seq<L.Schema>, cs: seq<seq<P.Column>>, fs: seq<seq<bool>>)
    requires |ss| == |cs| == |fs| && forall k :: 0 <= k < |ss| ==> WellTyped(tb, ss[k], cs[k], fs[k])
    ensures WellTyped(tb, L.Flat(ss), L.Flat(cs), L.Flat(fs))
  {
    if ss != [] {
      var m := |ss| - 1;
      FlatTyped(tb, ss[..m], cs[..m], fs[..m]);
    }
  }

  lemma OpTyped(tb: L.Tables, op: L.Payload, ss: seq<L.Schema>, flags: seq<bool>, cs: seq<seq<P.Column>>, fs: seq<seq<bool>>)
    requires |ss| == |flags| == |cs| == |fs| && forall k :: 0 <= k < |ss| ==> WellTyped(tb, ss[k], cs[k], fs[k])
    requires L.OpSound(tb, op, ss, flags)
    ensures WellTyped(tb, L.OpSchema(tb, op, ss), OpColumns(tb, op, ss, cs), OpCounts(tb, op, ss, fs))
  {
    hide L.Flat;
    if op.Cross? || op.StreamCross? {
      FlatTyped(tb, ss, cs, fs);
    }
  }

  /**
   In a plan whose references resolve, every column has the type of its name, unless it counts:
   a count has the type of whatever column comes first.
   */
  lemma {:induction false} ColumnTypes(tb: L.Tables, t: L.Plan)
    requires L.Sound(tb, t)
    ensures WellTyped(tb, L.SchemaOf(tb, t), Columns(tb, t), Counts(tb, t))
  {
    forall k | 0 <= k < |t.ins|
      ensures WellTyped(tb, L.SchemaOf(tb, t.ins[k]), Columns(tb, t.ins[k]), Counts(tb, t.ins[k]))
    {
      ColumnTypes(tb, t.ins[k]);
    }
    var fs := seq(|t.ins|, k requires 0 <= k < |t.ins| => Counts(tb, t.ins[k]));
    L.SchemaStep(tb, t);
    ColumnsStep(tb, t);
    OpTyped(tb, t.op, L.Schemas(tb, t.ins), L.Flags(t.ins), InputColumns(tb, t.ins), fs);
  }

  // ---------------------------------------------------------------- columns have room for their values

  /**
   The column of an attribute of a table has the registered type, and the registered length if it is a
   string; that of an average is a FLOAT, that of a sum, minimum or maximum has the type of the
   attribute, and either has the length of its type.
   */
  ghost predicate Roomy(tb: L.Tables, a: L.Attr, c: P.Column) {
    match a
    case Named(_, table, attr) =>
      c.typ == tb.typ(table, attr) && (c.len == tb.len(table, attr) || (!c.typ.CHAR? && c.len == TypeLen(c.typ)))
    case Aggr(_, table, attr, fn) =>
      fn != COUNT ==> c.typ == (if fn == AVG then FLOAT else tb.typ(table, attr)) && c.len == TypeLen(c.typ)
    case Unnamed(_) => true
  }

  ghost predicate AllRoomy(tb: L.Tables, s: L.Schema, cols: seq<P.Column>) {
    |s| == |cols| && forall k :: 0 <= k < |s| ==> Roomy(tb, s[k], cols[k])
  }

  lemma {:induction false} FlatRoomy(tb: L.Tables, ss: seq<L.Schema>, cs: seq<seq<P.Column>>)
    requires |ss| == |cs| && forall k :: 0 <= k < |ss| ==> AllRoomy(tb, ss[k], cs[k])
    ensures AllRoomy(tb, L.Flat(ss), L.Flat(cs))
  {
    if ss != [] {
      var m := |ss| - 1;
      FlatRoomy(tb, ss[..m], cs[..m]);
    }
  }

  lemma OpRoomy(tb: L.Tables, op: L.Payload, ss: seq<L.Schema>, flags: seq<bool>, cs: seq<seq<P.Column>>)
    requires |ss| == |flags| == |cs| && forall k :: 0 <= k < |ss| ==> AllRoomy(tb, ss[k], cs[k])
    requires L.OpSound(tb, op, ss, flags)
    ensures AllRoomy(tb, L.OpSchema(tb, op, ss), OpColumns(tb, op, ss, cs))
  {
    if op.Cross? || op.StreamCross? {
      FlatRoomy(tb, ss, cs);
    }
  }

  /** In a plan whose references resolve, every column that stands for an attribute of a table has room for its values. */
  lemma {:induction false} ColumnRoom(tb: L.Tables, t: L.Plan)
    requires L.Sound(tb, t)
    ensures AllRoomy(tb, L.SchemaOf(tb, t), Columns(tb, t))
  {
    forall k | 0 <= k < |t.ins|
      ensures AllRoomy(tb, L.SchemaOf(tb, t.ins[k]), Columns(tb, t.ins[k]))
    {
      ColumnRoom(tb, t.ins[k]);
    }
    L.SchemaStep(tb, t);
    ColumnsStep(tb, t);
    OpRoomy(tb, t.op, L.Schemas(tb, t.ins), L.Flags(t.ins), InputColumns(tb, t.ins));
  }

  /** A string column of a union or difference is as long as the longer of the two it comes from. */
  lemma UnionRoom(tb: L.Tables, t: L.Plan, k: nat)
    requires L.Sound(tb, t) && (t.op.Union? || t.op.Except?) && k < |L.SchemaOf(tb, t)|
    ensures k < |Columns(tb, t)| && k < |Columns(tb, t.ins[0])| && k < |Columns(tb, t.ins[1])|
    ensures var c, a, b := Columns(tb, t)[k], Columns(tb, t.ins[0])[k], Columns(tb, t.ins[1])[k];
      && c.typ == a.typ && (c.len == a.len || c.len == b.len)
      && c.len >= a.len && (c.typ.CHAR? ==> c.len >= b.len)
  {
    hide L.Find, Roomy, L.ExprType, L.Unique, L.Flat, Named, Projected, Aggregated;
    ColumnRoom(tb, t);
    ColumnRoom(tb, t.ins[0]);
    ColumnRoom(tb, t.ins[1]);
    L.SchemaStep(tb, t);
    ColumnsStep(tb, t);
    assert InputColumns(tb, t.ins)[0] == Columns(tb, t.ins[0]) && InputColumns(tb, t.ins)[1] == Columns(tb, t.ins[1]);
    assert L.Schemas(tb, t.ins)[0] == L.SchemaOf(tb, t.ins[0]) && L.Schemas(tb, t.ins)[1] == L.SchemaOf(tb, t.ins[1]);
  }
}
