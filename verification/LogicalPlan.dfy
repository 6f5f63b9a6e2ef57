/**
 Logical plans: trees of operators whose attributes are names.  What a plan computes is defined by
 looking names up in the schemas of its inputs.
 */
module LogicalPlan {
  import opened Common
  import opened Bags
  import opened Histories
  import opened Semantics

  /** An attribute of a table, an aggregate over one, or a computed value that has no name. */
  datatype Attr =
    | Named(varId: nat, tableId: nat, attrId: nat)
    | Aggr(varId: nat, tableId: nat, attrId: nat, fn: AggrFn)
    | Unnamed(typ: Type)

  type LExpr = Expr<Attr>
  type LBExpr = BExpr<Attr>
  type Schema = seq<Attr>

  datatype Payload =
    | StreamSource(varId: nat, strId: nat)
    | RelnSource(varId: nat, relId: nat)
    | RowWin(rows: nat)
    | RangeWin(units: nat)
    | NowWin
    | PartnWin(partn: seq<Attr>, rows: nat)
    | Select(pred: LBExpr)
    | Project(projs: seq<LExpr>)
    | Cross
    | StreamCross
    | GroupAggr(groups: seq<Attr>, aggrs: seq<(AggrFn, Attr)>)
    | Distinct
    | Istream
    | Dstream
    | Rstream
    | Union
    | Except

  /** A plan; id is the slot of its root in the pool of operators. */
  datatype Plan = Plan(id: nat, op: Payload, ins: seq<Plan>)

  /** What is registered about tables. */
  datatype Tables = Tables(
    width: nat -> nat,
    typ: (nat, nat) -> Type,
    len: (nat, nat) -> nat,
    isStream: nat -> bool)

  // ---------------------------------------------------------------- names

  /** Equality of names: an attribute without a name equals nothing, not even itself. */
  predicate Same(a: Attr, b: Attr) {
    !a.Unnamed? && a == b
  }

  /** The first position of a name, or the length of the schema. */
  function Find(s: Schema, a: Attr): (k: nat)
    ensures k <= |s|
    ensures k < |s| ==> Same(a, s[k])
    ensures forall j :: 0 <= j < k ==> !Same(a, s[j])
  {
    if s == [] || Same(a, s[0]) then 0 else 1 + Find(s[1..], a)
  }

  predicate Unique(s: Schema) {
    forall j, k :: 0 <= j < k < |s| ==> !Same(s[j], s[k])
  }

  lemma FindUnique(s: Schema, a: Attr, k: nat)
    requires Unique(s) && k < |s| && Same(a, s[k])
    ensures Find(s, a) == k
  {
    if Find(s, a) < k {
      assert false;
    }
  }

  function FindAll(s: Schema, attrs: seq<Attr>): (r: seq<nat>)
    ensures |r| == |attrs|
  {
    seq(|attrs|, k requires 0 <= k < |attrs| => Find(s, attrs[k]))
  }

  function FindAggrs(s: Schema, aggrs: seq<(AggrFn, Attr)>): (r: seq<(AggrFn, nat)>)
    ensures |r| == |aggrs|
  {
    seq(|aggrs|, k requires 0 <= k < |aggrs| => (aggrs[k].0, Find(s, aggrs[k].1)))
  }

  /** Every attribute the expression refers to is in the schema. */
  predicate Resolves(e: LExpr, s: Schema) {
    match e
    case Const(_) => true
    case AttrRef(a) => Find(s, a) < |s|
    case Comp(_, l, r) => Resolves(l, s) && Resolves(r, s)
  }

  predicate PredResolves(b: LBExpr, s: Schema) {
    Resolves(b.left, s) && Resolves(b.right, s)
  }

  // ---------------------------------------------------------------- schemas and stream flags

  function AttrType(tb: Tables, a: Attr): Type {
    match a
    case Named(_, tableId, attrId) => tb.typ(tableId, attrId)
    case Aggr(_, tableId, attrId, fn) => OutputType(fn, tb.typ(tableId, attrId))
    case Unnamed(typ) => typ
  }

  function OutputType(fn: AggrFn, typ: Type): Type {
    if fn == AVG then FLOAT else typ
  }

  function ValueType(v: Value): Type {
    match v
    case IntVal(_) => INT
    case FloatVal(_) => FLOAT
    case ByteVal(_) => BYTE
    case CharVal(_) => CHAR
  }

  /** The two sides of an arithmetic expression have the same type. */
  function ExprType(tb: Tables, e: LExpr): Type {
    match e
    case Const(v) => ValueType(v)
    case AttrRef(a) => AttrType(tb, a)
    case Comp(_, l, _) => ExprType(tb, l)
  }

  function TableSchema(tb: Tables, varId: nat, tableId: nat): (s: Schema)
    ensures |s| == tb.width(tableId)
  {
    seq(tb.width(tableId), k requires 0 <= k < tb.width(tableId) => Named(varId, tableId, k))
  }

  function ProjectAttr(tb: Tables, e: LExpr): Attr {
    if e.AttrRef? then e.attr else Unnamed(ExprType(tb, e))
  }

  function ProjectSchema(tb: Tables, projs: seq<LExpr>): (s: Schema)
    ensures |s| == |projs|
  {
    seq(|projs|, k requires 0 <= k < |projs| => ProjectAttr(tb, projs[k]))
  }

  function AggrAttr(tb: Tables, aggr: (AggrFn, Attr)): Attr {
    match aggr.1
    case Named(varId, tableId, attrId) => Aggr(varId, tableId, attrId, aggr.0)
    case _ => Unnamed(OutputType(aggr.0, AttrType(tb, aggr.1)))
  }

  function AggrSchema(tb: Tables, aggrs: seq<(AggrFn, Attr)>): (s: Schema)
    ensures |s| == |aggrs|
  {
    seq(|aggrs|, k requires 0 <= k < |aggrs| => AggrAttr(tb, aggrs[k]))
  }

  /** The attributes of a union or difference have types but no names. */
  function Nameless(tb: Tables, s: Schema): (r: Schema)
    ensures |r| == |s|
  {
    seq(|s|, k requires 0 <= k < |s| => Unnamed(AttrType(tb, s[k])))
  }

  function Flat<T>(parts: seq<seq<T>>): seq<T> {
    if parts == [] then [] else Flat(parts[..|parts| - 1]) + parts[|parts| - 1]
  }

  function OpSchema(tb: Tables, op: Payload, ins: seq<Schema>): Schema {
    var first := if ins == [] then [] else ins[0];
    match op
    case StreamSource(varId, strId) => TableSchema(tb, varId, strId)
    case RelnSource(varId, relId) => TableSchema(tb, varId, relId)
    case Project(projs) => ProjectSchema(tb, projs)
    case GroupAggr(groups, aggrs) => groups + AggrSchema(tb, aggrs)
    case Cross => Flat(ins)
    case StreamCross => Flat(ins)
    case Union => Nameless(tb, first)
    case Except => Nameless(tb, first)
    case _ => first
  }

  predicate AllTrue(flags: seq<bool>) {
    forall k :: 0 <= k < |flags| ==> flags[k]
  }

  lemma AllTwo(a: bool, b: bool)
    ensures AllTrue([a, b]) == (a && b)
  {
    assert [a, b][0] == a && [a, b][1] == b;
  }

  /** Whether an operator produces a stream. */
  predicate OpStream(op: Payload, flags: seq<bool>) {
    match op
    case StreamSource(_, _) => true
    case Select(_) => flags != [] && flags[0]
    case Project(_) => flags != [] && flags[0]
    case Distinct => flags != [] && flags[0]
    case Cross => AllTrue(flags)
    case StreamCross => true
    case Istream => true
    case Dstream => true
    case Rstream => true
    case Union => AllTrue(flags)
    case _ => false
  }

  ghost function SchemaOf(tb: Tables, t: Plan): Schema {
    OpSchema(tb, t.op, seq(|t.ins|, k requires 0 <= k < |t.ins| => SchemaOf(tb, t.ins[k])))
  }

  ghost predicate IsStream(t: Plan) {
    OpStream(t.op, seq(|t.ins|, k requires 0 <= k < |t.ins| => IsStream(t.ins[k])))
  }

  ghost function Schemas(tb: Tables, ts: seq<Plan>): (r: seq<Schema>)
    ensures |r| == |ts|
  {
    seq(|ts|, k requires 0 <= k < |ts| => SchemaOf(tb, ts[k]))
  }

  ghost function Flags(ts: seq<Plan>): (r: seq<bool>)
    ensures |r| == |ts|
  {
    seq(|ts|, k requires 0 <= k < |ts| => IsStream(ts[k]))
  }

  lemma SchemaStep(tb: Tables, t: Plan)
    ensures SchemaOf(tb, t) == OpSchema(tb, t.op, Schemas(tb, t.ins))
    ensures IsStream(t) == OpStream(t.op, Flags(t.ins))
  {
    assert seq(|t.ins|, k requires 0 <= k < |t.ins| => SchemaOf(tb, t.ins[k])) == Schemas(tb, t.ins);
    assert seq(|t.ins|, k requires 0 <= k < |t.ins| => IsStream(t.ins[k])) == Flags(t.ins);
  }

  // ---------------------------------------------------------------- what a plan computes

  /** The value a name has in a tuple of the given schema. */
  function Lookup(s: Schema, x: Tuple, a: Attr): Value {
    var k := Find(s, a);
    if k < |s| && k < |x| then x[k] else NoValue
  }

  ghost function ValueIn(env: Env, e: LExpr, s: Schema, x: Tuple): Value {
    match e
    case Const(v) => v
    case AttrRef(a) => Lookup(s, x, a)
    case Comp(op, l, r) => env.arith(op, ValueIn(env, l, s, x), ValueIn(env, r, s, x))
  }

  ghost predicate HoldsIn(env: Env, b: LBExpr, s: Schema, x: Tuple) {
    env.cmp(b.op, ValueIn(env, b.left, s, x), ValueIn(env, b.right, s, x))
  }

  ghost function ValuesIn(env: Env, projs: seq<LExpr>, s: Schema, x: Tuple): (y: Tuple)
    ensures |y| == |projs|
  {
    seq(|projs|, k requires 0 <= k < |projs| => ValueIn(env, projs[k], s, x))
  }

  ghost function Selects(env: Env, b: LBExpr, s: Schema): Tuple -> bool {
    x => HoldsIn(env, b, s, x)
  }

  ghost function Computes(env: Env, projs: seq<LExpr>, s: Schema): Tuple -> Tuple {
    x => ValuesIn(env, projs, s, x)
  }

  /** The product of several relations at every instant. */
  ghost function ProductH(n: nat, hs: seq<Hist>): (h: Hist)
    requires forall k :: 0 <= k < |hs| ==> |hs[k]| == n
    ensures |h| == n
  {
    if hs == [] then Silence(n)
    else if |hs| == 1 then hs[0]
    else JoinH(ProductH(n, hs[..|hs| - 1]), hs[|hs| - 1], Concat)
  }

  lemma ProductTwo(n: nat, a: Hist, b: Hist)
    requires |a| == |b| == n
    ensures ProductH(n, [a, b]) == JoinH(a, b, Concat)
  {
    assert [a, b][..1] == [a];
  }

  ghost function Views(hs: seq<Hist>, flags: seq<bool>): (r: seq<Hist>)
    requires |hs| == |flags|
    ensures |r| == |hs| && forall k :: 0 <= k < |hs| ==> |r[k]| == |hs[k]|
  {
    seq(|hs|, k requires 0 <= k < |hs| => View(hs[k], flags[k]))
  }

  /** How many inputs an operator has. */
  predicate ArityFits(op: Payload, n: nat) {
    match op
    case StreamSource(_, _) => n == 0
    case RelnSource(_, _) => n == 0
    case Cross => n >= 2
    case StreamCross => n >= 2
    case Union => n == 2
    case Except => n == 2
    case _ => n == 1
  }

  /** The history of an operator from those of its inputs, their schemas and stream flags. */
  ghost function OpMeaning(env: Env, n: nat, op: Payload, schemas: seq<Schema>, flags: seq<bool>, ins: seq<Hist>): (h: Hist)
    requires |schemas| == |flags| == |ins|
    requires forall k :: 0 <= k < |ins| ==> |ins[k]| == n
    ensures |h| == n
  {
    if !ArityFits(op, |ins|) then Silence(n) else
    match op
    case StreamSource(_, strId) => BaseH(env, n, strId)
    case RelnSource(_, relId) => BaseH(env, n, relId)
    case RowWin(rows) => RowWinH(env, rows, ins[0])
    case RangeWin(units) => RangeH(ins[0], units)
    case NowWin => ins[0]
    case PartnWin(partn, rows) => PartnWinH(env, FindAll(schemas[0], partn), rows, ins[0])
    case Select(pred) => FilterH(ins[0], Selects(env, pred, schemas[0]))
    case Project(projs) => MapH(ins[0], Computes(env, projs, schemas[0]))
    case Cross => Report(ProductH(n, Views(ins, flags)), AllTrue(flags))
    case StreamCross => ProductH(n, Views(ins, flags)[0 := ins[0]])
    case GroupAggr(groups, aggrs) =>
      AggrH(env, FindAll(schemas[0], groups), FindAggrs(schemas[0], aggrs), View(ins[0], flags[0]))
    case Distinct => Report(DedupH(View(ins[0], flags[0])), flags[0])
    case Istream => Delta(View(ins[0], flags[0]))
    case Dstream => Gone(View(ins[0], flags[0]))
    case Rstream => View(ins[0], flags[0])
    case Union =>
      if flags[0] && flags[1] then PlusH(ins[0], ins[1])
      else PlusH(View(ins[0], flags[0]), View(ins[1], flags[1]))
    case Except => MinusH(View(ins[0], flags[0]), View(ins[1], flags[1]))
  }

  /** What a plan produces over n instants. */
  ghost function Meaning(env: Env, n: nat, tb: Tables, t: Plan): (h: Hist)
    ensures |h| == n
    decreases t
  {
    OpMeaning(env, n, t.op, Schemas(tb, t.ins), Flags(t.ins),
              seq(|t.ins|, k requires 0 <= k < |t.ins| => Meaning(env, n, tb, t.ins[k])))
  }

  ghost function Meanings(env: Env, n: nat, tb: Tables, ts: seq<Plan>): (r: seq<Hist>)
    ensures |r| == |ts| && forall k :: 0 <= k < |ts| ==> |r[k]| == n
  {
    seq(|ts|, k requires 0 <= k < |ts| => Meaning(env, n, tb, ts[k]))
  }

  lemma MeaningStep(env: Env, n: nat, tb: Tables, t: Plan)
    ensures Meaning(env, n, tb, t) == OpMeaning(env, n, t.op, Schemas(tb, t.ins), Flags(t.ins), Meanings(env, n, tb, t.ins))
  {
    assert seq(|t.ins|, k requires 0 <= k < |t.ins| => Meaning(env, n, tb, t.ins[k])) == Meanings(env, n, tb, t.ins);
  }

  /** The meaning of an operator with one input. */
  lemma OneInput(env: Env, n: nat, tb: Tables, t: Plan)
    requires |t.ins| == 1
    ensures Meaning(env, n, tb, t)
         == OpMeaning(env, n, t.op, [SchemaOf(tb, t.ins[0])], [IsStream(t.ins[0])], [Meaning(env, n, tb, t.ins[0])])
  {
    MeaningStep(env, n, tb, t);
    assert Schemas(tb, t.ins) == [SchemaOf(tb, t.ins[0])] && Flags(t.ins) == [IsStream(t.ins[0])];
    assert Meanings(env, n, tb, t.ins) == [Meaning(env, n, tb, t.ins[0])];
  }

  lemma UnaryMeaning(env: Env, n: nat, op: Payload, s: Schema, f: bool, h: Hist)
    requires (op.Select? || op.Project? || op.Distinct? || op.GroupAggr?) && |h| == n
    ensures OpMeaning(env, n, op, [s], [f], [h]) ==
      match op
      case Select(pred) => FilterH(h, Selects(env, pred, s))
      case Project(projs) => MapH(h, Computes(env, projs, s))
      case Distinct => Report(DedupH(View(h, f)), f)
      case GroupAggr(groups, aggrs) => AggrH(env, FindAll(s, groups), FindAggrs(s, aggrs), View(h, f))
  {
  }

  /** An Rstream over a relation passes on the state. */
  lemma RstreamStep(env: Env, n: nat, tb: Tables, t: Plan)
    requires t.op.Rstream? && |t.ins| == 1 && !IsStream(t.ins[0])
    ensures Meaning(env, n, tb, t) == Meaning(env, n, tb, t.ins[0])
  {
    MeaningStep(env, n, tb, t);
    RstreamState(env, n, Schemas(tb, t.ins), Flags(t.ins), Meanings(env, n, tb, t.ins));
  }

  lemma RstreamState(env: Env, n: nat, schemas: seq<Schema>, flags: seq<bool>, ins: seq<Hist>)
    requires |schemas| == |flags| == |ins| == 1 && |ins[0]| == n && !flags[0]
    ensures OpMeaning(env, n, Rstream, schemas, flags, ins) == ins[0]
  {
  }

  // ---------------------------------------------------------------- well-formed plans

  /** What the constructors and the interpretation of the query ensure about an operator. */
  ghost predicate OpSound(tb: Tables, op: Payload, schemas: seq<Schema>, flags: seq<bool>)
    requires |schemas| == |flags|
  {
    ArityFits(op, |schemas|) &&
    match op
    case StreamSource(_, strId) => true
    case RelnSource(_, relId) => true
    case RowWin(_) => flags[0]
    case RangeWin(_) => flags[0]
    case NowWin => flags[0]
    case PartnWin(partn, _) => flags[0] && forall k :: 0 <= k < |partn| ==> Find(schemas[0], partn[k]) < |schemas[0]|
    case Select(pred) => PredResolves(pred, schemas[0])
    case Project(projs) => forall k :: 0 <= k < |projs| ==> Resolves(projs[k], schemas[0])
    case Cross => Unique(Flat(schemas))
    case StreamCross => flags[0] && Unique(Flat(schemas))
    case GroupAggr(groups, aggrs) =>
      && (forall k :: 0 <= k < |groups| ==> Find(schemas[0], groups[k]) < |schemas[0]|)
      && (forall k :: 0 <= k < |aggrs| && aggrs[k].0 != COUNT ==> Find(schemas[0], aggrs[k].1) < |schemas[0]|)
    case Union => |schemas[0]| == |schemas[1]|
    case Except => |schemas[0]| == |schemas[1]|
    case _ => true
  }

  ghost predicate Sound(tb: Tables, t: Plan) {
    && OpSound(tb, t.op, Schemas(tb, t.ins), Flags(t.ins))
    && forall k :: 0 <= k < |t.ins| ==> Sound(tb, t.ins[k])
  }

  /** The interpretation and the registered tables agree on the number of attributes. */
  ghost predicate Matches(env: Env, tb: Tables) {
    Sensible(env) && forall table :: env.width(table) == tb.width(table)
  }

  lemma {:induction false} ProductWidth(n: nat, hs: seq<Hist>, schemas: seq<Schema>)
    requires |hs| == |schemas| && forall k :: 0 <= k < |hs| ==> |hs[k]| == n && HasWidth(hs[k], |schemas[k]|)
    ensures HasWidth(ProductH(n, hs), |Flat(schemas)|)
  {
    var m := |hs| - 1;
    if |hs| == 1 {
      assert Flat(schemas[..0]) == [];
      assert Flat(schemas) == [] + schemas[0];
    } else if |hs| > 1 {
      ProductWidth(n, hs[..m], schemas[..m]);
      JoinWidth(ProductH(n, hs[..m]), hs[m], Concat, |Flat(schemas[..m])|, |schemas[m]|, |Flat(schemas)|);
    }
  }

  /** Every tuple of a well-formed plan has one value per attribute. */
  lemma {:induction false} MeaningWidth(env: Env, n: nat, tb: Tables, t: Plan)
    requires Matches(env, tb) && Sound(tb, t)
    ensures HasWidth(Meaning(env, n, tb, t), |SchemaOf(tb, t)|)
  {
    MeaningStep(env, n, tb, t);
    SchemaStep(tb, t);
    forall k | 0 <= k < |t.ins|
      ensures HasWidth(Meanings(env, n, tb, t.ins)[k], |Schemas(tb, t.ins)[k]|)
    {
      MeaningWidth(env, n, tb, t.ins[k]);
    }
    OpMeaningWidth(env, n, tb, t.op, Schemas(tb, t.ins), Flags(t.ins), Meanings(env, n, tb, t.ins));
  }

  lemma ProductOpWidth(n: nat, ins: seq<Hist>, schemas: seq<Schema>, flags: seq<bool>)
    requires |ins| == |schemas| == |flags| && |ins| > 0
    requires forall k :: 0 <= k < |ins| ==> |ins[k]| == n && HasWidth(ins[k], |schemas[k]|)
    ensures HasWidth(Report(ProductH(n, Views(ins, flags)), AllTrue(flags)), |Flat(schemas)|)
    ensures HasWidth(ProductH(n, Views(ins, flags)[0 := ins[0]]), |Flat(schemas)|)
  {
    forall k | 0 <= k < |ins|
      ensures HasWidth(Views(ins, flags)[k], |schemas[k]|)
    {
      ViewWidth(ins[k], flags[k], |schemas[k]|);
    }
    ProductWidth(n, Views(ins, flags), schemas);
    ProductWidth(n, Views(ins, flags)[0 := ins[0]], schemas);
    ReportWidth(ProductH(n, Views(ins, flags)), AllTrue(flags), |Flat(schemas)|);
  }

  lemma OpMeaningWidth(env: Env, n: nat, tb: Tables, op: Payload, schemas: seq<Schema>, flags: seq<bool>, ins: seq<Hist>)
    requires Matches(env, tb) && |schemas| == |flags| == |ins|
    requires forall k :: 0 <= k < |ins| ==> |ins[k]| == n && HasWidth(ins[k], |schemas[k]|)
    requires OpSound(tb, op, schemas, flags)
    ensures HasWidth(OpMeaning(env, n, op, schemas, flags, ins), |OpSchema(tb, op, schemas)|)
  {
    var w := |OpSchema(tb, op, schemas)|;
    forall k | 0 <= k < |ins|
      ensures HasWidth(View(ins[k], flags[k]), |schemas[k]|)
    {
      ViewWidth(ins[k], flags[k], |schemas[k]|);
    }
    match op {
      case Select(pred) => FilterWidth(ins[0], Selects(env, pred, schemas[0]), w);
      case Project(projs) => MapWidth(ins[0], Computes(env, projs, schemas[0]), w);
      case RowWin(rows) => RowWinWidth(env, rows, ins[0], w);
      case RangeWin(units) => RangeWidth(ins[0], units, w);
      case PartnWin(partn, rows) => PartnWinWidth(env, FindAll(schemas[0], partn), rows, ins[0], w);
      case Cross => ProductOpWidth(n, ins, schemas, flags);
      case StreamCross => ProductOpWidth(n, ins, schemas, flags);
      case GroupAggr(groups, aggrs) => AggrWidth(env, FindAll(schemas[0], groups), FindAggrs(schemas[0], aggrs), View(ins[0], flags[0]));
      case Distinct =>
        ReportWidth(DedupH(View(ins[0], flags[0])), flags[0], w);
      case Istream => ReportWidth(View(ins[0], flags[0]), true, w);
      case Dstream => GoneWidth(View(ins[0], flags[0]), w);
      case _ =>
    }
  }

  lemma AggrWidth(env: Env, groups: seq<nat>, aggrs: seq<(AggrFn, nat)>, h: Hist)
    requires Sensible(env)
    ensures HasWidth(AggrH(env, groups, aggrs, h), |groups| + |aggrs|)
  {
  }

  // ---------------------------------------------------------------- replacing a part of a plan

  /** A path leads from the root of a plan to one of its operators: the input to take at each step. */
  ghost predicate Leads(t: Plan, path: seq<nat>) {
    path == [] || (path[0] < |t.ins| && Leads(t.ins[path[0]], path[1..]))
  }

  ghost function Sub(t: Plan, path: seq<nat>): Plan
    requires Leads(t, path)
  {
    if path == [] then t else Sub(t.ins[path[0]], path[1..])
  }

  ghost function Graft(t: Plan, path: seq<nat>, u: Plan): Plan
    requires Leads(t, path)
  {
    if path == [] then u else t.(ins := t.ins[path[0] := Graft(t.ins[path[0]], path[1..], u)])
  }

  lemma {:induction false} LeadsOn(t: Plan, path: seq<nat>, k: nat)
    requires Leads(t, path) && k < |Sub(t, path).ins|
    ensures Leads(t, path + [k]) && Sub(t, path + [k]) == Sub(t, path).ins[k]
  {
    if path != [] {
      LeadsOn(t.ins[path[0]], path[1..], k);
      assert (path + [k])[1..] == path[1..] + [k];
    }
  }

  lemma {:induction false} GraftOn(t: Plan, path: seq<nat>, k: nat, u: Plan)
    requires Leads(t, path) && k < |Sub(t, path).ins| && Leads(t, path + [k])
    ensures Graft(t, path + [k], u) == Graft(t, path, Sub(t, path).(ins := Sub(t, path).ins[k := u]))
  {
    if path == [] {
      assert [k][1..] == [];
    } else {
      assert (path + [k])[1..] == path[1..] + [k];
      GraftOn(t.ins[path[0]], path[1..], k, u);
    }
  }

  /** Two plans a consumer cannot tell apart. */
  ghost predicate Alike(env: Env, n: nat, tb: Tables, t: Plan, u: Plan) {
    && SchemaOf(tb, u) == SchemaOf(tb, t)
    && IsStream(u) == IsStream(t)
    && Meaning(env, n, tb, u) == Meaning(env, n, tb, t)
  }

  lemma AlikeTrans(env: Env, n: nat, tb: Tables, t: Plan, u: Plan, v: Plan)
    requires Alike(env, n, tb, t, u) && Alike(env, n, tb, u, v)
    ensures Alike(env, n, tb, t, v)
  {
  }

  /** Operators over inputs that are pairwise alike are alike. */
  lemma AlikeInputs(env: Env, n: nat, tb: Tables, t: Plan, u: Plan)
    requires t.op == u.op && |t.ins| == |u.ins|
    requires forall k :: 0 <= k < |t.ins| ==> Alike(env, n, tb, t.ins[k], u.ins[k])
    ensures Alike(env, n, tb, t, u)
    ensures Sound(tb, t) && (forall k :: 0 <= k < |t.ins| ==> Sound(tb, u.ins[k])) ==> Sound(tb, u)
  {
    SchemaStep(tb, t);
    SchemaStep(tb, u);
    MeaningStep(env, n, tb, t);
    MeaningStep(env, n, tb, u);
    assert Schemas(tb, t.ins) == Schemas(tb, u.ins);
    assert Flags(t.ins) == Flags(u.ins);
    assert Meanings(env, n, tb, t.ins) == Meanings(env, n, tb, u.ins);
  }

  /** Replacing a part of a plan by one that is alike leaves the plan alike. */
  lemma {:induction false} GraftAlike(env: Env, n: nat, tb: Tables, t: Plan, path: seq<nat>, u: Plan)
    requires Leads(t, path) && Alike(env, n, tb, Sub(t, path), u)
    requires Sound(tb, t) && Sound(tb, u)
    ensures Alike(env, n, tb, t, Graft(t, path, u)) && Sound(tb, Graft(t, path, u))
  {
    hide OpSound;
    if path != [] {
      GraftAlike(env, n, tb, t.ins[path[0]], path[1..], u);
      AlikeInputs(env, n, tb, t, Graft(t, path, u));
    }
  }

  lemma {:induction false} SubSound(tb: Tables, t: Plan, path: seq<nat>)
    requires Leads(t, path) && Sound(tb, t)
    ensures Sound(tb, Sub(t, path))
  {
    if path != [] {
      SubSound(tb, t.ins[path[0]], path[1..]);
    }
  }
}
