/** Physical operators, the graph they form, and what each of them computes. */
module PhysicalPlan {
  import opened Common
  import opened Bags
  import opened Histories
  import opened Semantics

  /** An attribute by position: which input, and where in the schema of that input. */
  datatype Attr = Attr(input: nat, pos: nat)

  type PExpr = Expr<Attr>
  type PBExpr = BExpr<Attr>

  datatype Column = Column(typ: Type, len: nat)

  /** The kind of an operator with the part of the record that is specific to the kind. */
  datatype Payload =
    | Select(pred: seq<PBExpr>)
    | Project(projs: seq<PExpr>)
    | Join(outer: nat, inner: nat, pred: seq<PBExpr>)
    | StrJoin(outer: nat, inner: nat, pred: seq<PBExpr>)
    | JoinProject(projs: seq<PExpr>, pred: seq<PBExpr>)
    | StrJoinProject(projs: seq<PExpr>, pred: seq<PBExpr>)
    | GroupAggr(groups: seq<Attr>, aggrs: seq<(AggrFn, Attr)>)
    | Distinct
    | RowWin(rows: nat)
    | RangeWin(units: nat)
    | PartnWin(partn: seq<Attr>, rows: nat)
    | Istream
    | Dstream
    | Rstream
    | Union
    | Except
    | StreamSource(strId: nat, srcId: nat)
    | RelnSource(relId: nat, srcId: nat)
    | QuerySource
    | Output(outputId: nat, queryId: nat)
    | Sink
    | SsGen

  datatype Operator = Operator(
    payload: Payload,
    attrs: seq<Column>,
    bStream: bool,
    inputs: seq<nat>,
    outputs: seq<nat>,
    queryClass: int)

  type Graph = seq<Operator>

  /** The operators in use; rank orders them so that inputs come below. */
  ghost predicate Wf(g: Graph, live: set<nat>, rank: seq<nat>) {
    && |rank| == |g|
    && (forall i :: i in live ==> i < |g|)
    && (forall i, k :: i in live && 0 <= k < |g[i].inputs| ==>
         g[i].inputs[k] in live && rank[g[i].inputs[k]] < rank[i])
  }

  /** p is an input of c as often as c is a reader of p. */
  ghost predicate EdgesAgree(g: Graph, live: set<nat>)
    requires forall i :: i in live ==> i < |g|
  {
    && (forall i, r :: i in live && r in g[i].outputs ==> r in live)
    && (forall p, c {:trigger Occ(g[c].inputs, p)} {:trigger Occ(g[p].outputs, c)} :: p in live && c in live ==> Occ(g[c].inputs, p) == Occ(g[p].outputs, c))
  }

  // ---------------------------------------------------------------- what an operator computes

  ghost function Eval(env: Env, e: PExpr, row: seq<Tuple>): Value {
    match e
    case Const(v) => v
    case AttrRef(a) => if a.input < |row| && a.pos < |row[a.input]| then row[a.input][a.pos] else NoValue
    case Comp(op, l, r) => env.arith(op, Eval(env, l, row), Eval(env, r, row))
  }

  ghost predicate HoldsAtom(env: Env, b: PBExpr, row: seq<Tuple>) {
    env.cmp(b.op, Eval(env, b.left, row), Eval(env, b.right, row))
  }

  ghost predicate Holds(env: Env, pred: seq<PBExpr>, row: seq<Tuple>) {
    forall k :: 0 <= k < |pred| ==> HoldsAtom(env, pred[k], row)
  }

  ghost function Emit(env: Env, projs: seq<PExpr>, row: seq<Tuple>): (r: Tuple)
    ensures |r| == |projs|
  {
    seq(|projs|, k requires 0 <= k < |projs| => Eval(env, projs[k], row))
  }

  ghost function Passes(env: Env, pred: seq<PBExpr>): Tuple -> bool {
    x => Holds(env, pred, [x])
  }

  ghost function Projects(env: Env, projs: seq<PExpr>): Tuple -> Tuple {
    x => Emit(env, projs, [x])
  }

  ghost function Joins(env: Env, pred: seq<PBExpr>): (Tuple, Tuple) -> Bag {
    (x, y) => if Holds(env, pred, [x, y]) then multiset{x + y} else multiset{}
  }

  ghost function JoinProjects(env: Env, projs: seq<PExpr>, pred: seq<PBExpr>): (Tuple, Tuple) -> Bag {
    (x, y) => if Holds(env, pred, [x, y]) then multiset{Emit(env, projs, [x, y])} else multiset{}
  }

  function Positions(attrs: seq<Attr>): (r: seq<nat>)
    ensures |r| == |attrs|
  {
    seq(|attrs|, k requires 0 <= k < |attrs| => attrs[k].pos)
  }

  function AggrPositions(aggrs: seq<(AggrFn, Attr)>): (r: seq<(AggrFn, nat)>)
    ensures |r| == |aggrs|
  {
    seq(|aggrs|, k requires 0 <= k < |aggrs| => (aggrs[k].0, aggrs[k].1.pos))
  }

  function Arity(p: Payload): nat {
    match p
    case Join(_, _, _) => 2
    case StrJoin(_, _, _) => 2
    case JoinProject(_, _) => 2
    case StrJoinProject(_, _) => 2
    case Union => 2
    case Except => 2
    case StreamSource(_, _) => 0
    case RelnSource(_, _) => 0
    case SsGen => 0
    case _ => 1
  }

  /** The identifier of the system stream. */
  const SS_ID: nat := 0

  /** The history of an operator from those of its inputs and whether these are streams. */
  ghost function OpDen(env: Env, n: nat, p: Payload, flags: seq<bool>, ins: seq<Hist>): (h: Hist)
    requires |flags| == |ins|
    requires forall k :: 0 <= k < |ins| ==> |ins[k]| == n
    ensures |h| == n
  {
    if |ins| != Arity(p) then Silence(n) else
    match p
    case Select(pred) => FilterH(ins[0], Passes(env, pred))
    case Project(projs) => MapH(ins[0], Projects(env, projs))
    case Join(_, _, pred) =>
      Report(JoinH(View(ins[0], flags[0]), View(ins[1], flags[1]), Joins(env, pred)), flags[0] && flags[1])
    case StrJoin(_, _, pred) => JoinH(ins[0], View(ins[1], flags[1]), Joins(env, pred))
    case JoinProject(projs, pred) =>
      Report(JoinH(View(ins[0], flags[0]), View(ins[1], flags[1]), JoinProjects(env, projs, pred)),
             flags[0] && flags[1])
    case StrJoinProject(projs, pred) =>
      JoinH(ins[0], View(ins[1], flags[1]), JoinProjects(env, projs, pred))
    case GroupAggr(groups, aggrs) =>
      AggrH(env, Positions(groups), AggrPositions(aggrs), View(ins[0], flags[0]))
    case Distinct => Report(DedupH(View(ins[0], flags[0])), flags[0])
    case RowWin(rows) => RowWinH(env, rows, ins[0])
    case RangeWin(units) => RangeH(ins[0], units)
    case PartnWin(partn, rows) => PartnWinH(env, Positions(partn), rows, ins[0])
    case Istream => Delta(View(ins[0], flags[0]))
    case Dstream => Gone(View(ins[0], flags[0]))
    case Rstream => View(ins[0], flags[0])
    case Union =>
      if flags[0] && flags[1] then PlusH(ins[0], ins[1])
      else PlusH(View(ins[0], flags[0]), View(ins[1], flags[1]))
    case Except => MinusH(View(ins[0], flags[0]), View(ins[1], flags[1]))
    case StreamSource(strId, _) => BaseH(env, n, strId)
    case RelnSource(relId, _) => BaseH(env, n, relId)
    case QuerySource => ins[0]
    case Output(_, _) => ins[0]
    case Sink => ins[0]
    case SsGen => BaseH(env, n, SS_ID)
  }

  lemma ProjectDen(env: Env, n: nat, projs: seq<PExpr>, flag: bool, h: Hist)
    requires |h| == n
    ensures OpDen(env, n, Project(projs), [flag], [h]) == MapH(h, Projects(env, projs))
  {
  }

  lemma JoinDen(env: Env, n: nat, outer: nat, inner: nat, p: seq<PBExpr>, flags: seq<bool>, ins: seq<Hist>)
    requires |flags| == |ins| == 2 && forall k :: 0 <= k < |ins| ==> |ins[k]| == n
    ensures OpDen(env, n, Join(outer, inner, p), flags, ins)
         == Report(JoinH(View(ins[0], flags[0]), View(ins[1], flags[1]), Joins(env, p)), flags[0] && flags[1])
  {
  }

  lemma StrJoinDen(env: Env, n: nat, outer: nat, inner: nat, p: seq<PBExpr>, flags: seq<bool>, ins: seq<Hist>)
    requires |flags| == |ins| == 2 && forall k :: 0 <= k < |ins| ==> |ins[k]| == n
    ensures OpDen(env, n, StrJoin(outer, inner, p), flags, ins)
         == JoinH(ins[0], View(ins[1], flags[1]), Joins(env, p))
  {
  }

  lemma JoinProjectDen(env: Env, n: nat, projs: seq<PExpr>, p: seq<PBExpr>, flags: seq<bool>, ins: seq<Hist>)
    requires |flags| == |ins| == 2 && forall k :: 0 <= k < |ins| ==> |ins[k]| == n
    ensures OpDen(env, n, JoinProject(projs, p), flags, ins)
         == Report(JoinH(View(ins[0], flags[0]), View(ins[1], flags[1]), JoinProjects(env, projs, p)), flags[0] && flags[1])
  {
    var f, q := JoinProjects(env, projs, p), JoinProject(projs, p);
    assert q.projs == projs && q.pred == p;
    assert OpDen(env, n, q, flags, ins) == Report(JoinH(View(ins[0], flags[0]), View(ins[1], flags[1]), JoinProjects(env, q.projs, q.pred)), flags[0] && flags[1]);
  }

  lemma StrJoinProjectDen(env: Env, n: nat, projs: seq<PExpr>, p: seq<PBExpr>, flags: seq<bool>, ins: seq<Hist>)
    requires |flags| == |ins| == 2 && forall k :: 0 <= k < |ins| ==> |ins[k]| == n
    ensures OpDen(env, n, StrJoinProject(projs, p), flags, ins)
         == JoinH(ins[0], View(ins[1], flags[1]), JoinProjects(env, projs, p))
  {
    var f, q := JoinProjects(env, projs, p), StrJoinProject(projs, p);
    assert q.projs == projs && q.pred == p;
    assert OpDen(env, n, q, flags, ins) == JoinH(ins[0], View(ins[1], flags[1]), JoinProjects(env, q.projs, q.pred));
  }

  // ---------------------------------------------------------------- unfolding the graph

  /** The tree an operator unfolds to.  An operator that is never shared keeps its identity. */
  datatype Term = Term(payload: Payload, attrs: seq<Column>, bStream: bool, self: Ptr, ins: seq<Term>)

  /** Kinds that the comparison never reports equal, except to themselves. */
  predicate Unshareable(p: Payload) {
    p.StreamSource? || p.RelnSource? || p.QuerySource? || p.Output? || p.Sink? || p.SsGen?
  }

  ghost function Unfold(g: Graph, live: set<nat>, rank: seq<nat>, i: nat): Term
    requires Wf(g, live, rank) && i in live
    decreases rank[i]
  {
    Term(g[i].payload, g[i].attrs, g[i].bStream,
         if Unshareable(g[i].payload) then At(i) else Null,
         seq(|g[i].inputs|, k requires 0 <= k < |g[i].inputs| => Unfold(g, live, rank, g[i].inputs[k])))
  }

  ghost function FlagsOf(ts: seq<Term>): (r: seq<bool>)
    ensures |r| == |ts|
  {
    seq(|ts|, k requires 0 <= k < |ts| => ts[k].bStream)
  }

  ghost function Den(env: Env, n: nat, t: Term): (h: Hist)
    ensures |h| == n
    decreases t
  {
    OpDen(env, n, t.payload, FlagsOf(t.ins),
          seq(|t.ins|, k requires 0 <= k < |t.ins| => Den(env, n, t.ins[k])))
  }

  /** What operator i of the graph produces. */
  ghost function Meaning(env: Env, n: nat, g: Graph, live: set<nat>, rank: seq<nat>, i: nat): (h: Hist)
    requires Wf(g, live, rank) && i in live
    ensures |h| == n
  {
    Den(env, n, Unfold(g, live, rank, i))
  }

  ghost function InputFlags(g: Graph, ids: seq<nat>): (r: seq<bool>)
    requires forall k :: 0 <= k < |ids| ==> ids[k] < |g|
    ensures |r| == |ids|
  {
    seq(|ids|, k requires 0 <= k < |ids| => g[ids[k]].bStream)
  }

  ghost function Meanings(env: Env, n: nat, g: Graph, live: set<nat>, rank: seq<nat>, ids: seq<nat>): (r: seq<Hist>)
    requires Wf(g, live, rank) && forall k :: 0 <= k < |ids| ==> ids[k] in live
    ensures |r| == |ids| && forall k :: 0 <= k < |ids| ==> |r[k]| == n
  {
    seq(|ids|, k requires 0 <= k < |ids| => Meaning(env, n, g, live, rank, ids[k]))
  }

  /** An operator's output is its own function of the outputs of its inputs. */
  lemma MeaningStep(env: Env, n: nat, g: Graph, live: set<nat>, rank: seq<nat>, i: nat)
    requires Wf(g, live, rank) && i in live
    ensures Meaning(env, n, g, live, rank, i)
         == OpDen(env, n, g[i].payload, InputFlags(g, g[i].inputs), Meanings(env, n, g, live, rank, g[i].inputs))
  {
    var t := Unfold(g, live, rank, i);
    forall k | 0 <= k < |g[i].inputs|
      ensures FlagsOf(t.ins)[k] == InputFlags(g, g[i].inputs)[k]
    {
      assert t.ins[k] == Unfold(g, live, rank, g[i].inputs[k]);
    }
    assert FlagsOf(t.ins) == InputFlags(g, g[i].inputs);
    assert seq(|t.ins|, k requires 0 <= k < |t.ins| => Den(env, n, t.ins[k]))
        == Meanings(env, n, g, live, rank, g[i].inputs);
  }

  // ---------------------------------------------------------------- schemas and stream flags

  /** The stream flag the constructors give an operator, from those of its inputs. */
  predicate StreamRule(p: Payload, flags: seq<bool>, own: bool)
    requires |flags| == Arity(p)
  {
    match p
    case Select(_) => own == flags[0]
    case Project(_) => own == flags[0]
    case Distinct => own == flags[0]
    case QuerySource => own == flags[0]
    case Output(_, _) => own == flags[0]
    case Sink => own == flags[0]
    case Join(_, _, _) => own == (flags[0] && flags[1])
    case JoinProject(_, _) => own == (flags[0] && flags[1])
    case Union => own == (flags[0] && flags[1])
    case StrJoin(_, _, _) => own
    case StrJoinProject(_, _) => own
    case Istream => own
    case Dstream => own
    case Rstream => own
    case StreamSource(_, _) => own
    case SsGen => own
    case _ => !own
  }

  /** The schema the constructors give an operator, from those of its inputs. */
  predicate SchemaRule(p: Payload, ins: seq<seq<Column>>, own: seq<Column>)
    requires |ins| == Arity(p)
  {
    match p
    case Project(projs) => |own| == |projs|
    case JoinProject(projs, _) => |own| == |projs|
    case StrJoinProject(projs, _) => |own| == |projs|
    case Join(outer, inner, _) => own == ins[0] + ins[1] && outer == |ins[0]| && inner == |ins[1]|
    case StrJoin(outer, inner, _) => own == ins[0] + ins[1] && outer == |ins[0]| && inner == |ins[1]|
    case GroupAggr(groups, aggrs) => |own| == |groups| + |aggrs|
    case Union => |own| == |ins[0]| == |ins[1]|
    case Except => |own| == |ins[0]| == |ins[1]|
    case StreamSource(_, _) => true
    case RelnSource(_, _) => true
    case SsGen => true
    case _ => own == ins[0]
  }

  /** Every attribute the expression refers to comes from the given input. */
  predicate RefersTo(e: PExpr, input: nat) {
    match e
    case Const(_) => true
    case AttrRef(a) => a.input == input
    case Comp(_, l, r) => RefersTo(l, input) && RefersTo(r, input)
  }

  predicate PredRefersTo(pred: seq<PBExpr>, input: nat) {
    forall k :: 0 <= k < |pred| ==> RefersTo(pred[k].left, input) && RefersTo(pred[k].right, input)
  }

  /** Selects and projects refer to their one input. */
  predicate RefsRule(p: Payload) {
    match p
    case Select(pred) => PredRefersTo(pred, 0)
    case Project(projs) => forall k :: 0 <= k < |projs| ==> RefersTo(projs[k], 0)
    case _ => true
  }

  ghost predicate Typed(g: Graph, live: set<nat>, i: nat)
    requires i in live && forall j :: j in live ==> j < |g|
    requires forall k :: 0 <= k < |g[i].inputs| ==> g[i].inputs[k] in live
  {
    && |g[i].inputs| == Arity(g[i].payload)
    && StreamRule(g[i].payload, InputFlags(g, g[i].inputs), g[i].bStream)
    && SchemaRule(g[i].payload, InputSchemas(g, g[i].inputs), g[i].attrs)
    && RefsRule(g[i].payload)
  }

  ghost function InputSchemas(g: Graph, ids: seq<nat>): (r: seq<seq<Column>>)
    requires forall k :: 0 <= k < |ids| ==> ids[k] < |g|
    ensures |r| == |ids|
  {
    seq(|ids|, k requires 0 <= k < |ids| => g[ids[k]].attrs)
  }

  ghost predicate AllTyped(g: Graph, live: set<nat>, rank: seq<nat>)
    requires Wf(g, live, rank)
  {
    forall i {:trigger Typed(g, live, i)} :: i in live ==> Typed(g, live, i)
  }

  /** No operator has more readers than the record has room for. */
  ghost predicate FanOutFits(g: Graph, live: set<nat>)
    requires forall i :: i in live ==> i < |g|
  {
    forall i :: i in live ==> |g[i].outputs| <= MAX_OUT_BRANCHING
  }

  /** An acyclic graph whose links, schemas and stream flags are in order. */
  ghost predicate IsPlan(g: Graph, live: set<nat>, rank: seq<nat>) {
    && Wf(g, live, rank)
    && EdgesAgree(g, live)
    && AllTyped(g, live, rank)
    && FanOutFits(g, live)
  }

  /** The source operators have the width of their table. */
  ghost predicate SourcesFit(env: Env, g: Graph, live: set<nat>)
    requires forall i :: i in live ==> i < |g|
  {
    forall i :: i in live ==>
      match g[i].payload
      case StreamSource(strId, _) => |g[i].attrs| == env.width(strId)
      case RelnSource(relId, _) => |g[i].attrs| == env.width(relId)
      case SsGen => |g[i].attrs| == env.width(SS_ID)
      case _ => true
  }

  /** Every tuple an operator produces has as many values as the operator has attributes. */
  lemma {:induction false} MeaningWidth(env: Env, n: nat, g: Graph, live: set<nat>, rank: seq<nat>, i: nat)
    requires Wf(g, live, rank) && i in live && AllTyped(g, live, rank)
    requires Sensible(env) && SourcesFit(env, g, live)
    ensures HasWidth(Meaning(env, n, g, live, rank, i), |g[i].attrs|)
    decreases rank[i]
  {
    MeaningStep(env, n, g, live, rank, i);
    var ids := g[i].inputs;
    assert Typed(g, live, i);
    forall k | 0 <= k < |ids|
      ensures HasWidth(Meanings(env, n, g, live, rank, ids)[k], |InputSchemas(g, ids)[k]|)
    {
      MeaningWidth(env, n, g, live, rank, ids[k]);
    }
    OpDenWidth(env, n, g[i].payload, InputFlags(g, ids), Meanings(env, n, g, live, rank, ids),
               InputSchemas(g, ids), g[i].attrs);
  }

  lemma OpDenWidth(env: Env, n: nat, p: Payload, flags: seq<bool>, ins: seq<Hist>,
                   schemas: seq<seq<Column>>, own: seq<Column>)
    requires Sensible(env)
    requires |flags| == |ins| == |schemas| == Arity(p)
    requires forall k :: 0 <= k < |ins| ==> |ins[k]| == n && HasWidth(ins[k], |schemas[k]|)
    requires SchemaRule(p, schemas, own)
    requires p.StreamSource? ==> |own| == env.width(p.strId)
    requires p.RelnSource? ==> |own| == env.width(p.relId)
    requires p.SsGen? ==> |own| == env.width(SS_ID)
    ensures HasWidth(OpDen(env, n, p, flags, ins), |own|)
  {
    forall k | 0 <= k < |ins|
      ensures HasWidth(View(ins[k], flags[k]), |schemas[k]|)
    {
      ViewWidth(ins[k], flags[k], |schemas[k]|);
    }
    if Arity(p) == 2 {
      TwoDenWidth(env, n, p, flags, ins, schemas, own);
    } else if Arity(p) == 1 {
      assert flags == [flags[0]] && ins == [ins[0]] && schemas == [schemas[0]];
      OneDenWidth(env, n, p, flags[0], ins[0], schemas[0], own);
    }
  }

  lemma OneDenWidth(env: Env, n: nat, p: Payload, f: bool, h: Hist, schema: seq<Column>, own: seq<Column>)
    requires Sensible(env) && Arity(p) == 1 && |h| == n && SchemaRule(p, [schema], own)
    requires HasWidth(h, |schema|) && HasWidth(View(h, f), |schema|)
    ensures HasWidth(OpDen(env, n, p, [f], [h]), |own|)
  {
    var w := |own|;
    match p
    case Select(pred) => FilterWidth(h, Passes(env, pred), w);
    case Project(projs) => MapWidth(h, Projects(env, projs), w);
    case Distinct => ReportWidth(DedupH(View(h, f)), f, w);
    case RowWin(rows) => RowWinWidth(env, rows, h, w);
    case RangeWin(units) => RangeWidth(h, units, w);
    case PartnWin(partn, rows) => PartnWinWidth(env, Positions(partn), rows, h, w);
    case Istream => ReportWidth(View(h, f), true, w);
    case Dstream => GoneWidth(View(h, f), w);
    case _ =>
  }

  lemma TwoDenWidth(env: Env, n: nat, p: Payload, flags: seq<bool>, ins: seq<Hist>, schemas: seq<seq<Column>>, own: seq<Column>)
    requires |flags| == |ins| == |schemas| == Arity(p) == 2 && |ins[0]| == |ins[1]| == n && SchemaRule(p, schemas, own)
    requires forall k :: 0 <= k < 2 ==> HasWidth(ins[k], |schemas[k]|) && HasWidth(View(ins[k], flags[k]), |schemas[k]|)
    ensures HasWidth(OpDen(env, n, p, flags, ins), |own|)
  {
    hide OpDen, View, Joins, JoinProjects;
    var u, v, w := |schemas[0]|, |schemas[1]|, |own|;
    match p
    case Join(outer, inner, pred) =>
      JoinDen(env, n, outer, inner, pred, flags, ins);
      JoinsWidth(env, pred, u, v);
      JoinDenWidth(ins, flags, Joins(env, pred), u, v, w);
    case StrJoin(outer, inner, pred) =>
      StrJoinDen(env, n, outer, inner, pred, flags, ins);
      JoinsWidth(env, pred, u, v);
      JoinWidth(ins[0], View(ins[1], flags[1]), Joins(env, pred), u, v, w);
    case JoinProject(projs, pred) =>
      JoinProjectDen(env, n, projs, pred, flags, ins);
      JoinProjectsWidth(env, projs, pred);
      JoinDenWidth(ins, flags, JoinProjects(env, projs, pred), u, v, w);
    case StrJoinProject(projs, pred) =>
      StrJoinProjectDen(env, n, projs, pred, flags, ins);
      JoinProjectsWidth(env, projs, pred);
      JoinWidth(ins[0], View(ins[1], flags[1]), JoinProjects(env, projs, pred), u, v, w);
    case Union => SetDenWidth(env, n, p, flags, ins, w);
    case Except => SetDenWidth(env, n, p, flags, ins, w);
    case _ =>
  }

  lemma JoinProjectsWidth(env: Env, projs: seq<PExpr>, pred: seq<PBExpr>)
    ensures forall x, y, z :: z in JoinProjects(env, projs, pred)(x, y) ==> |z| == |projs|
  {
  }

  lemma SetDenWidth(env: Env, n: nat, p: Payload, flags: seq<bool>, ins: seq<Hist>, w: nat)
    requires (p.Union? || p.Except?) && |flags| == |ins| == 2 && |ins[0]| == |ins[1]| == n
    requires forall k :: 0 <= k < 2 ==> HasWidth(ins[k], w) && HasWidth(View(ins[k], flags[k]), w)
    ensures HasWidth(OpDen(env, n, p, flags, ins), w)
  {
  }

  lemma JoinsWidth(env: Env, pred: seq<PBExpr>, u: nat, v: nat)
    ensures forall x, y, z :: |x| == u && |y| == v && z in Joins(env, pred)(x, y) ==> |z| == u + v
  {
  }

  lemma JoinDenWidth(ins: seq<Hist>, flags: seq<bool>, f: (Tuple, Tuple) -> Bag, u: nat, v: nat, w: nat)
    requires |ins| == |flags| == 2 && |ins[0]| == |ins[1]|
    requires HasWidth(View(ins[0], flags[0]), u) && HasWidth(View(ins[1], flags[1]), v)
    requires forall x, y, z :: |x| == u && |y| == v && z in f(x, y) ==> |z| == w
    ensures HasWidth(Report(JoinH(View(ins[0], flags[0]), View(ins[1], flags[1]), f), flags[0] && flags[1]), w)
  {
    JoinWidth(View(ins[0], flags[0]), View(ins[1], flags[1]), f, u, v, w);
    ReportWidth(JoinH(View(ins[0], flags[0]), View(ins[1], flags[1]), f), flags[0] && flags[1], w);
  }
}
