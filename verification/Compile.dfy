/** Translating a logical plan into operators of the global physical plan. */
module Compile {
  import opened Common
  import opened Histories
  import opened Semantics
  import L = LogicalPlan
  import P = PhysicalPlan
  import opened LogicalTrees
  import opened Extend
  import opened Translate
  import opened PlanColumns

  // ---------------------------------------------------------------- sources

  /** The operator a table is read from: a base source, or the top of the query that defines a view. */
  datatype Source = Source(table: nat, op: nat)

  predicate SourceKind(p: P.Payload) {
    p.StreamSource? || p.RelnSource? || p.QuerySource? || p.SsGen?
  }

  /** The registered sources have the columns and stream flag of their tables. */
  ghost predicate SourcesOk(tb: L.Tables, src: seq<Source>, g: P.Graph, live: set<nat>)
    requires forall i :: i in live ==> i < |g|
  {
    forall k :: 0 <= k < |src| ==>
      && src[k].op in live && SourceKind(g[src[k].op].payload)
      && g[src[k].op].attrs == TableColumns(tb, src[k].table) && g[src[k].op].bStream == tb.isStream(src[k].table)
  }

  predicate Registered(src: seq<Source>, table: nat) {
    exists k :: 0 <= k < |src| && src[k].table == table
  }

  /** Every table of the plan is registered, as the stream or relation the plan takes it for. */
  predicate Provided(tb: L.Tables, src: seq<Source>, t: L.Plan) {
    && (t.op.StreamSource? ==> Registered(src, t.op.strId) && tb.isStream(t.op.strId))
    && (t.op.RelnSource? ==> Registered(src, t.op.relId) && !tb.isStream(t.op.relId))
    && forall k :: 0 <= k < |t.ins| ==> Provided(tb, src, t.ins[k])
  }

  /** The interpretation agrees with the plan about what the tables hold. */
  ghost predicate Agrees(env: Env, n: nat, tb: L.Tables, src: seq<Source>, g: P.Graph, live: set<nat>, rank: seq<nat>)
    requires P.Wf(g, live, rank) && forall k :: 0 <= k < |src| ==> src[k].op in live
  {
    && L.Matches(env, tb) && CountsRows(env)
    && forall k :: 0 <= k < |src| ==> P.Meaning(env, n, g, live, rank, src[k].op) == BaseH(env, n, src[k].table)
  }

  /** Operator op has the columns and stream flag of the plan, and produces what the plan means. */
  ghost predicate Compiled(tb: L.Tables, src: seq<Source>, g: P.Graph, live: set<nat>, rank: seq<nat>, op: nat, t: L.Plan)
    requires P.Wf(g, live, rank) && forall k :: 0 <= k < |src| ==> src[k].op in live
  {
    && op in live && |g[op].attrs| == |L.SchemaOf(tb, t)| && g[op].attrs == Columns(tb, t) && g[op].bStream == L.IsStream(t)
    && forall env: Env, n: nat {:trigger P.Meaning(env, n, g, live, rank, op)} :: Agrees(env, n, tb, src, g, live, rank) ==>
         P.Meaning(env, n, g, live, rank, op) == L.Meaning(env, n, tb, t)
  }

  /** Agreement does not depend on operators added on top. */
  lemma AgreesExtends(env: Env, n: nat, tb: L.Tables, src: seq<Source>, g: P.Graph, live: set<nat>, rank: seq<nat>,
                      g2: P.Graph, live2: set<nat>, rank2: seq<nat>)
    requires P.Wf(g, live, rank) && P.Wf(g2, live2, rank2) && Extends(g, live, g2, live2)
    requires forall k :: 0 <= k < |src| ==> src[k].op in live
    ensures Agrees(env, n, tb, src, g2, live2, rank2) == Agrees(env, n, tb, src, g, live, rank)
  {
    forall k | 0 <= k < |src|
      ensures P.Meaning(env, n, g2, live2, rank2, src[k].op) == P.Meaning(env, n, g, live, rank, src[k].op)
    {
      ExtendsMeaning(env, n, g, live, rank, g2, live2, rank2, src[k].op);
    }
  }

  lemma CompiledExtends(tb: L.Tables, src: seq<Source>, g: P.Graph, live: set<nat>, rank: seq<nat>,
                        g2: P.Graph, live2: set<nat>, rank2: seq<nat>, op: nat, t: L.Plan)
    requires P.Wf(g, live, rank) && P.Wf(g2, live2, rank2) && Extends(g, live, g2, live2)
    requires forall k :: 0 <= k < |src| ==> src[k].op in live
    requires Compiled(tb, src, g, live, rank, op, t)
    ensures Compiled(tb, src, g2, live2, rank2, op, t)
  {
    forall env: Env, n: nat | Agrees(env, n, tb, src, g2, live2, rank2)
      ensures P.Meaning(env, n, g2, live2, rank2, op) == L.Meaning(env, n, tb, t)
    {
      AgreesExtends(env, n, tb, src, g, live, rank, g2, live2, rank2);
      ExtendsMeaning(env, n, g, live, rank, g2, live2, rank2, op);
    }
  }

  // ---------------------------------------------------------------- one operator more

  ghost predicate SourcesIn(src: seq<Source>, live: set<nat>) {
    forall k :: 0 <= k < |src| ==> src[k].op in live
  }

  /** A translated unary operator over a compiled input is compiled. */
  lemma CompiledUnary(tb: L.Tables, src: seq<Source>, g: P.Graph, live: set<nat>, rank: seq<nat>,
                      g2: P.Graph, op: nat, child: nat, t: L.Plan)
    requires P.Wf(g, live, rank) && SourcesIn(src, live) && Added(g, g2, live, op, [child])
    requires L.Sound(tb, t) && |t.ins| == 1 && L.ArityFits(t.op, 1) && Compiled(tb, src, g, live, rank, child, t.ins[0])
    requires g2[op].payload == TransOp(t.op, [L.SchemaOf(tb, t.ins[0])])
    requires |g2[op].attrs| == |L.SchemaOf(tb, t)| && g2[op].attrs == Columns(tb, t) && g2[op].bStream == L.IsStream(t)
    ensures P.Wf(g2, live + {op}, RankAbove(rank, op, [child]))
    ensures Compiled(tb, src, g2, live + {op}, RankAbove(rank, op, [child]), op, t)
  {
    var live2, rank2 := live + {op}, RankAbove(rank, op, [child]);
    AddedWf(g, g2, live, rank, op, [child]);
    forall env: Env, n: nat | Agrees(env, n, tb, src, g2, live2, rank2)
      ensures P.Meaning(env, n, g2, live2, rank2, op) == L.Meaning(env, n, tb, t)
    {
      AgreesExtends(env, n, tb, src, g, live, rank, g2, live2, rank2);
      ExtendsMeaning(env, n, g, live, rank, g2, live2, rank2, child);
      UnaryMeans(env, n, tb, g2, live2, rank2, op, child, t);
    }
  }

  lemma UnaryMeans(env: Env, n: nat, tb: L.Tables, g: P.Graph, live: set<nat>, rank: seq<nat>, op: nat, child: nat, t: L.Plan)
    requires P.Wf(g, live, rank) && op in live && child in live && g[op].inputs == [child]
    requires L.Sound(tb, t) && |t.ins| == 1 && L.ArityFits(t.op, 1) && L.Matches(env, tb) && CountsRows(env)
    requires g[op].payload == TransOp(t.op, [L.SchemaOf(tb, t.ins[0])]) && g[child].bStream == L.IsStream(t.ins[0])
    requires P.Meaning(env, n, g, live, rank, child) == L.Meaning(env, n, tb, t.ins[0])
    ensures P.Meaning(env, n, g, live, rank, op) == L.Meaning(env, n, tb, t)
  {
    var s, f, h := L.SchemaOf(tb, t.ins[0]), L.IsStream(t.ins[0]), L.Meaning(env, n, tb, t.ins[0]);
    P.MeaningStep(env, n, g, live, rank, op);
    L.MeaningStep(env, n, tb, t);
    assert P.InputFlags(g, [child]) == [f];
    assert P.Meanings(env, n, g, live, rank, [child]) == [h];
    assert L.Schemas(tb, t.ins) == [s] && L.Flags(t.ins) == [f] && L.Meanings(env, n, tb, t.ins) == [h];
    L.MeaningWidth(env, n, tb, t.ins[0]);
    TransUnary(env, n, tb, t.op, s, f, h);
  }

  /** A translated binary operator over compiled inputs is compiled. */
  lemma CompiledBinary(tb: L.Tables, src: seq<Source>, g: P.Graph, live: set<nat>, rank: seq<nat>,
                       g2: P.Graph, op: nat, left: nat, right: nat, t: L.Plan)
    requires P.Wf(g, live, rank) && SourcesIn(src, live) && Added(g, g2, live, op, [left, right])
    requires |t.ins| == 2 && L.ArityFits(t.op, 2)
    requires Compiled(tb, src, g, live, rank, left, t.ins[0]) && Compiled(tb, src, g, live, rank, right, t.ins[1])
    requires g2[op].payload == TransOp(t.op, [L.SchemaOf(tb, t.ins[0]), L.SchemaOf(tb, t.ins[1])])
    requires |g2[op].attrs| == |L.SchemaOf(tb, t)| && g2[op].attrs == Columns(tb, t) && g2[op].bStream == L.IsStream(t)
    ensures P.Wf(g2, live + {op}, RankAbove(rank, op, [left, right]))
    ensures Compiled(tb, src, g2, live + {op}, RankAbove(rank, op, [left, right]), op, t)
  {
    var live2, rank2 := live + {op}, RankAbove(rank, op, [left, right]);
    AddedWf(g, g2, live, rank, op, [left, right]);
    assert left in live && right in live;
    forall env: Env, n: nat | Agrees(env, n, tb, src, g2, live2, rank2)
      ensures P.Meaning(env, n, g2, live2, rank2, op) == L.Meaning(env, n, tb, t)
    {
      AgreesExtends(env, n, tb, src, g, live, rank, g2, live2, rank2);
      ExtendsMeaning(env, n, g, live, rank, g2, live2, rank2, left);
      ExtendsMeaning(env, n, g, live, rank, g2, live2, rank2, right);
      BinaryMeans(env, n, tb, g2, live2, rank2, op, left, right, t);
    }
  }

  lemma BinaryMeans(env: Env, n: nat, tb: L.Tables, g: P.Graph, live: set<nat>, rank: seq<nat>, op: nat, left: nat, right: nat, t: L.Plan)
    requires P.Wf(g, live, rank) && op in live && left in live && right in live && g[op].inputs == [left, right]
    requires |t.ins| == 2 && L.ArityFits(t.op, 2)
    requires g[op].payload == TransOp(t.op, [L.SchemaOf(tb, t.ins[0]), L.SchemaOf(tb, t.ins[1])])
    requires g[left].bStream == L.IsStream(t.ins[0]) && g[right].bStream == L.IsStream(t.ins[1])
    requires P.Meaning(env, n, g, live, rank, left) == L.Meaning(env, n, tb, t.ins[0])
    requires P.Meaning(env, n, g, live, rank, right) == L.Meaning(env, n, tb, t.ins[1])
    ensures P.Meaning(env, n, g, live, rank, op) == L.Meaning(env, n, tb, t)
  {
    PhysicalStep(env, n, g, live, rank, op, left, right);
    LogicalStep(env, n, tb, t);
    TransBinary(env, n, t.op, L.SchemaOf(tb, t.ins[0]), L.SchemaOf(tb, t.ins[1]), L.IsStream(t.ins[0]), L.IsStream(t.ins[1]),
                L.Meaning(env, n, tb, t.ins[0]), L.Meaning(env, n, tb, t.ins[1]));
  }

  lemma PhysicalStep(env: Env, n: nat, g: P.Graph, live: set<nat>, rank: seq<nat>, op: nat, left: nat, right: nat)
    requires P.Wf(g, live, rank) && op in live && left in live && right in live && g[op].inputs == [left, right]
    ensures P.Meaning(env, n, g, live, rank, op)
         == P.OpDen(env, n, g[op].payload, [g[left].bStream, g[right].bStream],
                    [P.Meaning(env, n, g, live, rank, left), P.Meaning(env, n, g, live, rank, right)])
  {
    P.MeaningStep(env, n, g, live, rank, op);
    assert P.InputFlags(g, [left, right]) == [g[left].bStream, g[right].bStream];
    assert P.Meanings(env, n, g, live, rank, [left, right])
        == [P.Meaning(env, n, g, live, rank, left), P.Meaning(env, n, g, live, rank, right)];
  }

  lemma LogicalStep(env: Env, n: nat, tb: L.Tables, t: L.Plan)
    requires |t.ins| == 2
    ensures L.Meaning(env, n, tb, t)
         == L.OpMeaning(env, n, t.op, [L.SchemaOf(tb, t.ins[0]), L.SchemaOf(tb, t.ins[1])],
                        [L.IsStream(t.ins[0]), L.IsStream(t.ins[1])],
                        [L.Meaning(env, n, tb, t.ins[0]), L.Meaning(env, n, tb, t.ins[1])])
  {
    L.MeaningStep(env, n, tb, t);
    assert L.Schemas(tb, t.ins) == [L.SchemaOf(tb, t.ins[0]), L.SchemaOf(tb, t.ins[1])];
    assert L.Flags(t.ins) == [L.IsStream(t.ins[0]), L.IsStream(t.ins[1])];
    assert L.Meanings(env, n, tb, t.ins) == [L.Meaning(env, n, tb, t.ins[0]), L.Meaning(env, n, tb, t.ins[1])];
  }

  // ---------------------------------------------------------------- a select into a select

  /** Only the predicate of operator op differs, and nobody reads it. */
  ghost predicate Repredicated(g: P.Graph, g2: P.Graph, live: set<nat>, op: nat) {
    && |g2| == |g| && op in live && op < |g| && g[op].payload.Select? && g2[op].payload.Select?
    && g2[op] == g[op].(payload := g2[op].payload)
    && (forall i :: 0 <= i < |g| && i != op ==> g2[i] == g[i])
    && (forall i :: i in live && i < |g| ==> op !in g[i].inputs)
  }

  /** Nobody else notices. */
  lemma {:induction false} RepredicatedUnfold(g: P.Graph, g2: P.Graph, live: set<nat>, rank: seq<nat>, op: nat, i: nat)
    requires P.Wf(g, live, rank) && Repredicated(g, g2, live, op) && i in live && i != op
    ensures P.Wf(g2, live, rank) && P.Unfold(g2, live, rank, i) == P.Unfold(g, live, rank, i)
    decreases rank[i]
  {
    var t, t2 := P.Unfold(g, live, rank, i), P.Unfold(g2, live, rank, i);
    forall k | 0 <= k < |g[i].inputs|
      ensures t2.ins[k] == t.ins[k]
    {
      RepredicatedUnfold(g, g2, live, rank, op, g[i].inputs[k]);
    }
    assert t2.ins == t.ins;
  }

  /** The conjunct put in front filters what the select passed on. */
  lemma FusedMeaning(env: Env, n: nat, tb: L.Tables, g: P.Graph, g2: P.Graph, live: set<nat>, rank: seq<nat>, op: nat,
                     s: L.Schema, b: L.LBExpr)
    requires P.Wf(g, live, rank) && Repredicated(g, g2, live, op) && |g[op].inputs| == 1
    requires g2[op].payload == P.Select([TransPred(s, b)] + g[op].payload.pred)
    requires L.PredResolves(b, s) && HasWidth(P.Meaning(env, n, g, live, rank, g[op].inputs[0]), |s|)
    ensures P.Wf(g2, live, rank)
    ensures P.Meaning(env, n, g2, live, rank, op) == FilterH(P.Meaning(env, n, g, live, rank, op), L.Selects(env, b, s))
  {
    var child := g[op].inputs[0];
    var h := P.Meaning(env, n, g, live, rank, child);
    assert child in g[op].inputs;
    RepredicatedUnfold(g, g2, live, rank, op, child);
    SelectDen(env, n, g, live, rank, op);
    SelectDen(env, n, g2, live, rank, op);
    FuseSelects(env, s, b, g[op].payload.pred, h);
  }

  lemma SelectDen(env: Env, n: nat, g: P.Graph, live: set<nat>, rank: seq<nat>, op: nat)
    requires P.Wf(g, live, rank) && op in live && g[op].payload.Select? && |g[op].inputs| == 1
    ensures P.Meaning(env, n, g, live, rank, op)
         == FilterH(P.Meaning(env, n, g, live, rank, g[op].inputs[0]), P.Passes(env, g[op].payload.pred))
  {
    P.MeaningStep(env, n, g, live, rank, op);
  }

  /** The base sources have the width of their tables. */
  ghost predicate BaseFits(tb: L.Tables, g: P.Graph, live: set<nat>)
    requires forall i :: i in live ==> i < |g|
  {
    forall i :: i in live ==>
      match g[i].payload
      case StreamSource(strId, _) => |g[i].attrs| == tb.width(strId)
      case RelnSource(relId, _) => |g[i].attrs| == tb.width(relId)
      case SsGen => |g[i].attrs| == tb.width(P.SS_ID)
      case _ => true
  }

  lemma RepredicatedAgrees(env: Env, n: nat, tb: L.Tables, src: seq<Source>, g: P.Graph, g2: P.Graph, live: set<nat>, rank: seq<nat>, op: nat)
    requires P.Wf(g, live, rank) && Repredicated(g, g2, live, op) && SourcesIn(src, live)
    requires forall k :: 0 <= k < |src| ==> src[k].op != op
    ensures P.Wf(g2, live, rank) && Agrees(env, n, tb, src, g2, live, rank) == Agrees(env, n, tb, src, g, live, rank)
  {
    forall k | 0 <= k < |src|
      ensures P.Meaning(env, n, g2, live, rank, src[k].op) == P.Meaning(env, n, g, live, rank, src[k].op)
    {
      RepredicatedUnfold(g, g2, live, rank, op, src[k].op);
    }
  }

  /** The input of a select has the width of the select. */
  lemma SelectInputWidth(env: Env, n: nat, tb: L.Tables, g: P.Graph, live: set<nat>, rank: seq<nat>, op: nat)
    requires P.IsPlan(g, live, rank) && op in live && g[op].payload.Select?
    requires BaseFits(tb, g, live) && L.Matches(env, tb)
    ensures |g[op].inputs| == 1
    ensures HasWidth(P.Meaning(env, n, g, live, rank, g[op].inputs[0]), |g[op].attrs|)
  {
    assert P.Typed(g, live, op);
    var child := g[op].inputs[0];
    assert child in live;
    assert P.InputSchemas(g, g[op].inputs)[0] == g[child].attrs;
    P.MeaningWidth(env, n, g, live, rank, child);
  }

  /** A select whose predicate is put in front of that of a compiled select is compiled. */
  lemma CompiledFused(tb: L.Tables, src: seq<Source>, g: P.Graph, live: set<nat>, rank: seq<nat>, g2: P.Graph, op: nat, t: L.Plan)
    requires P.IsPlan(g, live, rank) && Repredicated(g, g2, live, op) && SourcesIn(src, live) && BaseFits(tb, g, live)
    requires forall k :: 0 <= k < |src| ==> src[k].op != op
    requires t.op.Select? && |t.ins| == 1 && L.Sound(tb, t) && Compiled(tb, src, g, live, rank, op, t.ins[0])
    requires g2[op].payload == P.Select([TransPred(L.SchemaOf(tb, t.ins[0]), t.op.pred)] + g[op].payload.pred)
    ensures P.Wf(g2, live, rank) && Compiled(tb, src, g2, live, rank, op, t)
  {
    var s := L.SchemaOf(tb, t.ins[0]);
    L.SchemaStep(tb, t);
    ColumnsStep(tb, t);
    forall env: Env, n: nat | P.Wf(g2, live, rank) && Agrees(env, n, tb, src, g2, live, rank)
      ensures P.Meaning(env, n, g2, live, rank, op) == L.Meaning(env, n, tb, t)
    {
      FusedMeans(env, n, tb, src, g, live, rank, g2, op, t);
    }
  }

  lemma FusedMeans(env: Env, n: nat, tb: L.Tables, src: seq<Source>, g: P.Graph, live: set<nat>, rank: seq<nat>, g2: P.Graph, op: nat, t: L.Plan)
    requires P.IsPlan(g, live, rank) && Repredicated(g, g2, live, op) && SourcesIn(src, live) && BaseFits(tb, g, live)
    requires forall k :: 0 <= k < |src| ==> src[k].op != op
    requires t.op.Select? && |t.ins| == 1 && L.Sound(tb, t) && Compiled(tb, src, g, live, rank, op, t.ins[0])
    requires g2[op].payload == P.Select([TransPred(L.SchemaOf(tb, t.ins[0]), t.op.pred)] + g[op].payload.pred)
    requires P.Wf(g2, live, rank) && Agrees(env, n, tb, src, g2, live, rank)
    ensures P.Meaning(env, n, g2, live, rank, op) == L.Meaning(env, n, tb, t)
  {
    var s := L.SchemaOf(tb, t.ins[0]);
    RepredicatedAgrees(env, n, tb, src, g, g2, live, rank, op);
    SelectInputWidth(env, n, tb, g, live, rank, op);
    FusedMeaning(env, n, tb, g, g2, live, rank, op, s, t.op.pred);
    LogicalSelect(env, n, tb, t);
  }

  lemma LogicalSelect(env: Env, n: nat, tb: L.Tables, t: L.Plan)
    requires t.op.Select? && |t.ins| == 1
    ensures L.Meaning(env, n, tb, t)
         == FilterH(L.Meaning(env, n, tb, t.ins[0]), L.Selects(env, t.op.pred, L.SchemaOf(tb, t.ins[0])))
    ensures L.Sound(tb, t) ==> L.PredResolves(t.op.pred, L.SchemaOf(tb, t.ins[0]))
  {
    L.MeaningStep(env, n, tb, t);
  }

  /** The plan stays a plan. */
  lemma RepredicatedPlan(g: P.Graph, g2: P.Graph, live: set<nat>, rank: seq<nat>, op: nat, b: P.PBExpr)
    requires P.IsPlan(g, live, rank) && Repredicated(g, g2, live, op)
    requires g2[op].payload == P.Select([b] + g[op].payload.pred) && P.RefersTo(b.left, 0) && P.RefersTo(b.right, 0)
    ensures P.IsPlan(g2, live, rank)
  {
    forall i | i in live
      ensures P.Typed(g2, live, i)
    {
      assert P.Typed(g, live, i);
      assert P.InputFlags(g2, g2[i].inputs) == P.InputFlags(g, g[i].inputs);
      assert P.InputSchemas(g2, g2[i].inputs) == P.InputSchemas(g, g[i].inputs);
      if i == op {
        var pred := [b] + g[op].payload.pred;
        forall k | 0 <= k < |pred|
          ensures P.RefersTo(pred[k].left, 0) && P.RefersTo(pred[k].right, 0)
        {
          assert k > 0 ==> pred[k] == g[op].payload.pred[k - 1];
        }
      }
    }
    assert forall p, c :: p in live && c in live ==> g2[c].inputs == g[c].inputs && g2[p].outputs == g[p].outputs;
  }
}
