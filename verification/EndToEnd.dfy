/** From a query to the operators that answer it. */
module EndToEnd {
  import opened Semantics
  import L = LogicalPlan
  import P = PhysicalPlan
  import opened LogicalOps
  import opened LogicalTrees
  import opened Products
  import opened RewriteNow
  import opened RewriteCross
  import opened RewriteProject
  import opened RewriteBinary
  import opened RewriteSelect
  import opened Stacks
  import opened NaivePlan
  import opened NaiveGen
  import Q = QuerySemantics
  import opened LogPlanGen
  import opened ExactStreams
  import opened WholeRewrite
  import opened Compile
  import opened GenPhyPlan
  import opened Register
  import opened Optimizer
  import opened Common

  // ---------------------------------------------------------------- the rewriting adds no tables

  lemma {:induction false} ShapeProvided(tb: L.Tables, src: seq<Source>, t: L.Plan)
    ensures Provided(tb, src, Shape(t)) == Provided(tb, src, t)
  {
    forall k | 0 <= k < |t.ins|
      ensures Shape(t).ins[k] == Shape(t.ins[k]) && Provided(tb, src, Shape(t).ins[k]) == Provided(tb, src, t.ins[k])
    {
      ShapeProvided(tb, src, t.ins[k]);
    }
  }

  lemma {:induction false} WithoutNowProvided(tb: L.Tables, src: seq<Source>, t: L.Plan)
    requires NowBelow(t) && Provided(tb, src, t)
    ensures Provided(tb, src, WithoutNow(t))
  {
    if !t.op.NowWin? {
      WithoutNowProvided(tb, src, t.ins[0]);
    }
  }

  lemma {:induction false} StreamedProvided(tb: L.Tables, src: seq<Source>, t: L.Plan, id: nat)
    requires Streamable(t) && Provided(tb, src, t)
    ensures Provided(tb, src, Streamed(t, id))
  {
    if t.op.Cross? {
      var now, ts := t.ins[NowAt(t.ins)], StreamFirst(t.ins);
      assert Provided(tb, src, now);
      forall k | 0 <= k < |ts|
        ensures Provided(tb, src, ts[k])
      {
        assert k > 0 ==> ts[k] in t.ins;
      }
    } else {
      StreamedProvided(tb, src, t.ins[0], id);
    }
  }

  lemma {:induction false} ProjectRemovedProvided(tb: L.Tables, src: seq<Source>, t: L.Plan)
    requires Provided(tb, src, t)
    ensures Provided(tb, src, ProjectRemoved(tb, t))
  {
    if !Useless(tb, t) && OverProject(t.op) && |t.ins| == 1 {
      ProjectRemovedProvided(tb, src, t.ins[0]);
    }
  }

  lemma {:induction false} LeftDeepProvided(tb: L.Tables, src: seq<Source>, op: L.Payload, ts: seq<L.Plan>, id: nat)
    requires IsProduct(op) && |ts| >= 2 && forall k :: 0 <= k < |ts| ==> Provided(tb, src, ts[k])
    ensures Provided(tb, src, LeftDeep(op, ts, id))
  {
    if |ts| > 2 {
      LeftDeepProvided(tb, src, op, ts[..|ts| - 1], id);
    }
  }

  lemma {:induction false} MadeBinaryProvided(tb: L.Tables, src: seq<Source>, op: L.Payload, t: L.Plan, id: nat)
    requires IsProduct(op) && Provided(tb, src, t)
    ensures Provided(tb, src, MadeBinary(op, t, id))
  {
    if t.op == op && |t.ins| > 2 {
      LeftDeepProvided(tb, src, op, t.ins, id);
    } else if OverProduct(t.op) && |t.ins| == 1 {
      MadeBinaryProvided(tb, src, op, t.ins[0], id);
    }
  }

  lemma {:induction false} PushProvided(tb: L.Tables, src: seq<Source>, b: L.LBExpr, id: nat, t: L.Plan)
    requires Provided(tb, src, t)
    ensures Provided(tb, src, Push(tb, b, id, t))
  {
    if Pushable(tb, b, t) {
      PushProvided(tb, src, b, id, t.ins[Way(tb, b, t)]);
    }
  }

  lemma {:induction false} PushTopProvided(tb: L.Tables, src: seq<Source>, t: L.Plan, id: nat)
    requires Provided(tb, src, t)
    ensures Provided(tb, src, PushTopSelects(tb, t, id).0)
    decreases Tops(t)
  {
    if t.op.Select? && |t.ins| == 1 {
      var b, x := t.op.pred, t.ins[0];
      if Useful(tb, b, x) {
        PushTops(tb, b, id, x);
        PushProvided(tb, src, b, id, x);
        PushTopProvided(tb, src, Push(tb, b, id, x), id + 1);
      } else {
        PushTopProvided(tb, src, x, id);
      }
    }
  }

  lemma {:induction false} SelectsPushedProvided(tb: L.Tables, src: seq<Source>, t: L.Plan, id: nat)
    requires Provided(tb, src, t)
    ensures Provided(tb, src, SelectsPushed(tb, t, id).0)
  {
    if OverSelect(t.op) && |t.ins| == 1 {
      SelectsPushedProvided(tb, src, t.ins[0], id);
    } else {
      PushTopProvided(tb, src, t, id);
    }
  }

  lemma RewrittenProvided(tb: L.Tables, src: seq<Source>, t: L.Plan, n: nat)
    requires Provided(tb, src, t)
    ensures Provided(tb, src, Rewritten(tb, t, n).0)
  {
    var t1 := RstreamNowRemoved(t);
    if t1 != t {
      WithoutNowProvided(tb, src, t.ins[0]);
    }
    if t1.op.Rstream? && |t1.ins| == 1 && Streamable(t1.ins[0]) {
      StreamedProvided(tb, src, t1.ins[0], n);
    }
    ProjectRemovedProvided(tb, src, AfterStreams(t, n).0);
    var (t3, n3) := AfterProject(tb, t, n);
    MadeBinaryProvided(tb, src, L.Cross, t3, n3);
    var (t4, n4) := AfterCross(tb, t, n);
    MadeBinaryProvided(tb, src, L.StreamCross, t4, n4);
    var (t5, n5) := AfterBinary(tb, t, n);
    SelectsPushedProvided(tb, src, t5, n5);
  }

  // ---------------------------------------------------------------- the whole way

  /** The generated plan of an accepted query over registered tables can be translated. */
  lemma GeneratedTranslatable(pool: Pool, src: seq<Source>, q: Query, t: L.Plan, n: nat)
    requires Accepted(pool.tables, q) && Buildable(pool.tables, q) && Shape(t) == QueryPlan(pool.tables, q)
    requires pool.Holds(Rewritten(pool.tables, t, n).0) && Provided(pool.tables, src, QueryPlan(pool.tables, q))
    ensures Translatable(pool, src, Rewritten(pool.tables, t, n).0) && AllBinary(Rewritten(pool.tables, t, n).0)
  {
    RewrittenSound(pool.tables, q, t, n);
    RewrittenBinary(pool.tables, q, t, n);
    ShapeProvided(pool.tables, src, t);
    RewrittenProvided(pool.tables, src, t, n);
  }

  /** Every reference of the generated plan resolves. */
  lemma RewrittenSound(tb: L.Tables, q: Query, t: L.Plan, n: nat)
    requires Accepted(tb, q) && Shape(t) == QueryPlan(tb, q)
    ensures L.Sound(tb, Rewritten(tb, t, n).0)
  {
    hide L.Sound, L.Alike;
    QueryPlanSound(tb, q);
    ShapeSchema(tb, t);
    FinishSound(tb, t, n);
    SelectsPushedAlike(Steady(tb), 0, tb, AfterBinary(tb, t, n).0, AfterBinary(tb, t, n).1);
  }

  lemma RewrittenBinary(tb: L.Tables, q: Query, t: L.Plan, n: nat)
    requires Accepted(tb, q) && Buildable(tb, q) && Shape(t) == QueryPlan(tb, q)
    ensures AllBinary(Rewritten(tb, t, n).0)
  {
    NaiveStacked(tb, q);
    ShapeStacked(t);
    NaiveUnfinished(tb, q);
    ShapeUnfinished(t);
    RewrittenForm(tb, t, n);
  }

  /** The naive plan of an accepted query computes what the query means. */
  lemma QueryPlanMeans(env: Env, n: nat, tb: L.Tables, q: Query)
    requires Accepted(tb, q) && L.Matches(env, tb)
    ensures L.Meaning(env, n, tb, QueryPlan(tb, q)) == Q.QueryMeaning(env, n, tb, q)
  {
    if q.Sfw? {
      Q.SfwMeans(env, n, tb, q);
    } else {
      Q.BinaryMeans(env, n, tb, q);
    }
  }

  /**
   Under every interpretation the generated plan computes what the query means, exactly when the query
   is harmless or joins a window that covers no time.
   */
  lemma GeneratedExactly(tb: L.Tables, q: Query, t: L.Plan, id: nat)
    requires WellFormed(tb, q) && JoinFits(tb, q) && Shape(t) == SfwPlan(tb, q)
    ensures (forall env: Env, n: nat :: L.Matches(env, tb) && GroupsRepeat(env) && EmptyAlike(env) ==>
               L.Meaning(env, n, tb, Rewritten(tb, t, id).0) == Q.QueryMeaning(env, n, tb, q))
       <==> Harmless(tb, q) || HasClosedWindow(tb, q)
  {
    assert Bound(q);
    hide WellFormed, L.Matches, GroupsRepeat, EmptyAlike, Harmless, JoinFits, Rewritten, SfwPlan, Shape;
    if Harmless(tb, q) || HasClosedWindow(tb, q) {
      RewritingExactly(tb, q, t, id);
      forall env: Env, n: nat | L.Matches(env, tb) && GroupsRepeat(env) && EmptyAlike(env)
        ensures L.Meaning(env, n, tb, Rewritten(tb, t, id).0) == Q.QueryMeaning(env, n, tb, q)
      {
        Q.SfwMeans(env, n, tb, q);
      }
    } else {
      var env := RewritingTells(tb, q, t, id);
      Q.SfwMeans(env, 2, tb, q);
    }
  }

  /** The operator a harmless query was compiled to produces what the query means, at every instant. */
  lemma QueryAnswered(env: Env, n: nat, tb: L.Tables, src: seq<Source>, g: P.Graph, live: set<nat>, rank: seq<nat>, op: nat,
                      q: Query, t: L.Plan, id: nat)
    requires Accepted(tb, q) && Harmless(tb, q) && Shape(t) == QueryPlan(tb, q)
    requires P.Wf(g, live, rank) && SourcesIn(src, live) && Compiled(tb, src, g, live, rank, op, Rewritten(tb, t, id).0)
    requires Agrees(env, n, tb, src, g, live, rank) && GroupsRepeat(env)
    ensures P.Meaning(env, n, g, live, rank, op) == Q.QueryMeaning(env, n, tb, q)
  {
    hide WellFormed;
    RewritingKeepsMeaning(env, n, tb, q, t, id);
    QueryPlanMeans(env, n, tb, q);
  }

  /**
   After both halves of the optimizer, the output of a harmless query still delivers at every instant
   what the query means.
   */
  lemma OutputAnswered(env: Env, n: nat, tb: L.Tables, src: seq<Source>, g: P.Graph, live: set<nat>, rank: seq<nat>,
                       query: nat, out: nat, queryId: nat, outputId: nat, q: Query, t: L.Plan, id: nat,
                       g1: P.Graph, live1: set<nat>, rank1: seq<nat>, g2: P.Graph, live2: set<nat>, rank2: seq<nat>)
    requires Accepted(tb, q) && Harmless(tb, q) && Shape(t) == QueryPlan(tb, q)
    requires P.Wf(g, live, rank) && SourcesIn(src, live) && P.SourcesFit(env, g, live)
    requires InPlan(tb, src, g, live, rank, query, At(out), queryId, outputId, true, Rewritten(tb, t, id).0)
    requires P.Wf(g1, live1, rank1) && SameOutputs(g, live, rank, g1, live1, rank1)
    requires P.Wf(g2, live2, rank2) && SameOutputs(g1, live1, rank1, g2, live2, rank2)
    requires Agrees(env, n, tb, src, g, live, rank) && GroupsRepeat(env)
    ensures out in live2 && g2[out].payload == P.Output(outputId, queryId)
    ensures P.Meaning(env, n, g2, live2, rank2, out) == Q.QueryMeaning(env, n, tb, q)
  {
    QueryAnswered(env, n, tb, src, g, live, rank, out, q, t, id);
    SameOutputsTrans(g, live, rank, g1, live1, rank1, g2, live2, rank2);
    assert Delivers(env, n, g, live, rank, g2, live2, rank2);
  }
}
