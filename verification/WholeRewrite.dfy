/** The rewriting as a whole keeps what a query computes. */
module WholeRewrite {
  import opened Semantics
  import opened LogicalPlan
  import opened Products
  import opened RewriteNow
  import opened RewriteCross
  import opened RewriteProject
  import opened RewriteBinary
  import opened RewriteSelect
  import opened NaivePlan
  import opened NaiveGen
  import opened LogPlanGen
  import opened Stacks
  import opened ExactStreams

  // ---------------------------------------------------------------- plans up to slots mean the same

  lemma {:induction false} ShapeAlike(env: Env, n: nat, tb: Tables, t: Plan)
    ensures Alike(env, n, tb, Shape(t), t)
  {
    forall k | 0 <= k < |t.ins|
      ensures Shape(t).ins[k] == Shape(t.ins[k]) && Alike(env, n, tb, Shape(t).ins[k], t.ins[k])
    {
      ShapeAlike(env, n, tb, t.ins[k]);
    }
    AlikeInputs(env, n, tb, Shape(t), t);
  }

  /** The patterns of the transformations do not depend on slots. */
  lemma {:induction false} ShapeNow(t: Plan)
    ensures NowBelow(Shape(t)) == NowBelow(t)
    ensures NowBelow(t) ==> NoDistinct(Shape(t)) == NoDistinct(t)
  {
    if |t.ins| == 1 {
      assert Shape(t).ins[0] == Shape(t.ins[0]);
      ShapeNow(t.ins[0]);
    }
  }

  lemma {:induction false} ShapeCross(t: Plan)
    ensures CrossBelow(Shape(t)) == CrossBelow(t)
    ensures CrossBelow(t) ==>
      PlainPath(Shape(t)) == PlainPath(t) && Reordered(Shape(t)) == Reordered(t) && CrossOf(Shape(t)) == Shape(CrossOf(t))
  {
    if |t.ins| == 1 {
      assert Shape(t).ins[0] == Shape(t.ins[0]);
      ShapeCross(t.ins[0]);
    }
  }

  lemma {:induction false} ShapeNowAt(ts: seq<Plan>, us: seq<Plan>)
    requires |us| == |ts| && forall k :: 0 <= k < |ts| ==> us[k].op == ts[k].op
    ensures NowAt(us) == NowAt(ts)
  {
    if ts != [] {
      ShapeNowAt(ts[1..], us[1..]);
    }
  }

  lemma ShapeStreamable(t: Plan)
    ensures Streamable(Shape(t)) == Streamable(t)
  {
    ShapeCross(t);
    if CrossBelow(t) {
      var c := CrossOf(t);
      ShapeNowAt(c.ins, Shape(c).ins);
      assert NowAt(c.ins) < |c.ins| ==> |Shape(c).ins[NowAt(c.ins)].ins| == |c.ins[NowAt(c.ins)].ins|;
    }
  }

  // ---------------------------------------------------------------- when the rewriting is harmless

  predicate NowTable(tb: Tables, q: Query, k: nat)
    requires Bound(q) && k < |q.from|
  {
    tb.isStream(q.refTables[q.from[k]]) && q.windows[k].NowSpec?
  }

  predicate HasNowTable(tb: Tables, q: Query)
    requires Bound(q)
  {
    exists k :: 0 <= k < |q.from| && NowTable(tb, q, k)
  }

  /**
   Under an Rstream with a Now window, the rewriting must find nothing but selects and projects: no
   distinct, and over several tables no aggregation either.  Over one table an aggregation stops the
   search, so the plan is left alone.
   */
  predicate Harmless(tb: Tables, q: Query) {
    q.Sfw? && Bound(q) && q.r2s.ToRstream? && HasNowTable(tb, q) ==>
      if |q.from| == 1 then Aggregates(q) || !q.distinct else !Aggregates(q) && !q.distinct
  }

  /** The conditions of the two stream transformations. */
  ghost predicate Plain(t: Plan) {
    && (t.op.Rstream? && |t.ins| == 1 && NowBelow(t.ins[0]) ==> NoDistinct(t.ins[0]))
    && (t.op.Rstream? && |t.ins| == 1 && !NowBelow(t.ins[0]) && Streamable(t.ins[0]) ==> PlainPath(t.ins[0]) && Reordered(t.ins[0]))
  }

  lemma ShapePlain(t: Plan)
    ensures Plain(Shape(t)) == Plain(t)
  {
    if |t.ins| == 1 {
      assert Shape(t).ins[0] == Shape(t.ins[0]);
      ShapeNow(t.ins[0]);
      ShapeCross(t.ins[0]);
      ShapeStreamable(t.ins[0]);
    }
  }

  lemma {:induction false} SelectPlanPaths(refTables: seq<nat>, preds: seq<SemPred>, t: Plan)
    ensures var u := SelectPlan(refTables, preds, t);
      && NowBelow(u) == NowBelow(t) && (NowBelow(t) ==> NoDistinct(u) == NoDistinct(t))
      && CrossBelow(u) == CrossBelow(t)
      && (CrossBelow(t) ==> PlainPath(u) == PlainPath(t) && Reordered(u) == Reordered(t) && CrossOf(u) == CrossOf(t))
  {
    if preds != [] {
      SelectPlanPaths(refTables, preds[..|preds| - 1], t);
    }
  }

  lemma JoinPlanPaths(tb: Tables, q: Query)
    requires Bound(q)
    ensures var u := JoinPlan(tb, q);
      && (NowBelow(u) <==> |q.from| == 1 && NowTable(tb, q, 0)) && (NowBelow(u) ==> NoDistinct(u))
      && (CrossBelow(u) <==> |q.from| > 1)
      && (CrossBelow(u) ==> PlainPath(u) && CrossOf(u) == u && (NowAt(u.ins) < |u.ins| <==> HasNowTable(tb, q)))
  {
    var u := JoinPlan(tb, q);
    forall k | 0 <= k < |q.from|
      ensures TablePlan(tb, q, k).op.NowWin? == NowTable(tb, q, k) && !OverNow(TablePlan(tb, q, k).op)
      ensures !CrossBelow(TablePlan(tb, q, k))
    {
    }
    if |q.from| > 1 {
      assert u.ins == TablePlans(tb, q);
      if NowAt(u.ins) < |u.ins| {
        assert NowTable(tb, q, NowAt(u.ins));
      }
      if HasNowTable(tb, q) {
        var k :| 0 <= k < |q.from| && NowTable(tb, q, k);
        assert u.ins[k] == TablePlan(tb, q, k);
      }
    }
  }

  lemma UpToAggrPaths(tb: Tables, q: Query)
    requires Bound(q)
    ensures var u := UpToAggr(tb, q);
      && (NowBelow(u) <==> !Aggregates(q) && |q.from| == 1 && NowTable(tb, q, 0)) && (NowBelow(u) ==> NoDistinct(u))
      && (CrossBelow(u) <==> |q.from| > 1)
      && (CrossBelow(u) ==> (PlainPath(u) <==> !Aggregates(q)) && CrossOf(u) == JoinPlan(tb, q))
  {
    JoinPlanPaths(tb, q);
    SelectPlanPaths(q.refTables, q.preds, JoinPlan(tb, q));
  }

  /** The condition on the query is the condition on its naive plan. */
  lemma HarmlessPlain(tb: Tables, q: Query)
    requires Bound(q)
    ensures Harmless(tb, q) <==> Plain(SfwPlan(tb, q))
  {
    var u := UpToAggr(tb, q);
    UpToAggrPaths(tb, q);
    JoinPlanPaths(tb, q);
    OverPaths(q, u);
    if q.r2s.ToRstream? {
      if CrossBelow(u) {
        HasNowInput(tb, q);
      }
    }
  }

  lemma OverPaths(q: Query, u: Plan)
    requires q.Sfw?
    ensures var over := DistinctPlan(q, ProjectPlan(q, u));
      && (NowBelow(over) <==> NowBelow(u)) && (NowBelow(u) ==> (NoDistinct(over) <==> !q.distinct && NoDistinct(u)))
      && (CrossBelow(over) <==> CrossBelow(u))
      && (CrossBelow(u) ==> CrossOf(over) == CrossOf(u) && Reordered(over) && (PlainPath(over) <==> PlainPath(u) && !q.distinct))
  {
    var project := ProjectPlan(q, u);
    assert CrossBelow(project) == CrossBelow(u);
    if CrossBelow(u) {
      assert CrossOf(project) == CrossOf(u) && PlainPath(project) == PlainPath(u);
    }
    assert NowBelow(project) == NowBelow(u);
  }

  lemma HasNowInput(tb: Tables, q: Query)
    requires Bound(q) && |q.from| > 1
    ensures HasNow(JoinPlan(tb, q)) <==> HasNowTable(tb, q)
  {
    var u := JoinPlan(tb, q);
    JoinPlanPaths(tb, q);
    if NowAt(u.ins) < |u.ins| {
      assert u.ins[NowAt(u.ins)] == TablePlan(tb, q, NowAt(u.ins));
    }
  }

  // ---------------------------------------------------------------- the project that may be removed

  /** Names are unique, or the plan is an aggregation whose repeated columns are equal. */
  ghost predicate Distinguishes(tb: Tables, t: Plan) {
    || Unique(SchemaOf(tb, t))
    || (t.op.GroupAggr? && |t.ins| == 1 && Unique(AggrSchema(tb, t.op.aggrs))
        && forall k :: 0 <= k < |t.op.groups| ==> t.op.groups[k].Named?)
  }

  /** There is a project below operators that keep the schema, and its input distinguishes its columns. */
  ghost predicate Projectable(tb: Tables, t: Plan) {
    if t.op.Project? then |t.ins| == 1 && Distinguishes(tb, t.ins[0])
    else OverProject(t.op) && |t.ins| == 1 && Projectable(tb, t.ins[0])
  }

  lemma {:induction false} ProjectableTelling(env: Env, n: nat, tb: Tables, t: Plan)
    requires Projectable(tb, t) && Sensible(env) && GroupsRepeat(env)
    ensures Telling(env, n, tb, t)
  {
    if t.op.Project? {
      if Unique(SchemaOf(tb, t.ins[0])) {
        UniqueTells(env, n, tb, t.ins[0]);
      } else {
        GroupTells(env, n, tb, t.ins[0]);
      }
    } else if OverProject(t.op) && |t.ins| == 1 {
      ProjectableTelling(env, n, tb, t.ins[0]);
    }
  }

  lemma {:induction false} WithoutNowProjectable(tb: Tables, t: Plan)
    requires NowBelow(t) && Sound(tb, t) && Projectable(tb, t)
    ensures Projectable(tb, WithoutNow(t))
  {
    if t.op.Project? {
      WithoutNowSchema(tb, t.ins[0]);
    } else {
      WithoutNowProjectable(tb, t.ins[0]);
    }
  }

  lemma {:induction false} StreamedProjectable(tb: Tables, t: Plan, id: nat)
    requires Streamable(t) && Sound(tb, t) && Projectable(tb, t)
    ensures Projectable(tb, Streamed(t, id))
  {
    if t.op.Project? {
      if Unique(SchemaOf(tb, t.ins[0])) {
        var off, w := StreamedShape(tb, t.ins[0], id);
        FrontUnique(off, w, SchemaOf(tb, t.ins[0]));
      }
    } else {
      StreamedProjectable(tb, t.ins[0], id);
    }
  }

  lemma AfterStreamsProjectable(tb: Tables, t: Plan, n: nat)
    requires Sound(tb, t) && Projectable(tb, t)
    ensures Projectable(tb, AfterStreams(t, n).0)
  {
    var t1 := RstreamNowRemoved(t);
    if t1 != t {
      WithoutNowProjectable(tb, t.ins[0]);
      WithoutNowRoot(t.ins[0]);
    } else if t1.op.Rstream? && Streamable(t1.ins[0]) {
      StreamedProjectable(tb, t1.ins[0], n);
    }
  }

  /** There is no Rstream left at the root. */
  lemma {:induction false} WithoutNowRoot(t: Plan)
    requires NowBelow(t) && !t.op.NowWin?
    ensures !WithoutNow(t).op.Rstream?
  {
  }

  /** The naive plan has its project where the search finds it. */
  lemma NaiveProjectable(tb: Tables, q: Query)
    requires WellFormed(tb, q)
    ensures Projectable(tb, SfwPlan(tb, q))
  {
    var u := UpToAggr(tb, q);
    UpToAggrShape(tb, q);
    JoinPlanShape(tb, q);
    if Aggregates(q) {
      AggrsUnique(tb, q);
      forall k | 0 <= k < |q.groups|
        ensures LogAttrs(q.refTables, q.groups)[k].Named?
      {
        assert InFrom(tb, q, q.groups[k]);
      }
    }
    assert Distinguishes(tb, u);
    OverProjectable(tb, q, u);
  }

  lemma OverProjectable(tb: Tables, q: Query, u: Plan)
    requires q.Sfw? && Distinguishes(tb, u)
    ensures Projectable(tb, R2SPlan(q.r2s, DistinctPlan(q, ProjectPlan(q, u))))
  {
    var project := ProjectPlan(q, u);
    assert Projectable(tb, project);
    assert Projectable(tb, DistinctPlan(q, project));
  }

  /** No two aggregates of an aggregation operator have the same name. */
  lemma AggrsUnique(tb: Tables, q: Query)
    requires WellFormed(tb, q) && Aggregates(q)
    ensures Unique(AggrSchema(tb, CollectedAll(q.refTables, q.projs)))
  {
    var aggrs := CollectedAll(q.refTables, q.projs);
    var s := AggrSchema(tb, aggrs);
    CollectedAllHas(q.refTables, q.projs);
    forall j, k | 0 <= j < k < |s|
      ensures !Same(s[j], s[k])
    {
      AggrFinds(tb, q, j);
      AggrFinds(tb, q, k);
      assert aggrs[j] != aggrs[k];
    }
  }

  /** Whether t is projectable does not depend on slots. */
  lemma {:induction false} ShapeProjectable(tb: Tables, t: Plan)
    ensures Projectable(tb, Shape(t)) == Projectable(tb, t)
  {
    if |t.ins| == 1 {
      var x := t.ins[0];
      assert Shape(t).ins[0] == Shape(x);
      ShapeProjectable(tb, x);
      ShapeSchema(tb, x);
    }
  }

  // ---------------------------------------------------------------- the theorem

  lemma AfterStreamsAlike(env: Env, n: nat, tb: Tables, t: Plan, id: nat)
    requires Sound(tb, t) && Matches(env, tb) && Plain(t) && Projectable(tb, t)
    ensures Alike(env, n, tb, t, AfterStreams(t, id).0)
  {
    var t1 := RstreamNowRemoved(t);
    RstreamNowAlike(env, n, tb, t);
    if t1 != t {
      WithoutNowRoot(t.ins[0]);
    } else {
      StreamCrossAlike(env, n, tb, t, id);
    }
  }

  /** What comes after the streams keeps a plan alike. */
  lemma FinishAlike(env: Env, n: nat, tb: Tables, t: Plan, id: nat)
    requires Sound(tb, t) && Matches(env, tb) && GroupsRepeat(env) && Projectable(tb, t)
    ensures Alike(env, n, tb, AfterStreams(t, id).0, Rewritten(tb, t, id).0)
  {
    var t2, t3 := AfterStreams(t, id).0, AfterProject(tb, t, id).0;
    var t4, t5 := AfterCross(tb, t, id).0, AfterBinary(tb, t, id).0;
    AfterStreamsSound(tb, t, id);
    AfterStreamsProjectable(tb, t, id);
    ProjectableTelling(env, n, tb, t2);
    ProjectRemovedAlike(env, n, tb, t2);
    MadeBinaryAlike(env, n, tb, Cross, t3, AfterProject(tb, t, id).1);
    MadeBinaryAlike(env, n, tb, StreamCross, t4, AfterCross(tb, t, id).1);
    SelectsPushedAlike(env, n, tb, t5, AfterBinary(tb, t, id).1);
    AlikeChain(env, n, tb, t2, t3, t4, t5, Rewritten(tb, t, id).0);
  }

  /** Everything the rewriting does keeps a plan alike, if it finds nothing but selects and projects on its way. */
  lemma RewrittenAlike(env: Env, n: nat, tb: Tables, t: Plan, id: nat)
    requires Sound(tb, t) && Matches(env, tb) && GroupsRepeat(env) && Plain(t) && Projectable(tb, t)
    ensures Alike(env, n, tb, t, Rewritten(tb, t, id).0)
  {
    AfterStreamsAlike(env, n, tb, t, id);
    FinishAlike(env, n, tb, t, id);
    AlikeTrans(env, n, tb, t, AfterStreams(t, id).0, Rewritten(tb, t, id).0);
  }

  lemma AlikeChain(env: Env, n: nat, tb: Tables, t2: Plan, t3: Plan, t4: Plan, t5: Plan, t6: Plan)
    requires Alike(env, n, tb, t2, t3) && Alike(env, n, tb, t3, t4)
    requires Alike(env, n, tb, t4, t5) && Alike(env, n, tb, t5, t6)
    ensures Alike(env, n, tb, t2, t6)
  {
  }

  /** The plan of a union or difference is left as it is. */
  lemma BinaryUntouched(tb: Tables, q: Query, t: Plan, id: nat)
    requires q.BinaryOp? && |q.refTables| == 2 && Shape(t) == BinaryPlan(tb, q)
    ensures Rewritten(tb, t, id).0 == t
  {
    var u := if OverSelect(t.op) then t.ins[0] else t;
    if OverSelect(t.op) {
      assert Shape(t).ins[0] == Shape(u);
      assert t.ins == [u];
    }
    assert u.op.Union? || u.op.Except?;
    assert AfterStreams(t, id) == (t, id);
    assert ProjectRemoved(tb, u) == u && ProjectRemoved(tb, t) == t;
    BinaryUnmade(Cross, t, u, id);
    BinaryUnmade(StreamCross, t, u, id);
    assert SelectsPushed(tb, u, id) == (u, id) && SelectsPushed(tb, t, id) == (t, id);
  }

  lemma BinaryUnmade(op: Payload, t: Plan, u: Plan, id: nat)
    requires IsProduct(op) && (u.op.Union? || u.op.Except?) && (t == u || (t.ins == [u] && OverSelect(t.op)))
    ensures MadeBinary(op, t, id) == t && Needed(op, t) == 0
  {
    assert MadeBinary(op, u, id) == u && Needed(op, u) == 0;
  }

  /**
   The rewritten plan computes what the naive plan computes: the same tuples, in the same column
   order, at every instant.
   */
  lemma RewritingKeepsMeaning(env: Env, n: nat, tb: Tables, q: Query, t: Plan, id: nat)
    requires Accepted(tb, q) && Harmless(tb, q) && Shape(t) == QueryPlan(tb, q)
    requires Matches(env, tb) && GroupsRepeat(env)
    ensures Alike(env, n, tb, QueryPlan(tb, q), Rewritten(tb, t, id).0)
  {
    ShapeAlike(env, n, tb, t);
    QueryPlanSound(tb, q);
    ShapeSchema(tb, t);
    if q.Sfw? {
      HarmlessPlain(tb, q);
      ShapePlain(t);
      NaiveProjectable(tb, q);
      ShapeProjectable(tb, t);
      RewrittenAlike(env, n, tb, t, id);
      AlikeTrans(env, n, tb, QueryPlan(tb, q), t, Rewritten(tb, t, id).0);
    } else {
      BinaryUntouched(tb, q, t, id);
    }
  }

  // ---------------------------------------------------------------- exactly when

  /** The window of some stream covers no time, so that the join is always empty. */
  predicate HasClosedWindow(tb: Tables, q: Query)
    requires Bound(q)
  {
    exists k :: 0 <= k < |q.from| && ClosedTable(tb, q, k)
  }

  predicate ClosedTable(tb: Tables, q: Query, k: nat)
    requires Bound(q) && k < |q.from|
  {
    tb.isStream(q.refTables[q.from[k]]) && q.windows[k].RangeSpec? && q.windows[k].units == 0
  }

  lemma {:induction false} StackedNow(tb: Tables, t: Plan)
    requires NowBelow(t) && Stacked(FlatForm, t) && Sound(tb, t)
    ensures NowOverSource(t)
  {
    if t.op.NowWin? {
      assert Leaf(t);
      assert Flags(t.ins)[0] == IsStream(t.ins[0]);
      SchemaStep(tb, t.ins[0]);
    } else {
      if t.op.Select? {
        BelowSelect(FlatForm, t);
      }
      StackedNow(tb, t.ins[0]);
    }
  }

  /** The inputs of the cross product are the tables with their windows. */
  lemma CrossLeaves(tb: Tables, q: Query, x: Plan)
    requires Bound(q) && |q.from| > 1
    requires CrossBelow(x) && CrossBelow(Shape(x)) && CrossOf(Shape(x)) == JoinPlan(tb, q)
    ensures Leaves(CrossOf(x).ins) && (AnyClosed(CrossOf(x).ins) <==> HasClosedWindow(tb, q))
  {
    var c := CrossOf(x);
    ShapeCross(x);
    forall k | 0 <= k < |c.ins|
      ensures Leaf(c.ins[k]) && (Closed(c.ins[k]) <==> ClosedTable(tb, q, k))
    {
      assert Shape(c).ins[k] == Shape(c.ins[k]) == TablePlan(tb, q, k);
      TableLeaf(tb, q, k, c.ins[k]);
    }
  }

  lemma TableLeaf(tb: Tables, q: Query, k: nat, t: Plan)
    requires Bound(q) && k < |q.from| && Shape(t) == TablePlan(tb, q, k)
    ensures Leaf(t) && (Closed(t) <==> ClosedTable(tb, q, k))
  {
    TablePlanLeaf(tb, q, k);
    ShapeStacked(t);
  }

  /** Where the streams are changed but not plainly, some interpretation tells the plans apart. */
  lemma StreamsTell(tb: Tables, q: Query, t: Plan, id: nat) returns (env: Env)
    requires WellFormed(tb, q) && JoinFits(tb, q) && Shape(t) == SfwPlan(tb, q) && !Harmless(tb, q) && !HasClosedWindow(tb, q)
    ensures Matches(env, tb) && GroupsRepeat(env) && EmptyAlike(env)
    ensures Meaning(env, 2, tb, AfterStreams(t, id).0) != Meaning(env, 2, tb, t)
  {
    hide Sound;
    SfwPlanSound(tb, q);
    ShapeSchema(tb, t);
    HarmlessPlain(tb, q);
    ShapePlain(t);
    var x := t.ins[0];
    assert Shape(t).ins[0] == Shape(x);
    if NowBelow(x) {
      env := NowTells(tb, q, t, id);
    } else {
      CrossInNaive(tb, q, x);
      CrossLeaves(tb, q, x);
      env := StreamCrossTells(tb, t, id);
    }
  }

  lemma NowTells(tb: Tables, q: Query, t: Plan, id: nat) returns (env: Env)
    requires WellFormed(tb, q) && JoinFits(tb, q) && Shape(t) == SfwPlan(tb, q) && Sound(tb, t)
    requires t.op.Rstream? && |t.ins| == 1 && NowBelow(t.ins[0]) && !NoDistinct(t.ins[0])
    ensures Matches(env, tb) && GroupsRepeat(env) && EmptyAlike(env)
    ensures Meaning(env, 2, tb, AfterStreams(t, id).0) != Meaning(env, 2, tb, t)
  {
    NaiveStacked(tb, q);
    ShapeStacked(t);
    assert Shape(t).ins[0] == Shape(t.ins[0]);
    StackedNow(tb, t.ins[0]);
    RstreamNowTells(tb, t);
    env := Steady(tb);
    WithoutNowRoot(t.ins[0]);
  }

  /** The cross product of the naive plan is the join; and there is a project above it. */
  lemma CrossInNaive(tb: Tables, q: Query, x: Plan)
    requires Bound(q) && Shape(x) == DistinctPlan(q, ProjectPlan(q, UpToAggr(tb, q))) && CrossBelow(x)
    ensures |q.from| > 1 && CrossBelow(Shape(x)) && CrossOf(Shape(x)) == JoinPlan(tb, q) && Reordered(x)
  {
    ShapeCross(x);
    OverPaths(q, UpToAggr(tb, q));
    UpToAggrPaths(tb, q);
  }

  /** If the join is always empty, changing the streams changes nothing, whatever the query. */
  lemma StreamsSilent(env: Env, n: nat, tb: Tables, q: Query, t: Plan, id: nat)
    requires WellFormed(tb, q) && JoinFits(tb, q) && Shape(t) == SfwPlan(tb, q) && !Harmless(tb, q) && HasClosedWindow(tb, q)
    requires Matches(env, tb) && EmptyAlike(env)
    ensures Meaning(env, n, tb, AfterStreams(t, id).0) == Meaning(env, n, tb, t)
  {
    hide Sound, Meaning;
    SfwPlanSound(tb, q);
    ShapeSchema(tb, t);
    HarmlessPlain(tb, q);
    ShapePlain(t);
    var x := t.ins[0];
    assert Shape(t).ins[0] == Shape(x);
    ClosedNotNow(tb, q, x);
    CrossInNaive(tb, q, x);
    CrossLeaves(tb, q, x);
    StreamCrossSilent(env, n, tb, t, id);
  }

  /** With a window that covers no time besides the Now window there are at least two tables. */
  lemma ClosedNotNow(tb: Tables, q: Query, x: Plan)
    requires Bound(q) && Shape(x) == DistinctPlan(q, ProjectPlan(q, UpToAggr(tb, q))) && HasClosedWindow(tb, q)
    ensures !NowBelow(x)
  {
    UpToAggrPaths(tb, q);
    OverPaths(q, UpToAggr(tb, q));
    ShapeNow(x);
  }

  /**
   Under every interpretation the rewritten plan computes what the naive plan computes, exactly when
   the query is harmless or joins a window that covers no time.
   */
  lemma RewritingExactly(tb: Tables, q: Query, t: Plan, id: nat)
    requires WellFormed(tb, q) && JoinFits(tb, q) && Shape(t) == SfwPlan(tb, q)
    ensures (forall env: Env, n: nat :: Matches(env, tb) && GroupsRepeat(env) && EmptyAlike(env) ==>
               Meaning(env, n, tb, Rewritten(tb, t, id).0) == Meaning(env, n, tb, SfwPlan(tb, q)))
       <==> Harmless(tb, q) || HasClosedWindow(tb, q)
  {
    if Harmless(tb, q) || HasClosedWindow(tb, q) {
      forall env: Env, n: nat | Matches(env, tb) && GroupsRepeat(env) && EmptyAlike(env)
        ensures Meaning(env, n, tb, Rewritten(tb, t, id).0) == Meaning(env, n, tb, SfwPlan(tb, q))
      {
        if Harmless(tb, q) {
          RewritingKeepsMeaning(env, n, tb, q, t, id);
        } else {
          StreamsSilent(env, n, tb, q, t, id);
          FinishNaive(env, n, tb, q, t, id);
        }
      }
    } else {
      var env := RewritingTells(tb, q, t, id);
    }
  }

  /** What comes after the streams keeps the meaning. */
  lemma FinishNaive(env: Env, n: nat, tb: Tables, q: Query, t: Plan, id: nat)
    requires WellFormed(tb, q) && JoinFits(tb, q) && Shape(t) == SfwPlan(tb, q)
    requires Matches(env, tb) && GroupsRepeat(env)
    ensures Meaning(env, n, tb, Rewritten(tb, t, id).0) == Meaning(env, n, tb, AfterStreams(t, id).0)
    ensures Meaning(env, n, tb, SfwPlan(tb, q)) == Meaning(env, n, tb, t)
  {
    SfwPlanSound(tb, q);
    ShapeSchema(tb, t);
    NaiveProjectable(tb, q);
    ShapeProjectable(tb, t);
    FinishAlike(env, n, tb, t, id);
    ShapeAlike(env, n, tb, t);
  }

  lemma RewritingTells(tb: Tables, q: Query, t: Plan, id: nat) returns (env: Env)
    requires WellFormed(tb, q) && JoinFits(tb, q) && Shape(t) == SfwPlan(tb, q) && !Harmless(tb, q) && !HasClosedWindow(tb, q)
    ensures Matches(env, tb) && GroupsRepeat(env) && EmptyAlike(env)
    ensures Meaning(env, 2, tb, Rewritten(tb, t, id).0) != Meaning(env, 2, tb, SfwPlan(tb, q))
  {
    env := StreamsTell(tb, q, t, id);
    FinishNaive(env, 2, tb, q, t, id);
  }

  // ---------------------------------------------------------------- a query that is changed

  /** SELECT RSTREAM DISTINCT a FROM S [NOW], with a the first attribute of the stream with number s. */
  function DistinctNow(s: nat): Query {
    Sfw([s], [0], [NowSpec], [], [Attribute(SemAttr(0, 0))], [], true, ToRstream)
  }

  /** The rewriting makes this query deliver every tuple once for ever, not once at each instant. */
  lemma DistinctNowChanged(tb: Tables, s: nat, t: Plan, id: nat) returns (env: Env)
    requires tb.isStream(s) && 0 < tb.width(s) && Shape(t) == SfwPlan(tb, DistinctNow(s))
    ensures Matches(env, tb) && GroupsRepeat(env) && EmptyAlike(env)
    ensures Meaning(env, 2, tb, Rewritten(tb, t, id).0) != Meaning(env, 2, tb, SfwPlan(tb, DistinctNow(s)))
  {
    DistinctNowMet(tb, s);
    env := RewritingTells(tb, DistinctNow(s), t, id);
  }

  lemma DistinctNowMet(tb: Tables, s: nat)
    requires tb.isStream(s) && 0 < tb.width(s)
    ensures var q := DistinctNow(s); WellFormed(tb, q) && JoinFits(tb, q) && !Harmless(tb, q) && !HasClosedWindow(tb, q)
  {
    var q := DistinctNow(s);
    var e := Attribute(SemAttr(0, 0));
    assert q.projs[..0] == [] && q.projs == [e];
    assert CollectedAll(q.refTables, q.projs) == Collected(q.refTables, e, CollectedAll(q.refTables, q.projs[..0]));
    assert CollectedAll(q.refTables, []) == [];
    assert !Aggregates(q);
    assert InFrom(tb, q, SemAttr(0, 0)) && PlainExpr(tb, q, e);
    assert NowTable(tb, q, 0);
  }
}
