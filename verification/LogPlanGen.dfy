/** From a query to its rewritten logical plan. */
module LogPlanGen {
  import opened Common
  import opened LogicalPlan
  import opened LogicalTrees
  import opened LogicalOps
  import opened Products
  import opened RewriteNow
  import opened RewriteCross
  import opened RewriteProject
  import opened RewriteBinary
  import opened RewriteSelect
  import opened PushedForm
  import opened Stacks
  import opened FinalForm
  import opened NaivePlan
  import opened NaiveGen
  import opened TransformNow
  import opened TransformCross
  import opened TransformProject
  import opened TransformBinary
  import opened TransformSelect

  /** A plan and the next free slot. */
  type Stage = (Plan, nat)

  ghost function AfterStreams(t: Plan, n: nat): Stage {
    var t1 := RstreamNowRemoved(t);
    var t2 := StreamCrossed(t1, n);
    (t2, if t2 == t1 then n else n + 1)
  }

  ghost function AfterProject(tb: Tables, t: Plan, n: nat): Stage {
    (ProjectRemoved(tb, AfterStreams(t, n).0), AfterStreams(t, n).1)
  }

  ghost function MakeStage(op: Payload, s: Stage): Stage {
    (MadeBinary(op, s.0, s.1), s.1 + Needed(op, s.0))
  }

  ghost function AfterCross(tb: Tables, t: Plan, n: nat): Stage {
    MakeStage(Cross, AfterProject(tb, t, n))
  }

  ghost function AfterBinary(tb: Tables, t: Plan, n: nat): Stage {
    MakeStage(StreamCross, AfterCross(tb, t, n))
  }

  /** All the rewriting, in the order in which it is done. */
  ghost function Rewritten(tb: Tables, t: Plan, n: nat): Stage {
    var (t5, n5) := AfterBinary(tb, t, n);
    SelectsPushed(tb, t5, n5)
  }

  // ---------------------------------------------------------------- the stages stay sound

  lemma RstreamNowSound(tb: Tables, t: Plan)
    requires Sound(tb, t)
    ensures Sound(tb, RstreamNowRemoved(t))
  {
    if t.op.Rstream? && NowBelow(t.ins[0]) {
      WithoutNowSchema(tb, t.ins[0]);
    }
  }

  lemma StreamCrossedSound(tb: Tables, t: Plan, n: nat)
    requires Sound(tb, t)
    ensures Sound(tb, StreamCrossed(t, n))
  {
    if t.op.Rstream? && Streamable(t.ins[0]) {
      var off, w := StreamedShape(tb, t.ins[0], n);
    }
  }

  lemma {:induction false} ProjectRemovedSound(tb: Tables, t: Plan)
    requires Sound(tb, t)
    ensures Sound(tb, ProjectRemoved(tb, t)) && SchemaOf(tb, ProjectRemoved(tb, t)) == SchemaOf(tb, t)
    ensures IsStream(ProjectRemoved(tb, t)) == IsStream(t)
  {
    var u := ProjectRemoved(tb, t);
    if Useless(tb, t) {
      UselessShape(tb, t);
    } else if OverProject(t.op) && |t.ins| == 1 {
      ProjectRemovedSound(tb, t.ins[0]);
      SchemaStep(tb, t);
      SchemaStep(tb, u);
      assert Schemas(tb, u.ins) == Schemas(tb, t.ins) && Flags(u.ins) == Flags(t.ins);
    }
  }

  lemma AfterStreamsSound(tb: Tables, t: Plan, n: nat)
    requires Sound(tb, t)
    ensures Sound(tb, AfterStreams(t, n).0)
  {
    RstreamNowSound(tb, t);
    StreamCrossedSound(tb, RstreamNowRemoved(t), n);
  }

  // ---------------------------------------------------------------- the stages keep the form

  lemma AfterStreamsStacked(t: Plan, n: nat)
    requires Stacked(FlatForm, t)
    ensures Stacked(FlatForm, AfterStreams(t, n).0) && NumSelects(AfterStreams(t, n).0) == NumSelects(t)
    ensures AfterStreams(t, n).1 <= n + 1
  {
    var t1 := RstreamNowRemoved(t);
    if t1 != t {
      WithoutNowStacked(t.ins[0]);
    }
    if t1.op.Rstream? && |t1.ins| == 1 && Streamable(t1.ins[0]) {
      StreamedStacked(t1.ins[0], n);
    }
  }

  lemma AfterBinaryStacked(tb: Tables, t: Plan, n: nat)
    requires Stacked(FlatForm, t)
    ensures Stacked(BinaryForm, AfterBinary(tb, t, n).0) && NumSelects(AfterBinary(tb, t, n).0) == NumSelects(t)
    ensures AfterBinary(tb, t, n).1 <= n + 2 * MAX_INPUT_OPS
  {
    AfterStreamsStacked(t, n);
    ProjectRemovedStacked(tb, FlatForm, AfterStreams(t, n).0);
    var (t3, n3) := AfterProject(tb, t, n);
    CrossBinaryStacked(t3, n3);
    var (t4, n4) := AfterCross(tb, t, n);
    StreamCrossBinaryStacked(t4, n4);
  }

  /**
   The form rewriting reaches: every product is binary, no select could be pushed further, no project
   below operators that keep the schema changes nothing, and there is no Rstream that could have been
   left out, nor one with a cross product below that could have been a stream cross product.
   */
  ghost predicate Finished(tb: Tables, t: Plan) {
    AllBinary(t) && Settled(tb, t) && NoIdleProject(tb, t) && RstreamNeeded(t)
  }

  /** Only the root may be an Rstream, and there is at most one project below operators that keep the schema. */
  ghost predicate Unfinished(t: Plan) {
    OneProject(t) && forall k :: 0 <= k < |t.ins| ==> NoRstreams(t.ins[k])
  }

  /** Neither of the two patterns with a Now window is left. */
  lemma AfterStreamsNeeded(t: Plan, n: nat)
    requires Stacked(FlatForm, t) && Unfinished(t)
    ensures RstreamNeeded(AfterStreams(t, n).0) && OneProject(AfterStreams(t, n).0)
  {
    if t.op.Rstream? && NowBelow(t.ins[0]) {
      WithoutNowNoRstreams(t.ins[0]);
      WithoutNowProjects(t.ins[0]);
      NoneNeeded(WithoutNow(t.ins[0]));
    } else if t.op.Rstream? && Streamable(t.ins[0]) {
      StreamedNoRstreams(t.ins[0], n);
      StreamedProjects(t.ins[0], n);
      NoneNeeded(Streamed(t.ins[0], n));
    } else if t.op.Rstream? && NowProduct(t.ins[0]) {
      ProductStreamable(t.ins[0]);
    }
  }

  lemma AfterStreamsPreds(t: Plan, n: nat)
    ensures Preds(AfterStreams(t, n).0) == Preds(t)
  {
    var t1 := RstreamNowRemoved(t);
    if t1 != t {
      PredsBelow(t);
      WithoutNowPreds(t.ins[0]);
    }
    if t1.op.Rstream? && |t1.ins| == 1 && Streamable(t1.ins[0]) {
      PredsBelow(t1);
      StreamedPreds(t1.ins[0], n);
    }
  }

  lemma RewrittenNeeded(tb: Tables, t: Plan, n: nat)
    requires Stacked(FlatForm, t) && Unfinished(t)
    ensures NoIdleProject(tb, Rewritten(tb, t, n).0) && RstreamNeeded(Rewritten(tb, t, n).0)
  {
    hide Stacked, Unfinished, NoIdleProject, RstreamNeeded, OneProject;
    AfterStreamsNeeded(t, n);
    RemovedNeeded(tb, AfterStreams(t, n).0);
    RemovedIdle(tb, AfterStreams(t, n).0);
    var (t3, n3) := AfterProject(tb, t, n);
    MadeBinaryNeeded(Cross, t3, n3);
    MadeBinaryIdle(tb, Cross, t3, n3);
    var (t4, n4) := AfterCross(tb, t, n);
    MadeBinaryNeeded(StreamCross, t4, n4);
    MadeBinaryIdle(tb, StreamCross, t4, n4);
    var (t5, n5) := AfterBinary(tb, t, n);
    SelectsPushedNeeded(tb, t5, n5);
    SelectsPushedIdle(tb, t5, n5);
  }

  lemma RewrittenPreds(tb: Tables, t: Plan, n: nat)
    ensures Preds(Rewritten(tb, t, n).0) == Preds(t)
  {
    hide Preds;
    AfterStreamsPreds(t, n);
    ProjectRemovedPreds(tb, AfterStreams(t, n).0);
    var (t3, n3) := AfterProject(tb, t, n);
    MadeBinaryPreds(Cross, t3, n3);
    var (t4, n4) := AfterCross(tb, t, n);
    MadeBinaryPreds(StreamCross, t4, n4);
    var (t5, n5) := AfterBinary(tb, t, n);
    SelectsPushedPreds(tb, t5, n5);
  }

  /** The rewritten plan is in the form rewriting reaches, with the predicates it started from. */
  lemma RewrittenForm(tb: Tables, t: Plan, n: nat)
    requires Stacked(FlatForm, t) && Unfinished(t)
    ensures Finished(tb, Rewritten(tb, t, n).0)
    ensures Preds(Rewritten(tb, t, n).0) == Preds(t)
    ensures Rewritten(tb, t, n).1 <= n + 2 * MAX_INPUT_OPS + NumSelects(t)
  {
    hide Preds, NoIdleProject, RstreamNeeded;
    var (t5, n5) := AfterBinary(tb, t, n);
    AfterBinaryStacked(tb, t, n);
    StackedBinary(tb, t5);
    SelectsPushedBinary(tb, t5, n5);
    SelectsPushedSettled(tb, t5, n5);
    RewrittenNeeded(tb, t, n);
    RewrittenPreds(tb, t, n);
  }

  // ---------------------------------------------------------------- the naive plan has the form

  lemma TablePlanLeaf(tb: Tables, q: Query, k: nat)
    requires Bound(q) && k < |q.from|
    ensures Leaf(TablePlan(tb, q, k))
  {
  }

  lemma {:induction false} SelectPlanLow(refTables: seq<nat>, preds: seq<SemPred>, t: Plan)
    requires FlatBase(t)
    ensures Low(FlatForm, SelectPlan(refTables, preds, t)) && Tops(SelectPlan(refTables, preds, t)) == |preds|
  {
    if preds != [] {
      SelectPlanLow(refTables, preds[..|preds| - 1], t);
    }
  }

  lemma {:induction false} SelectPlanPlain(refTables: seq<nat>, preds: seq<SemPred>, t: Plan)
    requires ProjectFree(t) && NoRstreams(t)
    ensures ProjectFree(SelectPlan(refTables, preds, t)) && NoRstreams(SelectPlan(refTables, preds, t))
  {
    if preds != [] {
      SelectPlanPlain(refTables, preds[..|preds| - 1], t);
    }
  }

  lemma JoinPlanPlain(tb: Tables, q: Query)
    requires Bound(q)
    ensures ProjectFree(JoinPlan(tb, q)) && NoRstreams(JoinPlan(tb, q))
  {
    forall k | 0 <= k < |q.from|
      ensures NoRstreams(TablePlan(tb, q, k))
    {
      assert TablePlan(tb, q, k).ins != [] ==> NoRstreams(TablePlan(tb, q, k).ins[0]);
    }
  }

  /** The naive plan has one project, and an Rstream at most at its root. */
  lemma NaiveUnfinished(tb: Tables, q: Query)
    requires if q.Sfw? then Bound(q) else |q.refTables| == 2
    ensures Unfinished(QueryPlan(tb, q))
  {
    if q.Sfw? {
      JoinPlanPlain(tb, q);
      SelectPlanPlain(q.refTables, q.preds, JoinPlan(tb, q));
      var project := ProjectPlan(q, UpToAggr(tb, q));
      assert OneProject(project) && NoRstreams(project);
      assert OneProject(DistinctPlan(q, project)) && NoRstreams(DistinctPlan(q, project));
    } else {
      assert forall k :: 0 <= k < 2 ==> NoRstreams(SourcePlan(tb, 0, q.refTables[k]));
    }
  }

  lemma {:induction false} ShapeUnfinished(t: Plan)
    ensures ProjectFree(Shape(t)) == ProjectFree(t) && OneProject(Shape(t)) == OneProject(t)
    ensures NoRstreams(Shape(t)) == NoRstreams(t) && Unfinished(Shape(t)) == Unfinished(t)
  {
    forall k | 0 <= k < |t.ins|
      ensures Shape(t).ins[k] == Shape(t.ins[k])
      ensures ProjectFree(Shape(t.ins[k])) == ProjectFree(t.ins[k]) && OneProject(Shape(t.ins[k])) == OneProject(t.ins[k])
      ensures NoRstreams(Shape(t.ins[k])) == NoRstreams(t.ins[k])
    {
      ShapeUnfinished(t.ins[k]);
    }
  }

  lemma NaiveStacked(tb: Tables, q: Query)
    requires if q.Sfw? then Bound(q) && JoinFits(tb, q) else |q.refTables| == 2
    ensures Stacked(FlatForm, QueryPlan(tb, q)) && NumSelects(QueryPlan(tb, q)) == if q.Sfw? then |q.preds| else 0
  {
    if q.Sfw? {
      var join := JoinPlan(tb, q);
      forall k | 0 <= k < |q.from|
        ensures Leaf(TablePlan(tb, q, k))
      {
        TablePlanLeaf(tb, q, k);
      }
      SelectPlanLow(q.refTables, q.preds, join);
      BelowSelect(FlatForm, SelectPlan(q.refTables, q.preds, join));
      OverStacked(q, UpToAggr(tb, q), |q.preds|);
    }
  }

  lemma OverStacked(q: Query, t: Plan, n: nat)
    requires q.Sfw? && Stacked(FlatForm, t) && NumSelects(t) == n
    ensures var u := R2SPlan(q.r2s, DistinctPlan(q, ProjectPlan(q, t))); Stacked(FlatForm, u) && NumSelects(u) == n
  {
    var project := ProjectPlan(q, t);
    assert Stacked(FlatForm, project) && NumSelects(project) == n;
    assert Stacked(FlatForm, DistinctPlan(q, project)) && NumSelects(DistinctPlan(q, project)) == n;
  }

  lemma {:induction false} ShapeStacked(t: Plan)
    ensures Leaf(Shape(t)) == Leaf(t) && FlatBase(Shape(t)) == FlatBase(t)
    ensures Low(FlatForm, Shape(t)) == Low(FlatForm, t) && Tops(Shape(t)) == Tops(t)
    ensures Stacked(FlatForm, Shape(t)) == Stacked(FlatForm, t) && NumSelects(Shape(t)) == NumSelects(t)
  {
    var u := Shape(t);
    forall k | 0 <= k < |t.ins|
      ensures u.ins[k] == Shape(t.ins[k])
      ensures Leaf(u.ins[k]) == Leaf(t.ins[k]) && Low(FlatForm, u.ins[k]) == Low(FlatForm, t.ins[k])
      ensures Tops(u.ins[k]) == Tops(t.ins[k]) && Stacked(FlatForm, u.ins[k]) == Stacked(FlatForm, t.ins[k])
      ensures NumSelects(u.ins[k]) == NumSelects(t.ins[k])
    {
      ShapeStacked(t.ins[k]);
    }
    assert |t.ins| == 1 ==> (u.ins[0].ins == [] <==> t.ins[0].ins == []);
    assert Leaves(u.ins) == Leaves(t.ins);
  }

  // ---------------------------------------------------------------- the generator

  /** An accepted query. */
  ghost predicate Accepted(tb: Tables, q: Query) {
    if q.Sfw? then WellFormed(tb, q)
    else |q.refTables| == 2 && tb.width(q.refTables[0]) == tb.width(q.refTables[1])
  }

  lemma QueryPlanSound(tb: Tables, q: Query)
    requires Accepted(tb, q)
    ensures Sound(tb, QueryPlan(tb, q))
  {
    if q.Sfw? {
      SfwPlanSound(tb, q);
    } else {
      BinaryPlanSound(tb, q);
    }
  }

  lemma BinaryPlanSound(tb: Tables, q: Query)
    requires q.BinaryOp? && Accepted(tb, q)
    ensures Sound(tb, BinaryPlan(tb, q))
  {
    var left, right := SourcePlan(tb, 0, q.refTables[0]), SourcePlan(tb, 0, q.refTables[1]);
    SchemaStep(tb, left);
    SchemaStep(tb, right);
    TwoSound(tb, if q.isUnion then Union else Except, left, right);
    R2SSound(tb, q.r2s, Plan(0, if q.isUnion then Union else Except, [left, right]));
  }

  lemma TwoSound(tb: Tables, op: Payload, left: Plan, right: Plan)
    requires (op.Union? || op.Except?) && Sound(tb, left) && Sound(tb, right)
    requires |SchemaOf(tb, left)| == |SchemaOf(tb, right)|
    ensures Sound(tb, Plan(0, op, [left, right]))
  {
    var ts := [left, right];
    assert Schemas(tb, ts)[0] == SchemaOf(tb, left) && Schemas(tb, ts)[1] == SchemaOf(tb, right);
  }

  /** The state between two transformations. */
  ghost predicate Holding(pool: Pool, plan: nat, t: Plan)
    reads pool, pool.ops
  {
    Ready(pool, plan, t) && Sound(pool.tables, t)
  }

  /**
   Generates the plan of a query.  It fails exactly if the joined tables or the aggregations of the
   query do not fit into an operator; otherwise it leaves the rewritten naive plan, in which nothing
   is left to rewrite, with the conditions of the naive plan.
   */
  method GenLogPlan(pool: Pool, q: Query) returns (rc: int, plan: nat, ghost t: Plan, ghost n: nat)
    requires pool.Valid() && WithinLimits(pool.tables, q) && Accepted(pool.tables, q)
    modifies pool, pool.ops
    ensures pool.Valid() && (rc == 0 <==> Buildable(pool.tables, q))
    ensures rc == 0 ==>
      && Shape(t) == QueryPlan(pool.tables, q)
      && Ready(pool, plan, Rewritten(pool.tables, t, n).0) && pool.count == Rewritten(pool.tables, t, n).1
    ensures rc == 0 ==> Finished(pool.tables, Rewritten(pool.tables, t, n).0) && Preds(Rewritten(pool.tables, t, n).0) == Preds(t)
  {
    hide Finished, Preds;
    pool.count := 0;
    rc, plan, t := GenPlan(pool, q);
    n := pool.count;
    if rc != 0 {
      return;
    }
    StartRewriting(pool.tables, q, t, n);
    plan := RstreamNow(pool, plan, t);
    ghost var t1 := RstreamNowRemoved(t);
    RstreamNowSound(pool.tables, t);
    rc, plan := MakeStreamCross(pool, plan, t1);
    if rc != 0 {
      return;
    }
    AfterStreamsSound(pool.tables, t, n);
    FinishSound(pool.tables, t, n);
    FinishBounds(pool.tables, t, n);
    RewrittenForm(pool.tables, t, n);
    rc, plan := FinishPlan(pool, plan, t, n);
  }

  /** The bounds that keep the pool from being exhausted. */
  ghost predicate Bounded(tb: Tables, t: Plan, n: nat) {
    && Stacked(FlatForm, t) && Unfinished(t) && Sound(tb, t) && n + 2 * MAX_INPUT_OPS + NumSelects(t) <= MAX_OPERATOR
    && StreamRoom(RstreamNowRemoved(t), n)
  }

  lemma StartRewriting(tb: Tables, q: Query, t: Plan, n: nat)
    requires WithinLimits(tb, q) && Accepted(tb, q) && Buildable(tb, q) && Shape(t) == QueryPlan(tb, q) && n <= 35
    ensures Bounded(tb, t, n)
  {
    QueryPlanSound(tb, q);
    ShapeSchema(tb, t);
    NaiveStacked(tb, q);
    ShapeStacked(t);
    NaiveUnfinished(tb, q);
    ShapeUnfinished(t);
    var t1 := RstreamNowRemoved(t);
    if t1 != t {
      WithoutNowStacked(t.ins[0]);
    }
    StackedRoom(t1, n);
  }

  lemma StackedRoom(t: Plan, n: nat)
    requires Stacked(FlatForm, t) && n < MAX_OPERATOR
    ensures StreamRoom(t, n)
  {
    if t.op.Rstream? && Streamable(t.ins[0]) {
      CrossIsBase(t.ins[0]);
    }
  }

  lemma {:induction false} CrossIsBase(t: Plan)
    requires Stacked(FlatForm, t) && CrossBelow(t)
    ensures |CrossOf(t).ins| <= MAX_INPUT_OPS
  {
    if !t.op.Cross? {
      if t.op.Select? {
        BelowSelect(FlatForm, t);
      }
      CrossIsBase(t.ins[0]);
    }
  }

  /** The transformations after the streams. */
  method FinishPlan(pool: Pool, from: nat, ghost t: Plan, ghost n: nat) returns (rc: int, plan: nat)
    requires Ready(pool, from, AfterStreams(t, n).0) && pool.count == AfterStreams(t, n).1
    requires Sound(pool.tables, AfterStreams(t, n).0) && SoundStages(pool.tables, t, n) && StagesFit(pool.tables, t, n)
    modifies pool`count, pool.ops
    ensures rc == 0 && Ready(pool, plan, Rewritten(pool.tables, t, n).0) && pool.count == Rewritten(pool.tables, t, n).1
  {
    plan := RemoveProject(pool, from, AfterStreams(t, n).0);
    rc, plan := MakeStageBinary(pool, Cross, plan, AfterProject(pool.tables, t, n));
    if rc != 0 {
      return;
    }
    rc, plan := MakeStageBinary(pool, StreamCross, plan, AfterCross(pool.tables, t, n));
    if rc != 0 {
      return;
    }
    plan := PushSelects(pool, plan, AfterBinary(pool.tables, t, n).0);
  }

  method MakeStageBinary(pool: Pool, op: Payload, from: nat, ghost s: Stage) returns (rc: int, plan: nat)
    requires IsProduct(op) && Holding(pool, from, s.0) && pool.count == s.1 && MakeStage(op, s).1 <= MAX_OPERATOR
    modifies pool`count, pool.ops
    ensures rc == 0 && Ready(pool, plan, MakeStage(op, s).0) && pool.count == MakeStage(op, s).1
  {
    rc, plan := MakeBinary(pool, op, from, s.0);
  }

  ghost predicate SoundStages(tb: Tables, t: Plan, n: nat) {
    Sound(tb, AfterProject(tb, t, n).0) && Sound(tb, AfterCross(tb, t, n).0) && Sound(tb, AfterBinary(tb, t, n).0)
  }

  ghost predicate StagesFit(tb: Tables, t: Plan, n: nat) {
    AfterCross(tb, t, n).1 <= AfterBinary(tb, t, n).1 <= MAX_OPERATOR && Rewritten(tb, t, n).1 <= MAX_OPERATOR
  }

  lemma FinishSound(tb: Tables, t: Plan, n: nat)
    requires Sound(tb, t)
    ensures SoundStages(tb, t, n)
  {
    AfterStreamsSound(tb, t, n);
    ProjectRemovedSound(tb, AfterStreams(t, n).0);
    StageSound(tb, Cross, AfterProject(tb, t, n));
    StageSound(tb, StreamCross, AfterCross(tb, t, n));
  }

  lemma StageSound(tb: Tables, op: Payload, s: Stage)
    requires IsProduct(op) && Sound(tb, s.0)
    ensures Sound(tb, MakeStage(op, s).0)
  {
    MadeBinaryAlike(Steady(tb), 0, tb, op, s.0, s.1);
  }

  lemma FinishBounds(tb: Tables, t: Plan, n: nat)
    requires Bounded(tb, t, n)
    ensures StagesFit(tb, t, n)
  {
    AfterBinaryStacked(tb, t, n);
    RewrittenForm(tb, t, n);
  }
}
