/**
 What a rewritten plan has no more: a project that changes nothing, an Rstream over a Now window, and
 an Rstream over a cross product with a Now window.
 */
module FinalForm {
  import opened Common
  import opened LogicalPlan
  import opened Products
  import opened RewriteNow
  import opened RewriteCross
  import opened RewriteProject
  import opened RewriteBinary
  import opened RewriteSelect
  import opened PushedForm
  import opened Stacks

  // ---------------------------------------------------------------- projects

  /** The project gives the columns of its input, one by one under the names they have there. */
  ghost predicate ChangesNothing(tb: Tables, project: Plan)
    requires |project.ins| == 1
  {
    var s, r := SchemaOf(tb, project), SchemaOf(tb, project.ins[0]);
    |s| == |r| && forall k :: 0 <= k < |s| ==> !s[k].Unnamed? && s[k] == r[k]
  }

  /** Below operators that keep the schema there is no project that changes nothing. */
  ghost predicate NoIdleProject(tb: Tables, t: Plan) {
    if t.op.Project? then |t.ins| == 1 ==> !ChangesNothing(tb, t)
    else OverProject(t.op) && |t.ins| == 1 ==> NoIdleProject(tb, t.ins[0])
  }

  /** Below operators that keep the schema there is no project. */
  ghost predicate ProjectFree(t: Plan) {
    !t.op.Project? && (OverProject(t.op) && |t.ins| == 1 ==> ProjectFree(t.ins[0]))
  }

  /** Below operators that keep the schema there is at most one project. */
  ghost predicate OneProject(t: Plan) {
    if t.op.Project? then |t.ins| == 1 && ProjectFree(t.ins[0])
    else OverProject(t.op) && |t.ins| == 1 ==> OneProject(t.ins[0])
  }

  lemma {:induction false} FreeIsIdle(tb: Tables, t: Plan)
    requires ProjectFree(t)
    ensures NoIdleProject(tb, t) && OneProject(t)
  {
    if OverProject(t.op) && |t.ins| == 1 {
      FreeIsIdle(tb, t.ins[0]);
    }
  }

  lemma {:induction false} RemovedIdle(tb: Tables, t: Plan)
    requires OneProject(t)
    ensures NoIdleProject(tb, ProjectRemoved(tb, t))
  {
    if Useless(tb, t) {
      FreeIsIdle(tb, t.ins[0]);
    } else if OverProject(t.op) && |t.ins| == 1 {
      RemovedIdle(tb, t.ins[0]);
    }
  }

  lemma {:induction false} WithoutNowProjects(t: Plan)
    requires NowBelow(t) && Stacked(FlatForm, t)
    ensures ProjectFree(t) ==> ProjectFree(WithoutNow(t))
    ensures OneProject(t) ==> OneProject(WithoutNow(t))
  {
    if t.op.NowWin? {
      assert Leaf(t);
    } else {
      if t.op.Select? {
        BelowSelect(FlatForm, t);
      }
      WithoutNowProjects(t.ins[0]);
    }
  }

  lemma {:induction false} StreamedProjects(t: Plan, id: nat)
    requires Streamable(t)
    ensures ProjectFree(t) ==> ProjectFree(Streamed(t, id))
    ensures OneProject(t) ==> OneProject(Streamed(t, id))
  {
    if !t.op.Cross? {
      StreamedProjects(t.ins[0], id);
    }
  }

  /** The binary plan has the schema. */
  lemma {:induction false} MadeBinarySchema(tb: Tables, op: Payload, t: Plan, id: nat)
    requires IsProduct(op)
    ensures SchemaOf(tb, MadeBinary(op, t, id)) == SchemaOf(tb, t)
  {
    var u := MadeBinary(op, t, id);
    SchemaStep(tb, t);
    if t.op == op && |t.ins| > 2 {
      LeftDeepShape(tb, op, t.ins, id);
    } else if OverProduct(t.op) && |t.ins| == 1 {
      MadeBinarySchema(tb, op, t.ins[0], id);
      SchemaStep(tb, u);
      assert Schemas(tb, u.ins) == Schemas(tb, t.ins);
    }
  }

  lemma {:induction false} MadeBinaryIdle(tb: Tables, op: Payload, t: Plan, id: nat)
    requires IsProduct(op) && NoIdleProject(tb, t)
    ensures NoIdleProject(tb, MadeBinary(op, t, id))
  {
    if t.op == op && |t.ins| > 2 {
    } else if t.op.Project? && |t.ins| == 1 {
      MadeBinarySchema(tb, op, t, id);
      MadeBinarySchema(tb, op, t.ins[0], id);
    } else if OverProduct(t.op) && |t.ins| == 1 && OverProject(t.op) {
      MadeBinaryIdle(tb, op, t.ins[0], id);
    }
  }

  lemma {:induction false} PushIdle(tb: Tables, b: LBExpr, id: nat, t: Plan)
    requires NoIdleProject(tb, t)
    ensures NoIdleProject(tb, Push(tb, b, id, t))
  {
    if t.op.Select? && Pushable(tb, b, t) {
      PushIdle(tb, b, id, t.ins[0]);
    }
  }

  lemma {:induction false} PushTopIdle(tb: Tables, t: Plan, id: nat)
    requires NoIdleProject(tb, t)
    ensures NoIdleProject(tb, PushTopSelects(tb, t, id).0)
    decreases Tops(t)
  {
    if t.op.Select? && |t.ins| == 1 {
      var b, x := t.op.pred, t.ins[0];
      if Useful(tb, b, x) {
        PushTops(tb, b, id, x);
        PushIdle(tb, b, id, x);
        PushTopIdle(tb, Push(tb, b, id, x), id + 1);
      } else {
        PushTopIdle(tb, x, id);
      }
    }
  }

  lemma {:induction false} PushTopSchema(tb: Tables, t: Plan, id: nat)
    ensures SchemaOf(tb, PushTopSelects(tb, t, id).0) == SchemaOf(tb, t)
    decreases Tops(t)
  {
    if t.op.Select? && |t.ins| == 1 {
      var b, x := t.op.pred, t.ins[0];
      SchemaStep(tb, t);
      if Useful(tb, b, x) {
        PushTops(tb, b, id, x);
        PushSchema(tb, b, id, x);
        PushTopSchema(tb, Push(tb, b, id, x), id + 1);
      } else {
        PushTopSchema(tb, x, id);
        SchemaStep(tb, PushTopSelects(tb, t, id).0);
      }
    }
  }

  lemma {:induction false} SelectsPushedSchema(tb: Tables, t: Plan, id: nat)
    ensures SchemaOf(tb, SelectsPushed(tb, t, id).0) == SchemaOf(tb, t)
  {
    if OverSelect(t.op) && |t.ins| == 1 {
      var u := SelectsPushed(tb, t, id).0;
      SelectsPushedSchema(tb, t.ins[0], id);
      SchemaStep(tb, t);
      SchemaStep(tb, u);
      assert Schemas(tb, u.ins) == Schemas(tb, t.ins);
    } else {
      PushTopSchema(tb, t, id);
    }
  }

  lemma {:induction false} SelectsPushedIdle(tb: Tables, t: Plan, id: nat)
    requires NoIdleProject(tb, t)
    ensures NoIdleProject(tb, SelectsPushed(tb, t, id).0)
  {
    if OverSelect(t.op) && |t.ins| == 1 {
      SelectsPushedSchema(tb, t, id);
      SelectsPushedSchema(tb, t.ins[0], id);
      if OverProject(t.op) {
        SelectsPushedIdle(tb, t.ins[0], id);
      }
    } else {
      PushTopIdle(tb, t, id);
    }
  }

  // ---------------------------------------------------------------- Rstreams

  ghost predicate NoRstreams(t: Plan) {
    !t.op.Rstream? && forall k :: 0 <= k < |t.ins| ==> NoRstreams(t.ins[k])
  }

  /** A Now window, below selects and cross products only. */
  ghost predicate NowInput(t: Plan) {
    || t.op.NowWin?
    || (t.op.Select? && |t.ins| == 1 && NowInput(t.ins[0]))
    || (t.op.Cross? && exists k :: 0 <= k < |t.ins| && NowInput(t.ins[k]))
  }

  /** The first operator that is not one of those the search for a cross product steps over is one with a Now window. */
  ghost predicate NowProduct(t: Plan) {
    if t.op.Cross? then NowInput(t) else OverCross(t.op) && |t.ins| == 1 && NowProduct(t.ins[0])
  }

  /** Only the root may be an Rstream, and then over something else than what a stream could be put for. */
  ghost predicate RstreamNeeded(t: Plan) {
    && (forall k :: 0 <= k < |t.ins| ==> NoRstreams(t.ins[k]))
    && (t.op.Rstream? && |t.ins| == 1 ==> !NowBelow(t.ins[0]) && !NowProduct(t.ins[0]))
  }

  lemma NoneNeeded(t: Plan)
    requires NoRstreams(t)
    ensures RstreamNeeded(t)
  {
  }

  lemma {:induction false} WithoutNowNoRstreams(t: Plan)
    requires NowBelow(t) && NoRstreams(t)
    ensures NoRstreams(WithoutNow(t))
  {
    if !t.op.NowWin? {
      WithoutNowNoRstreams(t.ins[0]);
    }
  }

  lemma {:induction false} StreamedNoRstreams(t: Plan, id: nat)
    requires Streamable(t) && NoRstreams(t)
    ensures NoRstreams(Streamed(t, id))
  {
    if t.op.Cross? {
      var now, ts := t.ins[NowAt(t.ins)], StreamFirst(t.ins);
      assert NoRstreams(now);
      forall k | 0 <= k < |ts|
        ensures NoRstreams(ts[k])
      {
        assert k > 0 ==> ts[k] in t.ins;
      }
    } else {
      StreamedNoRstreams(t.ins[0], id);
    }
  }

  /** In a plan of the rewriter's form, the search finds every product with a Now window. */
  lemma {:induction false} ProductStreamable(t: Plan)
    requires Stacked(FlatForm, t) && NowProduct(t)
    ensures Streamable(t)
  {
    if t.op.Cross? {
      var k :| 0 <= k < |t.ins| && NowInput(t.ins[k]);
      assert Leaf(t.ins[k]) && Leaf(t.ins[NowAt(t.ins)]);
    } else {
      if t.op.Select? {
        BelowSelect(FlatForm, t);
      }
      ProductStreamable(t.ins[0]);
    }
  }

  lemma {:induction false} RemovedRstreams(tb: Tables, t: Plan)
    ensures NoRstreams(t) ==> NoRstreams(ProjectRemoved(tb, t))
    ensures NowBelow(ProjectRemoved(tb, t)) ==> NowBelow(t)
    ensures NowProduct(ProjectRemoved(tb, t)) ==> NowProduct(t)
  {
    if Useless(tb, t) {
    } else if OverProject(t.op) && |t.ins| == 1 {
      RemovedRstreams(tb, t.ins[0]);
    }
  }

  lemma RemovedNeeded(tb: Tables, t: Plan)
    requires RstreamNeeded(t)
    ensures RstreamNeeded(ProjectRemoved(tb, t))
  {
    RemovedRstreams(tb, t);
    if t.op.Rstream? && |t.ins| == 1 {
      RemovedRstreams(tb, t.ins[0]);
    } else if NoRstreams(t) {
      NoneNeeded(ProjectRemoved(tb, t));
    }
  }

  lemma {:induction false} LeftDeepRstreams(op: Payload, ts: seq<Plan>, id: nat)
    requires IsProduct(op) && |ts| >= 2
    ensures (forall k :: 0 <= k < |ts| ==> NoRstreams(ts[k])) ==> NoRstreams(LeftDeep(op, ts, id))
    ensures op.Cross? && NowInput(LeftDeep(op, ts, id)) ==> exists k :: 0 <= k < |ts| && NowInput(ts[k])
  {
    if |ts| > 2 {
      var m, u := |ts| - 1, LeftDeep(op, ts, id);
      LeftDeepRstreams(op, ts[..m], id);
      assert u.ins == [LeftDeep(op, ts[..m], id), ts[m]];
    }
  }

  lemma {:induction false} MadeBinaryRstreams(op: Payload, t: Plan, id: nat)
    requires IsProduct(op)
    ensures NoRstreams(t) ==> NoRstreams(MadeBinary(op, t, id))
    ensures NowBelow(MadeBinary(op, t, id)) ==> NowBelow(t)
    ensures NowProduct(MadeBinary(op, t, id)) ==> NowProduct(t)
  {
    if t.op == op && |t.ins| > 2 {
      LeftDeepRstreams(op, t.ins, id);
    } else if OverProduct(t.op) && |t.ins| == 1 {
      MadeBinaryRstreams(op, t.ins[0], id);
    }
  }

  lemma MadeBinaryNeeded(op: Payload, t: Plan, id: nat)
    requires IsProduct(op) && RstreamNeeded(t)
    ensures RstreamNeeded(MadeBinary(op, t, id))
  {
    MadeBinaryRstreams(op, t, id);
    if t.op.Rstream? && |t.ins| == 1 {
      MadeBinaryRstreams(op, t.ins[0], id);
    } else if NoRstreams(t) {
      NoneNeeded(MadeBinary(op, t, id));
    }
  }

  lemma {:induction false} PushRstreams(tb: Tables, b: LBExpr, id: nat, t: Plan)
    ensures NoRstreams(t) ==> NoRstreams(Push(tb, b, id, t))
    ensures NowBelow(Push(tb, b, id, t)) ==> NowBelow(t)
    ensures NowInput(Push(tb, b, id, t)) ==> NowInput(t)
    ensures NowProduct(Push(tb, b, id, t)) ==> NowProduct(t)
  {
    var u := Push(tb, b, id, t);
    if Pushable(tb, b, t) {
      var w := Way(tb, b, t);
      PushRstreams(tb, b, id, t.ins[w]);
      if t.op.Cross? && NowInput(u) {
        var k :| 0 <= k < |u.ins| && NowInput(u.ins[k]);
        assert NowInput(t.ins[k]);
      }
    }
  }

  lemma {:induction false} PushTopRstreams(tb: Tables, t: Plan, id: nat)
    ensures NoRstreams(t) ==> NoRstreams(PushTopSelects(tb, t, id).0)
    ensures NowBelow(PushTopSelects(tb, t, id).0) ==> NowBelow(t)
    ensures NowProduct(PushTopSelects(tb, t, id).0) ==> NowProduct(t)
    decreases Tops(t)
  {
    if t.op.Select? && |t.ins| == 1 {
      var b, x := t.op.pred, t.ins[0];
      if Useful(tb, b, x) {
        PushTops(tb, b, id, x);
        PushRstreams(tb, b, id, x);
        PushTopRstreams(tb, Push(tb, b, id, x), id + 1);
      } else {
        PushTopRstreams(tb, x, id);
      }
    }
  }

  lemma {:induction false} SelectsPushedRstreams(tb: Tables, t: Plan, id: nat)
    ensures NoRstreams(t) ==> NoRstreams(SelectsPushed(tb, t, id).0)
    ensures NowBelow(SelectsPushed(tb, t, id).0) ==> NowBelow(t)
    ensures NowProduct(SelectsPushed(tb, t, id).0) ==> NowProduct(t)
  {
    if OverSelect(t.op) && |t.ins| == 1 {
      SelectsPushedRstreams(tb, t.ins[0], id);
    } else {
      PushTopRstreams(tb, t, id);
    }
  }

  lemma SelectsPushedNeeded(tb: Tables, t: Plan, id: nat)
    requires RstreamNeeded(t)
    ensures RstreamNeeded(SelectsPushed(tb, t, id).0)
  {
    SelectsPushedRstreams(tb, t, id);
    if t.op.Rstream? && |t.ins| == 1 {
      SelectsPushedRstreams(tb, t.ins[0], id);
    } else if NoRstreams(t) {
      NoneNeeded(SelectsPushed(tb, t, id).0);
    }
  }

  // ---------------------------------------------------------------- predicates

  lemma PredsBelow(t: Plan)
    requires |t.ins| == 1
    ensures Preds(t) == (if t.op.Select? then multiset{t.op.pred} else multiset{}) + Preds(t.ins[0])
  {
    assert t.ins == [t.ins[0]];
    PredsOfOne(t.ins[0]);
  }

  lemma {:induction false} PredsConcat(a: seq<Plan>, b: seq<Plan>)
    ensures PredsOfAll(a + b) == PredsOfAll(a) + PredsOfAll(b)
  {
    if a == [] {
      assert a + b == b;
    } else {
      assert (a + b)[1..] == a[1..] + b;
      PredsConcat(a[1..], b);
    }
  }

  lemma PredsAt(ts: seq<Plan>, k: nat)
    requires k < |ts|
    ensures PredsOfAll(ts) == PredsOfAll(ts[..k]) + Preds(ts[k]) + PredsOfAll(ts[k + 1..])
  {
    assert ts == ts[..k] + ([ts[k]] + ts[k + 1..]);
    PredsConcat(ts[..k], [ts[k]] + ts[k + 1..]);
    PredsConcat([ts[k]], ts[k + 1..]);
    PredsOfOne(ts[k]);
  }

  lemma {:induction false} WithoutNowPreds(t: Plan)
    requires NowBelow(t)
    ensures Preds(WithoutNow(t)) == Preds(t)
  {
    PredsBelow(t);
    if !t.op.NowWin? {
      WithoutNowPreds(t.ins[0]);
      PredsBelow(WithoutNow(t));
    }
  }

  lemma Rotated<T>(a: multiset<T>, b: multiset<T>, c: multiset<T>)
    ensures a + b + c == b + (a + c)
  {
  }

  lemma StreamFirstPreds(ts: seq<Plan>)
    requires NowAt(ts) < |ts| && |ts[NowAt(ts)].ins| == 1
    ensures PredsOfAll(StreamFirst(ts)) == PredsOfAll(ts)
  {
    hide Preds, PredsOfAll;
    var k := NowAt(ts);
    var stream, front, back := ts[k].ins[0], ts[..k], ts[k + 1..];
    assert StreamFirst(ts) == [stream] + (front + back);
    PredsAt(ts, k);
    PredsBelow(ts[k]);
    PredsConcat([stream], front + back);
    PredsConcat(front, back);
    PredsOfOne(stream);
    Rotated(PredsOfAll(front), Preds(stream), PredsOfAll(back));
  }

  lemma {:induction false} StreamedPreds(t: Plan, id: nat)
    requires Streamable(t)
    ensures Preds(Streamed(t, id)) == Preds(t)
  {
    if t.op.Cross? {
      StreamFirstPreds(t.ins);
    } else {
      StreamedPreds(t.ins[0], id);
      PredsBelow(t);
      PredsBelow(Streamed(t, id));
    }
  }

  lemma {:induction false} ProjectRemovedPreds(tb: Tables, t: Plan)
    ensures Preds(ProjectRemoved(tb, t)) == Preds(t)
  {
    if Useless(tb, t) {
      PredsBelow(t);
    } else if OverProject(t.op) && |t.ins| == 1 {
      ProjectRemovedPreds(tb, t.ins[0]);
      PredsBelow(t);
      PredsBelow(ProjectRemoved(tb, t));
    }
  }

  lemma {:induction false} LeftDeepPreds(op: Payload, ts: seq<Plan>, id: nat)
    requires IsProduct(op) && |ts| >= 2
    ensures Preds(LeftDeep(op, ts, id)) == PredsOfAll(ts)
  {
    if |ts| > 2 {
      var m := |ts| - 1;
      LeftDeepPreds(op, ts[..m], id);
      PredsConcat([LeftDeep(op, ts[..m], id)], [ts[m]]);
      PredsOfOne(LeftDeep(op, ts[..m], id));
      PredsOfOne(ts[m]);
      assert ts == ts[..m] + [ts[m]];
      PredsConcat(ts[..m], [ts[m]]);
    }
  }

  lemma {:induction false} MadeBinaryPreds(op: Payload, t: Plan, id: nat)
    requires IsProduct(op)
    ensures Preds(MadeBinary(op, t, id)) == Preds(t)
  {
    if t.op == op && |t.ins| > 2 {
      LeftDeepPreds(op, t.ins, id);
    } else if OverProduct(t.op) && |t.ins| == 1 {
      MadeBinaryPreds(op, t.ins[0], id);
      PredsBelow(t);
      PredsBelow(MadeBinary(op, t, id));
    }
  }
}
