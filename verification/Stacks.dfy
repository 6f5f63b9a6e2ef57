/**
 The form of the plans the rewriter works on: unary operators, then selects, then a base.  Every
 transformation keeps it, up to the shape of the base.
 */
module Stacks {
  import opened Common
  import opened LogicalPlan
  import opened Products
  import opened RewriteNow
  import opened RewriteCross
  import opened RewriteProject
  import opened RewriteBinary
  import opened RewriteSelect
  import opened PushedForm

  predicate SourceOp(op: Payload) {
    op.StreamSource? || op.RelnSource?
  }

  predicate WindowOp(op: Payload) {
    op.RowWin? || op.RangeWin? || op.NowWin? || op.PartnWin?
  }

  /** A source, or a window over one. */
  predicate Leaf(t: Plan) {
    (SourceOp(t.op) && t.ins == []) || (WindowOp(t.op) && |t.ins| == 1 && SourceOp(t.ins[0].op) && t.ins[0].ins == [])
  }

  predicate Leaves(ts: seq<Plan>) {
    forall k :: 0 <= k < |ts| ==> Leaf(ts[k])
  }

  /** A leaf, or one operator over leaves. */
  predicate FlatBase(t: Plan) {
    Leaf(t)
    || (IsProduct(t.op) && 2 <= |t.ins| <= MAX_INPUT_OPS && Leaves(t.ins))
    || ((t.op.Union? || t.op.Except?) && |t.ins| == 2 && Leaves(t.ins))
  }

  /** A leaf, a tree of binary products over leaves, or a union or difference of leaves. */
  predicate BinaryBase(t: Plan) {
    Leaf(t)
    || (IsProduct(t.op) && |t.ins| == 2 && BinaryBase(t.ins[0]) && Leaf(t.ins[1]))
    || ((t.op.Union? || t.op.Except?) && |t.ins| == 2 && Leaves(t.ins))
  }

  /** The two kinds of bases; while products of one kind are still n-ary, those of the other kind may be binary. */
  datatype Form = FlatForm | HalfForm | BinaryForm

  predicate Base(f: Form, t: Plan) {
    match f
    case FlatForm => FlatBase(t)
    case HalfForm => (FlatBase(t) && (t.op.Cross? ==> |t.ins| == 2)) || BinaryBase(t)
    case BinaryForm => BinaryBase(t)
  }

  predicate Low(f: Form, t: Plan) {
    if t.op.Select? then |t.ins| == 1 && Low(f, t.ins[0]) else Base(f, t)
  }

  /** Unary operators, then selects, then a base. */
  predicate Stacked(f: Form, t: Plan) {
    if OverSelect(t.op) then |t.ins| == 1 && Stacked(f, t.ins[0]) else Low(f, t)
  }

  /** The number of selects above the base. */
  ghost function NumSelects(t: Plan): nat {
    if OverSelect(t.op) && |t.ins| == 1 then NumSelects(t.ins[0]) else Tops(t)
  }

  /** Below a select, what is low is stacked. */
  lemma BelowSelect(f: Form, t: Plan)
    requires Low(f, t)
    ensures !OverSelect(t.op) && Stacked(f, t)
    ensures t.op.Select? ==> |t.ins| == 1 && Low(f, t.ins[0]) && !OverSelect(t.ins[0].op) && Stacked(f, t.ins[0])
  {
  }

  // ---------------------------------------------------------------- the transformations keep the form

  lemma {:induction false} WithoutNowStacked(t: Plan)
    requires NowBelow(t) && Stacked(FlatForm, t)
    ensures Stacked(FlatForm, WithoutNow(t)) && NumSelects(WithoutNow(t)) == NumSelects(t)
    ensures !OverSelect(t.op) ==> Low(FlatForm, WithoutNow(t)) && Tops(WithoutNow(t)) == Tops(t) && !OverSelect(WithoutNow(t).op)
  {
    if !t.op.NowWin? {
      if t.op.Select? {
        BelowSelect(FlatForm, t);
      }
      WithoutNowStacked(t.ins[0]);
    } else {
      assert Leaf(t);
    }
  }

  lemma {:induction false} StreamedStacked(t: Plan, id: nat)
    requires Streamable(t) && Stacked(FlatForm, t)
    ensures Stacked(FlatForm, Streamed(t, id)) && NumSelects(Streamed(t, id)) == NumSelects(t)
    ensures !OverSelect(t.op) ==> Low(FlatForm, Streamed(t, id)) && Tops(Streamed(t, id)) == Tops(t) && !OverSelect(Streamed(t, id).op)
  {
    if t.op.Cross? {
      var u := Streamed(t, id);
      forall k | 0 <= k < |u.ins|
        ensures Leaf(u.ins[k])
      {
        assert Leaf(t.ins[NowAt(t.ins)]);
        assert u.ins[k] in t.ins || u.ins[k] == t.ins[NowAt(t.ins)].ins[0];
      }
    } else {
      if t.op.Select? {
        BelowSelect(FlatForm, t);
      }
      StreamedStacked(t.ins[0], id);
    }
  }

  lemma {:induction false} ProjectRemovedStacked(tb: Tables, f: Form, t: Plan)
    requires Stacked(f, t)
    ensures Stacked(f, ProjectRemoved(tb, t)) && NumSelects(ProjectRemoved(tb, t)) == NumSelects(t)
    ensures t.op.Select? ==> ProjectRemoved(tb, t) == t
  {
    if t.op.Select? {
      LowKept(tb, f, t);
    } else if !Useless(tb, t) && OverProject(t.op) && |t.ins| == 1 {
      ProjectRemovedStacked(tb, f, t.ins[0]);
    }
  }

  /** There is no project below the first select. */
  lemma {:induction false} LowKept(tb: Tables, f: Form, t: Plan)
    requires Low(f, t)
    ensures ProjectRemoved(tb, t) == t
  {
    if t.op.Select? {
      LowKept(tb, f, t.ins[0]);
      assert t.ins == [t.ins[0]];
    }
  }

  lemma {:induction false} LeftDeepBase(op: Payload, ts: seq<Plan>, id: nat)
    requires IsProduct(op) && |ts| >= 2 && Leaves(ts)
    ensures BinaryBase(LeftDeep(op, ts, id)) && LeftDeep(op, ts, id).op == op
  {
    if |ts| > 2 {
      LeftDeepBase(op, ts[..|ts| - 1], id);
    }
  }

  /** Making cross products binary. */
  lemma {:induction false} CrossBinaryStacked(t: Plan, id: nat)
    requires Stacked(FlatForm, t)
    ensures var u := MadeBinary(Cross, t, id); Stacked(HalfForm, u) && NumSelects(u) == NumSelects(t) && Needed(Cross, t) < MAX_INPUT_OPS
    ensures var u := MadeBinary(Cross, t, id); !OverSelect(t.op) ==> Low(HalfForm, u) && Tops(u) == Tops(t) && !OverSelect(u.op)
  {
    if t.op.Cross? && |t.ins| > 2 {
      LeftDeepBase(Cross, t.ins, id);
    } else if OverProduct(t.op) && |t.ins| == 1 {
      if t.op.Select? {
        BelowSelect(FlatForm, t);
      }
      CrossBinaryStacked(t.ins[0], id);
    }
  }

  /** Making stream cross products binary. */
  lemma {:induction false} StreamCrossBinaryStacked(t: Plan, id: nat)
    requires Stacked(HalfForm, t)
    ensures var u := MadeBinary(StreamCross, t, id); Stacked(BinaryForm, u) && NumSelects(u) == NumSelects(t) && Needed(StreamCross, t) < MAX_INPUT_OPS
    ensures var u := MadeBinary(StreamCross, t, id); !OverSelect(t.op) ==> Low(BinaryForm, u) && Tops(u) == Tops(t) && !OverSelect(u.op)
  {
    if t.op.StreamCross? && |t.ins| > 2 {
      LeftDeepBase(StreamCross, t.ins, id);
    } else if OverProduct(t.op) && |t.ins| == 1 {
      if t.op.Select? {
        BelowSelect(HalfForm, t);
      }
      StreamCrossBinaryStacked(t.ins[0], id);
    } else if IsProduct(t.op) && |t.ins| == 2 {
      assert Leaf(t.ins[1]) && BinaryBase(t.ins[0]);
    }
  }

  // ---------------------------------------------------------------- what the form gives

  /** All products are binary. */
  ghost predicate AllBinary(t: Plan) {
    (IsProduct(t.op) ==> |t.ins| == 2) && forall k :: 0 <= k < |t.ins| ==> AllBinary(t.ins[k])
  }

  lemma {:induction false} BaseBinary(tb: Tables, t: Plan)
    requires BinaryBase(t)
    ensures AllBinary(t) && Settled(tb, t)
  {
    if IsProduct(t.op) {
      BaseBinary(tb, t.ins[0]);
      BaseBinary(tb, t.ins[1]);
    }
  }

  lemma {:induction false} StackedBinary(tb: Tables, t: Plan)
    requires Stacked(BinaryForm, t)
    ensures AllBinary(t) && AlmostSettled(tb, t)
    ensures !OverSelect(t.op) ==> CoreSettled(tb, t)
  {
    if OverSelect(t.op) || t.op.Select? {
      if t.op.Select? {
        BelowSelect(BinaryForm, t);
      }
      StackedBinary(tb, t.ins[0]);
    } else {
      BaseBinary(tb, t);
    }
  }

  lemma {:induction false} PushBinary(tb: Tables, b: LBExpr, id: nat, t: Plan)
    requires AllBinary(t)
    ensures AllBinary(Push(tb, b, id, t))
  {
    if Pushable(tb, b, t) {
      PushBinary(tb, b, id, t.ins[Way(tb, b, t)]);
    }
  }

  lemma {:induction false} PushTopBinary(tb: Tables, t: Plan, id: nat)
    requires AllBinary(t)
    ensures AllBinary(PushTopSelects(tb, t, id).0) && PushTopSelects(tb, t, id).1 <= id + Tops(t)
    decreases Tops(t)
  {
    if t.op.Select? && |t.ins| == 1 {
      var b, x := t.op.pred, t.ins[0];
      if Useful(tb, b, x) {
        PushTops(tb, b, id, x);
        PushBinary(tb, b, id, x);
        PushTopBinary(tb, Push(tb, b, id, x), id + 1);
      } else {
        PushTopBinary(tb, x, id);
      }
    }
  }

  /** Pushing selects keeps products binary and takes at most one slot per select. */
  lemma {:induction false} SelectsPushedBinary(tb: Tables, t: Plan, id: nat)
    requires AllBinary(t)
    ensures AllBinary(SelectsPushed(tb, t, id).0) && SelectsPushed(tb, t, id).1 <= id + NumSelects(t)
  {
    if OverSelect(t.op) && |t.ins| == 1 {
      SelectsPushedBinary(tb, t.ins[0], id);
    } else {
      PushTopBinary(tb, t, id);
    }
  }
}
