/** What pushing selects down reaches, and what it conserves. */
module PushedForm {
  import opened Common
  import opened LogicalPlan
  import opened RewriteSelect

  /** No select has, as its first descendant that is not a select, a product with one input supplying all its attributes. */
  ghost predicate Settled(tb: Tables, t: Plan) {
    && (t.op.Select? && |t.ins| == 1 ==> !Useful(tb, t.op.pred, t.ins[0]))
    && forall k :: 0 <= k < |t.ins| ==> Settled(tb, t.ins[k])
  }

  /** Everything below the selects on top is settled. */
  ghost predicate CoreSettled(tb: Tables, t: Plan) {
    if t.op.Select? && |t.ins| == 1 then CoreSettled(tb, t.ins[0]) else Settled(tb, t)
  }

  /** Everything below the first selects is settled. */
  ghost predicate AlmostSettled(tb: Tables, t: Plan) {
    if OverSelect(t.op) && |t.ins| == 1 then AlmostSettled(tb, t.ins[0]) else CoreSettled(tb, t)
  }

  /** A select put in does not change the schema of what it is put into. */
  lemma {:induction false} PushSchema(tb: Tables, b: LBExpr, id: nat, t: Plan)
    ensures SchemaOf(tb, Push(tb, b, id, t)) == SchemaOf(tb, t) && IsStream(Push(tb, b, id, t)) == IsStream(t)
  {
    var u := Push(tb, b, id, t);
    SchemaStep(tb, t);
    SchemaStep(tb, u);
    if Pushable(tb, b, t) {
      PushSchema(tb, b, id, t.ins[Way(tb, b, t)]);
      assert Schemas(tb, u.ins) == Schemas(tb, t.ins) && Flags(u.ins) == Flags(t.ins);
    } else {
      assert Schemas(tb, u.ins)[0] == SchemaOf(tb, t) && Flags(u.ins)[0] == IsStream(t);
    }
  }

  /** The plan stays sound. */
  lemma {:induction false} PushSound(tb: Tables, b: LBExpr, id: nat, t: Plan)
    requires Sound(tb, t) && PredResolves(b, SchemaOf(tb, t))
    ensures Sound(tb, Push(tb, b, id, t))
  {
    var u := Push(tb, b, id, t);
    SchemaStep(tb, t);
    if Pushable(tb, b, t) {
      var k := Way(tb, b, t);
      assert PredResolves(b, Schemas(tb, t.ins)[k]);
      PushSchema(tb, b, id, t.ins[k]);
      PushSound(tb, b, id, t.ins[k]);
      assert Schemas(tb, u.ins) == Schemas(tb, t.ins) && Flags(u.ins) == Flags(t.ins);
    } else {
      assert Schemas(tb, u.ins)[0] == SchemaOf(tb, t) && u.ins[0] == t;
    }
  }

  /** Whether another select gets below a product does not depend on it. */
  lemma {:induction false} PushUseful(tb: Tables, b: LBExpr, id: nat, t: Plan, c: LBExpr)
    ensures Useful(tb, c, Push(tb, b, id, t)) == Useful(tb, c, t)
  {
    var u := Push(tb, b, id, t);
    if Pushable(tb, b, t) {
      var k := Way(tb, b, t);
      PushSchema(tb, b, id, t.ins[k]);
      assert Schemas(tb, u.ins) == Schemas(tb, t.ins);
      if t.op.Select? {
        PushUseful(tb, b, id, t.ins[0], c);
      }
    } else {
      assert u.ins[0] == t;
    }
  }

  lemma {:induction false} PushSettled(tb: Tables, b: LBExpr, id: nat, t: Plan)
    requires Settled(tb, t)
    ensures Settled(tb, Push(tb, b, id, t))
  {
    if Pushable(tb, b, t) {
      var k := Way(tb, b, t);
      PushSettled(tb, b, id, t.ins[k]);
      if t.op.Select? {
        PushUseful(tb, b, id, t.ins[0], t.op.pred);
      }
    }
  }

  lemma {:induction false} PushCoreSettled(tb: Tables, b: LBExpr, id: nat, t: Plan)
    requires CoreSettled(tb, t) && Useful(tb, b, t)
    ensures CoreSettled(tb, Push(tb, b, id, t))
  {
    if t.op.Select? {
      PushCoreSettled(tb, b, id, t.ins[0]);
    } else {
      PushSettled(tb, b, id, t);
    }
  }

  lemma {:induction false} PushTopUseful(tb: Tables, t: Plan, id: nat, c: LBExpr)
    ensures Useful(tb, c, PushTopSelects(tb, t, id).0) == Useful(tb, c, t)
    decreases Tops(t)
  {
    if t.op.Select? && |t.ins| == 1 {
      var b, x := t.op.pred, t.ins[0];
      if Useful(tb, b, x) {
        PushTops(tb, b, id, x);
        PushUseful(tb, b, id, x, c);
        PushTopUseful(tb, Push(tb, b, id, x), id + 1, c);
      } else {
        PushTopUseful(tb, x, id, c);
      }
    }
  }

  lemma {:induction false} PushTopSettled(tb: Tables, t: Plan, id: nat)
    requires CoreSettled(tb, t)
    ensures Settled(tb, PushTopSelects(tb, t, id).0)
    decreases Tops(t)
  {
    if t.op.Select? && |t.ins| == 1 {
      var b, x := t.op.pred, t.ins[0];
      if Useful(tb, b, x) {
        PushTops(tb, b, id, x);
        PushCoreSettled(tb, b, id, x);
        PushTopSettled(tb, Push(tb, b, id, x), id + 1);
      } else {
        PushTopSettled(tb, x, id);
        PushTopUseful(tb, x, id, b);
      }
    }
  }

  /** The pushes reach a plan in which no select could get further. */
  lemma {:induction false} SelectsPushedSettled(tb: Tables, t: Plan, id: nat)
    requires AlmostSettled(tb, t)
    ensures Settled(tb, SelectsPushed(tb, t, id).0)
  {
    if OverSelect(t.op) && |t.ins| == 1 {
      SelectsPushedSettled(tb, t.ins[0], id);
    } else {
      PushTopSettled(tb, t, id);
    }
  }

  // ---------------------------------------------------------------- predicates

  /** The predicates of all selects of a plan. */
  ghost function Preds(t: Plan): multiset<LBExpr> {
    (if t.op.Select? then multiset{t.op.pred} else multiset{}) + PredsOfAll(t.ins)
  }

  ghost function PredsOfAll(ts: seq<Plan>): multiset<LBExpr> {
    if ts == [] then multiset{} else Preds(ts[0]) + PredsOfAll(ts[1..])
  }

  lemma AddBoth<T>(a: multiset<T>, b: multiset<T>, c: multiset<T>, d: multiset<T>, e: multiset<T>)
    requires a + b == c + d
    ensures (e + a) + b == (e + c) + d
  {
    assert (e + a) + b == e + (a + b);
  }

  lemma Cancel<T>(a: multiset<T>, c: multiset<T>, p: multiset<T>, b: multiset<T>)
    requires a + p == c + (p + b)
    ensures a == c + b
  {
    assert a == (a + p) - p;
  }

  lemma {:induction false} PredsInstead(ts: seq<Plan>, k: nat, u: Plan)
    requires k < |ts|
    ensures PredsOfAll(ts[k := u]) + Preds(ts[k]) == PredsOfAll(ts) + Preds(u)
  {
    if k == 0 {
      assert ts[0 := u][1..] == ts[1..];
    } else {
      PredsInstead(ts[1..], k - 1, u);
      assert ts[k := u][1..] == ts[1..][k - 1 := u];
      AddBoth(PredsOfAll(ts[1..][k - 1 := u]), Preds(ts[k]), PredsOfAll(ts[1..]), Preds(u), Preds(ts[0]));
    }
  }

  lemma PredsOfOne(t: Plan)
    ensures PredsOfAll([t]) == Preds(t)
  {
    assert [t][1..] == [];
  }

  lemma {:induction false} PushPreds(tb: Tables, b: LBExpr, id: nat, t: Plan)
    ensures Preds(Push(tb, b, id, t)) == Preds(t) + multiset{b}
  {
    if Pushable(tb, b, t) {
      var k := Way(tb, b, t);
      PushPreds(tb, b, id, t.ins[k]);
      PredsInstead(t.ins, k, Push(tb, b, id, t.ins[k]));
      Cancel(PredsOfAll(t.ins[k := Push(tb, b, id, t.ins[k])]), PredsOfAll(t.ins), Preds(t.ins[k]), multiset{b});
    } else {
      PredsOfOne(t);
    }
  }

  lemma {:induction false} PushTopPreds(tb: Tables, t: Plan, id: nat)
    ensures Preds(PushTopSelects(tb, t, id).0) == Preds(t)
    decreases Tops(t)
  {
    if t.op.Select? && |t.ins| == 1 {
      var b, x := t.op.pred, t.ins[0];
      assert t.ins == [x];
      PredsOfOne(x);
      if Useful(tb, b, x) {
        PushTops(tb, b, id, x);
        PushPreds(tb, b, id, x);
        PushTopPreds(tb, Push(tb, b, id, x), id + 1);
      } else {
        PushTopPreds(tb, x, id);
        PredsOfOne(PushTopSelects(tb, x, id).0);
      }
    }
  }

  /** No predicate is lost, and none is applied more often than before. */
  lemma {:induction false} SelectsPushedPreds(tb: Tables, t: Plan, id: nat)
    ensures Preds(SelectsPushed(tb, t, id).0) == Preds(t)
  {
    if OverSelect(t.op) && |t.ins| == 1 {
      SelectsPushedPreds(tb, t.ins[0], id);
      assert t.ins == [t.ins[0]];
      PredsOfOne(t.ins[0]);
      PredsOfOne(SelectsPushed(tb, t.ins[0], id).0);
    } else {
      PushTopPreds(tb, t, id);
    }
  }
}
