/** Turning an n-way cross or stream cross product into a left-deep tree of binary ones. */
module RewriteBinary {
  import opened Common
  import opened Histories
  import opened Semantics
  import opened LogicalPlan
  import opened Products

  /** Cross products on a list of plans, left-deep; the operators get the slots from id on, innermost first. */
  function LeftDeep(op: Payload, ts: seq<Plan>, id: nat): Plan
    requires |ts| >= 2
  {
    if |ts| == 2 then Plan(id, op, ts)
    else Plan(id + |ts| - 2, op, [LeftDeep(op, ts[..|ts| - 1], id), ts[|ts| - 1]])
  }

  predicate OverProduct(op: Payload) {
    op.Select? || op.Project? || op.GroupAggr? || op.Distinct? || op.Istream? || op.Dstream? || op.Rstream?
  }

  /** The plan with the first product of the given kind made binary, if only unary operators are above it. */
  ghost function MadeBinary(op: Payload, t: Plan, id: nat): Plan {
    if t.op == op && |t.ins| > 2 then LeftDeep(op, t.ins, id)
    else if OverProduct(t.op) && |t.ins| == 1 then t.(ins := [MadeBinary(op, t.ins[0], id)])
    else t
  }

  lemma FactorsPrefix(env: Env, n: nat, tb: Tables, ts: seq<Plan>, m: nat)
    requires m <= |ts|
    ensures Factors(env, n, tb, ts[..m]) == Factors(env, n, tb, ts)[..m]
    ensures Schemas(tb, ts[..m]) == Schemas(tb, ts)[..m]
    ensures Flags(ts[..m]) == Flags(ts)[..m]
  {
  }

  lemma FlatTwo<T>(a: seq<T>, b: seq<T>)
    ensures Flat([a, b]) == a + b
  {
    assert [a, b][..1] == [a];
    FlatOne(a);
  }

  lemma AllTrueLast(flags: seq<bool>)
    requires flags != []
    ensures AllTrue(flags) <==> AllTrue(flags[..|flags| - 1]) && flags[|flags| - 1]
  {
  }

  /** A product of the product of all plans but the last, and the last. */
  function Nested(op: Payload, ts: seq<Plan>, i: nat): (t: Plan)
    requires |ts| > 2
  {
    Plan(i, op, [Plan(i, op, ts[..|ts| - 1]), ts[|ts| - 1]])
  }

  lemma NestedShape(tb: Tables, op: Payload, ts: seq<Plan>, i: nat)
    requires IsProduct(op) && |ts| > 2
    ensures SchemaOf(tb, Nested(op, ts, i)) == SchemaOf(tb, Plan(i, op, ts))
    ensures IsStream(Nested(op, ts, i)) == IsStream(Plan(i, op, ts))
  {
    var m := |ts| - 1;
    var outer := Nested(op, ts, i);
    var inner := outer.ins[0];
    SchemaStep(tb, Plan(i, op, ts));
    SchemaStep(tb, inner);
    SchemaStep(tb, outer);
    assert Schemas(tb, inner.ins) == Schemas(tb, ts)[..m] && Flags(inner.ins) == Flags(ts)[..m];
    assert Schemas(tb, outer.ins) == [SchemaOf(tb, inner), SchemaOf(tb, ts[m])];
    assert Flags(outer.ins) == [IsStream(inner), IsStream(ts[m])];
    FlatTwo(SchemaOf(tb, inner), SchemaOf(tb, ts[m]));
    AllTrueLast(Flags(ts));
    AllTwo(IsStream(inner), IsStream(ts[m]));
  }

  lemma NestedCross(env: Env, n: nat, tb: Tables, ts: seq<Plan>, i: nat)
    requires |ts| > 2
    ensures Alike(env, n, tb, Plan(i, Cross, ts), Nested(Cross, ts, i))
  {
    NestedShape(tb, Cross, ts, i);
    CrossStep(env, n, tb, Plan(i, Cross, ts));
    CrossStep(env, n, tb, Nested(Cross, ts, i));
    NestedCrossProduct(env, n, tb, ts, Plan(i, Cross, ts[..|ts| - 1]));
  }

  lemma NestedCrossProduct(env: Env, n: nat, tb: Tables, ts: seq<Plan>, inner: Plan)
    requires |ts| > 2 && inner.op.Cross? && inner.ins == ts[..|ts| - 1]
    ensures ProductH(n, Factors(env, n, tb, [inner, ts[|ts| - 1]])) == ProductH(n, Factors(env, n, tb, ts))
  {
    var last := ts[|ts| - 1];
    var p, q := ProductH(n, Factors(env, n, tb, inner.ins)), View(Meaning(env, n, tb, last), IsStream(last));
    ViewOfCross(env, n, tb, inner);
    FactorsTwo(env, n, tb, inner, last);
    FactorsPrefix(env, n, tb, ts, |ts| - 1);
    ProductTwo(n, p, q);
  }

  /** What a product lets a reader see is the product. */
  lemma ViewOfCross(env: Env, n: nat, tb: Tables, c: Plan)
    requires c.op.Cross? && |c.ins| >= 2
    ensures View(Meaning(env, n, tb, c), IsStream(c)) == ProductH(n, Factors(env, n, tb, c.ins))
  {
    CrossStep(env, n, tb, c);
    if IsStream(c) {
      FactorsGrow(env, n, tb, c.ins);
    }
    ViewReport(ProductH(n, Factors(env, n, tb, c.ins)), IsStream(c));
  }

  lemma FactorsTwo(env: Env, n: nat, tb: Tables, a: Plan, b: Plan)
    ensures Factors(env, n, tb, [a, b]) == [View(Meaning(env, n, tb, a), IsStream(a)), View(Meaning(env, n, tb, b), IsStream(b))]
  {
  }

  lemma NestedStreamCross(env: Env, n: nat, tb: Tables, ts: seq<Plan>, i: nat)
    requires |ts| > 2
    ensures Alike(env, n, tb, Plan(i, StreamCross, ts), Nested(StreamCross, ts, i))
  {
    var m := |ts| - 1;
    var outer := Nested(StreamCross, ts, i);
    var inner := outer.ins[0];
    var hs := StreamFactors(env, n, tb, ts);
    NestedShape(tb, StreamCross, ts, i);
    CrossStep(env, n, tb, Plan(i, StreamCross, ts));
    CrossStep(env, n, tb, inner);
    CrossStep(env, n, tb, outer);
    FactorsPrefix(env, n, tb, ts, m);
    assert StreamFactors(env, n, tb, inner.ins) == hs[..m];
    NestedFactors(env, n, tb, inner, ts[m]);
    ProductTwo(n, Meaning(env, n, tb, inner), hs[m]);
  }

  lemma NestedFactors(env: Env, n: nat, tb: Tables, inner: Plan, last: Plan)
    ensures StreamFactors(env, n, tb, [inner, last])
         == [Meaning(env, n, tb, inner), View(Meaning(env, n, tb, last), IsStream(last))]
  {
  }

  /** The left-deep tree has the schema, the stream flag and the output of the n-way product. */
  lemma {:induction false} LeftDeepAlike(env: Env, n: nat, tb: Tables, op: Payload, ts: seq<Plan>, i: nat, id: nat)
    requires IsProduct(op) && |ts| >= 2
    ensures Alike(env, n, tb, Plan(i, op, ts), LeftDeep(op, ts, id))
  {
    var t, u := Plan(i, op, ts), LeftDeep(op, ts, id);
    if |ts| == 2 {
      AlikeInputs(env, n, tb, t, u);
    } else {
      LeftDeepAlike(env, n, tb, op, ts[..|ts| - 1], i, id);
      LeftDeepStep(env, n, tb, op, ts, i, id);
      if op.Cross? {
        NestedCross(env, n, tb, ts, i);
      } else {
        NestedStreamCross(env, n, tb, ts, i);
      }
      AlikeTrans(env, n, tb, t, Nested(op, ts, i), u);
    }
  }

  lemma LeftDeepStep(env: Env, n: nat, tb: Tables, op: Payload, ts: seq<Plan>, i: nat, id: nat)
    requires IsProduct(op) && |ts| > 2
    requires Alike(env, n, tb, Plan(i, op, ts[..|ts| - 1]), LeftDeep(op, ts[..|ts| - 1], id))
    ensures Alike(env, n, tb, Nested(op, ts, i), LeftDeep(op, ts, id))
  {
    AlikeInputs(env, n, tb, Nested(op, ts, i), LeftDeep(op, ts, id));
  }

  /** Soundness of the products of the first plans. */
  lemma {:induction false} LeftDeepSound(tb: Tables, op: Payload, ts: seq<Plan>, id: nat)
    requires IsProduct(op) && |ts| >= 2 && (forall k :: 0 <= k < |ts| ==> Sound(tb, ts[k]))
    requires Unique(Flat(Schemas(tb, ts))) && (op.StreamCross? ==> IsStream(ts[0]))
    ensures Sound(tb, LeftDeep(op, ts, id)) && SchemaOf(tb, LeftDeep(op, ts, id)) == Flat(Schemas(tb, ts))
    ensures op.StreamCross? ==> IsStream(LeftDeep(op, ts, id))
  {
    var u := LeftDeep(op, ts, id);
    if |ts| > 2 {
      var m := |ts| - 1;
      assert Schemas(tb, ts[..m]) == Schemas(tb, ts)[..m];
      UniqueLeft(Flat(Schemas(tb, ts)[..m]), SchemaOf(tb, ts[m]));
      LeftDeepSound(tb, op, ts[..m], id);
      assert Schemas(tb, u.ins) == [Flat(Schemas(tb, ts)[..m]), SchemaOf(tb, ts[m])];
      FlatTwo(Flat(Schemas(tb, ts)[..m]), SchemaOf(tb, ts[m]));
    }
    ProductSound(tb, u);
  }

  lemma ProductSound(tb: Tables, u: Plan)
    requires IsProduct(u.op) && |u.ins| >= 2 && forall k :: 0 <= k < |u.ins| ==> Sound(tb, u.ins[k])
    requires Unique(Flat(Schemas(tb, u.ins))) && (u.op.StreamCross? ==> IsStream(u.ins[0]))
    ensures Sound(tb, u) && SchemaOf(tb, u) == Flat(Schemas(tb, u.ins))
    ensures u.op.StreamCross? ==> IsStream(u)
  {
    SchemaStep(tb, u);
    assert Flags(u.ins)[0] == IsStream(u.ins[0]);
  }

  lemma LeftDeepMade(env: Env, n: nat, tb: Tables, t: Plan, id: nat)
    requires IsProduct(t.op) && Sound(tb, t) && |t.ins| > 2
    ensures Alike(env, n, tb, t, LeftDeep(t.op, t.ins, id)) && Sound(tb, LeftDeep(t.op, t.ins, id))
  {
    LeftDeepAlike(env, n, tb, t.op, t.ins, t.id, id);
    assert Flags(t.ins)[0] == IsStream(t.ins[0]);
    LeftDeepSound(tb, t.op, t.ins, id);
  }

  /** Making the first product binary keeps the plan alike. */
  lemma {:induction false} MadeBinaryAlike(env: Env, n: nat, tb: Tables, op: Payload, t: Plan, id: nat)
    requires IsProduct(op) && Sound(tb, t)
    ensures Alike(env, n, tb, t, MadeBinary(op, t, id)) && Sound(tb, MadeBinary(op, t, id))
  {
    hide OpSound;
    if t.op == op && |t.ins| > 2 {
      LeftDeepMade(env, n, tb, t, id);
    } else if OverProduct(t.op) && |t.ins| == 1 {
      MadeBinaryAlike(env, n, tb, op, t.ins[0], id);
      AlikeInputs(env, n, tb, t, MadeBinary(op, t, id));
    }
  }

  // ---------------------------------------------------------------- the operators of the tree

  /** How many operators the left-deep tree takes. */
  ghost function Needed(op: Payload, t: Plan): nat {
    if t.op == op && |t.ins| > 2 then |t.ins| - 1
    else if OverProduct(t.op) && |t.ins| == 1 then Needed(op, t.ins[0])
    else 0
  }

  /** Schema and flag of the left-deep tree. */
  lemma {:induction false} LeftDeepShape(tb: Tables, op: Payload, ts: seq<Plan>, id: nat)
    requires IsProduct(op) && |ts| >= 2
    ensures SchemaOf(tb, LeftDeep(op, ts, id)) == Flat(Schemas(tb, ts))
    ensures IsStream(LeftDeep(op, ts, id)) == OpStream(op, Flags(ts))
  {
    if |ts| > 2 {
      LeftDeepShape(tb, op, ts[..|ts| - 1], id);
      LeftDeepShapeStep(tb, op, ts, id);
    } else {
      SchemaStep(tb, LeftDeep(op, ts, id));
    }
  }

  lemma LeftDeepShapeStep(tb: Tables, op: Payload, ts: seq<Plan>, id: nat)
    requires IsProduct(op) && |ts| > 2
    requires var inner := LeftDeep(op, ts[..|ts| - 1], id);
      && SchemaOf(tb, inner) == Flat(Schemas(tb, ts[..|ts| - 1]))
      && IsStream(inner) == OpStream(op, Flags(ts[..|ts| - 1]))
    ensures SchemaOf(tb, LeftDeep(op, ts, id)) == Flat(Schemas(tb, ts))
    ensures IsStream(LeftDeep(op, ts, id)) == OpStream(op, Flags(ts))
  {
    hide AllTrue;
    var m := |ts| - 1;
    var u := LeftDeep(op, ts, id);
    ProductOver(tb, u, u.ins[0], ts[m]);
    assert Schemas(tb, ts[..m]) == Schemas(tb, ts)[..m];
    assert Flags(ts[..m]) == Flags(ts)[..m];
    AllTrueLast(Flags(ts));
  }

  /** Schema and flag of a binary product. */
  lemma ProductOver(tb: Tables, u: Plan, left: Plan, right: Plan)
    requires IsProduct(u.op) && u.ins == [left, right]
    ensures SchemaOf(tb, u) == SchemaOf(tb, left) + SchemaOf(tb, right)
    ensures IsStream(u) == (u.op.StreamCross? || (IsStream(left) && IsStream(right)))
  {
    SchemaStep(tb, u);
    assert Schemas(tb, u.ins) == [SchemaOf(tb, left), SchemaOf(tb, right)];
    assert Flags(u.ins) == [IsStream(left), IsStream(right)];
    FlatTwo(SchemaOf(tb, left), SchemaOf(tb, right));
    AllTwo(IsStream(left), IsStream(right));
  }
}
