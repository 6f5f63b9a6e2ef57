/**
 Pushing selects down.  A select goes below other selects, and below a product into the first input
 that supplies all its attributes.
 */
module RewriteSelect {
  import opened Common
  import opened Bags
  import opened Histories
  import opened Semantics
  import opened LogicalPlan
  import opened Products

  /** The first schema that has all attributes of the predicate, or the number of schemas. */
  function Supplier(b: LBExpr, schemas: seq<Schema>): (k: nat)
    ensures k <= |schemas|
    ensures k < |schemas| ==> PredResolves(b, schemas[k])
    ensures forall j :: 0 <= j < k ==> !PredResolves(b, schemas[j])
  {
    if schemas == [] || PredResolves(b, schemas[0]) then 0 else 1 + Supplier(b, schemas[1..])
  }

  /** Whether a select on b can go below the root of t. */
  ghost predicate Pushable(tb: Tables, b: LBExpr, t: Plan) {
    if t.op.Select? then |t.ins| == 1
    else IsProduct(t.op) && Supplier(b, Schemas(tb, t.ins)) < |t.ins|
  }

  /** The input it goes to. */
  ghost function Way(tb: Tables, b: LBExpr, t: Plan): (k: nat)
    requires Pushable(tb, b, t)
    ensures k < |t.ins|
  {
    if t.op.Select? then 0 else Supplier(b, Schemas(tb, t.ins))
  }

  /** The plan with a select on b put in as deep as it can go. */
  ghost function Push(tb: Tables, b: LBExpr, id: nat, t: Plan): Plan {
    if Pushable(tb, b, t) then
      var k := Way(tb, b, t);
      t.(ins := t.ins[k := Push(tb, b, id, t.ins[k])])
    else Plan(id, Select(b), [t])
  }

  /** The select gets below a product. */
  ghost predicate Useful(tb: Tables, b: LBExpr, t: Plan) {
    Pushable(tb, b, t) && (t.op.Select? ==> Useful(tb, b, t.ins[0]))
  }

  /** The number of selects on top. */
  ghost function Tops(t: Plan): nat {
    if t.op.Select? && |t.ins| == 1 then 1 + Tops(t.ins[0]) else 0
  }

  lemma {:induction false} PushTops(tb: Tables, b: LBExpr, id: nat, t: Plan)
    requires Useful(tb, b, t)
    ensures Tops(Push(tb, b, id, t)) == Tops(t)
  {
    if t.op.Select? {
      PushTops(tb, b, id, t.ins[0]);
    }
  }

  /** Every select on top, from the first, is moved below a product if it can get there. */
  ghost function PushTopSelects(tb: Tables, t: Plan, id: nat): (Plan, nat)
    decreases Tops(t)
  {
    if !(t.op.Select? && |t.ins| == 1) then (t, id)
    else if Useful(tb, t.op.pred, t.ins[0]) then
      PushTops(tb, t.op.pred, id, t.ins[0]);
      PushTopSelects(tb, Push(tb, t.op.pred, id, t.ins[0]), id + 1)
    else
      var (u, next) := PushTopSelects(tb, t.ins[0], id);
      (t.(ins := [u]), next)
  }

  predicate OverSelect(op: Payload) {
    op.Istream? || op.Dstream? || op.Rstream? || op.Project? || op.Distinct? || op.GroupAggr?
  }

  /** The plan with the selects below its first unary operators pushed, and the next free slot. */
  ghost function SelectsPushed(tb: Tables, t: Plan, id: nat): (Plan, nat) {
    if OverSelect(t.op) && |t.ins| == 1 then
      var (u, next) := SelectsPushed(tb, t.ins[0], id);
      (t.(ins := [u]), next)
    else PushTopSelects(tb, t, id)
  }

  // ---------------------------------------------------------------- references in products

  lemma {:induction false} ValuePrefix(env: Env, e: LExpr, s: Schema, r: Schema, x: Tuple, y: Tuple)
    requires Resolves(e, s) && |x| == |s|
    ensures Resolves(e, s + r) && ValueIn(env, e, s + r, x + y) == ValueIn(env, e, s, x)
  {
    match e
    case Const(_) =>
    case AttrRef(a) => FindPrefix(s, r, a);
    case Comp(_, l, m) => ValuePrefix(env, l, s, r, x, y); ValuePrefix(env, m, s, r, x, y);
  }

  lemma FindPrefix(s: Schema, r: Schema, a: Attr)
    requires Find(s, a) < |s|
    ensures Find(s + r, a) == Find(s, a)
  {
    var k := Find(s, a);
    assert (s + r)[k] == s[k];
    if Find(s + r, a) < k {
      assert false;
    }
  }

  lemma {:induction false} ValueSuffix(env: Env, e: LExpr, s: Schema, r: Schema, x: Tuple, y: Tuple)
    requires Resolves(e, r) && Unique(s + r) && |x| == |s| && |y| == |r|
    ensures Resolves(e, s + r) && ValueIn(env, e, s + r, x + y) == ValueIn(env, e, r, y)
  {
    match e
    case Const(_) =>
    case AttrRef(a) =>
      assert (s + r)[|s| + Find(r, a)] == r[Find(r, a)];
      FindUnique(s + r, a, |s| + Find(r, a));
    case Comp(_, l, m) => ValueSuffix(env, l, s, r, x, y); ValueSuffix(env, m, s, r, x, y);
  }

  lemma SelectsPrefix(env: Env, b: LBExpr, s: Schema, r: Schema, a: Hist, c: Hist)
    requires PredResolves(b, s) && |a| == |c| && HasWidth(a, |s|)
    ensures FilterH(JoinH(a, c, Concat), Selects(env, b, s + r)) == JoinH(FilterH(a, Selects(env, b, s)), c, Concat)
  {
    forall t | 0 <= t < |a|
      ensures Filter(Product(a[t], c[t]), Selects(env, b, s + r)) == Product(Filter(a[t], Selects(env, b, s)), c[t])
    {
      forall x, y | x in a[t] && y in c[t]
        ensures Selects(env, b, s + r)(x + y) == Selects(env, b, s)(x)
      {
        ValuePrefix(env, b.left, s, r, x, y);
        ValuePrefix(env, b.right, s, r, x, y);
      }
      FilterProductLeft(a[t], c[t], Selects(env, b, s), Selects(env, b, s + r));
    }
  }

  lemma SelectsSuffix(env: Env, b: LBExpr, s: Schema, r: Schema, a: Hist, c: Hist)
    requires PredResolves(b, r) && Unique(s + r) && |a| == |c| && HasWidth(a, |s|) && HasWidth(c, |r|)
    ensures FilterH(JoinH(a, c, Concat), Selects(env, b, s + r)) == JoinH(a, FilterH(c, Selects(env, b, r)), Concat)
  {
    forall t | 0 <= t < |a|
      ensures Filter(Product(a[t], c[t]), Selects(env, b, s + r)) == Product(a[t], Filter(c[t], Selects(env, b, r)))
    {
      forall x, y | x in a[t] && y in c[t]
        ensures Selects(env, b, s + r)(x + y) == Selects(env, b, r)(y)
      {
        ValueSuffix(env, b.left, s, r, x, y);
        ValueSuffix(env, b.right, s, r, x, y);
      }
      FilterProductRight(a[t], c[t], Selects(env, b, r), Selects(env, b, s + r));
    }
  }

  lemma {:induction false} ResolvesFlat(b: LBExpr, schemas: seq<Schema>, k: nat)
    requires k < |schemas| && PredResolves(b, schemas[k]) && Unique(Flat(schemas))
    ensures PredResolves(b, Flat(schemas))
  {
    var m := |schemas| - 1;
    var env := Env((op, v, w) => NoValue, (op, v, w) => true, (i, j) => multiset{}, (i) => 0,
                   (i, h) => multiset{}, (s, i, h) => multiset{}, (s, r, h) => multiset{});
    var s, r := Flat(schemas[..m]), schemas[m];
    if k == m {
      var x, y := seq(|s|, i => NoValue), seq(|r|, i => NoValue);
      ValueSuffix(env, b.left, s, r, x, y);
      ValueSuffix(env, b.right, s, r, x, y);
    } else {
      UniqueLeft(s, r);
      ResolvesFlat(b, schemas[..m], k);
      var x := seq(|s|, i => NoValue);
      ValuePrefix(env, b.left, s, r, x, []);
      ValuePrefix(env, b.right, s, r, x, []);
    }
  }

  /** Filtering one factor filters the product. */
  lemma {:induction false} ProductFilter(env: Env, n: nat, b: LBExpr, hs: seq<Hist>, schemas: seq<Schema>, k: nat)
    requires |hs| == |schemas| && k < |hs|
    requires forall j :: 0 <= j < |hs| ==> |hs[j]| == n && HasWidth(hs[j], |schemas[j]|)
    requires Unique(Flat(schemas)) && PredResolves(b, schemas[k])
    ensures ProductH(n, hs[k := FilterH(hs[k], Selects(env, b, schemas[k]))])
         == FilterH(ProductH(n, hs), Selects(env, b, Flat(schemas)))
  {
    var m := |hs| - 1;
    var s, r := Flat(schemas[..m]), schemas[m];
    var p := FilterH(hs[k], Selects(env, b, schemas[k]));
    if m == 0 {
      FlatOne(schemas[0]);
      assert schemas == [schemas[0]];
    } else {
      ProductWidth(n, hs[..m], schemas[..m]);
      if k == m {
        assert hs[k := p][..m] == hs[..m];
        SelectsSuffix(env, b, s, r, ProductH(n, hs[..m]), hs[m]);
      } else {
        UniqueLeft(s, r);
        ProductFilter(env, n, b, hs[..m], schemas[..m], k);
        ResolvesFlat(b, schemas[..m], k);
        assert hs[k := p][..m] == hs[..m][k := p];
        SelectsPrefix(env, b, s, r, ProductH(n, hs[..m]), hs[m]);
      }
    }
  }

  // ---------------------------------------------------------------- one push

  /** A select on top of a plan. */
  function Over(id: nat, b: LBExpr, t: Plan): Plan {
    Plan(id, Select(b), [t])
  }

  lemma OverStep(env: Env, n: nat, tb: Tables, id: nat, b: LBExpr, t: Plan)
    ensures SchemaOf(tb, Over(id, b, t)) == SchemaOf(tb, t) && IsStream(Over(id, b, t)) == IsStream(t)
    ensures Meaning(env, n, tb, Over(id, b, t)) == FilterH(Meaning(env, n, tb, t), Selects(env, b, SchemaOf(tb, t)))
    ensures Sound(tb, t) && PredResolves(b, SchemaOf(tb, t)) <==> Sound(tb, Over(id, b, t))
  {
    var u := Over(id, b, t);
    SchemaStep(tb, u);
    MeaningStep(env, n, tb, u);
    assert Schemas(tb, u.ins)[0] == SchemaOf(tb, t) && Meanings(env, n, tb, u.ins)[0] == Meaning(env, n, tb, t);
    assert Flags(u.ins)[0] == IsStream(t);
    assert u.ins[0] == t;
  }

  /** A select over a select, and the two exchanged. */
  lemma SelectsExchange(env: Env, n: nat, tb: Tables, i: nat, b: LBExpr, j: nat, c: LBExpr, t: Plan)
    ensures Alike(env, n, tb, Over(i, b, Over(j, c, t)), Over(j, c, Over(i, b, t)))
  {
    var s, h := SchemaOf(tb, t), Meaning(env, n, tb, t);
    OverStep(env, n, tb, i, b, t);
    OverStep(env, n, tb, j, c, t);
    OverStep(env, n, tb, i, b, Over(j, c, t));
    OverStep(env, n, tb, j, c, Over(i, b, t));
    forall k | 0 <= k < n
      ensures Filter(Filter(h[k], Selects(env, c, s)), Selects(env, b, s))
           == Filter(Filter(h[k], Selects(env, b, s)), Selects(env, c, s))
    {
      FilterCommute(h[k], Selects(env, c, s), Selects(env, b, s));
    }
  }

  lemma PushedFactors(env: Env, n: nat, tb: Tables, b: LBExpr, id: nat, ts: seq<Plan>, k: nat)
    requires k < |ts|
    ensures var us := ts[k := Over(id, b, ts[k])];
      var p := Selects(env, b, SchemaOf(tb, ts[k]));
      && Schemas(tb, us) == Schemas(tb, ts) && Flags(us) == Flags(ts)
      && Factors(env, n, tb, us) == Factors(env, n, tb, ts)[k := FilterH(Factors(env, n, tb, ts)[k], p)]
      && StreamFactors(env, n, tb, us) == StreamFactors(env, n, tb, ts)[k := FilterH(StreamFactors(env, n, tb, ts)[k], p)]
  {
    OverStep(env, n, tb, id, b, ts[k]);
    ViewBind(Meaning(env, n, tb, ts[k]), Keep(Selects(env, b, SchemaOf(tb, ts[k]))), IsStream(ts[k]));
  }

  lemma PushBelowCross(env: Env, n: nat, tb: Tables, b: LBExpr, i: nat, j: nat, t: Plan, k: nat)
    requires t.op.Cross? && Sound(tb, t) && Matches(env, tb) && k < |t.ins| && PredResolves(b, SchemaOf(tb, t.ins[k]))
    ensures Alike(env, n, tb, Over(i, b, t), t.(ins := t.ins[k := Over(j, b, t.ins[k])]))
  {
    var u := t.(ins := t.ins[k := Over(j, b, t.ins[k])]);
    var hs := Factors(env, n, tb, t.ins);
    CrossStep(env, n, tb, t);
    CrossStep(env, n, tb, u);
    OverStep(env, n, tb, i, b, t);
    PushedFactors(env, n, tb, b, j, t.ins, k);
    FactorsWidth(env, n, tb, t.ins);
    ProductFilter(env, n, b, hs, Schemas(tb, t.ins), k);
    if IsStream(t) {
      FactorsGrow(env, n, tb, t.ins);
    }
    ReportBind(ProductH(n, hs), Keep(Selects(env, b, SchemaOf(tb, t))), IsStream(t));
  }

  lemma PushBelowStreamCross(env: Env, n: nat, tb: Tables, b: LBExpr, i: nat, j: nat, t: Plan, k: nat)
    requires t.op.StreamCross? && Sound(tb, t) && Matches(env, tb) && k < |t.ins| && PredResolves(b, SchemaOf(tb, t.ins[k]))
    ensures Alike(env, n, tb, Over(i, b, t), t.(ins := t.ins[k := Over(j, b, t.ins[k])]))
  {
    var u := t.(ins := t.ins[k := Over(j, b, t.ins[k])]);
    CrossStep(env, n, tb, t);
    CrossStep(env, n, tb, u);
    OverStep(env, n, tb, i, b, t);
    PushedFactors(env, n, tb, b, j, t.ins, k);
    StreamFactorsFilter(env, n, tb, b, t, k);
  }

  lemma StreamFactorsFilter(env: Env, n: nat, tb: Tables, b: LBExpr, t: Plan, k: nat)
    requires t.op.StreamCross? && Sound(tb, t) && Matches(env, tb) && k < |t.ins| && PredResolves(b, SchemaOf(tb, t.ins[k]))
    ensures var hs := StreamFactors(env, n, tb, t.ins);
      ProductH(n, hs[k := FilterH(hs[k], Selects(env, b, SchemaOf(tb, t.ins[k])))])
      == FilterH(ProductH(n, hs), Selects(env, b, Flat(Schemas(tb, t.ins))))
  {
    FactorsWidth(env, n, tb, t.ins);
    MeaningWidth(env, n, tb, t.ins[0]);
    ProductFilter(env, n, b, StreamFactors(env, n, tb, t.ins), Schemas(tb, t.ins), k);
  }

  /** Putting a select in as deep as it can go is like putting it on top. */
  lemma {:induction false} PushAlike(env: Env, n: nat, tb: Tables, b: LBExpr, i: nat, id: nat, t: Plan)
    requires Sound(tb, t) && Matches(env, tb) && PredResolves(b, SchemaOf(tb, t))
    ensures Alike(env, n, tb, Over(i, b, t), Push(tb, b, id, t)) && Sound(tb, Push(tb, b, id, t))
  {
    OverStep(env, n, tb, i, b, t);
    OverStep(env, n, tb, id, b, t);
    if Pushable(tb, b, t) {
      var k := Way(tb, b, t);
      SchemaStep(tb, t);
      assert PredResolves(b, SchemaOf(tb, t.ins[k]));
      PushAlike(env, n, tb, b, i, id, t.ins[k]);
      PushDown(env, n, tb, b, i, t, k, Push(tb, b, id, t.ins[k]));
    }
  }

  /** One step down: u is like a select on top of input k. */
  lemma PushDown(env: Env, n: nat, tb: Tables, b: LBExpr, i: nat, t: Plan, k: nat, u: Plan)
    requires Sound(tb, t) && Matches(env, tb) && Pushable(tb, b, t) && k == Way(tb, b, t)
    requires PredResolves(b, SchemaOf(tb, t.ins[k])) && Alike(env, n, tb, Over(i, b, t.ins[k]), u) && Sound(tb, u)
    ensures Alike(env, n, tb, Over(i, b, t), t.(ins := t.ins[k := u])) && Sound(tb, t.(ins := t.ins[k := u]))
  {
    var v := Instead(t, k, Over(i, b, t.ins[k]));
    PushOne(env, n, tb, b, i, t, k);
    PushedSound(env, n, tb, b, i, t, k);
    InsteadTwice(t, k, Over(i, b, t.ins[k]), u);
    AlikeAt(env, n, tb, v, k, u);
    AlikeTrans(env, n, tb, Over(i, b, t), v, Instead(t, k, u));
  }

  /** The plan with input k replaced. */
  function Instead(t: Plan, k: nat, u: Plan): (v: Plan)
    requires k < |t.ins|
    ensures v == t.(ins := t.ins[k := u]) && v.ins[k] == u
  {
    t.(ins := t.ins[k := u])
  }

  lemma InsteadTwice(t: Plan, k: nat, u: Plan, v: Plan)
    requires k < |t.ins|
    ensures Instead(Instead(t, k, u), k, v) == Instead(t, k, v)
  {
  }

  lemma PushedSound(env: Env, n: nat, tb: Tables, b: LBExpr, i: nat, t: Plan, k: nat)
    requires Sound(tb, t) && k < |t.ins| && PredResolves(b, SchemaOf(tb, t.ins[k]))
    ensures Sound(tb, t.(ins := t.ins[k := Over(i, b, t.ins[k])]))
  {
    var u := t.(ins := t.ins[k := Over(i, b, t.ins[k])]);
    OverStep(env, n, tb, i, b, t.ins[k]);
    assert Schemas(tb, u.ins) == Schemas(tb, t.ins) && Flags(u.ins) == Flags(t.ins);
  }

  lemma AlikeAt(env: Env, n: nat, tb: Tables, t: Plan, k: nat, u: Plan)
    requires k < |t.ins| && Alike(env, n, tb, t.ins[k], u)
    ensures Alike(env, n, tb, t, t.(ins := t.ins[k := u]))
    ensures Sound(tb, t) && Sound(tb, u) ==> Sound(tb, t.(ins := t.ins[k := u]))
  {
    AlikeInputs(env, n, tb, t, t.(ins := t.ins[k := u]));
  }

  lemma PushOne(env: Env, n: nat, tb: Tables, b: LBExpr, i: nat, t: Plan, k: nat)
    requires Sound(tb, t) && Matches(env, tb) && Pushable(tb, b, t) && k == Way(tb, b, t)
    requires PredResolves(b, SchemaOf(tb, t.ins[k]))
    ensures Alike(env, n, tb, Over(i, b, t), t.(ins := t.ins[k := Over(i, b, t.ins[k])]))
  {
    match t.op {
      case Select(c) =>
        assert t == Over(t.id, c, t.ins[0]);
        assert t.(ins := t.ins[0 := Over(i, b, t.ins[0])]) == Over(t.id, c, Over(i, b, t.ins[0]));
        SelectsExchange(env, n, tb, i, b, t.id, c, t.ins[0]);
      case Cross => PushBelowCross(env, n, tb, b, i, i, t, k);
      case StreamCross => PushBelowStreamCross(env, n, tb, b, i, i, t, k);
    }
  }

  /** Pushing all the selects on top keeps the plan alike. */
  lemma {:induction false} PushTopAlike(env: Env, n: nat, tb: Tables, t: Plan, id: nat)
    requires Sound(tb, t) && Matches(env, tb)
    ensures Alike(env, n, tb, t, PushTopSelects(tb, t, id).0) && Sound(tb, PushTopSelects(tb, t, id).0)
    decreases Tops(t)
  {
    if t.op.Select? {
      var b, x := t.op.pred, t.ins[0];
      assert t == Over(t.id, b, x);
      OverStep(env, n, tb, t.id, b, x);
      if Useful(tb, b, x) {
        PushTops(tb, b, id, x);
        PushAlike(env, n, tb, b, t.id, id, x);
        PushTopAlike(env, n, tb, Push(tb, b, id, x), id + 1);
      } else {
        PushTopAlike(env, n, tb, x, id);
        var u := PushTopSelects(tb, x, id).0;
        AlikeAt(env, n, tb, t, 0, u);
        assert t.ins[0 := u] == [u];
      }
    }
  }

  /** Pushing selects down keeps the plan alike. */
  lemma {:induction false} SelectsPushedAlike(env: Env, n: nat, tb: Tables, t: Plan, id: nat)
    requires Sound(tb, t) && Matches(env, tb)
    ensures Alike(env, n, tb, t, SelectsPushed(tb, t, id).0) && Sound(tb, SelectsPushed(tb, t, id).0)
  {
    if OverSelect(t.op) && |t.ins| == 1 {
      SelectsPushedAlike(env, n, tb, t.ins[0], id);
      var u := SelectsPushed(tb, t.ins[0], id).0;
      AlikeAt(env, n, tb, t, 0, u);
      assert t.ins[0 := u] == [u];
    } else {
      PushTopAlike(env, n, tb, t, id);
    }
  }
}
