/**
 Turning a cross product with a Now window into a stream cross product, under an Rstream.  The stream
 moves to the front, so the columns of everything up to the next project move with it.
 */
module RewriteCross {
  import opened Common
  import opened Bags
  import opened Histories
  import opened Semantics
  import opened LogicalPlan
  import opened Products

  /** The operators the search for the cross product steps over. */
  predicate OverCross(op: Payload) {
    op.Project? || op.Distinct? || op.GroupAggr? || op.Select?
  }

  ghost predicate CrossBelow(t: Plan) {
    t.op.Cross? || (OverCross(t.op) && |t.ins| == 1 && CrossBelow(t.ins[0]))
  }

  ghost function CrossOf(t: Plan): Plan
    requires CrossBelow(t)
  {
    if t.op.Cross? then t else CrossOf(t.ins[0])
  }

  /** The position of the first Now window, or the number of plans. */
  function NowAt(ts: seq<Plan>): (k: nat)
    ensures k <= |ts|
    ensures k < |ts| ==> ts[k].op.NowWin?
    ensures forall j :: 0 <= j < k ==> !ts[j].op.NowWin?
  {
    if ts == [] || ts[0].op.NowWin? then 0 else 1 + NowAt(ts[1..])
  }

  ghost predicate HasNow(c: Plan) {
    c.op.Cross? && NowAt(c.ins) < |c.ins| && |c.ins[NowAt(c.ins)].ins| == 1
  }

  /** The stream under the window, then the other inputs in their order. */
  function StreamFirst(ts: seq<Plan>): (r: seq<Plan>)
    requires NowAt(ts) < |ts| && |ts[NowAt(ts)].ins| == 1
    ensures |r| == |ts|
  {
    First(ts, NowAt(ts))[0 := ts[NowAt(ts)].ins[0]]
  }

  ghost predicate Streamable(t: Plan) {
    CrossBelow(t) && HasNow(CrossOf(t))
  }

  ghost function Streamed(t: Plan, id: nat): Plan
    requires Streamable(t)
  {
    if t.op.Cross? then Plan(id, StreamCross, StreamFirst(t.ins)) else t.(ins := [Streamed(t.ins[0], id)])
  }

  /** The plan with the stream cross product and without the Rstream, if it has the pattern. */
  ghost function StreamCrossed(t: Plan, id: nat): Plan {
    if t.op.Rstream? && |t.ins| == 1 && Streamable(t.ins[0]) then Streamed(t.ins[0], id) else t
  }

  /** Only selects and projects above the cross product. */
  ghost predicate PlainPath(t: Plan)
    requires CrossBelow(t)
  {
    t.op.Cross? || ((t.op.Select? || t.op.Project?) && PlainPath(t.ins[0]))
  }

  /** An operator on the path gives the columns an order of its own. */
  ghost predicate Reordered(t: Plan)
    requires CrossBelow(t)
  {
    !t.op.Cross? && (t.op.Project? || t.op.GroupAggr? || Reordered(t.ins[0]))
  }

  // ---------------------------------------------------------------- the cross product itself

  lemma CrossStreamedShape(tb: Tables, c: Plan, id: nat) returns (off: nat, w: nat)
    requires HasNow(c) && Sound(tb, c)
    ensures off + w <= |SchemaOf(tb, c)| && Unique(SchemaOf(tb, c))
    ensures off == |Flat(Schemas(tb, c.ins)[..NowAt(c.ins)])| && w == |Schemas(tb, c.ins)[NowAt(c.ins)]|
    ensures SchemaOf(tb, Streamed(c, id)) == Front(off, w, SchemaOf(tb, c))
    ensures Sound(tb, Streamed(c, id)) && IsStream(Streamed(c, id)) && !IsStream(c)
  {
    var k, u := NowAt(c.ins), Streamed(c, id);
    SchemaStep(tb, c);
    SchemaStep(tb, u);
    StreamFirstSound(tb, c);
    assert Flags(c.ins)[k] == IsStream(c.ins[k]);
    FlatFirst(Schemas(tb, c.ins), k);
    off, w := |Flat(Schemas(tb, c.ins)[..k])|, |Schemas(tb, c.ins)[k]|;
    FrontUnique(off, w, SchemaOf(tb, c));
  }

  lemma StreamFirstSound(tb: Tables, c: Plan)
    requires HasNow(c) && Sound(tb, c)
    ensures forall j :: 0 <= j < |c.ins| ==> Sound(tb, StreamFirst(c.ins)[j])
    ensures IsStream(StreamFirst(c.ins)[0]) && !IsStream(c.ins[NowAt(c.ins)])
    ensures Schemas(tb, StreamFirst(c.ins)) == First(Schemas(tb, c.ins), NowAt(c.ins))
  {
    var k, ts := NowAt(c.ins), StreamFirst(c.ins);
    SchemaStep(tb, c.ins[k]);
    assert Sound(tb, c.ins[k]) && Sound(tb, ts[0]);
    assert Flags(c.ins[k].ins)[0] == IsStream(ts[0]);
    forall j | 0 < j < |ts|
      ensures Sound(tb, ts[j]) && SchemaOf(tb, ts[j]) == First(Schemas(tb, c.ins), k)[j]
    {
      assert ts[j] == c.ins[if j <= k then j - 1 else j];
    }
  }

  /** Plan u has the columns of t, with w of them moved to the front, in schema and tuples alike. */
  ghost predicate Moved(env: Env, n: nat, tb: Tables, t: Plan, u: Plan, off: nat, w: nat) {
    && off + w <= |SchemaOf(tb, t)| && (w == 0 || Unique(SchemaOf(tb, t)))
    && SchemaOf(tb, u) == Front(off, w, SchemaOf(tb, t))
    && Meaning(env, n, tb, u) == MapH(Meaning(env, n, tb, t), Fronting(off, w))
  }

  /** The factors of the stream cross product are those of the cross product, the stream first. */
  lemma SameFactors(env: Env, n: nat, tb: Tables, c: Plan)
    requires HasNow(c)
    ensures StreamFactors(env, n, tb, StreamFirst(c.ins)) == First(Factors(env, n, tb, c.ins), NowAt(c.ins))
  {
    hide Meaning, SchemaOf;
    var k, ts := NowAt(c.ins), StreamFirst(c.ins);
    MeaningStep(env, n, tb, c.ins[k]);
    SchemaStep(tb, c.ins[k]);
    forall j | 0 < j < |ts|
      ensures Factors(env, n, tb, ts)[j] == First(Factors(env, n, tb, c.ins), k)[j]
    {
      assert ts[j] == c.ins[if j <= k then j - 1 else j];
    }
  }

  lemma StreamCrossMeaning(env: Env, n: nat, tb: Tables, c: Plan, id: nat)
    requires HasNow(c) && Sound(tb, c) && Matches(env, tb) && !IsStream(c)
    ensures Meaning(env, n, tb, Streamed(c, id))
         == MapH(Meaning(env, n, tb, c), Fronting(|Flat(Schemas(tb, c.ins)[..NowAt(c.ins)])|, |Schemas(tb, c.ins)[NowAt(c.ins)]|))
  {
    CrossStep(env, n, tb, c);
    CrossStep(env, n, tb, Streamed(c, id));
    SameFactors(env, n, tb, c);
    FactorsWidth(env, n, tb, c.ins);
    ProductFirst(n, Factors(env, n, tb, c.ins), Schemas(tb, c.ins), NowAt(c.ins));
  }

  lemma CrossMoved(env: Env, n: nat, tb: Tables, c: Plan, id: nat) returns (off: nat, w: nat)
    requires HasNow(c) && Sound(tb, c) && Matches(env, tb)
    ensures Moved(env, n, tb, c, Streamed(c, id), off, w)
  {
    off, w := CrossStreamedShape(tb, c, id);
    StreamCrossMeaning(env, n, tb, c, id);
  }

  // ---------------------------------------------------------------- references after moving columns

  lemma FrontNone<T>(off: nat, s: seq<T>)
    ensures Front(off, 0, s) == s
  {
  }

  lemma FindFront(off: nat, w: nat, s: Schema, a: Attr)
    requires Unique(s) && off + w <= |s|
    ensures Find(Front(off, w, s), a) < |s| <==> Find(s, a) < |s|
  {
    LookupFront(off, w, s, seq(|s|, i => NoValue), a);
  }

  lemma {:induction false} ResolvesFront(off: nat, w: nat, s: Schema, e: LExpr)
    requires Unique(s) && off + w <= |s|
    ensures Resolves(e, Front(off, w, s)) == Resolves(e, s)
  {
    match e
    case Const(_) =>
    case AttrRef(a) => FindFront(off, w, s, a);
    case Comp(_, l, r) => ResolvesFront(off, w, s, l); ResolvesFront(off, w, s, r);
  }

  lemma {:induction false} ValueFront(env: Env, off: nat, w: nat, s: Schema, x: Tuple, e: LExpr)
    requires Unique(s) && off + w <= |s| && |x| == |s|
    ensures ValueIn(env, e, Front(off, w, s), Front(off, w, x)) == ValueIn(env, e, s, x)
  {
    match e
    case Const(_) =>
    case AttrRef(a) => LookupFront(off, w, s, x, a);
    case Comp(_, l, r) => ValueFront(env, off, w, s, x, l); ValueFront(env, off, w, s, x, r);
  }

  lemma SelectsFront(env: Env, off: nat, w: nat, s: Schema, h: Hist, b: LBExpr)
    requires Unique(s) && off + w <= |s| && HasWidth(h, |s|)
    ensures FilterH(MapH(h, Fronting(off, w)), Selects(env, b, Front(off, w, s)))
         == MapH(FilterH(h, Selects(env, b, s)), Fronting(off, w))
  {
    forall t | 0 <= t < |h|
      ensures Filter(Map(h[t], Fronting(off, w)), Selects(env, b, Front(off, w, s)))
           == Map(Filter(h[t], Selects(env, b, s)), Fronting(off, w))
    {
      forall x | x in h[t]
        ensures Selects(env, b, Front(off, w, s))(Fronting(off, w)(x)) == Selects(env, b, s)(x)
      {
        ValueFront(env, off, w, s, x, b.left);
        ValueFront(env, off, w, s, x, b.right);
      }
      FilterMap(h[t], Fronting(off, w), Selects(env, b, s), Selects(env, b, Front(off, w, s)));
    }
  }

  lemma FilterMap(m: Bag, f: Tuple -> Tuple, p: Tuple -> bool, q: Tuple -> bool)
    requires forall x :: x in m ==> q(f(x)) == p(x)
    ensures Filter(Map(m, f), q) == Map(Filter(m, p), f)
  {
    var h := KeepEach(p, f);
    forall x | x in m
      ensures h(x) == Bind(Each(f)(x), Keep(q)) && h(x) == Bind(Keep(p)(x), Each(f))
    {
      BindSingle(f(x), Keep(q));
      BindSingle(x, Each(f));
    }
    BindBind(m, Each(f), Keep(q), h);
    BindBind(m, Keep(p), Each(f), h);
  }

  ghost function KeepEach(p: Tuple -> bool, f: Tuple -> Tuple): Tuple -> Bag {
    x => if p(x) then multiset{f(x)} else multiset{}
  }

  lemma ComputesFront(env: Env, off: nat, w: nat, s: Schema, h: Hist, projs: seq<LExpr>)
    requires Unique(s) && off + w <= |s| && HasWidth(h, |s|)
    ensures MapH(MapH(h, Fronting(off, w)), Computes(env, projs, Front(off, w, s)))
         == MapH(h, Computes(env, projs, s))
  {
    forall t | 0 <= t < |h|
      ensures Map(Map(h[t], Fronting(off, w)), Computes(env, projs, Front(off, w, s)))
           == Map(h[t], Computes(env, projs, s))
    {
      forall x | x in h[t]
        ensures Computes(env, projs, Front(off, w, s))(Fronting(off, w)(x)) == Computes(env, projs, s)(x)
      {
        forall k | 0 <= k < |projs|
          ensures ValueIn(env, projs[k], Front(off, w, s), Front(off, w, x)) == ValueIn(env, projs[k], s, x)
        {
          ValueFront(env, off, w, s, x, projs[k]);
        }
      }
      MapMap(h[t], Fronting(off, w), Computes(env, projs, Front(off, w, s)), Computes(env, projs, s));
    }
  }

  lemma MapMap(m: Bag, f: Tuple -> Tuple, g: Tuple -> Tuple, gf: Tuple -> Tuple)
    requires forall x :: x in m ==> g(f(x)) == gf(x)
    ensures Map(Map(m, f), g) == Map(m, gf)
  {
    forall x | x in m
      ensures Each(gf)(x) == Bind(Each(f)(x), Each(g))
    {
      BindSingle(f(x), Each(g));
    }
    BindBind(m, Each(f), Each(g), Each(gf));
  }

  // ---------------------------------------------------------------- the path above it

  /** Schema and soundness along any path the search accepts. */
  lemma {:induction false} StreamedShape(tb: Tables, t: Plan, id: nat) returns (off: nat, w: nat)
    requires Streamable(t) && Sound(tb, t)
    ensures off + w <= |SchemaOf(tb, t)| && (w == 0 || Unique(SchemaOf(tb, t)))
    ensures Reordered(t) ==> w == 0
    ensures SchemaOf(tb, Streamed(t, id)) == Front(off, w, SchemaOf(tb, t))
    ensures Sound(tb, Streamed(t, id)) && !IsStream(t)
    ensures PlainPath(t) ==> IsStream(Streamed(t, id))
  {
    if t.op.Cross? {
      off, w := CrossStreamedShape(tb, t, id);
    } else {
      off, w := StreamedShape(tb, t.ins[0], id);
      StreamedOver(tb, t, id, off, w);
      if Reordered(t) {
        off, w := 0, 0;
      }
    }
  }

  lemma StreamedOver(tb: Tables, t: Plan, id: nat, off: nat, w: nat)
    requires Streamable(t) && !t.op.Cross? && Sound(tb, t)
    requires var s := SchemaOf(tb, t.ins[0]);
      && off + w <= |s| && (w == 0 || Unique(s)) && (Reordered(t.ins[0]) ==> w == 0)
      && SchemaOf(tb, Streamed(t.ins[0], id)) == Front(off, w, s)
    requires Sound(tb, Streamed(t.ins[0], id)) && !IsStream(t.ins[0])
    requires PlainPath(t.ins[0]) ==> IsStream(Streamed(t.ins[0], id))
    ensures Sound(tb, Streamed(t, id)) && !IsStream(t)
    ensures PlainPath(t) ==> IsStream(Streamed(t, id))
    ensures SchemaOf(tb, Streamed(t, id))
         == if t.op.Project? || t.op.GroupAggr? then SchemaOf(tb, t) else Front(off, w, SchemaOf(tb, t))
    ensures !t.op.Project? && !t.op.GroupAggr? ==> SchemaOf(tb, t) == SchemaOf(tb, t.ins[0])
    ensures Front(off, 0, SchemaOf(tb, t)) == SchemaOf(tb, t)
  {
    var u, s := Streamed(t, id), SchemaOf(tb, t.ins[0]);
    SchemaStep(tb, t);
    SchemaStep(tb, u);
    FrontNone(off, SchemaOf(tb, t));
    assert Schemas(tb, t.ins)[0] == s && Schemas(tb, u.ins)[0] == Front(off, w, s);
    assert Flags(u.ins)[0] == IsStream(Streamed(t.ins[0], id));
    if w == 0 {
      FrontNone(off, s);
      assert Schemas(tb, u.ins) == Schemas(tb, t.ins);
    } else {
      forall e
        ensures Resolves(e, Front(off, w, s)) == Resolves(e, s)
      {
        ResolvesFront(off, w, s, e);
      }
      forall a
        ensures Find(Front(off, w, s), a) < |s| <==> Find(s, a) < |s|
      {
        FindFront(off, w, s, a);
      }
    }
  }

  /** Along a path of selects and projects, the columns move and nothing else changes. */
  lemma {:induction false} StreamedMoved(env: Env, n: nat, tb: Tables, t: Plan, id: nat) returns (off: nat, w: nat)
    requires Streamable(t) && Sound(tb, t) && Matches(env, tb) && PlainPath(t)
    ensures Moved(env, n, tb, t, Streamed(t, id), off, w)
    ensures Reordered(t) ==> w == 0
  {
    if t.op.Cross? {
      off, w := CrossMoved(env, n, tb, t, id);
    } else {
      off, w := StreamedMoved(env, n, tb, t.ins[0], id);
      if t.op.Select? {
        SelectMoved(env, n, tb, t, Streamed(t, id), off, w);
      } else {
        ProjectMoved(env, n, tb, t, Streamed(t, id), off, w);
        off, w := 0, 0;
      }
    }
  }

  lemma SelectMoved(env: Env, n: nat, tb: Tables, t: Plan, u: Plan, off: nat, w: nat)
    requires t.op.Select? && |t.ins| == 1 && |u.ins| == 1 && u.op == t.op && Sound(tb, t) && Matches(env, tb)
    requires Moved(env, n, tb, t.ins[0], u.ins[0], off, w)
    ensures Moved(env, n, tb, t, u, off, w)
  {
    var s, h := SchemaOf(tb, t.ins[0]), Meaning(env, n, tb, t.ins[0]);
    UnaryStep(env, n, tb, t);
    UnaryStep(env, n, tb, u);
    MeaningWidth(env, n, tb, t.ins[0]);
    if w == 0 {
      FrontNone(off, s);
      MapFrontNoneH(h, off);
      MapFrontNoneH(Meaning(env, n, tb, t), off);
    } else {
      SelectsFront(env, off, w, s, h, t.op.pred);
    }
  }

  lemma ProjectMoved(env: Env, n: nat, tb: Tables, t: Plan, u: Plan, off: nat, w: nat)
    requires t.op.Project? && |t.ins| == 1 && |u.ins| == 1 && u.op == t.op && Sound(tb, t) && Matches(env, tb)
    requires Moved(env, n, tb, t.ins[0], u.ins[0], off, w)
    ensures Moved(env, n, tb, t, u, 0, 0)
  {
    var s, h := SchemaOf(tb, t.ins[0]), Meaning(env, n, tb, t.ins[0]);
    UnaryStep(env, n, tb, t);
    UnaryStep(env, n, tb, u);
    MeaningWidth(env, n, tb, t.ins[0]);
    FrontNone(0, SchemaOf(tb, t));
    MapFrontNoneH(Meaning(env, n, tb, t), 0);
    if w == 0 {
      FrontNone(off, s);
      MapFrontNoneH(h, off);
    } else {
      ComputesFront(env, off, w, s, h, t.op.projs);
    }
  }

  /** A select or project in terms of its one input. */
  lemma UnaryStep(env: Env, n: nat, tb: Tables, t: Plan)
    requires |t.ins| == 1
    ensures t.op.Select? ==>
      && SchemaOf(tb, t) == SchemaOf(tb, t.ins[0])
      && Meaning(env, n, tb, t) == FilterH(Meaning(env, n, tb, t.ins[0]), Selects(env, t.op.pred, SchemaOf(tb, t.ins[0])))
    ensures t.op.Project? ==>
      && SchemaOf(tb, t) == ProjectSchema(tb, t.op.projs)
      && Meaning(env, n, tb, t) == MapH(Meaning(env, n, tb, t.ins[0]), Computes(env, t.op.projs, SchemaOf(tb, t.ins[0])))
  {
    SchemaStep(tb, t);
    MeaningStep(env, n, tb, t);
  }

  lemma MapFrontNoneH(h: Hist, off: nat)
    ensures MapH(h, Fronting(off, 0)) == h
  {
    forall t | 0 <= t < |h|
      ensures Map(h[t], Fronting(off, 0)) == h[t]
    {
      forall x | x in h[t]
        ensures Each(Fronting(off, 0))(x) == multiset{x}
      {
        FrontNone(off, x);
      }
      BindId(h[t], Each(Fronting(off, 0)));
    }
  }

  /**
   The plan with the stream cross product is alike, given that only selects and projects are on the
   path and that at least one project fixes the order of the columns.
   */
  lemma StreamCrossAlike(env: Env, n: nat, tb: Tables, t: Plan, id: nat)
    requires Sound(tb, t) && Matches(env, tb)
    requires t.op.Rstream? && Streamable(t.ins[0]) ==> PlainPath(t.ins[0]) && Reordered(t.ins[0])
    ensures Alike(env, n, tb, t, StreamCrossed(t, id)) && Sound(tb, StreamCrossed(t, id))
  {
    if t.op.Rstream? && Streamable(t.ins[0]) {
      var x := t.ins[0];
      RstreamShape(tb, t);
      var o, z := StreamedShape(tb, x, id);
      RstreamStep(env, n, tb, t);
      var off, w := StreamedMoved(env, n, tb, x, id);
      MovedNone(env, n, tb, x, Streamed(x, id), off);
    }
  }

  lemma RstreamShape(tb: Tables, t: Plan)
    requires t.op.Rstream? && |t.ins| == 1
    ensures SchemaOf(tb, t) == SchemaOf(tb, t.ins[0]) && IsStream(t)
  {
    SchemaStep(tb, t);
  }

  lemma MovedNone(env: Env, n: nat, tb: Tables, x: Plan, u: Plan, off: nat)
    requires Moved(env, n, tb, x, u, off, 0)
    ensures SchemaOf(tb, u) == SchemaOf(tb, x) && Meaning(env, n, tb, u) == Meaning(env, n, tb, x)
  {
    FrontNone(off, SchemaOf(tb, x));
    MapFrontNoneH(Meaning(env, n, tb, x), off);
  }
}
