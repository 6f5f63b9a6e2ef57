/** Laws of n-way products: they grow with their factors, and a factor can be moved to the front. */
module Products {
  import opened Common
  import opened Bags
  import opened Histories
  import opened Semantics
  import opened LogicalPlan

  predicate IsProduct(op: Payload) {
    op.Cross? || op.StreamCross?
  }

  /** s with the w elements from off on moved to the front. */
  function Front<T>(off: nat, w: nat, s: seq<T>): (r: seq<T>)
    ensures |r| == |s|
  {
    if off + w <= |s| then s[off..off + w] + s[..off] + s[off + w..] else s
  }

  ghost function Fronting(off: nat, w: nat): Tuple -> Tuple {
    x => Front(off, w, x)
  }

  /** The element at k moved to the front of a list. */
  function First<T>(s: seq<T>, k: nat): (r: seq<T>)
    requires k < |s|
    ensures |r| == |s|
    ensures forall j :: 0 <= j < |s| ==> r[j] == s[if j == 0 then k else if j <= k then j - 1 else j]
  {
    [s[k]] + s[..k] + s[k + 1..]
  }

  lemma FirstLast<T>(s: seq<T>, k: nat)
    requires k < |s| - 1
    ensures First(s, k) == First(s[..|s| - 1], k) + [s[|s| - 1]]
  {
  }

  lemma FlatOne<T>(p: seq<T>)
    ensures Flat([p]) == p
  {
    assert [p][..0] == [];
  }

  lemma {:induction false} FlatConcat<T>(a: seq<seq<T>>, b: seq<seq<T>>)
    ensures Flat(a + b) == Flat(a) + Flat(b)
  {
    if b == [] {
      assert a + b == a;
    } else {
      assert (a + b)[..|a + b| - 1] == a + b[..|b| - 1];
      FlatConcat(a, b[..|b| - 1]);
    }
  }

  lemma FrontOf(a: Schema, p: Schema, b: Schema)
    ensures Front(|a|, |p|, a + (p + b)) == p + (a + b)
  {
    var s := a + (p + b);
    assert s[|a|..|a| + |p|] == p;
    assert s[..|a|] == a;
    assert s[|a| + |p|..] == b;
    assert p + a + b == p + (a + b);
  }

  lemma FlatAround(a: seq<Schema>, p: Schema, b: seq<Schema>)
    ensures Flat(a + ([p] + b)) == Flat(a) + (p + Flat(b))
  {
    FlatConcat(a, [p] + b);
    FlatConcat([p], b);
    FlatOne(p);
  }

  /** Moving a part to the front of the list moves its elements to the front of the whole. */
  lemma FlatFirst(parts: seq<Schema>, k: nat)
    requires k < |parts|
    ensures |Flat(parts[..k])| + |parts[k]| <= |Flat(parts)|
    ensures Flat(First(parts, k)) == Front(|Flat(parts[..k])|, |parts[k]|, Flat(parts))
  {
    var a, p, b := parts[..k], parts[k], parts[k + 1..];
    FirstParts(parts, k);
    FlatAround(a, p, b);
    FlatAround([], p, a + b);
    FlatConcat(a, b);
    FrontOf(Flat(a), p, Flat(b));
  }

  lemma FirstParts(parts: seq<Schema>, k: nat)
    requires k < |parts|
    ensures parts == parts[..k] + ([parts[k]] + parts[k + 1..])
    ensures First(parts, k) == [] + ([parts[k]] + (parts[..k] + parts[k + 1..]))
  {
  }

  // ---------------------------------------------------------------- growing

  lemma {:induction false} ProductGrows(n: nat, hs: seq<Hist>)
    requires forall k :: 0 <= k < |hs| ==> |hs[k]| == n && Growing(hs[k])
    ensures Growing(ProductH(n, hs))
  {
    if |hs| > 1 {
      ProductGrows(n, hs[..|hs| - 1]);
      JoinGrows(ProductH(n, hs[..|hs| - 1]), hs[|hs| - 1], Concat);
    }
  }

  // ---------------------------------------------------------------- a factor to the front

  /** The first factor of a product can be split off. */
  lemma {:induction false} ProductHead(n: nat, v: Hist, hs: seq<Hist>)
    requires |v| == n && hs != [] && forall k :: 0 <= k < |hs| ==> |hs[k]| == n
    ensures ProductH(n, [v] + hs) == JoinH(v, ProductH(n, hs), Concat)
  {
    var m := |hs| - 1;
    ProductLast(n, [v] + hs[..m], hs[m]);
    assert [v] + hs == [v] + hs[..m] + [hs[m]];
    if m > 0 {
      ProductHead(n, v, hs[..m]);
      JoinAssocH(v, ProductH(n, hs[..m]), hs[m]);
    }
  }

  lemma ProductLast(n: nat, hs: seq<Hist>, v: Hist)
    requires |v| == n && hs != [] && forall k :: 0 <= k < |hs| ==> |hs[k]| == n
    ensures ProductH(n, hs + [v]) == JoinH(ProductH(n, hs), v, Concat)
  {
    assert (hs + [v])[..|hs|] == hs;
  }

  lemma JoinAssocH(a: Hist, b: Hist, c: Hist)
    requires |a| == |b| == |c|
    ensures JoinH(JoinH(a, b, Concat), c, Concat) == JoinH(a, JoinH(b, c, Concat), Concat)
  {
    forall t | 0 <= t < |a|
      ensures Join(Join(a[t], b[t], Concat), c[t], Concat) == Join(a[t], Join(b[t], c[t], Concat), Concat)
    {
      ProductAssoc(a[t], b[t], c[t]);
    }
  }

  lemma JoinMapLeft(a: Bag, b: Bag, f: Tuple -> Tuple)
    ensures Join(Map(a, f), b, Concat) == Join(a, b, MapConcat(f))
  {
    forall x | x in a
      ensures Row(b, MapConcat(f))(x) == Join(Each(f)(x), b, Concat)
    {
      JoinMapOne(b, f, x);
    }
    JoinBindLeft(a, b, Each(f), Concat, Row(b, MapConcat(f)));
  }

  lemma JoinMapOne(b: Bag, f: Tuple -> Tuple, x: Tuple)
    ensures Row(b, MapConcat(f))(x) == Join(Each(f)(x), b, Concat)
  {
    BindSingle(f(x), Row(b, Concat));
    BindSame(b, Curry(MapConcat(f), x), Curry(Concat, f(x)));
  }

  lemma MapJoinLeft(a: Bag, b: Bag, f: Tuple -> Tuple, g: Tuple -> Tuple)
    requires forall x, y :: x in a && y in b ==> g(x + y) == f(x) + y
    ensures Join(Map(a, f), b, Concat) == Map(Join(a, b, Concat), g)
  {
    JoinMapLeft(a, b, f);
    forall x, y | x in a && y in b
      ensures MapConcat(f)(x, y) == Bind(Concat(x, y), Each(g))
    {
      BindSingle(x + y, Each(g));
    }
    BindJoin(a, b, Concat, Each(g), MapConcat(f));
  }

  ghost function MapConcat(f: Tuple -> Tuple): (Tuple, Tuple) -> Bag {
    (x, y) => multiset{f(x) + y}
  }

  ghost function Swapped(x: Tuple, y: Tuple): Bag {
    multiset{y + x}
  }

  lemma MapJoinSwap(a: Bag, b: Bag, u: nat, w: nat)
    requires BagWidth(a, u) && BagWidth(b, w)
    ensures Map(Join(a, b, Concat), Fronting(u, w)) == Join(b, a, Concat)
  {
    forall x, y | x in a && y in b
      ensures Swapped(x, y) == Bind(Concat(x, y), Each(Fronting(u, w)))
    {
      BindSingle(x + y, Each(Fronting(u, w)));
      assert Front(u, w, x + y) == y + x;
    }
    BindJoin(a, b, Concat, Each(Fronting(u, w)), Swapped);
    JoinSwap(a, b, Swapped, Concat);
  }

  lemma MapFrontSelf(a: Bag, w: nat)
    requires BagWidth(a, w)
    ensures Map(a, Fronting(0, w)) == a
  {
    forall x | x in a
      ensures Each(Fronting(0, w))(x) == multiset{x}
    {
      assert Front(0, w, x) == x;
    }
    BindId(a, Each(Fronting(0, w)));
  }

  /** Moving a factor to the front of a product moves its columns to the front. */
  lemma {:induction false} ProductFirst(n: nat, hs: seq<Hist>, schemas: seq<Schema>, k: nat)
    requires |hs| == |schemas| && k < |hs|
    requires forall j :: 0 <= j < |hs| ==> |hs[j]| == n && HasWidth(hs[j], |schemas[j]|)
    ensures ProductH(n, First(hs, k)) == MapH(ProductH(n, hs), Fronting(|Flat(schemas[..k])|, |schemas[k]|))
  {
    var m := |hs| - 1;
    if m == 0 {
      assert First(hs, 0) == hs;
      MapFrontSelfH(hs[0], |schemas[0]|);
    } else if k == m {
      assert First(hs, k) == [hs[m]] + hs[..m];
      ProductHead(n, hs[m], hs[..m]);
      ProductWidth(n, hs[..m], schemas[..m]);
      MapJoinSwapH(ProductH(n, hs[..m]), hs[m], |Flat(schemas[..k])|, |schemas[k]|);
    } else {
      ProductFirst(n, hs[..m], schemas[..m], k);
      ProductFirstInner(n, hs, schemas, k);
    }
  }

  /** The factor moves within the factors before the last one. */
  lemma ProductFirstInner(n: nat, hs: seq<Hist>, schemas: seq<Schema>, k: nat)
    requires |hs| == |schemas| && k < |hs| - 1
    requires forall j :: 0 <= j < |hs| ==> |hs[j]| == n && HasWidth(hs[j], |schemas[j]|)
    requires ProductH(n, First(hs[..|hs| - 1], k))
          == MapH(ProductH(n, hs[..|hs| - 1]), Fronting(|Flat(schemas[..|hs| - 1][..k])|, |schemas[k]|))
    ensures ProductH(n, First(hs, k)) == MapH(ProductH(n, hs), Fronting(|Flat(schemas[..k])|, |schemas[k]|))
  {
    var m := |hs| - 1;
    var p, off, w := ProductH(n, hs[..m]), |Flat(schemas[..k])|, |schemas[k]|;
    assert schemas[..m][..k] == schemas[..k];
    ProductWidth(n, hs[..m], schemas[..m]);
    FlatFirst(schemas[..m], k);
    MapJoinFrontH(p, hs[m], |Flat(schemas[..m])|, off, w);
    FirstProduct(n, hs, k);
  }

  lemma FirstProduct(n: nat, hs: seq<Hist>, k: nat)
    requires k < |hs| - 1 && forall j :: 0 <= j < |hs| ==> |hs[j]| == n
    ensures ProductH(n, First(hs, k)) == JoinH(ProductH(n, First(hs[..|hs| - 1], k)), hs[|hs| - 1], Concat)
  {
    FirstLast(hs, k);
    ProductLast(n, First(hs[..|hs| - 1], k), hs[|hs| - 1]);
  }

  lemma MapFrontSelfH(h: Hist, w: nat)
    requires HasWidth(h, w)
    ensures MapH(h, Fronting(0, w)) == h
  {
    forall t | 0 <= t < |h|
      ensures Map(h[t], Fronting(0, w)) == h[t]
    {
      MapFrontSelf(h[t], w);
    }
  }

  lemma MapJoinSwapH(a: Hist, b: Hist, u: nat, w: nat)
    requires |a| == |b| && HasWidth(a, u) && HasWidth(b, w)
    ensures MapH(JoinH(a, b, Concat), Fronting(u, w)) == JoinH(b, a, Concat)
  {
    forall t | 0 <= t < |a|
      ensures Map(Join(a[t], b[t], Concat), Fronting(u, w)) == Join(b[t], a[t], Concat)
    {
      MapJoinSwap(a[t], b[t], u, w);
    }
  }

  lemma MapJoinFrontH(a: Hist, b: Hist, u: nat, off: nat, w: nat)
    requires |a| == |b| && HasWidth(a, u) && off + w <= u
    ensures JoinH(MapH(a, Fronting(off, w)), b, Concat) == MapH(JoinH(a, b, Concat), Fronting(off, w))
  {
    forall t | 0 <= t < |a|
      ensures Join(Map(a[t], Fronting(off, w)), b[t], Concat) == Map(Join(a[t], b[t], Concat), Fronting(off, w))
    {
      forall x, y | x in a[t] && y in b[t]
        ensures Fronting(off, w)(x + y) == Fronting(off, w)(x) + y
      {
        FrontConcat(off, w, x, y);
      }
      MapJoinLeft(a[t], b[t], Fronting(off, w), Fronting(off, w));
    }
  }

  lemma FrontConcat(off: nat, w: nat, x: Tuple, y: Tuple)
    requires off + w <= |x|
    ensures Front(off, w, x + y) == Front(off, w, x) + y
  {
    assert (x + y)[off..off + w] == x[off..off + w];
    assert (x + y)[..off] == x[..off];
    assert (x + y)[off + w..] == x[off + w..] + y;
  }

  // ---------------------------------------------------------------- names after moving columns

  lemma FrontAt<T>(off: nat, w: nat, s: seq<T>, k: nat) returns (j: nat)
    requires off + w <= |s| && k < |s|
    ensures j < |s| && j == (if k < off then k + w else if k < off + w then k - off else k)
    ensures Front(off, w, s)[j] == s[k]
  {
    j := if k < off then k + w else if k < off + w then k - off else k;
  }

  lemma FrontUnique(off: nat, w: nat, s: Schema)
    requires Unique(s) && off + w <= |s|
    ensures Unique(Front(off, w, s))
  {
    var r := Front(off, w, s);
    forall i, j | 0 <= i < j < |r|
      ensures !Same(r[i], r[j])
    {
      var a := FrontFrom(off, w, s, i);
      var b := FrontFrom(off, w, s, j);
      if a < b {
        assert !Same(s[a], s[b]);
      } else {
        assert !Same(s[b], s[a]);
      }
    }
  }

  lemma FrontFrom<T>(off: nat, w: nat, s: seq<T>, j: nat) returns (k: nat)
    requires off + w <= |s| && j < |s|
    ensures k < |s| && k == (if j < w then j + off else if j < w + off then j - w else j)
    ensures Front(off, w, s)[j] == s[k]
  {
    k := if j < w then j + off else if j < w + off then j - w else j;
  }

  /** A name keeps its value when the columns of schema and tuple move together. */
  lemma LookupFront(off: nat, w: nat, s: Schema, x: Tuple, a: Attr)
    requires Unique(s) && off + w <= |s| && |x| == |s|
    ensures Lookup(Front(off, w, s), Front(off, w, x), a) == Lookup(s, x, a)
    ensures Find(Front(off, w, s), a) < |s| <==> Find(s, a) < |s|
  {
    var k, r := Find(s, a), Front(off, w, s);
    FrontUnique(off, w, s);
    if k < |s| {
      var j := FrontAt(off, w, s, k);
      var i := FrontAt(off, w, x, k);
      FindUnique(r, a, j);
    } else if Find(r, a) < |r| {
      var i := FrontFrom(off, w, s, Find(r, a));
      assert false;
    }
  }

  // ---------------------------------------------------------------- crosses in terms of their inputs

  /** What the inputs contribute to a cross product. */
  ghost function Factors(env: Env, n: nat, tb: Tables, ts: seq<Plan>): (hs: seq<Hist>)
    ensures |hs| == |ts| && forall k :: 0 <= k < |ts| ==> |hs[k]| == n
  {
    Views(Meanings(env, n, tb, ts), Flags(ts))
  }

  /** The first input of a stream cross product contributes what arrives at the instant. */
  ghost function StreamFactors(env: Env, n: nat, tb: Tables, ts: seq<Plan>): (hs: seq<Hist>)
    requires ts != []
    ensures |hs| == |ts| && forall k :: 0 <= k < |ts| ==> |hs[k]| == n
  {
    Factors(env, n, tb, ts)[0 := Meaning(env, n, tb, ts[0])]
  }

  lemma CrossStep(env: Env, n: nat, tb: Tables, t: Plan)
    requires |t.ins| >= 2
    ensures t.op.Cross? ==>
      && SchemaOf(tb, t) == Flat(Schemas(tb, t.ins)) && IsStream(t) == AllTrue(Flags(t.ins))
      && Meaning(env, n, tb, t) == Report(ProductH(n, Factors(env, n, tb, t.ins)), IsStream(t))
    ensures t.op.StreamCross? ==>
      && SchemaOf(tb, t) == Flat(Schemas(tb, t.ins)) && IsStream(t)
      && Meaning(env, n, tb, t) == ProductH(n, StreamFactors(env, n, tb, t.ins))
  {
    SchemaStep(tb, t);
    MeaningStep(env, n, tb, t);
    assert Meanings(env, n, tb, t.ins)[0] == Meaning(env, n, tb, t.ins[0]);
  }

  lemma FactorsWidth(env: Env, n: nat, tb: Tables, ts: seq<Plan>)
    requires Matches(env, tb) && forall k :: 0 <= k < |ts| ==> Sound(tb, ts[k])
    ensures forall k :: 0 <= k < |ts| ==> HasWidth(Factors(env, n, tb, ts)[k], |Schemas(tb, ts)[k]|)
  {
    forall k | 0 <= k < |ts|
      ensures HasWidth(Factors(env, n, tb, ts)[k], |Schemas(tb, ts)[k]|)
    {
      MeaningWidth(env, n, tb, ts[k]);
      ViewWidth(Meaning(env, n, tb, ts[k]), IsStream(ts[k]), |SchemaOf(tb, ts[k])|);
    }
  }

  lemma FactorsGrow(env: Env, n: nat, tb: Tables, ts: seq<Plan>)
    requires AllTrue(Flags(ts))
    ensures Growing(ProductH(n, Factors(env, n, tb, ts)))
  {
    forall k | 0 <= k < |ts|
      ensures Growing(Factors(env, n, tb, ts)[k])
    {
      assert Flags(ts)[k];
      CumulateGrows(Meaning(env, n, tb, ts[k]));
    }
    ProductGrows(n, Factors(env, n, tb, ts));
  }

  lemma UniqueLeft(a: Schema, b: Schema)
    requires Unique(a + b)
    ensures Unique(a)
  {
    forall j, k | 0 <= j < k < |a|
      ensures !Same(a[j], a[k])
    {
      assert !Same((a + b)[j], (a + b)[k]);
    }
  }
}
