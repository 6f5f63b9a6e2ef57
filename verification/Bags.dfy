/**
 Bags of tuples.  One combinator, Bind, makes filter, map and product, so that the algebra the
 rewrites need follows from a handful of laws about Bind.
 */
module Bags {
  import opened Common

  type Bag = multiset<Tuple>

  ghost function Pick(m: Bag): (x: Tuple)
    requires m != multiset{}
    ensures x in m
  {
    var x :| x in m; x
  }

  /** The union of f(x) over the occurrences x in m. */
  ghost function Bind(m: Bag, f: Tuple -> Bag): Bag
    decreases |m|
  {
    if m == multiset{} then multiset{}
    else f(Pick(m)) + Bind(m - multiset{Pick(m)}, f)
  }

  lemma {:induction false} BindSplit(m: Bag, x: Tuple, f: Tuple -> Bag)
    requires x in m
    ensures Bind(m, f) == f(x) + Bind(m - multiset{x}, f)
    decreases |m|
  {
    var y := Pick(m);
    if y != x {
      BindSplit(m - multiset{y}, x, f);
      BindSplit(m - multiset{x}, y, f);
      assert m - multiset{y} - multiset{x} == m - multiset{x} - multiset{y};
    }
  }

  lemma {:induction false} BindUnion(m: Bag, n: Bag, f: Tuple -> Bag)
    ensures Bind(m + n, f) == Bind(m, f) + Bind(n, f)
    decreases |m|
  {
    if m == multiset{} {
      assert m + n == n;
    } else {
      var x := Pick(m);
      BindUnion(m - multiset{x}, n, f);
      BindSplit(m + n, x, f);
      assert m + n - multiset{x} == (m - multiset{x}) + n;
    }
  }

  lemma {:induction false} BindSame(m: Bag, f: Tuple -> Bag, g: Tuple -> Bag)
    requires forall x :: x in m ==> f(x) == g(x)
    ensures Bind(m, f) == Bind(m, g)
    decreases |m|
  {
    if m != multiset{} {
      BindSame(m - multiset{Pick(m)}, f, g);
    }
  }

  /** Every tuple of a bound bag comes from some tuple of the bag. */
  lemma {:induction false} BindOrigin(m: Bag, f: Tuple -> Bag, y: Tuple) returns (x: Tuple)
    requires y in Bind(m, f)
    ensures x in m && y in f(x)
    decreases |m|
  {
    x := Pick(m);
    if y !in f(x) {
      x := BindOrigin(m - multiset{x}, f, y);
    }
  }

  lemma {:induction false} BindBind(m: Bag, f: Tuple -> Bag, g: Tuple -> Bag, h: Tuple -> Bag)
    requires forall x :: x in m ==> h(x) == Bind(f(x), g)
    ensures Bind(Bind(m, f), g) == Bind(m, h)
    decreases |m|
  {
    if m != multiset{} {
      var x := Pick(m);
      BindBind(m - multiset{x}, f, g, h);
      BindUnion(f(x), Bind(m - multiset{x}, f), g);
    }
  }

  lemma BindSingle(x: Tuple, f: Tuple -> Bag)
    ensures Bind(multiset{x}, f) == f(x)
  {
    BindSplit(multiset{x}, x, f);
  }

  lemma {:induction false} BindEmpty(m: Bag, f: Tuple -> Bag)
    requires forall x :: x in m ==> f(x) == multiset{}
    ensures Bind(m, f) == multiset{}
    decreases |m|
  {
    if m != multiset{} {
      BindEmpty(m - multiset{Pick(m)}, f);
    }
  }

  lemma {:induction false} BindId(m: Bag, f: Tuple -> Bag)
    requires forall x :: x in m ==> f(x) == multiset{x}
    ensures Bind(m, f) == m
    decreases |m|
  {
    if m != multiset{} {
      BindId(m - multiset{Pick(m)}, f);
    }
  }

  lemma {:induction false} BindPlus(m: Bag, f: Tuple -> Bag, g: Tuple -> Bag, fg: Tuple -> Bag)
    requires forall x :: x in m ==> fg(x) == f(x) + g(x)
    ensures Bind(m, fg) == Bind(m, f) + Bind(m, g)
    decreases |m|
  {
    if m != multiset{} {
      BindPlus(m - multiset{Pick(m)}, f, g, fg);
    }
  }

  /** Removing a sub-bag removes what it contributed. */
  lemma BindMinus(m: Bag, k: Bag, f: Tuple -> Bag)
    requires k <= m
    ensures Bind(k, f) <= Bind(m, f)
    ensures Bind(m - k, f) == Bind(m, f) - Bind(k, f)
  {
    assert (m - k) + k == m;
    BindUnion(m - k, k, f);
  }

  // ---------------------------------------------------------------- filter, map, join

  ghost function Keep(p: Tuple -> bool): Tuple -> Bag {
    x => if p(x) then multiset{x} else multiset{}
  }

  ghost function Each(f: Tuple -> Tuple): Tuple -> Bag {
    x => multiset{f(x)}
  }

  ghost function Curry(f: (Tuple, Tuple) -> Bag, x: Tuple): Tuple -> Bag {
    y => f(x, y)
  }

  ghost function Row(b: Bag, f: (Tuple, Tuple) -> Bag): Tuple -> Bag {
    x => Bind(b, Curry(f, x))
  }

  ghost function Filter(m: Bag, p: Tuple -> bool): Bag { Bind(m, Keep(p)) }

  ghost function Map(m: Bag, f: Tuple -> Tuple): Bag { Bind(m, Each(f)) }

  ghost function Join(a: Bag, b: Bag, f: (Tuple, Tuple) -> Bag): Bag { Bind(a, Row(b, f)) }

  ghost function Concat(x: Tuple, y: Tuple): Bag { multiset{x + y} }

  ghost function Product(a: Bag, b: Bag): Bag { Join(a, b, Concat) }

  ghost function Dedup(m: Bag): Bag { multiset(set x | x in m) }

  lemma FilterSame(m: Bag, p: Tuple -> bool, q: Tuple -> bool)
    requires forall x :: x in m ==> p(x) == q(x)
    ensures Filter(m, p) == Filter(m, q)
  {
    BindSame(m, Keep(p), Keep(q));
  }

  lemma MapSame(m: Bag, f: Tuple -> Tuple, g: Tuple -> Tuple)
    requires forall x :: x in m ==> f(x) == g(x)
    ensures Map(m, f) == Map(m, g)
  {
    BindSame(m, Each(f), Each(g));
  }

  lemma JoinSame(a: Bag, b: Bag, f: (Tuple, Tuple) -> Bag, g: (Tuple, Tuple) -> Bag)
    requires forall x, y :: x in a && y in b ==> f(x, y) == g(x, y)
    ensures Join(a, b, f) == Join(a, b, g)
  {
    forall x | x in a
      ensures Row(b, f)(x) == Row(b, g)(x)
    {
      BindSame(b, Curry(f, x), Curry(g, x));
    }
    BindSame(a, Row(b, f), Row(b, g));
  }

  lemma FilterIn(m: Bag, p: Tuple -> bool, y: Tuple)
    requires y in Filter(m, p)
    ensures y in m && p(y)
  {
    var x := BindOrigin(m, Keep(p), y);
  }

  lemma MapIn(m: Bag, f: Tuple -> Tuple, y: Tuple) returns (x: Tuple)
    requires y in Map(m, f)
    ensures x in m && y == f(x)
  {
    x := BindOrigin(m, Each(f), y);
  }

  lemma JoinIn(a: Bag, b: Bag, f: (Tuple, Tuple) -> Bag, z: Tuple) returns (x: Tuple, y: Tuple)
    requires z in Join(a, b, f)
    ensures x in a && y in b && z in f(x, y)
  {
    x := BindOrigin(a, Row(b, f), z);
    y := BindOrigin(b, Curry(f, x), z);
  }

  /** Binding after a join is a join. */
  lemma BindJoin(a: Bag, b: Bag, f: (Tuple, Tuple) -> Bag, g: Tuple -> Bag, h: (Tuple, Tuple) -> Bag)
    requires forall x, y :: x in a && y in b ==> h(x, y) == Bind(f(x, y), g)
    ensures Bind(Join(a, b, f), g) == Join(a, b, h)
  {
    forall x | x in a
      ensures Row(b, h)(x) == Bind(Row(b, f)(x), g)
    {
      BindBind(b, Curry(f, x), g, Curry(h, x));
    }
    BindBind(a, Row(b, f), g, Row(b, h));
  }

  /** Joining a bound left input is a join of what it was bound from. */
  lemma JoinBindLeft(a: Bag, b: Bag, e: Tuple -> Bag, f: (Tuple, Tuple) -> Bag, h: Tuple -> Bag)
    requires forall x :: x in a ==> h(x) == Join(e(x), b, f)
    ensures Join(Bind(a, e), b, f) == Bind(a, h)
  {
    BindBind(a, e, Row(b, f), h);
  }

  lemma {:induction false} JoinSwap(a: Bag, b: Bag, f: (Tuple, Tuple) -> Bag, g: (Tuple, Tuple) -> Bag)
    requires forall x, y :: x in a && y in b ==> f(x, y) == g(y, x)
    ensures Join(a, b, f) == Join(b, a, g)
    decreases |a|
  {
    if a == multiset{} {
      BindEmpty(b, Row(a, g));
    } else {
      var p := Pick(a);
      var r := a - multiset{p};
      JoinSwap(r, b, f, g);
      forall y | y in b
        ensures Row(a, g)(y) == Curry(f, p)(y) + Row(r, g)(y)
      {
        BindSplit(a, p, Curry(g, y));
      }
      BindPlus(b, Curry(f, p), Row(r, g), Row(a, g));
    }
  }

  lemma JoinUnionLeft(a1: Bag, a2: Bag, b: Bag, f: (Tuple, Tuple) -> Bag)
    ensures Join(a1 + a2, b, f) == Join(a1, b, f) + Join(a2, b, f)
  {
    BindUnion(a1, a2, Row(b, f));
  }

  lemma JoinUnionRight(a: Bag, b1: Bag, b2: Bag, f: (Tuple, Tuple) -> Bag)
    ensures Join(a, b1 + b2, f) == Join(a, b1, f) + Join(a, b2, f)
  {
    forall x | x in a
      ensures Row(b1 + b2, f)(x) == Row(b1, f)(x) + Row(b2, f)(x)
    {
      BindUnion(b1, b2, Curry(f, x));
    }
    BindPlus(a, Row(b1, f), Row(b2, f), Row(b1 + b2, f));
  }

  lemma JoinMonotone(a1: Bag, a2: Bag, b1: Bag, b2: Bag, f: (Tuple, Tuple) -> Bag)
    requires a1 <= a2 && b1 <= b2
    ensures Join(a1, b1, f) <= Join(a2, b2, f)
  {
    assert a1 + (a2 - a1) == a2 && b1 + (b2 - b1) == b2;
    JoinUnionLeft(a1, a2 - a1, b2, f);
    JoinUnionRight(a1, b1, b2 - b1, f);
  }

  lemma FilterFilter(m: Bag, p: Tuple -> bool, q: Tuple -> bool, r: Tuple -> bool)
    requires forall x :: x in m ==> r(x) == (p(x) && q(x))
    ensures Filter(Filter(m, p), q) == Filter(m, r)
  {
    forall x | x in m
      ensures Keep(r)(x) == Bind(Keep(p)(x), Keep(q))
    {
      BindSingle(x, Keep(q));
    }
    BindBind(m, Keep(p), Keep(q), Keep(r));
  }

  lemma FilterCommute(m: Bag, p: Tuple -> bool, q: Tuple -> bool)
    ensures Filter(Filter(m, p), q) == Filter(Filter(m, q), p)
  {
    var r := x => p(x) && q(x);
    FilterFilter(m, p, q, r);
    FilterFilter(m, q, p, r);
  }

  /** A filter on the left input of a product filters the product. */
  lemma FilterProductLeft(a: Bag, b: Bag, p: Tuple -> bool, q: Tuple -> bool)
    requires forall x, y :: x in a && y in b ==> q(x + y) == p(x)
    ensures Filter(Product(a, b), q) == Product(Filter(a, p), b)
  {
    var h := (x, y) => if p(x) then multiset{x + y} else multiset{};
    forall x, y | x in a && y in b
      ensures h(x, y) == Bind(Concat(x, y), Keep(q))
    {
      BindSingle(x + y, Keep(q));
    }
    BindJoin(a, b, Concat, Keep(q), h);
    forall x | x in a
      ensures Row(b, h)(x) == Join(Keep(p)(x), b, Concat)
    {
      if p(x) {
        BindSingle(x, Row(b, Concat));
        BindSame(b, Curry(h, x), Curry(Concat, x));
      } else {
        BindEmpty(b, Curry(h, x));
      }
    }
    JoinBindLeft(a, b, Keep(p), Concat, Row(b, h));
  }

  /** A filter on the right input of a product filters the product. */
  lemma FilterProductRight(a: Bag, b: Bag, p: Tuple -> bool, q: Tuple -> bool)
    requires forall x, y :: x in a && y in b ==> q(x + y) == p(y)
    ensures Filter(Product(a, b), q) == Product(a, Filter(b, p))
  {
    var h := ConcatIf(p);
    forall x, y | x in a && y in b
      ensures h(x, y) == Bind(Concat(x, y), Keep(q))
    {
      BindSingle(x + y, Keep(q));
    }
    BindJoin(a, b, Concat, Keep(q), h);
    forall x | x in a
      ensures Row(b, h)(x) == Row(Filter(b, p), Concat)(x)
    {
      FilterProductRow(x, b, p);
    }
    BindSame(a, Row(b, h), Row(Filter(b, p), Concat));
  }

  ghost function ConcatIf(p: Tuple -> bool): (Tuple, Tuple) -> Bag {
    (x, y) => if p(y) then Concat(x, y) else multiset{}
  }

  lemma FilterProductRow(x: Tuple, b: Bag, p: Tuple -> bool)
    ensures Bind(b, Curry(ConcatIf(p), x)) == Bind(Filter(b, p), Curry(Concat, x))
  {
    BindFilter(b, p, Curry(Concat, x), Curry(ConcatIf(p), x));
  }

  lemma BindFilter(b: Bag, p: Tuple -> bool, f: Tuple -> Bag, h: Tuple -> Bag)
    requires forall y :: y in b ==> h(y) == if p(y) then f(y) else multiset{}
    ensures Bind(Filter(b, p), f) == Bind(b, h)
  {
    forall y | y in b
      ensures h(y) == Bind(Keep(p)(y), f)
    {
      BindSingle(y, f);
    }
    BindBind(b, Keep(p), f, h);
  }

  lemma ProductAssoc(a: Bag, b: Bag, c: Bag)
    ensures Product(Product(a, b), c) == Product(a, Product(b, c))
  {
    var k := Row(c, Concat);
    var h := (x: Tuple, y: Tuple) => k(x + y);
    forall x, y | x in a && y in b
      ensures h(x, y) == Bind(Concat(x, y), k)
    {
      BindSingle(x + y, k);
    }
    BindJoin(a, b, Concat, k, h);
    forall x | x in a
      ensures Row(b, h)(x) == Row(Product(b, c), Concat)(x)
    {
      ProductAssocRow(x, b, c, h);
    }
    BindSame(a, Row(b, h), Row(Product(b, c), Concat));
  }

  lemma ProductAssocRow(x: Tuple, b: Bag, c: Bag, h: (Tuple, Tuple) -> Bag)
    requires forall y :: y in b ==> h(x, y) == Row(c, Concat)(x + y)
    ensures Bind(b, Curry(h, x)) == Bind(Product(b, c), Curry(Concat, x))
  {
    var e := Shifted(x);
    forall y, w | y in b && w in c
      ensures e(y, w) == Bind(Concat(y, w), Curry(Concat, x))
    {
      BindSingle(y + w, Curry(Concat, x));
    }
    BindJoin(b, c, Concat, Curry(Concat, x), e);
    forall y | y in b
      ensures Curry(h, x)(y) == Row(c, e)(y)
    {
      ConcatShifted(x, y, c);
    }
    BindSame(b, Curry(h, x), Row(c, e));
  }

  ghost function Shifted(x: Tuple): (Tuple, Tuple) -> Bag {
    (y, w) => multiset{x + (y + w)}
  }

  lemma ConcatShifted(x: Tuple, y: Tuple, c: Bag)
    ensures Row(c, Concat)(x + y) == Row(c, Shifted(x))(y)
  {
    forall w | w in c
      ensures Curry(Concat, x + y)(w) == Curry(Shifted(x), y)(w)
    {
      assert x + y + w == x + (y + w);
      assert Curry(Concat, x + y)(w) == Concat(x + y, w);
    }
    BindSame(c, Curry(Concat, x + y), Curry(Shifted(x), y));
  }
}
