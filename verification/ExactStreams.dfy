/**
 Exactly when turning a cross product into a stream cross product keeps the meaning: when nothing but
 selects and projects is above it, or when one of its inputs is a window of no time.
 */
module ExactStreams {
  import opened Common
  import opened Bags
  import opened Histories
  import opened Semantics
  import opened LogicalPlan
  import opened Products
  import opened RewriteCross
  import opened RewriteProject
  import opened Stacks

  /** The bag holds one tuple, once or more often. */
  ghost predicate Pure(m: Bag, x: Tuple) {
    x in m && forall y :: y in m ==> y == x
  }

  /** Two instants: one tuple at the first, and at the second the same one or none. */
  ghost predicate Shows(h: Hist, x: Tuple, again: bool) {
    |h| == 2 && Pure(h[0], x) && if again then Pure(h[1], x) else h[1] == multiset{}
  }

  /** What an aggregation makes of no tuples does not depend on the columns it would look at. */
  ghost predicate EmptyAlike(env: Env) {
    forall groups, aggrs, groups2, aggrs2
      {:trigger env.aggr(groups, aggrs, multiset{}), env.aggr(groups2, aggrs2, multiset{})} ::
      |groups| == |groups2| && SameFns(aggrs, aggrs2) ==> env.aggr(groups, aggrs, multiset{}) == env.aggr(groups2, aggrs2, multiset{})
  }

  ghost predicate SameFns(aggrs: seq<(AggrFn, nat)>, aggrs2: seq<(AggrFn, nat)>) {
    |aggrs| == |aggrs2| && forall k :: 0 <= k < |aggrs| ==> aggrs[k].0 == aggrs2[k].0
  }

  function Zeros(n: nat): Tuple {
    seq(n, i => NoValue)
  }

  /**
   Every table holds one tuple, at every instant or at the first one only; every predicate holds;
   windows hold what has just arrived; a bag that is not empty has one group.
   */
  ghost function Trial(tb: Tables, always: bool): Env {
    Env((op, v, w) => NoValue, (op, v, w) => true,
        (table: nat, t: nat) => if always || t == 0 then multiset{Zeros(tb.width(table))} else multiset{},
        tb.width,
        (rows, h) => if h == [] then multiset{} else h[|h| - 1],
        (poss, rows, h) => if h == [] then multiset{} else h[|h| - 1],
        (groups, aggrs, m) => if m == multiset{} then multiset{} else multiset{Zeros(|groups| + |aggrs|)})
  }

  lemma TrialMatches(tb: Tables, always: bool)
    ensures Matches(Trial(tb, always), tb) && GroupsRepeat(Trial(tb, always)) && EmptyAlike(Trial(tb, always))
  {
    var env := Trial(tb, always);
    forall table: nat, t: nat
      ensures BagWidth(env.base(table, t), env.width(table)) && env.width(table) == tb.width(table)
    {
      assert env.base(table, t) == if always || t == 0 then multiset{Zeros(tb.width(table))} else multiset{};
      if always || t == 0 {
        OneWidth(Zeros(tb.width(table)));
      }
    }
    forall rows, h: Hist
      ensures env.rowWin(rows, h) <= Sum(h)
    {
      LastInSum(h);
    }
    forall poss, rows, h: Hist
      ensures env.partnWin(poss, rows, h) <= Sum(h)
    {
      LastInSum(h);
    }
    forall groups, aggrs, m: Bag
      ensures RowsRepeat(groups, env.aggr(groups, aggrs, m)) && BagWidth(env.aggr(groups, aggrs, m), |groups| + |aggrs|)
    {
    }
  }

  lemma OneWidth(x: Tuple)
    ensures BagWidth(multiset{x}, |x|)
  {
  }

  lemma LastInSum(h: Hist)
    ensures h != [] ==> h[|h| - 1] <= Sum(h)
  {
  }

  // ---------------------------------------------------------------- what operators do to such histories

  lemma MapPure(m: Bag, x: Tuple, f: Tuple -> Tuple)
    requires Pure(m, x)
    ensures Pure(Map(m, f), f(x))
  {
    BindSplit(m, x, Each(f));
    forall y | y in Map(m, f)
      ensures y == f(x)
    {
      var z := MapIn(m, f, y);
    }
  }

  lemma MapShows(h: Hist, x: Tuple, again: bool, f: Tuple -> Tuple)
    requires Shows(h, x, again)
    ensures Shows(MapH(h, f), f(x), again)
  {
    MapPure(h[0], x, f);
    if again {
      MapPure(h[1], x, f);
    }
  }

  lemma FilterAll(m: Bag, p: Tuple -> bool)
    requires forall x :: p(x)
    ensures Filter(m, p) == m
  {
    BindId(m, Keep(p));
  }

  lemma DedupPure(m: Bag, x: Tuple)
    requires Pure(m, x)
    ensures Dedup(m) == multiset{x}
  {
    assert (set y | y in m) == {x};
  }

  lemma DedupNone()
    ensures Dedup(multiset{}) == multiset{}
  {
  }

  lemma CumulateShows(h: Hist, x: Tuple, again: bool)
    requires Shows(h, x, again)
    ensures Shows(Cumulate(h), x, true)
  {
    CumulateStart(h);
    CumulateStep(h, 1);
  }

  lemma DistinctShows(h: Hist, x: Tuple, again: bool, isStream: bool)
    requires Shows(h, x, again)
    ensures Shows(Report(DedupH(View(h, isStream)), isStream), x, again && !isStream)
  {
    if isStream {
      CumulateShows(h, x, again);
      DedupPure(Cumulate(h)[0], x);
      DedupPure(Cumulate(h)[1], x);
    } else {
      DedupPure(h[0], x);
      if again {
        DedupPure(h[1], x);
      } else {
        DedupNone();
      }
    }
  }

  lemma GroupShows(tb: Tables, always: bool, groups: seq<nat>, aggrs: seq<(AggrFn, nat)>, h: Hist, x: Tuple, again: bool, isStream: bool)
    requires Shows(h, x, again)
    ensures Shows(AggrH(Trial(tb, always), groups, aggrs, View(h, isStream)), Zeros(|groups| + |aggrs|), again || isStream)
  {
    if isStream {
      CumulateShows(h, x, again);
    }
  }

  /** What is left at the second instant. */
  predicate Again(op: Payload, again: bool, isStream: bool) {
    if op.Distinct? then again && !isStream
    else if op.GroupAggr? then again || isStream
    else again
  }

  /** What an operator makes of a history. */
  lemma HistoryShows(tb: Tables, always: bool, op: Payload, s: Schema, h: Hist, f: bool, x: Tuple, again: bool) returns (y: Tuple)
    requires OverCross(op) && Shows(h, x, again)
    ensures Shows(OpMeaning(Trial(tb, always), 2, op, [s], [f], [h]), y, Again(op, again, f))
  {
    var env := Trial(tb, always);
    UnaryMeaning(env, 2, op, s, f, h);
    if op.Select? {
      y := x;
      SelectShows(h, Selects(env, op.pred, s));
    } else if op.Project? {
      y := ValuesIn(env, op.projs, s, x);
      MapShows(h, x, again, Computes(env, op.projs, s));
    } else {
      y := KeyedShows(tb, always, op, s, h, f, x, again);
    }
  }

  lemma KeyedShows(tb: Tables, always: bool, op: Payload, s: Schema, h: Hist, f: bool, x: Tuple, again: bool) returns (y: Tuple)
    requires (op.Distinct? || op.GroupAggr?) && Shows(h, x, again)
    ensures Shows(OpMeaning(Trial(tb, always), 2, op, [s], [f], [h]), y, Again(op, again, f))
  {
    UnaryMeaning(Trial(tb, always), 2, op, s, f, h);
    hide Shows, OpMeaning;
    if op.Distinct? {
      y := x;
      DistinctShows(h, x, again, f);
    } else {
      y := Zeros(|op.groups| + |op.aggrs|);
      GroupShows(tb, always, FindAll(s, op.groups), FindAggrs(s, op.aggrs), h, x, again, f);
    }
  }

  lemma SelectShows(h: Hist, p: Tuple -> bool)
    requires |h| == 2 && forall x :: p(x)
    ensures FilterH(h, p) == h
  {
    FilterAll(h[0], p);
    FilterAll(h[1], p);
  }

  lemma OpShows(tb: Tables, always: bool, t: Plan, x: Tuple, again: bool) returns (y: Tuple)
    requires OverCross(t.op) && |t.ins| == 1
    requires Shows(Meaning(Trial(tb, always), 2, tb, t.ins[0]), x, again)
    ensures Shows(Meaning(Trial(tb, always), 2, tb, t), y, Again(t.op, again, IsStream(t.ins[0])))
  {
    OneInput(Trial(tb, always), 2, tb, t);
    y := HistoryShows(tb, always, t.op, SchemaOf(tb, t.ins[0]), Meaning(Trial(tb, always), 2, tb, t.ins[0]),
                      IsStream(t.ins[0]), x, again);
  }

  // ---------------------------------------------------------------- the cross product

  /** A leaf that holds a tuple whenever its table does. */
  predicate Productive(t: Plan) {
    Leaf(t) && (t.op.RangeWin? ==> t.op.units > 0)
  }

  lemma SourceMeaning(tb: Tables, always: bool, t: Plan) returns (x: Tuple)
    requires SourceOp(t.op) && t.ins == []
    ensures Meaning(Trial(tb, always), 2, tb, t)[0] == multiset{x}
    ensures Meaning(Trial(tb, always), 2, tb, t)[1] == if always then multiset{x} else multiset{}
  {
    MeaningStep(Trial(tb, always), 2, tb, t);
    x := Zeros(tb.width(if t.op.StreamSource? then t.op.strId else t.op.relId));
  }

  lemma SumPure(h: Hist, x: Tuple, again: bool)
    requires h == [multiset{x}, if again then multiset{x} else multiset{}]
    ensures Pure(Sum(h[..1]), x) && Pure(Sum(h), x) && Pure(Sum(h[0..1]), x)
    ensures again ==> Pure(Sum(h[1..2]), x)
  {
    assert h[..1] == [h[0]] && h[0..1] == [h[0]] && h[1..2] == [h[1]];
    assert [h[0]][..0] == [] && [h[1]][..0] == [];
    assert Sum([h[0]]) == h[0] && Sum([h[1]]) == h[1];
    assert Sum(h) == Sum(h[..1]) + h[1];
  }

  /** A history that shows a tuple at the first instant, and at the second if so asked. */
  ghost predicate Holds(h: Hist, x: Tuple, always: bool) {
    |h| == 2 && Pure(h[0], x) && (always ==> Pure(h[1], x))
  }

  /** A leaf holds a tuple at the first instant, and at the second if tables always do. */
  lemma LeafShows(tb: Tables, always: bool, t: Plan) returns (x: Tuple)
    requires Productive(t)
    ensures Holds(View(Meaning(Trial(tb, always), 2, tb, t), IsStream(t)), x, always)
    ensures t.op.NowWin? && !always ==> View(Meaning(Trial(tb, always), 2, tb, t), IsStream(t))[1] == multiset{}
  {
    if SourceOp(t.op) {
      x := SourceMeaning(tb, always, t);
      ViewShows(Meaning(Trial(tb, always), 2, tb, t), IsStream(t), x, always);
    } else {
      x := SourceMeaning(tb, always, t.ins[0]);
      SchemaStep(tb, t);
      OneInput(Trial(tb, always), 2, tb, t);
      WindowShows(tb, always, t.op, SchemaOf(tb, t.ins[0]), IsStream(t.ins[0]), Meaning(Trial(tb, always), 2, tb, t.ins[0]), x);
    }
  }

  lemma ViewShows(h: Hist, isStream: bool, x: Tuple, always: bool)
    requires |h| == 2 && h[0] == multiset{x} && h[1] == if always then multiset{x} else multiset{}
    ensures Holds(View(h, isStream), x, always)
  {
    if isStream {
      SumPure(h, x, always);
      assert h[..2] == h;
    }
  }

  lemma WindowShows(tb: Tables, always: bool, op: Payload, s: Schema, f: bool, h: Hist, x: Tuple)
    requires WindowOp(op) && (op.RangeWin? ==> op.units > 0)
    requires |h| == 2 && h[0] == multiset{x} && h[1] == if always then multiset{x} else multiset{}
    ensures Holds(OpMeaning(Trial(tb, always), 2, op, [s], [f], [h]), x, always)
    ensures op.NowWin? && !always ==> OpMeaning(Trial(tb, always), 2, op, [s], [f], [h])[1] == multiset{}
  {
    if op.RangeWin? {
      RangeShows(h, x, always, op.units);
    } else {
      assert h[..1][0] == h[0] && h[..2] == h;
    }
  }

  lemma RangeShows(h: Hist, x: Tuple, always: bool, units: nat)
    requires |h| == 2 && h[0] == multiset{x} && h[1] == (if always then multiset{x} else multiset{}) && units > 0
    ensures Holds(RangeH(h, units), x, always)
  {
    hide RangeH, Sum;
    var r := RangeH(h, units);
    assert Pure(r[0], x) by {
      RangeAt(h, units);
      SumPure(h, x, always);
    }
    assert always ==> Pure(r[1], x) by {
      RangeAt(h, units);
      SumPure(h, x, always);
      assert h[0..2] == h;
    }
  }

  lemma RangeAt(h: Hist, units: nat)
    requires |h| == 2 && units > 0
    ensures RangeH(h, units)[0] == Sum(h[0..1])
    ensures RangeH(h, units)[1] == if units == 1 then Sum(h[1..2]) else Sum(h[0..2])
  {
    var lo := if 1 + 1 < units then 0 else 1 + 1 - units;
    assert RangeH(h, units)[1] == Sum(h[lo..2]);
  }

  lemma RowHas(b: Bag, x: Tuple, y: Tuple)
    requires y in b
    ensures x + y in Row(b, Concat)(x)
  {
    BindSplit(b, y, Curry(Concat, x));
    assert x + y in Curry(Concat, x)(y);
  }

  lemma JoinHas(a: Bag, b: Bag, x: Tuple, y: Tuple)
    requires x in a && y in b
    ensures x + y in Join(a, b, Concat)
  {
    RowHas(b, x, y);
    var row := Row(b, Concat);
    BindSplit(a, x, row);
  }

  lemma JoinPure(a: Bag, b: Bag, x: Tuple, y: Tuple)
    requires Pure(a, x) && Pure(b, y)
    ensures Pure(Join(a, b, Concat), x + y)
  {
    JoinHas(a, b, x, y);
    forall z | z in Join(a, b, Concat)
      ensures z == x + y
    {
      var u, v := JoinIn(a, b, Concat, z);
    }
  }

  lemma {:induction false} ProductPure(hs: seq<Hist>, xs: seq<Tuple>, i: nat)
    requires hs != [] && |hs| == |xs| && i < 2
    requires forall k :: 0 <= k < |hs| ==> |hs[k]| == 2 && Pure(hs[k][i], xs[k])
    ensures Pure(ProductH(2, hs)[i], Flat(xs))
  {
    var m := |hs| - 1;
    if m == 0 {
      FlatOne(xs[0]);
      assert xs == [xs[0]];
    } else {
      ProductPure(hs[..m], xs[..m], i);
      JoinPure(ProductH(2, hs[..m])[i], hs[m][i], Flat(xs[..m]), xs[m]);
    }
  }

  lemma {:induction false} ProductNone(n: nat, hs: seq<Hist>, k: nat, i: nat)
    requires k < |hs| && i < n && forall k :: 0 <= k < |hs| ==> |hs[k]| == n
    requires hs[k][i] == multiset{}
    ensures ProductH(n, hs)[i] == multiset{}
  {
    hide Join;
    var m := |hs| - 1;
    if m > 0 {
      var p := ProductH(n, hs[..m]);
      assert ProductH(n, hs)[i] == Join(p[i], hs[m][i], Concat);
      if k < m {
        ProductNone(n, hs[..m], k, i);
        NoneJoin(hs[m][i]);
      } else {
        JoinNone(p[i]);
      }
    }
  }

  lemma NoneJoin(b: Bag)
    ensures Join(multiset{}, b, Concat) == multiset{}
  {
  }

  lemma JoinNone(a: Bag)
    ensures Join(a, multiset{}, Concat) == multiset{}
  {
    BindEmpty(a, Row(multiset{}, Concat));
  }

  lemma {:induction false} LeavesShow(tb: Tables, always: bool, ts: seq<Plan>) returns (xs: seq<Tuple>)
    requires forall k :: 0 <= k < |ts| ==> Productive(ts[k])
    ensures |xs| == |ts| && forall k :: 0 <= k < |ts| ==> Holds(Factors(Trial(tb, always), 2, tb, ts)[k], xs[k], always)
  {
    if ts == [] {
      xs := [];
    } else {
      var m := |ts| - 1;
      xs := LeavesShow(tb, always, ts[..m]);
      var y := LeafShows(tb, always, ts[m]);
      LastFactor(Trial(tb, always), tb, ts);
      xs := xs + [y];
    }
  }

  lemma LastFactor(env: Env, tb: Tables, ts: seq<Plan>)
    requires ts != []
    ensures var m := |ts| - 1;
      Factors(env, 2, tb, ts) == Factors(env, 2, tb, ts[..m]) + [View(Meaning(env, 2, tb, ts[m]), IsStream(ts[m]))]
  {
  }

  lemma CrossShows(tb: Tables, always: bool, c: Plan) returns (x: Tuple)
    requires HasNow(c) && Sound(tb, c) && forall k :: 0 <= k < |c.ins| ==> Productive(c.ins[k])
    ensures Shows(Meaning(Trial(tb, always), 2, tb, c), x, always)
  {
    var env := Trial(tb, always);
    var hs := Factors(env, 2, tb, c.ins);
    var xs := LeavesShow(tb, always, c.ins);
    x := Flat(xs);
    FactorsShow(hs, xs, always);
    CrossState(env, 2, tb, c);
    if !always {
      NowFactor(tb, c.ins, NowAt(c.ins));
      ProductNone(2, hs, NowAt(c.ins), 1);
    }
  }

  lemma NowFactor(tb: Tables, ts: seq<Plan>, k: nat)
    requires k < |ts| && Productive(ts[k]) && ts[k].op.NowWin?
    ensures Factors(Trial(tb, false), 2, tb, ts)[k][1] == multiset{}
  {
    var y := LeafShows(tb, false, ts[k]);
  }

  lemma CrossState(env: Env, n: nat, tb: Tables, c: Plan)
    requires HasNow(c) && Sound(tb, c)
    ensures Meaning(env, n, tb, c) == ProductH(n, Factors(env, n, tb, c.ins))
  {
    var off, w := CrossStreamedShape(tb, c, 0);
    CrossStep(env, n, tb, c);
  }

  lemma FactorsShow(hs: seq<Hist>, xs: seq<Tuple>, always: bool)
    requires hs != [] && |hs| == |xs| && forall k :: 0 <= k < |hs| ==> |hs[k]| == 2 && Holds(hs[k], xs[k], always)
    ensures Holds(ProductH(2, hs), Flat(xs), always)
  {
    ProductPure(hs, xs, 0);
    if always {
      ProductPure(hs, xs, 1);
    }
  }

  // ---------------------------------------------------------------- the path

  ghost predicate HasGroup(t: Plan)
    requires CrossBelow(t)
  {
    !t.op.Cross? && (t.op.GroupAggr? || HasGroup(t.ins[0]))
  }

  ghost predicate HasDistinct(t: Plan)
    requires CrossBelow(t)
  {
    !t.op.Cross? && (t.op.Distinct? || HasDistinct(t.ins[0]))
  }

  lemma {:induction false} PlainHas(t: Plan)
    requires CrossBelow(t)
    ensures PlainPath(t) <==> !HasGroup(t) && !HasDistinct(t)
  {
    if !t.op.Cross? {
      PlainHas(t.ins[0]);
    }
  }

  lemma {:induction false} StreamedFlag(tb: Tables, t: Plan, id: nat)
    requires Streamable(t) && Sound(tb, t)
    ensures IsStream(Streamed(t, id)) <==> !HasGroup(t)
    ensures !IsStream(t)
  {
    if t.op.Cross? {
      var off, w := CrossStreamedShape(tb, t, id);
    } else {
      StreamedFlag(tb, t.ins[0], id);
      SchemaStep(tb, t);
      SchemaStep(tb, Streamed(t, id));
    }
  }

  /** What the stream version shows at the second instant. */
  ghost predicate Left(t: Plan, always: bool)
    requires CrossBelow(t)
  {
    if t.op.Cross? then always else Again(t.op, Left(t.ins[0], always), !HasGroup(t.ins[0]))
  }

  lemma {:induction false} PathShows(tb: Tables, always: bool, t: Plan, id: nat) returns (x: Tuple, y: Tuple)
    requires Streamable(t) && Sound(tb, t) && forall k :: 0 <= k < |CrossOf(t).ins| ==> Productive(CrossOf(t).ins[k])
    ensures Shows(Meaning(Trial(tb, always), 2, tb, t), x, always)
    ensures Shows(Meaning(Trial(tb, always), 2, tb, Streamed(t, id)), y, Left(t, always))
  {
    hide Shows, Meaning;
    var env := Trial(tb, always);
    if t.op.Cross? {
      x := CrossShows(tb, always, t);
      TrialMatches(tb, always);
      var off, w := CrossMoved(env, 2, tb, t, id);
      MapShows(Meaning(env, 2, tb, t), x, always, Fronting(off, w));
      y := Front(off, w, x);
    } else {
      x, y := PathShows(tb, always, t.ins[0], id);
      StreamedFlag(tb, t.ins[0], id);
      x := OpShows(tb, always, t, x, always);
      y := OpShows(tb, always, Streamed(t, id), y, Left(t.ins[0], always));
    }
  }

  lemma {:induction false} LeftOfGroup(t: Plan)
    requires CrossBelow(t)
    ensures Left(t, false) <==> HasGroup(t)
    ensures !HasGroup(t) ==> (Left(t, true) <==> !HasDistinct(t))
  {
    if !t.op.Cross? {
      LeftOfGroup(t.ins[0]);
    }
  }

  // ---------------------------------------------------------------- a window of no time

  /** A range window of no time units, which never holds anything. */
  predicate Closed(t: Plan) {
    t.op.RangeWin? && t.op.units == 0
  }

  lemma ClosedSilent(env: Env, n: nat, tb: Tables, t: Plan)
    requires Leaf(t) && Closed(t)
    ensures View(Meaning(env, n, tb, t), IsStream(t)) == Silence(n)
  {
    OneInput(env, n, tb, t);
    SchemaStep(tb, t);
    var h := Meaning(env, n, tb, t.ins[0]);
    forall i | 0 <= i < n
      ensures RangeH(h, 0)[i] == multiset{}
    {
      assert h[i + 1..i + 1] == [];
    }
  }

  lemma CrossSilent(env: Env, n: nat, tb: Tables, c: Plan, k: nat)
    requires HasNow(c) && Sound(tb, c) && k < |c.ins| && Leaf(c.ins[k]) && Closed(c.ins[k])
    ensures Meaning(env, n, tb, c) == Silence(n)
  {
    var hs := Factors(env, n, tb, c.ins);
    CrossState(env, n, tb, c);
    ClosedSilent(env, n, tb, c.ins[k]);
    forall i | 0 <= i < n
      ensures ProductH(n, hs)[i] == multiset{}
    {
      assert hs[k][i] == multiset{};
      ProductNone(n, hs, k, i);
    }
  }

  /** What operators make of nothing. */
  lemma NothingSame(env: Env, n: nat, op: Payload, s: Schema, r: Schema, g: bool)
    requires OverCross(op) && EmptyAlike(env)
    ensures OpMeaning(env, n, op, [r], [g], [Silence(n)]) == OpMeaning(env, n, op, [s], [false], [Silence(n)])
    ensures !op.GroupAggr? ==> OpMeaning(env, n, op, [s], [false], [Silence(n)]) == Silence(n)
  {
    UnaryMeaning(env, n, op, s, false, Silence(n));
    UnaryMeaning(env, n, op, r, g, Silence(n));
    SilenceViewed(n, g);
    if op.GroupAggr? {
      NothingGrouped(env, n, op, s, r);
    } else if op.Distinct? {
      NothingDistinct(n);
    }
  }

  lemma {:induction false} SumSilence(n: nat, i: nat)
    requires i <= n
    ensures Sum(Silence(n)[..i]) == multiset{}
  {
    if i > 0 {
      SumSilence(n, i - 1);
      assert Silence(n)[..i][..i - 1] == Silence(n)[..i - 1];
    }
  }

  lemma SilenceViewed(n: nat, isStream: bool)
    ensures View(Silence(n), isStream) == Silence(n)
  {
    forall i | 0 <= i < n
      ensures View(Silence(n), isStream)[i] == multiset{}
    {
      SumSilence(n, i + 1);
    }
  }

  lemma NothingDistinct(n: nat)
    ensures DedupH(Silence(n)) == Silence(n) && Delta(Silence(n)) == Silence(n)
  {
    DedupNone();
  }

  lemma NothingGrouped(env: Env, n: nat, op: Payload, s: Schema, r: Schema)
    requires op.GroupAggr? && EmptyAlike(env)
    ensures AggrH(env, FindAll(r, op.groups), FindAggrs(r, op.aggrs), Silence(n))
         == AggrH(env, FindAll(s, op.groups), FindAggrs(s, op.aggrs), Silence(n))
  {
    assert SameFns(FindAggrs(r, op.aggrs), FindAggrs(s, op.aggrs));
    assert env.aggr(FindAll(r, op.groups), FindAggrs(r, op.aggrs), multiset{})
        == env.aggr(FindAll(s, op.groups), FindAggrs(s, op.aggrs), multiset{});
  }

  /** Along the path above a product that is always empty, the two versions agree. */
  lemma {:induction false} SilentPath(env: Env, n: nat, tb: Tables, t: Plan, id: nat, k: nat)
    requires Streamable(t) && Sound(tb, t) && Matches(env, tb) && EmptyAlike(env)
    requires k < |CrossOf(t).ins| && Leaf(CrossOf(t).ins[k]) && Closed(CrossOf(t).ins[k])
    ensures Meaning(env, n, tb, Streamed(t, id)) == Meaning(env, n, tb, t)
    ensures if HasGroup(t) then SchemaOf(tb, Streamed(t, id)) == SchemaOf(tb, t) else Meaning(env, n, tb, t) == Silence(n)
  {
    if t.op.Cross? {
      CrossSilent(env, n, tb, t, k);
      var off, w := CrossMoved(env, n, tb, t, id);
      MapSilence(n, Fronting(off, w));
    } else {
      SilentPath(env, n, tb, t.ins[0], id, k);
      SilentStep(env, n, tb, t, id);
    }
  }

  lemma MapSilence(n: nat, f: Tuple -> Tuple)
    ensures MapH(Silence(n), f) == Silence(n)
  {
  }

  lemma SilentStep(env: Env, n: nat, tb: Tables, t: Plan, id: nat)
    requires Streamable(t) && Sound(tb, t) && EmptyAlike(env) && !t.op.Cross?
    requires Meaning(env, n, tb, Streamed(t.ins[0], id)) == Meaning(env, n, tb, t.ins[0])
    requires if HasGroup(t.ins[0]) then SchemaOf(tb, Streamed(t.ins[0], id)) == SchemaOf(tb, t.ins[0])
             else Meaning(env, n, tb, t.ins[0]) == Silence(n)
    ensures Meaning(env, n, tb, Streamed(t, id)) == Meaning(env, n, tb, t)
    ensures if HasGroup(t) then SchemaOf(tb, Streamed(t, id)) == SchemaOf(tb, t) else Meaning(env, n, tb, t) == Silence(n)
  {
    var x, y := t.ins[0], Streamed(t.ins[0], id);
    OneInput(env, n, tb, t);
    OneInput(env, n, tb, Streamed(t, id));
    StreamedFlag(tb, x, id);
    SameColumns(tb, t, id);
    if !HasGroup(x) {
      NothingSame(env, n, t.op, SchemaOf(tb, x), SchemaOf(tb, y), IsStream(y));
    }
  }

  lemma SameColumns(tb: Tables, t: Plan, id: nat)
    requires Streamable(t) && !t.op.Cross?
    ensures t.op.GroupAggr? || SchemaOf(tb, Streamed(t.ins[0], id)) == SchemaOf(tb, t.ins[0]) ==>
      SchemaOf(tb, Streamed(t, id)) == SchemaOf(tb, t)
  {
    SchemaStep(tb, t);
    SchemaStep(tb, Streamed(t, id));
    assert Schemas(tb, t.ins) == [SchemaOf(tb, t.ins[0])];
    assert Schemas(tb, Streamed(t, id).ins) == [SchemaOf(tb, Streamed(t.ins[0], id))];
  }

  // ---------------------------------------------------------------- exactly when

  /** An interpretation that tells the two plans apart. */
  lemma StreamCrossTells(tb: Tables, t: Plan, id: nat) returns (env: Env)
    requires Sound(tb, t) && t.op.Rstream? && Streamable(t.ins[0]) && !PlainPath(t.ins[0])
    requires forall k :: 0 <= k < |CrossOf(t.ins[0]).ins| ==> Productive(CrossOf(t.ins[0]).ins[k])
    ensures Matches(env, tb) && GroupsRepeat(env) && EmptyAlike(env)
    ensures Meaning(env, 2, tb, StreamCrossed(t, id)) != Meaning(env, 2, tb, t)
  {
    env := StreamedTells(tb, t.ins[0], id);
    StreamedFlag(tb, t.ins[0], id);
    RstreamStep(env, 2, tb, t);
  }

  lemma StreamedTells(tb: Tables, x: Plan, id: nat) returns (env: Env)
    requires Sound(tb, x) && Streamable(x) && !PlainPath(x)
    requires forall k :: 0 <= k < |CrossOf(x).ins| ==> Productive(CrossOf(x).ins[k])
    ensures Matches(env, tb) && GroupsRepeat(env) && EmptyAlike(env)
    ensures Meaning(env, 2, tb, Streamed(x, id)) != Meaning(env, 2, tb, x)
  {
    var always := !HasGroup(x);
    env := Trial(tb, always);
    TrialMatches(tb, always);
    PlainHas(x);
    LeftOfGroup(x);
    var u, v := PathShows(tb, always, x, id);
    ShowsDiffer(Meaning(env, 2, tb, x), u, always, Meaning(env, 2, tb, Streamed(x, id)), v, Left(x, always));
  }

  lemma ShowsDiffer(h: Hist, x: Tuple, a: bool, r: Hist, y: Tuple, b: bool)
    requires Shows(h, x, a) && Shows(r, y, b) && a != b
    ensures h != r
  {
  }

  /** One of the plans is a window of no time. */
  predicate AnyClosed(ts: seq<Plan>) {
    exists k :: 0 <= k < |ts| && Closed(ts[k])
  }

  /** Above a product that is always empty, whatever the path, the stream version means the same. */
  lemma StreamCrossSilent(env: Env, n: nat, tb: Tables, t: Plan, id: nat)
    requires Sound(tb, t) && t.op.Rstream? && Streamable(t.ins[0]) && Matches(env, tb) && EmptyAlike(env)
    requires Leaves(CrossOf(t.ins[0]).ins) && AnyClosed(CrossOf(t.ins[0]).ins)
    ensures Meaning(env, n, tb, StreamCrossed(t, id)) == Meaning(env, n, tb, t)
  {
    hide Meaning;
    var k :| 0 <= k < |CrossOf(t.ins[0]).ins| && Closed(CrossOf(t.ins[0]).ins[k]);
    SilentPath(env, n, tb, t.ins[0], id, k);
    StreamedFlag(tb, t.ins[0], id);
    RstreamStep(env, n, tb, t);
  }

  /**
   Under every interpretation the stream version has the meaning of the original exactly when only
   selects and projects are above the cross product, or one of its inputs is a window of no time.
   */
  lemma StreamCrossExactly(tb: Tables, t: Plan, id: nat)
    requires Sound(tb, t) && t.op.Rstream? && Streamable(t.ins[0]) && Reordered(t.ins[0])
    requires Leaves(CrossOf(t.ins[0]).ins)
    ensures (forall env: Env, n: nat :: Matches(env, tb) && GroupsRepeat(env) && EmptyAlike(env) ==>
               Meaning(env, n, tb, StreamCrossed(t, id)) == Meaning(env, n, tb, t))
       <==> PlainPath(t.ins[0]) || AnyClosed(CrossOf(t.ins[0]).ins)
  {
    if PlainPath(t.ins[0]) || AnyClosed(CrossOf(t.ins[0]).ins) {
      forall env: Env, n: nat | Matches(env, tb) && EmptyAlike(env)
        ensures Meaning(env, n, tb, StreamCrossed(t, id)) == Meaning(env, n, tb, t)
      {
        if PlainPath(t.ins[0]) {
          StreamCrossAlike(env, n, tb, t, id);
        } else {
          StreamCrossSilent(env, n, tb, t, id);
        }
      }
    } else {
      var env := StreamCrossTells(tb, t, id);
    }
  }
}
