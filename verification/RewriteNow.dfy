/**
 Removing an Rstream on top of a path of selects, projects and distincts that ends in a Now window,
 together with the window.
 */
module RewriteNow {
  import opened Common
  import opened Bags
  import opened Histories
  import opened Semantics
  import opened LogicalPlan

  /** The operators the search for the window steps over. */
  predicate OverNow(op: Payload) {
    op.Select? || op.Project? || op.Distinct?
  }

  ghost predicate NowBelow(t: Plan) {
    |t.ins| == 1 && (t.op.NowWin? || (OverNow(t.op) && NowBelow(t.ins[0])))
  }

  ghost function WithoutNow(t: Plan): Plan
    requires NowBelow(t)
  {
    if t.op.NowWin? then t.ins[0] else t.(ins := [WithoutNow(t.ins[0])])
  }

  /** The plan without the two operators, if it has the pattern. */
  ghost function RstreamNowRemoved(t: Plan): Plan {
    if t.op.Rstream? && |t.ins| == 1 && NowBelow(t.ins[0]) then WithoutNow(t.ins[0]) else t
  }

  /** No distinct on the path to the window. */
  ghost predicate NoDistinct(t: Plan)
    requires NowBelow(t)
  {
    t.op.NowWin? || (!t.op.Distinct? && NoDistinct(t.ins[0]))
  }

  lemma {:induction false} NowIsRelation(t: Plan)
    requires NowBelow(t)
    ensures !IsStream(t)
  {
    SchemaStep(Tables((i) => 0, (i, j) => INT, (i, j) => 0, (i) => false), t);
    if !t.op.NowWin? {
      NowIsRelation(t.ins[0]);
    }
  }

  /** What stays and what changes when the window goes: the flag turns, the schema stays. */
  lemma {:induction false} WithoutNowSchema(tb: Tables, t: Plan)
    requires NowBelow(t) && Sound(tb, t)
    ensures SchemaOf(tb, WithoutNow(t)) == SchemaOf(tb, t)
    ensures IsStream(WithoutNow(t)) && Sound(tb, WithoutNow(t))
  {
    SchemaStep(tb, t);
    if !t.op.NowWin? {
      var u := WithoutNow(t);
      WithoutNowSchema(tb, t.ins[0]);
      SchemaStep(tb, u);
      assert Schemas(tb, u.ins) == Schemas(tb, t.ins);
    }
  }

  lemma {:induction false} WithoutNowMeaning(env: Env, n: nat, tb: Tables, t: Plan)
    requires NowBelow(t) && Sound(tb, t) && NoDistinct(t)
    ensures Meaning(env, n, tb, WithoutNow(t)) == Meaning(env, n, tb, t)
  {
    MeaningStep(env, n, tb, t);
    if !t.op.NowWin? {
      var u := WithoutNow(t);
      WithoutNowSchema(tb, t.ins[0]);
      WithoutNowMeaning(env, n, tb, t.ins[0]);
      MeaningStep(env, n, tb, u);
      assert Schemas(tb, u.ins) == Schemas(tb, t.ins);
      assert Meanings(env, n, tb, u.ins)[0] == Meanings(env, n, tb, t.ins)[0];
    }
  }

  /** Removing the pair keeps the plan alike, as long as the path has no distinct. */
  lemma RstreamNowAlike(env: Env, n: nat, tb: Tables, t: Plan)
    requires Sound(tb, t)
    requires t.op.Rstream? && NowBelow(t.ins[0]) ==> NoDistinct(t.ins[0])
    ensures Alike(env, n, tb, t, RstreamNowRemoved(t)) && Sound(tb, RstreamNowRemoved(t))
  {
    if t.op.Rstream? && NowBelow(t.ins[0]) {
      SchemaStep(tb, t);
      MeaningStep(env, n, tb, t);
      NowIsRelation(t.ins[0]);
      WithoutNowSchema(tb, t.ins[0]);
      WithoutNowMeaning(env, n, tb, t.ins[0]);
    }
  }

  // ---------------------------------------------------------------- a distinct on the path

  /** The window reads a stream source. */
  ghost predicate NowOverSource(t: Plan)
    requires NowBelow(t)
  {
    if t.op.NowWin? then t.ins[0].op.StreamSource? && t.ins[0].ins == [] else NowOverSource(t.ins[0])
  }

  /** Every table holds one and the same tuple at every instant, and every predicate holds. */
  function Steady(tb: Tables): Env {
    Env((op, v, w) => NoValue, (op, v, w) => true,
        (table: nat, t: nat) => multiset{seq(tb.width(table), i => NoValue)},
        tb.width,
        (rows, h) => multiset{}, (poss, rows, h) => multiset{}, (groups, aggrs, m) => multiset{})
  }

  /** One tuple at each of two instants, or at the first of them only. */
  ghost function Twice(x: Tuple, again: bool): Hist {
    [multiset{x}, if again then multiset{x} else multiset{}]
  }

  lemma BindTwice(x: Tuple, again: bool, f: Tuple -> Bag, y: Tuple)
    requires f(x) == multiset{y}
    ensures BindH(Twice(x, again), f) == Twice(y, again)
  {
    BindSingle(x, f);
  }

  lemma DedupOne(m: Bag, x: Tuple)
    requires x in m && forall y :: y in m ==> y == x
    ensures Dedup(m) == multiset{x}
  {
    assert (set y | y in m) == {x};
  }

  lemma DistinctTwice(x: Tuple, again: bool)
    ensures DedupH(Twice(x, true)) == Twice(x, true)
    ensures Delta(DedupH(View(Twice(x, again), true))) == Twice(x, false)
  {
    var h := Twice(x, again);
    CumulateStart(h);
    CumulateStep(h, 1);
    DedupOne(multiset{x}, x);
    DedupOne(Cumulate(h)[0], x);
    DedupOne(Cumulate(h)[1], x);
  }

  lemma {:induction false} SteadyRun(tb: Tables, t: Plan) returns (x: Tuple)
    requires NowBelow(t) && NowOverSource(t) && Sound(tb, t)
    ensures Meaning(Steady(tb), 2, tb, t) == Twice(x, true)
    ensures Meaning(Steady(tb), 2, tb, WithoutNow(t)) == Twice(x, NoDistinct(t))
  {
    var env, u := Steady(tb), WithoutNow(t);
    MeaningStep(env, 2, tb, t);
    if t.op.NowWin? {
      x := seq(tb.width(t.ins[0].op.strId), i => NoValue);
      MeaningStep(env, 2, tb, t.ins[0]);
    } else {
      var y := SteadyRun(tb, t.ins[0]);
      x := SteadyStep(tb, t, y);
    }
  }

  lemma SteadyStep(tb: Tables, t: Plan, y: Tuple) returns (x: Tuple)
    requires NowBelow(t) && !t.op.NowWin? && Sound(tb, t)
    requires Meaning(Steady(tb), 2, tb, t.ins[0]) == Twice(y, true)
    requires Meaning(Steady(tb), 2, tb, WithoutNow(t.ins[0])) == Twice(y, NoDistinct(t.ins[0]))
    ensures Meaning(Steady(tb), 2, tb, t) == Twice(x, true)
    ensures Meaning(Steady(tb), 2, tb, WithoutNow(t)) == Twice(x, NoDistinct(t))
  {
    var env, u, s := Steady(tb), WithoutNow(t), SchemaOf(tb, t.ins[0]);
    OneInput(env, 2, tb, t);
    OneInput(env, 2, tb, u);
    WithoutNowSchema(tb, t.ins[0]);
    NowIsRelation(t.ins[0]);
    x := SteadyOp(tb, t.op, s, y, NoDistinct(t.ins[0]));
  }

  /** What an operator makes of the two histories. */
  lemma SteadyOp(tb: Tables, op: Payload, s: Schema, y: Tuple, again: bool) returns (x: Tuple)
    requires op.Select? || op.Project? || op.Distinct?
    ensures OpMeaning(Steady(tb), 2, op, [s], [false], [Twice(y, true)]) == Twice(x, true)
    ensures OpMeaning(Steady(tb), 2, op, [s], [true], [Twice(y, again)]) == Twice(x, again && !op.Distinct?)
  {
    var env := Steady(tb);
    UnaryMeaning(env, 2, op, s, false, Twice(y, true));
    UnaryMeaning(env, 2, op, s, true, Twice(y, again));
    x := y;
    match op {
      case Select(pred) =>
        BindTwice(y, true, Keep(Selects(env, pred, s)), y);
        BindTwice(y, again, Keep(Selects(env, pred, s)), y);
      case Project(projs) =>
        x := ValuesIn(env, projs, s, y);
        BindTwice(y, true, Each(Computes(env, projs, s)), x);
        BindTwice(y, again, Each(Computes(env, projs, s)), x);
      case Distinct =>
        DistinctTwice(y, again);
    }
  }

  lemma TwiceDiffer(x: Tuple)
    ensures Twice(x, true) != Twice(x, false)
  {
    assert x in Twice(x, true)[1] && x !in Twice(x, false)[1];
  }

  /** With a distinct on the path, the two plans differ under the steady interpretation. */
  lemma RstreamNowTells(tb: Tables, t: Plan)
    requires Sound(tb, t) && t.op.Rstream? && NowBelow(t.ins[0]) && NowOverSource(t.ins[0]) && !NoDistinct(t.ins[0])
    ensures Matches(Steady(tb), tb)
    ensures Meaning(Steady(tb), 2, tb, RstreamNowRemoved(t)) != Meaning(Steady(tb), 2, tb, t)
  {
    hide Meaning;
    var env := Steady(tb);
    var x := SteadyRun(tb, t.ins[0]);
    NowIsRelation(t.ins[0]);
    RstreamStep(env, 2, tb, t);
    TwiceDiffer(x);
  }

  /** Removing the pair keeps the meaning under every interpretation exactly when no distinct is on the path. */
  lemma RstreamNowExactly(tb: Tables, t: Plan)
    requires Sound(tb, t) && t.op.Rstream? && NowBelow(t.ins[0]) && NowOverSource(t.ins[0])
    ensures (forall env: Env, n: nat :: Matches(env, tb) ==>
               Meaning(env, n, tb, RstreamNowRemoved(t)) == Meaning(env, n, tb, t))
       <==> NoDistinct(t.ins[0])
  {
    if NoDistinct(t.ins[0]) {
      forall env: Env, n: nat | Matches(env, tb)
        ensures Meaning(env, n, tb, RstreamNowRemoved(t)) == Meaning(env, n, tb, t)
      {
        RstreamNowAlike(env, n, tb, t);
      }
    } else {
      RstreamNowTells(tb, t);
    }
  }
}
