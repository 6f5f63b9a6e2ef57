/**
 The interpretation a plan is read under.  Arithmetic, comparison, row and partition windows and
 aggregation are parameters, so everything proved holds for every way of computing them.
 */
module Semantics {
  import opened Common
  import opened Bags
  import opened Histories

  datatype Env = Env(
    arith: (ArithOp, Value, Value) -> Value,
    cmp: (CompOp, Value, Value) -> bool,
    /** The tuples of a table at an instant: arrivals of a stream, state of a relation. */
    base: (nat, nat) -> Bag,
    /** The number of attributes of a table. */
    width: nat -> nat,
    /** State of a row window, given its size and the arrivals so far. */
    rowWin: (nat, Hist) -> Bag,
    /** State of a partition window, given positions, size and the arrivals so far. */
    partnWin: (seq<nat>, nat, Hist) -> Bag,
    /** Groups and aggregates of a bag, given positions. */
    aggr: (seq<nat>, seq<(AggrFn, nat)>, Bag) -> Bag)

  /** Tables have tuples of their width, windows hold arrived tuples, groups have their columns. */
  ghost predicate Sensible(env: Env) {
    && (forall table, t :: BagWidth(env.base(table, t), env.width(table)))
    && (forall rows, h :: env.rowWin(rows, h) <= Sum(h))
    && (forall poss, rows, h :: env.partnWin(poss, rows, h) <= Sum(h))
    && (forall groups, aggrs, m :: BagWidth(env.aggr(groups, aggrs, m), |groups| + |aggrs|))
  }

  ghost function BaseH(env: Env, n: nat, table: nat): (h: Hist)
    ensures |h| == n
  {
    seq(n, t requires 0 <= t < n => env.base(table, t))
  }

  ghost function RowWinH(env: Env, rows: nat, h: Hist): (r: Hist)
    ensures |r| == |h|
  {
    seq(|h|, t requires 0 <= t < |h| => env.rowWin(rows, h[..t + 1]))
  }

  ghost function PartnWinH(env: Env, poss: seq<nat>, rows: nat, h: Hist): (r: Hist)
    ensures |r| == |h|
  {
    seq(|h|, t requires 0 <= t < |h| => env.partnWin(poss, rows, h[..t + 1]))
  }

  ghost function AggrH(env: Env, groups: seq<nat>, aggrs: seq<(AggrFn, nat)>, h: Hist): (r: Hist)
    ensures |r| == |h|
  {
    seq(|h|, t requires 0 <= t < |h| => env.aggr(groups, aggrs, h[t]))
  }

  ghost function Silence(n: nat): (h: Hist)
    ensures |h| == n
  {
    seq(n, t requires 0 <= t < n => multiset{})
  }

  lemma RowWinWidth(env: Env, rows: nat, h: Hist, w: nat)
    requires Sensible(env) && HasWidth(h, w)
    ensures HasWidth(RowWinH(env, rows, h), w)
  {
    forall t | 0 <= t < |h|
      ensures BagWidth(RowWinH(env, rows, h)[t], w)
    {
      SumWidth(h[..t + 1], w);
      assert env.rowWin(rows, h[..t + 1]) <= Sum(h[..t + 1]);
    }
  }

  lemma PartnWinWidth(env: Env, poss: seq<nat>, rows: nat, h: Hist, w: nat)
    requires Sensible(env) && HasWidth(h, w)
    ensures HasWidth(PartnWinH(env, poss, rows, h), w)
  {
    forall t | 0 <= t < |h|
      ensures BagWidth(PartnWinH(env, poss, rows, h)[t], w)
    {
      SumWidth(h[..t + 1], w);
      assert env.partnWin(poss, rows, h[..t + 1]) <= Sum(h[..t + 1]);
    }
  }
}
