/**
 What an operator produces over the instants 0, 1, ..., n-1: one bag per instant.  The bag of a
 stream holds the tuples that arrive at the instant, the bag of a relation is its state.
 */
module Histories {
  import opened Common
  import opened Bags

  type Hist = seq<Bag>

  ghost function Sum(h: Hist): Bag {
    if h == [] then multiset{} else Sum(h[..|h| - 1]) + h[|h| - 1]
  }

  /** Everything that has arrived so far. */
  ghost function Cumulate(h: Hist): (r: Hist)
    ensures |r| == |h|
  {
    seq(|h|, t requires 0 <= t < |h| => Sum(h[..t + 1]))
  }

  /** What is new at each instant. */
  ghost function Delta(h: Hist): (r: Hist)
    ensures |r| == |h|
  {
    seq(|h|, t requires 0 <= t < |h| => if t == 0 then h[0] else h[t] - h[t - 1])
  }

  /** What is gone at each instant. */
  ghost function Gone(h: Hist): (r: Hist)
    ensures |r| == |h|
  {
    seq(|h|, t requires 0 <= t < |h| => if t == 0 then multiset{} else h[t - 1] - h[t])
  }

  /** The relation a consumer sees: a stream stands for everything that arrived so far. */
  ghost function View(h: Hist, isStream: bool): (r: Hist)
    ensures |r| == |h|
  {
    if isStream then Cumulate(h) else h
  }

  /** A state history, reported as the stream of its new tuples if so flagged. */
  ghost function Report(state: Hist, isStream: bool): (r: Hist)
    ensures |r| == |state|
  {
    if isStream then Delta(state) else state
  }

  ghost predicate Growing(h: Hist) {
    forall s, t :: 0 <= s < t < |h| && t == s + 1 ==> h[s] <= h[t]
  }

  ghost function BindH(h: Hist, f: Tuple -> Bag): (r: Hist)
    ensures |r| == |h|
  {
    seq(|h|, t requires 0 <= t < |h| => Bind(h[t], f))
  }

  ghost function FilterH(h: Hist, p: Tuple -> bool): Hist { BindH(h, Keep(p)) }

  ghost function MapH(h: Hist, f: Tuple -> Tuple): Hist { BindH(h, Each(f)) }

  ghost function JoinH(a: Hist, b: Hist, f: (Tuple, Tuple) -> Bag): (r: Hist)
    requires |a| == |b|
    ensures |r| == |a|
  {
    seq(|a|, t requires 0 <= t < |a| => Join(a[t], b[t], f))
  }

  ghost function DedupH(h: Hist): (r: Hist)
    ensures |r| == |h|
  {
    seq(|h|, t requires 0 <= t < |h| => Dedup(h[t]))
  }

  ghost function PlusH(a: Hist, b: Hist): (r: Hist)
    requires |a| == |b|
    ensures |r| == |a|
  {
    seq(|a|, t requires 0 <= t < |a| => a[t] + b[t])
  }

  ghost function MinusH(a: Hist, b: Hist): (r: Hist)
    requires |a| == |b|
    ensures |r| == |a|
  {
    seq(|a|, t requires 0 <= t < |a| => a[t] - b[t])
  }

  /** The arrivals of the last `units` instants. */
  ghost function RangeH(h: Hist, units: nat): (r: Hist)
    ensures |r| == |h|
  {
    seq(|h|, t requires 0 <= t < |h| => Sum(h[(if t + 1 < units then 0 else t + 1 - units)..t + 1]))
  }

  /** A window of one time unit holds exactly the arrivals of the instant. */
  lemma RangeOneIsNow(h: Hist)
    ensures RangeH(h, 1) == h
  {
    forall t | 0 <= t < |h|
      ensures RangeH(h, 1)[t] == h[t]
    {
      assert h[t..t + 1] == [h[t]];
      assert [h[t]][..0] == [];
      assert Sum([h[t]]) == Sum([]) + h[t];
    }
  }

  lemma CumulateStep(h: Hist, t: nat)
    requires 0 < t < |h|
    ensures Cumulate(h)[t] == Cumulate(h)[t - 1] + h[t]
  {
    assert h[..t + 1][..t] == h[..t];
  }

  lemma CumulateStart(h: Hist)
    requires h != []
    ensures Cumulate(h)[0] == h[0]
  {
    assert h[..1][..0] == [];
    assert Sum(h[..1]) == Sum(h[..1][..0]) + h[0];
  }

  lemma CumulateGrows(h: Hist)
    ensures Growing(Cumulate(h))
  {
    forall t | 0 < t < |h|
      ensures Cumulate(h)[t - 1] <= Cumulate(h)[t]
    {
      CumulateStep(h, t);
    }
  }

  /** A growing state is the accumulation of what is new: reporting it as a stream loses nothing. */
  lemma {:induction false} CumulateDeltaAt(h: Hist, t: nat)
    requires Growing(h) && t < |h|
    ensures Cumulate(Delta(h))[t] == h[t]
  {
    if t == 0 {
      CumulateStart(Delta(h));
    } else {
      CumulateDeltaAt(h, t - 1);
      CumulateStep(Delta(h), t);
    }
  }

  lemma CumulateDelta(h: Hist)
    requires Growing(h)
    ensures Cumulate(Delta(h)) == h
  {
    forall t | 0 <= t < |h|
      ensures Cumulate(Delta(h))[t] == h[t]
    {
      CumulateDeltaAt(h, t);
    }
  }

  /** Reporting a state and viewing the report gives back the state, if it grows or is no stream. */
  lemma ViewReport(state: Hist, isStream: bool)
    requires isStream ==> Growing(state)
    ensures View(Report(state, isStream), isStream) == state
  {
    if isStream {
      CumulateDelta(state);
    }
  }

  lemma DeltaCumulate(h: Hist)
    ensures Delta(Cumulate(h)) == h
  {
    forall t | 0 <= t < |h|
      ensures Delta(Cumulate(h))[t] == h[t]
    {
      if t == 0 {
        CumulateStart(h);
      } else {
        CumulateStep(h, t);
      }
    }
  }

  lemma {:induction false} CumulateBindAt(h: Hist, f: Tuple -> Bag, t: nat)
    requires t < |h|
    ensures Cumulate(BindH(h, f))[t] == Bind(Cumulate(h)[t], f)
  {
    if t == 0 {
      CumulateStart(h);
      CumulateStart(BindH(h, f));
    } else {
      CumulateBindAt(h, f, t - 1);
      CumulateStep(h, t);
      CumulateStep(BindH(h, f), t);
      BindUnion(Cumulate(h)[t - 1], h[t], f);
    }
  }

  lemma ViewBind(h: Hist, f: Tuple -> Bag, isStream: bool)
    ensures View(BindH(h, f), isStream) == BindH(View(h, isStream), f)
  {
    if isStream {
      forall t | 0 <= t < |h|
        ensures Cumulate(BindH(h, f))[t] == BindH(Cumulate(h), f)[t]
      {
        CumulateBindAt(h, f, t);
      }
    }
  }

  lemma ReportBind(h: Hist, f: Tuple -> Bag, isStream: bool)
    requires isStream ==> Growing(h)
    ensures BindH(Report(h, isStream), f) == Report(BindH(h, f), isStream)
  {
    if isStream {
      forall t | 0 <= t < |h|
        ensures BindH(Delta(h), f)[t] == Delta(BindH(h, f))[t]
      {
        if t > 0 {
          BindMinus(h[t], h[t - 1], f);
        }
      }
    }
  }

  lemma JoinGrows(a: Hist, b: Hist, f: (Tuple, Tuple) -> Bag)
    requires |a| == |b| && Growing(a) && Growing(b)
    ensures Growing(JoinH(a, b, f))
  {
    forall s, t | 0 <= s < t < |a| && t == s + 1
      ensures JoinH(a, b, f)[s] <= JoinH(a, b, f)[t]
    {
      JoinMonotone(a[s], a[t], b[s], b[t], f);
    }
  }

  /** The join of what two streams have brought so far only grows. */
  lemma ViewsJoinGrows(a: Hist, b: Hist, f: (Tuple, Tuple) -> Bag)
    requires |a| == |b|
    ensures Growing(JoinH(View(a, true), View(b, true), f))
  {
    CumulateGrows(a);
    CumulateGrows(b);
    JoinGrows(Cumulate(a), Cumulate(b), f);
  }

  /** The distinct tuples of a growing bag grow. */
  lemma DedupGrows(h: Hist)
    requires Growing(h)
    ensures Growing(DedupH(h))
  {
    forall s, t | 0 <= s < t < |h| && t == s + 1
      ensures DedupH(h)[s] <= DedupH(h)[t]
    {
      assert h[s] <= h[t];
      forall x
        ensures Dedup(h[s])[x] <= Dedup(h[t])[x]
      {
        assert x in h[s] ==> h[s][x] <= h[t][x];
      }
    }
  }

  lemma {:induction false} CumulatePlusAt(a: Hist, b: Hist, t: nat)
    requires |a| == |b| && t < |a|
    ensures Cumulate(PlusH(a, b))[t] == Cumulate(a)[t] + Cumulate(b)[t]
  {
    if t == 0 {
      CumulateStart(a);
      CumulateStart(b);
      CumulateStart(PlusH(a, b));
    } else {
      CumulatePlusAt(a, b, t - 1);
      CumulateStep(a, t);
      CumulateStep(b, t);
      CumulateStep(PlusH(a, b), t);
    }
  }

  lemma CumulatePlus(a: Hist, b: Hist)
    requires |a| == |b|
    ensures Cumulate(PlusH(a, b)) == PlusH(Cumulate(a), Cumulate(b))
  {
    forall t | 0 <= t < |a|
      ensures Cumulate(PlusH(a, b))[t] == PlusH(Cumulate(a), Cumulate(b))[t]
    {
      CumulatePlusAt(a, b, t);
    }
  }

  lemma DistinctWhole(h: Hist, f: bool)
    ensures var state := DedupH(View(h, f)); View(Report(state, f), f) == state
  {
    if f {
      CumulateGrows(h);
      DedupGrows(Cumulate(h));
    }
    ViewReport(DedupH(View(h, f)), f);
  }

  // ---------------------------------------------------------------- widths

  /** Every tuple of the history has w values. */
  ghost predicate HasWidth(h: Hist, w: nat) {
    forall t :: 0 <= t < |h| ==> BagWidth(h[t], w)
  }

  ghost predicate BagWidth(m: Bag, w: nat) {
    forall x :: x in m ==> |x| == w
  }

  lemma {:induction false} SumWidth(h: Hist, w: nat)
    requires HasWidth(h, w)
    ensures BagWidth(Sum(h), w)
  {
    if h != [] {
      SumWidth(h[..|h| - 1], w);
    }
  }

  lemma ViewWidth(h: Hist, isStream: bool, w: nat)
    requires HasWidth(h, w)
    ensures HasWidth(View(h, isStream), w)
  {
    forall t | 0 <= t < |h|
      ensures BagWidth(View(h, isStream)[t], w)
    {
      SumWidth(h[..t + 1], w);
    }
  }

  lemma RangeWidth(h: Hist, units: nat, w: nat)
    requires HasWidth(h, w)
    ensures HasWidth(RangeH(h, units), w)
  {
    forall t | 0 <= t < |h|
      ensures BagWidth(RangeH(h, units)[t], w)
    {
      SumWidth(h[(if t + 1 < units then 0 else t + 1 - units)..t + 1], w);
    }
  }

  lemma FilterWidth(h: Hist, p: Tuple -> bool, w: nat)
    requires HasWidth(h, w)
    ensures HasWidth(FilterH(h, p), w)
  {
    forall t | 0 <= t < |h|
      ensures BagWidth(FilterH(h, p)[t], w)
    {
      forall x | x in FilterH(h, p)[t]
        ensures |x| == w
      {
        FilterIn(h[t], p, x);
      }
    }
  }

  lemma MapWidth(h: Hist, f: Tuple -> Tuple, w: nat)
    requires forall x :: |f(x)| == w
    ensures HasWidth(MapH(h, f), w)
  {
    forall t | 0 <= t < |h|
      ensures BagWidth(MapH(h, f)[t], w)
    {
      forall y | y in MapH(h, f)[t]
        ensures |y| == w
      {
        var x := MapIn(h[t], f, y);
      }
    }
  }

  lemma JoinWidth(a: Hist, b: Hist, f: (Tuple, Tuple) -> Bag, u: nat, v: nat, w: nat)
    requires |a| == |b| && HasWidth(a, u) && HasWidth(b, v)
    requires forall x, y, z :: |x| == u && |y| == v && z in f(x, y) ==> |z| == w
    ensures HasWidth(JoinH(a, b, f), w)
  {
    forall t | 0 <= t < |a|
      ensures BagWidth(JoinH(a, b, f)[t], w)
    {
      forall z | z in JoinH(a, b, f)[t]
        ensures |z| == w
      {
        var x, y := JoinIn(a[t], b[t], f, z);
      }
    }
  }

  lemma ReportWidth(h: Hist, isStream: bool, w: nat)
    requires HasWidth(h, w)
    ensures HasWidth(Report(h, isStream), w)
  {
    forall t | 0 <= t < |h|
      ensures BagWidth(Report(h, isStream)[t], w)
    {
      forall x | x in Report(h, isStream)[t]
        ensures |x| == w
      {
        assert x in h[t];
      }
    }
  }

  lemma GoneWidth(h: Hist, w: nat)
    requires HasWidth(h, w)
    ensures HasWidth(Gone(h), w)
  {
    forall t | 0 <= t < |h|
      ensures BagWidth(Gone(h)[t], w)
    {
      forall x | x in Gone(h)[t]
        ensures |x| == w
      {
        assert t > 0 && x in h[t - 1];
      }
    }
  }
}
