/**
 Cutting one operator out of the graph and letting its readers read another one: the step behind
 removing query sources, absorbing selects and projects, and merging equal operators.
 */
module Rewire {
  import opened Common
  import opened Semantics
  import opened PhysicalPlan

  function Redirect(ids: seq<nat>, a: nat, b: nat): (r: seq<nat>)
    ensures |r| == |ids|
  {
    seq(|ids|, k requires 0 <= k < |ids| => if ids[k] == a then b else ids[k])
  }

  /** Operator a is cut out of g, and its readers read b in g2. */
  ghost predicate Spliced(g: Graph, g2: Graph, live: set<nat>, a: nat, b: nat)
    requires a < |g| && forall i :: i in live ==> i < |g|
  {
    && |g2| == |g|
    && (forall i :: i in live && i != a ==> g2[i].inputs == Redirect(g[i].inputs, a, b))
    && (forall i, x :: i in live && i != a ==>
         Occ(g2[i].outputs, x) == Readings(g, a, b, i, x))
  }

  /** How often x reads i once a is cut out and b is read in its place. */
  function Readings(g: Graph, a: nat, b: nat, i: nat, x: nat): nat
    requires a < |g| && i < |g|
  {
    (if x == a then 0 else Occ(g[i].outputs, x)) + (if i == b then Occ(g[a].outputs, x) else 0)
  }

  /** Operator i is the same but for its links and class. */
  predicate SameOp(o: Operator, p: Operator) {
    o.payload == p.payload && o.attrs == p.attrs && o.bStream == p.bStream
  }

  lemma {:induction false} RedirectCount(ids: seq<nat>, a: nat, b: nat, p: nat)
    requires a != b
    ensures Occ(Redirect(ids, a, b), p)
         == (if p == a then 0 else Occ(ids, p)) + (if p == b then Occ(ids, a) else 0)
  {
    if ids == [] {
      assert Redirect(ids, a, b) == [];
    } else {
      var n := |ids| - 1;
      RedirectCount(ids[..n], a, b, p);
      assert Redirect(ids, a, b)[..n] == Redirect(ids[..n], a, b);
    }
  }

  lemma SpliceWf(g: Graph, g2: Graph, live: set<nat>, rank: seq<nat>, a: nat, b: nat)
    requires Wf(g, live, rank) && a in live && b in live && a != b
    requires rank[b] <= rank[a]
    requires Spliced(g, g2, live, a, b)
    ensures Wf(g2, live - {a}, rank)
  {
    forall i, k | i in live - {a} && 0 <= k < |g2[i].inputs|
      ensures g2[i].inputs[k] in live - {a} && rank[g2[i].inputs[k]] < rank[i]
    {
      assert g[i].inputs[k] in live;
    }
  }

  /** Cutting an operator out keeps inputs and readers in agreement, multiplicities included. */
  lemma SpliceEdges(g: Graph, g2: Graph, live: set<nat>, rank: seq<nat>, a: nat, b: nat)
    requires Wf(g, live, rank) && EdgesAgree(g, live) && a in live && b in live && a != b
    requires rank[b] <= rank[a]
    requires Spliced(g, g2, live, a, b)
    ensures EdgesAgree(g2, live - {a})
  {
    var rest := live - {a};
    forall p, c | p in rest && c in rest
      ensures Occ(g2[c].inputs, p) == Occ(g2[p].outputs, c)
    {
      RedirectCount(g[c].inputs, a, b, p);
      assert Occ(g[c].inputs, p) == Occ(g[p].outputs, c) && Occ(g[c].inputs, a) == Occ(g[a].outputs, c);
    }
    forall i, r | i in rest && r in g2[i].outputs
      ensures r in rest
    {
      SpliceReader(g, g2, live, rank, a, b, i, r);
    }
  }

  lemma SpliceReader(g: Graph, g2: Graph, live: set<nat>, rank: seq<nat>, a: nat, b: nat, i: nat, r: nat)
    requires Wf(g, live, rank) && EdgesAgree(g, live) && a in live && b in live && a != b
    requires Spliced(g, g2, live, a, b)
    requires i in live - {a} && r in g2[i].outputs
    ensures r in live - {a}
    ensures r in g[i].outputs || (i == b && r in g[a].outputs)
  {
    NoSelfReader(g, live, rank, a);
    OccIn(g2[i].outputs, r);
    OccIn(g[i].outputs, r);
    OccIn(g[a].outputs, r);
  }

  lemma NoSelfReader(g: Graph, live: set<nat>, rank: seq<nat>, a: nat)
    requires Wf(g, live, rank) && EdgesAgree(g, live) && a in live
    ensures a !in g[a].outputs && Occ(g[a].outputs, a) == 0
  {
    OccIn(g[a].outputs, a);
    OccIn(g[a].inputs, a);
  }

  /** Operators below the cut unfold as before. */
  lemma {:induction false} SpliceBelow(g: Graph, g2: Graph, live: set<nat>, rank: seq<nat>, a: nat, b: nat, i: nat)
    requires Wf(g, live, rank) && a in live && b in live && a != b
    requires rank[b] <= rank[a] && Spliced(g, g2, live, a, b)
    requires Wf(g2, live - {a}, rank)
    requires i in live && rank[i] < rank[b]
    requires forall j :: j in live - {a, b} ==> SameOp(g[j], g2[j])
    ensures Unfold(g2, live - {a}, rank, i) == Unfold(g, live, rank, i)
    decreases rank[i]
  {
    var t, t2 := Unfold(g, live, rank, i), Unfold(g2, live - {a}, rank, i);
    forall k | 0 <= k < |g[i].inputs|
      ensures g2[i].inputs[k] == g[i].inputs[k] && t2.ins[k] == t.ins[k]
    {
      assert rank[g[i].inputs[k]] < rank[i];
      SpliceBelow(g, g2, live, rank, a, b, g[i].inputs[k]);
    }
    assert t2.ins == t.ins;
  }

  /** If a and b unfold to the same tree, cutting a out changes no unfolding. */
  lemma {:induction false} SpliceUnfold(g: Graph, g2: Graph, live: set<nat>, rank: seq<nat>, a: nat, b: nat, i: nat)
    requires Wf(g, live, rank) && a in live && b in live && a != b
    requires rank[b] <= rank[a] && Spliced(g, g2, live, a, b)
    requires Wf(g2, live - {a}, rank)
    requires forall j :: j in live - {a} ==> SameOp(g[j], g2[j])
    requires Unfold(g, live, rank, a) == Unfold(g, live, rank, b)
    requires i in live - {a}
    ensures Unfold(g2, live - {a}, rank, i) == Unfold(g, live, rank, i)
    decreases rank[i]
  {
    var t, t2 := Unfold(g, live, rank, i), Unfold(g2, live - {a}, rank, i);
    forall k | 0 <= k < |g[i].inputs|
      ensures t2.ins[k] == t.ins[k]
    {
      var p := g2[i].inputs[k];
      assert rank[p] < rank[i];
      SpliceUnfold(g, g2, live, rank, a, b, p);
    }
    assert t2.ins == t.ins;
  }

  /** If b now computes what a computed, every other operator computes what it did. */
  lemma {:induction false} SpliceMeaning(env: Env, n: nat, g: Graph, g2: Graph, live: set<nat>, rank: seq<nat>,
                                         a: nat, b: nat, i: nat)
    requires Wf(g, live, rank) && a in live && b in live && a != b
    requires rank[b] <= rank[a] && Spliced(g, g2, live, a, b)
    requires Wf(g2, live - {a}, rank)
    requires forall j :: j in live - {a, b} ==> SameOp(g[j], g2[j])
    requires g2[b].bStream == g[a].bStream
    requires Meaning(env, n, g2, live - {a}, rank, b) == Meaning(env, n, g, live, rank, a)
    requires (g2[b].bStream == g[b].bStream && Meaning(env, n, g2, live - {a}, rank, b) == Meaning(env, n, g, live, rank, b))
          || forall j :: j in live - {a} ==> b !in g[j].inputs
    requires i in live - {a, b}
    ensures Meaning(env, n, g2, live - {a}, rank, i) == Meaning(env, n, g, live, rank, i)
    decreases rank[i]
  {
    var rest := live - {a};
    MeaningStep(env, n, g, live, rank, i);
    MeaningStep(env, n, g2, rest, rank, i);
    var ids, ids2 := g[i].inputs, g2[i].inputs;
    forall k | 0 <= k < |ids|
      ensures g2[ids2[k]].bStream == g[ids[k]].bStream
      ensures Meaning(env, n, g2, rest, rank, ids2[k]) == Meaning(env, n, g, live, rank, ids[k])
    {
      assert rank[ids[k]] < rank[i];
      if ids[k] != a {
        if ids[k] != b {
          SpliceMeaning(env, n, g, g2, live, rank, a, b, ids[k]);
        } else {
          assert b in g[i].inputs;
        }
      }
    }
    assert InputFlags(g2, ids2) == InputFlags(g, ids);
    assert Meanings(env, n, g2, rest, rank, ids2) == Meanings(env, n, g, live, rank, ids);
  }

  /** Schemas and stream flags still follow from the inputs if b took over those of a. */
  lemma SpliceTyped(g: Graph, g2: Graph, live: set<nat>, rank: seq<nat>, a: nat, b: nat)
    requires Wf(g, live, rank) && AllTyped(g, live, rank) && a in live && b in live && a != b
    requires rank[b] <= rank[a] && Spliced(g, g2, live, a, b)
    requires Wf(g2, live - {a}, rank)
    requires forall j :: j in live - {a, b} ==> SameOp(g[j], g2[j])
    requires g2[b].bStream == g[a].bStream && g2[b].attrs == g[a].attrs
    requires (g2[b].bStream == g[b].bStream && g2[b].attrs == g[b].attrs)
          || forall j :: j in live - {a} ==> b !in g[j].inputs
    requires Typed(g2, live - {a}, b)
    ensures AllTyped(g2, live - {a}, rank)
  {
    forall i | i in live - {a, b}
      ensures Typed(g2, live - {a}, i)
    {
      assert Typed(g, live, i);
      var ids, ids2 := g[i].inputs, g2[i].inputs;
      forall k | 0 <= k < |ids|
        ensures g2[ids2[k]].bStream == g[ids[k]].bStream && g2[ids2[k]].attrs == g[ids[k]].attrs
      {
        if ids[k] == b {
          assert b in g[i].inputs;
        }
      }
      assert InputFlags(g2, ids2) == InputFlags(g, ids);
      assert InputSchemas(g2, ids2) == InputSchemas(g, ids);
    }
  }
}
