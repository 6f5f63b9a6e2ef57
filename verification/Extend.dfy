/** Adding operators on top of a plan leaves what the others unfold to, and produce, as it was. */
module Extend {
  import opened Common
  import opened Semantics
  import opened PhysicalPlan
  import opened Rewire

  /** The operators of the first plan are in the second, and do the same on the same inputs. */
  ghost predicate Extends(g: Graph, live: set<nat>, g2: Graph, live2: set<nat>)
    requires (forall i :: i in live ==> i < |g|) && (forall i :: i in live2 ==> i < |g2|)
  {
    live <= live2 && forall i :: i in live ==> SameOp(g[i], g2[i]) && g2[i].inputs == g[i].inputs
  }

  /** Ranks only witness that the plan is acyclic: unfolding does not depend on them. */
  lemma {:induction false} ExtendsUnfold(g: Graph, live: set<nat>, rank: seq<nat>,
                                         g2: Graph, live2: set<nat>, rank2: seq<nat>, i: nat)
    requires Wf(g, live, rank) && Wf(g2, live2, rank2) && Extends(g, live, g2, live2) && i in live
    ensures Unfold(g2, live2, rank2, i) == Unfold(g, live, rank, i)
    decreases rank[i]
  {
    var t, t2 := Unfold(g, live, rank, i), Unfold(g2, live2, rank2, i);
    forall k | 0 <= k < |g[i].inputs|
      ensures t2.ins[k] == t.ins[k]
    {
      ExtendsUnfold(g, live, rank, g2, live2, rank2, g[i].inputs[k]);
    }
    assert t2.ins == t.ins;
  }

  /** Registering more never changes what an operator produces. */
  lemma ExtendsMeaning(env: Env, n: nat, g: Graph, live: set<nat>, rank: seq<nat>,
                       g2: Graph, live2: set<nat>, rank2: seq<nat>, i: nat)
    requires Wf(g, live, rank) && Wf(g2, live2, rank2) && Extends(g, live, g2, live2) && i in live
    ensures Meaning(env, n, g2, live2, rank2, i) == Meaning(env, n, g, live, rank, i)
  {
    ExtendsUnfold(g, live, rank, g2, live2, rank2, i);
  }

  lemma ExtendsTrans(g: Graph, live: set<nat>, g1: Graph, live1: set<nat>, g2: Graph, live2: set<nat>)
    requires (forall i :: i in live ==> i < |g|) && (forall i :: i in live1 ==> i < |g1|) && (forall i :: i in live2 ==> i < |g2|)
    requires Extends(g, live, g1, live1) && Extends(g1, live1, g2, live2)
    ensures Extends(g, live, g2, live2)
  {
  }

  /** Operator op is new in g2: it reads the live operators `ins`, which list it as a reader. */
  ghost predicate Added(g: Graph, g2: Graph, live: set<nat>, op: nat, ins: seq<nat>)
    requires forall i :: i in live ==> i < |g|
  {
    && |g2| == |g| && op < |g| && op !in live
    && g2[op].inputs == ins && g2[op].outputs == []
    && (forall k :: 0 <= k < |ins| ==> ins[k] in live)
    && (forall i :: i in live ==> SameOp(g[i], g2[i]) && g2[i].inputs == g[i].inputs)
    && (forall i, x :: i in live ==>
         Occ(g2[i].outputs, x) == Occ(g[i].outputs, x) + if x == op then Occ(ins, i) else 0)
    && MoreReaders(g, g2, live, ins) && (forall i :: i in live ==> |g2[i].outputs| <= MAX_OUT_BRANCHING)
  }

  /** Each operator has one more reader for every time it is listed. */
  ghost predicate MoreReaders(g: Graph, g2: Graph, live: set<nat>, ins: seq<nat>)
    requires (forall i :: i in live ==> i < |g|) && |g2| == |g|
  {
    forall i :: i in live ==> |g2[i].outputs| == |g[i].outputs| + Occ(ins, i)
  }

  /** The ranks once operator op has been given one above its inputs. */
  ghost function RankAbove(rank: seq<nat>, op: nat, ins: seq<nat>): (r: seq<nat>)
    requires op < |rank| && forall k :: 0 <= k < |ins| ==> ins[k] < |rank|
    ensures |r| == |rank|
  {
    rank[op := Above(rank, ins)]
  }

  ghost function Above(rank: seq<nat>, ins: seq<nat>): nat
    requires forall k :: 0 <= k < |ins| ==> ins[k] < |rank|
  {
    if ins == [] then 0
    else
      var r := Above(rank, ins[..|ins| - 1]);
      var h := rank[ins[|ins| - 1]] + 1;
      if h > r then h else r
  }

  lemma {:induction false} AboveBounds(rank: seq<nat>, ins: seq<nat>, k: nat)
    requires k < |ins| && forall k :: 0 <= k < |ins| ==> ins[k] < |rank|
    ensures rank[ins[k]] < Above(rank, ins)
  {
    if k < |ins| - 1 {
      AboveBounds(rank, ins[..|ins| - 1], k);
    }
  }

  lemma AddedWf(g: Graph, g2: Graph, live: set<nat>, rank: seq<nat>, op: nat, ins: seq<nat>)
    requires Wf(g, live, rank) && Added(g, g2, live, op, ins)
    ensures Wf(g2, live + {op}, RankAbove(rank, op, ins)) && Extends(g, live, g2, live + {op})
  {
    forall k | 0 <= k < |ins|
      ensures rank[ins[k]] < Above(rank, ins) && ins[k] != op
    {
      AboveBounds(rank, ins, k);
    }
    forall i, k | i in live && 0 <= k < |g2[i].inputs|
      ensures g2[i].inputs[k] in live && rank[g2[i].inputs[k]] < rank[i]
    {
      assert g[i].inputs[k] in live;
    }
  }

  lemma AddedEdges(g: Graph, g2: Graph, live: set<nat>, rank: seq<nat>, op: nat, ins: seq<nat>)
    requires Wf(g, live, rank) && EdgesAgree(g, live) && Added(g, g2, live, op, ins)
    ensures EdgesAgree(g2, live + {op})
  {
    var more := live + {op};
    forall p, c | p in more && c in more
      ensures Occ(g2[c].inputs, p) == Occ(g2[p].outputs, c)
    {
      AddedEdge(g, g2, live, rank, op, ins, p, c);
    }
    forall i, r | i in more && r in g2[i].outputs
      ensures r in more
    {
      AddedReader(g, g2, live, op, ins, i, r);
    }
  }

  lemma AddedReader(g: Graph, g2: Graph, live: set<nat>, op: nat, ins: seq<nat>, i: nat, r: nat)
    requires (forall i :: i in live ==> i < |g|) && EdgesAgree(g, live) && Added(g, g2, live, op, ins)
    requires i in live + {op} && r in g2[i].outputs
    ensures r in live + {op}
  {
    if i in live {
      OccIn(g2[i].outputs, r);
      OccIn(g[i].outputs, r);
    }
  }

  lemma AddedEdge(g: Graph, g2: Graph, live: set<nat>, rank: seq<nat>, op: nat, ins: seq<nat>, p: nat, c: nat)
    requires Wf(g, live, rank) && EdgesAgree(g, live) && Added(g, g2, live, op, ins)
    requires p in live + {op} && c in live + {op}
    ensures Occ(g2[c].inputs, p) == Occ(g2[p].outputs, c)
  {
    OccIn(g2[c].inputs, p);
    if p in live {
      OccIn(g[p].outputs, op);
      if c in live {
        assert Occ(g[c].inputs, p) == Occ(g[p].outputs, c);
      }
    }
  }

  lemma AddedTyped(g: Graph, g2: Graph, live: set<nat>, rank: seq<nat>, op: nat, ins: seq<nat>)
    requires Wf(g, live, rank) && AllTyped(g, live, rank) && Added(g, g2, live, op, ins)
    requires Wf(g2, live + {op}, RankAbove(rank, op, ins)) && Typed(g2, live + {op}, op)
    ensures AllTyped(g2, live + {op}, RankAbove(rank, op, ins))
  {
    forall i | i in live
      ensures Typed(g2, live + {op}, i)
    {
      assert Typed(g, live, i);
      assert InputFlags(g2, g2[i].inputs) == InputFlags(g, g[i].inputs);
      assert InputSchemas(g2, g2[i].inputs) == InputSchemas(g, g[i].inputs);
    }
  }

  /** A plan with an operator added on top is a plan. */
  lemma AddedPlan(g: Graph, g2: Graph, live: set<nat>, rank: seq<nat>, op: nat, ins: seq<nat>)
    requires IsPlan(g, live, rank) && Added(g, g2, live, op, ins)
    requires Wf(g2, live + {op}, RankAbove(rank, op, ins)) ==> Typed(g2, live + {op}, op)
    ensures IsPlan(g2, live + {op}, RankAbove(rank, op, ins)) && Extends(g, live, g2, live + {op})
  {
    AddedWf(g, g2, live, rank, op, ins);
    AddedEdges(g, g2, live, rank, op, ins);
    AddedTyped(g, g2, live, rank, op, ins);
  }
}
