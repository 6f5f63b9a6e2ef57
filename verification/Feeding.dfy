/** One absorption step, and what any number of them keeps: every operator receives what it did. */
module Feeding {
  import opened Common
  import opened Semantics
  import opened PhysicalPlan
  import opened Rewire
  import opened Absorb

  /** Every operator of the second plan receives, input by input, what it received in the first. */
  ghost predicate Feeds(env: Env, n: nat, g: Graph, live: set<nat>, g2: Graph, live2: set<nat>, rank: seq<nat>)
    requires Wf(g, live, rank) && Wf(g2, live2, rank) && live2 <= live
  {
    forall r :: r in live2 ==> FedAlike(env, n, g, live, g2, live2, rank, r)
  }

  ghost predicate FedAlike(env: Env, n: nat, g: Graph, live: set<nat>, g2: Graph, live2: set<nat>, rank: seq<nat>, r: nat)
    requires Wf(g, live, rank) && Wf(g2, live2, rank) && live2 <= live && r in live2
  {
    && InputFlags(g2, g2[r].inputs) == InputFlags(g, g[r].inputs)
    && Meanings(env, n, g2, live2, rank, g2[r].inputs) == Meanings(env, n, g, live, rank, g[r].inputs)
  }

  /** The source operators of the smaller plan are those of the larger one. */
  ghost predicate Keeps(g: Graph, live: set<nat>, g2: Graph, live2: set<nat>)
    requires forall i :: i in live ==> i < |g|
  {
    && live2 <= live && |g2| == |g|
    && (forall i :: i in live && Lasting(g[i].payload) ==> i in live2)
    && (forall i :: i in live2 && Lasting(g[i].payload) ==> SameOp(g[i], g2[i]))
    && (forall i :: i in live2 && !Lasting(g[i].payload) ==> !Lasting(g2[i].payload))
  }

  /** Kinds that no pass removes or changes: everything but selects, projects, joins and query sources. */
  predicate Lasting(p: Payload) {
    !p.Select? && !p.Project? && !p.Join? && !p.StrJoin? && !p.JoinProject? && !p.StrJoinProject? && !p.QuerySource?
  }

  /** An operator that receives the same and does the same produces the same. */
  lemma FedMeaning(env: Env, n: nat, g: Graph, live: set<nat>, g2: Graph, live2: set<nat>, rank: seq<nat>, i: nat)
    requires Wf(g, live, rank) && Wf(g2, live2, rank) && live2 <= live && i in live2
    requires FedAlike(env, n, g, live, g2, live2, rank, i) && g2[i].payload == g[i].payload
    ensures Meaning(env, n, g2, live2, rank, i) == Meaning(env, n, g, live, rank, i)
  {
    MeaningStep(env, n, g, live, rank, i);
    MeaningStep(env, n, g2, live2, rank, i);
  }

  lemma FeedsSame(env: Env, n: nat, g: Graph, live: set<nat>, rank: seq<nat>)
    requires Wf(g, live, rank)
    ensures Feeds(env, n, g, live, g, live, rank)
  {
  }

  lemma FeedsTrans(env: Env, n: nat, g: Graph, live: set<nat>, g1: Graph, live1: set<nat>, g2: Graph, live2: set<nat>,
                   rank: seq<nat>)
    requires Wf(g, live, rank) && Wf(g1, live1, rank) && Wf(g2, live2, rank) && live2 <= live1 <= live
    requires Feeds(env, n, g, live, g1, live1, rank) && Feeds(env, n, g1, live1, g2, live2, rank)
    ensures Feeds(env, n, g, live, g2, live2, rank)
  {
    forall r | r in live2
      ensures FedAlike(env, n, g, live, g2, live2, rank, r)
    {
      assert FedAlike(env, n, g, live, g1, live1, rank, r);
      assert FedAlike(env, n, g1, live1, g2, live2, rank, r);
    }
  }

  /** Operator b of g2 took over the payload work of its reader a, which is cut out. */
  ghost predicate TookOver(g: Graph, g2: Graph, live: set<nat>, a: nat, b: nat)
    requires (forall i :: i in live ==> i < |g|) && a in live && b in live
  {
    && CanAbsorb(g[b].payload, g[a].payload)
    && g[a].inputs == [b]
    && Spliced(g, g2, live, a, b)
    && (forall j :: 0 <= j < |g| && j != b ==> SameOp(g[j], g2[j]))
    && g2[b].payload == Absorbed(g[b].payload, g[a].payload)
    && g2[b].attrs == g[a].attrs && g2[b].bStream == g[b].bStream
    && (g[a].payload.QuerySource? || forall j :: j in live - {a} ==> b !in g[j].inputs)
  }

  lemma TookOverWf(g: Graph, g2: Graph, live: set<nat>, rank: seq<nat>, a: nat, b: nat)
    requires Wf(g, live, rank) && a in live && b in live && TookOver(g, g2, live, a, b)
    ensures a != b && rank[b] < rank[a] && Wf(g2, live - {a}, rank) && a !in g[b].inputs && g2[b].inputs == g[b].inputs
  {
    assert rank[g[a].inputs[0]] < rank[a];
    SpliceWf(g, g2, live, rank, a, b);
    assert g2[b].inputs == g[b].inputs;
  }

  /** The inputs of the operator that took over still deliver what they did. */
  lemma TookOverBelow(env: Env, n: nat, g: Graph, g2: Graph, live: set<nat>, rank: seq<nat>, a: nat, b: nat)
    requires Wf(g, live, rank) && a in live && b in live && TookOver(g, g2, live, a, b)
    requires a != b && rank[b] < rank[a] && Wf(g2, live - {a}, rank) && g2[b].inputs == g[b].inputs
    ensures InputFlags(g2, g2[b].inputs) == InputFlags(g, g[b].inputs)
    ensures InputSchemas(g2, g2[b].inputs) == InputSchemas(g, g[b].inputs)
    ensures Meanings(env, n, g2, live - {a}, rank, g2[b].inputs) == Meanings(env, n, g, live, rank, g[b].inputs)
  {
    var ids := g[b].inputs;
    forall k | 0 <= k < |ids|
      ensures ids[k] != b && SameOp(g[ids[k]], g2[ids[k]])
      ensures Meaning(env, n, g2, live - {a}, rank, ids[k]) == Meaning(env, n, g, live, rank, ids[k])
    {
      assert rank[ids[k]] < rank[b];
      SpliceBelow(g, g2, live, rank, a, b, ids[k]);
    }
    assert InputFlags(g2, ids) == InputFlags(g, ids);
    assert InputSchemas(g2, ids) == InputSchemas(g, ids);
    assert Meanings(env, n, g2, live - {a}, rank, ids) == Meanings(env, n, g, live, rank, ids);
  }

  /** The operator that took over computes what its reader computed. */
  lemma TookOverMeaning(env: Env, n: nat, g: Graph, g2: Graph, live: set<nat>, rank: seq<nat>, a: nat, b: nat)
    requires Wf(g, live, rank) && AllTyped(g, live, rank) && a in live && b in live && TookOver(g, g2, live, a, b)
    requires a != b && rank[b] < rank[a] && Wf(g2, live - {a}, rank) && g2[b].inputs == g[b].inputs
    requires Sensible(env) && SourcesFit(env, g, live)
    ensures Meaning(env, n, g2, live - {a}, rank, b) == Meaning(env, n, g, live, rank, a)
    ensures g[a].payload.QuerySource? ==> Meaning(env, n, g, live, rank, a) == Meaning(env, n, g, live, rank, b)
  {
    var ids := g[b].inputs;
    var flags, ins := InputFlags(g, ids), Meanings(env, n, g, live, rank, ids);
    assert Typed(g, live, a) && Typed(g, live, b);
    if g[b].payload.Join? || g[b].payload.StrJoin? {
      MeaningWidth(env, n, g, live, rank, ids[0]);
      assert InputSchemas(g, ids)[0] == g[ids[0]].attrs;
    }
    TookOverAfter(env, n, g, g2, live, rank, a, b);
    TookOverBefore(env, n, g, g2, live, rank, a, b);
    MeaningStep(env, n, g, live, rank, b);
    AbsorbedDen(env, n, g[b].payload, g[a].payload, flags, ins, g[b].bStream);
  }

  /** What b computes afterwards. */
  lemma TookOverAfter(env: Env, n: nat, g: Graph, g2: Graph, live: set<nat>, rank: seq<nat>, a: nat, b: nat)
    requires Wf(g, live, rank) && AllTyped(g, live, rank) && a in live && b in live && TookOver(g, g2, live, a, b)
    requires a != b && rank[b] < rank[a] && Wf(g2, live - {a}, rank) && g2[b].inputs == g[b].inputs
    requires Sensible(env) && SourcesFit(env, g, live)
    ensures var ids := g[b].inputs;
      Meaning(env, n, g2, live - {a}, rank, b)
        == OpDen(env, n, g2[b].payload, InputFlags(g, ids), Meanings(env, n, g, live, rank, ids))
  {
    MeaningStep(env, n, g2, live - {a}, rank, b);
    TookOverBelow(env, n, g, g2, live, rank, a, b);
  }

  /** What a computed before. */
  lemma TookOverBefore(env: Env, n: nat, g: Graph, g2: Graph, live: set<nat>, rank: seq<nat>, a: nat, b: nat)
    requires Wf(g, live, rank) && AllTyped(g, live, rank) && a in live && b in live && TookOver(g, g2, live, a, b)
    ensures var h := Meaning(env, n, g, live, rank, b);
      && Meaning(env, n, g, live, rank, a) == OpDen(env, n, g[a].payload, [g[b].bStream], [h])
      && (g[a].payload.QuerySource? ==> Meaning(env, n, g, live, rank, a) == h)
  {
    MeaningStep(env, n, g, live, rank, a);
    assert Typed(g, live, a);
    assert Meanings(env, n, g, live, rank, [b]) == [Meaning(env, n, g, live, rank, b)];
    assert InputFlags(g, [b]) == [g[b].bStream];
  }

  lemma TookOverFeeds(env: Env, n: nat, g: Graph, g2: Graph, live: set<nat>, rank: seq<nat>, a: nat, b: nat)
    requires Wf(g, live, rank) && AllTyped(g, live, rank) && a in live && b in live && TookOver(g, g2, live, a, b)
    requires a != b && rank[b] < rank[a] && Wf(g2, live - {a}, rank) && g2[b].inputs == g[b].inputs
    requires Sensible(env) && SourcesFit(env, g, live)
    ensures Feeds(env, n, g, live, g2, live - {a}, rank)
  {
    TookOverMeaning(env, n, g, g2, live, rank, a, b);
    TookOverBelow(env, n, g, g2, live, rank, a, b);
    TookOverFlag(g, g2, live, rank, a, b);
    forall r | r in live - {a} && r != b
      ensures FedAlike(env, n, g, live, g2, live - {a}, rank, r)
    {
      TookOverReader(env, n, g, g2, live, rank, a, b, r);
    }
  }

  lemma TookOverFlag(g: Graph, g2: Graph, live: set<nat>, rank: seq<nat>, a: nat, b: nat)
    requires Wf(g, live, rank) && AllTyped(g, live, rank) && a in live && b in live && TookOver(g, g2, live, a, b)
    ensures g2[b].bStream == g[a].bStream
    ensures g[a].payload.QuerySource? ==> g2[b].attrs == g[b].attrs
  {
    assert Typed(g, live, a);
    assert InputFlags(g, g[a].inputs)[0] == g[b].bStream;
    assert InputSchemas(g, g[a].inputs)[0] == g[b].attrs;
  }

  lemma TookOverReader(env: Env, n: nat, g: Graph, g2: Graph, live: set<nat>, rank: seq<nat>, a: nat, b: nat, r: nat)
    requires Wf(g, live, rank) && a in live && b in live && TookOver(g, g2, live, a, b)
    requires a != b && rank[b] < rank[a] && Wf(g2, live - {a}, rank)
    requires Meaning(env, n, g2, live - {a}, rank, b) == Meaning(env, n, g, live, rank, a)
    requires g[a].payload.QuerySource? ==> Meaning(env, n, g, live, rank, a) == Meaning(env, n, g, live, rank, b)
    requires g2[b].bStream == g[a].bStream
    requires r in live - {a, b}
    ensures FedAlike(env, n, g, live, g2, live - {a}, rank, r)
  {
    var rest := live - {a};
    var ids, ids2 := g[r].inputs, g2[r].inputs;
    forall k | 0 <= k < |ids|
      ensures g2[ids2[k]].bStream == g[ids[k]].bStream
      ensures Meaning(env, n, g2, rest, rank, ids2[k]) == Meaning(env, n, g, live, rank, ids[k])
    {
      if ids[k] == b {
        assert b in g[r].inputs;
      } else if ids[k] != a {
        SpliceMeaning(env, n, g, g2, live, rank, a, b, ids[k]);
      }
    }
    assert InputFlags(g2, ids2) == InputFlags(g, ids);
    assert Meanings(env, n, g2, rest, rank, ids2) == Meanings(env, n, g, live, rank, ids);
  }

  // ---------------------------------------------------------------- the plan stays a plan

  lemma TookOverPlan(g: Graph, g2: Graph, live: set<nat>, rank: seq<nat>, a: nat, b: nat)
    requires IsPlan(g, live, rank) && a in live && b in live && TookOver(g, g2, live, a, b)
    requires |g2[b].outputs| <= MAX_OUT_BRANCHING
    requires forall i :: i in live && i != b ==> g2[i].outputs == g[i].outputs
    ensures IsPlan(g2, live - {a}, rank) && Keeps(g, live, g2, live - {a})
  {
    TookOverWf(g, g2, live, rank, a, b);
    SpliceEdges(g, g2, live, rank, a, b);
    TookOverFlag(g, g2, live, rank, a, b);
    TookOverTyped(g, g2, live, rank, a, b);
    SpliceTyped(g, g2, live, rank, a, b);
  }

  lemma TookOverTyped(g: Graph, g2: Graph, live: set<nat>, rank: seq<nat>, a: nat, b: nat)
    requires Wf(g, live, rank) && AllTyped(g, live, rank) && a in live && b in live && TookOver(g, g2, live, a, b)
    requires a != b && rank[b] < rank[a] && Wf(g2, live - {a}, rank) && g2[b].inputs == g[b].inputs
    ensures Typed(g2, live - {a}, b)
  {
    assert Typed(g, live, a) && Typed(g, live, b);
    var ids := g[b].inputs;
    forall k | 0 <= k < |ids|
      ensures ids[k] != b
    {
      assert rank[ids[k]] < rank[b];
    }
    assert InputFlags(g2, ids) == InputFlags(g, ids);
    assert InputSchemas(g2, ids) == InputSchemas(g, ids);
    assert InputSchemas(g, g[a].inputs)[0] == g[b].attrs;
    match (g[a].payload, g[b].payload)
    case (Select(q), Select(p)) => assert PredRefersTo(p + q, 0);
    case _ =>
  }

  // ---------------------------------------------------------------- any number of steps

  /** What a pass keeps: the lasting operators, and what every operator receives. */
  ghost predicate PassKeeps(g: Graph, live: set<nat>, g2: Graph, live2: set<nat>, rank: seq<nat>)
    requires Wf(g, live, rank) && Wf(g2, live2, rank)
  {
    && Keeps(g, live, g2, live2)
    && forall env, n {:trigger Feeds(env, n, g, live, g2, live2, rank)} ::
         Sensible(env) && SourcesFit(env, g, live) ==> Feeds(env, n, g, live, g2, live2, rank)
  }

  lemma PassStart(g: Graph, live: set<nat>, rank: seq<nat>)
    requires Wf(g, live, rank)
    ensures PassKeeps(g, live, g, live, rank)
  {
    forall env, n | Sensible(env) && SourcesFit(env, g, live)
      ensures Feeds(env, n, g, live, g, live, rank)
    {
      FeedsSame(env, n, g, live, rank);
    }
  }

  lemma SourcesStillFit(env: Env, g: Graph, live: set<nat>, g2: Graph, live2: set<nat>)
    requires (forall i :: i in live ==> i < |g|) && Keeps(g, live, g2, live2) && SourcesFit(env, g, live)
    ensures SourcesFit(env, g2, live2)
  {
  }

  lemma PassStep(g: Graph, live: set<nat>, g1: Graph, live1: set<nat>, g2: Graph, rank: seq<nat>, a: nat, b: nat)
    requires Wf(g, live, rank) && IsPlan(g1, live1, rank) && PassKeeps(g, live, g1, live1, rank)
    requires a in live1 && b in live1 && TookOver(g1, g2, live1, a, b)
    requires Wf(g2, live1 - {a}, rank) && Keeps(g1, live1, g2, live1 - {a})
    ensures PassKeeps(g, live, g2, live1 - {a}, rank)
  {
    TookOverWf(g1, g2, live1, rank, a, b);
    forall env, n | Sensible(env) && SourcesFit(env, g, live)
      ensures Feeds(env, n, g, live, g2, live1 - {a}, rank)
    {
      SourcesStillFit(env, g, live, g1, live1);
      TookOverFeeds(env, n, g1, g2, live1, rank, a, b);
      FeedsTrans(env, n, g, live, g1, live1, g2, live1 - {a}, rank);
    }
  }

  /**
   After a pass every operator that was not given more to do, and in particular every output,
   produces what it produced before.
   */
  lemma PassMeaning(env: Env, n: nat, g: Graph, live: set<nat>, g2: Graph, live2: set<nat>, rank: seq<nat>, i: nat)
    requires Wf(g, live, rank) && Wf(g2, live2, rank) && PassKeeps(g, live, g2, live2, rank)
    requires Sensible(env) && SourcesFit(env, g, live)
    requires i in live2 && g2[i].payload == g[i].payload
    ensures Meaning(env, n, g2, live2, rank, i) == Meaning(env, n, g, live, rank, i)
  {
    assert Feeds(env, n, g, live, g2, live2, rank);
    assert FedAlike(env, n, g, live, g2, live2, rank, i);
    FedMeaning(env, n, g, live, g2, live2, rank, i);
  }
}
