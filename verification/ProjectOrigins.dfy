/**
 Where the operators come from that merging projects into joins leaves: each does the work of one
 operator there was.  Two of them unfold to the same tree only if these did, or if one is a join that
 had its projections before and the other got them now.
 */
module ProjectOrigins {
  import opened Common
  import opened PhysicalPlan
  import opened Rewire
  import opened Absorb
  import opened Feeding
  import opened SharingPlan

  /** For every operator that is left the operator whose work it does: itself, or the project merged into it. */
  type Origins = map<nat, nat>

  /** Operator i took over a project. */
  ghost predicate Made(g: Graph, g2: Graph, i: nat, a: nat) {
    && i < |g| == |g2| && a < |g| && a != i
    && g[a].payload.Project? && g[a].inputs == [i] && (g[i].payload.Join? || g[i].payload.StrJoin?)
    && g2[i].payload == Absorbed(g[i].payload, g[a].payload) && g2[i].attrs == g[a].attrs && g2[i].bStream == g[i].bStream
  }

  ghost predicate Kept(g: Graph, g2: Graph, i: nat, a: nat) {
    i < |g| == |g2| && a == i && SameOp(g[i], g2[i])
  }

  /** The inputs of operator i do the work of the inputs it had. */
  ghost predicate SameInputs(g: Graph, g2: Graph, up: Origins, i: nat) {
    && i < |g| == |g2| && |g2[i].inputs| == |g[i].inputs|
    && forall k :: 0 <= k < |g[i].inputs| ==> g2[i].inputs[k] in up && up[g2[i].inputs[k]] == g[i].inputs[k]
  }

  /** One operator: its origin and its inputs. */
  ghost predicate Descends(g: Graph, live: set<nat>, g2: Graph, up: Origins, i: nat) {
    && i in up && up[i] in live && i in live && SameInputs(g, g2, up, i)
    && (Kept(g, g2, i, up[i]) || Made(g, g2, i, up[i]))
  }

  ghost predicate Lineage(g: Graph, live: set<nat>, g2: Graph, live2: set<nat>, up: Origins) {
    && |g2| == |g| && up.Keys == live2 && live2 <= live
    && (forall i {:trigger Descends(g, live, g2, up, i)} :: i in live2 ==> Descends(g, live, g2, up, i))
    && (forall i, j :: i in live2 && j in live2 && up[i] == up[j] ==> i == j)
  }

  ghost function Selves(live: set<nat>): (up: Origins)
    ensures up.Keys == live && forall i :: i in live ==> up[i] == i
  {
    map i | i in live :: i
  }

  lemma LineageStart(g: Graph, live: set<nat>, rank: seq<nat>)
    requires Wf(g, live, rank)
    ensures Lineage(g, live, g, live, Selves(live))
  {
    forall i | i in live
      ensures Descends(g, live, g, Selves(live), i)
    {
      assert forall k :: 0 <= k < |g[i].inputs| ==> g[i].inputs[k] in live;
    }
  }

  /** The operator a project was merged into does the project's work. */
  ghost function Handed(up: Origins, a: nat, b: nat): (r: Origins)
    requires a in up && b in up && a != b
    ensures r.Keys == up.Keys - {a} && r[b] == up[a]
    ensures forall i :: i in r && i != b ==> r[i] == up[i]
  {
    map i | i in up && i != a :: if i == b then up[a] else up[i]
  }

  /** A project, and a join without projections, have not changed. */
  lemma Unchanged(g: Graph, live: set<nat>, g1: Graph, live1: set<nat>, rank: seq<nat>, up: Origins, i: nat)
    requires Wf(g1, live1, rank) && Lineage(g, live, g1, live1, up) && i in live1
    requires g1[i].payload.Project? || g1[i].payload.Join? || g1[i].payload.StrJoin?
    ensures Descends(g, live, g1, up, i) && up[i] == i && SameOp(g[i], g1[i])
  {
    assert Descends(g, live, g1, up, i);
  }

  lemma HandedOne(g: Graph, live: set<nat>, g1: Graph, live1: set<nat>, g2: Graph, rank: seq<nat>, up: Origins, a: nat, b: nat, i: nat)
    requires Wf(g1, live1, rank) && a in live1 && b in live1 && TookOver(g1, g2, live1, a, b) && g1[a].payload.Project?
    requires Lineage(g, live, g1, live1, up) && a != b && rank[b] < rank[a] && a !in g1[b].inputs
    requires i in live1 - {a}
    ensures Descends(g, live, g2, Handed(up, a, b), i)
  {
    var up2 := Handed(up, a, b);
    Unchanged(g, live, g1, live1, rank, up, a);
    Unchanged(g, live, g1, live1, rank, up, b);
    assert Descends(g, live, g1, up, i);
    assert g2[i].inputs == Redirect(g1[i].inputs, a, b);
    forall k | 0 <= k < |g[i].inputs|
      ensures g2[i].inputs[k] in up2 && up2[g2[i].inputs[k]] == g[i].inputs[k]
    {
      var p := g1[i].inputs[k];
      assert p in live1 && rank[p] < rank[i];
      assert p in g1[i].inputs;
    }
    if i == b {
      assert up[g1[a].inputs[0]] == g[a].inputs[0];
      assert g[a].inputs == [b];
    }
  }

  /** Merging one more project. */
  lemma LineageStep(g: Graph, live: set<nat>, g1: Graph, live1: set<nat>, g2: Graph, rank: seq<nat>, up: Origins, a: nat, b: nat)
    requires Wf(g1, live1, rank) && a in live1 && b in live1 && TookOver(g1, g2, live1, a, b) && g1[a].payload.Project?
    requires Lineage(g, live, g1, live1, up) && a in up && b in up && a != b
    ensures Lineage(g, live, g2, live1 - {a}, Handed(up, a, b))
  {
    TookOverWf(g1, g2, live1, rank, a, b);
    Unchanged(g, live, g1, live1, rank, up, a);
    Unchanged(g, live, g1, live1, rank, up, b);
    forall i | i in live1 - {a}
      ensures Descends(g, live, g2, Handed(up, a, b), i)
    {
      HandedOne(g, live, g1, live1, g2, rank, up, a, b, i);
    }
  }

  // ---------------------------------------------------------------- the translation of a project loses nothing

  lemma {:induction false} ExprInjective(e: PExpr, f: PExpr, outer: nat)
    requires RefersTo(e, 0) && RefersTo(f, 0) && TransToJoinExpr(e, outer) == TransToJoinExpr(f, outer)
    ensures e == f
  {
    match e
    case Const(_) =>
    case AttrRef(_) =>
    case Comp(_, l, r) =>
      ExprInjective(l, f.left, outer);
      ExprInjective(r, f.right, outer);
  }

  lemma ProjsInjective(es: seq<PExpr>, fs: seq<PExpr>, outer: nat)
    requires (forall k :: 0 <= k < |es| ==> RefersTo(es[k], 0)) && (forall k :: 0 <= k < |fs| ==> RefersTo(fs[k], 0))
    requires TransToJoinProjs(es, outer) == TransToJoinProjs(fs, outer)
    ensures es == fs
  {
    assert |es| == |TransToJoinProjs(es, outer)| == |TransToJoinProjs(fs, outer)| == |fs|;
    forall k | 0 <= k < |es|
      ensures es[k] == fs[k]
    {
      assert TransToJoinProjs(es, outer)[k] == TransToJoinProjs(fs, outer)[k];
      ExprInjective(es[k], fs[k], outer);
    }
  }

  // ---------------------------------------------------------------- equal operators come from equal operators

  /** A join that had its projections before, and one that got them now. */
  ghost predicate Clash(g: Graph, up: Origins, i: nat, j: nat) {
    i in up && j in up && (up[i] == i) != (up[j] == j)
  }

  /** No join that got projections equals one that had them. */
  ghost predicate NoClash(g: Graph, live: set<nat>, g2: Graph, live2: set<nat>, rank: seq<nat>, up: Origins)
    requires Wf(g2, live2, rank)
  {
    forall i, j {:trigger Unfold(g2, live2, rank, i), Unfold(g2, live2, rank, j)} ::
      i in live2 && j in live2 && Unfold(g2, live2, rank, i) == Unfold(g2, live2, rank, j) ==> !Clash(g, up, i, j)
  }

  ghost predicate IsJoined(p: Payload) {
    p.JoinProject? || p.StrJoinProject?
  }

  /** Without joins that had projections there is no clash. */
  lemma FreshJoins(g: Graph, live: set<nat>, g2: Graph, live2: set<nat>, rank: seq<nat>, up: Origins)
    requires Wf(g, live, rank) && Wf(g2, live2, rank) && Lineage(g, live, g2, live2, up)
    requires forall i :: i in live ==> !IsJoined(g[i].payload)
    ensures NoClash(g, live, g2, live2, rank, up)
  {
    forall i, j | i in live2 && j in live2 && Unfold(g2, live2, rank, i) == Unfold(g2, live2, rank, j)
      ensures !Clash(g, up, i, j)
    {
      assert Descends(g, live, g2, up, i) && Descends(g, live, g2, up, j);
    }
  }

  /** The inputs of operators with equal trees had equal trees. */
  ghost predicate InputsEqual(g: Graph, live: set<nat>, rank: seq<nat>, i: nat, j: nat)
    requires Wf(g, live, rank) && i in live && j in live
  {
    && |g[i].inputs| == |g[j].inputs|
    && forall k :: 0 <= k < |g[i].inputs| ==> Unfold(g, live, rank, g[i].inputs[k]) == Unfold(g, live, rank, g[j].inputs[k])
  }

  lemma SameTree(g: Graph, live: set<nat>, rank: seq<nat>, i: nat, j: nat)
    requires Wf(g, live, rank) && i in live && j in live && InputsEqual(g, live, rank, i, j)
    requires SameOp(g[i], g[j]) && (Unshareable(g[i].payload) ==> i == j)
    ensures Unfold(g, live, rank, i) == Unfold(g, live, rank, j)
  {
    var t, u := Unfold(g, live, rank, i), Unfold(g, live, rank, j);
    forall k | 0 <= k < |g[i].inputs|
      ensures t.ins[k] == u.ins[k]
    {
    }
    assert t.ins == u.ins;
  }

  /** Two joins that took over projects and became equal were equal, and so were the projects. */
  lemma MadeEqual(g: Graph, live: set<nat>, g2: Graph, rank: seq<nat>, i: nat, j: nat, a: nat, b: nat)
    requires Wf(g, live, rank) && AllTyped(g, live, rank) && i in live && j in live && a in live && b in live
    requires Made(g, g2, i, a) && Made(g, g2, j, b) && SameOp(g2[i], g2[j]) && InputsEqual(g, live, rank, i, j)
    ensures Unfold(g, live, rank, a) == Unfold(g, live, rank, b)
  {
    hide InputsEqual, EdgesAgree;
    assert Typed(g, live, i) && Typed(g, live, j) && Typed(g, live, a) && Typed(g, live, b);
    SameSchemas(g, live, rank, i, j);
    ProjsInjective(g[a].payload.projs, g[b].payload.projs, OuterAttrs(g[i].payload));
    SameTree(g, live, rank, i, j);
    SameTree(g, live, rank, a, b);
  }

  /** Joins over equal inputs have equal schemas. */
  lemma SameSchemas(g: Graph, live: set<nat>, rank: seq<nat>, i: nat, j: nat)
    requires Wf(g, live, rank) && i in live && j in live && InputsEqual(g, live, rank, i, j) && |g[i].inputs| == 2
    requires Typed(g, live, i) && Typed(g, live, j)
    requires (g[i].payload.Join? && g[j].payload.Join?) || (g[i].payload.StrJoin? && g[j].payload.StrJoin?)
    ensures g[i].attrs == g[j].attrs && OuterAttrs(g[i].payload) == OuterAttrs(g[j].payload)
    ensures g[i].payload.inner == g[j].payload.inner
  {
    forall k | 0 <= k < 2
      ensures InputSchemas(g, g[i].inputs)[k] == InputSchemas(g, g[j].inputs)[k]
    {
      assert Unfold(g, live, rank, g[i].inputs[k]).attrs == Unfold(g, live, rank, g[j].inputs[k]).attrs;
    }
  }

  /** Without a clash, operators that unfold to one tree do the work of operators that did. */
  lemma {:induction false} EqualOrigins(g: Graph, live: set<nat>, g2: Graph, live2: set<nat>, rank: seq<nat>, up: Origins, i: nat, j: nat)
    requires Wf(g, live, rank) && AllTyped(g, live, rank) && Wf(g2, live2, rank) && Lineage(g, live, g2, live2, up)
    requires NoClash(g, live, g2, live2, rank, up) && i in live2 && j in live2
    requires Unfold(g2, live2, rank, i) == Unfold(g2, live2, rank, j)
    ensures Descends(g, live, g2, up, i) && Descends(g, live, g2, up, j)
    ensures Unfold(g, live, rank, up[i]) == Unfold(g, live, rank, up[j])
    decreases rank[i]
  {
    assert Descends(g, live, g2, up, i) && Descends(g, live, g2, up, j) && !Clash(g, up, i, j);
    var t, u := Unfold(g2, live2, rank, i), Unfold(g2, live2, rank, j);
    assert |t.ins| == |g2[i].inputs| && |u.ins| == |g2[j].inputs|;
    forall k | 0 <= k < |g[i].inputs|
      ensures Unfold(g, live, rank, g[i].inputs[k]) == Unfold(g, live, rank, g[j].inputs[k])
    {
      assert t.ins[k] == Unfold(g2, live2, rank, g2[i].inputs[k]) && u.ins[k] == Unfold(g2, live2, rank, g2[j].inputs[k]);
      EqualOrigins(g, live, g2, live2, rank, up, g2[i].inputs[k], g2[j].inputs[k]);
    }
    if up[i] == i {
      SameTree(g, live, rank, i, j);
    } else {
      MadeEqual(g, live, g2, rank, i, j, up[i], up[j]);
    }
  }

  /** What reads from a base table does the work of what did. */
  lemma {:induction false} BaseOrigins(g: Graph, live: set<nat>, g2: Graph, live2: set<nat>, rank: seq<nat>, up: Origins, i: nat)
    requires Wf(g, live, rank) && Wf(g2, live2, rank) && Lineage(g, live, g2, live2, up) && i in live2
    requires FromBase(Unfold(g2, live2, rank, i))
    ensures Descends(g, live, g2, up, i) && FromBase(Unfold(g, live, rank, up[i]))
    decreases rank[i]
  {
    assert Descends(g, live, g2, up, i);
    var t, u := Unfold(g2, live2, rank, i), Unfold(g, live, rank, i);
    if !t.payload.StreamSource? && !t.payload.RelnSource? {
      var k :| 0 <= k < |t.ins| && FromBase(t.ins[k]);
      assert t.ins[k] == Unfold(g2, live2, rank, g2[i].inputs[k]);
      BaseOrigins(g, live, g2, live2, rank, up, g2[i].inputs[k]);
      assert u.ins[k] == Unfold(g, live, rank, g[i].inputs[k]);
      assert FromBase(u);
      if up[i] != i {
        assert Unfold(g, live, rank, up[i]).ins[0] == u;
      }
    }
  }

  /** If no two operators were equal, merging projects makes two equal only by a clash. */
  lemma StillDifferent(g: Graph, live: set<nat>, g2: Graph, live2: set<nat>, rank: seq<nat>, up: Origins)
    requires Wf(g, live, rank) && AllTyped(g, live, rank) && Wf(g2, live2, rank) && Lineage(g, live, g2, live2, up)
    requires NoClash(g, live, g2, live2, rank, up) && Different(g, live, rank)
    ensures Different(g2, live2, rank)
  {
    forall i, j | i in live2 && j in live2 && i != j && FromBase(Unfold(g2, live2, rank, i))
      ensures Unfold(g2, live2, rank, i) != Unfold(g2, live2, rank, j)
    {
      if Unfold(g2, live2, rank, i) == Unfold(g2, live2, rank, j) {
        BaseOrigins(g, live, g2, live2, rank, up, i);
        EqualOrigins(g, live, g2, live2, rank, up, i, j);
      }
    }
  }
}
