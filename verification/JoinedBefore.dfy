/**
 Why a plan may hold equal operators after merging projects: a join that got its projections in an
 earlier pass, and a project over the same join that is merged now.
 */
module JoinedBefore {
  import opened Common
  import opened PhysicalPlan
  import opened Rewire
  import opened Absorb
  import opened Feeding
  import opened SharingPlan
  import opened ProjectOrigins
  import opened MergePasses

  const COL: Column := Column(INT, 4)
  const FIRST: seq<PExpr> := [AttrRef(Attr(0, 0))]

  /** A stream joined with itself twice, once with the projection merged in and once with a project on top. */
  function Earlier(): (g: Graph)
    ensures |g| == 6
  {
    [Operator(StreamSource(1, 0), [COL], true, [], [1, 1, 2, 2], 0),
     Operator(JoinProject(FIRST, []), [COL], true, [0, 0], [4], 0),
     Operator(Join(1, 1, []), [COL, COL], true, [0, 0], [3], 0),
     Operator(Project(FIRST), [COL], true, [2], [5], 0),
     Operator(Output(0, 0), [COL], true, [1], [], 0),
     Operator(Output(1, 1), [COL], true, [3], [], 0)]
  }

  function Later(): (g: Graph)
    ensures |g| == 6
  {
    Earlier()[2 := Operator(JoinProject(FIRST, []), [COL], true, [0, 0], [5], 0)][5 := Operator(Output(1, 1), [COL], true, [2], [], 0)]
  }

  const ALL: set<nat> := {0, 1, 2, 3, 4, 5}
  const LEVELS: seq<nat> := [0, 1, 1, 2, 2, 3]

  lemma EarlierEdges()
    ensures Wf(Earlier(), ALL, LEVELS) && EdgesAgree(Earlier(), ALL)
  {
    hide Occ;
    var g := Earlier();
    forall p, c | p in ALL && c in ALL
      ensures Occ(g[c].inputs, p) == Occ(g[p].outputs, c)
    {
      ListsOf(p, c);
    }
  }

  lemma ListsOf(p: nat, c: nat)
    requires p < 6 && c < 6
    ensures Occ(Earlier()[c].inputs, p) == Occ(Earlier()[p].outputs, c)
  {
    OccOne(1, p);
    OccOne(2, p);
    OccOne(3, p);
    OccTwo(0, 0, p);
    OccOne(3, c);
    OccOne(4, c);
    OccOne(5, c);
    OccTwo(1, 1, c);
    OccTwo(2, 2, c);
    OccConcat([1, 1], [2, 2], c);
    assert [1, 1, 2, 2] == [1, 1] + [2, 2];
  }

  /** The schema and flag of an operator follow from those of its inputs, which have the one column. */
  lemma EarlierTyped(i: nat)
    requires Wf(Earlier(), ALL, LEVELS) && i in ALL
    ensures Typed(Earlier(), ALL, i)
  {
    var g := Earlier();
    var ids := g[i].inputs;
    var flags, schemas := InputFlags(g, ids), InputSchemas(g, ids);
    assert |ids| == Arity(g[i].payload);
    assert forall k :: 0 <= k < |ids| ==> flags[k] && schemas[k] == g[ids[k]].attrs;
    hide InputFlags, InputSchemas, Wf;
    assert StreamRule(g[i].payload, flags, g[i].bStream);
    assert SchemaRule(g[i].payload, schemas, g[i].attrs);
    assert RefsRule(g[i].payload);
  }

  lemma EarlierPlan()
    ensures IsPlan(Earlier(), ALL, LEVELS)
  {
    EarlierEdges();
    hide EdgesAgree, Typed;
    forall i | i in ALL
      ensures Typed(Earlier(), ALL, i)
    {
      EarlierTyped(i);
    }
  }

  /** The operators are of six kinds. */
  lemma EarlierDifferent()
    requires Wf(Earlier(), ALL, LEVELS)
    ensures Different(Earlier(), ALL, LEVELS)
  {
    var g := Earlier();
    forall i, j | i in ALL && j in ALL && i != j
      ensures Unfold(g, ALL, LEVELS, i) != Unfold(g, ALL, LEVELS, j)
    {
      assert g[i].payload != g[j].payload;
    }
  }

  lemma ProjectTaken()
    requires Wf(Earlier(), ALL, LEVELS)
    ensures MergeableProject(Earlier(), 3) && TookOver(Earlier(), Later(), ALL, 3, 2)
  {
    ProjectSpliced();
    hide Spliced, Wf;
    assert TransToJoinProjs(FIRST, 1) == FIRST;
  }

  lemma ProjectSpliced()
    ensures Spliced(Earlier(), Later(), ALL, 3, 2)
  {
    hide Readings;
    var g, g2 := Earlier(), Later();
    forall i | i in ALL && i != 3
      ensures g2[i].inputs == Redirect(g[i].inputs, 3, 2)
    {
    }
    forall i, x | i in ALL && i != 3
      ensures Occ(g2[i].outputs, x) == Readings(g, 3, 2, i, x)
    {
      TakenReaders(i, x);
    }
  }

  lemma TakenReaders(i: nat, x: nat)
    requires i < 6 && i != 3
    ensures Occ(Later()[i].outputs, x) == Readings(Earlier(), 3, 2, i, x)
  {
    OccOne(3, x);
    OccOne(4, x);
    OccOne(5, x);
    OccTwo(1, 1, x);
    OccTwo(2, 2, x);
    OccConcat([1, 1], [2, 2], x);
    assert [1, 1, 2, 2] == [1, 1] + [2, 2];
  }

  /** No two operators are equal, a project is merged into its join, and two operators are equal. */
  lemma MergingMakesEqual()
    ensures IsPlan(Earlier(), ALL, LEVELS) && Different(Earlier(), ALL, LEVELS)
    ensures MergeableProject(Earlier(), 3) && TookOver(Earlier(), Later(), ALL, 3, 2)
    ensures Wf(Later(), ALL - {3}, LEVELS) && !Different(Later(), ALL - {3}, LEVELS)
  {
    EarlierPlan();
    EarlierDifferent();
    ProjectTaken();
    TookOverWf(Earlier(), Later(), ALL, LEVELS, 3, 2);
    hide TookOver, EdgesAgree, AllTyped;
    var g2, rest := Later(), ALL - {3};
    SameTree(g2, rest, LEVELS, 1, 2);
    assert Unfold(g2, rest, LEVELS, 1).ins[0] == Unfold(g2, rest, LEVELS, 0);
    assert FromBase(Unfold(g2, rest, LEVELS, 1));
  }
}
