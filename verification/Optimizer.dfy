/** The optimizer as a whole: what every output of the system delivers survives all its passes. */
module Optimizer {
  import opened Common
  import opened Semantics
  import opened PhysicalPlan
  import opened Manager
  import opened Feeding
  import opened MergePasses
  import opened ProjectOrigins
  import opened SharingPlan
  import opened Sharing
  import opened Extend
  import opened Build

  /** Every output operator is still there and delivers the same tuples at every instant. */
  ghost predicate SameOutputs(g: Graph, live: set<nat>, rank: seq<nat>, g2: Graph, live2: set<nat>, rank2: seq<nat>)
    requires Wf(g, live, rank) && Wf(g2, live2, rank2)
  {
    && (forall i :: i in live && g[i].payload.Output? ==> i in live2 && g2[i].payload == g[i].payload)
    && forall env, n {:trigger Delivers(env, n, g, live, rank, g2, live2, rank2)} ::
         Sensible(env) && SourcesFit(env, g, live) ==> Delivers(env, n, g, live, rank, g2, live2, rank2)
  }

  ghost predicate Delivers(env: Env, n: nat, g: Graph, live: set<nat>, rank: seq<nat>,
                           g2: Graph, live2: set<nat>, rank2: seq<nat>)
    requires Wf(g, live, rank) && Wf(g2, live2, rank2)
  {
    && SourcesFit(env, g2, live2)
    && forall i :: i in live && i in live2 && g[i].payload.Output? ==>
         Meaning(env, n, g2, live2, rank2, i) == Meaning(env, n, g, live, rank, i)
  }

  lemma SameOutputsTrans(g: Graph, live: set<nat>, rank: seq<nat>, g1: Graph, live1: set<nat>, rank1: seq<nat>,
                         g2: Graph, live2: set<nat>, rank2: seq<nat>)
    requires Wf(g, live, rank) && Wf(g1, live1, rank1) && Wf(g2, live2, rank2)
    requires SameOutputs(g, live, rank, g1, live1, rank1) && SameOutputs(g1, live1, rank1, g2, live2, rank2)
    ensures SameOutputs(g, live, rank, g2, live2, rank2)
  {
    forall env, n | Sensible(env) && SourcesFit(env, g, live)
      ensures Delivers(env, n, g, live, rank, g2, live2, rank2)
    {
      assert Delivers(env, n, g, live, rank, g1, live1, rank1);
      assert Delivers(env, n, g1, live1, rank1, g2, live2, rank2);
    }
  }

  lemma PassOutputs(g: Graph, live: set<nat>, g2: Graph, live2: set<nat>, rank: seq<nat>)
    requires Wf(g, live, rank) && Wf(g2, live2, rank) && PassKeeps(g, live, g2, live2, rank)
    ensures SameOutputs(g, live, rank, g2, live2, rank)
  {
    forall env, n | Sensible(env) && SourcesFit(env, g, live)
      ensures Delivers(env, n, g, live, rank, g2, live2, rank)
    {
      SourcesStillFit(env, g, live, g2, live2);
      forall i | i in live && i in live2 && g[i].payload.Output?
        ensures Meaning(env, n, g2, live2, rank, i) == Meaning(env, n, g, live, rank, i)
      {
        PassMeaning(env, n, g, live, g2, live2, rank, i);
      }
    }
  }

  lemma SinksOutputs(g: Graph, live: set<nat>, used: seq<nat>, rank: seq<nat>, g2: Graph, live2: set<nat>, used2: seq<nat>, rank2: seq<nat>)
    requires Wf(g, live, rank) && Wf(g2, live2, rank2) && Sinking(g, live, used, g2, live2, used2, |used|)
    ensures SameOutputs(g, live, rank, g2, live2, rank2)
  {
    forall env, n | Sensible(env) && SourcesFit(env, g, live)
      ensures Delivers(env, n, g, live, rank, g2, live2, rank2)
    {
      forall i | i in live && i in live2 && g[i].payload.Output?
        ensures Meaning(env, n, g2, live2, rank2, i) == Meaning(env, n, g, live, rank, i)
      {
        ExtendsMeaning(env, n, g, live, rank, g2, live2, rank2, i);
      }
    }
  }

  /** Operators of the kinds that are never shared survive sharing. */
  lemma UnshareableStays(g: Graph, live: set<nat>, g2: Graph, live2: set<nat>, rank: seq<nat>, sharing: bool, i: nat)
    requires Wf(g, live, rank) && Wf(g2, live2, rank) && Shared(g, live, g2, live2, rank, sharing)
    requires i in live && Unshareable(g[i].payload)
    ensures i in live2
  {
    var t := Unfold(g, live, rank, i);
    assert Stands(g, live, live2, rank, t);
    var j :| j in live2 && Unfold(g, live, rank, j) == t;
    assert t.self == At(i);
  }

  lemma SharedOutputs(g: Graph, live: set<nat>, g2: Graph, live2: set<nat>, rank: seq<nat>, sharing: bool)
    requires Wf(g, live, rank) && Wf(g2, live2, rank) && Shared(g, live, g2, live2, rank, sharing)
    ensures SameOutputs(g, live, rank, g2, live2, rank)
  {
    hide ClassesFollow, OneClass;
    forall i | i in live && g[i].payload.Output?
      ensures i in live2 && g2[i].payload == g[i].payload
    {
      UnshareableStays(g, live, g2, live2, rank, sharing, i);
      assert Unfold(g2, live2, rank, i) == Unfold(g, live, rank, i);
    }
    forall env, n | Sensible(env) && SourcesFit(env, g, live)
      ensures Delivers(env, n, g, live, rank, g2, live2, rank)
    {
      forall i | i in live2
        ensures g2[i].payload == g[i].payload && g2[i].attrs == g[i].attrs
        ensures Meaning(env, n, g2, live2, rank, i) == Meaning(env, n, g, live, rank, i)
      {
        assert Unfold(g2, live2, rank, i) == Unfold(g, live, rank, i);
      }
    }
  }

  /** In a list with operators before their inputs, the ends are of kinds that are never shared. */
  lemma EndsUnshareable(g: Graph, used: seq<nat>, live: set<nat>, rank: seq<nat>)
    requires IsPlan(g, live, rank) && NoDup(used) && Lists(used, live) && used != []
    requires Ordered(g, used) && AllRead(g, live)
    ensures used[0] in live && Unshareable(g[used[0]].payload)
    ensures used[|used| - 1] in live && Unshareable(g[used[|used| - 1]].payload)
  {
    var first, last := used[0], used[|used| - 1];
    ListsAt(used, live, 0);
    ListsAt(used, live, |used| - 1);
    if g[first].outputs != [] {
      var r := g[first].outputs[0];
      assert r in g[first].outputs;
      Surgery.ReaderAbove(g, live, rank, first, r);
      var j := ListsIndex(used, live, r);
    }
    assert Unread(g, first) ==> g[first].payload.Sink?;
    assert Typed(g, live, last);
    if g[last].inputs != [] {
      var p := g[last].inputs[0];
      assert p in g[last].inputs;
      var k := ListsIndex(used, live, p);
    }
  }

  /**
   The first half of the optimizer: query sources are removed, unread operators get sinks, and
   selects are merged.
   */
  method PreparePlan(pm: PlanManager) returns (rc: int)
    requires pm.Valid() && Ordered(pm.ops[..], pm.used)
    requires Unreads(pm.ops[..], pm.used) == {} || |pm.free| > |Unreads(pm.ops[..], pm.used)|
    modifies pm, pm.next, pm.prev, pm.ops
    ensures rc == 0 ==> pm.Valid() && Ordered(pm.ops[..], pm.used) && AllRead(pm.ops[..], pm.live)
    ensures rc == 0 ==> forall i :: i in pm.live ==> !MergeableSelect(pm.ops[..], i) && !IsQuerySource(pm.ops[..], i)
    ensures rc == 0 ==> SameOutputs(old(pm.ops[..]), old(pm.live), old(pm.rank), pm.ops[..], pm.live, pm.rank)
  {
    ghost var g0, live0, rank0 := pm.ops[..], pm.live, pm.rank;
    rc := RemoveQuerySources(pm);
    if rc != 0 {
      return;
    }
    ghost var g1, live1, used1, rank1 := pm.ops[..], pm.live, pm.used, pm.rank;
    PassOutputs(g0, live0, g1, live1, rank0);
    rc := SinkAndMerge(pm);
    if rc == 0 {
      SameOutputsTrans(g0, live0, rank0, g1, live1, rank1, pm.ops[..], pm.live, pm.rank);
    }
  }

  method SinkAndMerge(pm: PlanManager) returns (rc: int)
    requires pm.Valid() && Ordered(pm.ops[..], pm.used)
    requires Unreads(pm.ops[..], pm.used) == {} || |pm.free| > |Unreads(pm.ops[..], pm.used)|
    modifies pm, pm.next, pm.prev, pm.ops
    ensures rc == 0 ==> pm.Valid() && Ordered(pm.ops[..], pm.used) && AllRead(pm.ops[..], pm.live)
    ensures rc == 0 ==> forall i :: i in pm.live ==> !MergeableSelect(pm.ops[..], i)
    ensures rc == 0 ==> forall i :: i in pm.live && IsQuerySource(pm.ops[..], i) ==> i in old(pm.live) && IsQuerySource(old(pm.ops[..]), i)
    ensures rc == 0 ==> SameOutputs(old(pm.ops[..]), old(pm.live), old(pm.rank), pm.ops[..], pm.live, pm.rank)
  {
    ghost var g1, live1, used1, rank1 := pm.ops[..], pm.live, pm.used, pm.rank;
    rc := AddSinks(pm);
    if rc != 0 {
      return;
    }
    ghost var g2, live2, rank2 := pm.ops[..], pm.live, pm.rank;
    SinksOutputs(g1, live1, used1, rank1, g2, live2, pm.used, rank2);
    rc := MergeSelects(pm);
    if rc == 0 {
      assert Keeps(g2, live2, pm.ops[..], pm.live);
      PassOutputs(g2, live2, pm.ops[..], pm.live, rank2);
      SameOutputsTrans(g1, live1, rank1, g2, live2, rank2, pm.ops[..], pm.live, pm.rank);
    }
  }

  /**
   The second half: equal operators are shared, which leaves the plan mid, and projects are merged into
   joins.  `levels` shows that the plan is levelled; the readers that sharing brings together have to
   fit.  If classes may share, or equal operators are in one class, no two operators that read from base
   tables are equal afterwards, unless one is a join that had its projections already and the other got them now.
   */
  method ShareAndProject(pm: PlanManager, sharing: bool, ghost levels: seq<nat>)
    returns (rc: int, ghost mid: Graph, ghost midLive: set<nat>, ghost up: Origins)
    requires pm.Valid() && Ordered(pm.ops[..], pm.used) && AllRead(pm.ops[..], pm.live) && pm.used != []
    requires Wf(pm.ops[..], pm.live, levels) && Levelled(pm.ops[..], pm.live, levels)
    requires GroupsFit(TermsOf(pm.ops[..], pm.live, levels), pm.ops[..], pm.used)
    modifies pm, pm.next, pm.prev, pm.ops
    ensures Wf(mid, midLive, levels) && Shared(old(pm.ops[..]), old(pm.live), mid, midLive, levels, sharing)
    ensures rc == 0 <==> NoCrowd(mid, midLive, MergeableProject)
    ensures rc == 0 ==> pm.Valid() && pm.rank == levels
    ensures rc == 0 ==> PassKeeps(mid, midLive, pm.ops[..], pm.live, levels) && Lineage(mid, midLive, pm.ops[..], pm.live, up)
    ensures rc == 0 ==> forall i :: i in pm.live ==> !MergeableProject(pm.ops[..], i)
    ensures rc == 0 && MayAllShare(old(pm.ops[..]), old(pm.live), levels, sharing) ==>
      NoClash(mid, midLive, pm.ops[..], pm.live, levels, up) ==> Different(pm.ops[..], pm.live, levels)
    ensures rc == 0 && MayAllShare(old(pm.ops[..]), old(pm.live), levels, sharing) && (forall i :: i in old(pm.live) ==> !IsJoined(old(pm.ops[..])[i].payload)) ==>
      Different(pm.ops[..], pm.live, levels)
    ensures rc == 0 ==> SameOutputs(old(pm.ops[..]), old(pm.live), old(pm.rank), pm.ops[..], pm.live, pm.rank)
  {
    hide Shared, SameOutputs, PassKeeps, Lineage, NoClash, Different, NoCrowd, Levelled, MayAllShare;
    ghost var g0, live0, rank0 := pm.ops[..], pm.live, pm.rank;
    EndsUnshareable(g0, pm.used, live0, rank0);
    Reranked(g0, live0, rank0, levels);
    pm.rank := levels;
    var rounds := FindSharedOps(pm, sharing);
    mid, midLive := pm.ops[..], pm.live;
    SharedOutputs(g0, live0, mid, midLive, levels, sharing);
    rc, up := MergeProjectsToJoin(pm);
    if rc == 0 {
      PassOutputs(mid, midLive, pm.ops[..], pm.live, levels);
      SameOutputsTrans(g0, live0, levels, mid, midLive, levels, pm.ops[..], pm.live, levels);
      SameOutputsTrans(g0, live0, rank0, g0, live0, levels, pm.ops[..], pm.live, levels);
      SharedDifferent(g0, live0, mid, midLive, pm.ops[..], pm.live, levels, up, sharing);
    }
  }

  /** Classes may share, or equal operators that read from base tables are in one class. */
  ghost predicate MayAllShare(g: Graph, live: set<nat>, rank: seq<nat>, sharing: bool)
    requires Wf(g, live, rank)
  {
    sharing || OneClass(TermsOf(g, live, rank), g, live)
  }

  /** What sharing makes different stays different when projects are merged. */
  lemma SharedDifferent(g: Graph, live: set<nat>, mid: Graph, midLive: set<nat>, g2: Graph, live2: set<nat>, rank: seq<nat>, up: Origins,
                        sharing: bool)
    requires Wf(g, live, rank) && IsPlan(mid, midLive, rank) && Wf(g2, live2, rank)
    requires Shared(g, live, mid, midLive, rank, sharing) && Lineage(mid, midLive, g2, live2, up)
    ensures MayAllShare(g, live, rank, sharing) && NoClash(mid, midLive, g2, live2, rank, up) ==> Different(g2, live2, rank)
    ensures MayAllShare(g, live, rank, sharing) && (forall i :: i in live ==> !IsJoined(g[i].payload)) ==> Different(g2, live2, rank)
  {
    hide Lineage, NoClash, ClassesFollow, OneClass, FromBase, Different;
    if MayAllShare(g, live, rank, sharing) && NoClash(mid, midLive, g2, live2, rank, up) {
      StillDifferent(mid, midLive, g2, live2, rank, up);
    }
    if MayAllShare(g, live, rank, sharing) && forall i :: i in live ==> !IsJoined(g[i].payload) {
      forall i | i in midLive
        ensures !IsJoined(mid[i].payload)
      {
        assert Unfold(mid, midLive, rank, i) == Unfold(g, live, rank, i);
      }
      FreshJoins(mid, midLive, g2, live2, rank, up);
      StillDifferent(mid, midLive, g2, live2, rank, up);
    }
  }

  /** Another ranking of the same plan. */
  lemma Reranked(g: Graph, live: set<nat>, rank: seq<nat>, levels: seq<nat>)
    requires IsPlan(g, live, rank) && Wf(g, live, levels)
    ensures IsPlan(g, live, levels) && SameOutputs(g, live, rank, g, live, levels)
  {
    forall i | i in live
      ensures Typed(g, live, i)
    {
      assert Typed(g, live, i);
    }
    forall env, n | Sensible(env) && SourcesFit(env, g, live)
      ensures Delivers(env, n, g, live, rank, g, live, levels)
    {
      forall i | i in live && g[i].payload.Output?
        ensures Meaning(env, n, g, live, levels, i) == Meaning(env, n, g, live, rank, i)
      {
        ExtendsMeaning(env, n, g, live, rank, g, live, levels, i);
      }
    }
  }
}
