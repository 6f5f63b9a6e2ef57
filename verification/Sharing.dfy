/** Common-subplan sharing: equal operators are found level by level and merged. */
module Sharing {
  import opened Common
  import opened PhysicalPlan
  import opened Surgery
  import opened Manager
  import opened Compare
  import opened SharingPlan

  /** The readers that merging can bring together fit into one record. */
  ghost predicate GroupsFit(term: Terms, g: Graph, used: seq<nat>) {
    forall i {:trigger Load(term, g, used, term[i])} :: i in term ==> Load(term, g, used, term[i]) <= MAX_OUT_BRANCHING
  }

  /** The first and the last operator of the list are of kinds that are never merged. */
  ghost predicate EndsFixed(term: Terms, used: seq<nat>) {
    && used != []
    && used[0] in term && Unshareable(term[used[0]].payload)
    && used[|used| - 1] in term && Unshareable(term[used[|used| - 1]].payload)
  }

  /** The records, the list of used operators and the levels at one moment. */
  datatype Stage = Stage(ops: Graph, used: seq<nat>, live: set<nat>, rank: seq<nat>)

  ghost function StageOf(pm: PlanManager): Stage
    reads pm, pm.ops
  {
    Stage(pm.ops[..], pm.used, pm.live, pm.rank)
  }

  /** What holds of the plan throughout: it is a levelled plan, and unfolds as it did. */
  ghost predicate Ready(term: Terms, stage: Stage) {
    match stage case Stage(g, used, live, rank) =>
    && NoDup(used) && Lists(used, live)
    && IsPlan(g, live, rank)
    && Levelled(g, live, rank)
    && Faithful(term, g, live, rank)
    && Represented(term, live)
    && EndsFixed(term, used)
    && GroupsFit(term, g, used)
  }

  lemma UnfoldIdentity(g: Graph, live: set<nat>, rank: seq<nat>, i: nat, j: nat)
    requires Wf(g, live, rank) && i in live && j in live && i != j
    requires Unfold(g, live, rank, i) == Unfold(g, live, rank, j)
    ensures !Unshareable(g[i].payload)
  {
  }

  /** Two equal operators can be merged: there is room, and the second is not at an end of the list. */
  lemma MayMerge(term: Terms, g: Graph, used: seq<nat>, live: set<nat>, rank: seq<nat>, b: nat, a: nat) returns (k: nat)
    requires Ready(term, Stage(g, used, live, rank)) && a in live && b in live && a != b && term[a] == term[b]
    ensures 0 < k < |used| - 1 && used[k] == a
    ensures rank[a] == rank[b] && b !in g[a].inputs
    ensures |g[b].outputs| + |g[a].outputs| <= MAX_OUT_BRANCHING
  {
    k := ListsIndex(used, live, a);
    var m := ListsIndex(used, live, b);
    UnfoldIdentity(g, live, rank, a, b);
    EqualRank(g, live, rank, a, b);
    LoadPair(term, g, used, k, m);
    assert Load(term, g, used, term[a]) <= MAX_OUT_BRANCHING;
  }

  lemma MergeKeepsReady(term: Terms, g: Graph, g2: Graph, used: seq<nat>, live: set<nat>, rank: seq<nat>, b: nat, a: nat, k: nat)
    requires Ready(term, Stage(g, used, live, rank)) && a in live && b in live && a != b && term[a] == term[b]
    requires 0 < k < |used| - 1 && used[k] == a && rank[a] == rank[b]
    requires |g[b].outputs| + |g[a].outputs| <= MAX_OUT_BRANCHING
    requires Merged(g, g2, live, b, a)
    ensures Ready(term, Stage(g2, Without(used, k), live - {a}, rank))
  {
    hide Levelled, Represented, GroupsFit, Merged;
    WithoutLists(used, live, k);
    MergeKeepsPlan(g, g2, live, rank, b, a);
    MergeKeepsLevels(g, g2, live, rank, b, a);
    MergeKeepsTerms(term, g, g2, live, rank, b, a);
    MergeKeepsRepresented(term, live, b, a);
    MergeKeepsGroups(term, g, g2, used, live, rank, b, a, k);
  }

  lemma MergeKeepsGroups(term: Terms, g: Graph, g2: Graph, used: seq<nat>, live: set<nat>, rank: seq<nat>, b: nat, a: nat, k: nat)
    requires Ready(term, Stage(g, used, live, rank)) && a in live && b in live && a != b && term[a] == term[b]
    requires k < |used| && used[k] == a
    requires Merged(g, g2, live, b, a)
    ensures GroupsFit(term, g2, Without(used, k))
  {
    var m := ListsIndex(used, live, b);
    forall i | i in term
      ensures Load(term, g2, Without(used, k), term[i]) <= MAX_OUT_BRANCHING
    {
      forall j | j in used && j != a && j != b
        ensures Share(term, g2, j, term[i]) <= Share(term, g, j, term[i])
      {
        assert j in live;
      }
      LoadMerged(term, g, g2, used, k, m, term[i]);
    }
  }

  // ---------------------------------------------------------------- classes

  /** An operator with the given tree is in the class, or in a more urgent one if classes may share. */
  ghost predicate HasUrgent(term: Terms, g: Graph, live: set<nat>, t: Term, urgency: int, sharing: bool) {
    exists j :: j in live && j < |g| && j in term && term[j] == t
      && if sharing then g[j].queryClass <= urgency else g[j].queryClass == urgency
  }

  /** An operator with the given tree is in the class. */
  ghost predicate HasClass(term: Terms, g: Graph, live: set<nat>, t: Term, urgency: int) {
    exists i :: i in live && i < |g| && i in term && term[i] == t && g[i].queryClass == urgency
  }

  /**
   For every operator of the first plan an equal one of the second is as urgent, and every operator of
   the second has the class of an equal one of the first; its own, and nothing more urgent, if classes
   may not share.
   */
  ghost predicate ClassesFollow(term: Terms, g: Graph, live: set<nat>, g2: Graph, live2: set<nat>, sharing: bool) {
    && live2 <= live && |g2| == |g|
    && (forall i :: i in live && i < |g| && i in term ==> HasUrgent(term, g2, live2, term[i], g[i].queryClass, sharing))
    && (forall j :: j in live2 && j < |g2| && j in term ==> HasClass(term, g, live, term[j], g2[j].queryClass))
    && (!sharing ==> forall j :: j in live2 && j < |g2| ==> g2[j].queryClass == g[j].queryClass)
  }

  lemma ClassesStart(term: Terms, g: Graph, live: set<nat>, sharing: bool)
    ensures ClassesFollow(term, g, live, g, live, sharing)
  {
  }

  lemma ClassesTrans(term: Terms, g: Graph, live: set<nat>, g1: Graph, live1: set<nat>, g2: Graph, live2: set<nat>, sharing: bool)
    requires ClassesFollow(term, g, live, g1, live1, sharing) && ClassesFollow(term, g1, live1, g2, live2, sharing)
    ensures ClassesFollow(term, g, live, g2, live2, sharing)
  {
    forall i | i in live && i < |g| && i in term
      ensures HasUrgent(term, g2, live2, term[i], g[i].queryClass, sharing)
    {
      assert HasUrgent(term, g1, live1, term[i], g[i].queryClass, sharing);
      var j :| j in live1 && j < |g1| && j in term && term[j] == term[i]
        && if sharing then g1[j].queryClass <= g[i].queryClass else g1[j].queryClass == g[i].queryClass;
      assert HasUrgent(term, g2, live2, term[j], g1[j].queryClass, sharing);
    }
    forall j | j in live2 && j < |g2| && j in term
      ensures HasClass(term, g, live, term[j], g2[j].queryClass)
    {
      assert HasClass(term, g1, live1, term[j], g2[j].queryClass);
      var i :| i in live1 && i < |g1| && i in term && term[i] == term[j] && g1[i].queryClass == g2[j].queryClass;
      assert HasClass(term, g, live, term[i], g1[i].queryClass);
    }
  }

  /** Operator b has the more urgent of the classes of a and b, and all other classes are as they were. */
  ghost predicate Urgent(g: Graph, g2: Graph, b: nat, a: nat) {
    && |g2| == |g| && a < |g| && b < |g|
    && (forall i :: 0 <= i < |g| && i != b ==> g2[i].queryClass == g[i].queryClass)
    && g2[b].queryClass == if g[a].queryClass < g[b].queryClass then g[a].queryClass else g[b].queryClass
  }

  lemma MergedUrgent(g: Graph, g2: Graph, live: set<nat>, b: nat, a: nat)
    requires (forall i :: i in live ==> i < |g|) && a < |g| && b < |g| && Merged(g, g2, live, b, a)
    ensures Urgent(g, g2, b, a)
  {
  }

  /** A merge leaves the more urgent of two classes; without sharing they are the same. */
  lemma MergeKeepsClasses(term: Terms, g: Graph, g2: Graph, live: set<nat>, b: nat, a: nat, sharing: bool)
    requires (forall i :: i in live ==> i < |g|) && a in live && b in live && a != b
    requires a in term && b in term && term[a] == term[b] && Urgent(g, g2, b, a)
    requires sharing || g[a].queryClass == g[b].queryClass
    ensures ClassesFollow(term, g, live, g2, live - {a}, sharing)
  {
    hide HasUrgent, HasClass;
    forall i | i in live && i < |g| && i in term
      ensures HasUrgent(term, g2, live - {a}, term[i], g[i].queryClass, sharing)
    {
      UrgentIs(term, g2, live - {a}, if i == a then b else i, g[i].queryClass, sharing);
    }
    forall j | j in live - {a} && j < |g2| && j in term
      ensures HasClass(term, g, live, term[j], g2[j].queryClass)
    {
      ClassIs(term, g, live, if j == b && g[a].queryClass < g[b].queryClass then a else j);
    }
  }

  lemma UrgentIs(term: Terms, g: Graph, live: set<nat>, j: nat, urgency: int, sharing: bool)
    requires j in live && j < |g| && j in term
    requires if sharing then g[j].queryClass <= urgency else g[j].queryClass == urgency
    ensures HasUrgent(term, g, live, term[j], urgency, sharing)
  {
  }

  lemma ClassIs(term: Terms, g: Graph, live: set<nat>, i: nat)
    requires i in live && i < |g| && i in term
    ensures HasClass(term, g, live, term[i], g[i].queryClass)
  {
  }

  /** Equal operators that read from base tables are in one class. */
  ghost predicate OneClass(term: Terms, g: Graph, live: set<nat>) {
    forall i, j :: i in live && j in live && i in term && j in term && i < |g| && j < |g| && term[i] == term[j] && FromBase(term[i])
      ==> g[i].queryClass == g[j].queryClass
  }

  /** If all equal operators are to be merged, classes may share, or equal operators are in one class. */
  ghost predicate Unites(term: Terms, g: Graph, live: set<nat>, sharing: bool, full: bool) {
    full ==> sharing || OneClass(term, g, live)
  }

  lemma UnitesKept(term: Terms, g: Graph, live: set<nat>, g2: Graph, live2: set<nat>, sharing: bool, full: bool)
    requires Unites(term, g, live, sharing, full) && ClassesFollow(term, g, live, g2, live2, sharing)
    ensures Unites(term, g2, live2, sharing, full)
  {
  }

  /** The sources, in the order of the used list. */
  method CollectSources(pm: PlanManager) returns (current: seq<nat>)
    requires pm.PoolValid()
    ensures NoDup(current)
    ensures forall i :: i in current <==>
      i in pm.live && IsTable(pm.ops[..], i)
  {
    current := [];
    var op := pm.usedOps;
    ghost var k := 0;
    while op != Null
      invariant k <= |pm.used| && op == if k < |pm.used| then At(pm.used[k]) else Null
      invariant NoDup(current)
      invariant forall i :: i in current <==>
        i in pm.used[..k] && IsTable(pm.ops[..], i)
      decreases |pm.used| - k
    {
      assert pm.used[..k + 1] == pm.used[..k] + [pm.used[k]];
      assert pm.next[..][pm.used[k]] == if k + 1 < |pm.used| then At(pm.used[k + 1]) else Null;
      assert pm.used[k] !in pm.used[..k];
      if pm.ops[op.id].payload.StreamSource? || pm.ops[op.id].payload.RelnSource? {
        current := current + [op.id];
      }
      op := pm.next[op.id];
      k := k + 1;
    }
    assert pm.used[..k] == pm.used;
  }

  /** The operators of a level that are still to be processed. */
  ghost predicate Listed(term: Terms, current: seq<nat>, live: set<nat>, rank: seq<nat>, level: nat) {
    && NoDup(current)
    && forall x :: 0 <= x < |current| ==> current[x] in live && current[x] in term && current[x] < |rank| && rank[current[x]] == level && FromBase(term[current[x]])
  }

  /**
   From live0 to live only operators listed after position i have disappeared, and all that did are
   off the list.  If all equal operators are merged, nothing else is off the list.
   */
  ghost predicate Thinned(current: seq<nat>, rest: seq<nat>, i: nat, live0: set<nat>, live: set<nat>, full: bool) {
    && i < |rest| <= |current| && rest[i] == current[i]
    && (forall x :: 0 <= x < i ==> rest[x] == current[x])
    && live <= live0
    && (forall p :: p in rest ==> p in current)
    && (forall p :: p in live0 && p !in live ==> p in current)
    && (full ==> forall p :: p in current && p in live ==> p in rest)
  }

  lemma ThinnedDrop(term: Terms, current: seq<nat>, rest: seq<nat>, i: nat, j: nat, live0: set<nat>, live: set<nat>, live2: set<nat>,
                    rank: seq<nat>, level: nat, full: bool)
    requires Thinned(current, rest, i, live0, live, full) && Listed(term, rest, live, rank, level)
    requires i < j < |rest| && (live2 == live || live2 == live - {rest[j]})
    requires full ==> rest[j] !in live2
    ensures Thinned(current, Without(rest, j), i, live0, live2, full)
    ensures Listed(term, Without(rest, j), live2, rank, level)
  {
    var r: seq<nat> := Without(rest, j);
    WithoutIn(rest, j);
    assert rest[j] in rest;
    forall x: nat | x < |r|
      ensures r[x] in live2 && r[x] in term && r[x] < |rank| && rank[r[x]] == level && FromBase(term[r[x]])
    {
      assert r[x] == rest[if x < j then x else x + 1];
    }
  }

  /** Two operators with different trees. */
  ghost predicate Apart(term: Terms, p: nat, q: nat) {
    p in term && q in term && term[p] != term[q]
  }

  /** The i-th listed operator differs from those after it, up to position j. */
  ghost predicate ApartUpTo(term: Terms, list: seq<nat>, i: nat, j: nat) {
    i < j <= |list| && forall y :: i < y < j ==> Apart(term, list[i], list[y])
  }

  /** The operators of the level keep their readers, except one. */
  ghost predicate ReadersKept(g: Graph, g2: Graph, live: set<nat>, rank: seq<nat>, level: nat, but: nat) {
    && |g2| == |g| == |rank|
    && forall p :: p in live && p < |g| && rank[p] == level && p != but ==> g2[p].outputs == g[p].outputs
  }

  /** The plan before the later listed operators are compared with the i-th one. */
  datatype Before = Before(term: Terms, current: seq<nat>, i: nat, level: nat, ops: Graph, live: set<nat>, full: bool)

  /** The i-th listed operator has been compared with those before position j of the remaining list. */
  ghost predicate Compared(b: Before, rest: seq<nat>, j: nat, stage: Stage) {
    match stage case Stage(g, used, live, rank) =>
    && Ready(b.term, Stage(g, used, live, rank))
    && Listed(b.term, rest, live, rank, b.level)
    && Thinned(b.current, rest, b.i, b.live, live, b.full)
    && ReadersKept(b.ops, g, live, rank, b.level, b.current[b.i])
    && ApartUpTo(b.term, rest, b.i, j)
  }

  /**
   Merges into the i-th listed operator every later one that equals it.  Equal operators leave the
   list even when they belong to different classes and may not be merged.
   */
  method ShareWith(pm: PlanManager, current: seq<nat>, i: nat, sharing: bool, ghost term: Terms, ghost level: nat, ghost full: bool)
    returns (rest: seq<nat>)
    requires pm.PoolValid() && Ready(term, StageOf(pm)) && Unites(term, pm.ops[..], pm.live, sharing, full)
    requires Listed(term, current, pm.live, pm.rank, level) && i < |current|
    modifies pm`usedOps, pm`used, pm`live, pm`gone, pm.next, pm.prev, pm.ops
    ensures pm.PoolValid()
    ensures Compared(Before(term, current, i, level, old(pm.ops[..]), old(pm.live), full),
                     rest, |rest|, StageOf(pm))
    ensures ClassesFollow(term, old(pm.ops[..]), old(pm.live), pm.ops[..], pm.live, sharing)
  {
    hide ClassesFollow, Unites;
    ClassesStart(term, pm.ops[..], pm.live, sharing);
    ghost var b := Before(term, current, i, level, pm.ops[..], pm.live, full);
    rest := current;
    var j: nat := i + 1;
    while j < |rest|
      invariant pm.PoolValid() && Compared(b, rest, j, StageOf(pm))
      invariant ClassesFollow(term, b.ops, b.live, pm.ops[..], pm.live, sharing)
      decreases |rest| - j
    {
      ghost var g, live := pm.ops[..], pm.live;
      UnitesKept(term, b.ops, b.live, g, live, sharing, full);
      var same, shorter := ShareOne(pm, rest, i, j, sharing, b);
      ClassesTrans(term, b.ops, b.live, g, live, pm.ops[..], pm.live, sharing);
      rest := shorter;
      j := if same then j else j + 1;
    }
  }

  /** Compares two listed operators; equal ones are merged, and the second is taken off the list. */
  method ShareOne(pm: PlanManager, list: seq<nat>, i: nat, j: nat, sharing: bool, ghost b: Before)
    returns (same: bool, rest: seq<nat>)
    requires pm.PoolValid() && j < |list| && i == b.i && Unites(b.term, pm.ops[..], pm.live, sharing, b.full)
    requires Compared(b, list, j, StageOf(pm))
    modifies pm`usedOps, pm`used, pm`live, pm`gone, pm.next, pm.prev, pm.ops
    ensures pm.PoolValid()
    ensures Compared(b, rest, if same then j else j + 1, StageOf(pm))
    ensures |rest| == if same then |list| - 1 else |list|
    ensures ClassesFollow(b.term, old(pm.ops[..]), old(pm.live), pm.ops[..], pm.live, sharing)
  {
    hide Ready, ReadersKept, ClassesFollow, Unites;
    ghost var g, live := pm.ops[..], pm.live;
    same := Combine(pm, list, i, j, sharing, b.term, b.level, b.full);
    rest := if same then Without(list, j) else list;
    CompareOne(b, list, rest, j, g, live, pm.ops[..], pm.used, pm.live, pm.rank, same);
  }

  lemma CompareOne(b: Before, list: seq<nat>, rest: seq<nat>, j: nat, g: Graph, live: set<nat>,
                   g2: Graph, used2: seq<nat>, live2: set<nat>, rank: seq<nat>, same: bool)
    requires j < |list| && Ready(b.term, Stage(g2, used2, live2, rank))
    requires Listed(b.term, list, live, rank, b.level) && Thinned(b.current, list, b.i, b.live, live, b.full)
    requires ReadersKept(b.ops, g, live, rank, b.level, b.current[b.i]) && ApartUpTo(b.term, list, b.i, j)
    requires rest == if same then Without(list, j) else list
    requires live2 == live || (same && live2 == live - {list[j]})
    requires same && b.full ==> list[j] !in live2
    requires !same ==> Apart(b.term, list[b.i], list[j])
    requires ReadersKept(g, g2, live2, rank, b.level, list[b.i])
    ensures Compared(b, rest, if same then j else j + 1, Stage(g2, used2, live2, rank))
  {
    if same {
      ThinnedDrop(b.term, b.current, list, b.i, j, b.live, live, live2, rank, b.level, b.full);
      ApartDrop(b.term, list, b.i, j);
    } else {
      ApartMore(b.term, list, b.i, j);
    }
  }

  lemma ApartDrop(term: Terms, list: seq<nat>, i: nat, j: nat)
    requires j < |list| && ApartUpTo(term, list, i, j)
    ensures ApartUpTo(term, Without(list, j), i, j)
  {
  }

  lemma ApartMore(term: Terms, list: seq<nat>, i: nat, j: nat)
    requires j < |list| && ApartUpTo(term, list, i, j) && Apart(term, list[i], list[j])
    ensures ApartUpTo(term, list, i, j + 1)
  {
  }

  /** Merges two listed operators if they are equal and may be merged. */
  method Combine(pm: PlanManager, list: seq<nat>, i: nat, j: nat, sharing: bool, ghost term: Terms, ghost level: nat, ghost full: bool)
    returns (same: bool)
    requires pm.PoolValid() && Ready(term, StageOf(pm)) && Unites(term, pm.ops[..], pm.live, sharing, full)
    requires Listed(term, list, pm.live, pm.rank, level) && i < j < |list|
    modifies pm`usedOps, pm`used, pm`live, pm`gone, pm.next, pm.prev, pm.ops
    ensures pm.PoolValid() && Ready(term, StageOf(pm))
    ensures !same ==> Apart(term, list[i], list[j])
    ensures pm.live == old(pm.live) || (same && pm.live == old(pm.live) - {list[j]})
    ensures same && full ==> list[j] !in pm.live
    ensures ReadersKept(old(pm.ops[..]), pm.ops[..], pm.live, pm.rank, level, list[i])
    ensures ClassesFollow(term, old(pm.ops[..]), old(pm.live), pm.ops[..], pm.live, sharing)
  {
    hide Levelled, GroupsFit, Represented, ClassesFollow, Urgent, FromBase;
    ClassesStart(term, pm.ops[..], pm.live, sharing);
    var op1, op2 := list[i], list[j];
    ghost var g, used, live := pm.ops[..], pm.used, pm.live;
    same := CompareOperators(pm, op1, op2, pm.live, pm.rank);
    if same {
      ghost var k := MayMerge(term, g, used, pm.live, pm.rank, op1, op2);
      var done := MergeOperators(pm, op1, op2, sharing, k);
      if done {
        MergeKeepsReady(term, g, pm.ops[..], used, live, pm.rank, op1, op2, k);
        MergeKeepsReaders(g, pm.ops[..], live, pm.rank, op1, op2);
        MergedUrgent(g, pm.ops[..], live, op1, op2);
        MergeKeepsClasses(term, g, pm.ops[..], live, op1, op2, sharing);
      }
    }
  }

  /** A merge leaves the readers of the other operators of the level alone. */
  lemma MergeKeepsReaders(g: Graph, g2: Graph, live: set<nat>, rank: seq<nat>, b: nat, a: nat)
    requires Wf(g, live, rank) && a in live && b in live && Merged(g, g2, live, b, a)
    ensures ReadersKept(g, g2, live - {a}, rank, rank[a], b)
  {
  }

  // ---------------------------------------------------------------- a whole level

  /** The readers of the first i listed operators. */
  function Gather(g: Graph, list: seq<nat>, i: nat): seq<nat>
    requires i <= |list|
  {
    if i == 0 then []
    else Gather(g, list, i - 1) + if list[i - 1] < |g| then g[list[i - 1]].outputs else []
  }

  lemma {:induction false} GatherSame(g: Graph, g2: Graph, list: seq<nat>, list2: seq<nat>, i: nat)
    requires i <= |list| && i <= |list2| && |g| == |g2|
    requires forall x :: 0 <= x < i ==> list2[x] == list[x] && list[x] < |g| && g2[list[x]].outputs == g[list[x]].outputs
    ensures Gather(g2, list2, i) == Gather(g, list, i)
  {
    if i > 0 {
      GatherSame(g, g2, list, list2, i - 1);
    }
  }

  lemma {:induction false} GatherIn(g: Graph, list: seq<nat>, i: nat, x: nat, r: nat)
    requires x < i <= |list| && list[x] < |g| && r in g[list[x]].outputs
    ensures r in Gather(g, list, i)
  {
    if x < i - 1 {
      GatherIn(g, list, i - 1, x, r);
    }
  }

  lemma {:induction false} GatherFrom(g: Graph, list: seq<nat>, i: nat, r: nat) returns (x: nat)
    requires i <= |list| && r in Gather(g, list, i)
    ensures x < i && list[x] < |g| && r in g[list[x]].outputs
  {
    if r in Gather(g, list, i - 1) {
      x := GatherFrom(g, list, i - 1, r);
    } else {
      x := i - 1;
    }
  }

  /** The listed operators before position i differ from all that are listed after them. */
  ghost predicate ApartBelow(term: Terms, list: seq<nat>, i: nat) {
    i <= |list| && forall x :: 0 <= x < i ==> ApartUpTo(term, list, x, |list|)
  }

  /** The list holds operators of the level that read from base tables, all of them if all equal ones are merged. */
  ghost predicate Current(term: Terms, list: seq<nat>, live: set<nat>, rank: seq<nat>, level: nat, full: bool) {
    Listed(term, list, live, rank, level) && (full ==> AllListed(term, list, live, rank, level))
  }

  ghost predicate AllListed(term: Terms, list: seq<nat>, live: set<nat>, rank: seq<nat>, level: nat) {
    forall p :: p in live && p in term && p < |rank| && rank[p] == level && FromBase(term[p]) ==> p in list
  }

  /** From live0 to live only operators of the level have disappeared. */
  ghost predicate OnlyLevel(live0: set<nat>, live: set<nat>, rank: seq<nat>, level: nat) {
    live <= live0 && forall p :: p in live0 && p !in live ==> p < |rank| && rank[p] == level
  }

  /** The first i operators of the level have been shared, and their readers gathered. */
  ghost predicate LevelShared(term: Terms, list: seq<nat>, nexts: seq<nat>, i: nat, live0: set<nat>,
                              stage: Stage, level: nat, full: bool) {
    match stage case Stage(g, used, live, rank) =>
    && Ready(term, Stage(g, used, live, rank))
    && Current(term, list, live, rank, level, full)
    && OnlyLevel(live0, live, rank, level)
    && ApartBelow(term, list, i)
    && nexts == Gather(g, list, i)
  }

  /** Merges the equal operators of a level and gathers the readers of those that remain. */
  method ShareLevel(pm: PlanManager, current: seq<nat>, sharing: bool, ghost term: Terms, ghost level: nat, ghost full: bool)
    returns (nexts: seq<nat>, ghost rest: seq<nat>)
    requires pm.PoolValid() && Ready(term, StageOf(pm)) && Unites(term, pm.ops[..], pm.live, sharing, full)
    requires Current(term, current, pm.live, pm.rank, level, full)
    modifies pm`usedOps, pm`used, pm`live, pm`gone, pm.next, pm.prev, pm.ops
    ensures pm.PoolValid()
    ensures LevelShared(term, rest, nexts, |rest|, old(pm.live), StageOf(pm), level, full)
    ensures ClassesFollow(term, old(pm.ops[..]), old(pm.live), pm.ops[..], pm.live, sharing)
  {
    hide ClassesFollow, Unites;
    ghost var g0, live0 := pm.ops[..], pm.live;
    ClassesStart(term, g0, live0, sharing);
    var list := current;
    nexts := [];
    var i: nat := 0;
    while i < |list|
      invariant i <= |list| && pm.PoolValid()
      invariant LevelShared(term, list, nexts, i, live0, StageOf(pm), level, full)
      invariant ClassesFollow(term, g0, live0, pm.ops[..], pm.live, sharing)
      decreases |list| - i
    {
      ghost var g, live := pm.ops[..], pm.live;
      UnitesKept(term, g0, live0, g, live, sharing, full);
      list, nexts := ShareNext(pm, list, nexts, i, sharing, term, level, live0, full);
      ClassesTrans(term, g0, live0, g, live, pm.ops[..], pm.live, sharing);
      i := i + 1;
    }
    rest := list;
  }

  /** Shares the i-th operator of a level with the later ones and gathers its readers. */
  method ShareNext(pm: PlanManager, list: seq<nat>, gathered: seq<nat>, i: nat, sharing: bool,
                   ghost term: Terms, ghost level: nat, ghost live0: set<nat>, ghost full: bool)
    returns (rest: seq<nat>, nexts: seq<nat>)
    requires pm.PoolValid() && i < |list| && Unites(term, pm.ops[..], pm.live, sharing, full)
    requires LevelShared(term, list, gathered, i, live0, StageOf(pm), level, full)
    modifies pm`usedOps, pm`used, pm`live, pm`gone, pm.next, pm.prev, pm.ops
    ensures pm.PoolValid() && i < |rest| <= |list|
    ensures LevelShared(term, rest, nexts, i + 1, live0, StageOf(pm), level, full)
    ensures ClassesFollow(term, old(pm.ops[..]), old(pm.live), pm.ops[..], pm.live, sharing)
  {
    hide Ready, ReadersKept, ClassesFollow, Unites;
    ghost var b := Before(term, list, i, level, pm.ops[..], pm.live, full);
    rest := ShareWith(pm, list, i, sharing, term, level, full);
    ComparedRoom(b, rest, StageOf(pm));
    nexts := gathered + pm.ops[rest[i]].outputs;
    ShareLevelStep(b, rest, live0, nexts, pm.ops[..], pm.used, pm.live, pm.rank);
  }

  lemma ComparedRoom(b: Before, rest: seq<nat>, stage: Stage)
    requires Compared(b, rest, |rest|, stage)
    ensures b.i < |rest| && rest[b.i] < |stage.ops|
  {
  }

  lemma ShareLevelStep(b: Before, rest: seq<nat>, live0: set<nat>, nexts: seq<nat>, g: Graph, used: seq<nat>, live: set<nat>, rank: seq<nat>)
    requires b.i < |b.current| && OnlyLevel(live0, b.live, rank, b.level)
    requires Current(b.term, b.current, b.live, rank, b.level, b.full)
    requires ApartBelow(b.term, b.current, b.i)
    requires Compared(b, rest, |rest|, Stage(g, used, live, rank))
    requires b.i < |rest| && rest[b.i] < |g|
    requires nexts == Gather(b.ops, b.current, b.i) + g[rest[b.i]].outputs
    ensures LevelShared(b.term, rest, nexts, b.i + 1, live0, Stage(g, used, live, rank), b.level, b.full)
  {
    ThinnedCurrent(b, rest, live, rank);
    ThinnedApart(b, rest, live);
    forall x | 0 <= x < b.i
      ensures rest[x] == b.current[x] && b.current[x] < |g| && g[b.current[x]].outputs == b.ops[b.current[x]].outputs
    {
      assert rest[x] in live;
      assert b.current[x] != b.current[b.i];
    }
    GatherSame(b.ops, g, b.current, rest, b.i);
  }

  lemma ThinnedCurrent(b: Before, rest: seq<nat>, live: set<nat>, rank: seq<nat>)
    requires b.i < |b.current| && Current(b.term, b.current, b.live, rank, b.level, b.full)
    requires Listed(b.term, rest, live, rank, b.level)
    requires Thinned(b.current, rest, b.i, b.live, live, b.full)
    ensures Current(b.term, rest, live, rank, b.level, b.full)
    ensures forall p :: p in b.live && p !in live ==> p < |rank| && rank[p] == b.level
  {
    forall p | p in b.live && p !in live
      ensures p < |rank| && rank[p] == b.level
    {
      var y :| 0 <= y < |b.current| && b.current[y] == p;
    }
  }

  lemma ThinnedApart(b: Before, rest: seq<nat>, live: set<nat>)
    requires b.i < |b.current| && ApartBelow(b.term, b.current, b.i) && NoDup(rest)
    requires Thinned(b.current, rest, b.i, b.live, live, b.full)
    requires ApartUpTo(b.term, rest, b.i, |rest|)
    ensures ApartBelow(b.term, rest, b.i + 1)
  {
    forall x | 0 <= x < b.i
      ensures ApartUpTo(b.term, rest, x, |rest|)
    {
      assert ApartUpTo(b.term, b.current, x, |b.current|);
      forall y | x < y < |rest|
        ensures Apart(b.term, rest[x], rest[y])
      {
        ThinnedApartAt(b, rest, live, x, y);
      }
    }
  }

  /** A remaining operator after position x was listed after position x before. */
  lemma ThinnedApartAt(b: Before, rest: seq<nat>, live: set<nat>, x: nat, y: nat)
    requires x < b.i < |b.current| && ApartUpTo(b.term, b.current, x, |b.current|) && NoDup(rest)
    requires Thinned(b.current, rest, b.i, b.live, live, b.full)
    requires x < y < |rest|
    ensures Apart(b.term, rest[x], rest[y])
  {
    assert rest[y] in rest;
    var z :| 0 <= z < |b.current| && b.current[z] == rest[y];
    if z < b.i {
      assert rest[z] == b.current[z];
    }
    assert x < z;
  }

  // ---------------------------------------------------------------- the whole plan

  /** Keeps the first occurrence of everything gathered. */
  method Dedup(nexts: seq<nat>) returns (current: seq<nat>)
    ensures NoDup(current)
    ensures forall i :: i in current <==> i in nexts
  {
    current := [];
    var i := 0;
    while i < |nexts|
      invariant i <= |nexts| && NoDup(current)
      invariant forall p :: p in current <==> p in nexts[..i]
    {
      assert nexts[..i + 1] == nexts[..i] + [nexts[i]];
      if nexts[i] !in current {
        current := current + [nexts[i]];
      }
      i := i + 1;
    }
    assert nexts[..i] == nexts;
  }

  ghost predicate AtBaseLevel(term: Terms, rank: seq<nat>, p: nat, level: nat) {
    p < |rank| && rank[p] < level && p in term && FromBase(term[p])
  }

  /** No two operators of the levels below the given one, reading from base tables, are equal. */
  ghost predicate SharedBelow(term: Terms, live: set<nat>, rank: seq<nat>, level: nat) {
    forall p, q :: p in live && q in live && p != q && AtBaseLevel(term, rank, p, level) && q < |rank| && rank[q] == rank[p]
      ==> Apart(term, p, q)
  }

  /** The levels below have been shared and the list is the next one. */
  ghost predicate Progress(term: Terms, current: seq<nat>, stage: Stage, level: nat, full: bool) {
    match stage case Stage(g, used, live, rank) =>
    && Ready(term, stage)
    && Current(term, current, live, rank, level, full)
    && (full ==> SharedBelow(term, live, rank, level))
  }

  /** Progress made from plan g0, with classes that follow those it had. */
  ghost predicate ProgressFrom(term: Terms, g0: Graph, live0: set<nat>, current: seq<nat>, stage: Stage, level: nat, sharing: bool, full: bool) {
    && Progress(term, current, stage, level, full) && ClassesFollow(term, g0, live0, stage.ops, stage.live, sharing)
    && Unites(term, stage.ops, stage.live, sharing, full)
  }

  lemma NextCurrent(term: Terms, rest: seq<nat>, nexts: seq<nat>, current: seq<nat>, live0: set<nat>,
                    stage: Stage, level: nat, full: bool)
    requires LevelShared(term, rest, nexts, |rest|, live0, stage, level, full)
    requires NoDup(current) && forall i :: i in current <==> i in nexts
    ensures Current(term, current, stage.live, stage.rank, level + 1, full)
  {
    var Stage(g, used, live, rank) := stage;
    forall x | 0 <= x < |current|
      ensures current[x] in live && current[x] in term && current[x] < |rank| && rank[current[x]] == level + 1
      ensures FromBase(term[current[x]])
    {
      assert current[x] in nexts;
      var y := GatherFrom(g, rest, |rest|, current[x]);
      ReaderOfBase(term, g, live, rank, rest[y], current[x]);
    }
    if full {
      forall r | r in live && r in term && r < |rank| && rank[r] == level + 1 && FromBase(term[r])
        ensures r in current
      {
        NextLevelListed(term, rest, nexts, live0, stage, level, r);
      }
    }
  }

  lemma NextLevelListed(term: Terms, rest: seq<nat>, nexts: seq<nat>, live0: set<nat>, stage: Stage, level: nat, r: nat)
    requires LevelShared(term, rest, nexts, |rest|, live0, stage, level, true)
    requires r in stage.live && r in term && r < |stage.rank| && stage.rank[r] == level + 1 && FromBase(term[r])
    ensures r in nexts
  {
    var Stage(g, used, live, rank) := stage;
    NextLevel(term, g, live, rank, level, r);
    var p :| p in live && rank[p] == level && FromBase(term[p]) && r in g[p].outputs;
    assert p in rest;
    var x :| 0 <= x < |rest| && rest[x] == p;
    GatherIn(g, rest, |rest|, x, r);
  }

  lemma NextShared(term: Terms, rest: seq<nat>, nexts: seq<nat>, live0: set<nat>, stage: Stage, level: nat)
    requires LevelShared(term, rest, nexts, |rest|, live0, stage, level, true)
    requires SharedBelow(term, live0, stage.rank, level)
    ensures SharedBelow(term, stage.live, stage.rank, level + 1)
  {
    var Stage(g, used, live, rank) := stage;
    forall p, q | p in live && q in live && p != q && AtBaseLevel(term, rank, p, level + 1) && q < |rank| && rank[q] == rank[p]
      ensures Apart(term, p, q)
    {
      if rank[p] == level {
        LevelApart(term, rest, nexts, live0, stage, level, p, q);
      }
    }
  }

  lemma LevelApart(term: Terms, rest: seq<nat>, nexts: seq<nat>, live0: set<nat>, stage: Stage, level: nat, p: nat, q: nat)
    requires LevelShared(term, rest, nexts, |rest|, live0, stage, level, true)
    requires p in stage.live && q in stage.live && p != q && p < |stage.rank| && q < |stage.rank|
    requires stage.rank[p] == level && stage.rank[q] == level && p in term && FromBase(term[p])
    ensures Apart(term, p, q)
  {
    hide FromBase, GroupsFit, IsPlan;
    assert q in term;
    hide Ready, NoDup;
    if FromBase(term[q]) {
      assert p in rest && q in rest;
      var x :| 0 <= x < |rest| && rest[x] == p;
      var y :| 0 <= y < |rest| && rest[y] == q;
      assert ApartUpTo(term, rest, if x < y then x else y, |rest|);
      if x < y {
        assert Apart(term, rest[x], rest[y]);
      } else {
        assert Apart(term, rest[y], rest[x]);
      }
    }
  }

  /** The terms of the plan as it is. */
  ghost function TermsOf(g: Graph, live: set<nat>, rank: seq<nat>): (term: Terms)
    requires Wf(g, live, rank)
    ensures Faithful(term, g, live, rank) && term.Keys == live
  {
    map i | i in live :: Unfold(g, live, rank, i)
  }

  /** A bound on the levels. */
  ghost function Top(rank: seq<nat>): nat {
    if rank == [] then 0
    else
      var t := Top(rank[..|rank| - 1]);
      var r := rank[|rank| - 1];
      if r > t then r else t
  }

  lemma {:induction false} TopBounds(rank: seq<nat>, i: nat)
    requires i < |rank|
    ensures rank[i] <= Top(rank)
  {
    if i < |rank| - 1 {
      TopBounds(rank[..|rank| - 1], i);
    }
  }

  /** What finding shared operators leaves. */
  ghost predicate Shared(g: Graph, live: set<nat>, g2: Graph, live2: set<nat>, rank: seq<nat>, sharing: bool)
    requires Wf(g, live, rank) && Wf(g2, live2, rank)
  {
    // nothing appears, and what remains unfolds as it did
    && live2 <= live
    && (forall i {:trigger Unfold(g2, live2, rank, i)} :: i in live2 ==> Unfold(g2, live2, rank, i) == Unfold(g, live, rank, i))
    // what disappears is represented by an equal operator
    && (forall i {:trigger Unfold(g, live, rank, i)} :: i in live ==> Stands(g, live, live2, rank, Unfold(g, live, rank, i)))
    // the class of what remains is the most urgent of those it stands for; its own if classes may not share
    && ClassesFollow(TermsOf(g, live, rank), g, live, g2, live2, sharing)
    // if classes may share, or equal operators are in one class, no two operators that read from base tables are equal
    && (sharing || OneClass(TermsOf(g, live, rank), g, live) ==> Different(g2, live2, rank))
  }

  /** Some operator of live2 unfolded to the given term in g. */
  ghost predicate Stands(g: Graph, live: set<nat>, live2: set<nat>, rank: seq<nat>, t: Term)
    requires Wf(g, live, rank) && live2 <= live
  {
    exists j :: j in live2 && Unfold(g, live, rank, j) == t
  }

  /** Sharing leaves no two equal operators exactly if classes may share, or equal operators were in one class. */
  lemma DifferentExactly(g: Graph, live: set<nat>, g2: Graph, live2: set<nat>, rank: seq<nat>, sharing: bool)
    requires Wf(g, live, rank) && Wf(g2, live2, rank) && Shared(g, live, g2, live2, rank, sharing)
    ensures Different(g2, live2, rank) <==> sharing || OneClass(TermsOf(g, live, rank), g, live)
  {
    hide ClassesFollow, Stands, FromBase;
    var term := TermsOf(g, live, rank);
    if Different(g2, live2, rank) && !sharing {
      forall i, j | i in live && j in live && term[i] == term[j] && FromBase(term[i])
        ensures g[i].queryClass == g[j].queryClass
      {
        var k := FollowedSame(term, g, live, g2, live2, i);
        var m := FollowedSame(term, g, live, g2, live2, j);
        assert Unfold(g2, live2, rank, k) == Unfold(g2, live2, rank, m);
      }
    }
  }

  lemma FollowedSame(term: Terms, g: Graph, live: set<nat>, g2: Graph, live2: set<nat>, i: nat) returns (k: nat)
    requires ClassesFollow(term, g, live, g2, live2, false) && i in live && i < |g| && i in term
    ensures k in live2 && k < |g2| && k in term && term[k] == term[i] && g2[k].queryClass == g[i].queryClass
  {
    assert HasUrgent(term, g2, live2, term[i], g[i].queryClass, false);
    k :| k in live2 && k < |g2| && k in term && term[k] == term[i] && g2[k].queryClass == g[i].queryClass;
  }

  lemma FollowedUrgent(term: Terms, g: Graph, live: set<nat>, g2: Graph, live2: set<nat>, i: nat) returns (k: nat)
    requires ClassesFollow(term, g, live, g2, live2, true) && i in live && i < |g| && i in term
    ensures k in live2 && k < |g2| && k in term && term[k] == term[i] && g2[k].queryClass <= g[i].queryClass
  {
    assert HasUrgent(term, g2, live2, term[i], g[i].queryClass, true);
    k :| k in live2 && k < |g2| && k in term && term[k] == term[i] && g2[k].queryClass <= g[i].queryClass;
  }

  lemma FollowedClass(term: Terms, g: Graph, live: set<nat>, g2: Graph, live2: set<nat>, j: nat) returns (i: nat)
    requires ClassesFollow(term, g, live, g2, live2, true) && j in live2 && j < |g2| && j in term
    ensures i in live && i < |g| && i in term && term[i] == term[j] && g[i].queryClass == g2[j].queryClass
  {
    assert HasClass(term, g, live, term[j], g2[j].queryClass);
    i :| i in live && i < |g| && i in term && term[i] == term[j] && g[i].queryClass == g2[j].queryClass;
  }

  /**
   If classes may share, what remains of equal operators that read from base tables has the most
   urgent of their classes: it is as urgent as operator i, and one of them has its class.
   */
  lemma SurvivorUrgent(g: Graph, live: set<nat>, g2: Graph, live2: set<nat>, rank: seq<nat>, j: nat, i: nat) returns (k: nat)
    requires Wf(g, live, rank) && Wf(g2, live2, rank) && Shared(g, live, g2, live2, rank, true)
    requires j in live2 && FromBase(Unfold(g2, live2, rank, j))
    requires i in live && Unfold(g, live, rank, i) == Unfold(g, live, rank, j)
    ensures g2[j].queryClass <= g[i].queryClass
    ensures k in live && Unfold(g, live, rank, k) == Unfold(g, live, rank, j) && g[k].queryClass == g2[j].queryClass
  {
    hide ClassesFollow, Stands, FromBase;
    var term := TermsOf(g, live, rank);
    var m := FollowedUrgent(term, g, live, g2, live2, i);
    assert Unfold(g2, live2, rank, m) == Unfold(g2, live2, rank, j);
    k := FollowedClass(term, g, live, g2, live2, j);
  }

  /** The plan is levelled, its list begins and ends with operators that stay, and merged readers fit. */
  ghost predicate Sharable(g: Graph, used: seq<nat>, live: set<nat>, rank: seq<nat>) {
    && IsPlan(g, live, rank)
    && Levelled(g, live, rank)
    && used != [] && used[0] in live && used[|used| - 1] in live
    && Unshareable(g[used[0]].payload) && Unshareable(g[used[|used| - 1]].payload)
    && GroupsFit(TermsOf(g, live, rank), g, used)
  }

  /**
   Finds and merges equal operators level by level, starting from the base tables, in no more rounds
   than the plan has levels.
   */
  method FindSharedOps(pm: PlanManager, sharing: bool) returns (rounds: nat)
    requires pm.PoolValid() && Sharable(pm.ops[..], pm.used, pm.live, pm.rank)
    modifies pm`usedOps, pm`used, pm`live, pm`gone, pm.next, pm.prev, pm.ops
    ensures pm.Valid()
    ensures Shared(old(pm.ops[..]), old(pm.live), pm.ops[..], pm.live, pm.rank, sharing)
    ensures rounds <= Top(pm.rank) + 1
  {
    hide Faithful, Ready, Current, Progress, ClassesFollow, TermsOf, Top, Stands, FromBase, Unites, OneClass, IsTable, NoDup;
    ghost var g, live := pm.ops[..], pm.live;
    ghost var term := TermsOf(g, live, pm.rank);
    ghost var full := sharing || OneClass(term, g, live);
    hide Sharable, ProgressFrom, Shared, IsPlan;
    var current := CollectSources(pm);
    SourcesCurrent(term, current, StageOf(pm), sharing, full);
    rounds := 0;
    while current != []
      invariant pm.PoolValid() && ProgressFrom(term, g, live, current, StageOf(pm), rounds, sharing, full)
      invariant rounds <= Top(pm.rank) + 1
      decreases Top(pm.rank) + 1 - rounds
    {
      current := ShareRound(pm, current, sharing, term, rounds, g, live, full);
      rounds := rounds + 1;
    }
    SharedAtEnd(term, g, live, StageOf(pm), rounds, sharing, full);
  }

  /** One level shared; classes still follow those of the plan g0. */
  method ShareRound(pm: PlanManager, current: seq<nat>, sharing: bool, ghost term: Terms, ghost level: nat,
                    ghost g0: Graph, ghost live0: set<nat>, ghost full: bool) returns (following: seq<nat>)
    requires pm.PoolValid() && ProgressFrom(term, g0, live0, current, StageOf(pm), level, sharing, full) && current != []
    modifies pm`usedOps, pm`used, pm`live, pm`gone, pm.next, pm.prev, pm.ops
    ensures pm.PoolValid() && level <= Top(pm.rank)
    ensures ProgressFrom(term, g0, live0, following, StageOf(pm), level + 1, sharing, full)
  {
    hide ClassesFollow, Unites;
    ghost var g, live := pm.ops[..], pm.live;
    LevelExists(term, current, StageOf(pm), level, full);
    var nexts;
    ghost var rest;
    nexts, rest := ShareLevel(pm, current, sharing, term, level, full);
    ClassesTrans(term, g0, live0, g, live, pm.ops[..], pm.live, sharing);
    UnitesKept(term, g, live, pm.ops[..], pm.live, sharing, full);
    following := Dedup(nexts);
    NextCurrent(term, rest, nexts, following, live, StageOf(pm), level, full);
    if full {
      NextShared(term, rest, nexts, live, StageOf(pm), level);
    }
  }

  lemma SourcesCurrent(term: Terms, current: seq<nat>, stage: Stage, sharing: bool, full: bool)
    requires Sharable(stage.ops, stage.used, stage.live, stage.rank)
    requires NoDup(stage.used) && Lists(stage.used, stage.live)
    requires term == TermsOf(stage.ops, stage.live, stage.rank)
    requires NoDup(current)
    requires forall i :: i in current <==> i in stage.live && IsTable(stage.ops, i)
    requires full ==> sharing || OneClass(term, stage.ops, stage.live)
    ensures ProgressFrom(term, stage.ops, stage.live, current, stage, 0, sharing, full)
  {
    hide ClassesFollow;
    var Stage(g, used, live, rank) := stage;
    ClassesStart(term, g, live, sharing);
    forall x | 0 <= x < |current|
      ensures current[x] in live && current[x] in term && rank[current[x]] == 0 && FromBase(term[current[x]])
    {
      assert current[x] in current;
      SourceLevel(g, live, rank, current[x]);
    }
    forall p | p in live && rank[p] == 0 && FromBase(term[p])
      ensures p in current
    {
      SourceLevel(g, live, rank, p);
    }
    forall i | i in term
      ensures HasEqual(term, live, term[i])
    {
    }
  }

  /** The operators of the lowest level that read from base tables are the base tables. */
  lemma SourceLevel(g: Graph, live: set<nat>, rank: seq<nat>, p: nat)
    requires IsPlan(g, live, rank) && Levelled(g, live, rank) && p in live
    ensures IsTable(g, p) ==> rank[p] == 0 && FromBase(Unfold(g, live, rank, p))
    ensures rank[p] == 0 && FromBase(Unfold(g, live, rank, p)) ==> IsTable(g, p)
  {
    assert Typed(g, live, p);
  }

  predicate IsTable(g: Graph, i: nat) {
    i < |g| && (g[i].payload.StreamSource? || g[i].payload.RelnSource?)
  }

  lemma LevelExists(term: Terms, current: seq<nat>, stage: Stage, level: nat, full: bool)
    requires Progress(term, current, stage, level, full) && current != []
    ensures level <= Top(stage.rank)
  {
    TopBounds(stage.rank, current[0]);
  }

  /** If a level holds no operator that reads from base tables, no higher level does. */
  lemma {:induction false} NoneAbove(term: Terms, stage: Stage, level: nat, r: nat)
    requires Progress(term, [], stage, level, true)
    requires r in stage.live && r < |stage.rank| && stage.rank[r] >= level
    ensures r in term && !FromBase(term[r])
    decreases stage.rank[r]
  {
    var Stage(g, used, live, rank) := stage;
    if FromBase(term[r]) && rank[r] > level {
      NextLevel(term, g, live, rank, rank[r] - 1, r);
      var p :| p in live && rank[p] == rank[r] - 1 && FromBase(term[p]);
      NoneAbove(term, stage, level, p);
    }
  }

  lemma SharedAtEnd(term: Terms, g: Graph, live: set<nat>, stage: Stage, level: nat, sharing: bool, full: bool)
    requires Wf(g, live, stage.rank) && term == TermsOf(g, live, stage.rank)
    requires ProgressFrom(term, g, live, [], stage, level, sharing, full) && full == (sharing || OneClass(term, g, live))
    ensures IsPlan(stage.ops, stage.live, stage.rank)
    ensures Shared(g, live, stage.ops, stage.live, stage.rank, sharing)
  {
    hide ClassesFollow, OneClass;
    var rank := stage.rank;
    assert stage.live <= live;
    forall i | i in stage.live
      ensures Unfold(stage.ops, stage.live, rank, i) == Unfold(g, live, rank, i)
    {
      assert term[i] == Unfold(g, live, rank, i);
    }
    forall i | i in live
      ensures Stands(g, live, stage.live, rank, Unfold(g, live, rank, i))
    {
      assert i in term && term[i] == Unfold(g, live, rank, i);
      assert HasEqual(term, stage.live, term[i]);
      var j :| j in stage.live && j in term && term[j] == term[i];
      assert term[j] == Unfold(g, live, rank, j);
    }
    if full {
      forall i, j | i in stage.live && j in stage.live && i != j && FromBase(Unfold(stage.ops, stage.live, rank, i))
        ensures Unfold(stage.ops, stage.live, rank, i) != Unfold(stage.ops, stage.live, rank, j)
      {
        DifferentAtEnd(term, stage, level, i, j);
      }
    }
  }

  lemma BelowApart(term: Terms, stage: Stage, level: nat, i: nat, j: nat)
    requires SharedBelow(term, stage.live, stage.rank, level)
    requires i in stage.live && j in stage.live && i != j && AtBaseLevel(term, stage.rank, i, level)
    requires j < |stage.rank| && stage.rank[j] == stage.rank[i]
    ensures Apart(term, i, j)
  {
  }

  lemma DifferentAtEnd(term: Terms, stage: Stage, level: nat, i: nat, j: nat)
    requires Progress(term, [], stage, level, true)
    requires Wf(stage.ops, stage.live, stage.rank)
    requires i in stage.live && j in stage.live && i != j
    requires FromBase(Unfold(stage.ops, stage.live, stage.rank, i))
    ensures Unfold(stage.ops, stage.live, stage.rank, i) != Unfold(stage.ops, stage.live, stage.rank, j)
  {
    var Stage(g, used, live, rank) := stage;
    if Unfold(g, live, rank, i) == Unfold(g, live, rank, j) {
      EqualRank(g, live, rank, i, j);
      if rank[i] >= level {
        NoneAbove(term, stage, level, i);
      } else {
        BelowApart(term, stage, level, i, j);
      }
    }
  }
}
