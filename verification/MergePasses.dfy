/** The passes of the optimizer that walk the list of used operators and fold operators away. */
module MergePasses {
  import opened Common
  import opened PhysicalPlan
  import opened Rewire
  import opened Surgery
  import opened Manager
  import opened Absorb
  import opened Feeding
  import opened ProjectOrigins

  /** Operator a of g, whose work b has taken over, is cut out of the links. */
  lemma CutTookOver(g: Graph, g1: Graph, g2: Graph, live: set<nat>, a: nat, b: nat)
    requires (forall i :: i in live ==> i < |g|) && a in live && b in live && a != b
    requires CanAbsorb(g[b].payload, g[a].payload) && g[a].inputs == [b]
    requires g1 == g[b := g[b].(payload := Absorbed(g[b].payload, g[a].payload), attrs := g[a].attrs)]
    requires g[a].payload.QuerySource? || forall j :: j in live - {a} ==> b !in g[j].inputs
    requires ShortCircuited(g1, g2, live, a, b)
    ensures TookOver(g, g2, live, a, b)
  {
    forall i, x | i in live && i != a
      ensures Occ(g2[i].outputs, x) == Readings(g, a, b, i, x)
    {
      assert Readings(g1, a, b, i, x) == Readings(g, a, b, i, x);
    }
  }

  /** Changing what an operator does leaves the links as they are. */
  lemma SameLinks(g: Graph, g1: Graph, live: set<nat>, rank: seq<nat>, b: nat, p: Payload, attrs: seq<Column>)
    requires Wf(g, live, rank) && EdgesAgree(g, live) && FanOutFits(g, live) && b in live
    requires g1 == g[b := g[b].(payload := p, attrs := attrs)]
    ensures Wf(g1, live, rank) && EdgesAgree(g1, live) && FanOutFits(g1, live)
  {
    forall i, r | i in live && r in g1[i].outputs
      ensures r in live
    {
      assert r in g[i].outputs;
    }
    forall p, c | p in live && c in live
      ensures Occ(g1[c].inputs, p) == Occ(g1[p].outputs, c)
    {
      assert Occ(g[c].inputs, p) == Occ(g[p].outputs, c);
    }
  }

  /** An operator with one reader has no other. */
  lemma SoleReader(g: Graph, live: set<nat>, rank: seq<nat>, a: nat, b: nat)
    requires Wf(g, live, rank) && EdgesAgree(g, live) && a in live && b in g[a].inputs && |g[b].outputs| <= 1
    ensures b in live && g[b].outputs == [a]
    ensures forall j :: j in live - {a} ==> b !in g[j].inputs
  {
    InputReads(g, live, rank, a, b);
    forall j | j in live - {a}
      ensures b !in g[j].inputs
    {
      if b in g[j].inputs {
        InputReads(g, live, rank, j, b);
      }
    }
  }

  /** Operator op is used[k], its input has already taken over its work, and nothing else differs from g. */
  ghost predicate HandedOver(pm: PlanManager, g: Graph, op: nat, k: nat)
    reads pm, pm.ops
  {
    && IsPlan(g, pm.live, pm.rank) && |g| == pm.ops.Length
    && op in pm.live && k < |pm.used| && pm.used[k] == op
    && |g[op].inputs| == 1 && g[op].inputs[0] in pm.live
    && CanAbsorb(g[g[op].inputs[0]].payload, g[op].payload)
    && pm.ops[..] == g[g[op].inputs[0] := g[g[op].inputs[0]].(
                         payload := Absorbed(g[g[op].inputs[0]].payload, g[op].payload), attrs := g[op].attrs)]
    && (g[op].payload.QuerySource? || |g[g[op].inputs[0]].outputs| == 1)
  }

  /** What cutting the operator out leaves. */
  ghost predicate CutOut(g: Graph, live: set<nat>, g2: Graph, rank: seq<nat>, op: nat)
    requires Wf(g, live, rank) && op in live && |g[op].inputs| == 1
  {
    var b := g[op].inputs[0];
    && b in live
    && TookOver(g, g2, live, op, b)
    && IsPlan(g2, live - {op}, rank)
    && Keeps(g, live, g2, live - {op})
    && |g2[b].outputs| == |g[b].outputs| + |g[op].outputs| - 1
    && forall i :: i in live && i != b ==> g2[i].outputs == g[i].outputs
  }

  /** Cuts an operator out once its input has taken over, and returns it to the pool. */
  method CutAway(pm: PlanManager, op: nat, ghost g: Graph, ghost k: nat) returns (rc: int)
    requires pm.PoolValid() && HandedOver(pm, g, op, k)
    modifies pm`usedOps, pm`freeOps, pm`used, pm`live, pm`free, pm.next, pm.prev, pm.ops
    ensures rc == 0 || rc == -1
    ensures rc == 0 <==> RoomFor(g[g[op].inputs[0]], g[op])
    ensures rc == 0 ==> pm.PoolValid() && pm.used == Without(old(pm.used), k) && pm.live == old(pm.live) - {op}
    ensures rc == 0 ==> pm.free == [op] + old(pm.free)
    ensures rc == 0 ==> CutOut(g, old(pm.live), pm.ops[..], pm.rank, op)
  {
    ghost var b, live, g1 := g[op].inputs[0], pm.live, pm.ops[..];
    BeforeCut(g, g1, live, pm.rank, op, b);
    rc := ShortCircuitInputOutput(pm, op, live, pm.rank);
    if rc == 0 {
      AfterCut(g, g1, pm.ops[..], live, pm.rank, op, b);
      pm.FreeOp(op, k);
    }
  }

  lemma BeforeCut(g: Graph, g1: Graph, live: set<nat>, rank: seq<nat>, a: nat, b: nat)
    requires IsPlan(g, live, rank) && a in live && g[a].inputs == [b] && b in live
    requires CanAbsorb(g[b].payload, g[a].payload)
    requires g1 == g[b := g[b].(payload := Absorbed(g[b].payload, g[a].payload), attrs := g[a].attrs)]
    ensures Wf(g1, live, rank) && EdgesAgree(g1, live) && FanOutFits(g1, live) && a != b
    ensures g1[a] == g[a]
  {
    assert rank[g[a].inputs[0]] < rank[a];
    SameLinks(g, g1, live, rank, b, g1[b].payload, g1[b].attrs);
  }

  lemma AfterCut(g: Graph, g1: Graph, g2: Graph, live: set<nat>, rank: seq<nat>, a: nat, b: nat)
    requires IsPlan(g, live, rank) && a in live && g[a].inputs == [b] && b in live && a != b
    requires CanAbsorb(g[b].payload, g[a].payload)
    requires g1 == g[b := g[b].(payload := Absorbed(g[b].payload, g[a].payload), attrs := g[a].attrs)]
    requires g[a].payload.QuerySource? || |g[b].outputs| == 1
    requires ShortCircuited(g1, g2, live, a, b) && RoomFor(g[b], g[a])
    ensures CutOut(g, live, g2, rank, a)
  {
    if !g[a].payload.QuerySource? {
      SoleReader(g, live, rank, a, b);
    }
    CutTookOver(g, g1, g2, live, a, b);
    TookOverPlan(g, g2, live, rank, a, b);
  }

  /** One more operator folded away. */
  method FoldAway(pm: PlanManager, op: nat, ghost g0: Graph, ghost live0: set<nat>, ghost g: Graph, ghost k: nat)
    returns (rc: int)
    requires pm.PoolValid() && HandedOver(pm, g, op, k)
    requires Wf(g0, live0, pm.rank) && PassKeeps(g0, live0, g, pm.live, pm.rank)
    modifies pm`usedOps, pm`freeOps, pm`used, pm`live, pm`free, pm.next, pm.prev, pm.ops
    ensures rc == 0 <==> RoomFor(g[g[op].inputs[0]], g[op])
    ensures rc == 0 ==> pm.Valid() && pm.used == Without(old(pm.used), k) && pm.live == old(pm.live) - {op}
    ensures rc == 0 ==> pm.free == [op] + old(pm.free)
    ensures rc == 0 ==> PassKeeps(g0, live0, pm.ops[..], pm.live, pm.rank)
    ensures rc == 0 ==> CutOut(g, old(pm.live), pm.ops[..], pm.rank, op)
  {
    ghost var live := pm.live;
    rc := CutAway(pm, op, g, k);
    if rc == 0 {
      PassStep(g0, live0, g, live, pm.ops[..], pm.rank, op, g[op].inputs[0]);
    }
  }

  /** Every operator comes before its inputs in the list of used operators. */
  ghost predicate Ordered(g: Graph, used: seq<nat>) {
    (forall k :: 0 <= k < |used| ==> used[k] < |g|) &&
    forall j, k :: 0 <= j < |used| && 0 <= k < |used| && used[k] in g[used[j]].inputs ==> j < k
  }

  /** Cutting an operator out keeps operators before their inputs. */
  lemma CutOrdered(g: Graph, live: set<nat>, g2: Graph, rank: seq<nat>, used: seq<nat>, c: nat)
    requires Wf(g, live, rank) && Lists(used, live) && NoDup(used) && Ordered(g, used)
    requires c < |used| && used[c] in live && |g[used[c]].inputs| == 1 && CutOut(g, live, g2, rank, used[c])
    ensures Ordered(g2, Without(used, c))
  {
    var r := Without(used, c);
    forall j, k | 0 <= j < |r| && 0 <= k < |r| && r[k] in g2[r[j]].inputs
      ensures j < k
    {
      CutOrderedAt(g, live, g2, rank, used, c, j, k);
    }
    forall k | 0 <= k < |r|
      ensures r[k] < |g2|
    {
      assert r[k] == used[if k < c then k else k + 1];
    }
  }

  lemma CutOrderedAt(g: Graph, live: set<nat>, g2: Graph, rank: seq<nat>, used: seq<nat>, c: nat, j: nat, k: nat)
    requires Wf(g, live, rank) && Lists(used, live) && NoDup(used) && Ordered(g, used)
    requires c < |used| && used[c] in live && |g[used[c]].inputs| == 1 && CutOut(g, live, g2, rank, used[c])
    requires j < |used| - 1 && k < |used| - 1
    requires Without(used, c)[j] < |g2| && Without(used, c)[k] in g2[Without(used, c)[j]].inputs
    ensures j < k
  {
    var a, b := used[c], g[used[c]].inputs[0];
    var j0, k0 := if j < c then j else j + 1, if k < c then k else k + 1;
    var r, p := used[j0], used[k0];
    assert Without(used, c)[j] == r && Without(used, c)[k] == p;
    ListsAt(used, live, j0);
    assert r != a && g2[r].inputs == Redirect(g[r].inputs, a, b);
    var x :| 0 <= x < |g[r].inputs| && g2[r].inputs[x] == p;
    if g[r].inputs[x] == a {
      assert used[c] in g[used[j0]].inputs && p == b && used[k0] in g[used[c]].inputs;
      assert j0 < c < k0;
    } else {
      assert used[k0] in g[used[j0]].inputs;
    }
  }

  /** The k-th element of a list as a pointer, or the null pointer at its end. */
  function At0(s: seq<nat>, k: nat): Ptr {
    if k < |s| then At(s[k]) else Null
  }

  lemma NextInList(next: seq<Ptr>, prev: seq<Ptr>, head: Ptr, s: seq<nat>, k: nat)
    requires IsList(next, prev, head, s) && k < |s|
    ensures s[k] < |next| && next[s[k]] == At0(s, k + 1)
  {
  }

  /** Of the operators before position k of the used list none satisfies the predicate. */
  ghost predicate NoneBefore(g: Graph, used: seq<nat>, k: nat, bad: (Graph, nat) -> bool) {
    k <= |used| && forall m :: 0 <= m < k ==> !bad(g, used[m])
  }

  lemma NoneLive(g: Graph, used: seq<nat>, live: set<nat>, bad: (Graph, nat) -> bool)
    requires Lists(used, live) && NoneBefore(g, used, |used|, bad)
    ensures forall i :: i in live ==> !bad(g, i)
  {
    forall i | i in live
      ensures !bad(g, i)
    {
      var m := ListsIndex(used, live, i);
    }
  }

  /** Cutting out used[k] leaves what holds of the operators before it in place. */
  lemma NoneBeforeCut(g: Graph, g2: Graph, used: seq<nat>, live: set<nat>, k: nat, bad: (Graph, nat) -> bool)
    requires NoneBefore(g, used, k, bad) && k < |used| && Lists(used, live) && NoDup(used)
    requires forall i :: i in live && i != used[k] && !bad(g, i) ==> !bad(g2, i)
    ensures NoneBefore(g2, Without(used, k), k, bad)
  {
    forall m | 0 <= m < k
      ensures !bad(g2, Without(used, k)[m])
    {
      ListsAt(used, live, m);
    }
  }

  // ---------------------------------------------------------------- operators with too many readers

  /** An operator to be folded away has all the readers a record has room for: then folding it fails. */
  ghost predicate Crowded(g: Graph, i: nat, bad: (Graph, nat) -> bool) {
    bad(g, i) && i < |g| && |g[i].outputs| >= MAX_OUT_BRANCHING
  }

  /** The same operators are crowded as at the start, and none of them has disappeared. */
  ghost predicate SameCrowds(g0: Graph, live0: set<nat>, g: Graph, live: set<nat>, bad: (Graph, nat) -> bool) {
    && live <= live0
    && (forall i {:trigger Crowded(g, i, bad)} :: i in live ==> (Crowded(g, i, bad) <==> Crowded(g0, i, bad)))
    && (forall i {:trigger Crowded(g0, i, bad)} :: i in live0 && i !in live ==> !Crowded(g0, i, bad))
  }

  /** No operator that the pass could fold away is crowded. */
  ghost predicate NoCrowd(g: Graph, live: set<nat>, bad: (Graph, nat) -> bool) {
    forall i {:trigger Crowded(g, i, bad)} :: i in live ==> !Crowded(g, i, bad)
  }

  lemma CrowdsStart(g: Graph, live: set<nat>, bad: (Graph, nat) -> bool)
    ensures SameCrowds(g, live, g, live, bad)
  {
  }

  lemma CrowdsCut(g0: Graph, live0: set<nat>, g: Graph, live: set<nat>, g2: Graph, a: nat, bad: (Graph, nat) -> bool)
    requires SameCrowds(g0, live0, g, live, bad) && a in live && !Crowded(g, a, bad)
    requires forall i :: i in live && i != a ==> (Crowded(g2, i, bad) <==> Crowded(g, i, bad))
    ensures SameCrowds(g0, live0, g2, live - {a}, bad)
  {
  }

  lemma CrowdsEnd(g0: Graph, live0: set<nat>, g: Graph, live: set<nat>, bad: (Graph, nat) -> bool)
    requires SameCrowds(g0, live0, g, live, bad) && forall i :: i in live ==> !bad(g, i)
    ensures NoCrowd(g0, live0, bad)
  {
    forall i | i in live0
      ensures !Crowded(g0, i, bad)
    {
      assert i in live ==> !Crowded(g, i, bad);
    }
  }

  lemma CrowdMet(g0: Graph, live0: set<nat>, g: Graph, live: set<nat>, a: nat, bad: (Graph, nat) -> bool)
    requires SameCrowds(g0, live0, g, live, bad) && a in live && Crowded(g, a, bad)
    ensures !NoCrowd(g0, live0, bad)
  {
    assert Crowded(g0, a, bad);
  }

  // ---------------------------------------------------------------- operators nobody reads

  /** An operator whose output nobody consumes although somebody should. */
  predicate Unread(g: Graph, i: nat) {
    i < |g| && g[i].outputs == [] && !g[i].payload.Output? && !g[i].payload.SsGen?
  }

  ghost function Unreads(g: Graph, ops: seq<nat>): set<nat> {
    set i | i in ops && Unread(g, i)
  }

  /** Cutting out a query source leaves at most as many unread operators as there were. */
  lemma SourceUnreads(g: Graph, live: set<nat>, g2: Graph, rank: seq<nat>, used: seq<nat>, k: nat)
    requires IsPlan(g, live, rank) && Lists(used, live) && NoDup(used)
    requires k < |used| && used[k] in live && |g[used[k]].inputs| == 1 && CutOut(g, live, g2, rank, used[k])
    requires IsQuerySource(g, used[k])
    ensures |Unreads(g2, Without(used, k))| <= |Unreads(g, used)|
  {
    hide AllTyped, EdgesAgree;
    var a, b := used[k], g[used[k]].inputs[0];
    var before, after := Unreads(g, used), Unreads(g2, Without(used, k));
    WithoutIn(used, k);
    InputReads(g, live, rank, a, b);
    forall i | i in after && i != b
      ensures i in before - {a}
    {
      assert i in live && SameOp(g[i], g2[i]);
    }
    if b in after {
      assert a in used && a in before;
      assert after <= before - {a} + {b};
      AtMost(after, before - {a} + {b});
    } else {
      assert after <= before;
      AtMost(after, before);
    }
  }

  lemma {:induction false} AtMost(s: set<nat>, t: set<nat>)
    requires s <= t
    ensures |s| <= |t|
  {
    if s != {} {
      var x :| x in s;
      AtMost(s - {x}, t - {x});
    }
  }

  // ---------------------------------------------------------------- query sources

  predicate IsQuerySource(g: Graph, i: nat) {
    i < |g| && g[i].payload.QuerySource?
  }

  lemma QuerySourceHandsOver(g: Graph, live: set<nat>, rank: seq<nat>, a: nat)
    requires IsPlan(g, live, rank) && a in live && IsQuerySource(g, a)
    ensures |g[a].inputs| == 1 && g[a].inputs[0] in live
    ensures g == g[g[a].inputs[0] := g[g[a].inputs[0]].(
                payload := Absorbed(g[g[a].inputs[0]].payload, g[a].payload), attrs := g[a].attrs)]
  {
    assert Typed(g, live, a);
    assert InputSchemas(g, g[a].inputs)[0] == g[g[a].inputs[0]].attrs;
  }

  /** Nothing but query sources has disappeared, and nothing else was given other work. */
  ghost predicate OnlySourcesGone(g: Graph, live: set<nat>, g2: Graph, live2: set<nat>)
    requires forall i :: i in live ==> i < |g|
  {
    && live2 <= live && |g2| == |g|
    && (forall i :: i in live && !IsQuerySource(g, i) ==> i in live2)
    && (forall i :: i in live2 ==> SameOp(g[i], g2[i]))
  }

  // ---------------------------------------------------------------- when removing them succeeds

  /**
   How many readers operator i has once the query sources among the first k listed operators are
   removed: one reader less for each that read i, and the readers that it had by then.
   */
  ghost function ReadersAfter(g: Graph, used: seq<nat>, k: nat, i: nat): int
    requires k <= |used|
  {
    if k == 0 then if i < |g| then |g[i].outputs| else 0
    else
      var n, a := ReadersAfter(g, used, k - 1, i), used[k - 1];
      if IsQuerySource(g, a) && g[a].inputs == [i] then n + ReadersAfter(g, used, k - 1, a) - 1 else n
  }

  /** The readers of the k-th listed operator, if that is a query source, fit beside those of its input. */
  ghost predicate SourceFits(g: Graph, used: seq<nat>, k: nat)
    requires k < |used|
  {
    IsQuerySource(g, used[k]) && |g[used[k]].inputs| == 1 ==>
      || ReadersAfter(g, used, k, used[k]) == 0
      || ReadersAfter(g, used, k, g[used[k]].inputs[0]) + ReadersAfter(g, used, k, used[k]) <= MAX_OUT_BRANCHING
  }

  ghost predicate AllSourcesFit(g: Graph, used: seq<nat>) {
    forall k :: 0 <= k < |used| ==> SourceFits(g, used, k)
  }

  /** Operators from position j of the first list on have not been looked at, and have the readers foreseen. */
  ghost predicate Foreseen(g0: Graph, used0: seq<nat>, j: nat, g: Graph, used: seq<nat>, k: nat) {
    && j <= |used0| && k <= |used| && used[k..] == used0[j..]
    && (forall m :: 0 <= m < j ==> SourceFits(g0, used0, m))
    && forall m :: j <= m < |used0| ==> AsForeseen(g0, used0, j, g, used0[m])
  }

  ghost predicate AsForeseen(g0: Graph, used0: seq<nat>, j: nat, g: Graph, i: nat)
    requires j <= |used0|
  {
    && i < |g0| && i < |g| && g[i].payload == g0[i].payload && g[i].inputs == g0[i].inputs
    && |g[i].outputs| == ReadersAfter(g0, used0, j, i)
  }

  lemma ForeseenStart(g: Graph, used: seq<nat>)
    requires forall k :: 0 <= k < |used| ==> used[k] < |g|
    ensures Foreseen(g, used, 0, g, used, 0)
  {
  }

  lemma ForeseenEnd(g0: Graph, used0: seq<nat>, j: nat, g: Graph, used: seq<nat>, k: nat)
    requires Foreseen(g0, used0, j, g, used, k) && k == |used|
    ensures AllSourcesFit(g0, used0)
  {
    assert |used0[j..]| == |used[k..]| == 0;
  }

  lemma ForeseenAt(g0: Graph, used0: seq<nat>, j: nat, g: Graph, used: seq<nat>, k: nat)
    requires Foreseen(g0, used0, j, g, used, k) && k < |used|
    ensures j < |used0| && used0[j] == used[k] && AsForeseen(g0, used0, j, g, used[k])
  {
    assert used[k..][0] == used0[j..][0];
  }

  /** An operator that is no query source is passed over. */
  lemma ForeseenNext(g0: Graph, used0: seq<nat>, j: nat, g: Graph, used: seq<nat>, k: nat)
    requires Foreseen(g0, used0, j, g, used, k) && k < |used| && !IsQuerySource(g, used[k])
    ensures Foreseen(g0, used0, j + 1, g, used, k + 1)
  {
    ForeseenAt(g0, used0, j, g, used, k);
    assert used[k + 1..] == used[k..][1..] && used0[j + 1..] == used0[j..][1..];
    forall m | j + 1 <= m < |used0|
      ensures AsForeseen(g0, used0, j + 1, g, used0[m])
    {
      assert AsForeseen(g0, used0, j, g, used0[m]);
    }
  }

  /** There is room for the readers of a query source exactly if it was foreseen. */
  lemma ForeseenRoom(g0: Graph, used0: seq<nat>, j: nat, g: Graph, live: set<nat>, rank: seq<nat>, used: seq<nat>, k: nat)
    requires Foreseen(g0, used0, j, g, used, k) && k < |used| && IsQuerySource(g, used[k])
    requires IsPlan(g, live, rank) && Lists(used, live) && Ordered(g, used) && NoDup(used)
    ensures j < |used0| && used[k] in live && |g[used[k]].inputs| == 1
    ensures SourceFits(g0, used0, j) <==> RoomFor(g[g[used[k]].inputs[0]], g[used[k]])
    ensures AsForeseen(g0, used0, j, g, g[used[k]].inputs[0])
  {
    ForeseenAt(g0, used0, j, g, used, k);
    ListsAt(used, live, k);
    var a := used[k];
    assert Typed(g, live, a);
    var b := g[a].inputs[0];
    assert b in g[a].inputs && b in live;
    var m := ListsIndex(used, live, b);
    assert k < m && used[k..][m - k] == b;
    assert AsForeseen(g0, used0, j, g, used0[j + (m - k)]);
  }

  /** Removing a query source leaves the readers foreseen. */
  lemma ForeseenCut(g0: Graph, used0: seq<nat>, j: nat, g: Graph, live: set<nat>, g2: Graph, rank: seq<nat>, used: seq<nat>, k: nat)
    requires Foreseen(g0, used0, j, g, used, k) && k < |used| && IsQuerySource(g, used[k])
    requires IsPlan(g, live, rank) && Lists(used, live) && Ordered(g, used) && NoDup(used) && j < |used0|
    requires used[k] in live && |g[used[k]].inputs| == 1 && CutOut(g, live, g2, rank, used[k]) && SourceFits(g0, used0, j)
    ensures Foreseen(g0, used0, j + 1, g2, Without(used, k), k)
  {
    ForeseenAt(g0, used0, j, g, used, k);
    var a, b := used[k], g[used[k]].inputs[0];
    assert Without(used, k)[k..] == used[k..][1..] && used0[j + 1..] == used0[j..][1..];
    forall m | j + 1 <= m < |used0|
      ensures AsForeseen(g0, used0, j + 1, g2, used0[m])
    {
      var i, x := used0[m], k + (m - j);
      assert AsForeseen(g0, used0, j, g, i);
      assert used[k..][m - j] == used0[j..][m - j];
      assert used[x] == i;
      ListsAt(used, live, x);
      ForeseenOther(g, live, g2, rank, used, k, x);
    }
  }

  /** An operator behind the one cut out keeps its inputs, and its readers unless it was read by that one. */
  lemma ForeseenOther(g: Graph, live: set<nat>, g2: Graph, rank: seq<nat>, used: seq<nat>, k: nat, x: nat)
    requires IsPlan(g, live, rank) && Lists(used, live) && Ordered(g, used) && NoDup(used)
    requires k < x < |used| && used[k] in live && used[x] in live && |g[used[k]].inputs| == 1
    requires CutOut(g, live, g2, rank, used[k]) && IsQuerySource(g, used[k])
    ensures var a, i := used[k], used[x];
      && i < |g2| && g2[i].payload == g[i].payload && g2[i].inputs == g[i].inputs
      && |g2[i].outputs| == if g[a].inputs == [i] then |g[i].outputs| + |g[a].outputs| - 1 else |g[i].outputs|
  {
    var a, i := used[k], used[x];
    assert i != a && a !in g[i].inputs;
    assert g2[i].inputs == Redirect(g[i].inputs, a, g[a].inputs[0]);
  }

  /** Removes the query sources: their readers read the query itself. */
  method RemoveQuerySources(pm: PlanManager) returns (rc: int)
    requires pm.Valid() && Ordered(pm.ops[..], pm.used)
    modifies pm`usedOps, pm`freeOps, pm`used, pm`live, pm`free, pm.next, pm.prev, pm.ops
    ensures rc == 0 ==> pm.Valid() && Ordered(pm.ops[..], pm.used)
    ensures rc == 0 ==> PassKeeps(old(pm.ops[..]), old(pm.live), pm.ops[..], pm.live, pm.rank)
    ensures rc == 0 ==> OnlySourcesGone(old(pm.ops[..]), old(pm.live), pm.ops[..], pm.live)
    ensures rc == 0 ==> forall i :: i in pm.live ==> !IsQuerySource(pm.ops[..], i)
    ensures rc == 0 ==>
      |pm.free| >= old(|pm.free|) && |Unreads(pm.ops[..], pm.used)| <= |Unreads(old(pm.ops[..]), old(pm.used))|
    ensures rc == 0 <==> AllSourcesFit(old(pm.ops[..]), old(pm.used))
  {
    hide PassKeeps, EdgesAgree, AllTyped, FanOutFits, Foreseen, SourceFits, Partition, Ordered, CutOut, Lists;
    ghost var g0, live0, used0, j: nat := pm.ops[..], pm.live, pm.used, 0;
    PassStart(g0, live0, pm.rank);
    ForeseenStart(g0, used0);
    var op := pm.usedOps;
    ghost var k: nat := 0;
    while op != Null
      invariant pm.Valid() && op == At0(pm.used, k) && Ordered(pm.ops[..], pm.used)
      invariant PassKeeps(g0, live0, pm.ops[..], pm.live, pm.rank)
      invariant OnlySourcesGone(g0, live0, pm.ops[..], pm.live)
      invariant |pm.free| >= old(|pm.free|) && |Unreads(pm.ops[..], pm.used)| <= |Unreads(g0, old(pm.used))|
      invariant NoneBefore(pm.ops[..], pm.used, k, IsQuerySource)
      invariant Foreseen(g0, used0, j, pm.ops[..], pm.used, k)
      decreases |pm.used| - k
    {
      ghost var g, used, live := pm.ops[..], pm.used, pm.live;
      NextInList(pm.next[..], pm.prev[..], pm.usedOps, used, k);
      ListsAt(used, live, k);
      var nextOp := pm.next[op.id];
      if pm.ops[op.id].payload.QuerySource? {
        QuerySourceHandsOver(g, live, pm.rank, op.id);
        ForeseenRoom(g0, used0, j, g, live, pm.rank, used, k);
        rc := FoldAway(pm, op.id, g0, live0, g, k);
        if rc != 0 {
          return;
        }
        ForeseenCut(g0, used0, j, g, live, pm.ops[..], pm.rank, used, k);
        SourceCut(g0, live0, g, live, pm.ops[..], pm.rank, used, k);
        SourceUnreads(g, live, pm.ops[..], pm.rank, used, k);
      } else {
        ForeseenNext(g0, used0, j, g, used, k);
        k := k + 1;
      }
      j := j + 1;
      op := nextOp;
    }
    NoneLive(pm.ops[..], pm.used, pm.live, IsQuerySource);
    ForeseenEnd(g0, used0, j, pm.ops[..], pm.used, k);
    rc := 0;
  }

  /** What cutting out the query source at position k keeps. */
  lemma SourceCut(g0: Graph, live0: set<nat>, g: Graph, live: set<nat>, g2: Graph, rank: seq<nat>, used: seq<nat>, k: nat)
    requires (forall i :: i in live0 ==> i < |g0|) && OnlySourcesGone(g0, live0, g, live)
    requires IsPlan(g, live, rank) && Lists(used, live) && NoDup(used) && Ordered(g, used)
    requires k < |used| && used[k] in live && |g[used[k]].inputs| == 1 && CutOut(g, live, g2, rank, used[k])
    requires IsQuerySource(g, used[k]) && NoneBefore(g, used, k, IsQuerySource)
    ensures OnlySourcesGone(g0, live0, g2, live - {used[k]})
    ensures Ordered(g2, Without(used, k)) && NoneBefore(g2, Without(used, k), k, IsQuerySource)
  {
    var a, b := used[k], g[used[k]].inputs[0];
    TookOverFlag(g, g2, live, rank, a, b);
    CutOrdered(g, live, g2, rank, used, k);
    NoneBeforeCut(g, g2, used, live, k, IsQuerySource);
  }

  // ---------------------------------------------------------------- selects

  /** Everything but sinks, outputs and the system stream is read by somebody. */
  ghost predicate AllRead(g: Graph, live: set<nat>) {
    forall i :: i in live && Unread(g, i) ==> g[i].payload.Sink?
  }

  /** A select above an operator it can be merged into: a select or a join nobody else reads. */
  predicate MergeableSelect(g: Graph, i: nat) {
    && i < |g| && g[i].payload.Select? && |g[i].inputs| == 1 && g[i].inputs[0] < |g|
    && |g[g[i].inputs[0]].outputs| == 1
    && (g[g[i].inputs[0]].payload.Select? || g[g[i].inputs[0]].payload.Join? || g[g[i].inputs[0]].payload.StrJoin?)
  }

  /** Hands the predicate of a select to the operator below if that is a select or a join only it reads. */
  method MergeSelect(pm: PlanManager, op: nat) returns (merged: bool)
    requires op < pm.ops.Length && pm.ops[op].payload.Select? && |pm.ops[op].inputs| == 1
    requires pm.ops[op].inputs[0] < pm.ops.Length && pm.ops[op].inputs[0] != op
    modifies pm.ops
    ensures merged <==> MergeableSelect(old(pm.ops[..]), op)
    ensures !merged ==> pm.ops[..] == old(pm.ops[..])
    ensures merged ==>
      var inOp := old(pm.ops[op]).inputs[0];
      pm.ops[..] == old(pm.ops[..])[inOp := old(pm.ops[inOp]).(
        payload := Absorbed(old(pm.ops[inOp]).payload, old(pm.ops[op]).payload))]
  {
    var inOp := pm.ops[op].inputs[0];
    var pred := pm.ops[op].payload.pred;
    if |pm.ops[inOp].outputs| != 1 {
      return false;
    }
    match pm.ops[inOp].payload
    case Select(p) =>
      pm.ops[inOp] := pm.ops[inOp].(payload := Select(p + pred));
      return true;
    case Join(outer, inner, p) =>
      pm.ops[inOp] := pm.ops[inOp].(payload := Join(outer, inner, p + TransToJoinPred(pred, outer)));
      return true;
    case StrJoin(outer, inner, p) =>
      pm.ops[inOp] := pm.ops[inOp].(payload := StrJoin(outer, inner, p + TransToJoinPred(pred, outer)));
      return true;
    case _ =>
      return false;
  }

  /** One pass over the used operators merges every select that can be merged. */
  method MergeSelects(pm: PlanManager) returns (rc: int)
    requires pm.Valid() && Ordered(pm.ops[..], pm.used) && AllRead(pm.ops[..], pm.live)
    modifies pm`usedOps, pm`freeOps, pm`used, pm`live, pm`free, pm.next, pm.prev, pm.ops
    ensures rc == 0 ==> pm.Valid() && Ordered(pm.ops[..], pm.used) && AllRead(pm.ops[..], pm.live)
    ensures rc == 0 ==> PassKeeps(old(pm.ops[..]), old(pm.live), pm.ops[..], pm.live, pm.rank)
    ensures rc == 0 ==> forall i :: i in pm.live ==> !MergeableSelect(pm.ops[..], i)
    ensures rc == 0 ==> forall i :: i in pm.live && IsQuerySource(pm.ops[..], i) ==> IsQuerySource(old(pm.ops[..]), i)
    ensures rc == 0 <==> NoCrowd(old(pm.ops[..]), old(pm.live), MergeableSelect)
  {
    hide PassKeeps, EdgesAgree, AllTyped, FanOutFits, Ordered, Partition, SameCrowds, NoCrowd;
    ghost var g0, live0 := pm.ops[..], pm.live;
    PassStart(g0, live0, pm.rank);
    CrowdsStart(g0, live0, MergeableSelect);
    var op := pm.usedOps;
    ghost var k: nat := 0;
    while op != Null
      invariant pm.Valid() && op == At0(pm.used, k) && Ordered(pm.ops[..], pm.used) && AllRead(pm.ops[..], pm.live)
      invariant PassKeeps(g0, live0, pm.ops[..], pm.live, pm.rank)
      invariant SameCrowds(g0, live0, pm.ops[..], pm.live, MergeableSelect) && SourcesStay(g0, pm.ops[..], pm.live)
      invariant NoneBefore(pm.ops[..], pm.used, k, MergeableSelect)
      decreases |pm.used| - k
    {
      ghost var g, used, live := pm.ops[..], pm.used, pm.live;
      NextInList(pm.next[..], pm.prev[..], pm.usedOps, used, k);
      ListsAt(used, live, k);
      OneInput(g, live, pm.rank, op.id);
      var nextOp := pm.next[op.id];
      var merged := false;
      if pm.ops[op.id].payload.Select? {
        merged := MergeSelect(pm, op.id);
      }
      if merged {
        SelectHandsOver(g, live, pm.rank, op.id);
        rc := FoldAway(pm, op.id, g0, live0, g, k);
        if rc != 0 {
          CrowdMet(g0, live0, g, live, op.id, MergeableSelect);
          return;
        }
        SelectCut(g, live, pm.ops[..], pm.rank, used, k);
        SelectCrowds(g0, live0, g, live, pm.ops[..], pm.rank, op.id);
      } else {
        k := k + 1;
      }
      op := nextOp;
    }
    NoneLive(pm.ops[..], pm.used, pm.live, MergeableSelect);
    CrowdsEnd(g0, live0, pm.ops[..], pm.live, MergeableSelect);
    rc := 0;
  }

  lemma OneInput(g: Graph, live: set<nat>, rank: seq<nat>, a: nat)
    requires IsPlan(g, live, rank) && a in live
    ensures g[a].payload.Select? || g[a].payload.Project? ==>
      |g[a].inputs| == 1 && g[a].inputs[0] in live && g[a].inputs[0] < |g| && g[a].inputs[0] != a
  {
    assert Typed(g, live, a);
  }

  lemma SelectHandsOver(g: Graph, live: set<nat>, rank: seq<nat>, a: nat)
    requires IsPlan(g, live, rank) && a in live && MergeableSelect(g, a)
    ensures g[a].inputs[0] in live && g[a].attrs == g[g[a].inputs[0]].attrs
  {
    assert Typed(g, live, a);
    assert InputSchemas(g, g[a].inputs)[0] == g[g[a].inputs[0]].attrs;
  }

  /** An operator that could not be merged before the cut cannot be merged after it. */
  lemma StillNotMergeable(g: Graph, live: set<nat>, g2: Graph, rank: seq<nat>, a: nat, i: nat)
    requires IsPlan(g, live, rank) && a in live && MergeableSelect(g, a) && CutOut(g, live, g2, rank, a)
    requires i in live && i != a && !MergeableSelect(g, i)
    ensures !MergeableSelect(g2, i)
  {
    var b := g[a].inputs[0];
    assert Typed(g, live, i);
    if g[i].payload.Select? {
      var p := g[i].inputs[0];
      assert p in g[i].inputs;
      TookOverWf(g, g2, live, rank, a, b);
    }
  }

  /** No operator has become a query source. */
  ghost predicate SourcesStay(g0: Graph, g: Graph, live: set<nat>) {
    forall i :: i in live && IsQuerySource(g, i) ==> IsQuerySource(g0, i)
  }

  /** Whether another operator can be merged and has room does not change. */
  lemma SelectCrowd(g: Graph, live: set<nat>, g2: Graph, rank: seq<nat>, a: nat, i: nat)
    requires IsPlan(g, live, rank) && a in live && MergeableSelect(g, a) && CutOut(g, live, g2, rank, a)
    requires |g[a].outputs| < MAX_OUT_BRANCHING && i in live && i != a
    ensures Crowded(g2, i, MergeableSelect) <==> Crowded(g, i, MergeableSelect)
  {
    var b := g[a].inputs[0];
    TookOverWf(g, g2, live, rank, a, b);
    assert Typed(g, live, i);
    if i != b && MergeableSelect(g, i) {
      var p := g[i].inputs[0];
      assert p in g[i].inputs && p in live;
    } else if i != b {
      StillNotMergeable(g, live, g2, rank, a, i);
    }
  }

  lemma SelectCrowds(g0: Graph, live0: set<nat>, g: Graph, live: set<nat>, g2: Graph, rank: seq<nat>, a: nat)
    requires IsPlan(g, live, rank) && a in live && MergeableSelect(g, a) && CutOut(g, live, g2, rank, a)
    requires |g[a].outputs| < MAX_OUT_BRANCHING
    requires SameCrowds(g0, live0, g, live, MergeableSelect) && SourcesStay(g0, g, live)
    ensures SameCrowds(g0, live0, g2, live - {a}, MergeableSelect) && SourcesStay(g0, g2, live - {a})
  {
    hide SameCrowds, Crowded, IsPlan;
    forall i | i in live && i != a
      ensures Crowded(g2, i, MergeableSelect) <==> Crowded(g, i, MergeableSelect)
    {
      SelectCrowd(g, live, g2, rank, a, i);
    }
    NotCrowded(g, a, MergeableSelect);
    CrowdsCut(g0, live0, g, live, g2, a, MergeableSelect);
  }

  lemma NotCrowded(g: Graph, a: nat, bad: (Graph, nat) -> bool)
    requires a < |g| && |g[a].outputs| < MAX_OUT_BRANCHING
    ensures !Crowded(g, a, bad)
  {
  }

  lemma SelectCut(g: Graph, live: set<nat>, g2: Graph, rank: seq<nat>, used: seq<nat>, k: nat)
    requires IsPlan(g, live, rank) && Lists(used, live) && NoDup(used) && Ordered(g, used)
    requires k < |used| && used[k] in live && MergeableSelect(g, used[k]) && CutOut(g, live, g2, rank, used[k])
    requires NoneBefore(g, used, k, MergeableSelect) && AllRead(g, live)
    ensures Ordered(g2, Without(used, k)) && NoneBefore(g2, Without(used, k), k, MergeableSelect)
    ensures AllRead(g2, live - {used[k]})
  {
    CutOrdered(g, live, g2, rank, used, k);
    forall i | i in live && i != used[k] && !MergeableSelect(g, i)
      ensures !MergeableSelect(g2, i)
    {
      StillNotMergeable(g, live, g2, rank, used[k], i);
    }
    NoneBeforeCut(g, g2, used, live, k, MergeableSelect);
    forall i | i in live - {used[k]} && Unread(g2, i)
      ensures g2[i].payload.Sink?
    {
      assert i != g[used[k]].inputs[0];
      assert Unread(g, i);
    }
  }

  // ---------------------------------------------------------------- projects

  /** A project above a join nobody else reads. */
  predicate MergeableProject(g: Graph, i: nat) {
    && i < |g| && g[i].payload.Project? && |g[i].inputs| == 1 && g[i].inputs[0] < |g|
    && |g[g[i].inputs[0]].outputs| <= 1
    && (g[g[i].inputs[0]].payload.Join? || g[g[i].inputs[0]].payload.StrJoin?)
  }

  /** Turns a join only the project reads into a join with these projections. */
  method MergeProject(pm: PlanManager, project: nat) returns (merged: bool)
    requires project < pm.ops.Length && pm.ops[project].payload.Project? && |pm.ops[project].inputs| == 1
    requires pm.ops[project].inputs[0] < pm.ops.Length && pm.ops[project].inputs[0] != project
    modifies pm.ops
    ensures merged <==> MergeableProject(old(pm.ops[..]), project)
    ensures !merged ==> pm.ops[..] == old(pm.ops[..])
    ensures merged ==>
      var inOp := old(pm.ops[project]).inputs[0];
      pm.ops[..] == old(pm.ops[..])[inOp := old(pm.ops[inOp]).(
        payload := Absorbed(old(pm.ops[inOp]).payload, old(pm.ops[project]).payload),
        attrs := old(pm.ops[project]).attrs)]
  {
    var inOp := pm.ops[project].inputs[0];
    var projs := pm.ops[project].payload.projs;
    if |pm.ops[inOp].outputs| > 1 {
      return false;
    }
    match pm.ops[inOp].payload
    case Join(outer, _, p) =>
      pm.ops[inOp] := pm.ops[inOp].(
        payload := JoinProject(TransToJoinProjs(projs, outer), p), attrs := pm.ops[project].attrs);
      return true;
    case StrJoin(outer, _, p) =>
      pm.ops[inOp] := pm.ops[inOp].(
        payload := StrJoinProject(TransToJoinProjs(projs, outer), p), attrs := pm.ops[project].attrs);
      return true;
    case _ =>
      return false;
  }

  /** One pass over the used operators merges every project that can be merged. */
  method MergeProjectsToJoin(pm: PlanManager) returns (rc: int, ghost up: Origins)
    requires pm.Valid()
    modifies pm`usedOps, pm`freeOps, pm`used, pm`live, pm`free, pm.next, pm.prev, pm.ops
    ensures rc == 0 ==> pm.Valid()
    ensures rc == 0 ==> PassKeeps(old(pm.ops[..]), old(pm.live), pm.ops[..], pm.live, pm.rank)
    ensures rc == 0 ==> forall i :: i in pm.live ==> !MergeableProject(pm.ops[..], i)
    ensures rc == 0 ==> Lineage(old(pm.ops[..]), old(pm.live), pm.ops[..], pm.live, up)
    ensures rc == 0 <==> NoCrowd(old(pm.ops[..]), old(pm.live), MergeableProject)
  {
    hide PassKeeps, EdgesAgree, AllTyped, FanOutFits, Partition, SameCrowds, NoCrowd, Lineage;
    ghost var g0, live0 := pm.ops[..], pm.live;
    PassStart(g0, live0, pm.rank);
    CrowdsStart(g0, live0, MergeableProject);
    LineageStart(g0, live0, pm.rank);
    up := Selves(live0);
    var op := pm.usedOps;
    ghost var k: nat := 0;
    while op != Null
      invariant pm.Valid() && op == At0(pm.used, k)
      invariant PassKeeps(g0, live0, pm.ops[..], pm.live, pm.rank)
      invariant SameCrowds(g0, live0, pm.ops[..], pm.live, MergeableProject)
      invariant Lineage(g0, live0, pm.ops[..], pm.live, up)
      invariant NoneBefore(pm.ops[..], pm.used, k, MergeableProject)
      decreases |pm.used| - k
    {
      ghost var g, used, live := pm.ops[..], pm.used, pm.live;
      NextInList(pm.next[..], pm.prev[..], pm.usedOps, used, k);
      ListsAt(used, live, k);
      OneInput(g, live, pm.rank, op.id);
      var nextOp := pm.next[op.id];
      var merged := false;
      if pm.ops[op.id].payload.Project? {
        merged := MergeProject(pm, op.id);
      }
      if merged {
        ProjectHandsOver(g, live, pm.rank, op.id);
        rc := FoldAway(pm, op.id, g0, live0, g, k);
        if rc != 0 {
          CrowdMet(g0, live0, g, live, op.id, MergeableProject);
          return;
        }
        ProjectCut(g, live, pm.ops[..], pm.rank, used, k);
        up := ProjectMerged(g0, live0, g, live, pm.ops[..], pm.rank, op.id, up);
      } else {
        k := k + 1;
      }
      op := nextOp;
    }
    NoneLive(pm.ops[..], pm.used, pm.live, MergeableProject);
    CrowdsEnd(g0, live0, pm.ops[..], pm.live, MergeableProject);
    rc := 0;
  }

  lemma ProjectCrowd(g: Graph, live: set<nat>, g2: Graph, rank: seq<nat>, a: nat, i: nat)
    requires IsPlan(g, live, rank) && a in live && MergeableProject(g, a) && CutOut(g, live, g2, rank, a)
    requires i in live && i != a
    ensures Crowded(g2, i, MergeableProject) <==> Crowded(g, i, MergeableProject)
  {
    var b := g[a].inputs[0];
    TookOverWf(g, g2, live, rank, a, b);
    assert Typed(g, live, i);
    if MergeableProject(g, i) {
      var p := g[i].inputs[0];
      assert p in g[i].inputs && p in live;
    } else {
      StillNotMergeableProject(g, live, g2, rank, a, i);
    }
  }

  /** One project more has been merged: crowds are as they were, and origins are handed on. */
  lemma ProjectMerged(g0: Graph, live0: set<nat>, g: Graph, live: set<nat>, g2: Graph, rank: seq<nat>, a: nat, up: Origins)
    returns (up2: Origins)
    requires IsPlan(g, live, rank) && a in live && MergeableProject(g, a) && CutOut(g, live, g2, rank, a)
    requires |g[a].outputs| < MAX_OUT_BRANCHING
    requires SameCrowds(g0, live0, g, live, MergeableProject) && Lineage(g0, live0, g, live, up)
    ensures SameCrowds(g0, live0, g2, live - {a}, MergeableProject)
    ensures Lineage(g0, live0, g2, live - {a}, up2)
  {
    var b := g[a].inputs[0];
    TookOverWf(g, g2, live, rank, a, b);
    LineageStep(g0, live0, g, live, g2, rank, up, a, b);
    up2 := Handed(up, a, b);
    hide SameCrowds, Crowded, IsPlan, Lineage;
    forall i | i in live && i != a
      ensures Crowded(g2, i, MergeableProject) <==> Crowded(g, i, MergeableProject)
    {
      ProjectCrowd(g, live, g2, rank, a, i);
    }
    NotCrowded(g, a, MergeableProject);
    CrowdsCut(g0, live0, g, live, g2, a, MergeableProject);
  }

  lemma ProjectHandsOver(g: Graph, live: set<nat>, rank: seq<nat>, a: nat)
    requires IsPlan(g, live, rank) && a in live && MergeableProject(g, a)
    ensures g[a].inputs[0] in live && |g[g[a].inputs[0]].outputs| == 1
  {
    assert g[a].inputs[0] in g[a].inputs;
    SoleReader(g, live, rank, a, g[a].inputs[0]);
  }

  lemma ProjectCut(g: Graph, live: set<nat>, g2: Graph, rank: seq<nat>, used: seq<nat>, k: nat)
    requires IsPlan(g, live, rank) && Lists(used, live) && NoDup(used)
    requires k < |used| && used[k] in live && MergeableProject(g, used[k]) && CutOut(g, live, g2, rank, used[k])
    requires NoneBefore(g, used, k, MergeableProject)
    ensures NoneBefore(g2, Without(used, k), k, MergeableProject)
  {
    forall i | i in live && i != used[k] && !MergeableProject(g, i)
      ensures !MergeableProject(g2, i)
    {
      StillNotMergeableProject(g, live, g2, rank, used[k], i);
    }
    NoneBeforeCut(g, g2, used, live, k, MergeableProject);
  }

  lemma StillNotMergeableProject(g: Graph, live: set<nat>, g2: Graph, rank: seq<nat>, a: nat, i: nat)
    requires IsPlan(g, live, rank) && a in live && MergeableProject(g, a) && CutOut(g, live, g2, rank, a)
    requires i in live && i != a && !MergeableProject(g, i)
    ensures !MergeableProject(g2, i)
  {
    var b := g[a].inputs[0];
    assert Typed(g, live, i);
    if g[i].payload.Project? {
      var p := g[i].inputs[0];
      assert p in g[i].inputs;
      TookOverWf(g, g2, live, rank, a, b);
    }
  }
}
