/**
 Query classes.  Registering an output spreads its class over everything it reads from; operators
 that already have a class at least as urgent end the traversal early.
 */
module QueryClasses {
  import opened Common
  import opened PhysicalPlan
  import opened Manager
  import opened Extend

  /** Operator a is b or reads from it, directly or not. */
  ghost predicate Reach(g: Graph, live: set<nat>, rank: seq<nat>, a: nat, b: nat)
    requires Wf(g, live, rank) && a in live
    decreases rank[a]
  {
    a == b || exists k :: 0 <= k < |g[a].inputs| && Reach(g, live, rank, g[a].inputs[k], b)
  }

  /** The class of an operator that a query of class c turns out to use; 0 is no class. */
  function Lower(cur: int, c: int): int {
    if cur == 0 || cur > c then c else cur
  }

  /** The inputs of an operator with a class have one that is no larger. */
  ghost predicate ClassOk(g: Graph, i: nat)
    requires i < |g| && forall k :: 0 <= k < |g[i].inputs| ==> g[i].inputs[k] < |g|
  {
    g[i].queryClass >= 0 &&
    (g[i].queryClass != 0 ==>
       forall k :: 0 <= k < |g[i].inputs| ==> 0 < g[g[i].inputs[k]].queryClass <= g[i].queryClass)
  }

  ghost predicate ClassesOk(g: Graph, live: set<nat>, rank: seq<nat>, bound: nat)
    requires Wf(g, live, rank)
  {
    forall i {:trigger ClassOk(g, i)} :: i in live && rank[i] < bound ==> ClassOk(g, i)
  }

  /** Only classes differ. */
  ghost predicate SameButClasses(g: Graph, g2: Graph) {
    && |g2| == |g|
    && forall i :: 0 <= i < |g| ==> g2[i] == g[i].(queryClass := g2[i].queryClass)
  }

  /** Everything op reaches has its class lowered to at most c, and nothing else changes. */
  ghost predicate Classified(g: Graph, g2: Graph, live: set<nat>, rank: seq<nat>, op: nat, c: int)
    requires Wf(g, live, rank) && op in live
  {
    && SameButClasses(g, g2)
    && (forall i :: i in live ==>
         g2[i].queryClass == if Reach(g, live, rank, op, i) then Lower(g[i].queryClass, c) else g[i].queryClass)
    && (forall i :: 0 <= i < |g| && i !in live ==> g2[i] == g[i])
  }

  /** The same for all of the first n inputs of op, whose own class is already c. */
  ghost predicate ClassifiedInputs(g: Graph, g2: Graph, live: set<nat>, rank: seq<nat>, op: nat, c: int, n: nat)
    requires Wf(g, live, rank) && op in live && n <= |g[op].inputs|
  {
    && SameButClasses(g, g2)
    && (forall i :: i in live ==>
         g2[i].queryClass == if i == op then c
                             else if ReachInput(g, live, rank, op, n, i) then Lower(g[i].queryClass, c)
                             else g[i].queryClass)
    && (forall i :: 0 <= i < |g| && i !in live ==> g2[i] == g[i])
  }

  ghost predicate ReachInput(g: Graph, live: set<nat>, rank: seq<nat>, op: nat, n: nat, i: nat)
    requires Wf(g, live, rank) && op in live && n <= |g[op].inputs|
  {
    exists k :: 0 <= k < n && Reach(g, live, rank, g[op].inputs[k], i)
  }

  lemma {:induction false} SameClassesReach(g: Graph, g2: Graph, live: set<nat>, rank: seq<nat>, a: nat, b: nat)
    requires Wf(g, live, rank) && Wf(g2, live, rank) && SameButClasses(g, g2) && a in live
    ensures Reach(g2, live, rank, a, b) == Reach(g, live, rank, a, b)
    decreases rank[a]
  {
    forall k | 0 <= k < |g[a].inputs|
      ensures Reach(g2, live, rank, g2[a].inputs[k], b) == Reach(g, live, rank, g[a].inputs[k], b)
    {
      SameClassesReach(g, g2, live, rank, g[a].inputs[k], b);
    }
    if Reach(g, live, rank, a, b) && a != b {
      var k :| 0 <= k < |g[a].inputs| && Reach(g, live, rank, g[a].inputs[k], b);
      assert Reach(g2, live, rank, g2[a].inputs[k], b);
    }
  }

  lemma {:induction false} ReachBelow(g: Graph, live: set<nat>, rank: seq<nat>, a: nat, b: nat)
    requires Wf(g, live, rank) && a in live && Reach(g, live, rank, a, b)
    ensures b in live && rank[b] <= rank[a] && (a != b ==> rank[b] < rank[a])
    decreases rank[a]
  {
    if a != b {
      var k :| 0 <= k < |g[a].inputs| && Reach(g, live, rank, g[a].inputs[k], b);
      ReachBelow(g, live, rank, g[a].inputs[k], b);
    }
  }

  lemma {:induction false} ReachTrans(g: Graph, live: set<nat>, rank: seq<nat>, a: nat, b: nat, k: nat)
    requires Wf(g, live, rank) && a in live && Reach(g, live, rank, a, b) && b in live && k < |g[b].inputs|
    ensures Reach(g, live, rank, a, g[b].inputs[k])
    decreases rank[a]
  {
    if a == b {
      assert Reach(g, live, rank, g[b].inputs[k], g[b].inputs[k]);
    } else {
      var m :| 0 <= m < |g[a].inputs| && Reach(g, live, rank, g[a].inputs[m], b);
      ReachTrans(g, live, rank, g[a].inputs[m], b, k);
    }
  }

  /** The early exit: below an operator with a class, every class is non-zero and no larger. */
  lemma {:induction false} ClassBounds(g: Graph, live: set<nat>, rank: seq<nat>, a: nat, b: nat)
    requires Wf(g, live, rank) && a in live && ClassesOk(g, live, rank, rank[a] + 1)
    requires g[a].queryClass > 0 && Reach(g, live, rank, a, b)
    ensures b in live && 0 < g[b].queryClass <= g[a].queryClass
    decreases rank[a]
  {
    if a != b {
      var k :| 0 <= k < |g[a].inputs| && Reach(g, live, rank, g[a].inputs[k], b);
      assert ClassOk(g, a);
      ClassBounds(g, live, rank, g[a].inputs[k], b);
    }
  }

  /** Classes stay in order below op. */
  lemma ClassifiedOk(g: Graph, g2: Graph, live: set<nat>, rank: seq<nat>, op: nat, c: int, bound: nat)
    requires Wf(g, live, rank) && op in live && c > 0 && Classified(g, g2, live, rank, op, c)
    requires ClassesOk(g, live, rank, bound)
    ensures Wf(g2, live, rank) && ClassesOk(g2, live, rank, bound)
  {
    forall i | i in live && rank[i] < bound
      ensures ClassOk(g2, i)
    {
      assert ClassOk(g, i);
      forall k | 0 <= k < |g[i].inputs| && g2[i].queryClass != 0
        ensures 0 < g2[g[i].inputs[k]].queryClass <= g2[i].queryClass
      {
        var p := g[i].inputs[k];
        assert p in live && rank[p] < bound && ClassOk(g, p);
        if Reach(g, live, rank, op, i) {
          ReachTrans(g, live, rank, op, i, k);
        }
      }
    }
  }

  lemma ClassifyInput(g: Graph, g1: Graph, g2: Graph, live: set<nat>, rank: seq<nat>, op: nat, c: int, n: nat)
    requires Wf(g, live, rank) && op in live && n < |g[op].inputs|
    requires ClassifiedInputs(g, g1, live, rank, op, c, n) && Wf(g1, live, rank)
    requires Classified(g1, g2, live, rank, g[op].inputs[n], c)
    ensures ClassifiedInputs(g, g2, live, rank, op, c, n + 1)
  {
    var p := g[op].inputs[n];
    forall i | i in live
      ensures g2[i].queryClass == if i == op then c
                                  else if ReachInput(g, live, rank, op, n + 1, i) then Lower(g[i].queryClass, c)
                                  else g[i].queryClass
    {
      SameClassesReach(g, g1, live, rank, p, i);
      if Reach(g, live, rank, p, i) {
        ReachBelow(g, live, rank, p, i);
        assert ReachInput(g, live, rank, op, n + 1, i);
      }
      if ReachInput(g, live, rank, op, n, i) {
        var k :| 0 <= k < n && Reach(g, live, rank, g[op].inputs[k], i);
        assert ReachInput(g, live, rank, op, n + 1, i);
      }
    }
  }

  lemma ClassifyDone(g: Graph, g2: Graph, live: set<nat>, rank: seq<nat>, op: nat, c: int)
    requires Wf(g, live, rank) && op in live && ClassifiedInputs(g, g2, live, rank, op, c, |g[op].inputs|)
    requires g[op].queryClass == 0 || g[op].queryClass > c
    ensures Classified(g, g2, live, rank, op, c)
  {
    forall i | i in live && i != op
      ensures Reach(g, live, rank, op, i) == ReachInput(g, live, rank, op, |g[op].inputs|, i)
    {
    }
  }

  /** Below op, the classes set so far are in order. */
  lemma InputsOk(g: Graph, g1: Graph, live: set<nat>, rank: seq<nat>, op: nat, c: int, n: nat)
    requires Wf(g, live, rank) && op in live && n <= |g[op].inputs| && c > 0
    requires ClassifiedInputs(g, g1, live, rank, op, c, n)
    requires ClassesOk(g, live, rank, rank[op])
    ensures Wf(g1, live, rank) && ClassesOk(g1, live, rank, rank[op])
  {
    forall i | i in live && rank[i] < rank[op]
      ensures ClassOk(g1, i)
    {
      assert ClassOk(g, i);
      forall k | 0 <= k < |g[i].inputs| && g1[i].queryClass != 0
        ensures 0 < g1[g[i].inputs[k]].queryClass <= g1[i].queryClass
      {
        var p := g[i].inputs[k];
        assert p in live && rank[p] < rank[op] && ClassOk(g, p);
        if ReachInput(g, live, rank, op, n, i) {
          var m :| 0 <= m < n && Reach(g, live, rank, g[op].inputs[m], i);
          ReachTrans(g, live, rank, g[op].inputs[m], i, k);
          assert ReachInput(g, live, rank, op, n, p);
        }
      }
    }
  }

  /** Spreads class c from an operator over everything it reads from. */
  method AddQueryClasses(pm: PlanManager, op: nat, c: int, ghost live: set<nat>, ghost rank: seq<nat>)
    requires Wf(pm.ops[..], live, rank) && op in live && c > 0
    requires ClassesOk(pm.ops[..], live, rank, rank[op] + 1)
    modifies pm.ops
    ensures Classified(old(pm.ops[..]), pm.ops[..], live, rank, op, c)
    decreases rank[op]
  {
    ghost var g := pm.ops[..];
    assert ClassOk(g, op);
    if pm.ops[op].queryClass == 0 || pm.ops[op].queryClass > c {
      pm.ops[op] := pm.ops[op].(queryClass := c);
    } else {
      forall i | i in live && Reach(g, live, rank, op, i)
        ensures g[i].queryClass == Lower(g[i].queryClass, c)
      {
        ClassBounds(g, live, rank, op, i);
      }
      return;
    }
    if |pm.ops[op].inputs| <= 0 {
      ClassifyDone(g, pm.ops[..], live, rank, op, c);
      return;
    }
    var i := 0;
    while i < |pm.ops[op].inputs|
      invariant i <= |g[op].inputs| && ClassifiedInputs(g, pm.ops[..], live, rank, op, c, i)
    {
      ghost var g1 := pm.ops[..];
      InputsOk(g, g1, live, rank, op, c, i);
      AddQueryClasses(pm, pm.ops[op].inputs[i], c, live, rank);
      ClassifyInput(g, g1, pm.ops[..], live, rank, op, c, i);
      i := i + 1;
    }
    ClassifyDone(g, pm.ops[..], live, rank, op, c);
  }

  // ---------------------------------------------------------------- any sequence of registrations

  /** An output and the class it was registered with. */
  datatype Registration = Registration(op: nat, cls: int)

  /** The plan and the registrations so far. */
  datatype State = State(ops: Graph, live: set<nat>, rank: seq<nat>, regs: seq<Registration>)

  /** The class an operator has before any query uses it. */
  function Initial(o: Operator): int {
    if o.payload.SsGen? then 1 else 0
  }

  /** The smallest class of a registered output that reads from i; the system stream counts as class 1. */
  ghost function Least(s: State, i: nat, n: nat): int
    requires Wf(s.ops, s.live, s.rank) && i in s.live && n <= |s.regs|
    requires forall k :: 0 <= k < |s.regs| ==> s.regs[k].op in s.live
  {
    if n == 0 then Initial(s.ops[i])
    else
      var m := Least(s, i, n - 1);
      if Reach(s.ops, s.live, s.rank, s.regs[n - 1].op, i) then Lower(m, s.regs[n - 1].cls) else m
  }

  ghost predicate Proper(s: State) {
    && Wf(s.ops, s.live, s.rank)
    && (forall k :: 0 <= k < |s.regs| ==> s.regs[k].op in s.live && s.regs[k].cls > 0)
    && (forall i :: i in s.live && s.ops[i].payload.SsGen? ==> s.ops[i].inputs == [])
  }

  /** Every operator has the least class, and classes never grow towards the sources. */
  ghost predicate ClassesRight(s: State) {
    && Proper(s)
    && ClassesOk(s.ops, s.live, s.rank, Peak(s.rank))
    && (forall i {:trigger Least(s, i, |s.regs|)} :: i in s.live ==> s.ops[i].queryClass == Least(s, i, |s.regs|))
  }

  /** A bound above all ranks. */
  ghost function Peak(rank: seq<nat>): (p: nat)
    ensures forall i :: 0 <= i < |rank| ==> rank[i] < p
  {
    if rank == [] then 0
    else
      var p := Peak(rank[..|rank| - 1]);
      if rank[|rank| - 1] < p then p else rank[|rank| - 1] + 1
  }

  /** What Least means: it bounds every class that reaches i and is one of them, or the initial class. */
  lemma {:induction false} LeastIsMinimum(s: State, i: nat, n: nat)
    requires Proper(s) && i in s.live && n <= |s.regs|
    ensures Least(s, i, n) >= 0
    ensures forall k :: 0 <= k < n && Reach(s.ops, s.live, s.rank, s.regs[k].op, i) ==>
      0 < Least(s, i, n) <= s.regs[k].cls
    ensures Least(s, i, n) != Initial(s.ops[i]) ==>
      exists k :: 0 <= k < n && Reach(s.ops, s.live, s.rank, s.regs[k].op, i) && s.regs[k].cls == Least(s, i, n)
  {
    if n > 0 {
      LeastIsMinimum(s, i, n - 1);
    }
  }

  /** A plan grows on top: what was there stays, and new operators start without a class. */
  ghost predicate Grows(s: State, s2: State) {
    && Proper(s) && Proper(s2) && s2.regs == s.regs
    && Extends(s.ops, s.live, s2.ops, s2.live)
    && (forall i :: i in s.live ==> s2.ops[i].queryClass == s.ops[i].queryClass)
    && (forall i :: i in s2.live && i !in s.live ==> s2.ops[i].queryClass == Initial(s2.ops[i]))
  }

  /** An output is registered with a class. */
  ghost predicate Registers(s: State, s2: State, op: nat, c: int) {
    && Proper(s) && op in s.live && c > 0
    && s2 == State(s2.ops, s.live, s.rank, s.regs + [Registration(op, c)])
    && Classified(s.ops, s2.ops, s.live, s.rank, op, c)
  }

  lemma {:induction false} ExtendsReach(s: State, s2: State, a: nat, b: nat)
    requires Grows(s, s2) && a in s.live
    ensures Reach(s2.ops, s2.live, s2.rank, a, b) == Reach(s.ops, s.live, s.rank, a, b)
    decreases s.rank[a]
  {
    var ids := s.ops[a].inputs;
    forall k | 0 <= k < |ids|
      ensures Reach(s2.ops, s2.live, s2.rank, ids[k], b) == Reach(s.ops, s.live, s.rank, ids[k], b)
    {
      ExtendsReach(s, s2, ids[k], b);
    }
    if Reach(s.ops, s.live, s.rank, a, b) && a != b {
      var k :| 0 <= k < |ids| && Reach(s.ops, s.live, s.rank, ids[k], b);
      assert Reach(s2.ops, s2.live, s2.rank, s2.ops[a].inputs[k], b);
    }
  }

  lemma {:induction false} GrowsLeast(s: State, s2: State, i: nat, n: nat)
    requires Grows(s, s2) && i in s2.live && n <= |s.regs|
    ensures Least(s2, i, n) == if i in s.live then Least(s, i, n) else Initial(s2.ops[i])
  {
    if n > 0 {
      GrowsLeast(s, s2, i, n - 1);
      ExtendsReach(s, s2, s.regs[n - 1].op, i);
      if i !in s.live && Reach(s.ops, s.live, s.rank, s.regs[n - 1].op, i) {
        ReachBelow(s.ops, s.live, s.rank, s.regs[n - 1].op, i);
      }
    }
  }

  lemma GrowsRight(s: State, s2: State)
    requires ClassesRight(s) && Grows(s, s2)
    ensures ClassesRight(s2)
  {
    forall i | i in s2.live
      ensures s2.ops[i].queryClass == Least(s2, i, |s2.regs|) && ClassOk(s2.ops, i)
    {
      GrowsLeast(s, s2, i, |s.regs|);
      if i in s.live {
        assert s.ops[i].queryClass == Least(s, i, |s.regs|);
        assert ClassOk(s.ops, i);
      }
    }
  }

  lemma {:induction false} RegistersLeast(s: State, s2: State, op: nat, c: int, i: nat, n: nat)
    requires Registers(s, s2, op, c) && Proper(s2) && i in s.live && n <= |s.regs|
    ensures Least(s2, i, n) == Least(s, i, n)
  {
    if n > 0 {
      RegistersLeast(s, s2, op, c, i, n - 1);
      SameClassesReach(s.ops, s2.ops, s.live, s.rank, s.regs[n - 1].op, i);
    }
  }

  lemma RegistersRight(s: State, s2: State, op: nat, c: int)
    requires ClassesRight(s) && Registers(s, s2, op, c)
    ensures ClassesRight(s2)
  {
    ClassifiedOk(s.ops, s2.ops, s.live, s.rank, op, c, Peak(s.rank));
    forall i | i in s2.live
      ensures s2.ops[i].queryClass == Least(s2, i, |s2.regs|)
    {
      RegistersLeast(s, s2, op, c, i, |s.regs|);
      SameClassesReach(s.ops, s2.ops, s.live, s.rank, op, i);
      assert s.ops[i].queryClass == Least(s, i, |s.regs|);
    }
  }

  /** A run: every step grows the plan or registers an output. */
  ghost predicate Run(states: seq<State>) {
    && states != []
    && forall k, m :: 0 <= k < |states| && m == k + 1 && m < |states| ==>
         Grows(states[k], states[m]) || exists op, c :: Registers(states[k], states[m], op, c)
  }

  /**
   After any sequence of registrations, however they interleave with growth of the plan, every
   operator has the smallest class of the registered outputs that read from it.
   */
  lemma {:induction false} RunRight(states: seq<State>, k: nat)
    requires Run(states) && ClassesRight(states[0]) && k < |states|
    ensures ClassesRight(states[k])
  {
    if k > 0 {
      RunRight(states, k - 1);
      if Grows(states[k - 1], states[k]) {
        GrowsRight(states[k - 1], states[k]);
      } else {
        var op, c :| Registers(states[k - 1], states[k], op, c);
        RegistersRight(states[k - 1], states[k], op, c);
      }
    }
  }
}
