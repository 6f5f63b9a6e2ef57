/**
 Setting right what is stored about the operators above a change, from the change up to the root.
 */
module Marking {
  import opened Common
  import opened LogicalPlan
  import opened LogicalTrees

  lemma {:induction false} LeadsPrefix(t: Plan, path: seq<nat>, n: nat)
    requires Leads(t, path) && n <= |path|
    ensures Leads(t, path[..n])
    ensures n < |path| ==> path[n] < |Sub(t, path[..n]).ins|
    ensures n < |path| ==> Leads(t, path[..n + 1]) && Sub(t, path[..n + 1]) == Sub(t, path[..n]).ins[path[n]]
  {
    if n > 0 {
      LeadsPrefix(t.ins[path[0]], path[1..], n - 1);
      assert path[..n][1..] == path[1..][..n - 1];
      assert n < |path| ==> path[..n + 1][1..] == path[1..][..n];
    } else if path != [] {
      assert path[..1][1..] == [] && path[..1][0] == path[0];
    }
  }

  /** The operator above is the one the path without its last step leads to, and the output link leads there. */
  lemma {:induction false} ParentLink(g: Nodes, t: Plan, path: seq<nat>)
    requires Linked(g, t) && Leads(t, path) && path != []
    ensures Leads(t, path[..|path| - 1]) && Parent(t, path) == Sub(t, path[..|path| - 1])
    ensures path[|path| - 1] < |Parent(t, path).ins| && Sub(t, path) == Parent(t, path).ins[path[|path| - 1]]
    ensures Sub(t, path).id < |g| && g[Sub(t, path).id].output == At(Parent(t, path).id)
  {
    if |path| > 1 {
      ParentLink(g, t.ins[path[0]], path[1..]);
      assert path[..|path| - 1][1..] == path[1..][..|path| - 2];
    } else {
      assert path[1..] == [];
    }
  }

  lemma {:induction false} SubLinked(g: Nodes, t: Plan, path: seq<nat>)
    requires Linked(g, t) && Leads(t, path)
    ensures Linked(g, Sub(t, path))
  {
    if path != [] {
      SubLinked(g, t.ins[path[0]], path[1..]);
    }
  }

  /** Once the operator at the end is right, one step of the path less is in doubt. */
  lemma {:induction false} OffShorter(tb: Tables, g: Nodes, t: Plan, path: seq<nat>, m: Mark)
    requires Leads(t, path) && RightOff(tb, g, t, path, m) && NodeRight(tb, g, Sub(t, path), m)
    ensures path == [] ==> Right(tb, g, t, m)
    ensures path != [] ==> Leads(t, path[..|path| - 1]) && RightOff(tb, g, t, path[..|path| - 1], m)
  {
    if |path| > 1 {
      OffShorter(tb, g, t.ins[path[0]], path[1..], m);
      assert path[..|path| - 1][1..] == path[1..][..|path| - 2];
    } else if |path| == 1 {
      assert path[1..] == [];
      OffShorter(tb, g, t.ins[path[0]], [], m);
    }
  }

  /** Only what is stored about operator i differs. */
  ghost predicate Marked(g: Nodes, g2: Nodes, i: nat) {
    && |g2| == |g| && i < |g|
    && (forall j :: 0 <= j < |g| && j != i ==> g2[j] == g[j])
    && g2[i] == g[i].(attrs := g2[i].attrs, bStream := g2[i].bStream)
  }

  lemma {:induction false} MarkedLinked(g: Nodes, g2: Nodes, t: Plan, i: nat)
    requires Linked(g, t) && Marked(g, g2, i)
    ensures Linked(g2, t)
  {
    forall k | 0 <= k < |t.ins|
      ensures Linked(g2, t.ins[k])
    {
      MarkedLinked(g, g2, t.ins[k], i);
    }
  }

  /** The mark that was not touched stays right. */
  lemma {:induction false} MarkedRight(tb: Tables, g: Nodes, g2: Nodes, t: Plan, i: nat, m: Mark)
    requires Right(tb, g, t, m) && Marked(g, g2, i)
    requires match m case Attrs => g2[i].attrs == g[i].attrs case Flag => g2[i].bStream == g[i].bStream
    ensures Right(tb, g2, t, m)
  {
    forall k | 0 <= k < |t.ins|
      ensures Right(tb, g2, t.ins[k], m)
    {
      MarkedRight(tb, g, g2, t.ins[k], i, m);
    }
  }

  /** Setting the operator at the end of the path leaves the operators off the path right. */
  lemma {:induction false} MarkedOff(tb: Tables, g: Nodes, g2: Nodes, t: Plan, path: seq<nat>, m: Mark)
    requires Leads(t, path) && Tidy(t) && Linked(g, t) && RightOff(tb, g, t, path, m) && Marked(g, g2, Sub(t, path).id)
    ensures RightOff(tb, g2, t, path, m)
  {
    var i := Sub(t, path).id;
    assert Has(Sub(t, path), i);
    forall k | 0 <= k < |t.ins| && (path == [] || k != path[0])
      ensures Right(tb, g2, t.ins[k], m)
    {
      if path != [] {
        SubHas(t.ins[path[0]], path[1..], i);
        assert Apart(t.ins[path[0]], t.ins[k]);
      }
      assert !Has(t.ins[k], i);
      forall j: nat | Has(t.ins[k], j)
        ensures j != i
      {
      }
      OutsideRight(tb, g, g2, t.ins[k], i, m);
    }
    if path != [] {
      MarkedOff(tb, g, g2, t.ins[path[0]], path[1..], m);
    }
  }

  lemma {:induction false} OutsideRight(tb: Tables, g: Nodes, g2: Nodes, t: Plan, i: nat, m: Mark)
    requires Right(tb, g, t, m) && Marked(g, g2, i) && !Has(t, i)
    ensures Right(tb, g2, t, m)
  {
    forall k | 0 <= k < |t.ins|
      ensures Right(tb, g2, t.ins[k], m)
    {
      OutsideRight(tb, g, g2, t.ins[k], i, m);
    }
  }

  // ---------------------------------------------------------------- chains of unary operators

  /** The path follows operators of the given kinds that have a single input. */
  ghost predicate Chain(t: Plan, path: seq<nat>, over: Payload -> bool) {
    path == [] || (path[0] == 0 && |t.ins| == 1 && over(t.op) && Chain(t.ins[0], path[1..], over))
  }

  lemma {:induction false} ChainLeads(t: Plan, path: seq<nat>, over: Payload -> bool)
    requires Chain(t, path, over)
    ensures Leads(t, path)
  {
    if path != [] {
      ChainLeads(t.ins[0], path[1..], over);
    }
  }

  lemma {:induction false} ChainOn(t: Plan, path: seq<nat>, over: Payload -> bool)
    requires Chain(t, path, over) && Leads(t, path)
    requires over(Sub(t, path).op) && |Sub(t, path).ins| == 1
    ensures Chain(t, path + [0], over) && Leads(t, path + [0]) && Sub(t, path + [0]) == Sub(t, path).ins[0]
  {
    if path == [] {
      assert [0][1..] == [];
    } else {
      ChainOn(t.ins[0], path[1..], over);
      assert (path + [0])[1..] == path[1..] + [0];
    }
  }

  lemma {:induction false} ChainGraft(t: Plan, path: seq<nat>, over: Payload -> bool, u: Plan)
    requires Chain(t, path, over) && Leads(t, path)
    ensures Chain(Graft(t, path, u), path, over) && Leads(Graft(t, path, u), path) && Sub(Graft(t, path, u), path) == u
  {
    if path != [] {
      ChainGraft(t.ins[0], path[1..], over, u);
    }
  }

  lemma {:induction false} ChainAt(t: Plan, path: seq<nat>, over: Payload -> bool, n: nat)
    requires Chain(t, path, over) && n <= |path|
    ensures Leads(t, path[..n]) && Chain(t, path[..n], over)
    ensures n < |path| ==> over(Sub(t, path[..n]).op) && |Sub(t, path[..n]).ins| == 1
    ensures n < |path| ==> Leads(t, path[..n + 1]) && Sub(t, path[..n + 1]) == Sub(t, path[..n]).ins[0]
  {
    ChainLeads(t, path, over);
    LeadsPrefix(t, path, n);
    if n > 0 {
      ChainAt(t.ins[0], path[1..], over, n - 1);
      assert path[..n][1..] == path[1..][..n - 1];
      assert n < |path| ==> path[..n + 1][1..] == path[1..][..n];
    } else if path != [] {
      assert path[..1][1..] == [];
    }
  }

  /** One more operator on the way down: grafting there is grafting above with that operator put back. */
  lemma ChainGraftOn(t: Plan, path: seq<nat>, over: Payload -> bool, u: Plan)
    requires Chain(t, path, over) && Leads(t, path)
    requires over(Sub(t, path).op) && |Sub(t, path).ins| == 1
    ensures Leads(t, path + [0])
    ensures Graft(t, path + [0], u) == Graft(t, path, Sub(t, path).(ins := [u]))
  {
    ChainOn(t, path, over);
    GraftOn(t, path, 0, u);
    assert Sub(t, path).ins[0 := u] == [u];
  }

  lemma {:induction false} ChainLast(t: Plan, path: seq<nat>, over: Payload -> bool)
    requires Chain(t, path, over) && path != [] && Leads(t, path)
    ensures path[|path| - 1] == 0 && |Parent(t, path).ins| == 1 && over(Parent(t, path).op)
  {
    if |path| > 1 {
      ChainLast(t.ins[0], path[1..], over);
    }
  }

  /** Grafting leaves the operator above in its slot. */
  lemma {:induction false} GraftParent(t: Plan, path: seq<nat>, u: Plan)
    requires Leads(t, path) && path != []
    ensures Leads(Graft(t, path, u), path[..|path| - 1]) && Sub(Graft(t, path, u), path[..|path| - 1]).id == Parent(t, path).id
  {
    if |path| > 1 {
      GraftParent(t.ins[path[0]], path[1..], u);
      assert path[..|path| - 1][1..] == path[1..][..|path| - 2];
    }
  }
}
