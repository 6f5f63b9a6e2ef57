/** Taking a unary operator out of a plan by linking its input to its output. */
module Bypass {
  import opened Common
  import opened LogicalPlan
  import opened LogicalTrees
  import opened LogicalOps
  import opened Marking

  /** The links once the operator at the end of the path is bypassed. */
  ghost predicate Cut(g: Nodes, g2: Nodes, t: Plan, path: seq<nat>)
    requires Leads(t, path) && path != [] && |Sub(t, path).ins| == 1
  {
    var p, s, k := Parent(t, path).id, Sub(t, path).ins[0].id, path[|path| - 1];
    var h := if s < |g| then g[s := g[s].(output := At(p))] else g;
    p < |h| && k < |h[p].inputs| && g2 == h[p := h[p].(inputs := h[p].inputs[k := s])]
  }

  /** The operators next to the one taken out. */
  lemma CutLinks(tb: Tables, g: Nodes, n: nat, t: Plan, path: seq<nat>)
    requires Stands(tb, g, n, t) && Leads(t, path) && |Sub(t, path).ins| == 1
    ensures var v := Sub(t, path); var s := v.ins[0];
      && v.id < n && s.id < n && s.id != v.id && s.id != t.id && g[v.id].inputs == [s.id] && Has(t, s.id) && Has(t, t.id)
      && Stands(tb, g, n, s) && Stands(tb, g, n, v)
      && (path == [] ==> v == t)
      && (path != [] ==>
           var p, k := Parent(t, path).id, path[|path| - 1];
           p < n && Has(t, p) && p != v.id && p != s.id && v.id != t.id
           && k < |g[p].inputs| && g[p].inputs[k] == v.id && g[v.id].output == At(p))
  {
    var v := Sub(t, path);
    var s := v.ins[0];
    SubStands(tb, g, n, t, path);
    StandsInput(tb, g, n, v, 0);
    assert Has(v, v.id) && Has(v, s.id) && Has(s, s.id) && Has(t, t.id);
    SubHas(t, path, s.id);
    if path != [] {
      ParentLink(g, t, path);
      ParentHas(t, path);
      SubNotRoot(t, path);
      SubStands(tb, g, n, t, path[..|path| - 1]);
      StandsInput(tb, g, n, Parent(t, path), path[|path| - 1]);
    }
  }

  lemma CutRegrafted(tb: Tables, g: Nodes, n: nat, g2: Nodes, t: Plan, path: seq<nat>)
    requires Stands(tb, g, n, t) && Leads(t, path) && path != [] && |Sub(t, path).ins| == 1 && Cut(g, g2, t, path)
    ensures var s := Sub(t, path).ins[0];
      Regrafted(g, g2, t, path, s) && Fresh(t, path, s) && Stands(tb, g2, n, s)
    ensures g2[t.id].output == g[t.id].output
  {
    var v := Sub(t, path);
    var s := v.ins[0];
    CutLinks(tb, g, n, t, path);
    ParentHas(t, path);
    assert Has(s, s.id);
    forall i: nat | Has(s, i)
      ensures Has(v, i)
    {
    }
    KeptStands(tb, g, g2, n, n, s);
  }

  /** An operator with the schema and flag of its input can be taken out. */
  lemma CutStands(tb: Tables, g: Nodes, n: nat, g2: Nodes, t: Plan, path: seq<nat>)
    requires Stands(tb, g, n, t) && Leads(t, path) && path != [] && |Sub(t, path).ins| == 1 && Cut(g, g2, t, path)
    requires SchemaOf(tb, Sub(t, path)) == SchemaOf(tb, Sub(t, path).ins[0])
    requires IsStream(Sub(t, path)) == IsStream(Sub(t, path).ins[0])
    ensures Stands(tb, g2, n, Graft(t, path, Sub(t, path).ins[0]))
    ensures g2[t.id].output == g[t.id].output && Graft(t, path, Sub(t, path).ins[0]).id == t.id
  {
    CutRegrafted(tb, g, n, g2, t, path);
    RegraftedStands(tb, g, n, g2, n, t, path, Sub(t, path).ins[0]);
    RegraftedRoot(t, path, Sub(t, path).ins[0]);
  }

  /**
   Takes out an operator that has the schema and flag of its input: its input gets its output, and
   the operator above, if any, reads the input instead.
   */
  method TakeOut(pool: Pool, plan: nat, op: nat, ghost t: Plan, ghost path: seq<nat>) returns (root: nat)
    requires pool.Holds(t) && t.id == plan && pool.ops[plan].output == Null
    requires Leads(t, path) && |Sub(t, path).ins| == 1 && op == Sub(t, path).id && (path != [] ==> path[|path| - 1] == 0)
    requires SchemaOf(pool.tables, Sub(t, path)) == SchemaOf(pool.tables, Sub(t, path).ins[0])
    requires IsStream(Sub(t, path)) == IsStream(Sub(t, path).ins[0])
    modifies pool.ops
    ensures var r := Graft(t, path, Sub(t, path).ins[0]);
      pool.Holds(r) && root == r.id && pool.ops[root].output == Null
    ensures forall i :: 0 <= i < pool.ops.Length && !Has(t, i) ==> pool.ops[i] == old(pool.ops[i])
    ensures op < pool.ops.Length && pool.ops[op] == old(pool.ops[op])
  {
    ghost var g := pool.ops[..];
    CutLinks(pool.tables, g, pool.count, t, path);
    var below := pool.ops[op].inputs[0];
    pool.ops[below] := pool.ops[below].(output := pool.ops[op].output);
    if pool.ops[op].output == Null {
      root := below;
      CutRoot(pool.tables, g, pool.count, pool.ops[..], t);
    } else {
      root := plan;
      var above := pool.ops[op].output.id;
      pool.ops[above] := pool.ops[above].(inputs := pool.ops[above].inputs[0 := below]);
      CutStands(pool.tables, g, pool.count, pool.ops[..], t, path);
    }
  }

  lemma CutRoot(tb: Tables, g: Nodes, n: nat, g2: Nodes, t: Plan)
    requires Stands(tb, g, n, t) && |t.ins| == 1 && t.ins[0].id < |g|
    requires g2 == g[t.ins[0].id := g[t.ins[0].id].(output := Null)]
    ensures Stands(tb, g2, n, t.ins[0])
  {
    StandsInput(tb, g, n, t, 0);
    KeptStands(tb, g, g2, n, n, t.ins[0]);
  }

  // ---------------------------------------------------------------- putting a new part in place

  /** Below n, only the outputs of the given operators may differ. */
  ghost predicate OnlyOutputs(g: Nodes, g2: Nodes, n: nat, ids: seq<nat>) {
    && |g2| == |g| && n <= |g|
    && forall j :: 0 <= j < n ==> g2[j] == if j in ids then g[j].(output := g2[j].output) else g[j]
  }

  /** Plan u has been built from parts of what the path leads to, and waits to take its place. */
  ghost predicate Prepared(tb: Tables, g0: Nodes, n0: nat, g: Nodes, n: nat, t: Plan, path: seq<nat>, u: Plan, ids: seq<nat>) {
    && Stands(tb, g0, n0, t) && Leads(t, path) && n0 <= n && Stands(tb, g, n, u) && g[u.id].output == Null && n0 <= u.id
    && OnlyOutputs(g0, g, n0, ids)
    && (forall i: nat {:trigger Has(u, i)} :: Has(u, i) ==> n0 <= i || Has(Sub(t, path), i))
    && (forall k :: 0 <= k < |ids| ==> Has(Sub(t, path), ids[k]) && ids[k] != Sub(t, path).id)
  }

  /** The links around the place. */
  lemma PreparedLinks(tb: Tables, g0: Nodes, n0: nat, g: Nodes, n: nat, t: Plan, path: seq<nat>, u: Plan, ids: seq<nat>)
    requires Prepared(tb, g0, n0, g, n, t, path, u, ids)
    ensures var v := Sub(t, path);
      && u.id < n && v.id < n0 && t.id < n0
      && (path == [] ==> t == v && g[v.id].output == g0[t.id].output)
      && (path != [] ==>
           var p := Parent(t, path).id;
           p < n0 && g[v.id].output == At(p) && path[|path| - 1] < |g[p].inputs|)
  {
    var v := Sub(t, path);
    SubStands(tb, g0, n0, t, path);
    assert Has(u, u.id) && Has(v, v.id) && Has(t, t.id);
    if path != [] {
      ParentHas(t, path);
      ParentLink(g0, t, path);
      SubStands(tb, g0, n0, t, path[..|path| - 1]);
    }
  }

  /** The links once plan u is in place. */
  ghost predicate Placed(g: Nodes, g2: Nodes, t: Plan, path: seq<nat>, u: Plan)
    requires Leads(t, path)
  {
    if path == [] then g2 == g
    else
      var p, k := Parent(t, path).id, path[|path| - 1];
      && u.id < |g| && p < |g| && p != u.id && k < |g[p].inputs|
      && g2 == g[u.id := g[u.id].(output := At(p))][p := g[p].(inputs := g[p].inputs[k := u.id])]
  }

  lemma PlacedRegrafted(tb: Tables, g0: Nodes, n0: nat, g: Nodes, n: nat, g2: Nodes, t: Plan, path: seq<nat>, u: Plan, ids: seq<nat>)
    requires Prepared(tb, g0, n0, g, n, t, path, u, ids) && path != [] && Placed(g, g2, t, path, u)
    ensures Regrafted(g0, g2, t, path, u) && Fresh(t, path, u) && Stands(tb, g2, n, u)
    ensures t.id < |g2| && g2[t.id].output == g0[t.id].output
  {
    var v := Sub(t, path);
    ParentHas(t, path);
    SubNotRoot(t, path);
    PreparedLinks(tb, g0, n0, g, n, t, path, u, ids);
    assert Has(t, t.id) && Has(u, u.id);
    forall j: nat | Has(t, j) && !Has(v, j)
      ensures j < n0 && j !in ids && !Has(u, j)
    {
    }
    KeptStands(tb, g, g2, n, n, u);
  }

  /** A part with the same schema and flag can take the place. */
  lemma PlacedStands(tb: Tables, g0: Nodes, n0: nat, g: Nodes, n: nat, g2: Nodes, t: Plan, path: seq<nat>, u: Plan, ids: seq<nat>)
    requires Prepared(tb, g0, n0, g, n, t, path, u, ids) && Placed(g, g2, t, path, u)
    requires SchemaOf(tb, u) == SchemaOf(tb, Sub(t, path)) && IsStream(u) == IsStream(Sub(t, path))
    ensures Stands(tb, g2, n, Graft(t, path, u))
    ensures path != [] ==> Graft(t, path, u).id == t.id && g2[t.id].output == g0[t.id].output
    ensures path == [] ==> Graft(t, path, u) == u && g2[u.id].output == Null
  {
    if path != [] {
      PlacedRegrafted(tb, g0, n0, g, n, g2, t, path, u, ids);
      RegraftedStands(tb, g0, n0, g2, n, t, path, u);
      RegraftedRoot(t, path, u);
    }
  }

  /** Puts plan u in the place of the operator op, under op's reader or at the root. */
  method Place(pool: Pool, plan: nat, op: nat, tree: nat, ghost g0: Nodes, ghost n0: nat, ghost t: Plan, ghost path: seq<nat>,
               ghost u: Plan, ghost ids: seq<nat>) returns (root: nat)
    requires pool.Valid() && Prepared(pool.tables, g0, n0, pool.ops[..], pool.count, t, path, u, ids)
    requires t.id == plan && g0[plan].output == Null && op == Sub(t, path).id && tree == u.id
    requires path != [] ==> path[|path| - 1] == 0
    modifies pool.ops
    ensures Placed(old(pool.ops[..]), pool.ops[..], t, path, u)
    ensures root == Graft(t, path, u).id
  {
    PreparedLinks(pool.tables, g0, n0, pool.ops[..], pool.count, t, path, u, ids);
    root := plan;
    pool.ops[tree] := pool.ops[tree].(output := pool.ops[op].output);
    if pool.ops[tree].output != Null {
      var above := pool.ops[tree].output.id;
      pool.ops[above] := pool.ops[above].(inputs := pool.ops[above].inputs[0 := tree]);
      RegraftedRoot(t, path, u);
    } else {
      root := tree;
    }
  }
}
