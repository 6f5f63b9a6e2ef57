/** Removing a useless project, done on the links of the pool. */
module TransformProject {
  import opened Common
  import opened LogicalPlan
  import opened LogicalTrees
  import opened LogicalOps
  import opened Marking
  import opened Bypass
  import opened RewriteProject

  /** Walking down from t along path, the search is at cur. */
  ghost predicate AtProject(tb: Tables, t: Plan, path: seq<nat>, cur: Plan) {
    && Chain(t, path, OverProject) && Leads(t, path) && cur == Sub(t, path)
    && ProjectRemoved(tb, t) == Graft(t, path, ProjectRemoved(tb, cur))
    && (path != [] ==> path[|path| - 1] == 0)
  }

  lemma AtProjectOn(tb: Tables, t: Plan, path: seq<nat>, cur: Plan)
    requires AtProject(tb, t, path, cur) && OverProject(cur.op) && |cur.ins| == 1
    ensures AtProject(tb, t, path + [0], cur.ins[0])
  {
    ChainOn(t, path, OverProject);
    ChainGraftOn(t, path, OverProject, ProjectRemoved(tb, cur.ins[0]));
  }

  /** Leaving a part as it is leaves the plan as it is. */
  lemma {:induction false} GraftSelf(t: Plan, path: seq<nat>)
    requires Leads(t, path)
    ensures Graft(t, path, Sub(t, path)) == t
  {
    if path != [] {
      GraftSelf(t.ins[path[0]], path[1..]);
    }
  }

  /** Compares the columns of a project with those of its input, name by name. */
  method IsUselessProject(pool: Pool, project: nat, ghost t: Plan) returns (useless: bool)
    requires pool.Holds(t) && t.id == project && t.op.Project? && |t.ins| == 1
    ensures useless == Useless(pool.tables, t)
  {
    StandsInput(pool.tables, pool.ops[..], pool.count, t, 0);
    assert Has(t, t.id);
    assert NodeRight(pool.tables, pool.ops[..], t, Attrs) && NodeRight(pool.tables, pool.ops[..], t.ins[0], Attrs);
    var input := pool.ops[project].inputs[0];
    if |pool.ops[project].attrs| != |pool.ops[input].attrs| {
      return false;
    }
    for a := 0 to |pool.ops[project].attrs|
      invariant forall k :: 0 <= k < a ==> Same(pool.ops[project].attrs[k], pool.ops[input].attrs[k])
    {
      if !Same(pool.ops[project].attrs[a], pool.ops[input].attrs[a]) {
        return false;
      }
    }
    return true;
  }

  /** Removes the first project below operators that keep the schema, if its columns are those of its input. */
  method RemoveProject(pool: Pool, plan: nat, ghost t: Plan) returns (root: nat)
    requires pool.Holds(t) && t.id == plan && pool.ops[plan].output == Null && Sound(pool.tables, t)
    modifies pool.ops
    ensures var r := ProjectRemoved(pool.tables, t);
      pool.Holds(r) && root == r.id && pool.ops[root].output == Null
    ensures forall i :: 0 <= i < pool.ops.Length && !Has(t, i) ==> pool.ops[i] == old(pool.ops[i])
  {
    root := plan;
    var op, path := FindProject(pool, plan, t);
    if op == Null {
      return;
    }
    ghost var v := Sub(t, path);
    SubStands(pool.tables, pool.ops[..], pool.count, t, path);
    var useless := IsUselessProject(pool, op.id, v);
    if useless {
      UselessShape(pool.tables, v);
      root := TakeOut(pool, plan, op.id, t, path);
    } else {
      GraftSelf(t, path);
    }
  }

  lemma UselessShape(tb: Tables, v: Plan)
    requires Useless(tb, v)
    ensures SchemaOf(tb, v) == SchemaOf(tb, v.ins[0]) && IsStream(v) == IsStream(v.ins[0])
  {
    SchemaStep(tb, v);
  }

  /** Looks for a project below operators that keep the schema. */
  method FindProject(pool: Pool, plan: nat, ghost t: Plan) returns (op: Ptr, ghost path: seq<nat>)
    requires pool.Holds(t) && t.id == plan && Sound(pool.tables, t)
    ensures op == Null ==> ProjectRemoved(pool.tables, t) == t
    ensures op != Null ==>
      Leads(t, path) && AtProject(pool.tables, t, path, Sub(t, path)) && Sub(t, path).op.Project?
      && |Sub(t, path).ins| == 1 && op == At(Sub(t, path).id)
  {
    var cur := plan;
    path := [];
    ghost var c := t;
    while true
      invariant AtProject(pool.tables, t, path, c) && cur == c.id && pool.Holds(c) && Sound(pool.tables, c)
      decreases c
    {
      if pool.ops[cur].op.Project? {
        return At(cur), path;
      }
      if OverProject(pool.ops[cur].op) {
        AtProjectOn(pool.tables, t, path, c);
        StandsInput(pool.tables, pool.ops[..], pool.count, c, 0);
        cur := pool.ops[cur].inputs[0];
        path, c := path + [0], c.ins[0];
      } else {
        GraftSelf(t, path);
        return Null, path;
      }
    }
  }
}
