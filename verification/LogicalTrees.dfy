/**
 Plans in a pool of operators: records with links to inputs and output, a schema and a stream flag,
 and when these represent a plan.
 */
module LogicalTrees {
  import opened Common
  import opened LogicalPlan

  datatype Node = Node(op: Payload, attrs: Schema, bStream: bool, output: Ptr, inputs: seq<nat>)

  type Nodes = seq<Node>

  /** Slot i holds an operator of the plan. */
  ghost predicate Has(t: Plan, i: nat) {
    i == t.id || exists k :: 0 <= k < |t.ins| && Has(t.ins[k], i)
  }

  ghost predicate Apart(t: Plan, u: Plan) {
    forall i: nat :: Has(t, i) ==> !Has(u, i)
  }

  ghost predicate AllApart(ts: seq<Plan>) {
    forall j, k :: 0 <= j < |ts| && 0 <= k < |ts| && j != k ==> Apart(ts[j], ts[k])
  }

  /** Every operator of the plan has a slot of its own. */
  ghost predicate Tidy(t: Plan) {
    && AllApart(t.ins)
    && forall k :: 0 <= k < |t.ins| ==> !Has(t.ins[k], t.id) && Tidy(t.ins[k])
  }

  /** Inputs and outputs link the operators the way the plan says; the output of the root is left open. */
  ghost predicate Linked(g: Nodes, t: Plan) {
    && t.id < |g| && g[t.id].op == t.op && |g[t.id].inputs| == |t.ins|
    && forall k :: 0 <= k < |t.ins| ==>
         g[t.id].inputs[k] == t.ins[k].id && Linked(g, t.ins[k]) && g[t.ins[k].id].output == At(t.id)
  }

  /** The two things stored about an operator that its inputs determine. */
  datatype Mark = Attrs | Flag

  /** What is stored about the root of t is what its inputs determine. */
  ghost predicate NodeRight(tb: Tables, g: Nodes, t: Plan, m: Mark) {
    t.id < |g| &&
    match m
    case Attrs => g[t.id].attrs == SchemaOf(tb, t) && |g[t.id].attrs| <= MAX_ATTRS
    case Flag => g[t.id].bStream == IsStream(t)
  }

  ghost predicate Right(tb: Tables, g: Nodes, t: Plan, m: Mark) {
    NodeRight(tb, g, t, m) && forall k :: 0 <= k < |t.ins| ==> Right(tb, g, t.ins[k], m)
  }

  /** The plan stands in the pool, of which the first n slots are taken. */
  ghost predicate Stands(tb: Tables, g: Nodes, n: nat, t: Plan) {
    && Linked(g, t) && Tidy(t)
    && Right(tb, g, t, Attrs) && Right(tb, g, t, Flag)
    && n <= |g| && forall i: nat :: Has(t, i) ==> i < n
  }

  // ---------------------------------------------------------------- what a change leaves alone

  /** Nothing about the operators of t differs, except possibly the output of the root. */
  ghost predicate Kept(g: Nodes, g2: Nodes, t: Plan) {
    && |g2| == |g| && t.id < |g|
    && (forall i: nat {:trigger Has(t, i)} :: Has(t, i) && i != t.id ==> i < |g| && g2[i] == g[i])
    && g2[t.id] == g[t.id].(output := g2[t.id].output)
  }

  lemma {:induction false} KeptLinked(g: Nodes, g2: Nodes, t: Plan)
    requires Linked(g, t) && Tidy(t) && Kept(g, g2, t)
    ensures Linked(g2, t)
  {
    forall k | 0 <= k < |t.ins|
      ensures g2[t.ins[k].id] == g[t.ins[k].id] && Linked(g2, t.ins[k])
    {
      KeptInput(g, g2, t, k);
      KeptLinked(g, g2, t.ins[k]);
    }
  }

  lemma KeptInput(g: Nodes, g2: Nodes, t: Plan, k: nat)
    requires Tidy(t) && Kept(g, g2, t) && k < |t.ins| && t.ins[k].id < |g|
    ensures Kept(g, g2, t.ins[k]) && g2[t.ins[k].id] == g[t.ins[k].id]
  {
    assert Has(t.ins[k], t.ins[k].id);
    forall i: nat | Has(t.ins[k], i)
      ensures Has(t, i) && i != t.id
    {
    }
  }

  lemma {:induction false} KeptRight(tb: Tables, g: Nodes, g2: Nodes, t: Plan, m: Mark)
    requires Right(tb, g, t, m) && Tidy(t) && Kept(g, g2, t)
    ensures Right(tb, g2, t, m)
  {
    forall k | 0 <= k < |t.ins|
      ensures Right(tb, g2, t.ins[k], m)
    {
      assert NodeRight(tb, g, t.ins[k], m);
      KeptInput(g, g2, t, k);
      KeptRight(tb, g, g2, t.ins[k], m);
    }
  }

  /** A plan stands as long as its operators are left alone. */
  lemma KeptStands(tb: Tables, g: Nodes, g2: Nodes, n: nat, n2: nat, t: Plan)
    requires Stands(tb, g, n, t) && Kept(g, g2, t) && n <= n2 <= |g2|
    ensures Stands(tb, g2, n2, t)
  {
    KeptLinked(g, g2, t);
    KeptRight(tb, g, g2, t, Attrs);
    KeptRight(tb, g, g2, t, Flag);
  }

  lemma StandsInput(tb: Tables, g: Nodes, n: nat, t: Plan, k: nat)
    requires Stands(tb, g, n, t) && k < |t.ins|
    ensures Stands(tb, g, n, t.ins[k])
    ensures g[t.id].inputs[k] == t.ins[k].id < n && g[t.ins[k].id].output == At(t.id)
  {
    assert Has(t.ins[k], t.ins[k].id);
    forall i: nat | Has(t.ins[k], i)
      ensures Has(t, i)
    {
    }
  }

  // ---------------------------------------------------------------- an operator on top of plans

  ghost predicate AllStand(tb: Tables, g: Nodes, n: nat, ts: seq<Plan>) {
    AllApart(ts) && forall k :: 0 <= k < |ts| ==> Stands(tb, g, n, ts[k])
  }

  function Ids(ts: seq<Plan>): (r: seq<nat>)
    ensures |r| == |ts|
  {
    seq(|ts|, k requires 0 <= k < |ts| => ts[k].id)
  }

  /** Slot i is a new operator over the plans ts, and nothing else about them changed. */
  lemma TopStands(tb: Tables, g: Nodes, n: nat, g2: Nodes, n2: nat, i: nat, op: Payload, ts: seq<Plan>)
    requires AllStand(tb, g, n, ts) && |g2| == |g| && n <= n2 <= |g2| && i < n2
    requires forall k :: 0 <= k < |ts| ==> !Has(ts[k], i) && Kept(g, g2, ts[k]) && g2[ts[k].id].output == At(i)
    requires g2[i].op == op && g2[i].inputs == Ids(ts) && |g2[i].attrs| <= MAX_ATTRS
    requires g2[i].attrs == OpSchema(tb, op, Schemas(tb, ts)) && g2[i].bStream == OpStream(op, Flags(ts))
    ensures Stands(tb, g2, n2, Plan(i, op, ts))
  {
    var t := Plan(i, op, ts);
    SchemaStep(tb, t);
    forall k | 0 <= k < |ts|
      ensures Stands(tb, g2, n2, ts[k])
    {
      KeptStands(tb, g, g2, n, n2, ts[k]);
    }
    forall j: nat | Has(t, j)
      ensures j < n2
    {
      if j != i {
        var k :| 0 <= k < |ts| && Has(ts[k], j);
      }
    }
  }

  // ---------------------------------------------------------------- replacing a part of a plan

  lemma {:induction false} SubHas(t: Plan, path: seq<nat>, i: nat)
    requires Leads(t, path) && Has(Sub(t, path), i)
    ensures Has(t, i)
  {
    if path != [] {
      SubHas(t.ins[path[0]], path[1..], i);
    }
  }

  lemma {:induction false} SubStands(tb: Tables, g: Nodes, n: nat, t: Plan, path: seq<nat>)
    requires Stands(tb, g, n, t) && Leads(t, path)
    ensures Stands(tb, g, n, Sub(t, path))
  {
    if path != [] {
      StandsInput(tb, g, n, t, path[0]);
      SubStands(tb, g, n, t.ins[path[0]], path[1..]);
    }
  }

  /** The operator above the one a path leads to. */
  ghost function Parent(t: Plan, path: seq<nat>): Plan
    requires Leads(t, path) && path != []
  {
    if |path| == 1 then t else Parent(t.ins[path[0]], path[1..])
  }

  /** The part of t that path leads to gives way to u: only one input link changes outside of it. */
  ghost predicate Regrafted(g: Nodes, g2: Nodes, t: Plan, path: seq<nat>, u: Plan)
    requires Leads(t, path) && path != []
  {
    var v, p, k := Sub(t, path), Parent(t, path), path[|path| - 1];
    && |g2| == |g| && p.id < |g| && k < |g[p.id].inputs| && u.id < |g2|
    && (forall i: nat {:trigger Has(t, i)} :: Has(t, i) && !Has(v, i) && i != p.id ==>
         i < |g| && g2[i] == if i == t.id then g[i].(output := g2[i].output) else g[i])
    && g2[p.id] == g[p.id].(inputs := g[p.id].inputs[k := u.id], output := if p.id == t.id then g2[p.id].output else g[p.id].output)
    && g2[u.id].output == At(p.id)
  }

  /** What u shares with t it shares with the part it replaces. */
  ghost predicate Fresh(t: Plan, path: seq<nat>, u: Plan)
    requires Leads(t, path)
  {
    forall i: nat {:trigger Has(u, i)} :: Has(u, i) && Has(t, i) ==> Has(Sub(t, path), i)
  }

  lemma {:induction false} ParentHas(t: Plan, path: seq<nat>)
    requires Leads(t, path) && path != [] && Tidy(t)
    ensures Has(t, Parent(t, path).id) && !Has(Sub(t, path), Parent(t, path).id)
    ensures path[|path| - 1] < |Parent(t, path).ins| && Sub(t, path) == Parent(t, path).ins[path[|path| - 1]]
    ensures |path| > 1 ==> Parent(t, path).id != t.id && Has(t.ins[path[0]], Parent(t, path).id)
  {
    if |path| > 1 {
      ParentHas(t.ins[path[0]], path[1..]);
    } else {
      assert path[1..] == [];
    }
  }

  lemma {:induction false} SubNotRoot(t: Plan, path: seq<nat>)
    requires Leads(t, path) && path != [] && Tidy(t)
    ensures !Has(Sub(t, path), t.id)
  {
    if Has(Sub(t, path), t.id) {
      SubHas(t.ins[path[0]], path[1..], t.id);
    }
  }

  /** The same surgery seen from the input the path goes through. */
  lemma RegraftedInput(g: Nodes, g2: Nodes, t: Plan, path: seq<nat>, u: Plan)
    requires Leads(t, path) && |path| > 1 && Tidy(t) && Linked(g, t) && Regrafted(g, g2, t, path, u) && Fresh(t, path, u)
    ensures Regrafted(g, g2, t.ins[path[0]], path[1..], u) && Fresh(t.ins[path[0]], path[1..], u)
    ensures t.ins[path[0]].id < |g| && g2[t.ins[path[0]].id].output == g[t.ins[path[0]].id].output
  {
    var x := t.ins[path[0]];
    ParentHas(t, path);
    ParentHas(x, path[1..]);
    SubNotRoot(x, path[1..]);
    assert Parent(t, path) == Parent(x, path[1..]);
    assert path[1..][|path| - 2] == path[|path| - 1];
    forall i: nat | Has(x, i)
      ensures Has(t, i) && i != t.id
    {
    }
    assert Has(x, x.id);
  }

  lemma RegraftedAside(g: Nodes, g2: Nodes, t: Plan, path: seq<nat>, u: Plan, k: nat)
    requires Leads(t, path) && path != [] && Tidy(t) && Linked(g, t) && Regrafted(g, g2, t, path, u)
    requires k < |t.ins| && k != path[0]
    ensures Kept(g, g2, t.ins[k]) && g2[t.ins[k].id] == g[t.ins[k].id]
  {
    var y, x := t.ins[k], t.ins[path[0]];
    assert Has(y, y.id) && Apart(y, x);
    ParentHas(t, path);
    forall i: nat | Has(y, i)
      ensures i < |g| && g2[i] == g[i]
    {
      assert Has(t, i) && i != t.id;
      if Has(Sub(t, path), i) {
        SubHas(x, path[1..], i);
        assert false;
      }
      assert i != Parent(t, path).id;
    }
  }

  lemma {:induction false} RegraftedLinked(g: Nodes, g2: Nodes, t: Plan, path: seq<nat>, u: Plan)
    requires Leads(t, path) && path != [] && Tidy(t) && Linked(g, t) && Regrafted(g, g2, t, path, u) && Fresh(t, path, u)
    requires Linked(g2, u)
    ensures Linked(g2, Graft(t, path, u))
  {
    var r, j := Graft(t, path, u), path[0];
    ParentHas(t, path);
    SubNotRoot(t, path);
    assert Has(t, t.id);
    forall k | 0 <= k < |t.ins| && k != j
      ensures Linked(g2, t.ins[k]) && g2[t.ins[k].id].output == At(t.id)
    {
      RegraftedAside(g, g2, t, path, u, k);
      KeptLinked(g, g2, t.ins[k]);
    }
    if |path| > 1 {
      RegraftedInput(g, g2, t, path, u);
      RegraftedLinked(g, g2, t.ins[j], path[1..], u);
      RegraftedRoot(t.ins[j], path[1..], u);
    } else {
      assert path[1..] == [] && r.ins[j] == u;
    }
  }

  lemma RegraftedRoot(t: Plan, path: seq<nat>, u: Plan)
    requires Leads(t, path) && path != []
    ensures Graft(t, path, u).id == t.id && Graft(t, path, u).op == t.op
  {
  }

  lemma {:induction false} GraftHas(t: Plan, path: seq<nat>, u: Plan, i: nat)
    requires Leads(t, path) && Has(Graft(t, path, u), i)
    ensures Has(t, i) || Has(u, i)
  {
    if path != [] && i != t.id {
      var r := Graft(t, path, u);
      var k :| 0 <= k < |r.ins| && Has(r.ins[k], i);
      if k == path[0] {
        GraftHas(t.ins[k], path[1..], u, i);
      }
    }
  }

  lemma {:induction false} GraftTidy(t: Plan, path: seq<nat>, u: Plan)
    requires Leads(t, path) && Tidy(t) && Tidy(u) && Fresh(t, path, u)
    ensures Tidy(Graft(t, path, u))
  {
    if path != [] {
      var r, j := Graft(t, path, u), path[0];
      var x := t.ins[j];
      forall i: nat | Has(u, i) && Has(x, i)
        ensures Has(Sub(x, path[1..]), i)
      {
        assert Has(t, i);
      }
      GraftTidy(x, path[1..], u);
      forall i: nat | Has(r.ins[j], i)
        ensures i != t.id
        ensures forall k :: 0 <= k < |t.ins| && k != j ==> !Has(t.ins[k], i)
      {
        GraftHas(x, path[1..], u, i);
        GraftAway(t, path, u, i);
      }
    }
  }

  /** An operator of x or u is neither the root of t nor in another input. */
  lemma GraftAway(t: Plan, path: seq<nat>, u: Plan, i: nat)
    requires Leads(t, path) && path != [] && Tidy(t) && Fresh(t, path, u)
    requires Has(t.ins[path[0]], i) || Has(u, i)
    ensures i != t.id && forall k :: 0 <= k < |t.ins| && k != path[0] ==> !Has(t.ins[k], i)
  {
    var x := t.ins[path[0]];
    forall k | 0 <= k < |t.ins| && k != path[0]
      ensures Apart(x, t.ins[k])
    {
    }
    if !Has(x, i) {
      if Has(t, i) {
        SubHas(x, path[1..], i);
      }
    }
  }

  /** Schema and flag of the whole stay if those of the part stay. */
  lemma {:induction false} GraftShape(tb: Tables, t: Plan, path: seq<nat>, u: Plan)
    requires Leads(t, path)
    ensures SchemaOf(tb, u) == SchemaOf(tb, Sub(t, path)) ==> SchemaOf(tb, Graft(t, path, u)) == SchemaOf(tb, t)
    ensures IsStream(u) == IsStream(Sub(t, path)) ==> IsStream(Graft(t, path, u)) == IsStream(t)
  {
    if path != [] {
      var r := Graft(t, path, u);
      GraftShape(tb, t.ins[path[0]], path[1..], u);
      SchemaStep(tb, t);
      SchemaStep(tb, r);
      if SchemaOf(tb, u) == SchemaOf(tb, Sub(t, path)) {
        assert Schemas(tb, r.ins) == Schemas(tb, t.ins);
      }
      if IsStream(u) == IsStream(Sub(t, path)) {
        assert Flags(r.ins) == Flags(t.ins);
      }
    }
  }

  lemma {:induction false} GraftSound(tb: Tables, t: Plan, path: seq<nat>, u: Plan)
    requires Leads(t, path) && Sound(tb, t) && Sound(tb, u)
    requires SchemaOf(tb, u) == SchemaOf(tb, Sub(t, path)) && IsStream(u) == IsStream(Sub(t, path))
    ensures Sound(tb, Graft(t, path, u))
  {
    if path != [] {
      var r := Graft(t, path, u);
      GraftShape(tb, t.ins[path[0]], path[1..], u);
      GraftSound(tb, t.ins[path[0]], path[1..], u);
      assert Schemas(tb, r.ins) == Schemas(tb, t.ins) && Flags(r.ins) == Flags(t.ins);
    }
  }

  /** The thing stored is the same for both plans. */
  ghost predicate SameMark(tb: Tables, t: Plan, u: Plan, m: Mark) {
    match m
    case Attrs => SchemaOf(tb, t) == SchemaOf(tb, u)
    case Flag => IsStream(t) == IsStream(u)
  }

  /** What is stored is right except possibly for the operators the path passes and the one it ends at. */
  ghost predicate RightOff(tb: Tables, g: Nodes, t: Plan, path: seq<nat>, m: Mark)
    requires Leads(t, path)
  {
    && (forall k :: 0 <= k < |t.ins| && (path == [] || k != path[0]) ==> Right(tb, g, t.ins[k], m))
    && (path != [] ==> RightOff(tb, g, t.ins[path[0]], path[1..], m))
  }

  lemma {:induction false} RegraftedOff(tb: Tables, g: Nodes, g2: Nodes, t: Plan, path: seq<nat>, u: Plan, m: Mark)
    requires Leads(t, path) && path != [] && Tidy(t) && Linked(g, t) && Regrafted(g, g2, t, path, u) && Fresh(t, path, u)
    requires Right(tb, g, t, m) && Right(tb, g2, u, m)
    ensures Leads(Graft(t, path, u), path[..|path| - 1])
    ensures RightOff(tb, g2, Graft(t, path, u), path[..|path| - 1], m)
  {
    var r, j := Graft(t, path, u), path[0];
    forall k | 0 <= k < |t.ins| && k != j
      ensures Right(tb, g2, t.ins[k], m)
    {
      RegraftedAside(g, g2, t, path, u, k);
      KeptRight(tb, g, g2, t.ins[k], m);
    }
    if |path| > 1 {
      RegraftedInput(g, g2, t, path, u);
      RegraftedOff(tb, g, g2, t.ins[j], path[1..], u, m);
      assert path[..|path| - 1][1..] == path[1..][..|path| - 2];
    } else {
      assert path[1..] == [] && r.ins[j] == u;
    }
  }

  lemma {:induction false} RegraftedRight(tb: Tables, g: Nodes, g2: Nodes, t: Plan, path: seq<nat>, u: Plan, m: Mark)
    requires Leads(t, path) && path != [] && Tidy(t) && Linked(g, t) && Regrafted(g, g2, t, path, u) && Fresh(t, path, u)
    requires SameMark(tb, u, Sub(t, path), m)
    requires Right(tb, g, t, m) && Right(tb, g2, u, m)
    ensures Right(tb, g2, Graft(t, path, u), m)
  {
    var r, j := Graft(t, path, u), path[0];
    GraftShape(tb, t, path, u);
    ParentHas(t, path);
    SubNotRoot(t, path);
    assert Has(t, t.id) && g2[t.id].attrs == g[t.id].attrs && g2[t.id].bStream == g[t.id].bStream;
    forall k | 0 <= k < |t.ins| && k != j
      ensures Right(tb, g2, t.ins[k], m)
    {
      RegraftedAside(g, g2, t, path, u, k);
      KeptRight(tb, g, g2, t.ins[k], m);
    }
    if |path| > 1 {
      RegraftedInput(g, g2, t, path, u);
      RegraftedRight(tb, g, g2, t.ins[j], path[1..], u, m);
    } else {
      assert path[1..] == [];
    }
  }

  /** After the surgery the new plan stands. */
  lemma RegraftedStands(tb: Tables, g: Nodes, n: nat, g2: Nodes, n2: nat, t: Plan, path: seq<nat>, u: Plan)
    requires Stands(tb, g, n, t) && Leads(t, path) && path != [] && n <= n2 <= |g2|
    requires Regrafted(g, g2, t, path, u) && Fresh(t, path, u) && Stands(tb, g2, n2, u)
    requires SchemaOf(tb, u) == SchemaOf(tb, Sub(t, path)) && IsStream(u) == IsStream(Sub(t, path))
    ensures Stands(tb, g2, n2, Graft(t, path, u))
  {
    RegraftedLinked(g, g2, t, path, u);
    GraftTidy(t, path, u);
    RegraftedRight(tb, g, g2, t, path, u, Attrs);
    RegraftedRight(tb, g, g2, t, path, u, Flag);
    forall i: nat | Has(Graft(t, path, u), i)
      ensures i < n2
    {
      GraftHas(t, path, u, i);
    }
  }
}
