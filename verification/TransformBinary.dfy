/** Making products binary, done on the links of the pool. */
module TransformBinary {
  import opened Common
  import opened LogicalPlan
  import opened LogicalTrees
  import opened LogicalOps
  import opened Products
  import opened Marking
  import opened RewriteBinary
  import opened TransformProject
  import opened Bypass

  /** A plan that shares no operator with the two that were linked is left alone. */
  lemma LinkedElse(tb: Tables, g: Nodes, g2: Nodes, n: nat, n2: nat, a: nat, b: nat, u: Plan)
    requires Stands(tb, g, n, u) && !Has(u, a) && !Has(u, b) && |g2| == |g| && n <= n2 <= |g|
    requires forall j :: 0 <= j < n && j != a && j != b ==> g2[j] == g[j]
    ensures Stands(tb, g2, n2, u)
  {
    assert Has(u, u.id);
    KeptStands(tb, g, g2, n, n2, u);
  }

  /** A product of two plans. */
  method BinaryProduct(pool: Pool, kind: Payload, left: nat, right: nat, ghost a: Plan, ghost b: Plan) returns (op: Ptr)
    requires IsProduct(kind) && pool.Holds(a) && pool.Holds(b) && Apart(a, b) && a.id == left && b.id == right
    requires kind.StreamCross? ==> IsStream(a)
    requires |SchemaOf(pool.tables, a)| + |SchemaOf(pool.tables, b)| <= MAX_ATTRS
    modifies pool`count, pool.ops
    ensures pool.Valid()
    ensures op == Null <==> old(pool.count) == MAX_OPERATOR
    ensures op != Null ==>
      && op == At(old(pool.count)) && pool.count == old(pool.count) + 1
      && pool.Holds(Plan(op.id, kind, [a, b])) && pool.ops[op.id].output == Null
    ensures op != Null ==> OnlyOutputs(old(pool.ops[..]), pool.ops[..], old(pool.count), [left, right])
  {
    ghost var g, n := pool.ops[..], pool.count;
    assert Has(a, a.id) && Has(b, b.id);
    if kind.Cross? {
      op := pool.MkCross();
      if op == Null {
        return;
      }
      LinkedElse(pool.tables, g, pool.ops[..], n, pool.count, n, n, a);
      LinkedElse(pool.tables, g, pool.ops[..], n, pool.count, n, n, b);
      op := CrossTwo(pool, op.id, left, right, a, b);
    } else {
      assert NodeRight(pool.tables, g, a, Flag);
      op := pool.MkStreamCross(left, a);
      if op == Null {
        return;
      }
      LinkedElse(pool.tables, g, pool.ops[..], n, pool.count, n, left, b);
      op := StreamCrossSecond(pool, op.id, left, right, a, b);
    }
  }

  /** The two inputs of a new cross product. */
  method CrossTwo(pool: Pool, cross: nat, left: nat, right: nat, ghost a: Plan, ghost b: Plan) returns (op: Ptr)
    requires pool.Holds(Plan(cross, Cross, [])) && pool.Holds(a) && pool.Holds(b) && Apart(a, b) && a.id == left && b.id == right
    requires !Has(a, cross) && !Has(b, cross) && pool.ops[cross].output == Null && cross + 1 == pool.count
    requires |SchemaOf(pool.tables, a)| + |SchemaOf(pool.tables, b)| <= MAX_ATTRS
    modifies pool.ops
    ensures op == At(cross) && pool.Holds(Plan(cross, Cross, [a, b])) && pool.ops[cross].output == Null
    ensures OnlyOutputs(old(pool.ops[..]), pool.ops[..], cross, [left, right])
  {
    hide Linked, Right;
    ghost var g, n := pool.ops[..], pool.count;
    ghost var c := Plan(cross, Cross, []);
    assert Has(a, a.id) && Has(b, b.id) && Apart(c, a);
    SchemaStep(pool.tables, c);
    var ok := pool.CrossAddInput(cross, left, c, a);
    ghost var c1 := Plan(cross, Cross, [a]);
    assert c.ins + [a] == [a];
    LinkedElse(pool.tables, g, pool.ops[..], n, n, cross, left, b);
    SchemaStep(pool.tables, c1);
    assert Schemas(pool.tables, [a]) == [SchemaOf(pool.tables, a)];
    FlatOne(SchemaOf(pool.tables, a));
    OneApart(c1, a, b);
    ok := pool.CrossAddInput(cross, right, c1, b);
    assert c1.ins + [b] == [a, b];
    op := At(cross);
  }

  lemma OneApart(c: Plan, a: Plan, b: Plan)
    requires c.ins == [a] && Apart(a, b) && !Has(b, c.id)
    ensures Apart(c, b)
  {
  }

  /** The second input of a new stream cross product. */
  method StreamCrossSecond(pool: Pool, cross: nat, left: nat, right: nat, ghost a: Plan, ghost b: Plan) returns (op: Ptr)
    requires pool.Holds(Plan(cross, StreamCross, [a])) && pool.Holds(b) && Apart(a, b) && a.id == left && b.id == right
    requires !Has(b, cross) && pool.ops[cross].output == Null && cross + 1 == pool.count
    requires |SchemaOf(pool.tables, a)| + |SchemaOf(pool.tables, b)| <= MAX_ATTRS
    modifies pool.ops
    ensures op == At(cross) && pool.Holds(Plan(cross, StreamCross, [a, b])) && pool.ops[cross].output == Null
    ensures OnlyOutputs(old(pool.ops[..]), pool.ops[..], cross, [left, right])
  {
    ghost var c := Plan(cross, StreamCross, [a]);
    assert Has(a, a.id) && Has(b, b.id);
    OneApart(c, a, b);
    SchemaStep(pool.tables, c);
    assert Schemas(pool.tables, [a]) == [SchemaOf(pool.tables, a)];
    FlatOne(SchemaOf(pool.tables, a));
    var ok := pool.StreamCrossAddInput(cross, right, c, b);
    assert c.ins + [b] == [a, b];
    op := At(cross);
  }

  // ---------------------------------------------------------------- the whole product

  lemma {:induction false} LeftDeepHas(op: Payload, ts: seq<Plan>, id: nat, i: nat)
    requires |ts| >= 2 && Has(LeftDeep(op, ts, id), i)
    ensures id <= i < id + |ts| - 1 || exists k :: 0 <= k < |ts| && Has(ts[k], i)
  {
    var u, m := LeftDeep(op, ts, id), |ts| - 1;
    if i != u.id {
      var k :| 0 <= k < |u.ins| && Has(u.ins[k], i);
      if |ts| > 2 {
        if k == 0 {
          LeftDeepHas(op, ts[..m], id, i);
          if exists j :: 0 <= j < m && Has(ts[..m][j], i) {
            var j :| 0 <= j < m && Has(ts[..m][j], i);
            assert Has(ts[j], i);
          }
        } else {
          assert Has(ts[m], i);
        }
      } else {
        assert Has(ts[k], i);
      }
    }
  }

  /** A tree over the first plans has nothing in common with a later one. */
  lemma LeftDeepApart(tb: Tables, g: Nodes, n: nat, op: Payload, ts: seq<Plan>, i: nat, k: nat)
    requires AllApart(ts) && 2 <= i <= k < |ts| && Stands(tb, g, n, ts[k])
    ensures Apart(LeftDeep(op, ts[..i], n), ts[k])
  {
    forall j: nat | Has(LeftDeep(op, ts[..i], n), j)
      ensures !Has(ts[k], j)
    {
      LeftDeepHas(op, ts[..i], n, j);
      if !(n <= j) {
        var m :| 0 <= m < i && Has(ts[..i][m], j);
        assert Apart(ts[m], ts[k]);
      }
    }
  }

  lemma {:induction false} FlatPart(parts: seq<Schema>, i: nat)
    requires i < |parts|
    ensures |Flat(parts[..i])| + |parts[i]| <= |Flat(parts)|
  {
    FlatFirst(parts, i);
  }

  /** While the tree grows: it holds the first i plans, the others wait, and nothing else changed. */
  ghost predicate Grown(tb: Tables, g0: Nodes, n0: nat, g: Nodes, n: nat, kind: Payload, ts: seq<Plan>, i: nat)
    requires 2 <= i <= |ts|
  {
    && n == n0 + i - 1 && n <= |g|
    && Stands(tb, g, n, LeftDeep(kind, ts[..i], n0)) && g[LeftDeep(kind, ts[..i], n0).id].output == Null
    && OnlyOutputs(g0, g, n0, Ids(ts[..i]))
  }

  /** The plans that wait are as they were. */
  lemma WaitingStands(tb: Tables, g0: Nodes, n0: nat, g: Nodes, n: nat, kind: Payload, ts: seq<Plan>, i: nat)
    requires AllStand(tb, g0, n0, ts) && 2 <= i < |ts| && Grown(tb, g0, n0, g, n, kind, ts, i)
    ensures Stands(tb, g, n, ts[i]) && Apart(LeftDeep(kind, ts[..i], n0), ts[i])
  {
    assert Has(ts[i], ts[i].id);
    forall j: nat | Has(ts[i], j)
      ensures j < n0 && g[j] == g0[j]
    {
    }
    KeptStands(tb, g0, g, n0, n, ts[i]);
    LeftDeepApart(tb, g0, n0, kind, ts, i, i);
  }

  /** The first two plans. */
  method GrowFirst(pool: Pool, kind: Payload, left: nat, right: nat, ghost ts: seq<Plan>) returns (op: Ptr)
    requires pool.Valid() && IsProduct(kind) && |ts| >= 2 && AllStand(pool.tables, pool.ops[..], pool.count, ts)
    requires kind.StreamCross? ==> IsStream(ts[0])
    requires |Flat(Schemas(pool.tables, ts))| <= MAX_ATTRS && left == ts[0].id && right == ts[1].id
    modifies pool`count, pool.ops
    ensures pool.Valid() && (op == Null <==> old(pool.count) == MAX_OPERATOR)
    ensures op != Null ==>
      && op == At(LeftDeep(kind, ts[..2], old(pool.count)).id)
      && Grown(pool.tables, old(pool.ops[..]), old(pool.count), pool.ops[..], pool.count, kind, ts, 2)
  {
    var ss := Schemas(pool.tables, ts);
    assert Flat(ss[..1]) == ss[0] by {
      assert ss[..1] == [ss[0]];
      FlatOne(ss[0]);
    }
    FlatPart(ss, 1);
    op := BinaryProduct(pool, kind, left, right, ts[0], ts[1]);
    assert ts[..2] == [ts[0], ts[1]];
    assert Ids(ts[..2]) == [left, right];
  }

  /** One more plan. */
  method GrowOne(pool: Pool, kind: Payload, tree: nat, next: nat, ghost g0: Nodes, ghost n0: nat, ghost ts: seq<Plan>, ghost i: nat)
    returns (op: Ptr)
    requires pool.Valid() && IsProduct(kind) && 2 <= i < |ts| && AllStand(pool.tables, g0, n0, ts)
    requires kind.StreamCross? ==> IsStream(ts[0])
    requires |Flat(Schemas(pool.tables, ts))| <= MAX_ATTRS && tree == LeftDeep(kind, ts[..i], n0).id && next == ts[i].id
    requires Grown(pool.tables, g0, n0, pool.ops[..], pool.count, kind, ts, i)
    modifies pool`count, pool.ops
    ensures pool.Valid() && (op == Null <==> old(pool.count) == MAX_OPERATOR)
    ensures op != Null ==>
      && op == At(LeftDeep(kind, ts[..i + 1], n0).id)
      && Grown(pool.tables, g0, n0, pool.ops[..], pool.count, kind, ts, i + 1)
  {
    hide Stands;
    ghost var g, n := pool.ops[..], pool.count;
    ghost var u := LeftDeep(kind, ts[..i], n0);
    WaitingStands(pool.tables, g0, n0, g, n, kind, ts, i);
    LeftDeepShape(pool.tables, kind, ts[..i], n0);
    assert Schemas(pool.tables, ts[..i]) == Schemas(pool.tables, ts)[..i];
    FlatPart(Schemas(pool.tables, ts), i);
    op := BinaryProduct(pool, kind, tree, next, u, ts[i]);
    if op != Null {
      GrownOne(pool.tables, g0, n0, g, n, pool.ops[..], kind, ts, i);
    }
  }

  lemma GrownOne(tb: Tables, g0: Nodes, n0: nat, g: Nodes, n: nat, g2: Nodes, kind: Payload, ts: seq<Plan>, i: nat)
    requires 2 <= i < |ts| && Grown(tb, g0, n0, g, n, kind, ts, i) && n + 1 <= |g2|
    requires OnlyOutputs(g, g2, n, [LeftDeep(kind, ts[..i], n0).id, ts[i].id])
    requires Stands(tb, g2, n + 1, Plan(n, kind, [LeftDeep(kind, ts[..i], n0), ts[i]])) && g2[n].output == Null
    ensures Grown(tb, g0, n0, g2, n + 1, kind, ts, i + 1)
    ensures LeftDeep(kind, ts[..i + 1], n0).id == n
  {
    hide Stands;
    var more := ts[..i + 1];
    assert more[..i] == ts[..i] && more[i] == ts[i];
    assert LeftDeep(kind, more, n0) == Plan(n, kind, [LeftDeep(kind, ts[..i], n0), ts[i]]);
    assert Ids(more) == Ids(ts[..i]) + [ts[i].id];
    assert LeftDeep(kind, ts[..i], n0).id >= n0;
  }

  // ---------------------------------------------------------------- the transformation

  /** Walking down from t along path, the search for a product is at cur. */
  ghost predicate AtProduct(kind: Payload, id: nat, t: Plan, path: seq<nat>, cur: Plan) {
    && Chain(t, path, OverProduct) && Leads(t, path) && cur == Sub(t, path)
    && MadeBinary(kind, t, id) == Graft(t, path, MadeBinary(kind, cur, id))
    && Needed(kind, t) == Needed(kind, cur)
    && (path != [] ==> path[|path| - 1] == 0)
  }

  lemma ProductMade(kind: Payload, id: nat, t: Plan, path: seq<nat>)
    requires Leads(t, path) && AtProduct(kind, id, t, path, Sub(t, path)) && Sub(t, path).op == kind && |Sub(t, path).ins| > 2
    ensures MadeBinary(kind, t, id) == Graft(t, path, LeftDeep(kind, Sub(t, path).ins, id))
    ensures Needed(kind, t) == |Sub(t, path).ins| - 1 && (path != [] ==> path[|path| - 1] == 0)
  {
  }

  lemma AtProductOn(kind: Payload, id: nat, t: Plan, path: seq<nat>, cur: Plan)
    requires IsProduct(kind) && AtProduct(kind, id, t, path, cur) && OverProduct(cur.op) && |cur.ins| == 1
    ensures AtProduct(kind, id, t, path + [0], cur.ins[0])
  {
    ChainOn(t, path, OverProduct);
    ChainGraftOn(t, path, OverProduct, MadeBinary(kind, cur.ins[0], id));
  }

  /** Looks for a product of the kind with more than two inputs, below unary operators. */
  method FindProduct(pool: Pool, kind: Payload, plan: nat, ghost t: Plan) returns (op: Ptr, ghost path: seq<nat>)
    requires IsProduct(kind) && pool.Holds(t) && t.id == plan && Sound(pool.tables, t)
    ensures op == Null ==> MadeBinary(kind, t, pool.count) == t && Needed(kind, t) == 0
    ensures op != Null ==>
      && Leads(t, path) && AtProduct(kind, pool.count, t, path, Sub(t, path))
      && Sub(t, path).op == kind && |Sub(t, path).ins| > 2 && op == At(Sub(t, path).id)
  {
    hide Right;
    var cur := plan;
    path := [];
    ghost var c := t;
    while true
      invariant AtProduct(kind, pool.count, t, path, c) && cur == c.id && pool.Holds(c) && Sound(pool.tables, c)
      decreases c
    {
      if pool.ops[cur].op == kind {
        if |pool.ops[cur].inputs| == 2 {
          GraftSelf(t, path);
          return Null, path;
        }
        return At(cur), path;
      }
      if OverProduct(pool.ops[cur].op) {
        AtProductOn(kind, pool.count, t, path, c);
        StandsInput(pool.tables, pool.ops[..], pool.count, c, 0);
        cur := pool.ops[cur].inputs[0];
        path, c := path + [0], c.ins[0];
      } else {
        GraftSelf(t, path);
        return Null, path;
      }
    }
  }

  lemma ProductInputs(tb: Tables, g: Nodes, n: nat, v: Plan)
    requires Stands(tb, g, n, v) && Sound(tb, v) && IsProduct(v.op) && |v.ins| >= 2
    ensures AllStand(tb, g, n, v.ins) && |Flat(Schemas(tb, v.ins))| <= MAX_ATTRS
    ensures v.op.StreamCross? ==> IsStream(v.ins[0])
    ensures g[v.id].inputs == Ids(v.ins)
  {
    SchemaStep(tb, v);
    assert NodeRight(tb, g, v, Attrs);
    assert Flags(v.ins)[0] == IsStream(v.ins[0]);
    forall k | 0 <= k < |v.ins|
      ensures Stands(tb, g, n, v.ins[k])
    {
      StandsInput(tb, g, n, v, k);
    }
  }

  /** Builds the left-deep tree over the inputs of a product. */
  method BuildLeftDeep(pool: Pool, kind: Payload, product: nat, ghost v: Plan) returns (op: Ptr)
    requires IsProduct(kind) && pool.Holds(v) && v.id == product && v.op == kind && |v.ins| > 2 && Sound(pool.tables, v)
    modifies pool`count, pool.ops
    ensures pool.Valid() && (op == Null <==> old(pool.count) + |v.ins| - 1 > MAX_OPERATOR)
    ensures op != Null ==>
      && op == At(LeftDeep(kind, v.ins, old(pool.count)).id) && pool.count == old(pool.count) + |v.ins| - 1
      && Grown(pool.tables, old(pool.ops[..]), old(pool.count), pool.ops[..], pool.count, kind, v.ins, |v.ins|)
  {
    ghost var g0, n0, ts := pool.ops[..], pool.count, v.ins;
    var inputs := pool.ops[product].inputs;
    ProductInputs(pool.tables, g0, n0, v);
    op := GrowFirst(pool, kind, inputs[0], inputs[1], ts);
    if op == Null {
      return;
    }
    op := GrowRest(pool, kind, op.id, inputs, g0, n0, ts);
    assert ts[..|ts|] == ts;
  }

  /** The plans after the first two. */
  method GrowRest(pool: Pool, kind: Payload, tree: nat, inputs: seq<nat>, ghost g0: Nodes, ghost n0: nat, ghost ts: seq<Plan>)
    returns (op: Ptr)
    requires pool.Valid() && IsProduct(kind) && |ts| > 2 && inputs == Ids(ts) && AllStand(pool.tables, g0, n0, ts)
    requires kind.StreamCross? ==> IsStream(ts[0])
    requires |Flat(Schemas(pool.tables, ts))| <= MAX_ATTRS && tree == LeftDeep(kind, ts[..2], n0).id
    requires Grown(pool.tables, g0, n0, pool.ops[..], pool.count, kind, ts, 2)
    modifies pool`count, pool.ops
    ensures pool.Valid() && (op == Null <==> n0 + |ts| - 1 > MAX_OPERATOR)
    ensures op != Null ==>
      && op == At(LeftDeep(kind, ts[..|ts|], n0).id)
      && Grown(pool.tables, g0, n0, pool.ops[..], pool.count, kind, ts, |ts|)
  {
    op := At(tree);
    var i: nat := 2;
    while i < |inputs|
      invariant 2 <= i <= |inputs| && op == At(LeftDeep(kind, ts[..i], n0).id) && pool.Valid()
      invariant Grown(pool.tables, g0, n0, pool.ops[..], pool.count, kind, ts, i)
    {
      op := GrowOne(pool, kind, op.id, inputs[i], g0, n0, ts, i);
      if op == Null {
        return;
      }
      i := i + 1;
    }
  }

  lemma InputIds(tb: Tables, g: Nodes, n: nat, v: Plan)
    requires Stands(tb, g, n, v)
    ensures forall k :: 0 <= k < |v.ins| ==> Has(v, v.ins[k].id) && v.ins[k].id != v.id
  {
    forall k | 0 <= k < |v.ins|
      ensures Has(v, v.ins[k].id) && v.ins[k].id != v.id
    {
      assert Has(v.ins[k], v.ins[k].id);
    }
  }

  lemma BinaryPrepared(tb: Tables, g0: Nodes, n0: nat, g: Nodes, n: nat, t: Plan, path: seq<nat>)
    requires Stands(tb, g0, n0, t) && Leads(t, path) && IsProduct(Sub(t, path).op) && |Sub(t, path).ins| > 2
    requires var v := Sub(t, path); Grown(tb, g0, n0, g, n, v.op, v.ins, |v.ins|)
    ensures var v := Sub(t, path); var u := LeftDeep(v.op, v.ins, n0);
      && Prepared(tb, g0, n0, g, n, t, path, u, Ids(v.ins))
      && SchemaOf(tb, u) == SchemaOf(tb, v) && IsStream(u) == IsStream(v)
  {
    hide Linked, Right;
    var v := Sub(t, path);
    var u := LeftDeep(v.op, v.ins, n0);
    assert v.ins[..|v.ins|] == v.ins;
    SubStands(tb, g0, n0, t, path);
    InputIds(tb, g0, n0, v);
    LeftDeepInside(n0, v);
    LeftDeepShape(tb, v.op, v.ins, n0);
    SchemaStep(tb, v);
  }

  lemma LeftDeepInside(n0: nat, v: Plan)
    requires IsProduct(v.op) && |v.ins| > 2
    ensures forall i: nat {:trigger Has(LeftDeep(v.op, v.ins, n0), i)} :: Has(LeftDeep(v.op, v.ins, n0), i) ==> n0 <= i || Has(v, i)
  {
    forall i: nat | Has(LeftDeep(v.op, v.ins, n0), i)
      ensures n0 <= i || Has(v, i)
    {
      LeftDeepHas(v.op, v.ins, n0, i);
    }
  }

  /** Makes the first product of the kind binary, if it is below unary operators only. */
  method MakeBinary(pool: Pool, kind: Payload, plan: nat, ghost t: Plan) returns (rc: int, root: nat)
    requires IsProduct(kind) && pool.Holds(t) && t.id == plan && pool.ops[plan].output == Null && Sound(pool.tables, t)
    modifies pool`count, pool.ops
    ensures pool.Valid() && (rc == 0 <==> old(pool.count) + Needed(kind, t) <= MAX_OPERATOR)
    ensures rc == 0 ==>
      var r := MadeBinary(kind, t, old(pool.count));
      && pool.Holds(r) && root == r.id && pool.ops[root].output == Null
      && pool.count == old(pool.count) + Needed(kind, t)
  {
    hide Right, Tidy, Prepared, Grown, Placed, Sound;
    root := plan;
    ghost var g0, n0 := pool.ops[..], pool.count;
    var op, path := FindProduct(pool, kind, plan, t);
    if op == Null {
      return 0, plan;
    }
    ghost var v := Sub(t, path);
    SubStands(pool.tables, g0, n0, t, path);
    SubSound(pool.tables, t, path);
    var tree := BuildLeftDeep(pool, kind, op.id, v);
    if tree == Null {
      return -1, plan;
    }
    ghost var g, u := pool.ops[..], LeftDeep(kind, v.ins, n0);
    BinaryPrepared(pool.tables, g0, n0, g, pool.count, t, path);
    ProductMade(kind, n0, t, path);
    hide AtProduct, MadeBinary, Needed, LeftDeep;
    root := Place(pool, plan, op.id, tree.id, g0, n0, t, path, u, Ids(v.ins));
    PlacedStands(pool.tables, g0, n0, g, pool.count, pool.ops[..], t, path, u, Ids(v.ins));
    rc := 0;
  }
}
