/** Pushing selects down, done on the links of the pool. */
module TransformSelect {
  import opened Common
  import opened LogicalPlan
  import opened LogicalTrees
  import opened LogicalOps
  import opened Marking
  import opened Bypass
  import opened RewriteSelect
  import opened PushedForm
  import opened TransformProject

  // ---------------------------------------------------------------- references

  /** Whether an attribute is among those of an operator. */
  method CheckAttr(pool: Pool, attr: Attr, op: nat) returns (found: bool)
    requires op < pool.ops.Length
    ensures found <==> Find(pool.ops[op].attrs, attr) < |pool.ops[op].attrs|
  {
    var attrs := pool.ops[op].attrs;
    for a := 0 to |attrs|
      invariant forall j :: 0 <= j < a ==> !Same(attr, attrs[j])
    {
      if Same(attr, attrs[a]) {
        return true;
      }
    }
    return false;
  }

  /** Whether an operator has all attributes of an expression. */
  method CheckReference(pool: Pool, e: LExpr, op: nat) returns (ok: bool)
    requires op < pool.ops.Length
    ensures ok <==> Resolves(e, pool.ops[op].attrs)
  {
    match e {
      case Const(_) => ok := true;
      case AttrRef(a) => ok := CheckAttr(pool, a, op);
      case Comp(_, l, r) =>
        ok := CheckReference(pool, l, op);
        if ok {
          ok := CheckReference(pool, r, op);
        }
    }
  }

  /** Whether a select can go below an operator, and into which input. */
  method CanBePushed(pool: Pool, pred: LBExpr, op: nat, ghost t: Plan) returns (can: bool, childPos: nat)
    requires pool.Holds(t) && t.id == op && Sound(pool.tables, t)
    ensures can <==> Pushable(pool.tables, pred, t)
    ensures can ==> childPos == Way(pool.tables, pred, t)
  {
    childPos := 0;
    if pool.ops[op].op.Select? {
      return true, 0;
    }
    if !(pool.ops[op].op.Cross? || pool.ops[op].op.StreamCross?) {
      return false, 0;
    }
    ghost var schemas := Schemas(pool.tables, t.ins);
    assert schemas[0..] == schemas;
    while childPos < |pool.ops[op].inputs|
      invariant childPos <= |t.ins| && Supplier(pred, schemas) == childPos + Supplier(pred, schemas[childPos..])
    {
      StandsInput(pool.tables, pool.ops[..], pool.count, t, childPos);
      assert NodeRight(pool.tables, pool.ops[..], t.ins[childPos], Attrs);
      var left := CheckReference(pool, pred.left, pool.ops[op].inputs[childPos]);
      var right := CheckReference(pool, pred.right, pool.ops[op].inputs[childPos]);
      if left && right {
        return true, childPos;
      }
      assert schemas[childPos..][1..] == schemas[childPos + 1..];
      childPos := childPos + 1;
    }
    can := false;
  }

  // ---------------------------------------------------------------- one push

  /** Walking down from x along path, the select has got to just above cur. */
  ghost predicate AtPush(tb: Tables, b: LBExpr, id: nat, x: Plan, path: seq<nat>, cur: Plan, useful: bool) {
    && Leads(x, path) && cur == Sub(x, path)
    && Push(tb, b, id, x) == Graft(x, path, Push(tb, b, id, cur))
    && (Useful(tb, b, x) <==> useful || Useful(tb, b, cur))
    && (useful ==> path != [])
  }

  lemma AtPushOn(tb: Tables, b: LBExpr, id: nat, x: Plan, path: seq<nat>, cur: Plan, useful: bool)
    requires AtPush(tb, b, id, x, path, cur, useful) && Pushable(tb, b, cur)
    ensures AtPush(tb, b, id, x, path + [Way(tb, b, cur)], cur.ins[Way(tb, b, cur)], useful || !cur.op.Select?)
  {
    var k := Way(tb, b, cur);
    LeadsOn(x, path, k);
    GraftOn(x, path, k, Push(tb, b, id, cur.ins[k]));
  }

  /** Looks for the place to push a select to. */
  method FindPlace(pool: Pool, pred: LBExpr, from: nat, ghost x: Plan) returns (op: nat, siblingPos: nat, useful: bool, ghost path: seq<nat>)
    requires pool.Holds(x) && x.id == from && Sound(pool.tables, x)
    ensures Leads(x, path) && op == Sub(x, path).id && !Pushable(pool.tables, pred, Sub(x, path))
    ensures AtPush(pool.tables, pred, pool.count, x, path, Sub(x, path), useful)
    ensures path != [] ==> siblingPos == path[|path| - 1]
  {
    hide Right;
    op, siblingPos, useful, path := from, 0, false, [];
    ghost var cur := x;
    while true
      invariant AtPush(pool.tables, pred, pool.count, x, path, cur, useful)
      invariant op == cur.id && pool.Holds(cur) && Sound(pool.tables, cur)
      invariant path != [] ==> siblingPos == path[|path| - 1]
      decreases cur
    {
      var can, childPos := CanBePushed(pool, pred, op, cur);
      if !can {
        return;
      }
      AtPushOn(pool.tables, pred, pool.count, x, path, cur, useful);
      StandsInput(pool.tables, pool.ops[..], pool.count, cur, childPos);
      if !pool.ops[op].op.Select? {
        useful := true;
      }
      op, siblingPos := pool.ops[op].inputs[childPos], childPos;
      path, cur := path + [childPos], cur.ins[childPos];
    }
  }

  /** A select in slot i between the operator at the end of the path and the one above it. */
  ghost predicate Inserted(g: Nodes, g2: Nodes, t: Plan, path: seq<nat>, i: nat)
    requires Leads(t, path) && path != []
  {
    var v, p, k := Sub(t, path), Parent(t, path).id, path[|path| - 1];
    && |g2| == |g| && p < i < |g| && k < |g[p].inputs|
    && (forall j :: 0 <= j < i && j != p ==> g2[j] == if j == v.id then g[j].(output := At(i)) else g[j])
    && g2[p] == g[p].(inputs := g[p].inputs[k := i])
    && g2[i].output == At(p)
  }

  lemma InsertedStands(tb: Tables, g: Nodes, n: nat, g2: Nodes, t: Plan, path: seq<nat>, b: LBExpr)
    requires Stands(tb, g, n, t) && Leads(t, path) && path != [] && n < |g| && Inserted(g, g2, t, path, n)
    requires Stands(tb, g2, n + 1, Over(n, b, Sub(t, path)))
    ensures Stands(tb, g2, n + 1, Graft(t, path, Over(n, b, Sub(t, path))))
    ensures g2[t.id].output == g[t.id].output && Graft(t, path, Over(n, b, Sub(t, path))).id == t.id
  {
    var v := Sub(t, path);
    var u := Over(n, b, v);
    ParentHas(t, path);
    SubNotRoot(t, path);
    SubStands(tb, g, n, t, path);
    assert Has(t, t.id) && Has(v, v.id);
    OverShape(tb, n, b, v);
    forall j: nat | Has(t, j)
      ensures j < n
    {
    }
    assert Fresh(t, path, u);
    assert Regrafted(g, g2, t, path, u);
    RegraftedStands(tb, g, n, g2, n + 1, t, path, u);
    RegraftedRoot(t, path, u);
  }

  lemma OverShape(tb: Tables, id: nat, b: LBExpr, t: Plan)
    ensures SchemaOf(tb, Over(id, b, t)) == SchemaOf(tb, t) && IsStream(Over(id, b, t)) == IsStream(t)
  {
    var u := Over(id, b, t);
    SchemaStep(tb, u);
    assert Schemas(tb, u.ins)[0] == SchemaOf(tb, t) && Flags(u.ins)[0] == IsStream(t);
  }

  /** Puts a copy of a select between an operator and the one above it. */
  method InsertSelect(pool: Pool, op: nat, siblingPos: nat, pred: LBExpr, ghost t: Plan, ghost path: seq<nat>)
    requires pool.Holds(t) && Leads(t, path) && path != [] && op == Sub(t, path).id && siblingPos == path[|path| - 1]
    requires pool.count < MAX_OPERATOR
    modifies pool`count, pool.ops
    ensures pool.count == old(pool.count) + 1 && pool.Holds(Graft(t, path, Over(old(pool.count), pred, Sub(t, path))))
    ensures Inserted(old(pool.ops[..]), pool.ops[..], t, path, old(pool.count))
    ensures t.id < pool.ops.Length && pool.ops[t.id].output == old(pool.ops[..])[t.id].output
  {
    hide Linked, Right;
    ghost var g, n, v := pool.ops[..], pool.count, Sub(t, path);
    InsertLinks(pool.tables, g, n, t, path);
    var above := pool.ops[op].output.id;
    var pushed := pool.MkUnary(Select(pred), op, v);
    ghost var h := pool.ops[..];
    pool.ops[above] := pool.ops[above].(inputs := pool.ops[above].inputs[siblingPos := pushed.id]);
    pool.ops[pushed.id] := pool.ops[pushed.id].(output := At(above));
    InsertedOver(pool.tables, g, n, h, pool.ops[..], t, path, pred);
    InsertedStands(pool.tables, g, n, pool.ops[..], t, path, pred);
  }

  lemma InsertLinks(tb: Tables, g: Nodes, n: nat, t: Plan, path: seq<nat>)
    requires Stands(tb, g, n, t) && Leads(t, path) && path != []
    ensures var v, p := Sub(t, path), Parent(t, path).id;
      && Stands(tb, g, n, v) && v.id < n && p < n && p != v.id && t.id < n
      && g[v.id].output == At(p) && path[|path| - 1] < |g[p].inputs|
  {
    SubStands(tb, g, n, t, path);
    ParentHas(t, path);
    ParentLink(g, t, path);
    SubStands(tb, g, n, t, path[..|path| - 1]);
    assert Has(t, t.id) && Has(Sub(t, path), Sub(t, path).id);
  }

  lemma InsertedOver(tb: Tables, g: Nodes, n: nat, h: Nodes, g2: Nodes, t: Plan, path: seq<nat>, b: LBExpr)
    requires Stands(tb, g, n, t) && Leads(t, path) && path != [] && n < |h|
    requires Stands(tb, h, n + 1, Over(n, b, Sub(t, path))) && Inserted(g, g2, t, path, n)
    requires |g2| == |h| && g2[n] == h[n].(output := g2[n].output)
    requires forall j :: 0 <= j < n && j != Parent(t, path).id ==> g2[j] == h[j]
    ensures Stands(tb, g2, n + 1, Over(n, b, Sub(t, path)))
  {
    var u := Over(n, b, Sub(t, path));
    ParentHas(t, path);
    forall j: nat | Has(u, j) && j != n
      ensures j < n && j != Parent(t, path).id
    {
      assert Has(Sub(t, path), j);
      SubHas(t, path, j);
    }
    KeptStands(tb, h, g2, n + 1, n + 1, u);
  }

  // ---------------------------------------------------------------- paths in two parts

  lemma {:induction false} PathsJoin(t: Plan, p: seq<nat>, q: seq<nat>, u: Plan)
    requires Leads(t, p) && Leads(Sub(t, p), q)
    ensures Leads(t, p + q) && Sub(t, p + q) == Sub(Sub(t, p), q)
    ensures Graft(t, p + q, u) == Graft(t, p, Graft(Sub(t, p), q, u))
    ensures q != [] ==> Parent(t, p + q) == Parent(Sub(t, p), q)
  {
    if p == [] {
      assert p + q == q;
    } else {
      PathsJoin(t.ins[p[0]], p[1..], q, u);
      assert (p + q)[1..] == p[1..] + q;
    }
  }

  lemma {:induction false} GraftTwice(t: Plan, path: seq<nat>, u: Plan, v: Plan)
    requires Leads(t, path)
    ensures Leads(Graft(t, path, u), path) && Sub(Graft(t, path, u), path) == u
    ensures Graft(Graft(t, path, u), path, v) == Graft(t, path, v)
  {
    if path != [] {
      GraftTwice(t.ins[path[0]], path[1..], u, v);
    }
  }

  // ---------------------------------------------------------------- pushing one select

  /** The plan after a copy of the select at the end of the path has been pushed. */
  ghost function CopyPushed(tb: Tables, t: Plan, path: seq<nat>, id: nat): Plan
    requires Leads(t, path) && Sub(t, path).op.Select? && |Sub(t, path).ins| == 1
  {
    var s := Sub(t, path);
    Graft(t, path, s.(ins := [Push(tb, s.op.pred, id, s.ins[0])]))
  }

  /**
   Pushes a copy of a select as far down as it can go, if that gets it below a product; the select
   itself stays.
   */
  method PushSelect(pool: Pool, select: nat, ghost t: Plan, ghost path: seq<nat>) returns (bPushed: bool)
    requires pool.Holds(t) && Sound(pool.tables, t) && Leads(t, path) && select == Sub(t, path).id
    requires Sub(t, path).op.Select? && |Sub(t, path).ins| == 1
    requires Useful(pool.tables, Sub(t, path).op.pred, Sub(t, path).ins[0]) ==> pool.count < MAX_OPERATOR
    modifies pool`count, pool.ops
    ensures pool.Valid() && (bPushed <==> Useful(pool.tables, Sub(t, path).op.pred, Sub(t, path).ins[0]))
    ensures !bPushed ==> pool.ops[..] == old(pool.ops[..]) && pool.count == old(pool.count)
    ensures bPushed ==>
      && pool.count == old(pool.count) + 1 && pool.Holds(CopyPushed(pool.tables, t, path, old(pool.count)))
      && t.id < pool.ops.Length && pool.ops[t.id].output == old(pool.ops[..])[t.id].output
  {
    ghost var s := Sub(t, path);
    SubStands(pool.tables, pool.ops[..], pool.count, t, path);
    SubSound(pool.tables, t, path);
    StandsInput(pool.tables, pool.ops[..], pool.count, s, 0);
    var pred := pool.ops[select].op.pred;
    var op, siblingPos, useful, q := FindPlace(pool, pred, pool.ops[select].inputs[0], s.ins[0]);
    bPushed := useful;
    if useful {
      PushPath(pool.tables, t, path, q, pool.count);
      InsertSelect(pool, op, siblingPos, pred, t, path + [0] + q);
    }
  }

  lemma PushPath(tb: Tables, t: Plan, path: seq<nat>, q: seq<nat>, id: nat)
    requires Leads(t, path) && Sub(t, path).op.Select? && |Sub(t, path).ins| == 1
    requires var s := Sub(t, path);
      && Leads(s.ins[0], q) && q != [] && !Pushable(tb, s.op.pred, Sub(s.ins[0], q))
      && AtPush(tb, s.op.pred, id, s.ins[0], q, Sub(s.ins[0], q), true)
    ensures var s := Sub(t, path); var p := path + [0] + q;
      && Leads(t, p) && Sub(t, p) == Sub(s.ins[0], q) && p != [] && p[|p| - 1] == q[|q| - 1]
      && Graft(t, p, Over(id, s.op.pred, Sub(t, p))) == CopyPushed(tb, t, path, id)
  {
    var s := Sub(t, path);
    var u := Over(id, s.op.pred, Sub(s.ins[0], q));
    assert ([0] + q)[1..] == q;
    PathsJoin(t, path, [0] + q, u);
    assert path + [0] + q == path + ([0] + q);
    assert s.ins[0 := Graft(s.ins[0], q, u)] == [Push(tb, s.op.pred, id, s.ins[0])];
  }

  // ---------------------------------------------------------------- pushing all of them

  /** The operators above the select whose turn it is. */
  predicate AboveTurn(op: Payload) {
    OverSelect(op) || op.Select?
  }

  /** The state between two turns: the result will be what pushing the rest gives. */
  ghost predicate Turn(tb: Tables, t0: Plan, id0: nat, t: Plan, path: seq<nat>, id: nat) {
    && Chain(t, path, AboveTurn) && Leads(t, path)
    && SelectsPushed(tb, t0, id0).0 == Graft(t, path, PushTopSelects(tb, Sub(t, path), id).0)
    && SelectsPushed(tb, t0, id0).1 == PushTopSelects(tb, Sub(t, path), id).1
  }

  lemma {:induction false} TurnsTake(tb: Tables, t: Plan, id: nat)
    ensures id <= PushTopSelects(tb, t, id).1
    ensures t.op.Select? && |t.ins| == 1 && Useful(tb, t.op.pred, t.ins[0]) ==> id < PushTopSelects(tb, t, id).1
    decreases Tops(t)
  {
    if t.op.Select? && |t.ins| == 1 {
      var b, x := t.op.pred, t.ins[0];
      if Useful(tb, b, x) {
        PushTops(tb, b, id, x);
        TurnsTake(tb, Push(tb, b, id, x), id + 1);
      } else {
        TurnsTake(tb, x, id);
      }
    }
  }

  /** A select that stays: the next one is its input. */
  lemma TurnStays(tb: Tables, t0: Plan, id0: nat, t: Plan, path: seq<nat>, id: nat)
    requires Turn(tb, t0, id0, t, path, id)
    requires var s := Sub(t, path); s.op.Select? && |s.ins| == 1 && !Useful(tb, s.op.pred, s.ins[0])
    ensures Turn(tb, t0, id0, t, path + [0], id) && Sub(t, path + [0]) == Sub(t, path).ins[0]
    ensures Tops(Sub(t, path + [0])) < Tops(Sub(t, path))
  {
    ChainOn(t, path, AboveTurn);
    ChainGraftOn(t, path, AboveTurn, PushTopSelects(tb, Sub(t, path).ins[0], id).0);
  }

  /** A select that was pushed: the next one takes its place. */
  lemma TurnPushed(tb: Tables, t0: Plan, id0: nat, t: Plan, path: seq<nat>, id: nat)
    requires Turn(tb, t0, id0, t, path, id)
    requires var s := Sub(t, path); s.op.Select? && |s.ins| == 1 && Useful(tb, s.op.pred, s.ins[0])
    ensures var s := Sub(t, path); var u := Push(tb, s.op.pred, id, s.ins[0]);
      && Turn(tb, t0, id0, Graft(t, path, u), path, id + 1) && Sub(Graft(t, path, u), path) == u
      && Tops(u) < Tops(s) && u.id == s.ins[0].id
      && Leads(CopyPushed(tb, t, path, id), path)
      && Sub(CopyPushed(tb, t, path, id), path) == s.(ins := [u])
      && Graft(CopyPushed(tb, t, path, id), path, u) == Graft(t, path, u)
  {
    var s := Sub(t, path);
    var u := Push(tb, s.op.pred, id, s.ins[0]);
    PushTops(tb, s.op.pred, id, s.ins[0]);
    ChainGraft(t, path, AboveTurn, u);
    GraftTwice(t, path, u, PushTopSelects(tb, u, id + 1).0);
    GraftTwice(t, path, s.(ins := [u]), u);
  }

  /** The plan after one turn stays sound. */
  lemma TurnSound(tb: Tables, t: Plan, path: seq<nat>, id: nat)
    requires Sound(tb, t) && Leads(t, path) && Sub(t, path).op.Select? && |Sub(t, path).ins| == 1
    ensures var s := Sub(t, path); var u := Push(tb, s.op.pred, id, s.ins[0]);
      && Sound(tb, Graft(t, path, u)) && SchemaOf(tb, s.(ins := [u])) == SchemaOf(tb, u) && IsStream(s.(ins := [u])) == IsStream(u)
  {
    var s := Sub(t, path);
    var u := Push(tb, s.op.pred, id, s.ins[0]);
    SubSound(tb, t, path);
    assert s == Over(s.id, s.op.pred, s.ins[0]) && s.(ins := [u]) == Over(s.id, s.op.pred, u);
    OverShape(tb, s.id, s.op.pred, s.ins[0]);
    OverShape(tb, s.id, s.op.pred, u);
    PushSchema(tb, s.op.pred, id, s.ins[0]);
    PushSound(tb, s.op.pred, id, s.ins[0]);
    GraftSound(tb, t, path, u);
  }

  /** A select's turn: it is pushed and taken out, or stays. */
  method TakeTurn(pool: Pool, plan: nat, select: nat, ghost t0: Plan, ghost id0: nat, ghost t: Plan, ghost path: seq<nat>)
    returns (root: nat, next: nat, ghost t2: Plan, ghost path2: seq<nat>)
    requires pool.Holds(t) && t.id == plan && pool.ops[plan].output == Null && Sound(pool.tables, t)
    requires Turn(pool.tables, t0, id0, t, path, pool.count) && select == Sub(t, path).id
    requires Sub(t, path).op.Select? && |Sub(t, path).ins| == 1
    requires SelectsPushed(pool.tables, t0, id0).1 <= MAX_OPERATOR
    modifies pool`count, pool.ops
    ensures pool.Holds(t2) && t2.id == root && pool.ops[root].output == Null && Sound(pool.tables, t2)
    ensures Turn(pool.tables, t0, id0, t2, path2, pool.count) && next == Sub(t2, path2).id
    ensures Tops(Sub(t2, path2)) < Tops(Sub(t, path))
  {
    ghost var id := pool.count;
    TurnsTake(pool.tables, Sub(t, path), id);
    CutLinks(pool.tables, pool.ops[..], pool.count, t, path);
    root := plan;
    var bPushed := PushSelect(pool, select, t, path);
    if bPushed {
      root, t2 := RemovePushed(pool, plan, select, t0, id0, t, path, id);
      path2 := path;
      next := pool.ops[select].inputs[0];
      return;
    }
    TurnStays(pool.tables, t0, id0, t, path, pool.count);
    t2, path2 := t, path + [0];
    next := pool.ops[select].inputs[0];
  }

  /** Takes out a select a copy of which has been pushed. */
  method RemovePushed(pool: Pool, plan: nat, select: nat, ghost t0: Plan, ghost id0: nat, ghost t: Plan, ghost path: seq<nat>, ghost id: nat)
    returns (root: nat, ghost t2: Plan)
    requires Turn(pool.tables, t0, id0, t, path, id) && select == Sub(t, path).id && Sound(pool.tables, t)
    requires var s := Sub(t, path); s.op.Select? && |s.ins| == 1 && Useful(pool.tables, s.op.pred, s.ins[0])
    requires t.id == plan && pool.count == id + 1 && pool.Holds(CopyPushed(pool.tables, t, path, id))
    requires pool.ops[plan].output == Null
    modifies pool.ops
    ensures pool.Holds(t2) && t2.id == root && pool.ops[root].output == Null && Sound(pool.tables, t2)
    ensures Turn(pool.tables, t0, id0, t2, path, pool.count) && Tops(Sub(t2, path)) < Tops(Sub(t, path))
    ensures select < pool.ops.Length && pool.ops[select].inputs == [Sub(t2, path).id]
  {
    hide Linked, Right;
    ghost var s, t1 := Sub(t, path), CopyPushed(pool.tables, t, path, id);
    ghost var u := Push(pool.tables, s.op.pred, id, s.ins[0]);
    t2 := Graft(t, path, u);
    TurnPushed(pool.tables, t0, id0, t, path, id);
    TurnSound(pool.tables, t, path, id);
    CutLinks(pool.tables, pool.ops[..], pool.count, t1, path);
    if path != [] {
      ChainLast(t, path, AboveTurn);
    }
    root := TakeOut(pool, plan, select, t1, path);
  }

  /** Walking down to the first select. */
  ghost predicate AtSelect(tb: Tables, id: nat, t: Plan, path: seq<nat>, cur: Plan) {
    && Chain(t, path, AboveTurn) && Leads(t, path) && cur == Sub(t, path)
    && SelectsPushed(tb, t, id).0 == Graft(t, path, SelectsPushed(tb, cur, id).0)
    && SelectsPushed(tb, t, id).1 == SelectsPushed(tb, cur, id).1
  }

  lemma AtSelectOn(tb: Tables, id: nat, t: Plan, path: seq<nat>, cur: Plan)
    requires AtSelect(tb, id, t, path, cur) && OverSelect(cur.op) && |cur.ins| == 1
    ensures AtSelect(tb, id, t, path + [0], cur.ins[0])
  {
    ChainOn(t, path, AboveTurn);
    ChainGraftOn(t, path, AboveTurn, SelectsPushed(tb, cur.ins[0], id).0);
  }

  method FindSelect(pool: Pool, plan: nat, ghost t: Plan) returns (select: Ptr, ghost path: seq<nat>)
    requires pool.Holds(t) && t.id == plan && Sound(pool.tables, t)
    ensures select == Null ==> SelectsPushed(pool.tables, t, pool.count) == (t, pool.count)
    ensures select != Null ==>
      Turn(pool.tables, t, pool.count, t, path, pool.count) && Sub(t, path).op.Select? && select == At(Sub(t, path).id)
  {
    var op := plan;
    path := [];
    ghost var cur := t;
    while true
      invariant AtSelect(pool.tables, pool.count, t, path, cur) && op == cur.id && pool.Holds(cur) && Sound(pool.tables, cur)
      decreases cur
    {
      if pool.ops[op].op.Select? {
        return At(op), path;
      }
      if OverSelect(pool.ops[op].op) {
        AtSelectOn(pool.tables, pool.count, t, path, cur);
        StandsInput(pool.tables, pool.ops[..], pool.count, cur, 0);
        op := pool.ops[op].inputs[0];
        path, cur := path + [0], cur.ins[0];
      } else {
        GraftSelf(t, path);
        return Null, path;
      }
    }
  }

  /**
   Pushes the selects below the first unary operators, from the top one on, each as far as it can go.
   The pool must have room for the copies: there is no check.
   */
  method PushSelects(pool: Pool, plan: nat, ghost t: Plan) returns (root: nat)
    requires pool.Holds(t) && t.id == plan && pool.ops[plan].output == Null && Sound(pool.tables, t)
    requires SelectsPushed(pool.tables, t, pool.count).1 <= MAX_OPERATOR
    modifies pool`count, pool.ops
    ensures var r := SelectsPushed(pool.tables, t, old(pool.count));
      pool.Holds(r.0) && root == r.0.id && pool.ops[root].output == Null && pool.count == r.1
  {
    root := plan;
    ghost var id0 := pool.count;
    var found, path := FindSelect(pool, plan, t);
    if found == Null {
      return;
    }
    var select := found.id;
    ghost var cur := t;
    while true
      invariant pool.Holds(cur) && cur.id == root && pool.ops[root].output == Null && Sound(pool.tables, cur)
      invariant Turn(pool.tables, t, id0, cur, path, pool.count) && select == Sub(cur, path).id && Sub(cur, path).op.Select?
      decreases Tops(Sub(cur, path))
    {
      SubSound(pool.tables, cur, path);
      root, select, cur, path := TakeTurn(pool, root, select, t, id0, cur, path);
      SubStands(pool.tables, pool.ops[..], pool.count, cur, path);
      if !pool.ops[select].op.Select? {
        GraftSelf(cur, path);
        return;
      }
    }
  }
}
