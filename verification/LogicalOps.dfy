/**
 The pool of logical operators and the constructors that fill it.  Slots are handed out in order and
 never given back; every constructor leaves a plan that stands.
 */
module LogicalOps {
  import opened Common
  import opened LogicalPlan
  import opened LogicalTrees
  import opened Products

  const MAX_OPERATOR: nat := 500
  const MAX_GROUP_ATTRS: nat := 10
  const MAX_AGGR_ATTRS: nat := 10

  /** Among the first n slots, only the outputs of the given ones change: they become i. */
  ghost predicate Topped(g: Nodes, g2: Nodes, n: nat, ids: seq<nat>, i: nat) {
    && |g2| == |g| && n <= |g|
    && forall j :: 0 <= j < n ==> g2[j] == if j in ids then g[j].(output := At(i)) else g[j]
  }

  lemma ToppedKept(tb: Tables, g: Nodes, g2: Nodes, n: nat, ts: seq<Plan>, i: nat, k: nat)
    requires AllStand(tb, g, n, ts) && Topped(g, g2, n, Ids(ts), i) && k < |ts|
    ensures Kept(g, g2, ts[k]) && g2[ts[k].id].output == At(i) && ts[k].id < n
  {
    assert Has(ts[k], ts[k].id) && Ids(ts)[k] == ts[k].id;
    forall j: nat | Has(ts[k], j) && j != ts[k].id
      ensures j < n && j !in Ids(ts)
    {
    }
  }

  /** The new operator in slot i on top of standing plans. */
  lemma NewStands(tb: Tables, g: Nodes, n: nat, g2: Nodes, n2: nat, i: nat, op: Payload, ts: seq<Plan>)
    requires AllStand(tb, g, n, ts) && Topped(g, g2, n, Ids(ts), i) && n <= i < n2 <= |g2|
    requires g2[i].op == op && g2[i].inputs == Ids(ts) && |g2[i].attrs| <= MAX_ATTRS
    requires g2[i].attrs == OpSchema(tb, op, Schemas(tb, ts)) && g2[i].bStream == OpStream(op, Flags(ts))
    ensures Stands(tb, g2, n2, Plan(i, op, ts))
  {
    forall k | 0 <= k < |ts|
      ensures !Has(ts[k], i) && Kept(g, g2, ts[k]) && g2[ts[k].id].output == At(i)
    {
      ToppedKept(tb, g, g2, n, ts, i, k);
    }
    TopStands(tb, g, n, g2, n2, i, op, ts);
  }

  lemma OneStands(tb: Tables, g: Nodes, n: nat, t: Plan)
    requires Stands(tb, g, n, t)
    ensures AllStand(tb, g, n, [t]) && Ids([t]) == [t.id]
    ensures Schemas(tb, [t]) == [g[t.id].attrs] && Flags([t]) == [g[t.id].bStream]
  {
    assert NodeRight(tb, g, t, Attrs) && NodeRight(tb, g, t, Flag);
  }

  lemma TwoStand(tb: Tables, g: Nodes, n: nat, t: Plan, u: Plan)
    requires Stands(tb, g, n, t) && Stands(tb, g, n, u) && Apart(t, u)
    ensures AllStand(tb, g, n, [t, u]) && Ids([t, u]) == [t.id, u.id]
    ensures Schemas(tb, [t, u]) == [g[t.id].attrs, g[u.id].attrs] && Flags([t, u]) == [g[t.id].bStream, g[u.id].bStream]
  {
    OneStands(tb, g, n, t);
    OneStands(tb, g, n, u);
    var ts := [t, u];
    forall j, k | 0 <= j < 2 && 0 <= k < 2 && j != k
      ensures Apart(ts[j], ts[k])
    {
    }
    assert Schemas(tb, ts)[0] == g[t.id].attrs && Schemas(tb, ts)[1] == g[u.id].attrs;
    assert Flags(ts)[0] == g[t.id].bStream && Flags(ts)[1] == g[u.id].bStream;
  }

  /** The operator of a plan gets one more input, a plan with no operator in common. */
  lemma MoreStands(tb: Tables, g: Nodes, n: nat, g2: Nodes, c: Plan, t: Plan)
    requires Stands(tb, g, n, c) && Stands(tb, g, n, t) && Apart(c, t) && |g2| == |g|
    requires forall j :: 0 <= j < n && j != c.id ==> g2[j] == if j == t.id then g[j].(output := At(c.id)) else g[j]
    requires g2[c.id].op == c.op && g2[c.id].inputs == g[c.id].inputs + [t.id] && |g2[c.id].attrs| <= MAX_ATTRS
    requires g2[c.id].attrs == OpSchema(tb, c.op, Schemas(tb, c.ins + [t])) && g2[c.id].bStream == OpStream(c.op, Flags(c.ins + [t]))
    ensures Stands(tb, g2, n, Plan(c.id, c.op, c.ins + [t]))
  {
    var ts := c.ins + [t];
    assert Has(c, c.id) && Has(t, t.id);
    forall k | 0 <= k < |ts|
      ensures Stands(tb, g, n, ts[k]) && !Has(ts[k], c.id)
      ensures k < |c.ins| ==> g[ts[k].id].output == At(c.id)
    {
      if k < |c.ins| {
        StandsInput(tb, g, n, c, k);
      }
    }
    forall j, k | 0 <= j < |ts| && 0 <= k < |ts| && j != k
      ensures Apart(ts[j], ts[k])
    {
      MoreApart(c, t, j, k);
    }
    forall k | 0 <= k < |ts|
      ensures Kept(g, g2, ts[k]) && g2[ts[k].id].output == At(c.id)
    {
      MoreKept(tb, g, n, g2, c, t, k);
    }
    assert g2[c.id].inputs == Ids(ts);
    TopStands(tb, g, n, g2, n, c.id, c.op, ts);
  }

  lemma MoreApart(c: Plan, t: Plan, j: nat, k: nat)
    requires Tidy(c) && Apart(c, t) && j <= |c.ins| && k <= |c.ins| && j != k
    ensures Apart((c.ins + [t])[j], (c.ins + [t])[k])
  {
    if j < |c.ins| && k < |c.ins| {
      assert Apart(c.ins[j], c.ins[k]);
    } else {
      var m := if j < |c.ins| then j else k;
      forall i: nat | Has(c.ins[m], i)
        ensures !Has(t, i)
      {
        assert Has(c, i);
      }
    }
  }

  lemma MoreKept(tb: Tables, g: Nodes, n: nat, g2: Nodes, c: Plan, t: Plan, k: nat)
    requires Stands(tb, g, n, c) && Stands(tb, g, n, t) && Apart(c, t) && |g2| == |g| && k <= |c.ins|
    requires forall j :: 0 <= j < n && j != c.id ==> g2[j] == if j == t.id then g[j].(output := At(c.id)) else g[j]
    ensures var u := (c.ins + [t])[k]; Kept(g, g2, u) && g2[u.id].output == At(c.id)
  {
    var u := (c.ins + [t])[k];
    assert Has(c, c.id) && Has(t, t.id) && Has(u, u.id);
    if k < |c.ins| {
      StandsInput(tb, g, n, c, k);
      forall i: nat | Has(u, i)
        ensures Has(c, i) && i != t.id && i != c.id
      {
      }
    }
  }

  class Pool {
    const ops: array<Node>
    const tables: Tables
    /** The number of slots handed out. */
    var count: nat

    ghost predicate Valid()
      reads this
    {
      count <= ops.Length == MAX_OPERATOR
    }

    /** The plan stands in the pool. */
    ghost predicate Holds(t: Plan)
      reads this, ops
    {
      Valid() && Stands(tables, ops[..], count, t)
    }

    constructor (tables: Tables, blank: Node)
      ensures Valid() && fresh(ops) && count == 0 && this.tables == tables
    {
      ops := new Node[MAX_OPERATOR](i => blank);
      this.tables := tables;
      count := 0;
    }

    /** Hands out the next slot, unless the pool is exhausted. */
    method NewOp(kind: Payload) returns (op: Ptr)
      requires Valid()
      modifies this`count, ops
      ensures Valid()
      ensures op == Null <==> old(count) == MAX_OPERATOR
      ensures op == Null ==> count == old(count) && ops[..] == old(ops[..])
      ensures op != Null ==>
        && op == At(old(count)) && count == old(count) + 1
        && ops[..] == old(ops[..])[op.id := old(ops[..])[op.id].(op := kind, output := Null)]
    {
      if count == MAX_OPERATOR {
        return Null;
      }
      op := At(count);
      ops[count] := ops[count].(op := kind, output := Null);
      count := count + 1;
    }

    /** A source of a stream or relation: its attributes are those registered for the table. */
    method MkSource(kind: Payload, varId: nat, tableId: nat, isStream: bool) returns (op: Ptr)
      requires Valid() && tables.width(tableId) <= MAX_ATTRS
      requires kind == if isStream then StreamSource(varId, tableId) else RelnSource(varId, tableId)
      modifies this`count, ops
      ensures Valid() && count == old(count) + if op == Null then 0 else 1
      ensures op == Null <==> old(count) == MAX_OPERATOR
      ensures op != Null ==> op == At(old(count)) && Holds(Plan(op.id, kind, [])) && ops[op.id].output == Null
      ensures forall i :: 0 <= i < old(count) ==> ops[i] == old(ops[i])
    {
      ghost var g, n := ops[..], count;
      op := NewOp(kind);
      if op == Null {
        return;
      }
      var numAttrs := tables.width(tableId);
      var attrs: Schema := [];
      for a := 0 to numAttrs
        invariant attrs == TableSchema(tables, varId, tableId)[..a]
      {
        attrs := attrs + [Named(varId, tableId, a)];
      }
      ops[op.id] := ops[op.id].(attrs := attrs, bStream := isStream, inputs := []);
      NewStands(tables, g, n, ops[..], count, op.id, kind, []);
    }

    /** The kinds whose constructor takes one input and keeps its schema. */
    predicate KeepsSchema(kind: Payload) {
      kind.RangeWin? || kind.RowWin? || kind.NowWin? || (kind.PartnWin? && kind.partn == []) || kind.Select?
      || kind.Distinct? || kind.Istream? || kind.Dstream? || kind.Rstream?
    }

    /** Windows read a stream. */
    predicate Window(kind: Payload) {
      kind.RangeWin? || kind.RowWin? || kind.NowWin? || kind.PartnWin?
    }

    /** An operator that keeps the schema of its input. */
    method MkUnary(kind: Payload, input: nat, ghost t: Plan) returns (op: Ptr)
      requires Holds(t) && t.id == input && KeepsSchema(kind)
      requires Window(kind) ==> ops[input].bStream
      modifies this`count, ops
      ensures Valid() && count == old(count) + if op == Null then 0 else 1
      ensures op == Null <==> old(count) == MAX_OPERATOR
      ensures op != Null ==>
        && op == At(old(count)) && Holds(Plan(op.id, kind, [t])) && ops[op.id].output == Null
        && Topped(old(ops[..]), ops[..], old(count), [input], op.id)
    {
      ghost var g, n := ops[..], count;
      op := NewOp(kind);
      if op == Null {
        return;
      }
      var bStream := if Window(kind) then false
                     else if kind.Istream? || kind.Dstream? || kind.Rstream? then true
                     else ops[input].bStream;
      assert Has(t, t.id);
      ops[op.id] := ops[op.id].(attrs := ops[input].attrs, bStream := bStream, inputs := [input]);
      ops[input] := ops[input].(output := op);
      OneStands(tables, g, n, t);
      NewStands(tables, g, n, ops[..], count, op.id, kind, [t]);
    }

    /** An operator over one input whose schema is still empty. */
    method MkBare(kind: Payload, input: nat, ghost t: Plan) returns (op: Ptr)
      requires Holds(t) && t.id == input && (kind == Project([]) || kind == GroupAggr([], []))
      modifies this`count, ops
      ensures Valid() && count == old(count) + if op == Null then 0 else 1
      ensures op == Null <==> old(count) == MAX_OPERATOR
      ensures op != Null ==>
        && op == At(old(count)) && Holds(Plan(op.id, kind, [t])) && ops[op.id].output == Null
        && Topped(old(ops[..]), ops[..], old(count), [input], op.id)
    {
      ghost var g, n := ops[..], count;
      op := NewOp(kind);
      if op == Null {
        return;
      }
      assert Has(t, t.id);
      ops[op.id] := ops[op.id].(attrs := [], bStream := kind.Project? && ops[input].bStream, inputs := [input]);
      ops[input] := ops[input].(output := op);
      OneStands(tables, g, n, t);
      NewStands(tables, g, n, ops[..], count, op.id, kind, [t]);
    }

    /** Changes the record of one operator over the same inputs. */
    ghost predicate Rewritten(g: Nodes, op: nat, kind: Payload, attrs: Schema)
      reads this, ops
    {
      op < |g| == ops.Length && ops[..] == g[op := g[op].(op := kind, attrs := attrs)]
    }

    lemma RewrittenHolds(g: Nodes, n: nat, t: Plan, kind: Payload, attrs: Schema)
      requires Stands(tables, g, n, t) && Valid() && n == count && Rewritten(g, t.id, kind, attrs)
      requires attrs == OpSchema(tables, kind, Schemas(tables, t.ins)) && |attrs| <= MAX_ATTRS
      requires OpStream(kind, Flags(t.ins)) == OpStream(t.op, Flags(t.ins))
      ensures Holds(t.(op := kind))
    {
      SchemaStep(tables, t);
      assert NodeRight(tables, g, t, Flag);
      assert Has(t, t.id);
      forall k | 0 <= k < |t.ins|
        ensures Stands(tables, g, n, t.ins[k]) && !Has(t.ins[k], t.id)
        ensures Kept(g, ops[..], t.ins[k]) && ops[t.ins[k].id].output == At(t.id)
      {
        StandsInput(tables, g, n, t, k);
        assert Has(t.ins[k], t.ins[k].id);
      }
      assert ops[t.id].inputs == Ids(t.ins);
      TopStands(tables, g, n, ops[..], count, t.id, kind, t.ins);
    }

    /** One more expression of a project. */
    method AddProjectExpr(proj: nat, e: LExpr, ghost t: Plan) returns (ok: bool)
      requires Holds(t) && t.id == proj && t.op.Project? && |t.ins| == 1
      modifies ops
      ensures Valid()
      ensures ok <==> |t.op.projs| < MAX_ATTRS
      ensures ok ==> Holds(t.(op := Project(t.op.projs + [e])))
      ensures forall i :: 0 <= i < ops.Length && i != proj ==> ops[i] == old(ops[i])
      ensures ok ==> ops[proj].output == old(ops[proj].output)
    {
      ghost var g := ops[..];
      assert Has(t, t.id) && NodeRight(tables, g, t, Attrs);
      SchemaStep(tables, t);
      if |ops[proj].attrs| == MAX_ATTRS {
        return false;
      }
      var attr := if e.AttrRef? then e.attr else Unnamed(ExprType(tables, e));
      var kind := Project(ops[proj].op.projs + [e]);
      ops[proj] := ops[proj].(op := kind, attrs := ops[proj].attrs + [attr]);
      assert ProjectSchema(tables, kind.projs) == ProjectSchema(tables, t.op.projs) + [attr];
      RewrittenHolds(g, count, t, kind, ops[proj].attrs);
      ok := true;
    }

    /** One more grouping attribute; groups come before aggregates. */
    method AddGroupAttr(op: nat, attr: Attr, ghost t: Plan) returns (ok: bool)
      requires Holds(t) && t.id == op && t.op.GroupAggr? && t.op.aggrs == [] && |t.ins| == 1
      modifies ops
      ensures Valid()
      ensures ok <==> |t.op.groups| < MAX_GROUP_ATTRS
      ensures ok ==> Holds(t.(op := GroupAggr(t.op.groups + [attr], [])))
      ensures forall i :: 0 <= i < ops.Length && i != op ==> ops[i] == old(ops[i])
      ensures ok ==> ops[op].output == old(ops[op].output)
    {
      ghost var g := ops[..];
      assert Has(t, t.id) && NodeRight(tables, g, t, Attrs);
      SchemaStep(tables, t);
      if |ops[op].op.groups| == MAX_GROUP_ATTRS {
        return false;
      }
      var kind := GroupAggr(ops[op].op.groups + [attr], ops[op].op.aggrs);
      ops[op] := ops[op].(op := kind, attrs := ops[op].attrs + [attr]);
      RewrittenHolds(g, count, t, kind, ops[op].attrs);
      ok := true;
    }

    /** One more aggregate.  The schema must have room for it: there is no check. */
    method AddAggr(op: nat, fn: AggrFn, attr: Attr, ghost t: Plan) returns (ok: bool)
      requires Holds(t) && t.id == op && t.op.GroupAggr? && |t.ins| == 1
      requires |t.op.groups| + |t.op.aggrs| < MAX_ATTRS
      modifies ops
      ensures Valid()
      ensures ok <==> |t.op.aggrs| < MAX_AGGR_ATTRS
      ensures ok ==> Holds(t.(op := GroupAggr(t.op.groups, t.op.aggrs + [(fn, attr)])))
      ensures forall i :: 0 <= i < ops.Length && i != op ==> ops[i] == old(ops[i])
      ensures ok ==> ops[op].output == old(ops[op].output)
    {
      ghost var g := ops[..];
      assert Has(t, t.id) && NodeRight(tables, g, t, Attrs);
      SchemaStep(tables, t);
      if |ops[op].op.aggrs| == MAX_AGGR_ATTRS {
        return false;
      }
      var kind := GroupAggr(ops[op].op.groups, ops[op].op.aggrs + [(fn, attr)]);
      var out := match attr
        case Named(varId, tableId, attrId) => Aggr(varId, tableId, attrId, fn)
        case _ => Unnamed(OutputType(fn, AttrType(tables, attr)));
      ops[op] := ops[op].(op := kind, attrs := ops[op].attrs + [out]);
      assert AggrSchema(tables, kind.aggrs) == AggrSchema(tables, t.op.aggrs) + [out];
      RewrittenHolds(g, count, t, kind, ops[op].attrs);
      ok := true;
    }

    /** One more attribute to partition by. */
    method PartnWindowAddAttr(op: nat, attr: Attr, ghost t: Plan) returns (ok: bool)
      requires Holds(t) && t.id == op && t.op.PartnWin? && |t.ins| == 1 && |t.op.partn| <= MAX_GROUP_ATTRS
      modifies ops
      ensures Valid()
      ensures ok <==> |t.op.partn| < MAX_GROUP_ATTRS
      ensures ok ==> Holds(t.(op := PartnWin(t.op.partn + [attr], t.op.rows)))
      ensures forall i :: 0 <= i < ops.Length && i != op ==> ops[i] == old(ops[i])
      ensures ok ==> ops[op].output == old(ops[op].output)
    {
      ghost var g := ops[..];
      assert Has(t, t.id) && NodeRight(tables, g, t, Attrs);
      SchemaStep(tables, t);
      if |ops[op].op.partn| == MAX_GROUP_ATTRS {
        return false;
      }
      var kind := PartnWin(ops[op].op.partn + [attr], ops[op].op.rows);
      ops[op] := ops[op].(op := kind);
      RewrittenHolds(g, count, t, kind, ops[op].attrs);
      ok := true;
    }

    /** A cross product that has no inputs yet. */
    method MkCross() returns (op: Ptr)
      requires Valid()
      modifies this`count, ops
      ensures Valid() && count == old(count) + if op == Null then 0 else 1
      ensures op == Null <==> old(count) == MAX_OPERATOR
      ensures op != Null ==> op == At(old(count)) && Holds(Plan(op.id, Cross, [])) && ops[op.id].output == Null
      ensures forall i :: 0 <= i < old(count) ==> ops[i] == old(ops[i])
    {
      ghost var g, n := ops[..], count;
      op := NewOp(Cross);
      if op == Null {
        return;
      }
      ops[op.id] := ops[op.id].(attrs := [], bStream := true, inputs := []);
      NewStands(tables, g, n, ops[..], count, op.id, Cross, []);
    }

    /** A stream cross product that has only its stream input yet. */
    method MkStreamCross(input: nat, ghost t: Plan) returns (op: Ptr)
      requires Holds(t) && t.id == input && ops[input].bStream
      modifies this`count, ops
      ensures Valid() && count == old(count) + if op == Null then 0 else 1
      ensures op == Null <==> old(count) == MAX_OPERATOR
      ensures op != Null ==>
        && op == At(old(count)) && Holds(Plan(op.id, StreamCross, [t])) && ops[op.id].output == Null
        && Topped(old(ops[..]), ops[..], old(count), [input], op.id)
    {
      ghost var g, n := ops[..], count;
      op := NewOp(StreamCross);
      if op == Null {
        return;
      }
      assert Has(t, t.id);
      ops[op.id] := ops[op.id].(attrs := ops[input].attrs, bStream := true, inputs := [input]);
      ops[input] := ops[input].(output := op);
      OneStands(tables, g, n, t);
      FlatOne(g[input].attrs);
      NewStands(tables, g, n, ops[..], count, op.id, StreamCross, [t]);
    }

    /** One more input of a cross product, as long as there is room for it and its attributes. */
    method CrossAddInput(cross: nat, input: nat, ghost c: Plan, ghost t: Plan) returns (ok: bool)
      requires Holds(c) && Holds(t) && Apart(c, t) && c.id == cross && t.id == input && c.op.Cross?
      modifies ops
      ensures Valid()
      ensures ok <==> |SchemaOf(tables, c)| + |SchemaOf(tables, t)| <= MAX_ATTRS && |c.ins| < MAX_INPUT_OPS
      ensures ok ==> Holds(Plan(cross, Cross, c.ins + [t]))
      ensures forall i :: 0 <= i < old(count) && i != cross ==>
        ops[i] == if ok && i == input then old(ops[i]).(output := At(cross)) else old(ops[i])
      ensures ok ==> ops[cross].output == old(ops[cross].output)
    {
      ghost var g := ops[..];
      MoreShape(g, c, t);
      if |ops[cross].attrs| + |ops[input].attrs| > MAX_ATTRS {
        return false;
      }
      if |ops[cross].inputs| >= MAX_INPUT_OPS {
        return false;
      }
      ops[cross] := ops[cross].(inputs := ops[cross].inputs + [input],
                                attrs := ops[cross].attrs + ops[input].attrs,
                                bStream := ops[cross].bStream && ops[input].bStream);
      ops[input] := ops[input].(output := At(cross));
      MoreStands(tables, g, count, ops[..], c, t);
      ok := true;
    }

    /** One more input of a stream cross product. */
    method StreamCrossAddInput(op: nat, input: nat, ghost c: Plan, ghost t: Plan) returns (ok: bool)
      requires Holds(c) && Holds(t) && Apart(c, t) && c.id == op && t.id == input && c.op.StreamCross?
      modifies ops
      ensures Valid()
      ensures ok <==> |SchemaOf(tables, c)| + |SchemaOf(tables, t)| <= MAX_ATTRS && |c.ins| < MAX_INPUT_OPS
      ensures ok ==> Holds(Plan(op, StreamCross, c.ins + [t]))
      ensures ok ==> forall i :: 0 <= i < old(count) && i != op ==>
        ops[i] == if i == input then old(ops[i]).(output := At(op)) else old(ops[i])
      ensures ok ==> ops[op].output == old(ops[op].output)
    {
      ghost var g := ops[..];
      MoreShape(g, c, t);
      if |ops[op].inputs| >= MAX_INPUT_OPS {
        return false;
      }
      ops[op] := ops[op].(inputs := ops[op].inputs + [input]);
      ops[input] := ops[input].(output := At(op));
      if |ops[op].attrs| + |ops[input].attrs| > MAX_ATTRS {
        return false;
      }
      ops[op] := ops[op].(attrs := ops[op].attrs + ops[input].attrs);
      MoreStands(tables, g, count, ops[..], c, t);
      ok := true;
    }

    /** What one more input adds to the schema and flag of a product. */
    lemma MoreShape(g: Nodes, c: Plan, t: Plan)
      requires Stands(tables, g, count, c) && Stands(tables, g, count, t) && Apart(c, t) && (c.op.Cross? || c.op.StreamCross?)
      ensures c.id < count && t.id < count && c.id != t.id && |g[c.id].inputs| == |c.ins| && g[c.id].op == c.op
      ensures g[c.id].attrs == SchemaOf(tables, c) && g[t.id].attrs == SchemaOf(tables, t)
      ensures OpSchema(tables, c.op, Schemas(tables, c.ins + [t])) == g[c.id].attrs + g[t.id].attrs
      ensures OpStream(c.op, Flags(c.ins + [t])) == if c.op.Cross? then g[c.id].bStream && g[t.id].bStream else g[c.id].bStream
    {
      assert Has(c, c.id) && Has(t, t.id);
      assert NodeRight(tables, g, c, Attrs) && NodeRight(tables, g, c, Flag);
      assert NodeRight(tables, g, t, Attrs) && NodeRight(tables, g, t, Flag);
      SchemaStep(tables, c);
      var ts := c.ins + [t];
      assert ts[..|c.ins|] == c.ins;
      assert Schemas(tables, ts) == Schemas(tables, c.ins) + [g[t.id].attrs];
      assert Schemas(tables, ts)[..|c.ins|] == Schemas(tables, c.ins);
      AllTrueMore(Flags(c.ins), g[t.id].bStream);
      assert Flags(ts) == Flags(c.ins) + [g[t.id].bStream];
    }

    /** The types of the attributes of an operator, without their names. */
    method NamelessAttrs(op: nat) returns (attrs: Schema)
      requires op < ops.Length
      ensures attrs == Nameless(tables, ops[op].attrs)
    {
      attrs := [];
      for a := 0 to |ops[op].attrs|
        invariant attrs == Nameless(tables, ops[op].attrs)[..a]
      {
        attrs := attrs + [Unnamed(AttrType(tables, ops[op].attrs[a]))];
      }
    }

    /** Union or difference: the schema has the types of the left input, without names. */
    method MkBinary(kind: Payload, left: nat, right: nat, ghost t: Plan, ghost u: Plan) returns (op: Ptr)
      requires Holds(t) && Holds(u) && Apart(t, u) && left == t.id && right == u.id && (kind.Union? || kind.Except?)
      modifies this`count, ops
      ensures Valid() && count == old(count) + if op == Null then 0 else 1
      ensures op == Null <==> old(count) == MAX_OPERATOR
      ensures op != Null ==>
        && op == At(old(count)) && Holds(Plan(op.id, kind, [t, u])) && ops[op.id].output == Null
        && Topped(old(ops[..]), ops[..], old(count), [left, right], op.id)
    {
      ghost var g, n := ops[..], count;
      op := NewOp(kind);
      if op == Null {
        return;
      }
      assert Has(t, t.id) && Has(u, u.id);
      var attrs := NamelessAttrs(left);
      ops[op.id] := ops[op.id].(attrs := attrs, inputs := [left, right],
                                bStream := kind.Union? && ops[left].bStream && ops[right].bStream);
      ops[left] := ops[left].(output := op);
      ops[right] := ops[right].(output := op);
      BinaryStands(tables, g, n, ops[..], count, op.id, kind, t, u);
    }
  }

  lemma BinaryStands(tb: Tables, g: Nodes, n: nat, g2: Nodes, n2: nat, i: nat, op: Payload, t: Plan, u: Plan)
    requires Stands(tb, g, n, t) && Stands(tb, g, n, u) && Apart(t, u) && (op.Union? || op.Except?)
    requires Topped(g, g2, n, [t.id, u.id], i) && n <= i < n2 <= |g2| && g2[i].op == op && g2[i].inputs == [t.id, u.id]
    requires t.id < |g| && u.id < |g| && g2[i].attrs == Nameless(tb, g[t.id].attrs)
    requires g2[i].bStream == (op.Union? && g[t.id].bStream && g[u.id].bStream)
    ensures Stands(tb, g2, n2, Plan(i, op, [t, u]))
  {
    TwoStand(tb, g, n, t, u);
    NodeAttrsFit(tb, g, n, t);
    AllTwo(g[t.id].bStream, g[u.id].bStream);
    NewStands(tb, g, n, g2, n2, i, op, [t, u]);
  }

  lemma NodeAttrsFit(tb: Tables, g: Nodes, n: nat, t: Plan)
    requires Stands(tb, g, n, t)
    ensures t.id < n && |g[t.id].attrs| <= MAX_ATTRS
  {
    assert Has(t, t.id) && NodeRight(tb, g, t, Attrs);
  }

  lemma AllTrueMore(flags: seq<bool>, more: bool)
    ensures AllTrue(flags + [more]) == (AllTrue(flags) && more)
  {
    var all := flags + [more];
    assert all[|flags|] == more;
    if AllTrue(all) {
      forall k | 0 <= k < |flags|
        ensures flags[k]
      {
        assert all[k];
      }
    }
  }
}
