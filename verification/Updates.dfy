/** Propagating a changed schema or stream flag towards the root. */
module Updates {
  import opened Common
  import opened LogicalPlan
  import opened LogicalTrees
  import opened LogicalOps
  import opened Marking

  /** Operators whose schema, or flag, does not depend on their inputs: the propagation ends there. */
  predicate Stops(m: Mark, op: Payload) {
    match m
    case Attrs => op.Project? || op.GroupAggr? || op.StreamSource? || op.RelnSource?
    case Flag =>
      op.GroupAggr? || op.StreamSource? || op.RelnSource? || op.Istream? || op.Dstream? || op.Rstream?
      || op.RowWin? || op.RangeWin? || op.NowWin? || op.PartnWin? || op.StreamCross? || op.Except?
  }

  /** Operators whose schema cannot follow one input. */
  predicate Refuses(m: Mark, op: Payload) {
    m.Attrs? && (op.Union? || op.Except?)
  }

  ghost predicate StopsOn(t: Plan, path: seq<nat>, m: Mark)
    requires Leads(t, path)
  {
    Stops(m, t.op) || (path != [] && StopsOn(t.ins[path[0]], path[1..], m))
  }

  /** What is stored is right from every operator where the propagation ends up to the root. */
  ghost predicate Shielded(tb: Tables, g: Nodes, t: Plan, path: seq<nat>, m: Mark)
    requires Leads(t, path)
  {
    && (StopsOn(t, path, m) ==> NodeRight(tb, g, t, m))
    && (path != [] ==> Shielded(tb, g, t.ins[path[0]], path[1..], m))
  }

  /** No operator on the path refuses, and there is room for the schemas. */
  ghost predicate Open(tb: Tables, t: Plan, path: seq<nat>, m: Mark)
    requires Leads(t, path)
  {
    && !Refuses(m, t.op) && |SchemaOf(tb, t)| <= MAX_ATTRS
    && (path != [] ==> Open(tb, t.ins[path[0]], path[1..], m))
  }

  /** When the propagation ends early, everything is right. */
  lemma {:induction false} ShieldedRight(tb: Tables, g: Nodes, t: Plan, path: seq<nat>, m: Mark)
    requires Leads(t, path) && Shielded(tb, g, t, path, m) && RightOff(tb, g, t, path, m) && Stops(m, Sub(t, path).op)
    ensures Right(tb, g, t, m) && StopsOn(t, path, m)
  {
    if path != [] {
      ShieldedRight(tb, g, t.ins[path[0]], path[1..], m);
    }
  }

  lemma {:induction false} StopsShorter(t: Plan, path: seq<nat>, m: Mark)
    requires Leads(t, path) && path != [] && Leads(t, path[..|path| - 1]) && StopsOn(t, path[..|path| - 1], m)
    ensures StopsOn(t, path, m)
  {
    if |path| > 1 && !Stops(m, t.op) {
      assert path[..|path| - 1][1..] == path[1..][..|path| - 2];
      StopsShorter(t.ins[path[0]], path[1..], m);
    }
  }

  /** After setting the operator at the end of the path, the rest of the path is still shielded. */
  lemma {:induction false} ShieldedShorter(tb: Tables, g: Nodes, g2: Nodes, t: Plan, path: seq<nat>, m: Mark)
    requires Leads(t, path) && path != [] && Tidy(t) && Shielded(tb, g, t, path, m) && Marked(g, g2, Sub(t, path).id)
    ensures Leads(t, path[..|path| - 1]) && Shielded(tb, g2, t, path[..|path| - 1], m)
  {
    LeadsPrefix(t, path, |path| - 1);
    var shorter := path[..|path| - 1];
    SubNotRoot(t, path);
    assert Has(Sub(t, path), Sub(t, path).id);
    if StopsOn(t, shorter, m) {
      StopsShorter(t, path, m);
    }
    if |path| > 1 {
      assert shorter[1..] == path[1..][..|path| - 2];
      ShieldedShorter(tb, g, g2, t.ins[path[0]], path[1..], m);
    }
  }

  lemma {:induction false} OpenAt(tb: Tables, t: Plan, path: seq<nat>, m: Mark)
    requires Leads(t, path) && Open(tb, t, path, m)
    ensures !Refuses(m, Sub(t, path).op) && |SchemaOf(tb, Sub(t, path))| <= MAX_ATTRS
    ensures path != [] ==> Leads(t, path[..|path| - 1]) && Open(tb, t, path[..|path| - 1], m)
  {
    if path != [] {
      LeadsPrefix(t, path, |path| - 1);
      OpenAt(tb, t.ins[path[0]], path[1..], m);
      if |path| > 1 {
        assert path[..|path| - 1][1..] == path[1..][..|path| - 2];
      }
    }
  }

  /** The state of a propagation that has come to the end of the path. */
  ghost predicate Rising(tb: Tables, g: Nodes, n: nat, t: Plan, path: seq<nat>, m: Mark) {
    && Leads(t, path) && Linked(g, t) && Tidy(t) && t.id < |g| && g[t.id].output == Null
    && n <= |g| && (forall i: nat :: Has(t, i) ==> i < n)
    && RightOff(tb, g, t, path, m) && Shielded(tb, g, t, path, m) && Open(tb, t, path, m)
  }

  ghost predicate Risen(tb: Tables, g: Nodes, n: nat, t: Plan, m: Mark) {
    && Linked(g, t) && Tidy(t) && t.id < |g| && g[t.id].output == Null
    && n <= |g| && (forall i: nat :: Has(t, i) ==> i < n)
    && Right(tb, g, t, m)
  }

  /** Other things stored stay as they are. */
  ghost predicate OnlyMark(g: Nodes, g2: Nodes, m: Mark) {
    |g2| == |g| && forall i :: 0 <= i < |g| ==>
      g2[i] == match m case Attrs => g[i].(attrs := g2[i].attrs) case Flag => g[i].(bStream := g2[i].bStream)
  }

  /** One step: the operator at the end is set right, and the next one up is at the end. */
  lemma RiseOne(tb: Tables, g: Nodes, n: nat, g2: Nodes, t: Plan, path: seq<nat>, m: Mark)
    requires Rising(tb, g, n, t, path, m) && Marked(g, g2, Sub(t, path).id) && NodeRight(tb, g2, Sub(t, path), m)
    ensures path == [] ==> Risen(tb, g2, n, t, m) && g2[Sub(t, path).id].output == Null
    ensures path != [] ==>
      && Rising(tb, g2, n, t, path[..|path| - 1], m)
      && g2[Sub(t, path).id].output == At(Sub(t, path[..|path| - 1]).id)
  {
    MarkedLinked(g, g2, t, Sub(t, path).id);
    MarkedOff(tb, g, g2, t, path, m);
    OffShorter(tb, g2, t, path, m);
    if path != [] {
      ShieldedShorter(tb, g, g2, t, path, m);
      OpenAt(tb, t, path, m);
      ParentLink(g2, t, path);
    }
  }

  /** The inputs of the operator at the end of the path. */
  lemma {:induction false} EndInputs(tb: Tables, g: Nodes, t: Plan, path: seq<nat>, m: Mark)
    requires Leads(t, path) && Linked(g, t) && RightOff(tb, g, t, path, m)
    ensures var u := Sub(t, path);
      && u.id < |g| && g[u.id].op == u.op && |g[u.id].inputs| == |u.ins|
      && forall k :: 0 <= k < |u.ins| ==> g[u.id].inputs[k] == u.ins[k].id < |g| && NodeRight(tb, g, u.ins[k], m)
  {
    if path != [] {
      EndInputs(tb, g, t.ins[path[0]], path[1..], m);
    }
  }

  /** The schemas of the inputs of an operator, one after the other, as far as there is room. */
  method AppendSchemas(pool: Pool, op: nat, ghost schemas: seq<Schema>) returns (attrs: Schema)
    requires op < pool.ops.Length && |pool.ops[op].inputs| == |schemas| && |Flat(schemas)| <= MAX_ATTRS
    requires forall k :: 0 <= k < |schemas| ==>
      pool.ops[op].inputs[k] < pool.ops.Length && pool.ops[pool.ops[op].inputs[k]].attrs == schemas[k]
    ensures attrs == Flat(schemas)
  {
    attrs := [];
    for i := 0 to |pool.ops[op].inputs|
      invariant attrs == Flat(schemas[..i])
    {
      var src := pool.ops[op].inputs[i];
      FlatRoom(schemas, i);
      if |attrs| + |pool.ops[src].attrs| <= MAX_ATTRS {
        attrs := attrs + pool.ops[src].attrs;
      }
    }
    assert schemas[..|schemas|] == schemas;
  }

  lemma {:induction false} FlatRoom(schemas: seq<Schema>, i: nat)
    requires i < |schemas|
    ensures Flat(schemas[..i + 1]) == Flat(schemas[..i]) + schemas[i]
    ensures |Flat(schemas[..i])| + |schemas[i]| <= |Flat(schemas)|
  {
    assert schemas[..i + 1][..i] == schemas[..i];
    FlatMonotone(schemas, i + 1);
  }

  lemma {:induction false} FlatMonotone(schemas: seq<Schema>, i: nat)
    requires i <= |schemas|
    ensures |Flat(schemas[..i])| <= |Flat(schemas)|
  {
    if i < |schemas| {
      FlatMonotone(schemas[..|schemas| - 1], i);
      assert schemas[..|schemas| - 1][..i] == schemas[..i];
    } else {
      assert schemas[..i] == schemas;
    }
  }

  /** An operator whose schema follows its inputs: it is theirs, one after the other. */
  lemma FollowsInputs(tb: Tables, t: Plan)
    requires !Stops(Attrs, t.op) && !Refuses(Attrs, t.op) && (t.op.Cross? || t.op.StreamCross? || |t.ins| == 1)
    ensures SchemaOf(tb, t) == Flat(Schemas(tb, t.ins))
  {
    SchemaStep(tb, t);
    if |t.ins| == 1 {
      assert Schemas(tb, t.ins)[..0] == [];
      assert Flat(Schemas(tb, t.ins)) == [] + Schemas(tb, t.ins)[0];
    }
  }

  /** The state after a step from the end of the path: at the next operator up, or done. */
  ghost predicate Moved(tb: Tables, g: Nodes, n: nat, t: Plan, path: seq<nat>, m: Mark, next: Ptr) {
    if path == [] then next == Null && Risen(tb, g, n, t, m)
    else Rising(tb, g, n, t, path[..|path| - 1], m) && next == At(Sub(t, path[..|path| - 1]).id)
  }

  /** Recomputes the schema of one operator from its inputs. */
  method UpdateSchemaAt(pool: Pool, op: nat, ghost t: Plan, ghost path: seq<nat>) returns (next: Ptr)
    requires pool.Valid() && Rising(pool.tables, pool.ops[..], pool.count, t, path, Attrs)
    requires op == Sub(t, path).id && Sound(pool.tables, Sub(t, path)) && !Stops(Attrs, Sub(t, path).op)
    modifies pool.ops
    ensures Moved(pool.tables, pool.ops[..], pool.count, t, path, Attrs, next)
    ensures OnlyMark(old(pool.ops[..]), pool.ops[..], Attrs)
  {
    ghost var g, u := pool.ops[..], Sub(t, path);
    EndInputs(pool.tables, g, t, path, Attrs);
    OpenAt(pool.tables, t, path, Attrs);
    FollowsInputs(pool.tables, u);
    var attrs := AppendSchemas(pool, op, Schemas(pool.tables, u.ins));
    pool.ops[op] := pool.ops[op].(attrs := attrs);
    RiseOne(pool.tables, g, pool.count, pool.ops[..], t, path, Attrs);
    next := pool.ops[op].output;
  }

  /** Recomputes schemas from operator op up to the root, or to where they no longer follow their inputs. */
  method UpdateSchema(pool: Pool, from: Ptr, ghost t: Plan, ghost path: seq<nat>) returns (rc: int)
    requires pool.Valid() && Rising(pool.tables, pool.ops[..], pool.count, t, path, Attrs) && Sound(pool.tables, t)
    requires from == At(Sub(t, path).id)
    modifies pool.ops
    ensures rc == 0 && Risen(pool.tables, pool.ops[..], pool.count, t, Attrs)
    ensures OnlyMark(old(pool.ops[..]), pool.ops[..], Attrs)
  {
    hide Tidy, Linked, Right, RightOff, Shielded, Open;
    var op := from;
    ghost var q := path;
    while op != Null
      invariant OnlyMark(old(pool.ops[..]), pool.ops[..], Attrs)
      invariant op != Null ==> Rising(pool.tables, pool.ops[..], pool.count, t, q, Attrs) && op == At(Sub(t, q).id)
      invariant op == Null ==> Risen(pool.tables, pool.ops[..], pool.count, t, Attrs)
      decreases if op == Null then 0 else 1 + |q|
    {
      SubSound(pool.tables, t, q);
      EndKind(pool.tables, pool.ops[..], t, q, Attrs);
      if Stops(Attrs, pool.ops[op.id].op) {
        return 0;
      }
      if pool.ops[op.id].op.Union? || pool.ops[op.id].op.Except? {
        return -1;
      }
      op := UpdateSchemaAt(pool, op.id, t, q);
      q := if q == [] then q else q[..|q| - 1];
    }
    rc := 0;
  }

  lemma EndKind(tb: Tables, g: Nodes, t: Plan, path: seq<nat>, m: Mark)
    requires Leads(t, path) && Linked(g, t) && RightOff(tb, g, t, path, m)
    requires Shielded(tb, g, t, path, m) && Open(tb, t, path, m)
    ensures Sub(t, path).id < |g| && g[Sub(t, path).id].op == Sub(t, path).op && !Refuses(m, Sub(t, path).op)
    ensures Stops(m, Sub(t, path).op) ==> Right(tb, g, t, m)
  {
    EndInputs(tb, g, t, path, m);
    OpenAt(tb, t, path, m);
    if Stops(m, Sub(t, path).op) {
      ShieldedRight(tb, g, t, path, m);
    }
  }

  /** Whether all inputs of an operator give a stream. */
  method AllStreams(pool: Pool, op: nat, ghost flags: seq<bool>) returns (bStream: bool)
    requires op < pool.ops.Length && |pool.ops[op].inputs| == |flags|
    requires forall k :: 0 <= k < |flags| ==>
      pool.ops[op].inputs[k] < pool.ops.Length && pool.ops[pool.ops[op].inputs[k]].bStream == flags[k]
    ensures bStream == AllTrue(flags)
  {
    bStream := true;
    for i := 0 to |pool.ops[op].inputs|
      invariant bStream && forall k :: 0 <= k < i ==> flags[k]
    {
      if !pool.ops[pool.ops[op].inputs[i]].bStream {
        assert !flags[i];
        return false;
      }
    }
  }

  /** The stream flag an operator should have. */
  method InputsStream(pool: Pool, op: nat, ghost u: Plan) returns (bStream: bool)
    requires op < pool.ops.Length && pool.ops[op].op == u.op && |pool.ops[op].inputs| == |u.ins|
    requires ArityFits(u.op, |u.ins|) && !Stops(Flag, u.op)
    requires forall k :: 0 <= k < |u.ins| ==>
      pool.ops[op].inputs[k] < pool.ops.Length && pool.ops[pool.ops[op].inputs[k]].bStream == IsStream(u.ins[k])
    ensures bStream == IsStream(u)
  {
    SchemaStep(pool.tables, u);
    if pool.ops[op].op.Cross? {
      bStream := AllStreams(pool, op, Flags(u.ins));
    } else if pool.ops[op].op.Union? {
      bStream := pool.ops[pool.ops[op].inputs[0]].bStream && pool.ops[pool.ops[op].inputs[1]].bStream;
      assert Flags(u.ins) == [IsStream(u.ins[0]), IsStream(u.ins[1])];
      AllTwo(IsStream(u.ins[0]), IsStream(u.ins[1]));
    } else {
      bStream := pool.ops[pool.ops[op].inputs[0]].bStream;
    }
  }

  /** Recomputes the stream flag of one operator from its inputs. */
  method UpdateStreamAt(pool: Pool, op: nat, ghost t: Plan, ghost path: seq<nat>) returns (next: Ptr)
    requires pool.Valid() && Rising(pool.tables, pool.ops[..], pool.count, t, path, Flag)
    requires op == Sub(t, path).id && Sound(pool.tables, Sub(t, path)) && !Stops(Flag, Sub(t, path).op)
    modifies pool.ops
    ensures Moved(pool.tables, pool.ops[..], pool.count, t, path, Flag, next)
    ensures OnlyMark(old(pool.ops[..]), pool.ops[..], Flag)
  {
    ghost var g := pool.ops[..];
    EndInputs(pool.tables, g, t, path, Flag);
    var bStream := InputsStream(pool, op, Sub(t, path));
    pool.ops[op] := pool.ops[op].(bStream := bStream);
    RiseOne(pool.tables, g, pool.count, pool.ops[..], t, path, Flag);
    next := pool.ops[op].output;
  }

  /** Recomputes stream flags from operator op up to the root, or to where they no longer follow their inputs. */
  method UpdateStream(pool: Pool, from: Ptr, ghost t: Plan, ghost path: seq<nat>) returns (rc: int)
    requires pool.Valid() && Rising(pool.tables, pool.ops[..], pool.count, t, path, Flag) && Sound(pool.tables, t)
    requires from == At(Sub(t, path).id)
    modifies pool.ops
    ensures rc == 0 && Risen(pool.tables, pool.ops[..], pool.count, t, Flag)
    ensures OnlyMark(old(pool.ops[..]), pool.ops[..], Flag)
  {
    hide Tidy, Linked, Right, RightOff, Shielded, Open;
    var op := from;
    ghost var q := path;
    while op != Null
      invariant OnlyMark(old(pool.ops[..]), pool.ops[..], Flag)
      invariant op != Null ==> Rising(pool.tables, pool.ops[..], pool.count, t, q, Flag) && op == At(Sub(t, q).id)
      invariant op == Null ==> Risen(pool.tables, pool.ops[..], pool.count, t, Flag)
      decreases if op == Null then 0 else 1 + |q|
    {
      SubSound(pool.tables, t, q);
      EndKind(pool.tables, pool.ops[..], t, q, Flag);
      if Stops(Flag, pool.ops[op.id].op) {
        return 0;
      }
      op := UpdateStreamAt(pool, op.id, t, q);
      q := if q == [] then q else q[..|q| - 1];
    }
    rc := 0;
  }

  // ---------------------------------------------------------------- after a graft

  /** Where the propagation would end, what is stored about the whole is what it was. */
  lemma {:induction false} StopSame(tb: Tables, t: Plan, path: seq<nat>, u: Plan, m: Mark)
    requires Leads(t, path) && path != []
    requires Leads(Graft(t, path, u), path[..|path| - 1]) && StopsOn(Graft(t, path, u), path[..|path| - 1], m)
    ensures SameMark(tb, t, Graft(t, path, u), m)
  {
    var r, j := Graft(t, path, u), path[0];
    SchemaStep(tb, t);
    SchemaStep(tb, r);
    if !Stops(m, t.op) {
      assert path[..|path| - 1][1..] == path[1..][..|path| - 2];
      StopSame(tb, t.ins[j], path[1..], u, m);
      if m.Attrs? {
        assert Schemas(tb, r.ins) == Schemas(tb, t.ins);
      } else {
        assert Flags(r.ins) == Flags(t.ins);
      }
    }
  }

  /** After a graft the path above it is shielded. */
  lemma {:induction false} ShieldedGraft(tb: Tables, g: Nodes, g2: Nodes, t: Plan, path: seq<nat>, u: Plan, m: Mark)
    requires Leads(t, path) && path != [] && Tidy(t) && Linked(g, t) && Regrafted(g, g2, t, path, u) && Fresh(t, path, u)
    requires Right(tb, g, t, m)
    ensures Leads(Graft(t, path, u), path[..|path| - 1])
    ensures Shielded(tb, g2, Graft(t, path, u), path[..|path| - 1], m)
  {
    var r, j := Graft(t, path, u), path[0];
    GraftParent(t, path, u);
    ParentHas(t, path);
    SubNotRoot(t, path);
    assert Has(t, t.id) && g2[t.id].attrs == g[t.id].attrs && g2[t.id].bStream == g[t.id].bStream;
    if StopsOn(r, path[..|path| - 1], m) {
      StopSame(tb, t, path, u, m);
    }
    if |path| > 1 {
      RegraftedInput(g, g2, t, path, u);
      ShieldedGraft(tb, g, g2, t.ins[j], path[1..], u, m);
      assert path[..|path| - 1][1..] == path[1..][..|path| - 2];
    }
  }

  // ---------------------------------------------------------------- the two propagations one after the other

  lemma {:induction false} OnlyMarkRight(tb: Tables, g: Nodes, g2: Nodes, t: Plan, m: Mark, other: Mark)
    requires Right(tb, g, t, m) && OnlyMark(g, g2, other) && m != other
    ensures Right(tb, g2, t, m)
  {
    assert g2[t.id] == match other case Attrs => g[t.id].(attrs := g2[t.id].attrs) case Flag => g[t.id].(bStream := g2[t.id].bStream);
    forall k | 0 <= k < |t.ins|
      ensures Right(tb, g2, t.ins[k], m)
    {
      OnlyMarkRight(tb, g, g2, t.ins[k], m, other);
    }
  }

  lemma {:induction false} OnlyMarkOff(tb: Tables, g: Nodes, g2: Nodes, t: Plan, path: seq<nat>, m: Mark, other: Mark)
    requires Leads(t, path) && RightOff(tb, g, t, path, m) && Shielded(tb, g, t, path, m)
    requires OnlyMark(g, g2, other) && m != other && Linked(g, t)
    ensures RightOff(tb, g2, t, path, m) && Shielded(tb, g2, t, path, m)
  {
    assert g2[t.id] == match other case Attrs => g[t.id].(attrs := g2[t.id].attrs) case Flag => g[t.id].(bStream := g2[t.id].bStream);
    forall k | 0 <= k < |t.ins| && (path == [] || k != path[0])
      ensures Right(tb, g2, t.ins[k], m)
    {
      OnlyMarkRight(tb, g, g2, t.ins[k], m, other);
    }
    if path != [] {
      OnlyMarkOff(tb, g, g2, t.ins[path[0]], path[1..], m, other);
    }
  }

  /** Recomputes schemas and flags from an operator up. */
  method UpdateBoth(pool: Pool, from: Ptr, ghost t: Plan, ghost path: seq<nat>) returns (rc: int)
    requires pool.Valid() && Sound(pool.tables, t)
    requires Rising(pool.tables, pool.ops[..], pool.count, t, path, Attrs)
    requires Rising(pool.tables, pool.ops[..], pool.count, t, path, Flag)
    requires from == At(Sub(t, path).id)
    modifies pool.ops
    ensures rc == 0 && pool.Holds(t) && pool.ops[t.id].output == Null
  {
    ghost var g := pool.ops[..];
    rc := UpdateSchema(pool, from, t, path);
    if rc != 0 {
      return;
    }
    ghost var g1 := pool.ops[..];
    OnlyMarkOff(pool.tables, g, g1, t, path, Flag, Attrs);
    rc := UpdateStream(pool, from, t, path);
    if rc != 0 {
      return;
    }
    OnlyMarkRight(pool.tables, g1, pool.ops[..], t, Attrs, Flag);
  }
}
