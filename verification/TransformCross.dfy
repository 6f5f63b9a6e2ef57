/** Turning a cross product with a Now window into a stream cross product, done on the links of the pool. */
module TransformCross {
  import opened Common
  import opened LogicalPlan
  import opened LogicalTrees
  import opened LogicalOps
  import opened Products
  import opened Marking
  import opened RewriteCross
  import opened TransformBinary
  import opened Bypass
  import opened Updates

  // ---------------------------------------------------------------- finding the pattern

  /** Walking down from x along path, the search is at cur. */
  ghost predicate AtCross(id: nat, x: Plan, path: seq<nat>, cur: Plan) {
    && Chain(x, path, OverCross) && Leads(x, path) && cur == Sub(x, path)
    && CrossBelow(x) == CrossBelow(cur)
    && (CrossBelow(cur) ==> CrossOf(x) == CrossOf(cur))
    && (Streamable(cur) ==> Streamed(x, id) == Graft(x, path, Streamed(cur, id)))
  }

  lemma AtCrossOn(id: nat, x: Plan, path: seq<nat>, cur: Plan)
    requires AtCross(id, x, path, cur) && OverCross(cur.op) && |cur.ins| == 1
    ensures AtCross(id, x, path + [0], cur.ins[0])
  {
    ChainOn(x, path, OverCross);
    if Streamable(cur) {
      ChainGraftOn(x, path, OverCross, Streamed(cur.ins[0], id));
    }
  }

  /** Looks for a cross product below projects, distincts, aggregations and selects. */
  method FindCross(pool: Pool, from: nat, ghost x: Plan) returns (cross: Ptr, ghost path: seq<nat>)
    requires pool.Holds(x) && x.id == from && Sound(pool.tables, x)
    ensures cross == Null <==> !CrossBelow(x)
    ensures cross != Null ==>
      Leads(x, path) && AtCross(pool.count, x, path, Sub(x, path)) && Sub(x, path).op.Cross? && cross == At(Sub(x, path).id)
  {
    var op := from;
    path := [];
    ghost var cur := x;
    while true
      invariant AtCross(pool.count, x, path, cur) && op == cur.id && pool.Holds(cur) && Sound(pool.tables, cur)
      decreases cur
    {
      if pool.ops[op].op.Cross? {
        return At(op), path;
      }
      if OverCross(pool.ops[op].op) {
        AtCrossOn(pool.count, x, path, cur);
        StandsInput(pool.tables, pool.ops[..], pool.count, cur, 0);
        op := pool.ops[op].inputs[0];
        path, cur := path + [0], cur.ins[0];
      } else {
        return Null, path;
      }
    }
  }

  /** The position of the first Now window among the inputs of a cross product. */
  method FindNowInput(pool: Pool, cross: nat, ghost c: Plan) returns (k: nat)
    requires pool.Holds(c) && c.id == cross
    ensures k == NowAt(c.ins)
  {
    k := 0;
    assert c.ins[0..] == c.ins;
    while k < |pool.ops[cross].inputs|
      invariant k <= |c.ins| && NowAt(c.ins) == k + NowAt(c.ins[k..])
    {
      StandsInput(pool.tables, pool.ops[..], pool.count, c, k);
      if pool.ops[pool.ops[cross].inputs[k]].op.NowWin? {
        return;
      }
      assert c.ins[k..][1..] == c.ins[k + 1..];
      k := k + 1;
    }
  }

  // ---------------------------------------------------------------- building the stream cross product

  lemma StreamFirstAt(tb: Tables, g: Nodes, n: nat, c: Plan, k: nat)
    requires Stands(tb, g, n, c) && HasNow(c) && k < |c.ins|
    ensures Stands(tb, g, n, StreamFirst(c.ins)[k])
    ensures forall i: nat :: Has(StreamFirst(c.ins)[k], i) ==> Has(c.ins[From(c, k)], i)
  {
    var j := From(c, k);
    StandsInput(tb, g, n, c, j);
    if k == 0 {
      StandsInput(tb, g, n, c.ins[j], 0);
    } else {
      assert StreamFirst(c.ins)[k] == c.ins[j];
    }
  }

  /** The stream and the other inputs stand, and have nothing in common. */
  lemma StreamFirstStand(tb: Tables, g: Nodes, n: nat, c: Plan)
    requires Stands(tb, g, n, c) && HasNow(c)
    ensures AllStand(tb, g, n, StreamFirst(c.ins))
    ensures forall k, i: nat {:trigger Has(StreamFirst(c.ins)[k], i)} :: 0 <= k < |c.ins| && Has(StreamFirst(c.ins)[k], i) ==> Has(c, i)
  {
    var ts := StreamFirst(c.ins);
    forall k | 0 <= k < |ts|
      ensures Stands(tb, g, n, ts[k])
      ensures forall i: nat :: Has(ts[k], i) ==> Has(c.ins[From(c, k)], i)
    {
      StreamFirstAt(tb, g, n, c, k);
    }
    forall j, k | 0 <= j < |ts| && 0 <= k < |ts| && j != k
      ensures Apart(ts[j], ts[k])
    {
      StreamFirstApart(tb, g, n, c, j, k);
    }
  }

  lemma StreamFirstApart(tb: Tables, g: Nodes, n: nat, c: Plan, j: nat, k: nat)
    requires Stands(tb, g, n, c) && HasNow(c) && j < |c.ins| && k < |c.ins| && j != k
    ensures Apart(StreamFirst(c.ins)[j], StreamFirst(c.ins)[k])
  {
    StreamFirstAt(tb, g, n, c, j);
    StreamFirstAt(tb, g, n, c, k);
    assert Apart(c.ins[From(c, j)], c.ins[From(c, k)]);
  }

  /** The links from the cross product to the stream under the window. */
  lemma NowInputLinks(tb: Tables, g: Nodes, n: nat, c: Plan)
    requires Stands(tb, g, n, c) && HasNow(c)
    ensures c.id < n && c.ins[NowAt(c.ins)].id < n && StreamFirst(c.ins)[0].id < n
    ensures g[c.id].inputs == Ids(c.ins) && g[c.ins[NowAt(c.ins)].id].inputs == [StreamFirst(c.ins)[0].id]
  {
    StandsInput(tb, g, n, c, NowAt(c.ins));
    StandsInput(tb, g, n, c.ins[NowAt(c.ins)], 0);
    assert Has(c, c.id);
    assert g[c.id].inputs == Ids(c.ins);
  }

  /** Where an input of the stream cross product comes from. */
  function From(c: Plan, k: nat): (j: nat)
    requires NowAt(c.ins) < |c.ins| && k < |c.ins|
    ensures j < |c.ins|
  {
    if k == 0 then NowAt(c.ins) else if k <= NowAt(c.ins) then k - 1 else k
  }

  /** The stream cross product in slot n0 has the first m inputs, and nothing else changed. */
  ghost predicate Filled(tb: Tables, g0: Nodes, n0: nat, g: Nodes, n: nat, ts: seq<Plan>, m: nat)
    requires m <= |ts|
  {
    && n == n0 + 1 && n <= |g|
    && Stands(tb, g, n, Plan(n0, StreamCross, ts[..m])) && g[n0].output == Null
    && OnlyOutputs(g0, g, n0, Ids(ts[..m]))
  }

  lemma FilledWaiting(tb: Tables, g0: Nodes, n0: nat, g: Nodes, n: nat, ts: seq<Plan>, m: nat)
    requires AllStand(tb, g0, n0, ts) && m < |ts| && Filled(tb, g0, n0, g, n, ts, m)
    ensures Stands(tb, g, n, ts[m]) && Apart(Plan(n0, StreamCross, ts[..m]), ts[m])
  {
    var c := Plan(n0, StreamCross, ts[..m]);
    assert Has(ts[m], ts[m].id);
    forall j: nat | Has(ts[m], j)
      ensures j < n0 && g[j] == g0[j] && !Has(c, j)
    {
      forall k | 0 <= k < m
        ensures ts[k].id != j && !Has(ts[k], j)
      {
        assert Has(ts[k], ts[k].id) && Apart(ts[k], ts[m]);
      }
    }
    KeptStands(tb, g0, g, n0, n, ts[m]);
  }

  /** One more input. */
  method FillOne(pool: Pool, op: nat, input: nat, ghost g0: Nodes, ghost ts: seq<Plan>, ghost m: nat) returns (ok: bool)
    requires pool.Valid() && AllStand(pool.tables, g0, op, ts) && m < |ts| && input == ts[m].id
    requires Filled(pool.tables, g0, op, pool.ops[..], pool.count, ts, m)
    requires |Flat(Schemas(pool.tables, ts))| <= MAX_ATTRS
    modifies pool.ops
    ensures pool.Valid() && (ok <==> m < MAX_INPUT_OPS)
    ensures ok ==> Filled(pool.tables, g0, op, pool.ops[..], pool.count, ts, m + 1)
  {
    hide Linked, Right;
    ghost var g := pool.ops[..];
    ghost var c := Plan(op, StreamCross, ts[..m]);
    FilledWaiting(pool.tables, g0, op, g, pool.count, ts, m);
    SchemaStep(pool.tables, c);
    assert Schemas(pool.tables, ts[..m]) == Schemas(pool.tables, ts)[..m];
    FlatPart(Schemas(pool.tables, ts), m);
    ok := pool.StreamCrossAddInput(op, input, c, ts[m]);
    if ok {
      assert ts[..m + 1] == ts[..m] + [ts[m]];
      assert Ids(ts[..m + 1]) == Ids(ts[..m]) + [input];
    }
  }

  /** Replaces a cross product: the stream under the window comes first, then the other inputs. */
  method BuildStreamCross(pool: Pool, cross: nat, nowIndex: nat, ghost c: Plan) returns (op: Ptr)
    requires pool.Holds(c) && c.id == cross && HasNow(c) && nowIndex == NowAt(c.ins) && Sound(pool.tables, c)
    modifies pool`count, pool.ops
    ensures pool.Valid() && (op == Null <==> old(pool.count) == MAX_OPERATOR || |c.ins| > MAX_INPUT_OPS)
    ensures op != Null ==>
      && op == At(old(pool.count)) && AllStand(pool.tables, old(pool.ops[..]), old(pool.count), StreamFirst(c.ins))
      && Filled(pool.tables, old(pool.ops[..]), old(pool.count), pool.ops[..], pool.count, StreamFirst(c.ins), |c.ins|)
  {
    ghost var g0, n0 := pool.ops[..], pool.count;
    NowInputLinks(pool.tables, g0, n0, c);
    StreamFirstStand(pool.tables, g0, n0, c);
    StreamFits(pool.tables, g0, n0, c);
    var inputs := pool.ops[cross].inputs;
    op := StartStreamCross(pool, pool.ops[inputs[nowIndex]].inputs[0], StreamFirst(c.ins));
    if op == Null {
      return;
    }
    op := FillRest(pool, op.id, inputs, nowIndex, g0, c);
  }

  method StartStreamCross(pool: Pool, source: nat, ghost ts: seq<Plan>) returns (op: Ptr)
    requires pool.Valid() && ts != [] && AllStand(pool.tables, pool.ops[..], pool.count, ts)
    requires source == ts[0].id < pool.ops.Length && pool.ops[source].bStream
    modifies pool`count, pool.ops
    ensures pool.Valid() && (op == Null <==> old(pool.count) == MAX_OPERATOR)
    ensures op != Null ==>
      op == At(old(pool.count)) && Filled(pool.tables, old(pool.ops[..]), old(pool.count), pool.ops[..], pool.count, ts, 1)
  {
    op := pool.MkStreamCross(source, ts[0]);
    assert ts[..1] == [ts[0]];
    assert Ids([ts[0]]) == [source];
  }

  lemma StreamFits(tb: Tables, g: Nodes, n: nat, c: Plan)
    requires Stands(tb, g, n, c) && HasNow(c) && Sound(tb, c)
    ensures |Flat(Schemas(tb, StreamFirst(c.ins)))| <= MAX_ATTRS
    ensures StreamFirst(c.ins)[0].id < n && g[StreamFirst(c.ins)[0].id].bStream
  {
    StreamFirstSound(tb, c);
    SchemaStep(tb, c);
    FlatFirst(Schemas(tb, c.ins), NowAt(c.ins));
    assert NodeRight(tb, g, c, Attrs);
    StreamFirstStand(tb, g, n, c);
    var s := StreamFirst(c.ins)[0];
    assert Has(s, s.id) && NodeRight(tb, g, s, Flag);
  }

  /** The inputs other than the window. */
  method FillRest(pool: Pool, sc: nat, inputs: seq<nat>, nowIndex: nat, ghost g0: Nodes, ghost c: Plan) returns (op: Ptr)
    requires pool.Valid() && HasNow(c) && nowIndex == NowAt(c.ins) && inputs == Ids(c.ins)
    requires AllStand(pool.tables, g0, sc, StreamFirst(c.ins))
    requires Filled(pool.tables, g0, sc, pool.ops[..], pool.count, StreamFirst(c.ins), 1)
    requires |Flat(Schemas(pool.tables, StreamFirst(c.ins)))| <= MAX_ATTRS
    modifies pool.ops
    ensures pool.Valid() && (op == Null <==> |c.ins| > MAX_INPUT_OPS)
    ensures op != Null ==>
      op == At(sc) && Filled(pool.tables, g0, sc, pool.ops[..], pool.count, StreamFirst(c.ins), |c.ins|)
  {
    hide Filled, AllStand;
    ghost var ts := StreamFirst(c.ins);
    ghost var m: nat := 1;
    var i: nat := 0;
    while i < |inputs|
      invariant i <= |inputs| && m == (if i <= nowIndex then i + 1 else i)
      invariant m <= MAX_INPUT_OPS
      invariant pool.Valid() && Filled(pool.tables, g0, sc, pool.ops[..], pool.count, ts, m)
    {
      if i != nowIndex {
        var ok := FillOne(pool, sc, inputs[i], g0, ts, m);
        if !ok {
          return Null;
        }
        m := m + 1;
      }
      i := i + 1;
    }
    op := At(sc);
  }

  // ---------------------------------------------------------------- the transformation

  /** The inputs of the stream cross product are operators of the cross product's plan, below its root. */
  lemma StreamNodes(tb: Tables, g: Nodes, n: nat, c: Plan)
    requires Stands(tb, g, n, c) && HasNow(c)
    ensures forall k {:trigger StreamFirst(c.ins)[k]} :: 0 <= k < |c.ins| ==>
      Has(c, StreamFirst(c.ins)[k].id) && StreamFirst(c.ins)[k].id != c.id
    ensures forall i: nat {:trigger Has(Plan(n, StreamCross, StreamFirst(c.ins)), i)} ::
      Has(Plan(n, StreamCross, StreamFirst(c.ins)), i) ==> i == n || Has(c, i)
  {
    var ts := StreamFirst(c.ins);
    forall k | 0 <= k < |ts|
      ensures Has(c, ts[k].id) && ts[k].id != c.id
    {
      StreamFirstAt(tb, g, n, c, k);
      assert Has(ts[k], ts[k].id) && Has(c.ins[From(c, k)], ts[k].id);
    }
    forall i: nat | Has(Plan(n, StreamCross, ts), i) && i != n
      ensures Has(c, i)
    {
      var k :| 0 <= k < |ts| && Has(ts[k], i);
      StreamFirstAt(tb, g, n, c, k);
      assert Has(c.ins[From(c, k)], i);
    }
  }

  lemma StreamPrepared(tb: Tables, g0: Nodes, n0: nat, g: Nodes, n: nat, t: Plan, path: seq<nat>)
    requires Stands(tb, g0, n0, t) && Leads(t, path) && HasNow(Sub(t, path))
    requires Filled(tb, g0, n0, g, n, StreamFirst(Sub(t, path).ins), |Sub(t, path).ins|)
    ensures var ts := StreamFirst(Sub(t, path).ins);
      Prepared(tb, g0, n0, g, n, t, path, Plan(n0, StreamCross, ts), Ids(ts))
  {
    hide Stands;
    var ts := StreamFirst(Sub(t, path).ins);
    assert ts[..|ts|] == ts;
    SubStands(tb, g0, n0, t, path);
    StreamNodes(tb, g0, n0, Sub(t, path));
  }

  /** A plan with another part in place, before the propagations. */
  lemma PlacedRising(tb: Tables, g0: Nodes, n0: nat, g: Nodes, n: nat, g2: Nodes, t: Plan, path: seq<nat>, u: Plan, ids: seq<nat>, m: Mark)
    requires Prepared(tb, g0, n0, g, n, t, path, u, ids) && path != [] && Placed(g, g2, t, path, u) && g0[t.id].output == Null
    requires var r := Graft(t, path, u); Leads(r, path[..|path| - 1]) && Open(tb, r, path[..|path| - 1], m)
    ensures Rising(tb, g2, n, Graft(t, path, u), path[..|path| - 1], m)
    ensures Sub(Graft(t, path, u), path[..|path| - 1]).id == Parent(t, path).id
  {
    var r := Graft(t, path, u);
    PlacedRegrafted(tb, g0, n0, g, n, g2, t, path, u, ids);
    RegraftedLinked(g0, g2, t, path, u);
    GraftTidy(t, path, u);
    RegraftedOff(tb, g0, g2, t, path, u, m);
    ShieldedGraft(tb, g0, g2, t, path, u, m);
    RegraftedRoot(t, path, u);
    GraftParent(t, path, u);
    forall i: nat | Has(r, i)
      ensures i < n
    {
      GraftHas(t, path, u, i);
    }
  }

  /** Nothing on the path to the stream cross product refuses, and there is room. */
  lemma {:induction false} StreamedOpen(tb: Tables, g: Nodes, n: nat, x: Plan, path: seq<nat>, id: nat, m: Mark)
    requires Stands(tb, g, n, x) && Sound(tb, x) && Streamable(x) && Chain(x, path, OverCross) && Leads(x, path)
    requires Sub(x, path).op.Cross? && path != []
    ensures Leads(Streamed(x, id), path[..|path| - 1]) && Open(tb, Streamed(x, id), path[..|path| - 1], m)
  {
    StreamedWidth(tb, g, n, x, id);
    if |path| > 1 {
      StandsInput(tb, g, n, x, 0);
      StreamedOpen(tb, g, n, x.ins[0], path[1..], id, m);
      assert path[..|path| - 1][1..] == path[1..][..|path| - 2];
    }
  }

  lemma StreamedWidth(tb: Tables, g: Nodes, n: nat, x: Plan, id: nat)
    requires Stands(tb, g, n, x) && Sound(tb, x) && Streamable(x)
    ensures |SchemaOf(tb, Streamed(x, id))| <= MAX_ATTRS
  {
    var off, w := StreamedShape(tb, x, id);
    assert NodeRight(tb, g, x, Attrs);
  }

  /** The plan with the stream cross product in place, still under its Rstream. */
  function UnderRstream(t: Plan, x: Plan): Plan {
    t.(ins := [x])
  }

  lemma UnderOpen(tb: Tables, g: Nodes, n: nat, t: Plan, path: seq<nat>, id: nat, m: Mark)
    requires Stands(tb, g, n, t) && Sound(tb, t) && t.op.Rstream? && |t.ins| == 1 && Streamable(t.ins[0])
    requires Chain(t.ins[0], path, OverCross) && Leads(t.ins[0], path) && Sub(t.ins[0], path).op.Cross?
    ensures var r := UnderRstream(t, Streamed(t.ins[0], id)); var q := ([0] + path)[..|path|];
      Leads(r, q) && Open(tb, r, q, m)
  {
    var x := t.ins[0];
    var q := ([0] + path)[..|path|];
    StandsInput(tb, g, n, t, 0);
    StreamedWidth(tb, g, n, x, id);
    UnderShape(tb, t, Streamed(x, id));
    if path != [] {
      StreamedOpen(tb, g, n, x, path, id, m);
      assert q[1..] == path[..|path| - 1];
    }
  }

  lemma UnderShape(tb: Tables, t: Plan, x: Plan)
    requires t.op.Rstream?
    ensures SchemaOf(tb, UnderRstream(t, x)) == SchemaOf(tb, x)
    ensures Sound(tb, x) ==> Sound(tb, UnderRstream(t, x))
  {
    var r := UnderRstream(t, x);
    SchemaStep(tb, r);
    assert Schemas(tb, r.ins)[0] == SchemaOf(tb, x);
  }

  /** The paths and plans one step further up, at the Rstream. */
  lemma UnderPath(t: Plan, path: seq<nat>, u: Plan)
    requires |t.ins| == 1 && Leads(t.ins[0], path)
    ensures var p := [0] + path;
      Leads(t, p) && Sub(t, p) == Sub(t.ins[0], path) && Graft(t, p, u) == UnderRstream(t, Graft(t.ins[0], path, u))
      && p[|p| - 1] == if path == [] then 0 else path[|path| - 1]
  {
    assert ([0] + path)[1..] == path;
    assert t.ins[0 := Graft(t.ins[0], path, u)] == [Graft(t.ins[0], path, u)];
  }

  /** Links the stream cross product in, and brings schemas and flags above it up to date. */
  method PutStreamCross(pool: Pool, plan: nat, cross: nat, sc: nat, ghost g0: Nodes, ghost t: Plan, ghost path: seq<nat>) returns (rc: int)
    requires pool.Valid() && Stands(pool.tables, g0, sc, t) && Sound(pool.tables, t) && t.id == plan && g0[plan].output == Null
    requires t.op.Rstream? && |t.ins| == 1 && Streamable(t.ins[0])
    requires Leads(t.ins[0], path) && AtCross(sc, t.ins[0], path, Sub(t.ins[0], path))
    requires Sub(t.ins[0], path).op.Cross? && cross == Sub(t.ins[0], path).id
    requires var ts := StreamFirst(Sub(t.ins[0], path).ins);
      AllStand(pool.tables, g0, sc, ts) && Filled(pool.tables, g0, sc, pool.ops[..], pool.count, ts, |ts|)
    modifies pool.ops
    ensures rc == 0 && pool.Valid() && pool.Holds(UnderRstream(t, Streamed(t.ins[0], sc)))
  {
    hide Filled, AllStand, Prepared;
    ghost var x, p, g := t.ins[0], [0] + path, pool.ops[..];
    ghost var ts := StreamFirst(Sub(x, path).ins);
    ghost var u, r := Plan(sc, StreamCross, ts), UnderRstream(t, Streamed(x, sc));
    UnderPath(t, path, u);
    StreamPrepared(pool.tables, g0, sc, g, pool.count, t, p);
    PreparedLinks(pool.tables, g0, sc, g, pool.count, t, p, u, Ids(ts));
    ChainEnd(x, path);
    var root := Place(pool, plan, cross, sc, g0, sc, t, p, u, Ids(ts));
    rc := UpdateAbove(pool, pool.ops[cross].output, g0, sc, g, t, path, u, Ids(ts));
  }

  /** Brings schemas and flags above the new part up to date. */
  method UpdateAbove(pool: Pool, above: Ptr, ghost g0: Nodes, ghost n0: nat, ghost g: Nodes, ghost t: Plan, ghost path: seq<nat>,
                     ghost u: Plan, ghost ids: seq<nat>) returns (rc: int)
    requires pool.Valid() && Sound(pool.tables, t) && t.op.Rstream? && |t.ins| == 1 && Streamable(t.ins[0])
    requires Chain(t.ins[0], path, OverCross) && Leads(t.ins[0], path) && Sub(t.ins[0], path).op.Cross?
    requires Prepared(pool.tables, g0, n0, g, pool.count, t, [0] + path, u, ids) && Placed(g, pool.ops[..], t, [0] + path, u)
    requires g0[t.id].output == Null && above == At(Parent(t, [0] + path).id)
    requires Graft(t, [0] + path, u) == UnderRstream(t, Streamed(t.ins[0], n0))
    modifies pool.ops
    ensures rc == 0 && pool.Holds(UnderRstream(t, Streamed(t.ins[0], n0)))
  {
    ghost var p, r := [0] + path, UnderRstream(t, Streamed(t.ins[0], n0));
    UnderOpen(pool.tables, g0, n0, t, path, n0, Attrs);
    UnderOpen(pool.tables, g0, n0, t, path, n0, Flag);
    PlacedRising(pool.tables, g0, n0, g, pool.count, pool.ops[..], t, p, u, ids, Attrs);
    PlacedRising(pool.tables, g0, n0, g, pool.count, pool.ops[..], t, p, u, ids, Flag);
    ghost var off, w := StreamedShape(pool.tables, t.ins[0], n0);
    UnderShape(pool.tables, t, Streamed(t.ins[0], n0));
    rc := UpdateBoth(pool, above, r, p[..|p| - 1]);
  }

  lemma {:induction false} ChainEnd(x: Plan, path: seq<nat>)
    requires Chain(x, path, OverCross) && Leads(x, path)
    ensures ([0] + path)[|path|] == 0
  {
    if path != [] {
      ChainLast(x, path, OverCross);
    }
  }

  /** Whether the transformation finds room: a slot, and not too many inputs. */
  ghost predicate StreamRoom(t: Plan, n: nat) {
    t.op.Rstream? && |t.ins| == 1 && Streamable(t.ins[0]) ==> n < MAX_OPERATOR && |CrossOf(t.ins[0]).ins| <= MAX_INPUT_OPS
  }

  /** Removes an Rstream over a cross product with a Now window, which becomes a stream cross product. */
  method MakeStreamCross(pool: Pool, plan: nat, ghost t: Plan) returns (rc: int, root: nat)
    requires pool.Holds(t) && t.id == plan && pool.ops[plan].output == Null && Sound(pool.tables, t)
    modifies pool`count, pool.ops
    ensures pool.Valid() && (rc == 0 <==> StreamRoom(t, old(pool.count)))
    ensures rc == 0 ==>
      var r := StreamCrossed(t, old(pool.count));
      && pool.Holds(r) && root == r.id && pool.ops[root].output == Null
      && pool.count == old(pool.count) + if r == t then 0 else 1
  {
    rc, root := 0, plan;
    assert Has(t, t.id);
    if !pool.ops[plan].op.Rstream? {
      return;
    }
    ghost var g0, x := pool.ops[..], t.ins[0];
    StandsInput(pool.tables, g0, pool.count, t, 0);
    var first := pool.ops[plan].inputs[0];
    var cross, path := FindCross(pool, first, x);
    if cross == Null {
      return;
    }
    ghost var c := Sub(x, path);
    SubStands(pool.tables, g0, pool.count, x, path);
    SubSound(pool.tables, x, path);
    var nowIndex := FindNowInput(pool, cross.id, c);
    NowSound(pool.tables, c);
    if nowIndex == |pool.ops[cross.id].inputs| {
      return;
    }
    rc, root := ReplaceCross(pool, plan, cross.id, nowIndex, t, path);
  }

  lemma NowSound(tb: Tables, c: Plan)
    requires c.op.Cross? && Sound(tb, c)
    ensures HasNow(c) <==> NowAt(c.ins) < |c.ins|
  {
    if NowAt(c.ins) < |c.ins| {
      assert Sound(tb, c.ins[NowAt(c.ins)]);
    }
  }

  method ReplaceCross(pool: Pool, plan: nat, cross: nat, nowIndex: nat, ghost t: Plan, ghost path: seq<nat>) returns (rc: int, root: nat)
    requires pool.Holds(t) && t.id == plan && pool.ops[plan].output == Null && Sound(pool.tables, t)
    requires t.op.Rstream? && |t.ins| == 1 && Leads(t.ins[0], path) && AtCross(pool.count, t.ins[0], path, Sub(t.ins[0], path))
    requires HasNow(Sub(t.ins[0], path)) && nowIndex == NowAt(Sub(t.ins[0], path).ins) && cross == Sub(t.ins[0], path).id
    modifies pool`count, pool.ops
    ensures pool.Valid() && (rc == 0 <==> StreamRoom(t, old(pool.count)))
    ensures rc == 0 ==>
      var r := StreamCrossed(t, old(pool.count));
      && pool.Holds(r) && root == r.id && pool.ops[root].output == Null && pool.count == old(pool.count) + 1 && r != t
  {
    ghost var g0, n0, x := pool.ops[..], pool.count, t.ins[0];
    CrossInPlan(pool.tables, g0, n0, t, path);
    root := plan;
    var sc := BuildStreamCross(pool, cross, nowIndex, Sub(x, path));
    if sc == Null {
      return -1, root;
    }
    rc := PutStreamCross(pool, plan, cross, sc.id, g0, t, path);
    root := DropRstream(pool, plan, t, Streamed(x, n0));
    StreamedNotRstream(x, n0);
  }

  lemma CrossInPlan(tb: Tables, g: Nodes, n: nat, t: Plan, path: seq<nat>)
    requires Stands(tb, g, n, t) && Sound(tb, t) && |t.ins| == 1 && Leads(t.ins[0], path)
    ensures Stands(tb, g, n, Sub(t.ins[0], path)) && Sound(tb, Sub(t.ins[0], path)) && t.id < n
  {
    StandsInput(tb, g, n, t, 0);
    SubStands(tb, g, n, t.ins[0], path);
    SubSound(tb, t.ins[0], path);
    assert Has(t, t.id);
  }

  lemma StreamedNotRstream(x: Plan, id: nat)
    requires Streamable(x)
    ensures !Streamed(x, id).op.Rstream?
  {
  }

  /** Removes the Rstream at the root. */
  method DropRstream(pool: Pool, plan: nat, ghost t: Plan, ghost x: Plan) returns (root: nat)
    requires pool.Holds(UnderRstream(t, x)) && plan == t.id
    modifies pool.ops
    ensures pool.Holds(x) && root == x.id && pool.ops[root].output == Null
  {
    ghost var g := pool.ops[..];
    StandsInput(pool.tables, g, pool.count, UnderRstream(t, x), 0);
    assert Has(UnderRstream(t, x), plan);
    root := pool.ops[plan].inputs[0];
    pool.ops[root] := pool.ops[root].(output := Null);
    KeptStands(pool.tables, g, pool.ops[..], pool.count, pool.count, x);
  }
}
