/** Removing an Rstream and a Now window, done on the links of the pool. */
module TransformNow {
  import opened Common
  import opened LogicalPlan
  import opened LogicalTrees
  import opened LogicalOps
  import opened Marking
  import opened RewriteNow

  /** Walking down from x along path, the search is at cur. */
  ghost predicate AtNow(x: Plan, path: seq<nat>, cur: Plan) {
    && Chain(x, path, OverNow) && Leads(x, path) && cur == Sub(x, path)
    && NowBelow(x) == NowBelow(cur)
    && (NowBelow(cur) ==> WithoutNow(x) == Graft(x, path, WithoutNow(cur)))
  }

  lemma AtNowOn(x: Plan, path: seq<nat>, cur: Plan)
    requires AtNow(x, path, cur) && OverNow(cur.op) && |cur.ins| == 1
    ensures AtNow(x, path + [0], cur.ins[0])
  {
    ChainOn(x, path, OverNow);
    if NowBelow(cur) {
      ChainGraftOn(x, path, OverNow, WithoutNow(cur.ins[0]));
    }
  }

  /** Looks for a Now window below selects, projects and distincts. */
  method FindNow(pool: Pool, from: nat, ghost x: Plan) returns (now: Ptr, ghost path: seq<nat>)
    requires pool.Holds(x) && x.id == from && Sound(pool.tables, x)
    ensures now == Null <==> !NowBelow(x)
    ensures now != Null ==>
      Leads(x, path) && AtNow(x, path, Sub(x, path)) && Sub(x, path).op.NowWin? && now == At(Sub(x, path).id) && |Sub(x, path).ins| == 1
  {
    var op := from;
    path := [];
    ghost var cur := x;
    while true
      invariant AtNow(x, path, cur) && op == cur.id && pool.Holds(cur) && Sound(pool.tables, cur)
      decreases cur
    {
      if pool.ops[op].op.NowWin? {
        return At(op), path;
      }
      if pool.ops[op].op.Select? || pool.ops[op].op.Project? || pool.ops[op].op.Distinct? {
        AtNowOn(x, path, cur);
        StandsInput(pool.tables, pool.ops[..], pool.count, cur, 0);
        op := pool.ops[op].inputs[0];
        path, cur := path + [0], cur.ins[0];
      } else {
        return Null, path;
      }
    }
  }

  /** Every operator the path passes gives a stream. */
  lemma {:induction false} OverNowStream(x: Plan, path: seq<nat>, n: nat)
    requires Chain(x, path, OverNow) && Leads(x, path) && IsStream(Sub(x, path)) && n <= |path|
    ensures Leads(x, path[..n]) && IsStream(Sub(x, path[..n]))
    decreases |path| - n
  {
    ChainAt(x, path, OverNow, n);
    if n < |path| {
      OverNowStream(x, path, n + 1);
      SchemaStep(Tables((i) => 0, (i, j) => INT, (i, j) => 0, (i) => false), Sub(x, path[..n]));
    } else {
      assert path[..n] == path;
    }
  }

  /** Turns the flag of every operator from op up to the root. */
  method MarkStreams(pool: Pool, from: Ptr, ghost r: Plan, ghost path: seq<nat>)
    requires pool.Valid() && path != [] && Chain(r, path, OverNow) && Leads(r, path[..|path| - 1])
    requires from == At(Sub(r, path[..|path| - 1]).id) && IsStream(r) && Leads(r, path) && IsStream(Sub(r, path))
    requires var g := pool.ops[..]; Linked(g, r) && Tidy(r) && g[r.id].output == Null && (forall i: nat :: Has(r, i) ==> i < pool.count)
    requires Right(pool.tables, pool.ops[..], r, Attrs)
    requires RightOff(pool.tables, pool.ops[..], r, path[..|path| - 1], Flag)
    modifies pool.ops
    ensures pool.Holds(r) && pool.ops[r.id].output == Null
    ensures forall i :: 0 <= i < pool.ops.Length && !Has(r, i) ==> pool.ops[i] == old(pool.ops[i])
  {
    hide Right, Linked, Tidy;
    var op := from;
    ghost var q := path[..|path| - 1];
    ghost var done := false;
    assert Has(r, r.id);
    while op != Null
      invariant Leads(r, q) && |q| < |path| && q == path[..|q|]
      invariant op == if done then Null else At(Sub(r, q).id)
      invariant var g := pool.ops[..]; Linked(g, r) && Right(pool.tables, g, r, Attrs) && g[r.id].output == Null
      invariant if done then Right(pool.tables, pool.ops[..], r, Flag) else RightOff(pool.tables, pool.ops[..], r, q, Flag)
      invariant forall i :: 0 <= i < pool.ops.Length && !Has(r, i) ==> pool.ops[i] == old(pool.ops[i])
      decreases if done then 0 else 1 + |q|
    {
      ghost var g := pool.ops[..];
      SubLinked(g, r, q);
      SubHas(r, q, op.id);
      OverNowStream(r, path, |q|);
      pool.ops[op.id] := pool.ops[op.id].(bStream := true);
      MarkedLinked(g, pool.ops[..], r, op.id);
      MarkedRight(pool.tables, g, pool.ops[..], r, op.id, Attrs);
      MarkedOff(pool.tables, g, pool.ops[..], r, q, Flag);
      OffShorter(pool.tables, pool.ops[..], r, q, Flag);
      if q == [] {
        done := true;
      } else {
        ParentLink(pool.ops[..], r, q);
        q := q[..|q| - 1];
        assert path[..|q| + 1][..|q|] == path[..|q|];
      }
      op := pool.ops[op.id].output;
    }
  }

  /** The links once the window is bypassed. */
  ghost predicate Bypassed(g: Nodes, g2: Nodes, x: Plan, path: seq<nat>)
    requires Leads(x, path) && path != [] && |Sub(x, path).ins| == 1
  {
    var p, s := Parent(x, path).id, Sub(x, path).ins[0].id;
    var h := if x.id < |g| then g[x.id := g[x.id].(output := Null)] else g;
    var h2 := if s < |h| then h[s := h[s].(output := At(p))] else h;
    p < |h2| && |h2[p].inputs| > 0 && g2 == h2[p := h2[p].(inputs := h2[p].inputs[0 := s])]
  }

  lemma BypassedStands(tb: Tables, g: Nodes, n: nat, g2: Nodes, x: Plan, path: seq<nat>)
    requires Stands(tb, g, n, x) && path != [] && Chain(x, path, OverNow) && Leads(x, path)
    requires Sub(x, path).op.NowWin? && |Sub(x, path).ins| == 1 && Bypassed(g, g2, x, path)
    ensures var s := Sub(x, path).ins[0]; var r := Graft(x, path, s);
      && Linked(g2, r) && Tidy(r) && Right(tb, g2, r, Attrs) && (forall i: nat :: Has(r, i) ==> i < n)
      && g2[r.id].output == Null && r.id == x.id
      && Leads(r, path[..|path| - 1]) && RightOff(tb, g2, r, path[..|path| - 1], Flag)
  {
    var now := Sub(x, path);
    var s := now.ins[0];
    var r := Graft(x, path, s);
    SubStands(tb, g, n, x, path);
    StandsInput(tb, g, n, now, 0);
    SchemaStep(tb, now);
    ParentHas(x, path);
    SubNotRoot(x, path);
    BypassedParent(g, x, path);
    assert Has(now, s.id) && Has(s, s.id) && Has(x, x.id) && Has(now, now.id);
    BypassedRegrafted(tb, g, n, g2, x, path);
    RegraftedLinked(g, g2, x, path, s);
    GraftTidy(x, path, s);
    RegraftedRight(tb, g, g2, x, path, s, Attrs);
    RegraftedOff(tb, g, g2, x, path, s, Flag);
    RegraftedRoot(x, path, s);
    forall i: nat | Has(r, i)
      ensures i < n
    {
      GraftHas(x, path, s, i);
    }
  }

  lemma BypassedParent(g: Nodes, x: Plan, path: seq<nat>)
    requires Linked(g, x) && path != [] && Chain(x, path, OverNow) && Leads(x, path)
    ensures path[|path| - 1] == 0 && |Parent(x, path).ins| == 1 && Parent(x, path).ins[0] == Sub(x, path)
    ensures Parent(x, path).id < |g| && |g[Parent(x, path).id].inputs| == 1
    ensures Sub(x, path).id < |g| && g[Sub(x, path).id].output == At(Parent(x, path).id)
    ensures OverNow(Parent(x, path).op)
  {
    var m := |path| - 1;
    ParentLink(g, x, path);
    ChainAt(x, path, OverNow, m);
    SubLinked(g, x, path[..m]);
    ChainLast(x, path, OverNow);
  }

  lemma BypassedRegrafted(tb: Tables, g: Nodes, n: nat, g2: Nodes, x: Plan, path: seq<nat>)
    requires Stands(tb, g, n, x) && path != [] && Chain(x, path, OverNow) && Leads(x, path)
    requires Sub(x, path).op.NowWin? && |Sub(x, path).ins| == 1 && Bypassed(g, g2, x, path)
    ensures var s := Sub(x, path).ins[0];
      Regrafted(g, g2, x, path, s) && Fresh(x, path, s) && Kept(g, g2, s) && Stands(tb, g2, n, s)
  {
    var now := Sub(x, path);
    var s := now.ins[0];
    SubStands(tb, g, n, x, path);
    StandsInput(tb, g, n, now, 0);
    ParentHas(x, path);
    SubNotRoot(x, path);
    BypassedParent(g, x, path);
    assert Has(s, s.id) && Has(x, x.id);
    forall i: nat | Has(s, i)
      ensures Has(now, i)
    {
    }
    KeptStands(tb, g, g2, n, n, s);
  }

  /**
   Removes an Rstream on top of the plan together with the Now window it ends at, if only selects,
   projects and distincts are in between.
   */
  method RstreamNow(pool: Pool, plan: nat, ghost t: Plan) returns (root: nat)
    requires pool.Holds(t) && t.id == plan && pool.ops[plan].output == Null && Sound(pool.tables, t)
    modifies pool.ops
    ensures pool.Holds(RstreamNowRemoved(t)) && root == RstreamNowRemoved(t).id && pool.ops[root].output == Null
    ensures forall i :: 0 <= i < pool.ops.Length && !Has(t, i) ==> pool.ops[i] == old(pool.ops[i])
  {
    root := plan;
    assert Has(t, t.id);
    if !pool.ops[plan].op.Rstream? {
      return;
    }
    ghost var g, x := pool.ops[..], t.ins[0];
    StandsInput(pool.tables, g, pool.count, t, 0);
    var now, path := FindNow(pool, pool.ops[plan].inputs[0], x);
    if now == Null {
      return;
    }
    root := RemoveNow(pool, pool.ops[plan].inputs[0], now.id, x, path);
  }

  lemma NowLinks(tb: Tables, g: Nodes, n: nat, x: Plan, path: seq<nat>)
    requires Stands(tb, g, n, x) && Chain(x, path, OverNow) && Leads(x, path) && |Sub(x, path).ins| == 1
    ensures var now := Sub(x, path); var s := now.ins[0];
      && now.id < n && s.id < n && x.id < n && s.id != now.id && s.id != x.id && Has(x, s.id) && Has(x, x.id)
      && |g[now.id].inputs| == 1 && g[now.id].inputs[0] == s.id && Stands(tb, g, n, s)
      && (path == [] ==> now == x && !Has(s, x.id))
      && (path != [] ==>
           var p := Parent(x, path).id;
           p < n && Has(x, p) && p != now.id && p != s.id && now.id != x.id
           && |g[p].inputs| == 1 && g[now.id].output == At(p))
  {
    var now := Sub(x, path);
    var s := now.ins[0];
    SubStands(tb, g, n, x, path);
    StandsInput(tb, g, n, now, 0);
    assert Has(now, now.id) && Has(now, s.id) && Has(s, s.id) && Has(x, x.id);
    SubHas(x, path, s.id);
    SubHas(x, path, now.id);
    if path != [] {
      BypassedParent(g, x, path);
      ParentHas(x, path);
      SubNotRoot(x, path);
    }
  }

  method RemoveNow(pool: Pool, first: nat, now: nat, ghost x: Plan, ghost path: seq<nat>) returns (root: nat)
    requires pool.Holds(x) && x.id == first && NowBelow(x) && Sound(pool.tables, x)
    requires Leads(x, path) && AtNow(x, path, Sub(x, path))
    requires Sub(x, path).op.NowWin? && |Sub(x, path).ins| == 1 && now == Sub(x, path).id
    modifies pool.ops
    ensures pool.Holds(WithoutNow(x)) && root == WithoutNow(x).id && pool.ops[root].output == Null
    ensures forall i :: 0 <= i < pool.ops.Length && !Has(x, i) ==> pool.ops[i] == old(pool.ops[i])
  {
    hide Linked;
    ghost var g, s := pool.ops[..], Sub(x, path).ins[0];
    NowLinks(pool.tables, g, pool.count, x, path);
    root := first;
    pool.ops[root] := pool.ops[root].(output := Null);
    var src := pool.ops[now].inputs[0];
    pool.ops[src] := pool.ops[src].(output := pool.ops[now].output);
    if pool.ops[now].output == Null {
      root := src;
      KeptStands(pool.tables, g, pool.ops[..], pool.count, pool.count, s);
    } else {
      var above := pool.ops[now].output.id;
      pool.ops[above] := pool.ops[above].(inputs := pool.ops[above].inputs[0 := src]);
      assert Bypassed(g, pool.ops[..], x, path);
      WithoutNowInside(x);
      FlagPath(pool, pool.ops[now].output, g, x, path);
    }
  }

  /** After the links are set, the flags on the path. */
  method FlagPath(pool: Pool, above: Ptr, ghost g: Nodes, ghost x: Plan, ghost path: seq<nat>)
    requires pool.Valid() && Stands(pool.tables, g, pool.count, x) && NowBelow(x) && Sound(pool.tables, x)
    requires Leads(x, path) && path != [] && AtNow(x, path, Sub(x, path))
    requires Sub(x, path).op.NowWin? && |Sub(x, path).ins| == 1 && Bypassed(g, pool.ops[..], x, path)
    requires above == At(Parent(x, path).id)
    modifies pool.ops
    ensures pool.Holds(WithoutNow(x)) && x.id == WithoutNow(x).id && pool.ops[x.id].output == Null
    ensures forall i :: 0 <= i < pool.ops.Length && !Has(WithoutNow(x), i) ==> pool.ops[i] == old(pool.ops[i])
  {
    BypassedStands(pool.tables, g, pool.count, pool.ops[..], x, path);
    BypassedStream(pool.tables, x, path);
    MarkStreams(pool, above, WithoutNow(x), path);
  }

  lemma WithoutNowInside(x: Plan)
    requires NowBelow(x)
    ensures forall i: nat {:trigger Has(WithoutNow(x), i)} :: Has(WithoutNow(x), i) ==> Has(x, i)
  {
    forall i: nat | Has(WithoutNow(x), i)
      ensures Has(x, i)
    {
      WithoutNowHas(x, i);
    }
  }

  lemma {:induction false} WithoutNowHas(x: Plan, i: nat)
    requires NowBelow(x) && Has(WithoutNow(x), i)
    ensures Has(x, i)
  {
    if !x.op.NowWin? && i != x.id {
      WithoutNowHas(x.ins[0], i);
    }
  }

  lemma BypassedStream(tb: Tables, x: Plan, path: seq<nat>)
    requires Sound(tb, x) && NowBelow(x) && Leads(x, path) && AtNow(x, path, Sub(x, path)) && path != []
    requires Sub(x, path).op.NowWin? && |Sub(x, path).ins| == 1
    ensures var r := WithoutNow(x);
      && r == Graft(x, path, Sub(x, path).ins[0])
      && Chain(r, path, OverNow) && Leads(r, path) && IsStream(Sub(r, path)) && IsStream(r)
      && Leads(r, path[..|path| - 1]) && Sub(r, path[..|path| - 1]).id == Parent(x, path).id
  {
    var s := Sub(x, path).ins[0];
    SubSound(tb, x, path);
    assert Flags(Sub(x, path).ins)[0] == IsStream(s);
    ChainGraft(x, path, OverNow, s);
    GraftParent(x, path, s);
    WithoutNowSchema(tb, x);
  }
}
