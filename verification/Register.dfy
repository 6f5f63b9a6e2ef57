/** Registering base tables, queries and views with the physical plan. */
module Register {
  import opened Common
  import opened Semantics
  import L = LogicalPlan
  import P = PhysicalPlan
  import opened LogicalTrees
  import opened LogicalOps
  import opened Manager
  import opened Extend
  import opened Build
  import opened MergePasses
  import opened QueryClasses
  import opened PlanColumns
  import opened Compile
  import opened Readers
  import opened Stacks
  import opened GenPhyPlan

  const MAX_TABLES: nat := 1000
  const MAX_QUERIES: nat := 1000
  const MAX_OUTPUT: nat := 1000

  /** The columns of the system stream. */
  const SS_COLUMNS: seq<P.Column> :=
    [P.Column(INT, INT_SIZE), P.Column(INT, INT_SIZE), P.Column(INT, INT_SIZE), P.Column(INT, INT_SIZE), P.Column(FLOAT, FLOAT_SIZE)]

  /** The query source operator that stands for the result of a query. */
  datatype QueryOut = QueryOut(queryId: nat, op: nat)

  ghost predicate AllClassesOk(g: P.Graph, live: set<nat>, rank: seq<nat>)
    requires P.Wf(g, live, rank)
  {
    forall i {:trigger ClassOk(g, i)} :: i in live ==> ClassOk(g, i)
  }

  /** New operators without a class do not disturb the order of classes. */
  lemma OntoClasses(pm: PlanManager, g0: P.Graph, live0: set<nat>, rank0: seq<nat>)
    requires P.Wf(g0, live0, rank0) && pm.Valid() && Onto(pm, g0, live0) && AllClassesOk(g0, live0, rank0)
    ensures AllClassesOk(pm.ops[..], pm.live, pm.rank)
  {
    forall i | i in pm.live
      ensures ClassOk(pm.ops[..], i)
    {
      if i in live0 {
        assert ClassOk(g0, i);
      }
    }
  }

  /** The result of a query and its output produce what the query's plan does. */
  lemma PassMeaning(env: Env, n: nat, g: P.Graph, live: set<nat>, rank: seq<nat>, op: nat, child: nat)
    requires P.Wf(g, live, rank) && op in live && child in live && g[op].inputs == [child]
    requires g[op].payload.QuerySource? || g[op].payload.Output?
    ensures P.Meaning(env, n, g, live, rank, op) == P.Meaning(env, n, g, live, rank, child)
  {
    P.MeaningStep(env, n, g, live, rank, op);
    assert P.Meanings(env, n, g, live, rank, [child])[0] == P.Meaning(env, n, g, live, rank, child);
  }

  // ---------------------------------------------------------------- classes do not change what operators do

  lemma ClassesPlan(g: P.Graph, g2: P.Graph, live: set<nat>, rank: seq<nat>)
    requires P.IsPlan(g, live, rank) && SameButClasses(g, g2)
    ensures P.IsPlan(g2, live, rank) && Extends(g, live, g2, live)
  {
    forall i | i in live
      ensures P.Typed(g2, live, i)
    {
      assert P.Typed(g, live, i);
      assert P.InputFlags(g2, g2[i].inputs) == P.InputFlags(g, g[i].inputs);
      assert P.InputSchemas(g2, g2[i].inputs) == P.InputSchemas(g, g[i].inputs);
    }
    assert forall p, c :: p in live && c in live ==> g2[c].inputs == g[c].inputs && g2[p].outputs == g[p].outputs;
  }

  /** The operator that produces the system stream; it is in class 1 from the start. */
  method CreateSSGen(pm: PlanManager, ghost tb: L.Tables) returns (op: nat)
    requires pm.PoolValid() && pm.used == [] && pm.live == {} && |pm.free| >= 2
    requires forall i :: 0 <= i < pm.ops.Length ==> pm.ops[i].queryClass == 0
    requires TableColumns(tb, P.SS_ID) == SS_COLUMNS && tb.isStream(P.SS_ID)
    modifies pm, pm.next, pm.prev, pm.ops
    ensures Based(pm, tb, [Source(P.SS_ID, op)]) && AllClassesOk(pm.ops[..], pm.live, pm.rank)
    ensures pm.live == {op} && pm.ops[op].payload.SsGen? && pm.ops[op].queryClass == 1
  {
    pm.rank := seq(pm.ops.Length, i => 0);
    ghost var g0 := pm.ops[..];
    EmptyPlan(g0, pm.rank);
    FreeNotLive(pm);
    var rc;
    rc, op := MkSource(pm, P.SsGen, SS_COLUMNS, true);
    ghost var g := pm.ops[..];
    pm.ops[op] := pm.ops[op].(queryClass := 1);
    SsGenDone(pm, tb, g, op);
  }

  lemma SsGenDone(pm: PlanManager, tb: L.Tables, g: P.Graph, op: nat)
    requires pm.PoolValid() && P.IsPlan(g, pm.live, pm.rank) && pm.live == {op} && pm.used == [op] && op < |g|
    requires pm.ops[..] == g[op := g[op].(queryClass := 1)] && g[op].payload.SsGen? && g[op].inputs == []
    requires g[op].attrs == SS_COLUMNS && g[op].bStream && TableColumns(tb, P.SS_ID) == SS_COLUMNS && tb.isStream(P.SS_ID)
    requires forall i :: 0 <= i < |g| ==> g[i].queryClass == 0
    ensures Based(pm, tb, [Source(P.SS_ID, op)]) && AllClassesOk(pm.ops[..], pm.live, pm.rank)
  {
    FreeNotLive(pm);
    ClassesPlan(g, pm.ops[..], pm.live, pm.rank);
    assert Ordered(pm.ops[..], pm.used);
  }

  lemma EmptyPlan(g: P.Graph, rank: seq<nat>)
    requires |rank| == |g|
    ensures P.IsPlan(g, {}, rank) && Fits(g, P.SsGen, SS_COLUMNS, true, [])
  {
  }

  class Registry {
    const pm: PlanManager
    const tables: L.Tables
    /** Which operator each table is read from. */
    var sources: seq<Source>
    var queries: seq<QueryOut>
    var numBaseTables: nat
    var numOutputs: nat
    var currentClass: int

    ghost predicate Valid()
      reads this, pm, pm.ops, pm.next, pm.prev
    {
      && Based(pm, tables, sources) && AllClassesOk(pm.ops[..], pm.live, pm.rank) && currentClass > 0
      && forall k :: 0 <= k < |queries| ==> queries[k].op in pm.live && pm.ops[queries[k].op].payload.QuerySource?
    }

    /** An empty plan gets the operator that produces the system stream, which starts in class 1. */
    constructor (pm: PlanManager, tables: L.Tables)
      requires pm.PoolValid() && pm.used == [] && pm.live == {} && |pm.free| >= 2
      requires forall i :: 0 <= i < pm.ops.Length ==> pm.ops[i].queryClass == 0
      requires TableColumns(tables, P.SS_ID) == SS_COLUMNS && tables.isStream(P.SS_ID)
      modifies pm, pm.next, pm.prev, pm.ops
      ensures Valid() && this.pm == pm && this.tables == tables
      ensures |sources| == 1 && sources[0].table == P.SS_ID && pm.live == {sources[0].op}
      ensures pm.ops[sources[0].op].payload.SsGen? && pm.ops[sources[0].op].queryClass == 1
      ensures queries == [] && numBaseTables == 0 && numOutputs == 0 && currentClass == 1
    {
      this.pm := pm;
      this.tables := tables;
      queries, numBaseTables, numOutputs, currentClass := [], 0, 0, 1;
      sources := [];
      new;
      var op := CreateSSGen(pm, tables);
      sources := [Source(P.SS_ID, op)];
    }

    /** The columns registered for a table. */
    method TableSchema(tableId: nat) returns (attrs: seq<P.Column>)
      ensures attrs == TableColumns(tables, tableId)
    {
      attrs := [];
      for a := 0 to tables.width(tableId)
        invariant attrs == TableColumns(tables, tableId)[..a]
      {
        attrs := attrs + [P.Column(tables.typ(tableId, a), tables.len(tableId, a))];
      }
    }

    /**
     A new source operator for a base table.  Everything that was there does the same, and the table
     is read from the new operator.
     */
    method AddBaseTable(tableId: nat) returns (rc: int, op: nat)
      requires Valid() && |pm.free| != 1
      modifies this`sources, this`numBaseTables, pm, pm.next, pm.prev, pm.ops
      ensures rc == 0 <==>
        && old(pm.free) != [] && tables.width(tableId) <= MAX_ATTRS
        && old(numBaseTables) < MAX_TABLES && |old(sources)| < MAX_TABLES
      ensures rc == 0 ==> Valid() && sources == old(sources) + [Source(tableId, op)]
      ensures rc == 0 ==> Extends(old(pm.ops[..]), old(pm.live), pm.ops[..], pm.live) && pm.live == old(pm.live) + {op}
      ensures rc == 0 ==> forall i :: i in old(pm.live) ==> pm.ops[i].queryClass == old(pm.ops[..])[i].queryClass
      ensures rc == 0 ==>
        && pm.ops[op].queryClass == 0
        && pm.ops[op].payload == (if tables.isStream(tableId) then P.StreamSource(tableId, old(numBaseTables))
                                  else P.RelnSource(tableId, old(numBaseTables)))
    {
      hide IsList, P.EdgesAgree, P.AllTyped, Ordered, Partition, SourcesOk, BaseFits;
      var p := if tables.isStream(tableId) then P.StreamSource(tableId, numBaseTables) else P.RelnSource(tableId, numBaseTables);
      var attrs := TableSchema(tableId);
      rc, op := NewSource(pm, tables, sources, tableId, p, attrs);
      if rc != 0 {
        return;
      }
      if |attrs| > MAX_ATTRS || numBaseTables >= MAX_TABLES || |sources| >= MAX_TABLES {
        return -1, op;
      }
      numBaseTables := numBaseTables + 1;
      sources := sources + [Source(tableId, op)];
    }

    /**
     Registers a query: its plan, the operator that stands for its result, and an output if it is
     wanted outside, which spreads the current class over everything it reads from.  What was there
     keeps doing the same.  When the operators that were added are all in place, and before classes
     are spread, the plan is mid.
     */
    method AddLogicalQueryPlan(queryId: nat, pool: Pool, plan: nat, output: bool, ghost t: L.Plan)
      returns (rc: int, query: nat, out: Ptr, ghost mid: P.Graph)
      requires Valid() && Translatable(pool, sources, t) && t.id == plan && pool.tables == tables
      requires |pm.free| >= Size(t) + 3
      modifies this`queries, this`numOutputs, pm, pm.next, pm.prev, pm.ops
      ensures rc == 0 <==>
        && AllBinary(t) && Room(sources, old(pm.ops[..]), old(pm.live), t)
        && TopRoom(sources, old(pm.ops[..]), old(pm.live), t, if output then 2 else 1)
        && |old(queries)| < MAX_QUERIES && (output ==> old(numOutputs) < MAX_OUTPUT)
      ensures rc == 0 ==> Valid() && queries == old(queries) + [QueryOut(queryId, query)]
      ensures rc == 0 ==> InPlan(tables, sources, pm.ops[..], pm.live, pm.rank, query, out, queryId, old(numOutputs), output, t)
      ensures rc == 0 ==> Spread(old(pm.ops[..]), old(pm.live), mid, pm.ops[..], pm.live, pm.rank, out, currentClass)
    {
      hide Based, AllClassesOk, SourcesOk, Room, TopRoom, Translatable, ClassOk;
      rc, query, out, mid := RegisterPlan(pm, pool, sources, plan, queryId, numOutputs, |queries|, output, currentClass, t);
      if rc != 0 {
        return;
      }
      SpreadExtends(old(pm.ops[..]), old(pm.live), mid, pm.ops[..], pm.live, pm.rank, out, currentClass);
      ghost var g := pm.ops[..];
      queries := queries + [QueryOut(queryId, query)];
      numOutputs := numOutputs + if out != Null then 1 else 0;
      assert pm.ops[..] == g;
    }

    /** The first registered query with the identifier, or their number. */
    function QueryAt(from: nat, queryId: nat): (k: nat)
      requires from <= |queries|
      reads this
      ensures from <= k <= |queries| && (k < |queries| ==> queries[k].queryId == queryId)
      ensures forall j :: from <= j < k ==> queries[j].queryId != queryId
      decreases |queries| - from
    {
      if from == |queries| || queries[from].queryId == queryId then from else QueryAt(from + 1, queryId)
    }

    method FindQuery(queryId: nat) returns (k: nat)
      ensures k == QueryAt(0, queryId)
    {
      k := 0;
      while k < |queries|
        invariant k <= |queries| && QueryAt(0, queryId) == QueryAt(k, queryId)
      {
        if queries[k].queryId == queryId {
          return;
        }
        k := k + 1;
      }
    }

    /** Whether the columns are those registered for a table. */
    method CompareColumns(tableId: nat, attrs: seq<P.Column>) returns (same: bool)
      ensures same <==> attrs == TableColumns(tables, tableId)
    {
      if tables.width(tableId) != |attrs| {
        return false;
      }
      for a := 0 to |attrs|
        invariant forall j :: 0 <= j < a ==> attrs[j] == P.Column(tables.typ(tableId, j), tables.len(tableId, j))
      {
        if tables.typ(tableId, a) != attrs[a].typ {
          return false;
        }
        if tables.len(tableId, a) != attrs[a].len {
          return false;
        }
      }
      same := true;
    }

    /**
     Makes the result of a query readable as a table with the same columns.  Nothing checks that the
     table is declared a stream exactly if the query gives one, and if they differ the registry is no
     longer in order.
     */
    method Map(queryId: nat, tableId: nat) returns (rc: int, k: nat)
      requires Valid()
      modifies this`sources
      ensures k == QueryAt(0, queryId)
      ensures rc == 0 <==>
        && k < |queries| && pm.ops[queries[k].op].attrs == TableColumns(tables, tableId) && |old(sources)| < MAX_TABLES
      ensures sources == old(sources) + if rc == 0 then [Source(tableId, queries[k].op)] else []
      ensures Valid() <==> rc != 0 || pm.ops[queries[k].op].bStream == tables.isStream(tableId)
    {
      hide IsList, P.EdgesAgree, P.AllTyped, Ordered;
      k := FindQuery(queryId);
      if k == |queries| {
        return -1, k;
      }
      var same := CompareColumns(tableId, pm.ops[queries[k].op].attrs);
      if !same || |sources| >= MAX_TABLES {
        return -1, k;
      }
      ghost var g, before := pm.ops[..], sources;
      sources := sources + [Source(tableId, queries[k].op)];
      assert pm.ops[..] == g;
      OneMoreSource(tables, before, queries[k].op, tableId, g, pm.live);
      rc := 0;
    }
  }

  /** A source is in order exactly if it gives a stream where the table is one. */
  lemma OneMoreSource(tb: L.Tables, src: seq<Source>, op: nat, table: nat, g: P.Graph, live: set<nat>)
    requires (forall i :: i in live ==> i < |g|) && SourcesOk(tb, src, g, live)
    requires op in live && SourceKind(g[op].payload) && g[op].attrs == TableColumns(tb, table)
    ensures SourcesOk(tb, src + [Source(table, op)], g, live) <==> g[op].bStream == tb.isStream(table)
  {
    var more := src + [Source(table, op)];
    assert more[|src|] == Source(table, op) && forall k :: 0 <= k < |src| ==> more[k] == src[k];
  }

  /** The operators that stand for a query, and its output if it has one, produce what its plan means. */
  ghost predicate InPlan(tb: L.Tables, src: seq<Source>, g: P.Graph, live: set<nat>, rank: seq<nat>,
                         query: nat, out: Ptr, queryId: nat, outputId: nat, output: bool, t: L.Plan)
    requires P.Wf(g, live, rank) && SourcesIn(src, live)
  {
    && Compiled(tb, src, g, live, rank, query, t) && g[query].payload.QuerySource?
    && (output <==> out != Null)
    && (out != Null ==> Compiled(tb, src, g, live, rank, out.id, t) && g[out.id].payload == P.Output(outputId, queryId))
  }

  /** Translates the plan, puts the operators of the query on top, and spreads the class of its output. */
  method RegisterPlan(pm: PlanManager, pool: Pool, src: seq<Source>, plan: nat, queryId: nat, outputId: nat, numQueries: nat,
                      output: bool, c: int, ghost t: L.Plan) returns (rc: int, query: nat, out: Ptr, ghost mid: P.Graph)
    requires Translatable(pool, src, t) && t.id == plan && c > 0
    requires Based(pm, pool.tables, src) && AllClassesOk(pm.ops[..], pm.live, pm.rank) && |pm.free| >= Size(t) + 3
    modifies pm, pm.next, pm.prev, pm.ops
    ensures rc == 0 <==>
      && AllBinary(t) && Room(src, old(pm.ops[..]), old(pm.live), t)
      && TopRoom(src, old(pm.ops[..]), old(pm.live), t, if output then 2 else 1)
      && numQueries < MAX_QUERIES && (output ==> outputId < MAX_OUTPUT)
    ensures rc == 0 ==> Based(pm, pool.tables, src) && InPlan(pool.tables, src, pm.ops[..], pm.live, pm.rank, query, out, queryId, outputId, output, t)
    ensures rc == 0 ==> AllClassesOk(pm.ops[..], pm.live, pm.rank)
    ensures rc == 0 ==> Spread(old(pm.ops[..]), old(pm.live), mid, pm.ops[..], pm.live, pm.rank, out, c)
  {
    hide IsList, P.EdgesAgree, P.AllTyped, Ordered, SourcesOk, BaseFits, Partition, Lists;
    ghost var g0, live0, rank0 := pm.ops[..], pm.live, pm.rank;
    rc, query, out := GrowQuery(pm, pool, src, plan, queryId, outputId, numQueries, output, t);
    mid := pm.ops[..];
    if rc != 0 {
      return;
    }
    OntoClasses(pm, g0, live0, rank0);
    if out != Null {
      SpreadClass(pm, pool.tables, src, out.id, query, c, t);
    }
  }

  /** The operators of a query, without a class yet. */
  method GrowQuery(pm: PlanManager, pool: Pool, src: seq<Source>, plan: nat, queryId: nat, outputId: nat, numQueries: nat,
                   output: bool, ghost t: L.Plan) returns (rc: int, query: nat, out: Ptr)
    requires Translatable(pool, src, t) && t.id == plan
    requires Based(pm, pool.tables, src) && |pm.free| >= Size(t) + 3
    modifies pm, pm.next, pm.prev, pm.ops
    ensures rc == 0 <==>
      && AllBinary(t) && Room(src, old(pm.ops[..]), old(pm.live), t)
      && TopRoom(src, old(pm.ops[..]), old(pm.live), t, if output then 2 else 1)
      && numQueries < MAX_QUERIES && (output ==> outputId < MAX_OUTPUT)
    ensures rc == 0 ==> Based(pm, pool.tables, src) && InPlan(pool.tables, src, pm.ops[..], pm.live, pm.rank, query, out, queryId, outputId, output, t)
    ensures rc == 0 ==> Onto(pm, old(pm.ops[..]), old(pm.live))
  {
    out, query := Null, 0;
    ghost var g0, live0 := pm.ops[..], pm.live;
    var op;
    rc, op := GenPhysicalPlan(pool, plan, pm, src, t);
    if rc != 0 {
      return;
    }
    TopFits(src, g0, live0, pm.ops[..], op, t, if output then 2 else 1);
    rc, query, out := FinishQuery(pm, pool.tables, src, op, queryId, outputId, numQueries, output, t, g0, live0);
  }

  lemma SpreadExtends(g0: P.Graph, live0: set<nat>, mid: P.Graph, g: P.Graph, live: set<nat>, rank: seq<nat>, out: Ptr, c: int)
    requires Spread(g0, live0, mid, g, live, rank, out, c) && P.Wf(g, live, rank)
    ensures Extends(g0, live0, g, live)
  {
  }

  /** The operators on top of a query's plan: its result, and its output if there is one. */
  method FinishQuery(pm: PlanManager, ghost tb: L.Tables, ghost src: seq<Source>, top: nat, queryId: nat, outputId: nat, numQueries: nat,
                     output: bool, ghost t: L.Plan, ghost g0: P.Graph, ghost live0: set<nat>) returns (rc: int, query: nat, out: Ptr)
    requires Based(pm, tb, src) && |pm.free| >= 3 && (forall i :: i in live0 ==> i < |g0|) && Onto(pm, g0, live0)
    requires Compiled(tb, src, pm.ops[..], pm.live, pm.rank, top, t)
    modifies pm, pm.next, pm.prev, pm.ops
    ensures rc == 0 <==>
      && |old(pm.ops[..])[top].outputs| + (if output then 2 else 1) <= MAX_OUT_BRANCHING
      && numQueries < MAX_QUERIES && (output ==> outputId < MAX_OUTPUT)
    ensures rc == 0 ==> Based(pm, tb, src) && InPlan(tb, src, pm.ops[..], pm.live, pm.rank, query, out, queryId, outputId, output, t) && Onto(pm, g0, live0)
  {
    hide IsList, P.EdgesAgree, P.AllTyped, Ordered;
    out := Null;
    rc, query := PassOn(pm, tb, src, P.QuerySource, top, t, g0, live0);
    if rc != 0 {
      return;
    }
    if numQueries >= MAX_QUERIES {
      return -1, query, out;
    }
    if output {
      if outputId >= MAX_OUTPUT {
        return -1, query, out;
      }
      ghost var g1, live1, rank1 := pm.ops[..], pm.live, pm.rank;
      var o;
      rc, o := PassOn(pm, tb, src, P.Output(outputId, queryId), top, t, g0, live0);
      if rc != 0 {
        return;
      }
      CompiledExtends(tb, src, g1, live1, rank1, pm.ops[..], pm.live, pm.rank, query, t);
      out := At(o);
    }
  }

  /** An operator that passes on what the one below produces. */
  method PassOn(pm: PlanManager, ghost tb: L.Tables, ghost src: seq<Source>, p: P.Payload, child: nat, ghost t: L.Plan,
                ghost g0: P.Graph, ghost live0: set<nat>) returns (rc: int, op: nat)
    requires p.QuerySource? || p.Output?
    requires Based(pm, tb, src) && |pm.free| >= 2 && (forall i :: i in live0 ==> i < |g0|) && Onto(pm, g0, live0)
    requires Compiled(tb, src, pm.ops[..], pm.live, pm.rank, child, t)
    modifies pm, pm.next, pm.prev, pm.ops
    ensures rc == 0 ==> Based(pm, tb, src) && Onto(pm, g0, live0) && |pm.free| == |old(pm.free)| - 1
    ensures rc == 0 ==> Extends(old(pm.ops[..]), old(pm.live), pm.ops[..], pm.live)
    ensures rc == 0 ==> Compiled(tb, src, pm.ops[..], pm.live, pm.rank, op, t) && pm.ops[op].payload == p
    ensures rc == 0 ==> Compiled(tb, src, pm.ops[..], pm.live, pm.rank, child, t)
    ensures rc == 0 <==> |old(pm.ops[..])[child].outputs| < MAX_OUT_BRANCHING
    ensures rc == 0 ==> |pm.ops[child].outputs| == |old(pm.ops[..])[child].outputs| + 1
  {
    hide IsList, P.EdgesAgree, P.AllTyped, Ordered;
    ghost var g, used, live, rank, free := pm.ops[..], pm.used, pm.live, pm.rank, pm.free;
    BeforeNow(pm, tb, src, g0, live0);
    PassFits(g, p, child);
    rc, op := MkUnary(pm, p, pm.ops[child].attrs, pm.ops[child].bStream, child);
    if rc == 0 {
      OccOne(child, child);
      PassDone(pm, tb, src, g0, live0, g, used, live, rank, free, op, p, child, t);
    }
  }

  lemma PassFits(g: P.Graph, p: P.Payload, child: nat)
    requires child < |g| && (p.QuerySource? || p.Output?)
    ensures Fits(g, p, g[child].attrs, g[child].bStream, [child])
  {
  }

  lemma PassDone(pm: PlanManager, tb: L.Tables, src: seq<Source>, g0: P.Graph, live0: set<nat>,
                 g: P.Graph, used: seq<nat>, live: set<nat>, rank: seq<nat>, free: seq<nat>, op: nat, p: P.Payload, child: nat, t: L.Plan)
    requires Before(tb, src, g0, live0, g, live, rank, free) && Ordered(g, used) && Lists(used, live) && pm.Valid() && child in live && (p.QuerySource? || p.Output?)
    requires Built(pm, g, used, live, rank, free, op, p, g[child].attrs, g[child].bStream, [child])
    requires Compiled(tb, src, g, live, rank, child, t)
    ensures Based(pm, tb, src) && Onto(pm, g0, live0) && Extends(g, live, pm.ops[..], pm.live)
    ensures Compiled(tb, src, pm.ops[..], pm.live, pm.rank, op, t)
    ensures Compiled(tb, src, pm.ops[..], pm.live, pm.rank, child, t)
  {
    BuiltBased(pm, tb, src, g, used, live, rank, free, op, p, g[child].attrs, g[child].bStream, [child]);
    OntoBuilt(pm, g0, live0, g, used, live, rank, free, op, p, g[child].attrs, g[child].bStream, [child]);
    AddedWf(g, pm.ops[..], live, rank, op, [child]);
    CompiledExtends(tb, src, g, live, rank, pm.ops[..], pm.live, pm.rank, child, t);
    PassCompiled(tb, src, pm.ops[..], pm.live, pm.rank, op, child, t);
  }

  lemma PassCompiled(tb: L.Tables, src: seq<Source>, g: P.Graph, live: set<nat>, rank: seq<nat>, op: nat, child: nat, t: L.Plan)
    requires P.Wf(g, live, rank) && SourcesIn(src, live) && op in live && child in live && g[op].inputs == [child]
    requires g[op].payload.QuerySource? || g[op].payload.Output?
    requires g[op].attrs == g[child].attrs && g[op].bStream == g[child].bStream && Compiled(tb, src, g, live, rank, child, t)
    ensures Compiled(tb, src, g, live, rank, op, t)
  {
    forall env: Env, n: nat | Agrees(env, n, tb, src, g, live, rank)
      ensures P.Meaning(env, n, g, live, rank, op) == L.Meaning(env, n, tb, t)
    {
      PassMeaning(env, n, g, live, rank, op, child);
    }
  }

  /** Spreads a class from an output; nothing else changes. */
  method SpreadClass(pm: PlanManager, ghost tb: L.Tables, ghost src: seq<Source>, out: nat, ghost query: nat, c: int, ghost t: L.Plan)
    requires Based(pm, tb, src) && AllClassesOk(pm.ops[..], pm.live, pm.rank) && c > 0
    requires Compiled(tb, src, pm.ops[..], pm.live, pm.rank, out, t) && Compiled(tb, src, pm.ops[..], pm.live, pm.rank, query, t)
    modifies pm.ops
    ensures forall i :: 0 <= i < pm.ops.Length ==> pm.ops[i].payload == old(pm.ops[i].payload)
    ensures Based(pm, tb, src) && AllClassesOk(pm.ops[..], pm.live, pm.rank)
    ensures Classified(old(pm.ops[..]), pm.ops[..], pm.live, pm.rank, out, c)
    ensures Compiled(tb, src, pm.ops[..], pm.live, pm.rank, out, t) && Compiled(tb, src, pm.ops[..], pm.live, pm.rank, query, t)
  {
    hide Classified, P.EdgesAgree, P.AllTyped, IsList;
    ghost var g := pm.ops[..];
    FreeNotLive(pm);
    AddQueryClasses(pm, out, c, pm.live, pm.rank);
    ClassifiedOk(g, pm.ops[..], pm.live, pm.rank, out, c, Peak(pm.rank));
    ClassesPlan(g, pm.ops[..], pm.live, pm.rank);
    CompiledExtends(tb, src, g, pm.live, pm.rank, pm.ops[..], pm.live, pm.rank, out, t);
    CompiledExtends(tb, src, g, pm.live, pm.rank, pm.ops[..], pm.live, pm.rank, query, t);
  }

  /** The operator for a base table. */
  method NewSource(pm: PlanManager, tb: L.Tables, ghost src: seq<Source>, tableId: nat, p: P.Payload, attrs: seq<P.Column>) returns (rc: int, op: nat)
    requires Based(pm, tb, src) && AllClassesOk(pm.ops[..], pm.live, pm.rank) && |pm.free| != 1 && attrs == TableColumns(tb, tableId)
    requires if tb.isStream(tableId) then p.StreamSource? && p.strId == tableId else p.RelnSource? && p.relId == tableId
    modifies pm, pm.next, pm.prev, pm.ops
    ensures rc == 0 <==> old(pm.free) != []
    ensures rc == 0 ==> Based(pm, tb, src + [Source(tableId, op)]) && AllClassesOk(pm.ops[..], pm.live, pm.rank)
    ensures rc == 0 ==> Extends(old(pm.ops[..]), old(pm.live), pm.ops[..], pm.live) && pm.live == old(pm.live) + {op}
    ensures rc == 0 ==> forall i :: i in old(pm.live) ==> pm.ops[i].queryClass == old(pm.ops[..])[i].queryClass
    ensures rc == 0 ==> pm.ops[op].queryClass == 0 && pm.ops[op].payload == p
  {
    ghost var g, used, live, rank, free := pm.ops[..], pm.used, pm.live, pm.rank, pm.free;
    FreeNotLive(pm);
    SourceFits(g, p, attrs, tb.isStream(tableId));
    rc, op := MkSource(pm, p, attrs, tb.isStream(tableId));
    if rc == 0 {
      SourceBuilt(pm, tb, src, tableId, g, used, live, rank, free, op, p, attrs);
    }
  }

  lemma SourceFits(g: P.Graph, p: P.Payload, attrs: seq<P.Column>, isStream: bool)
    requires if isStream then p.StreamSource? else p.RelnSource?
    ensures Fits(g, p, attrs, isStream, [])
  {
  }

  /** What the new source keeps. */
  lemma SourceBuilt(pm: PlanManager, tb: L.Tables, src: seq<Source>, table: nat, g: P.Graph, used: seq<nat>, live: set<nat>, rank: seq<nat>,
                    free: seq<nat>, op: nat, p: P.Payload, attrs: seq<P.Column>)
    requires P.Wf(g, live, rank) && Built(pm, g, used, live, rank, free, op, p, attrs, tb.isStream(table), []) && pm.Valid()
    requires SourcesIn(src, live) && SourcesOk(tb, src, g, live) && BaseFits(tb, g, live) && AllClassesOk(g, live, rank)
    requires forall i :: i in free ==> i < |g| && g[i].queryClass == 0 && i !in live
    requires Ordered(g, used) && Lists(used, live)
    requires (p.StreamSource? && p.strId == table) || (p.RelnSource? && p.relId == table)
    requires attrs == TableColumns(tb, table)
    ensures Based(pm, tb, src + [Source(table, op)]) && AllClassesOk(pm.ops[..], pm.live, pm.rank)
    ensures Extends(g, live, pm.ops[..], pm.live) && pm.ops[op].queryClass == 0
  {
    hide P.EdgesAgree, P.AllTyped, IsList;
    AddedWf(g, pm.ops[..], live, rank, op, []);
    NotRead(g, live, rank, op);
    AddedOrdered(g, pm.ops[..], live, used, op, []);
    assert free[0] in free;
    assert forall i :: i in free[1..] ==> i in free;
    forall i | i in pm.live
      ensures ClassOk(pm.ops[..], i)
    {
      if i in live {
        assert ClassOk(g, i);
      }
    }
    var more := src + [Source(table, op)];
    forall k | 0 <= k < |more|
      ensures more[k].op in pm.live && SourceKind(pm.ops[more[k].op].payload)
      ensures pm.ops[more[k].op].attrs == TableColumns(tb, more[k].table) && pm.ops[more[k].op].bStream == tb.isStream(more[k].table)
    {
    }
  }

  /** The plan grew from g0 to mid; then, if there is an output, its class was spread. */
  ghost predicate Spread(g0: P.Graph, live0: set<nat>, mid: P.Graph, g: P.Graph, live: set<nat>, rank: seq<nat>, out: Ptr, c: int) {
    && (forall i :: i in live0 ==> i < |g0|) && P.Wf(mid, live, rank) && Extends(g0, live0, mid, live)
    && (forall i :: i in live0 ==> mid[i].queryClass == g0[i].queryClass)
    && (forall i :: i in live && i !in live0 ==> mid[i].queryClass == 0 && NewKind(mid[i].payload))
    && (out.Null? ==> g == mid)
    && (out.At? ==> out.id in live && Classified(mid, g, live, rank, out.id, c))
  }

  /**
   Registering a query keeps every class right: the plan grew by operators without a class, and the
   output's class was spread over what it reads from.
   */
  lemma SpreadRight(s: State, mid: P.Graph, g: P.Graph, live: set<nat>, rank: seq<nat>, out: Ptr, c: int)
    requires ClassesRight(s) && c > 0 && Spread(s.ops, s.live, mid, g, live, rank, out, c) && P.AllTyped(mid, live, rank)
    ensures ClassesRight(State(g, live, rank, if out == Null then s.regs else s.regs + [Registration(out.id, c)]))
  {
    var s1 := State(mid, live, rank, s.regs);
    forall i | i in live && mid[i].payload.SsGen?
      ensures mid[i].inputs == []
    {
      assert P.Typed(mid, live, i);
    }
    assert Grows(s, s1);
    GrowsRight(s, s1);
    if out != Null {
      var s2 := State(g, live, rank, s.regs + [Registration(out.id, c)]);
      assert Registers(s1, s2, out.id, c);
      RegistersRight(s1, s2, out.id, c);
    }
  }
}
