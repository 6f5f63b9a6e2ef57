/** Removing a project whose columns are exactly those of its input. */
module RewriteProject {
  import opened Common
  import opened Bags
  import opened Histories
  import opened Semantics
  import opened LogicalPlan

  predicate OverProject(op: Payload) {
    op.Select? || op.Distinct? || op.Rstream? || op.Dstream? || op.Istream?
  }

  predicate SameNames(s: Schema, r: Schema) {
    |s| == |r| && forall k :: 0 <= k < |s| ==> Same(s[k], r[k])
  }

  ghost predicate Useless(tb: Tables, t: Plan) {
    t.op.Project? && |t.ins| == 1 && SameNames(SchemaOf(tb, t), SchemaOf(tb, t.ins[0]))
  }

  /** The plan without the first project below operators that keep the schema, if it is useless. */
  ghost function ProjectRemoved(tb: Tables, t: Plan): Plan {
    if Useless(tb, t) then t.ins[0]
    else if OverProject(t.op) && |t.ins| == 1 then t.(ins := [ProjectRemoved(tb, t.ins[0])])
    else t
  }

  /** Looking up the name of a column gives the column: columns of the same name hold the same values. */
  ghost predicate NamesTell(env: Env, n: nat, tb: Tables, t: Plan) {
    forall i, x :: 0 <= i < n && x in Meaning(env, n, tb, t)[i] ==> RowTells(SchemaOf(tb, t), x)
  }

  ghost predicate RowTells(s: Schema, x: Tuple) {
    forall k :: 0 <= k < |s| && k < |x| && Same(s[k], s[k]) ==> Lookup(s, x, s[k]) == x[k]
  }

  lemma UniqueTells(env: Env, n: nat, tb: Tables, t: Plan)
    requires Unique(SchemaOf(tb, t))
    ensures NamesTell(env, n, tb, t)
  {
    var s := SchemaOf(tb, t);
    forall k | 0 <= k < |s| && Same(s[k], s[k])
      ensures Find(s, s[k]) == k
    {
      FindUnique(s, s[k], k);
    }
  }

  /** Grouping by the same attribute twice gives two equal columns. */
  ghost predicate GroupsRepeat(env: Env) {
    forall groups, aggrs, m :: RowsRepeat(groups, env.aggr(groups, aggrs, m))
  }

  ghost predicate RowsRepeat(groups: seq<nat>, m: Bag) {
    forall x :: x in m ==> RowRepeats(groups, x)
  }

  ghost predicate RowRepeats(groups: seq<nat>, x: Tuple) {
    forall j, k :: 0 <= j < k < |groups| && k < |x| && groups[j] == groups[k] ==> x[j] == x[k]
  }

  lemma GroupTells(env: Env, n: nat, tb: Tables, t: Plan)
    requires t.op.GroupAggr? && |t.ins| == 1 && Sensible(env) && GroupsRepeat(env)
    requires Unique(AggrSchema(tb, t.op.aggrs)) && forall k :: 0 <= k < |t.op.groups| ==> t.op.groups[k].Named?
    ensures NamesTell(env, n, tb, t)
  {
    var r := SchemaOf(tb, t.ins[0]);
    var v := View(Meaning(env, n, tb, t.ins[0]), IsStream(t.ins[0]));
    SchemaStep(tb, t);
    MeaningStep(env, n, tb, t);
    assert Meaning(env, n, tb, t) == AggrH(env, FindAll(r, t.op.groups), FindAggrs(r, t.op.aggrs), v);
    forall i, x | 0 <= i < n && x in Meaning(env, n, tb, t)[i]
      ensures RowTells(SchemaOf(tb, t), x)
    {
      var m := env.aggr(FindAll(r, t.op.groups), FindAggrs(r, t.op.aggrs), v[i]);
      assert x in m && BagWidth(m, |t.op.groups| + |t.op.aggrs|) && RowsRepeat(FindAll(r, t.op.groups), m);
      GroupRow(SchemaOf(tb, t), r, t.op.groups, AggrSchema(tb, t.op.aggrs), x);
    }
  }

  lemma GroupRow(s: Schema, r: Schema, groups: seq<Attr>, aggrs: Schema, x: Tuple)
    requires s == groups + aggrs && Unique(aggrs) && |x| == |s|
    requires forall j :: 0 <= j < |groups| ==> groups[j].Named?
    requires forall j :: 0 <= j < |aggrs| ==> !aggrs[j].Named?
    requires RowRepeats(FindAll(r, groups), x)
    ensures RowTells(s, x)
  {
    forall k | 0 <= k < |s| && Same(s[k], s[k])
      ensures Lookup(s, x, s[k]) == x[k]
    {
      GroupColumn(s, groups, aggrs, k);
    }
  }

  /** The first column with the name of column k is k itself or an equal grouping attribute. */
  lemma GroupColumn(s: Schema, groups: seq<Attr>, aggrs: Schema, k: nat)
    requires s == groups + aggrs && k < |s| && Same(s[k], s[k]) && Unique(aggrs)
    requires forall j :: 0 <= j < |groups| ==> groups[j].Named?
    requires forall j :: 0 <= j < |aggrs| ==> !aggrs[j].Named?
    ensures Find(s, s[k]) == k || (Find(s, s[k]) < k < |groups| && groups[Find(s, s[k])] == groups[k])
  {
    var j := Find(s, s[k]);
    if |groups| <= j < k {
      assert false;
    }
  }

  lemma SameNamesRefer(tb: Tables, projs: seq<LExpr>, s: Schema)
    requires SameNames(ProjectSchema(tb, projs), s)
    ensures forall k :: 0 <= k < |s| ==> projs[k] == AttrRef(s[k]) && Same(s[k], s[k])
  {
    forall k | 0 <= k < |s|
      ensures projs[k] == AttrRef(s[k]) && Same(s[k], s[k])
    {
      assert Same(ProjectSchema(tb, projs)[k], s[k]);
    }
  }

  lemma SameNamesCompute(env: Env, tb: Tables, projs: seq<LExpr>, s: Schema, m: Bag)
    requires SameNames(ProjectSchema(tb, projs), s) && BagWidth(m, |s|) && forall x :: x in m ==> RowTells(s, x)
    ensures Map(m, Computes(env, projs, s)) == m
  {
    SameNamesRefer(tb, projs, s);
    forall x | x in m
      ensures Each(Computes(env, projs, s))(x) == multiset{x}
    {
      assert ValuesIn(env, projs, s, x) == x;
    }
    BindId(m, Each(Computes(env, projs, s)));
  }

  lemma UselessAlike(env: Env, n: nat, tb: Tables, t: Plan)
    requires Useless(tb, t) && Sound(tb, t) && Matches(env, tb) && NamesTell(env, n, tb, t.ins[0])
    ensures Alike(env, n, tb, t, t.ins[0])
  {
    var s, h := SchemaOf(tb, t.ins[0]), Meaning(env, n, tb, t.ins[0]);
    SchemaStep(tb, t);
    MeaningStep(env, n, tb, t);
    MeaningWidth(env, n, tb, t.ins[0]);
    SameNamesRefer(tb, t.op.projs, s);
    assert SchemaOf(tb, t) == s;
    forall i | 0 <= i < n
      ensures Map(h[i], Computes(env, t.op.projs, s)) == h[i]
    {
      SameNamesCompute(env, tb, t.op.projs, s, h[i]);
    }
  }

  /** Names tell the columns at the input of the project that would be removed. */
  ghost predicate Telling(env: Env, n: nat, tb: Tables, t: Plan) {
    if Useless(tb, t) then NamesTell(env, n, tb, t.ins[0])
    else OverProject(t.op) && |t.ins| == 1 ==> Telling(env, n, tb, t.ins[0])
  }

  /** Removing a useless project keeps the plan alike. */
  lemma {:induction false} ProjectRemovedAlike(env: Env, n: nat, tb: Tables, t: Plan)
    requires Sound(tb, t) && Matches(env, tb) && Telling(env, n, tb, t)
    ensures Alike(env, n, tb, t, ProjectRemoved(tb, t)) && Sound(tb, ProjectRemoved(tb, t))
  {
    if Useless(tb, t) {
      UselessAlike(env, n, tb, t);
    } else if OverProject(t.op) && |t.ins| == 1 {
      ProjectRemovedAlike(env, n, tb, t.ins[0]);
      AlikeInputs(env, n, tb, t, ProjectRemoved(tb, t));
    }
  }
}
