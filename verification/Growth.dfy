/**
 Streams never retract: an operator that hands on the stream flag of its inputs reports exactly what is
 new in a state that only grows, and that state is what the operator computes from relations.
 */
module Growth {
  import opened Common
  import opened Bags
  import opened Histories
  import opened Semantics
  import opened PhysicalPlan

  /** Operators that produce a stream if all their inputs are streams. */
  predicate Inherits(p: Payload) {
    || p.Select? || p.Project? || p.Distinct? || p.QuerySource? || p.Output? || p.Sink?
    || p.Join? || p.JoinProject? || p.Union?
  }

  function NoStreams(k: nat): (r: seq<bool>)
    ensures |r| == k
  {
    seq(k, i => false)
  }

  ghost function ViewsOf(flags: seq<bool>, ins: seq<Hist>): (r: seq<Hist>)
    requires |flags| == |ins|
    ensures |r| == |ins| && forall k :: 0 <= k < |ins| ==> |r[k]| == |ins[k]|
  {
    seq(|ins|, k requires 0 <= k < |ins| => View(ins[k], flags[k]))
  }

  /** What the operator computes from the relations its inputs stand for. */
  ghost function State(env: Env, n: nat, p: Payload, flags: seq<bool>, ins: seq<Hist>): (h: Hist)
    requires |flags| == |ins| && forall k :: 0 <= k < |ins| ==> |ins[k]| == n
    ensures |h| == n
  {
    OpDen(env, n, p, NoStreams(|ins|), ViewsOf(flags, ins))
  }

  // ---------------------------------------------------------------- one operator

  lemma JoinWhole(a: Hist, b: Hist, f: bool, g: bool, j: (Tuple, Tuple) -> Bag)
    requires |a| == |b|
    ensures var state := JoinH(View(a, f), View(b, g), j); View(Report(state, f && g), f && g) == state
  {
    if f && g {
      ViewsJoinGrows(a, b, j);
    }
    ViewReport(JoinH(View(a, f), View(b, g), j), f && g);
  }

  lemma UnionWhole(env: Env, n: nat, a: Hist, b: Hist, f: bool, g: bool)
    requires |a| == |b| == n
    ensures View(OpDen(env, n, Union, [f, g], [a, b]), f && g) == OpDen(env, n, Union, [false, false], [View(a, f), View(b, g)])
  {
    if f && g {
      CumulatePlus(a, b);
    }
  }

  lemma OneWhole(env: Env, n: nat, p: Payload, f: bool, h: Hist)
    requires Inherits(p) && Arity(p) == 1 && |h| == n
    ensures View(OpDen(env, n, p, [f], [h]), f) == OpDen(env, n, p, [false], [View(h, f)])
  {
    match p
    case Select(pred) => ViewBind(h, Keep(Passes(env, pred)), f);
    case Project(projs) => ViewBind(h, Each(Projects(env, projs)), f);
    case Distinct => DistinctWhole(h, f);
    case _ =>
  }

  lemma JoinOpWhole(env: Env, n: nat, outer: nat, inner: nat, pred: seq<PBExpr>, f: bool, g: bool, a: Hist, b: Hist)
    requires |a| == |b| == n
    ensures var p := Join(outer, inner, pred);
      View(OpDen(env, n, p, [f, g], [a, b]), f && g) == OpDen(env, n, p, [false, false], [View(a, f), View(b, g)])
  {
    hide OpDen;
    JoinDen(env, n, outer, inner, pred, [f, g], [a, b]);
    JoinDen(env, n, outer, inner, pred, [false, false], [View(a, f), View(b, g)]);
    JoinWhole(a, b, f, g, Joins(env, pred));
  }

  lemma JoinProjectOpWhole(env: Env, n: nat, projs: seq<PExpr>, pred: seq<PBExpr>, f: bool, g: bool, a: Hist, b: Hist)
    requires |a| == |b| == n
    ensures var p := JoinProject(projs, pred);
      View(OpDen(env, n, p, [f, g], [a, b]), f && g) == OpDen(env, n, p, [false, false], [View(a, f), View(b, g)])
  {
    hide OpDen;
    JoinProjectDen(env, n, projs, pred, [f, g], [a, b]);
    JoinProjectDen(env, n, projs, pred, [false, false], [View(a, f), View(b, g)]);
    JoinWhole(a, b, f, g, JoinProjects(env, projs, pred));
  }

  lemma TwoWhole(env: Env, n: nat, p: Payload, f: bool, g: bool, a: Hist, b: Hist)
    requires Inherits(p) && Arity(p) == 2 && |a| == |b| == n
    ensures View(OpDen(env, n, p, [f, g], [a, b]), f && g) == OpDen(env, n, p, [false, false], [View(a, f), View(b, g)])
  {
    hide OpDen, View;
    match p
    case Join(outer, inner, pred) => JoinOpWhole(env, n, outer, inner, pred, f, g, a, b);
    case JoinProject(projs, pred) => JoinProjectOpWhole(env, n, projs, pred, f, g, a, b);
    case Union => UnionWhole(env, n, a, b, f, g);
    case _ =>
  }

  /** The accumulated output is what the operator computes from the accumulated inputs. */
  lemma OutputWhole(env: Env, n: nat, p: Payload, flags: seq<bool>, ins: seq<Hist>, own: bool)
    requires Inherits(p) && |flags| == |ins| == Arity(p) && StreamRule(p, flags, own)
    requires forall k :: 0 <= k < |ins| ==> |ins[k]| == n
    ensures View(OpDen(env, n, p, flags, ins), own) == State(env, n, p, flags, ins)
  {
    hide OpDen;
    if Arity(p) == 1 {
      OneWhole(env, n, p, flags[0], ins[0]);
      assert flags == [flags[0]] && ins == [ins[0]];
      assert NoStreams(1) == [false] && ViewsOf(flags, ins) == [View(ins[0], flags[0])];
    } else {
      TwoWhole(env, n, p, flags[0], flags[1], ins[0], ins[1]);
      assert flags == [flags[0], flags[1]] && ins == [ins[0], ins[1]];
      assert NoStreams(2) == [false, false] && ViewsOf(flags, ins) == [View(ins[0], flags[0]), View(ins[1], flags[1])];
    }
  }

  // ---------------------------------------------------------------- the whole plan

  /**
   An operator with the stream flag never takes back a tuple: what it reports at an instant is what is
   new in a state that grows, and the state is the operator's own function of its inputs as relations.
   */
  lemma StreamsNeverRetract(env: Env, n: nat, g: Graph, live: set<nat>, rank: seq<nat>, i: nat)
    requires IsPlan(g, live, rank) && i in live && Inherits(g[i].payload) && g[i].bStream
    ensures var state := State(env, n, g[i].payload, InputFlags(g, g[i].inputs), Meanings(env, n, g, live, rank, g[i].inputs));
      && Growing(state)
      && Meaning(env, n, g, live, rank, i) == Delta(state)
      && View(Meaning(env, n, g, live, rank, i), true) == state
  {
    var h := Meaning(env, n, g, live, rank, i);
    assert Typed(g, live, i);
    MeaningStep(env, n, g, live, rank, i);
    OutputWhole(env, n, g[i].payload, InputFlags(g, g[i].inputs), Meanings(env, n, g, live, rank, g[i].inputs), true);
    CumulateGrows(h);
    DeltaCumulate(h);
  }

  /** What a plan computes on relations alone, down to the operators that turn streams into relations or back. */
  ghost function Relational(env: Env, n: nat, g: Graph, live: set<nat>, rank: seq<nat>, i: nat): (h: Hist)
    requires Wf(g, live, rank) && i in live
    ensures |h| == n
    decreases rank[i]
  {
    if Inherits(g[i].payload) then
      OpDen(env, n, g[i].payload, NoStreams(|g[i].inputs|),
            seq(|g[i].inputs|, k requires 0 <= k < |g[i].inputs| => Relational(env, n, g, live, rank, g[i].inputs[k])))
    else View(Meaning(env, n, g, live, rank, i), g[i].bStream)
  }

  ghost function Relationals(env: Env, n: nat, g: Graph, live: set<nat>, rank: seq<nat>, ids: seq<nat>): (r: seq<Hist>)
    requires Wf(g, live, rank) && forall k :: 0 <= k < |ids| ==> ids[k] in live
    ensures |r| == |ids| && forall k :: 0 <= k < |ids| ==> |r[k]| == n
  {
    seq(|ids|, k requires 0 <= k < |ids| => Relational(env, n, g, live, rank, ids[k]))
  }

  lemma RelationalStep(env: Env, n: nat, g: Graph, live: set<nat>, rank: seq<nat>, i: nat)
    requires Wf(g, live, rank) && i in live && Inherits(g[i].payload)
    ensures Relational(env, n, g, live, rank, i)
         == OpDen(env, n, g[i].payload, NoStreams(|g[i].inputs|), Relationals(env, n, g, live, rank, g[i].inputs))
  {
    assert seq(|g[i].inputs|, k requires 0 <= k < |g[i].inputs| => Relational(env, n, g, live, rank, g[i].inputs[k]))
        == Relationals(env, n, g, live, rank, g[i].inputs);
  }

  /** Working on streams tuple by tuple comes to the same as recomputing relations at every instant. */
  lemma {:induction false} StreamsRefineRelations(env: Env, n: nat, g: Graph, live: set<nat>, rank: seq<nat>, i: nat)
    requires IsPlan(g, live, rank) && i in live
    ensures View(Meaning(env, n, g, live, rank, i), g[i].bStream) == Relational(env, n, g, live, rank, i)
    decreases rank[i]
  {
    if Inherits(g[i].payload) {
      var ids := g[i].inputs;
      assert Typed(g, live, i);
      forall k | 0 <= k < |ids|
        ensures View(Meaning(env, n, g, live, rank, ids[k]), g[ids[k]].bStream) == Relational(env, n, g, live, rank, ids[k])
      {
        StreamsRefineRelations(env, n, g, live, rank, ids[k]);
      }
      RefineStep(env, n, g, live, rank, i);
    }
  }

  lemma RefineStep(env: Env, n: nat, g: Graph, live: set<nat>, rank: seq<nat>, i: nat)
    requires Wf(g, live, rank) && i in live && Typed(g, live, i) && Inherits(g[i].payload)
    requires forall k :: 0 <= k < |g[i].inputs| ==>
      View(Meaning(env, n, g, live, rank, g[i].inputs[k]), g[g[i].inputs[k]].bStream) == Relational(env, n, g, live, rank, g[i].inputs[k])
    ensures View(Meaning(env, n, g, live, rank, i), g[i].bStream) == Relational(env, n, g, live, rank, i)
  {
    hide OpDen, View;
    var ids := g[i].inputs;
    MeaningStep(env, n, g, live, rank, i);
    RelationalStep(env, n, g, live, rank, i);
    OutputWhole(env, n, g[i].payload, InputFlags(g, ids), Meanings(env, n, g, live, rank, ids), g[i].bStream);
    assert ViewsOf(InputFlags(g, ids), Meanings(env, n, g, live, rank, ids)) == Relationals(env, n, g, live, rank, ids);
  }
}
