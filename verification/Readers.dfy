/** How many readers the translation of a plan gives to the operators that were there before. */
module Readers {
  import opened Common
  import L = LogicalPlan
  import P = PhysicalPlan
  import opened Stacks
  import opened Compile

  /** The position of the first registration of the table, or the number of registrations. */
  function FirstOf(src: seq<Source>, table: nat): (k: nat)
    ensures k <= |src|
    ensures k < |src| ==> src[k].table == table
    ensures forall j :: 0 <= j < k ==> src[j].table != table
  {
    if src == [] || src[0].table == table then 0 else 1 + FirstOf(src[1..], table)
  }

  function TableOf(op: L.Payload): nat
    requires SourceOp(op)
  {
    if op.StreamSource? then op.strId else op.relId
  }

  /** The plan is a table, and the table is read from operator i. */
  predicate ReadFrom(src: seq<Source>, t: L.Plan, i: nat) {
    SourceOp(t.op) && FirstOf(src, TableOf(t.op)) < |src| && src[FirstOf(src, TableOf(t.op))].op == i
  }

  /** How many of the plans are read from operator i. */
  function Direct(src: seq<Source>, ts: seq<L.Plan>, i: nat): nat {
    if ts == [] then 0
    else Direct(src, ts[..|ts| - 1], i) + if ReadFrom(src, ts[|ts| - 1], i) then 1 else 0
  }

  /** How many inputs in the plan are read from operator i. */
  ghost function Reads(src: seq<Source>, t: L.Plan, i: nat): nat {
    ReadsIn(src, t.ins, i) + Direct(src, t.ins, i)
  }

  ghost function ReadsIn(src: seq<Source>, ts: seq<L.Plan>, i: nat): nat {
    if ts == [] then 0 else ReadsIn(src, ts[..|ts| - 1], i) + Reads(src, ts[|ts| - 1], i)
  }

  lemma {:induction false} ReadsPrefix(src: seq<Source>, ts: seq<L.Plan>, k: nat, i: nat)
    requires k < |ts|
    ensures ReadsIn(src, ts[..k + 1], i) == ReadsIn(src, ts[..k], i) + Reads(src, ts[k], i)
    ensures ReadsIn(src, ts[..k + 1], i) <= ReadsIn(src, ts, i)
  {
    assert ts[..k + 1][..k] == ts[..k];
    if k + 1 < |ts| {
      ReadsPrefix(src, ts[..|ts| - 1], k, i);
      assert ts[..|ts| - 1][..k + 1] == ts[..k + 1] && ts[..|ts| - 1][..k] == ts[..k];
    } else {
      assert ts[..k + 1] == ts;
    }
  }

  predicate IsSource(src: seq<Source>, i: nat) {
    exists k :: 0 <= k < |src| && src[k].op == i
  }

  /** Only sources get readers. */
  lemma {:induction false} ReadsNone(src: seq<Source>, t: L.Plan, i: nat)
    requires !IsSource(src, i)
    ensures Reads(src, t, i) == 0
    decreases t, 0
  {
    ReadsNoneIn(src, t.ins, i);
  }

  lemma {:induction false} ReadsNoneIn(src: seq<Source>, ts: seq<L.Plan>, i: nat)
    requires !IsSource(src, i)
    ensures ReadsIn(src, ts, i) == 0 && Direct(src, ts, i) == 0
    decreases ts, 1
  {
    if ts != [] {
      ReadsNoneIn(src, ts[..|ts| - 1], i);
      ReadsNone(src, ts[|ts| - 1], i);
    }
  }

  // ---------------------------------------------------------------- what a translation leaves

  /** The operators of the first plan have gained the readers the plan gives them. */
  ghost predicate Gained(src: seq<Source>, g0: P.Graph, live0: set<nat>, g: P.Graph, t: L.Plan)
    requires (forall i :: i in live0 ==> i < |g0|) && |g| == |g0|
  {
    forall i :: i in live0 ==> |g[i].outputs| == |g0[i].outputs| + Reads(src, t, i)
  }

  ghost predicate GainedIn(src: seq<Source>, g0: P.Graph, live0: set<nat>, g: P.Graph, ts: seq<L.Plan>)
    requires (forall i :: i in live0 ==> i < |g0|) && |g| == |g0|
  {
    forall i :: i in live0 ==> |g[i].outputs| == |g0[i].outputs| + ReadsIn(src, ts, i)
  }

  /** No operator gets more readers than its record has room for. */
  ghost predicate Room(src: seq<Source>, g0: P.Graph, live0: set<nat>, t: L.Plan)
    requires forall i :: i in live0 ==> i < |g0|
  {
    forall i :: i in live0 ==> |g0[i].outputs| + Reads(src, t, i) <= MAX_OUT_BRANCHING
  }

  ghost predicate RoomIn(src: seq<Source>, g0: P.Graph, live0: set<nat>, ts: seq<L.Plan>)
    requires forall i :: i in live0 ==> i < |g0|
  {
    forall i :: i in live0 ==> |g0[i].outputs| + ReadsIn(src, ts, i) <= MAX_OUT_BRANCHING
  }

  /** A source the plan itself is read from has room for n more readers. */
  ghost predicate TopRoom(src: seq<Source>, g0: P.Graph, live0: set<nat>, t: L.Plan, n: nat)
    requires forall i :: i in live0 ==> i < |g0|
  {
    forall i :: i in live0 && ReadFrom(src, t, i) ==> |g0[i].outputs| + Reads(src, t, i) + n <= MAX_OUT_BRANCHING
  }

  /** So the result of the plan has. */
  lemma TopFits(src: seq<Source>, g0: P.Graph, live0: set<nat>, g: P.Graph, op: nat, t: L.Plan, n: nat)
    requires (forall i :: i in live0 ==> i < |g0|) && |g| == |g0| && op < |g| && n <= MAX_OUT_BRANCHING
    requires Gained(src, g0, live0, g, t) && Placed(src, live0, g, op, t)
    ensures TopRoom(src, g0, live0, t, n) <==> |g[op].outputs| + n <= MAX_OUT_BRANCHING
  {
  }

  /** Where the result of a plan is: at the source it is read from, or at an operator nobody reads yet. */
  ghost predicate Placed(src: seq<Source>, live0: set<nat>, g: P.Graph, op: nat, t: L.Plan) {
    if SourceOp(t.op) then ReadFrom(src, t, op) && op in live0 else op !in live0 && op < |g| && g[op].outputs == []
  }

  /** The operators for the first inputs are in place. */
  ghost predicate KidsPlaced(src: seq<Source>, g0: P.Graph, live0: set<nat>, g: P.Graph, ts: seq<L.Plan>, kids: seq<nat>)
    requires (forall i :: i in live0 ==> i < |g0|) && |g| == |g0|
  {
    && |kids| <= |ts| && GainedIn(src, g0, live0, g, ts[..|kids|])
    && forall k :: 0 <= k < |kids| ==> Placed(src, live0, g, kids[k], ts[k])
  }

  lemma KidsPlacedNone(src: seq<Source>, g0: P.Graph, live0: set<nat>, ts: seq<L.Plan>)
    requires forall i :: i in live0 ==> i < |g0|
    ensures KidsPlaced(src, g0, live0, g0, ts, [])
  {
    assert ts[..0] == [];
  }

  /** One more input. */
  lemma KidsPlacedMore(src: seq<Source>, g0: P.Graph, live0: set<nat>, g1: P.Graph, live1: set<nat>, g2: P.Graph,
                       ts: seq<L.Plan>, kids: seq<nat>, op: nat)
    requires (forall i :: i in live0 ==> i < |g0|) && (forall i :: i in live1 ==> i < |g1|) && |g2| == |g1| == |g0|
    requires live0 <= live1 && SourcesIn(src, live0) && |kids| < |ts| && forall k :: 0 <= k < |kids| ==> kids[k] in live1
    requires KidsPlaced(src, g0, live0, g1, ts, kids)
    requires Gained(src, g1, live1, g2, ts[|kids|]) && Placed(src, live1, g2, op, ts[|kids|])
    ensures KidsPlaced(src, g0, live0, g2, ts, kids + [op])
  {
    var more, k := kids + [op], |kids|;
    forall i | i in live0
      ensures |g2[i].outputs| == |g0[i].outputs| + ReadsIn(src, ts[..k + 1], i)
    {
      ReadsPrefix(src, ts, k, i);
    }
    forall j | 0 <= j < |more|
      ensures Placed(src, live0, g2, more[j], ts[j])
    {
      if j < k && !SourceOp(ts[j].op) {
        ReadsNone(src, ts[k], kids[j]);
      }
    }
  }

  /** An input that does not fit shows that the plan does not fit. */
  lemma KidNoRoom(src: seq<Source>, g0: P.Graph, live0: set<nat>, g1: P.Graph, live1: set<nat>, ts: seq<L.Plan>, kids: seq<nat>)
    requires (forall i :: i in live0 ==> i < |g0|) && (forall i :: i in live1 ==> i < |g1|) && |g1| == |g0|
    requires SourcesIn(src, live0) && |kids| < |ts| && P.FanOutFits(g1, live1)
    requires KidsPlaced(src, g0, live0, g1, ts, kids) && !Room(src, g1, live1, ts[|kids|])
    ensures !RoomIn(src, g0, live0, ts)
  {
    var k := |kids|;
    var i :| i in live1 && |g1[i].outputs| + Reads(src, ts[k], i) > MAX_OUT_BRANCHING;
    if IsSource(src, i) {
      ReadsPrefix(src, ts, k, i);
    } else {
      ReadsNone(src, ts[k], i);
    }
  }

  // ---------------------------------------------------------------- the root

  /** The links from the root to its inputs are the readers the sources among them get. */
  lemma {:induction false} KidsDirect(src: seq<Source>, live0: set<nat>, g: P.Graph, ts: seq<L.Plan>, kids: seq<nat>, i: nat)
    requires |kids| == |ts| && i in live0 && forall k :: 0 <= k < |kids| ==> Placed(src, live0, g, kids[k], ts[k])
    ensures Occ(kids, i) == Direct(src, ts, i)
  {
    if kids != [] {
      KidsDirect(src, live0, g, ts[..|ts| - 1], kids[..|kids| - 1], i);
    }
  }

  /** What the root adds to what its inputs have added. */
  lemma RootGained(src: seq<Source>, g0: P.Graph, live0: set<nat>, g: P.Graph, g2: P.Graph, t: L.Plan, kids: seq<nat>)
    requires (forall i :: i in live0 ==> i < |g0|) && |g2| == |g| == |g0|
    requires KidsPlaced(src, g0, live0, g, t.ins, kids) && |kids| == |t.ins|
    requires forall i :: i in live0 ==> |g2[i].outputs| == |g[i].outputs| + Occ(kids, i)
    ensures Gained(src, g0, live0, g2, t)
  {
    assert t.ins[..|kids|] == t.ins;
    forall i | i in live0
      ensures |g2[i].outputs| == |g0[i].outputs| + Reads(src, t, i)
    {
      KidsDirect(src, live0, g, t.ins, kids, i);
    }
  }

  /** What fits leaves room for the links of the root. */
  lemma RootRoom(src: seq<Source>, g0: P.Graph, live0: set<nat>, g: P.Graph, t: L.Plan, kids: seq<nat>, k: nat)
    requires (forall i :: i in live0 ==> i < |g0|) && |g| == |g0| && |t.ins| <= 2
    requires KidsPlaced(src, g0, live0, g, t.ins, kids) && |kids| == |t.ins| && k < |kids| && kids[k] < |g|
    requires Room(src, g0, live0, t)
    ensures |g[kids[k]].outputs| + Occ(kids, kids[k]) <= MAX_OUT_BRANCHING
  {
    assert t.ins[..|kids|] == t.ins;
    if kids[k] in live0 {
      KidsDirect(src, live0, g, t.ins, kids, kids[k]);
    } else {
      assert Placed(src, live0, g, kids[k], t.ins[k]);
      OccAtMost(kids, kids[k]);
    }
  }

  lemma {:induction false} OccAtMost(s: seq<nat>, x: nat)
    ensures Occ(s, x) <= |s|
  {
    if s != [] {
      OccAtMost(s[..|s| - 1], x);
    }
  }

  /** After success there was room. */
  lemma GainedRoom(src: seq<Source>, g0: P.Graph, live0: set<nat>, g: P.Graph, live: set<nat>, t: L.Plan)
    requires (forall i :: i in live0 ==> i < |g0|) && (forall i :: i in live ==> i < |g|) && |g| == |g0|
    requires Gained(src, g0, live0, g, t) && live0 <= live && P.FanOutFits(g, live)
    ensures Room(src, g0, live0, t)
  {
  }

  /** A plan that fits has inputs that fit. */
  lemma RoomInputs(src: seq<Source>, g0: P.Graph, live0: set<nat>, t: L.Plan)
    requires (forall i :: i in live0 ==> i < |g0|) && Room(src, g0, live0, t)
    ensures RoomIn(src, g0, live0, t.ins)
  {
  }
}
