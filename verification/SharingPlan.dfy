/** The facts about plans that finding shared operators rests on. */
module SharingPlan {
  import opened Common
  import opened PhysicalPlan
  import opened Rewire
  import opened Surgery
  import opened Manager

  /** All inputs of an operator are at one distance from the sources; rank is that distance. */
  ghost predicate Levelled(g: Graph, live: set<nat>, rank: seq<nat>)
    requires Wf(g, live, rank)
  {
    && (forall i :: i in live && g[i].inputs == [] ==> rank[i] == 0)
    && (forall i, k :: i in live && 0 <= k < |g[i].inputs| ==> rank[i] == rank[g[i].inputs[k]] + 1)
  }

  /** Longest distance to a leaf. */
  ghost function Height(t: Term): nat {
    Tallest(t.ins)
  }

  ghost function Tallest(ts: seq<Term>): nat {
    if ts == [] then 0
    else
      var h := 1 + Height(ts[|ts| - 1]);
      var r := Tallest(ts[..|ts| - 1]);
      if h > r then h else r
  }

  lemma {:induction false} TallestBounds(ts: seq<Term>, k: nat)
    requires k < |ts|
    ensures Height(ts[k]) < Tallest(ts)
  {
    if k < |ts| - 1 {
      TallestBounds(ts[..|ts| - 1], k);
    }
  }

  /** Operators that compare equal have the same height, and inputs are lower than their reader. */
  lemma HeightFalls(g: Graph, live: set<nat>, rank: seq<nat>, i: nat, k: nat)
    requires Wf(g, live, rank) && i in live && k < |g[i].inputs|
    ensures Height(Unfold(g, live, rank, g[i].inputs[k])) < Height(Unfold(g, live, rank, i))
  {
    var t := Unfold(g, live, rank, i);
    TallestBounds(t.ins, k);
  }

  /** The operator reads, directly or not, from a base table. */
  ghost predicate FromBase(t: Term) {
    t.payload.StreamSource? || t.payload.RelnSource? || exists k :: 0 <= k < |t.ins| && FromBase(t.ins[k])
  }

  /** No two operators that read from base tables unfold to one tree. */
  ghost predicate Different(g: Graph, live: set<nat>, rank: seq<nat>)
    requires Wf(g, live, rank)
  {
    forall i, j {:trigger Unfold(g, live, rank, i), Unfold(g, live, rank, j)} ::
      i in live && j in live && i != j && FromBase(Unfold(g, live, rank, i)) ==> Unfold(g, live, rank, i) != Unfold(g, live, rank, j)
  }

  lemma {:induction false} EqualRank(g: Graph, live: set<nat>, rank: seq<nat>, i: nat, j: nat)
    requires Wf(g, live, rank) && Levelled(g, live, rank) && i in live && j in live
    requires Unfold(g, live, rank, i) == Unfold(g, live, rank, j)
    ensures rank[i] == rank[j]
    decreases rank[i]
  {
    var t, u := Unfold(g, live, rank, i), Unfold(g, live, rank, j);
    assert |t.ins| == |g[i].inputs| && |u.ins| == |g[j].inputs|;
    if g[i].inputs != [] {
      assert t.ins[0] == Unfold(g, live, rank, g[i].inputs[0]);
      assert u.ins[0] == Unfold(g, live, rank, g[j].inputs[0]);
      EqualRank(g, live, rank, g[i].inputs[0], g[j].inputs[0]);
    }
  }

  /** What every operator in use unfolds to, recorded before sharing starts. */
  type Terms = map<nat, Term>

  ghost predicate Faithful(term: Terms, g: Graph, live: set<nat>, rank: seq<nat>)
    requires Wf(g, live, rank)
  {
    && (forall i :: i in live ==> i in term)
    && (forall i {:trigger Unfold(g, live, rank, i)} :: i in live ==> Unfold(g, live, rank, i) == term[i])
  }

  /** Every operator there was is still there, or an equal one is. */
  ghost predicate Represented(term: Terms, live: set<nat>) {
    forall i :: i in term ==> HasEqual(term, live, term[i])
  }

  ghost predicate HasEqual(term: Terms, live: set<nat>, t: Term) {
    exists j :: j in live && j in term && term[j] == t
  }

  // ---------------------------------------------------------------- how many readers a merge can bring

  ghost function Share(term: Terms, g: Graph, i: nat, t: Term): nat {
    if i < |g| && i in term && term[i] == t then |g[i].outputs| else 0
  }

  /** The readers of all operators listed in s that unfold to t. */
  ghost function Load(term: Terms, g: Graph, s: seq<nat>, t: Term): nat {
    if s == [] then 0 else Load(term, g, s[..|s| - 1], t) + Share(term, g, s[|s| - 1], t)
  }

  lemma {:induction false} LoadConcat(term: Terms, g: Graph, r: seq<nat>, s: seq<nat>, t: Term)
    ensures Load(term, g, r + s, t) == Load(term, g, r, t) + Load(term, g, s, t)
  {
    if s == [] {
      assert r + s == r;
    } else {
      LoadConcat(term, g, r, s[..|s| - 1], t);
      assert (r + s)[..|r + s| - 1] == r + s[..|s| - 1];
    }
  }

  lemma LoadWithout(term: Terms, g: Graph, s: seq<nat>, k: nat, t: Term)
    requires k < |s|
    ensures Load(term, g, s, t) == Load(term, g, Without(s, k), t) + Share(term, g, s[k], t)
  {
    assert s == s[..k] + [s[k]] + s[k + 1..];
    LoadConcat(term, g, s[..k] + [s[k]], s[k + 1..], t);
    LoadConcat(term, g, s[..k], [s[k]], t);
    LoadConcat(term, g, s[..k], s[k + 1..], t);
    assert [s[k]][..0] == [];
  }

  lemma {:induction false} LoadFalls(term: Terms, g: Graph, g2: Graph, s: seq<nat>, t: Term)
    requires forall i :: i in s ==> Share(term, g2, i, t) <= Share(term, g, i, t)
    ensures Load(term, g2, s, t) <= Load(term, g, s, t)
  {
    if s != [] {
      LoadFalls(term, g, g2, s[..|s| - 1], t);
    }
  }

  /** Two operators with the same tree have together at most the readers of their group. */
  lemma LoadPair(term: Terms, g: Graph, s: seq<nat>, k: nat, m: nat)
    requires NoDup(s) && k < |s| && m < |s| && k != m
    requires s[k] in term && s[m] in term && term[s[k]] == term[s[m]] && s[k] < |g| && s[m] < |g|
    ensures |g[s[k]].outputs| + |g[s[m]].outputs| <= Load(term, g, s, term[s[k]])
  {
    var m2 := if m < k then m else m - 1;
    assert Without(s, k)[m2] == s[m];
    LoadWithout(term, g, s, k, term[s[k]]);
    LoadWithout(term, g, Without(s, k), m2, term[s[k]]);
  }

  lemma LoadMerged(term: Terms, g: Graph, g2: Graph, s: seq<nat>, k: nat, m: nat, t: Term)
    requires NoDup(s) && k < |s| && m < |s| && k != m
    requires s[k] in term && s[m] in term && term[s[k]] == term[s[m]] && s[k] < |g| && s[m] < |g| == |g2|
    requires |g2[s[m]].outputs| == |g[s[m]].outputs| + |g[s[k]].outputs|
    requires forall i :: i in s && i != s[k] && i != s[m] ==> Share(term, g2, i, t) <= Share(term, g, i, t)
    ensures Load(term, g2, Without(s, k), t) <= Load(term, g, s, t)
  {
    var r := Without(s, k);
    var m2 := if m < k then m else m - 1;
    assert r[m2] == s[m];
    LoadWithout(term, g, s, k, t);
    LoadWithout(term, g, r, m2, t);
    LoadWithout(term, g2, r, m2, t);
    WithoutIn(s, k);
    WithoutIn(r, m2);
    LoadFalls(term, g, g2, Without(r, m2), t);
  }

  // ---------------------------------------------------------------- one merge

  lemma MergeKeepsPlan(g: Graph, g2: Graph, live: set<nat>, rank: seq<nat>, b: nat, a: nat)
    requires IsPlan(g, live, rank) && a in live && b in live && a != b && rank[a] == rank[b]
    requires Merged(g, g2, live, b, a)
    requires Unfold(g, live, rank, a) == Unfold(g, live, rank, b)
    requires |g[b].outputs| + |g[a].outputs| <= MAX_OUT_BRANCHING
    ensures IsPlan(g2, live - {a}, rank)
  {
    SpliceWf(g, g2, live, rank, a, b);
    SpliceEdges(g, g2, live, rank, a, b);
    assert Typed(g2, live - {a}, b) by {
      StillTyped(g, g2, live, rank, a, b);
    }
    SpliceTyped(g, g2, live, rank, a, b);
  }

  /** The operator that takes over keeps its inputs, so it stays typed. */
  lemma StillTyped(g: Graph, g2: Graph, live: set<nat>, rank: seq<nat>, a: nat, b: nat)
    requires Wf(g, live, rank) && AllTyped(g, live, rank) && a in live && b in live && a != b
    requires rank[b] <= rank[a] && Spliced(g, g2, live, a, b) && Wf(g2, live - {a}, rank)
    requires forall i :: 0 <= i < |g| ==> SameOp(g[i], g2[i])
    ensures Typed(g2, live - {a}, b)
  {
    assert Typed(g, live, b);
    assert a !in g[b].inputs;
    assert g2[b].inputs == g[b].inputs;
    assert InputFlags(g2, g2[b].inputs) == InputFlags(g, g[b].inputs);
    assert InputSchemas(g2, g2[b].inputs) == InputSchemas(g, g[b].inputs);
  }

  lemma MergeKeepsTerms(term: Terms, g: Graph, g2: Graph, live: set<nat>, rank: seq<nat>, b: nat, a: nat)
    requires Wf(g, live, rank) && a in live && b in live && a != b && rank[a] == rank[b]
    requires Faithful(term, g, live, rank) && term[a] == term[b]
    requires Merged(g, g2, live, b, a) && Wf(g2, live - {a}, rank)
    ensures Faithful(term, g2, live - {a}, rank)
  {
    forall i | i in live - {a}
      ensures Unfold(g2, live - {a}, rank, i) == term[i]
    {
      SpliceUnfold(g, g2, live, rank, a, b, i);
    }
  }

  lemma MergeKeepsLevels(g: Graph, g2: Graph, live: set<nat>, rank: seq<nat>, b: nat, a: nat)
    requires Wf(g, live, rank) && a in live && b in live && a != b && rank[a] == rank[b]
    requires Levelled(g, live, rank)
    requires Merged(g, g2, live, b, a) && Wf(g2, live - {a}, rank)
    ensures Levelled(g2, live - {a}, rank)
  {
    forall i, k | i in live - {a} && 0 <= k < |g2[i].inputs|
      ensures rank[i] == rank[g2[i].inputs[k]] + 1
    {
      assert rank[i] == rank[g[i].inputs[k]] + 1;
    }
  }

  lemma MergeKeepsRepresented(term: Terms, live: set<nat>, b: nat, a: nat)
    requires Represented(term, live) && a != b && b in live && a in term && b in term && term[a] == term[b]
    ensures Represented(term, live - {a})
  {
    forall i | i in term
      ensures HasEqual(term, live - {a}, term[i])
    {
      assert HasEqual(term, live, term[i]);
      var j :| j in live && j in term && term[j] == term[i];
      assert (if j == a then b else j) in live - {a};
    }
  }

  /** The readers of a whole level are the next level, as far as it reads from base tables. */
  lemma NextLevel(term: Terms, g: Graph, live: set<nat>, rank: seq<nat>, level: nat, r: nat)
    requires IsPlan(g, live, rank) && Levelled(g, live, rank) && Faithful(term, g, live, rank)
    requires r in live && rank[r] == level + 1 && FromBase(term[r])
    ensures exists p :: p in live && rank[p] == level && FromBase(term[p]) && r in g[p].outputs
  {
    var t := Unfold(g, live, rank, r);
    assert Typed(g, live, r);
    assert g[r].inputs != [];
    var k :| 0 <= k < |t.ins| && FromBase(t.ins[k]);
    var p := g[r].inputs[k];
    assert p in g[r].inputs;
    InputReads(g, live, rank, r, p);
    assert t.ins[k] == Unfold(g, live, rank, p);
  }

  lemma ReaderOfBase(term: Terms, g: Graph, live: set<nat>, rank: seq<nat>, p: nat, r: nat)
    requires IsPlan(g, live, rank) && Levelled(g, live, rank) && Faithful(term, g, live, rank)
    requires p in live && FromBase(term[p]) && r in g[p].outputs
    ensures r in live && rank[r] == rank[p] + 1 && FromBase(term[r])
  {
    ReaderAbove(g, live, rank, p, r);
    var k :| 0 <= k < |g[r].inputs| && g[r].inputs[k] == p;
    var t := Unfold(g, live, rank, r);
    assert t.ins[k] == Unfold(g, live, rank, p);
  }
}
