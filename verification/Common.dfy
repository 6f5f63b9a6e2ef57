/** Types shared by the logical and the physical level of the query compiler. */
module Common {

  const MAX_ATTRS: nat := 10
  const MAX_OUT_BRANCHING: nat := 10
  const MAX_INPUT_OPS: nat := 10

  /** A pointer into a pool of operators. */
  datatype Ptr = Null | At(id: nat)

  datatype Type = INT | FLOAT | BYTE | CHAR

  /** A value tagged with its type, as in a constant expression. */
  datatype Value = IntVal(i: int) | FloatVal(f: real) | ByteVal(b: int) | CharVal(s: string)

  datatype ArithOp = ADD | SUB | MUL | DIV

  datatype CompOp = LT | LE | GT | GE | EQ | NE

  datatype AggrFn = COUNT | SUM | AVG | MAX | MIN

  /** Arithmetic expressions over attributes of type A (names or positions). */
  datatype Expr<A> =
    | Const(val: Value)
    | AttrRef(attr: A)
    | Comp(op: ArithOp, left: Expr<A>, right: Expr<A>)

  /** An atomic predicate. */
  datatype BExpr<A> = BExpr(op: CompOp, left: Expr<A>, right: Expr<A>)

  type Tuple = seq<Value>

  /** The value a reference that resolves to nothing evaluates to; keeps evaluation total. */
  const NoValue: Value := IntVal(0)

  // ---------------------------------------------------------------- occurrences in a list

  /** How often x occurs in s. */
  function Occ(s: seq<nat>, x: nat): nat {
    if s == [] then 0 else Occ(s[..|s| - 1], x) + if s[|s| - 1] == x then 1 else 0
  }

  lemma {:induction false} OccIn(s: seq<nat>, x: nat)
    ensures x in s <==> Occ(s, x) > 0
  {
    if s != [] {
      OccIn(s[..|s| - 1], x);
      assert s == s[..|s| - 1] + [s[|s| - 1]];
    }
  }

  lemma {:induction false} OccConcat(s: seq<nat>, t: seq<nat>, x: nat)
    ensures Occ(s + t, x) == Occ(s, x) + Occ(t, x)
  {
    if t == [] {
      assert s + t == s;
    } else {
      OccConcat(s, t[..|t| - 1], x);
      assert (s + t)[..|s + t| - 1] == s + t[..|t| - 1];
    }
  }

  lemma OccOne(y: nat, x: nat)
    ensures Occ([y], x) == if y == x then 1 else 0
  {
    assert [y][..0] == [];
  }

  lemma OccTwo(y: nat, z: nat, x: nat)
    ensures Occ([y, z], x) == (if y == x then 1 else 0) + if z == x then 1 else 0
  {
    assert [y, z] == [y] + [z];
    OccConcat([y], [z], x);
    OccOne(y, x);
    OccOne(z, x);
  }

  lemma OccSplit(s: seq<nat>, k: nat, x: nat)
    requires k < |s|
    ensures Occ(s, x) == Occ(s[..k], x) + (if s[k] == x then 1 else 0) + Occ(s[k + 1..], x)
  {
    assert s == s[..k] + [s[k]] + s[k + 1..];
    OccConcat(s[..k] + [s[k]], s[k + 1..], x);
    OccConcat(s[..k], [s[k]], x);
    OccOne(s[k], x);
  }

  lemma OccUpdate(s: seq<nat>, k: nat, y: nat, x: nat)
    requires k < |s|
    ensures Occ(s[k := y], x) + (if s[k] == x then 1 else 0) == Occ(s, x) + if y == x then 1 else 0
  {
    OccSplit(s, k, x);
    OccSplit(s[k := y], k, x);
    assert s[k := y][..k] == s[..k] && s[k := y][k + 1..] == s[k + 1..];
  }

  /** Dropping the element at k. */
  lemma OccDrop(s: seq<nat>, k: nat, x: nat)
    requires k < |s|
    ensures Occ(s[..k] + s[k + 1..], x) + (if s[k] == x then 1 else 0) == Occ(s, x)
  {
    OccSplit(s, k, x);
    OccConcat(s[..k], s[k + 1..], x);
  }

  /** Moving the last element into position k and dropping the last one. */
  lemma OccSwapOut(s: seq<nat>, k: nat, x: nat)
    requires k < |s|
    ensures Occ(s[k := s[|s| - 1]][..|s| - 1], x) + (if s[k] == x then 1 else 0) == Occ(s, x)
  {
    OccUpdate(s, k, s[|s| - 1], x);
  }

  lemma OccTail(s: seq<nat>, k: nat, x: nat)
    requires k < |s|
    ensures Occ(s[k..], x) == (if s[k] == x then 1 else 0) + Occ(s[k + 1..], x)
  {
    assert s[k..] == [s[k]] + s[k + 1..];
    OccConcat([s[k]], s[k + 1..], x);
    OccOne(s[k], x);
  }
}
