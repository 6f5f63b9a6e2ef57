/** Interpretation of the parse tree of a query: names become variables, tables and attribute positions. */
module SemInterp {
  import opened Common
  import opened LogicalPlan
  import opened LogicalOps
  import opened NaivePlan
  import opened NaiveGen

  const MAX_TABLES: nat := 1000
  const MAX_PROJ: nat := 50

  datatype OptName = NoName | Name(s: string)

  datatype SynAttr = SynAttr(rel: OptName, attr: string)

  datatype SynExpr =
    | SynConst(val: Value)
    | SynRef(attr: SynAttr)
    | SynAggr(fn: AggrFn, attr: SynAttr)
    | SynArith(op: ArithOp, left: SynExpr, right: SynExpr)

  datatype SynCond = SynCond(op: CompOp, left: SynExpr, right: SynExpr)

  datatype TimeUnit = NoTimeUnit | Second | Minute | Hour | Day

  datatype SynWindow =
    | NoWindow
    | SynRange(len: nat, unit: TimeUnit)
    | SynRow(rows: nat)
    | SynPartn(attrs: seq<SynAttr>, rows: nat)
    | SynNow
    | SynUnbounded

  /** A table of the FROM clause, with the name it goes by if that is not its own. */
  datatype RelVar = RelVar(rel: string, varName: OptName, window: SynWindow)

  datatype SelectClause = Star | Exprs(es: seq<SynExpr>)

  datatype ParseTree = ParseTree(
    from: seq<RelVar>, where: seq<SynCond>, group: seq<SynAttr>, select: SelectClause, distinct: bool, r2s: R2S)

  datatype Error =
    | UnknownTable | AmbiguousTable | UnknownVar | UnknownAttr | AmbiguousAttr | WindowOverRel | TypeError | LimitError

  datatype Outcome<T> = Ok(value: T) | Err(error: Error)

  // ---------------------------------------------------------------- the catalog

  datatype TableInfo = TableInfo(name: string, attrs: seq<string>)

  type Catalog = seq<TableInfo>

  /** The first table of the name, or the number of tables. */
  function TableId(cat: Catalog, name: string): (t: nat)
    ensures t <= |cat|
    ensures t < |cat| ==> cat[t].name == name
    ensures forall j :: 0 <= j < t ==> cat[j].name != name
  {
    if cat == [] || cat[0].name == name then 0 else 1 + TableId(cat[1..], name)
  }

  /** The first attribute of the name, or the number of attributes. */
  function AttrId(attrs: seq<string>, name: string): (a: nat)
    ensures a <= |attrs|
    ensures a < |attrs| ==> attrs[a] == name
    ensures forall j :: 0 <= j < a ==> attrs[j] != name
  {
    if attrs == [] || attrs[0] == name then 0 else 1 + AttrId(attrs[1..], name)
  }

  ghost predicate CatalogFits(cat: Catalog, tb: Tables) {
    forall t :: 0 <= t < |cat| ==> tb.width(t) == |cat[t].attrs| && |cat[t].attrs| > 0
  }

  function VarName(r: RelVar): string {
    if r.varName.Name? then r.varName.s else r.rel
  }

  /** Position k of the table is the first column of the name. */
  predicate StandsAt(attrs: seq<string>, name: string, k: nat) {
    k < |attrs| && attrs[k] == name && forall j :: 0 <= j < k ==> attrs[j] != name
  }

  /** Position t of the catalog is the first table of the name. */
  predicate TableAt(cat: Catalog, name: string, t: nat) {
    t < |cat| && cat[t].name == name && forall j :: 0 <= j < t ==> cat[j].name != name
  }

  predicate KnownTable(cat: Catalog, name: string) {
    exists t :: 0 <= t < |cat| && cat[t].name == name
  }

  /** The table goes by the name: by its alias if it has one, by its own name only if not. */
  predicate GoesBy(r: RelVar, name: string) {
    match r.varName
    case Name(alias) => name == alias
    case NoName => name == r.rel
  }

  /** The variable stands for the table of the FROM clause. */
  predicate StandsFor(cat: Catalog, r: RelVar, symbol: Symbol) {
    GoesBy(r, symbol.varName) && TableAt(cat, r.rel, symbol.tableId)
  }

  /** The variables of the FROM clause, in order and under different names. */
  predicate Variables(cat: Catalog, from: seq<RelVar>, symbols: seq<Symbol>) {
    && |symbols| == |from| <= MAX_TABLES && DistinctNames(symbols)
    && forall k :: 0 <= k < |from| ==> StandsFor(cat, from[k], symbols[k])
  }

  // ---------------------------------------------------------------- the symbol table

  datatype Symbol = Symbol(varName: string, tableId: nat)

  predicate DistinctNames(symbols: seq<Symbol>) {
    forall j, k :: 0 <= j < k < |symbols| ==> symbols[j].varName != symbols[k].varName
  }

  /** The variable may be what the attribute belongs to. */
  predicate Candidate(cat: Catalog, symbols: seq<Symbol>, a: SynAttr, v: nat) {
    && v < |symbols| && symbols[v].tableId < |cat|
    && (a.rel.Name? ==> symbols[v].varName == a.rel.s)
    && a.attr in cat[symbols[v].tableId].attrs
  }

  /** The attribute belongs to exactly one variable, and r says which and where in its table. */
  predicate Denotes(cat: Catalog, symbols: seq<Symbol>, a: SynAttr, r: SemAttr) {
    && Candidate(cat, symbols, a, r.varId)
    && (forall v :: 0 <= v < |symbols| && Candidate(cat, symbols, a, v) ==> v == r.varId)
    && StandsAt(cat[symbols[r.varId].tableId].attrs, a.attr, r.attrId)
  }

  /** An attribute of the table of some variable. */
  predicate ValidAttr(tb: Tables, symbols: seq<Symbol>, a: SemAttr) {
    a.varId < |symbols| && a.attrId < tb.width(symbols[a.varId].tableId)
  }

  predicate ValidExpr(tb: Tables, symbols: seq<Symbol>, e: SemExpr) {
    match e
    case ConstVal(_) => true
    case Attribute(a) => ValidAttr(tb, symbols, a)
    case AggrOf(_, a) => ValidAttr(tb, symbols, a)
    case Compute(_, l, r) => ValidExpr(tb, symbols, l) && ValidExpr(tb, symbols, r)
  }

  function SemType(tb: Tables, symbols: seq<Symbol>, e: SemExpr): Type {
    match e
    case ConstVal(v) => ValueType(v)
    case Attribute(a) => if a.varId < |symbols| then tb.typ(symbols[a.varId].tableId, a.attrId) else INT
    case AggrOf(fn, a) => OutputType(fn, if a.varId < |symbols| then tb.typ(symbols[a.varId].tableId, a.attrId) else INT)
    case Compute(_, l, _) => SemType(tb, symbols, l)
  }

  /** The expression with its names resolved, every operation on two values of one type. */
  predicate Reads(cat: Catalog, tb: Tables, symbols: seq<Symbol>, s: SynExpr, e: SemExpr) {
    match s
    case SynConst(v) => e == ConstVal(v)
    case SynRef(a) => e.Attribute? && Denotes(cat, symbols, a, e.attr)
    case SynAggr(fn, a) =>
      e.AggrOf? && e.fn == fn && if fn == COUNT then e.attr == SemAttr(0, 0) else Denotes(cat, symbols, a, e.attr)
    case SynArith(op, l, r) =>
      e.Compute? && e.op == op && Reads(cat, tb, symbols, l, e.left) && Reads(cat, tb, symbols, r, e.right)
      && SemType(tb, symbols, e.left) == SemType(tb, symbols, e.right)
  }

  function Seconds(len: nat, unit: TimeUnit): nat {
    match unit
    case NoTimeUnit => len
    case Second => len
    case Minute => len * 60
    case Hour => len * 60 * 60
    case Day => len * 60 * 60 * 24
  }

  /** Sixty of a unit are one of the next, and twenty-four hours a day; without a unit it is seconds. */
  lemma UnitsOfTime(n: nat)
    ensures Seconds(n, NoTimeUnit) == Seconds(n, Second) == n
    ensures Seconds(n, Minute) == Seconds(60 * n, Second) && Seconds(n, Hour) == Seconds(60 * n, Minute)
    ensures Seconds(n, Day) == Seconds(24 * n, Hour)
  {
  }

  /** The window with its names resolved and its length in seconds. */
  predicate WindowReads(cat: Catalog, symbols: seq<Symbol>, w: SynWindow, win: Window) {
    match w
    case NoWindow => win == Unbounded
    case SynRange(len, unit) => win == RangeSpec(Seconds(len, unit))
    case SynRow(rows) => win == RowSpec(rows)
    case SynPartn(attrs, rows) =>
      win.PartitionSpec? && win.rows == rows && |win.attrs| == |attrs| <= MAX_GROUP_ATTRS
      && forall k :: 0 <= k < |attrs| ==> Denotes(cat, symbols, attrs[k], win.attrs[k])
    case SynNow => win == NowSpec
    case SynUnbounded => win == Unbounded
  }

  /** All attributes of all tables, in the order of the FROM clause: what a star stands for. */
  function AllAttrs(tb: Tables, symbols: seq<Symbol>): seq<SemExpr> {
    if symbols == [] then []
    else AllAttrs(tb, symbols[..|symbols| - 1]) + AttrsOf(|symbols| - 1, tb.width(symbols[|symbols| - 1].tableId))
  }

  function AttrsOf(v: nat, width: nat): (r: seq<SemExpr>)
    ensures |r| == width
  {
    seq(width, a requires 0 <= a < width => Attribute(SemAttr(v, a)))
  }

  predicate SelectReads(cat: Catalog, tb: Tables, symbols: seq<Symbol>, select: SelectClause, projs: seq<SemExpr>) {
    match select
    case Star => projs == AllAttrs(tb, symbols)
    case Exprs(es) => |projs| == |es| && forall k :: 0 <= k < |es| ==> Reads(cat, tb, symbols, es[k], projs[k])
  }

  predicate CondReads(cat: Catalog, tb: Tables, symbols: seq<Symbol>, c: SynCond, p: SemPred) {
    && p.op == c.op && Reads(cat, tb, symbols, c.left, p.left) && Reads(cat, tb, symbols, c.right, p.right)
    && SemType(tb, symbols, p.left) == SemType(tb, symbols, p.right)
  }

  /** Query q says what the parse tree says. */
  predicate Interprets(cat: Catalog, tb: Tables, symbols: seq<Symbol>, tree: ParseTree, q: Query) {
    && q.Sfw? && |symbols| == |tree.from| == |q.from| == |q.windows| && q.refTables == TableIds(symbols)
    && Variables(cat, tree.from, symbols)
    && (forall k :: 0 <= k < |symbols| ==> q.from[k] == k)
    && (forall k :: 0 <= k < |symbols| ==>
         if tb.isStream(symbols[k].tableId) then WindowReads(cat, symbols, tree.from[k].window, q.windows[k])
         else tree.from[k].window.NoWindow?)
    && |q.preds| == |tree.where| && (forall k :: 0 <= k < |q.preds| ==> CondReads(cat, tb, symbols, tree.where[k], q.preds[k]))
    && |q.groups| == |tree.group| && (forall k :: 0 <= k < |q.groups| ==> Denotes(cat, symbols, tree.group[k], q.groups[k]))
    && SelectReads(cat, tb, symbols, tree.select, q.projs)
    && q.distinct == tree.distinct && q.r2s == tree.r2s
  }

  // ---------------------------------------------------------------- what can be interpreted

  /** Some query says what the attribute, expression, condition, window or clause says. */
  ghost predicate AttrReadable(cat: Catalog, symbols: seq<Symbol>, a: SynAttr) {
    exists r :: Denotes(cat, symbols, a, r)
  }

  ghost predicate ExprReadable(cat: Catalog, tb: Tables, symbols: seq<Symbol>, s: SynExpr) {
    exists e :: Reads(cat, tb, symbols, s, e)
  }

  ghost predicate CondReadable(cat: Catalog, tb: Tables, symbols: seq<Symbol>, c: SynCond) {
    exists p :: CondReads(cat, tb, symbols, c, p)
  }

  ghost predicate WinReadable(cat: Catalog, symbols: seq<Symbol>, w: SynWindow) {
    exists win :: WindowReads(cat, symbols, w, win)
  }

  ghost predicate SelectReadable(cat: Catalog, tb: Tables, symbols: seq<Symbol>, select: SelectClause) {
    match select
    case Star => |AllAttrs(tb, symbols)| <= MAX_PROJ
    case Exprs(es) => |es| <= MAX_PROJ && forall k :: 0 <= k < |es| ==> ExprReadable(cat, tb, symbols, es[k])
  }

  /** The table has a window that can be read, or none if it is a relation. */
  ghost predicate TableReadable(cat: Catalog, tb: Tables, symbols: seq<Symbol>, from: seq<RelVar>, k: nat)
    requires k < |from| == |symbols|
  {
    if tb.isStream(symbols[k].tableId) then WinReadable(cat, symbols, from[k].window) else from[k].window.NoWindow?
  }

  /** A FROM clause has one list of variables only. */
  lemma OneList(cat: Catalog, from: seq<RelVar>, symbols: seq<Symbol>, symbols2: seq<Symbol>)
    requires Variables(cat, from, symbols) && Variables(cat, from, symbols2)
    ensures symbols == symbols2
  {
    forall k | 0 <= k < |from|
      ensures symbols[k] == symbols2[k]
    {
      assert StandsFor(cat, from[k], symbols[k]) && StandsFor(cat, from[k], symbols2[k]);
    }
  }

  /** A qualified attribute belongs to a table that goes by the qualifier: an alias hides the table's own name. */
  lemma AliasHides(cat: Catalog, from: seq<RelVar>, symbols: seq<Symbol>, name: string, attr: string, r: SemAttr)
    requires Variables(cat, from, symbols) && Denotes(cat, symbols, SynAttr(Name(name), attr), r)
    ensures r.varId < |from| && (from[r.varId].varName == Name(name) || (from[r.varId].varName == NoName && from[r.varId].rel == name))
  {
    assert StandsFor(cat, from[r.varId], symbols[r.varId]);
  }

  /** There is room for the clauses of the query. */
  predicate ClausesFit(q: Query) {
    q.Sfw? && |q.preds| <= MAX_PRED && |q.groups| <= MAX_GROUP_ATTRS && |q.projs| <= MAX_PROJ
  }

  /** An expression can be read in one way only. */
  lemma {:induction false} ReadsOne(cat: Catalog, tb: Tables, symbols: seq<Symbol>, s: SynExpr, e: SemExpr, f: SemExpr)
    requires Reads(cat, tb, symbols, s, e) && Reads(cat, tb, symbols, s, f)
    ensures e == f
  {
    match s
    case SynConst(_) =>
    case SynRef(_) =>
    case SynAggr(_, _) =>
    case SynArith(_, l, r) =>
      ReadsOne(cat, tb, symbols, l, e.left, f.left);
      ReadsOne(cat, tb, symbols, r, e.right, f.right);
  }

  /** What an expression that can be read consists of. */
  lemma ReadableParts(cat: Catalog, tb: Tables, symbols: seq<Symbol>, s: SynExpr)
    requires ExprReadable(cat, tb, symbols, s)
    ensures s.SynRef? ==> AttrReadable(cat, symbols, s.attr)
    ensures s.SynAggr? && s.fn != COUNT ==> AttrReadable(cat, symbols, s.attr)
    ensures s.SynArith? ==> ExprReadable(cat, tb, symbols, s.left) && ExprReadable(cat, tb, symbols, s.right)
  {
    var e :| Reads(cat, tb, symbols, s, e);
    match s
    case SynConst(_) =>
    case SynRef(a) => assert Denotes(cat, symbols, a, e.attr);
    case SynAggr(fn, a) => assert fn != COUNT ==> Denotes(cat, symbols, a, e.attr);
    case SynArith(_, l, r) => assert Reads(cat, tb, symbols, l, e.left) && Reads(cat, tb, symbols, r, e.right);
  }

  lemma ConditionParts(cat: Catalog, tb: Tables, symbols: seq<Symbol>, c: SynCond)
    requires CondReadable(cat, tb, symbols, c)
    ensures ExprReadable(cat, tb, symbols, c.left) && ExprReadable(cat, tb, symbols, c.right)
  {
    var p :| CondReads(cat, tb, symbols, c, p);
    assert Reads(cat, tb, symbols, c.left, p.left) && Reads(cat, tb, symbols, c.right, p.right);
  }

  lemma WindowParts(cat: Catalog, symbols: seq<Symbol>, attrs: seq<SynAttr>, rows: nat)
    requires WinReadable(cat, symbols, SynPartn(attrs, rows))
    ensures |attrs| <= MAX_GROUP_ATTRS && forall k :: 0 <= k < |attrs| ==> AttrReadable(cat, symbols, attrs[k])
  {
    var win :| WindowReads(cat, symbols, SynPartn(attrs, rows), win);
    forall k | 0 <= k < |attrs|
      ensures AttrReadable(cat, symbols, attrs[k])
    {
      assert Denotes(cat, symbols, attrs[k], win.attrs[k]);
    }
  }

  /** What a parse tree consists of that some query interprets. */
  lemma TreeParts(cat: Catalog, tb: Tables, symbols: seq<Symbol>, tree: ParseTree, q: Query)
    requires Interprets(cat, tb, symbols, tree, q) && ClausesFit(q)
    ensures forall k :: 0 <= k < |tree.from| ==> TableReadable(cat, tb, symbols, tree.from, k)
    ensures |tree.where| <= MAX_PRED && forall k :: 0 <= k < |tree.where| ==> CondReadable(cat, tb, symbols, tree.where[k])
    ensures |tree.group| <= MAX_GROUP_ATTRS && forall k :: 0 <= k < |tree.group| ==> AttrReadable(cat, symbols, tree.group[k])
    ensures SelectReadable(cat, tb, symbols, tree.select)
  {
    forall k | 0 <= k < |tree.from|
      ensures TableReadable(cat, tb, symbols, tree.from, k)
    {
      assert tb.isStream(symbols[k].tableId) ==> WindowReads(cat, symbols, tree.from[k].window, q.windows[k]);
    }
    forall k | 0 <= k < |tree.where|
      ensures CondReadable(cat, tb, symbols, tree.where[k])
    {
      assert CondReads(cat, tb, symbols, tree.where[k], q.preds[k]);
    }
    forall k | 0 <= k < |tree.group|
      ensures AttrReadable(cat, symbols, tree.group[k])
    {
      assert Denotes(cat, symbols, tree.group[k], q.groups[k]);
    }
    if tree.select.Exprs? {
      forall k | 0 <= k < |tree.select.es|
        ensures ExprReadable(cat, tb, symbols, tree.select.es[k])
      {
        assert Reads(cat, tb, symbols, tree.select.es[k], q.projs[k]);
      }
    }
  }

  lemma {:induction false} AllAttrsPrefix(tb: Tables, symbols: seq<Symbol>, v: nat)
    requires v < |symbols|
    ensures |AllAttrs(tb, symbols[..v])| + tb.width(symbols[v].tableId) <= |AllAttrs(tb, symbols)|
  {
    var m := |symbols| - 1;
    if v < m {
      AllAttrsPrefix(tb, symbols[..m], v);
      assert symbols[..m][..v] == symbols[..v];
    }
  }

  class Interpreter {
    const cat: Catalog
    const tables: Tables
    var symbols: seq<Symbol>

    ghost predicate Valid()
      reads this
    {
      |symbols| <= MAX_TABLES && CatalogFits(cat, tables) && DistinctNames(symbols) && forall k :: 0 <= k < |symbols| ==> symbols[k].tableId < |cat|
    }

    constructor (cat: Catalog, tables: Tables)
      requires CatalogFits(cat, tables)
      ensures Valid() && symbols == [] && this.cat == cat && this.tables == tables
    {
      this.cat := cat;
      this.tables := tables;
      symbols := [];
    }

    /** Adds a variable for a table, unless the table is unknown or the name is taken. */
    method AddSymbolTableEntry(tableName: string, varName: string) returns (rc: Outcome<()>)
      requires Valid()
      modifies this
      ensures Valid()
      ensures rc.Ok? <==>
        && KnownTable(cat, tableName) && (forall s :: 0 <= s < |old(symbols)| ==> old(symbols)[s].varName != varName)
        && |old(symbols)| < MAX_TABLES
      ensures rc.Err? ==> symbols == old(symbols)
      ensures rc.Ok? ==> exists t :: TableAt(cat, tableName, t) && symbols == old(symbols) + [Symbol(varName, t)]
    {
      var tableId := TableId(cat, tableName);
      if tableId == |cat| {
        return Err(UnknownTable);
      }
      for s := 0 to |symbols|
        invariant forall j :: 0 <= j < s ==> symbols[j].varName != varName
      {
        if symbols[s].varName == varName {
          return Err(AmbiguousTable);
        }
      }
      if |symbols| == MAX_TABLES {
        return Err(LimitError);
      }
      symbols := symbols + [Symbol(varName, tableId)];
      rc := Ok(());
    }

    /** The symbol table has the first n tables of the FROM clause, in order. */
    predicate Lists(from: seq<RelVar>, n: nat)
      requires n <= |from|
      reads this
    {
      |symbols| == n && forall k :: 0 <= k < n ==> StandsFor(cat, from[k], symbols[k])
    }

    /** Builds the symbol table from the FROM clause. */
    method GetReferencedTables(from: seq<RelVar>) returns (rc: Outcome<()>)
      requires Valid() && symbols == []
      modifies this
      ensures Valid()
      ensures rc.Ok? <==> exists ss :: Variables(cat, from, ss)
      ensures rc.Ok? ==> Variables(cat, from, symbols)
    {
      for k := 0 to |from|
        invariant Valid() && Lists(from, k)
      {
        NextFits(from, k);
        rc := AddSymbolTableEntry(from[k].rel, VarName(from[k]));
        if rc.Err? {
          return;
        }
      }
      rc := Ok(());
      assert Variables(cat, from, symbols);
    }

    /** If the FROM clause has variables at all, the next one can be added. */
    lemma NextFits(from: seq<RelVar>, k: nat)
      requires k < |from| && Lists(from, k)
      ensures (exists ss :: Variables(cat, from, ss)) ==>
        KnownTable(cat, from[k].rel) && k < MAX_TABLES && forall s :: 0 <= s < k ==> symbols[s].varName != VarName(from[k])
    {
      if ss :| Variables(cat, from, ss) {
        assert StandsFor(cat, from[k], ss[k]);
        forall s | 0 <= s < k
          ensures symbols[s].varName != VarName(from[k])
        {
          assert StandsFor(cat, from[s], ss[s]) && StandsFor(cat, from[s], symbols[s]);
        }
      }
    }

    /** The variable of the name. */
    method InterpretVarName(varName: string) returns (r: Outcome<nat>)
      requires Valid()
      ensures r.Ok? <==> exists v :: 0 <= v < |symbols| && symbols[v].varName == varName
      ensures r.Ok? ==> r.value < |symbols| && symbols[r.value].varName == varName
    {
      for v := 0 to |symbols|
        invariant forall j :: 0 <= j < v ==> symbols[j].varName != varName
      {
        if symbols[v].varName == varName {
          return Ok(v);
        }
      }
      r := Err(UnknownVar);
    }

    /** Resolves an attribute; it succeeds exactly if the attribute belongs to one variable and no other. */
    method InterpretAttr(a: SynAttr) returns (r: Outcome<SemAttr>)
      requires Valid()
      ensures r.Ok? ==> Denotes(cat, symbols, a, r.value) && ValidAttr(tables, symbols, r.value)
      ensures r.Ok? <==> AttrReadable(cat, symbols, a)
    {
      if a.rel.Name? {
        var v := InterpretVarName(a.rel.s);
        if v.Err? {
          return Err(UnknownVar);
        }
        var attrs := cat[symbols[v.value].tableId].attrs;
        var attrId := AttrId(attrs, a.attr);
        if attrId == |attrs| {
          return Err(UnknownAttr);
        }
        return Ok(SemAttr(v.value, attrId));
      }
      var found, varId: nat, attrId: nat := false, 0, 0;
      for v := 0 to |symbols|
        invariant !found ==> forall j :: 0 <= j < v ==> !Candidate(cat, symbols, a, j)
        invariant found ==>
          && varId < v && Candidate(cat, symbols, a, varId)
          && StandsAt(cat[symbols[varId].tableId].attrs, a.attr, attrId)
          && forall j :: 0 <= j < v && Candidate(cat, symbols, a, j) ==> j == varId
      {
        var attrs := cat[symbols[v].tableId].attrs;
        var at := AttrId(attrs, a.attr);
        if at < |attrs| {
          assert Candidate(cat, symbols, a, v);
          if found {
            return Err(AmbiguousAttr);
          }
          found, varId, attrId := true, v, at;
        }
      }
      if !found {
        return Err(UnknownAttr);
      }
      r := Ok(SemAttr(varId, attrId));
    }

    /** Resolves the names of an expression and checks the types of its operations. */
    method InterpretExpr(s: SynExpr) returns (r: Outcome<SemExpr>)
      requires Valid() && symbols != []
      ensures r.Ok? <==> ExprReadable(cat, tables, symbols, s)
      ensures r.Ok? ==> Reads(cat, tables, symbols, s, r.value) && ValidExpr(tables, symbols, r.value)
      decreases s
    {
      if ExprReadable(cat, tables, symbols, s) {
        ReadableParts(cat, tables, symbols, s);
      }
      match s {
        case SynConst(v) => r := Ok(ConstVal(v));
        case SynRef(a) =>
          var x := InterpretAttr(a);
          r := if x.Ok? then Ok(Attribute(x.value)) else Err(x.error);
        case SynAggr(fn, a) =>
          if fn == COUNT {
            assert Reads(cat, tables, symbols, s, AggrOf(COUNT, SemAttr(0, 0)));
            return Ok(AggrOf(COUNT, SemAttr(0, 0)));
          }
          var x := InterpretAttr(a);
          r := if x.Ok? then Ok(AggrOf(fn, x.value)) else Err(x.error);
        case SynArith(op, left, right) =>
          var l := InterpretExpr(left);
          if l.Err? {
            return l;
          }
          r := InterpretExpr(right);
          if r.Err? {
            return;
          }
          if SemType(tables, symbols, l.value) != SemType(tables, symbols, r.value) {
            forall e | Reads(cat, tables, symbols, s, e)
              ensures false
            {
              ReadsOne(cat, tables, symbols, left, l.value, e.left);
              ReadsOne(cat, tables, symbols, right, r.value, e.right);
            }
            return Err(TypeError);
          }
          r := Ok(Compute(op, l.value, r.value));
      }
      assert r.Ok? ==> Reads(cat, tables, symbols, s, r.value);
    }

    method InterpretCondn(c: SynCond) returns (r: Outcome<SemPred>)
      requires Valid() && symbols != []
      ensures r.Ok? <==> CondReadable(cat, tables, symbols, c)
      ensures r.Ok? ==>
        && CondReads(cat, tables, symbols, c, r.value)
        && ValidExpr(tables, symbols, r.value.left) && ValidExpr(tables, symbols, r.value.right)
    {
      if CondReadable(cat, tables, symbols, c) {
        ConditionParts(cat, tables, symbols, c);
      }
      var left := InterpretExpr(c.left);
      if left.Err? {
        return Err(left.error);
      }
      var right := InterpretExpr(c.right);
      if right.Err? {
        return Err(right.error);
      }
      if SemType(tables, symbols, left.value) != SemType(tables, symbols, right.value) {
        forall p | CondReads(cat, tables, symbols, c, p)
          ensures false
        {
          ReadsOne(cat, tables, symbols, c.left, left.value, p.left);
          ReadsOne(cat, tables, symbols, c.right, right.value, p.right);
        }
        return Err(TypeError);
      }
      r := Ok(SemPred(c.op, left.value, right.value));
      assert CondReads(cat, tables, symbols, c, r.value);
    }

    /** Resolves a list of attributes, up to a limit. */
    method InterpretAttrs(attrs: seq<SynAttr>, limit: nat) returns (r: Outcome<seq<SemAttr>>)
      requires Valid()
      ensures r.Ok? <==> |attrs| <= limit && forall k :: 0 <= k < |attrs| ==> AttrReadable(cat, symbols, attrs[k])
      ensures r.Ok? ==> |r.value| == |attrs|
      ensures r.Ok? ==> forall k :: 0 <= k < |attrs| ==>
        Denotes(cat, symbols, attrs[k], r.value[k]) && ValidAttr(tables, symbols, r.value[k])
    {
      var out: seq<SemAttr> := [];
      for k := 0 to |attrs|
        invariant |out| == k <= limit
        invariant forall j :: 0 <= j < k ==> Denotes(cat, symbols, attrs[j], out[j]) && ValidAttr(tables, symbols, out[j])
      {
        var x := InterpretAttr(attrs[k]);
        if x.Err? {
          return Err(x.error);
        }
        if |out| >= limit {
          return Err(LimitError);
        }
        out := out + [x.value];
      }
      r := Ok(out);
    }

    /** The window of a stream; without one it is unbounded. */
    method InterpretWin(w: SynWindow) returns (r: Outcome<Window>)
      requires Valid()
      ensures r.Ok? <==> WinReadable(cat, symbols, w)
      ensures r.Ok? ==> WindowReads(cat, symbols, w, r.value)
    {
      match w {
        case NoWindow => r := Ok(Unbounded);
        case SynRange(len, unit) => r := Ok(RangeSpec(Seconds(len, unit)));
        case SynRow(rows) => r := Ok(RowSpec(rows));
        case SynPartn(attrs, rows) =>
          if WinReadable(cat, symbols, w) {
            WindowParts(cat, symbols, attrs, rows);
          }
          var xs := InterpretAttrs(attrs, MAX_GROUP_ATTRS);
          r := if xs.Ok? then Ok(PartitionSpec(xs.value, rows)) else Err(xs.error);
        case SynNow => r := Ok(NowSpec);
        case SynUnbounded => r := Ok(Unbounded);
      }
      assert r.Ok? ==> WindowReads(cat, symbols, w, r.value);
    }

    /** The window of the table before the k-th. */
    static function Before(wins: seq<Window>, k: nat): Window
      requires k <= |wins|
    {
      if k > 0 then wins[k - 1] else Unbounded
    }

    predicate WindowFitsRoom(w: Window) {
      w.PartitionSpec? ==> |w.attrs| <= MAX_GROUP_ATTRS
    }

    /** The variable of a table, and its window; a relation is left with the window given. */
    method InterpretTable(from: seq<RelVar>, k: nat, win: Window) returns (r: Outcome<(nat, Window)>)
      requires Valid() && Lists(from, |from|) && k < |from| && WindowFitsRoom(win)
      ensures r.Ok? <==> TableReadable(cat, tables, symbols, from, k)
      ensures r.Ok? ==> r.value.0 == k && WindowFitsRoom(r.value.1)
      ensures r.Ok? ==>
        if tables.isStream(symbols[k].tableId) then WindowReads(cat, symbols, from[k].window, r.value.1)
        else from[k].window.NoWindow? && r.value.1 == win
    {
      var v := InterpretVarName(VarName(from[k]));
      assert StandsFor(cat, from[k], symbols[k]);
      if v.Err? {
        return Err(UnknownVar);
      }
      assert v.value == k;
      if tables.isStream(symbols[v.value].tableId) {
        var w := InterpretWin(from[k].window);
        return if w.Ok? then Ok((v.value, w.value)) else Err(w.error);
      }
      if !from[k].window.NoWindow? {
        return Err(WindowOverRel);
      }
      r := Ok((v.value, win));
    }

    /**
     The variables and windows of the FROM clause.  Every table gets the variable of its own place, so
     the variables are all different.  A relation is left with the window of the table before it.
     */
    method InterpretFromClause(from: seq<RelVar>) returns (r: Outcome<(seq<nat>, seq<Window>)>)
      requires Valid() && Lists(from, |from|)
      ensures r.Ok? <==> forall k :: 0 <= k < |from| ==> TableReadable(cat, tables, symbols, from, k)
      ensures r.Ok? ==>
        var (vars, wins) := r.value;
        |vars| == |wins| == |from| && (forall k :: 0 <= k < |from| ==> vars[k] == k) && NoRepeat(vars) && Windowed(from, wins)
    {
      hide TableReadable, WindowAt;
      var vars: seq<nat>, wins: seq<Window> := [], [];
      var win := Unbounded;
      for k := 0 to |from|
        invariant |vars| == |wins| == k && Windowed(from, wins) && WindowFitsRoom(win) && win == Before(wins, k)
        invariant forall j :: 0 <= j < k ==> vars[j] == j && TableReadable(cat, tables, symbols, from, j)
      {
        var v := InterpretTable(from, k, win);
        if v.Err? {
          return Err(v.error);
        }
        if |vars| == MAX_TABLES {
          return Err(LimitError);
        }
        win := v.value.1;
        WindowedMore(from, wins, win);
        vars, wins := vars + [v.value.0], wins + [win];
      }
      r := Ok((vars, wins));
    }

    /** The window of a stream is that of the parse tree, that of a relation is left over from the table before it. */
    predicate WindowAt(from: seq<RelVar>, wins: seq<Window>, k: nat)
      requires k < |wins| <= |from| == |symbols|
      reads this
    {
      && WindowFitsRoom(wins[k])
      && if tables.isStream(symbols[k].tableId) then WindowReads(cat, symbols, from[k].window, wins[k])
         else from[k].window.NoWindow? && wins[k] == Before(wins, k)
    }

    predicate Windowed(from: seq<RelVar>, wins: seq<Window>)
      requires |wins| <= |from| == |symbols|
      reads this
    {
      forall k :: 0 <= k < |wins| ==> WindowAt(from, wins, k)
    }

    lemma WindowedReads(from: seq<RelVar>, wins: seq<Window>)
      requires |wins| == |from| == |symbols| && Windowed(from, wins)
      ensures forall k :: 0 <= k < |from| ==> WindowFitsRoom(wins[k])
      ensures forall k :: 0 <= k < |from| ==>
        if tables.isStream(symbols[k].tableId) then WindowReads(cat, symbols, from[k].window, wins[k])
        else from[k].window.NoWindow?
    {
      forall k | 0 <= k < |from|
        ensures WindowFitsRoom(wins[k])
        ensures if tables.isStream(symbols[k].tableId) then WindowReads(cat, symbols, from[k].window, wins[k])
                else from[k].window.NoWindow?
      {
        assert WindowAt(from, wins, k);
      }
    }

    lemma WindowedMore(from: seq<RelVar>, wins: seq<Window>, w: Window)
      requires |wins| < |from| == |symbols| && Windowed(from, wins) && WindowFitsRoom(w)
      requires if tables.isStream(symbols[|wins|].tableId) then WindowReads(cat, symbols, from[|wins|].window, w)
               else from[|wins|].window.NoWindow? && w == Before(wins, |wins|)
      ensures Windowed(from, wins + [w])
    {
      var more := wins + [w];
      forall k | 0 <= k < |more|
        ensures WindowAt(from, more, k)
      {
        assert Before(more, k) == Before(wins, k);
        assert k < |wins| ==> WindowAt(from, wins, k);
      }
    }

    method InterpretWhereClause(conds: seq<SynCond>) returns (r: Outcome<seq<SemPred>>)
      requires Valid() && symbols != []
      ensures r.Ok? <==> |conds| <= MAX_PRED && forall k :: 0 <= k < |conds| ==> CondReadable(cat, tables, symbols, conds[k])
      ensures r.Ok? ==> |r.value| == |conds|
      ensures r.Ok? ==> forall k :: 0 <= k < |conds| ==>
        && CondReads(cat, tables, symbols, conds[k], r.value[k])
        && ValidExpr(tables, symbols, r.value[k].left) && ValidExpr(tables, symbols, r.value[k].right)
    {
      var out: seq<SemPred> := [];
      for k := 0 to |conds|
        invariant |out| == k <= MAX_PRED
        invariant forall j :: 0 <= j < k ==>
          && CondReads(cat, tables, symbols, conds[j], out[j])
          && ValidExpr(tables, symbols, out[j].left) && ValidExpr(tables, symbols, out[j].right)
      {
        var c := InterpretCondn(conds[k]);
        if c.Err? {
          return Err(c.error);
        }
        if |out| >= MAX_PRED {
          return Err(LimitError);
        }
        out := out + [c.value];
      }
      r := Ok(out);
    }

    method InterpretStar() returns (r: Outcome<seq<SemExpr>>)
      requires Valid()
      ensures r.Ok? <==> |AllAttrs(tables, symbols)| <= MAX_PROJ
      ensures r.Ok? ==> r.value == AllAttrs(tables, symbols)
      ensures r.Ok? ==> forall k :: 0 <= k < |r.value| ==> ValidExpr(tables, symbols, r.value[k])
    {
      var out: seq<SemExpr> := [];
      for v := 0 to |symbols|
        invariant |out| <= MAX_PROJ && out == AllAttrs(tables, symbols[..v])
        invariant forall k :: 0 <= k < |out| ==> ValidExpr(tables, symbols, out[k])
      {
        ghost var before := out;
        var width := tables.width(symbols[v].tableId);
        AllAttrsPrefix(tables, symbols, v);
        for a := 0 to width
          invariant |out| <= MAX_PROJ && out == before + AttrsOf(v, width)[..a]
          invariant forall k :: 0 <= k < |out| ==> ValidExpr(tables, symbols, out[k])
        {
          if |out| >= MAX_PROJ {
            return Err(LimitError);
          }
          out := out + [Attribute(SemAttr(v, a))];
        }
        assert symbols[..v + 1][..v] == symbols[..v];
        assert AttrsOf(v, width)[..width] == AttrsOf(v, width);
      }
      assert symbols[..|symbols|] == symbols;
      r := Ok(out);
    }

    method InterpretSelectClause(select: SelectClause) returns (r: Outcome<seq<SemExpr>>)
      requires Valid() && symbols != []
      ensures r.Ok? <==> SelectReadable(cat, tables, symbols, select)
      ensures r.Ok? ==> |r.value| <= MAX_PROJ && SelectReads(cat, tables, symbols, select, r.value)
      ensures r.Ok? ==> forall k :: 0 <= k < |r.value| ==> ValidExpr(tables, symbols, r.value[k])
    {
      if select.Star? {
        r := InterpretStar();
        return;
      }
      var out: seq<SemExpr> := [];
      for k := 0 to |select.es|
        invariant |out| == k <= MAX_PROJ
        invariant forall j :: 0 <= j < k ==>
          Reads(cat, tables, symbols, select.es[j], out[j]) && ValidExpr(tables, symbols, out[j])
      {
        var e := InterpretExpr(select.es[k]);
        if e.Err? {
          return Err(e.error);
        }
        if |out| >= MAX_PROJ {
          return Err(LimitError);
        }
        out := out + [e.value];
      }
      r := Ok(out);
    }

    /** Every clause can be read. */
    ghost predicate Readable(tree: ParseTree)
      reads this
    {
      && |symbols| == |tree.from| && (forall k :: 0 <= k < |tree.from| ==> TableReadable(cat, tables, symbols, tree.from, k))
      && |tree.where| <= MAX_PRED && (forall k :: 0 <= k < |tree.where| ==> CondReadable(cat, tables, symbols, tree.where[k]))
      && |tree.group| <= MAX_GROUP_ATTRS && (forall k :: 0 <= k < |tree.group| ==> AttrReadable(cat, symbols, tree.group[k]))
      && SelectReadable(cat, tables, symbols, tree.select)
    }

    /**
     Interprets a query with a select-from-where block.  It succeeds exactly if some query that fits,
     over variables that stand for the tables of the FROM clause, says what the parse tree says.
     */
    method InterpretQuery(tree: ParseTree) returns (r: Outcome<Query>)
      requires Valid() && tree.from != []
      modifies this
      ensures r.Ok? <==>
        exists ss, q :: Interprets(cat, tables, ss, tree, q) && ClausesFit(q)
      ensures r.Ok? ==> Interprets(cat, tables, symbols, tree, r.value) && Resolved(tables, r.value)
    {
      symbols := [];
      var tabs := GetReferencedTables(tree.from);
      if tabs.Err? {
        return Err(tabs.error);
      }
      forall ss, q | Interprets(cat, tables, ss, tree, q) && ClausesFit(q)
        ensures Readable(tree)
      {
        OneList(cat, tree.from, symbols, ss);
        TreeParts(cat, tables, symbols, tree, q);
      }
      var refTables := TableIds(symbols);
      var from := InterpretFromClause(tree.from);
      if from.Err? {
        return Err(from.error);
      }
      WindowedReads(tree.from, from.value.1);
      var preds := InterpretWhereClause(tree.where);
      if preds.Err? {
        return Err(preds.error);
      }
      var groups := InterpretAttrs(tree.group, MAX_GROUP_ATTRS);
      if groups.Err? {
        return Err(groups.error);
      }
      var projs := InterpretSelectClause(tree.select);
      if projs.Err? {
        return Err(projs.error);
      }
      var q := Sfw(refTables, from.value.0, from.value.1, preds.value, projs.value, groups.value, tree.distinct, tree.r2s);
      InterpretedResolved(tables, symbols, q);
      assert Interprets(cat, tables, symbols, tree, q) && ClausesFit(q);
      r := Ok(q);
    }
  }

  function TableIds(symbols: seq<Symbol>): (r: seq<nat>)
    ensures |r| == |symbols| && forall k :: 0 <= k < |symbols| ==> r[k] == symbols[k].tableId
  {
    seq(|symbols|, k requires 0 <= k < |symbols| => symbols[k].tableId)
  }

  // ---------------------------------------------------------------- what an accepted query satisfies

  /** Every attribute of the expression, aggregated or not, belongs to a table of the FROM clause. */
  predicate FromExpr(tb: Tables, q: Query, e: SemExpr)
    requires Bound(q)
  {
    match e
    case ConstVal(_) => true
    case Attribute(a) => InFrom(tb, q, a)
    case AggrOf(_, a) => InFrom(tb, q, a)
    case Compute(_, l, r) => FromExpr(tb, q, l) && FromExpr(tb, q, r)
  }

  predicate Resolved(tb: Tables, q: Query) {
    && Bound(q) && NoRepeat(q.from) && WindowsFit(q)
    && |q.preds| <= MAX_PRED && |q.groups| <= MAX_GROUP_ATTRS && |q.projs| <= MAX_PROJ
    && (forall k :: 0 <= k < |q.preds| ==> FromExpr(tb, q, q.preds[k].left) && FromExpr(tb, q, q.preds[k].right))
    && (forall k :: 0 <= k < |q.groups| ==> InFrom(tb, q, q.groups[k]))
    && (forall k :: 0 <= k < |q.projs| ==> FromExpr(tb, q, q.projs[k]))
  }

  lemma {:induction false} ValidIsFrom(tb: Tables, symbols: seq<Symbol>, q: Query, e: SemExpr)
    requires Bound(q) && q.refTables == TableIds(symbols) && |q.from| == |symbols|
    requires (forall k :: 0 <= k < |q.from| ==> q.from[k] == k) && ValidExpr(tb, symbols, e)
    ensures FromExpr(tb, q, e)
  {
    match e
    case ConstVal(_) =>
    case Attribute(a) => assert q.from[a.varId] == a.varId;
    case AggrOf(_, a) => assert q.from[a.varId] == a.varId;
    case Compute(_, l, r) => ValidIsFrom(tb, symbols, q, l); ValidIsFrom(tb, symbols, q, r);
  }

  lemma InterpretedResolved(tb: Tables, symbols: seq<Symbol>, q: Query)
    requires Bound(q) && NoRepeat(q.from) && WindowsFit(q)
    requires q.refTables == TableIds(symbols) && |q.from| == |symbols| && forall k :: 0 <= k < |q.from| ==> q.from[k] == k
    requires |q.preds| <= MAX_PRED && |q.groups| <= MAX_GROUP_ATTRS && |q.projs| <= MAX_PROJ
    requires forall k :: 0 <= k < |q.preds| ==> ValidExpr(tb, symbols, q.preds[k].left) && ValidExpr(tb, symbols, q.preds[k].right)
    requires forall k :: 0 <= k < |q.groups| ==> ValidAttr(tb, symbols, q.groups[k])
    requires forall k :: 0 <= k < |q.projs| ==> ValidExpr(tb, symbols, q.projs[k])
    ensures Resolved(tb, q)
  {
    forall k | 0 <= k < |q.preds|
      ensures FromExpr(tb, q, q.preds[k].left) && FromExpr(tb, q, q.preds[k].right)
    {
      ValidIsFrom(tb, symbols, q, q.preds[k].left);
      ValidIsFrom(tb, symbols, q, q.preds[k].right);
    }
    forall k | 0 <= k < |q.groups|
      ensures InFrom(tb, q, q.groups[k])
    {
      assert q.from[q.groups[k].varId] == q.groups[k].varId;
    }
    forall k | 0 <= k < |q.projs|
      ensures FromExpr(tb, q, q.projs[k])
    {
      ValidIsFrom(tb, symbols, q, q.projs[k]);
    }
  }
}
