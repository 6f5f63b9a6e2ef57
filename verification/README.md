# A verified model of the continuous-query compiler

The coordinator of this stream query system compiles a declarative query over streams and relations
into operators of one global plan that all queries share. This project models the compiler in Dafny
and proves that it keeps what queries mean, on the pointer structures it works on.

A query goes through these stages:

1. **Interpretation** (`SemInterp`, `Resolution`): names in the parse tree become variables, tables and
   attribute positions.
2. **Naive logical plan** (`NaivePlan`, `NaiveGen`): a tree of operators whose attributes are names,
   built in a fixed pool (`LogicalOps`). It computes what the query means (`QuerySemantics`).
3. **Logical rewriting** (`LogPlanGen`): an `Rstream` and a `[Now]` window are removed, a cross product
   becomes a stream cross product, a useless project goes, n-way products become binary, selects are
   pushed down; nothing of this is left to do afterwards (`PushedForm`, `FinalForm`).
4. **Translation and registration** (`GenPhyPlan`, `PlanColumns`, `Readers`, `Register`): names become
   positions, columns get types and lengths, stacked selects become one, and the query's operators are
   added to the global plan; the class of an output is spread over everything it reads from
   (`QueryClasses`).
5. **Optimization** (`Optimizer`): query sources are removed, selects and projects are merged into
   joins, and equal operators of different queries are shared (`Sharing`, `ProjectOrigins`).

## How meaning is modelled

Time is a sequence of instants. At every instant an operator has a bag of tuples: the arrivals of a
stream, the state of a relation (`Bags`, `Histories`). A stream that is read where a relation is needed
stands for everything that has arrived so far. An operator that gives a stream although it works on
states reports what is new (`Growth`). Arithmetic, comparison, row and partition windows, aggregation and the
contents of tables are parameters (`Semantics`), so the theorems hold for every way of computing them.

Logical operators look attributes up by name in the schemas of their inputs (`LogicalPlan`); physical
ones by input and position (`PhysicalPlan`). The two definitions are independent of each other and of
the translation. What a query means is defined a third time, without plans (`QuerySemantics`): the
product of its windowed tables, the rows its conditions admit, groups, projections, and what is
reported of the result. `EndToEnd.QueryAnswered` and `EndToEnd.OutputAnswered` compare the operators of the global
plan with that.

## How the pointer structures are modelled

- The physical pool is an array of records, with the `next` and `prev` links of its two lists in
  arrays of their own (`Manager`). Ghost fields give the lists, the set of operators in use, and a rank
  that shows the plan to be acyclic. An operator means what the tree it unfolds to means, so replacing
  an operator by one with an equal tree changes nothing else (`Rewire`).
- The logical pool is an array of records with input and output links, a stored schema and a stored
  stream flag. A plan *stands* in the pool if the links agree with the tree both ways, every operator
  has a slot of its own, and what is stored is what the inputs determine (`LogicalTrees`). Every
  constructor and every transformation leaves a plan that stands, and it is the tree that the pure
  description of the transformation gives.
- Every imperative step is tied to a description of the new state, and the theorems are about these
  descriptions: `Transform*` refine `Rewrite*`, `GenPhyPlan` refines `Translate` and `Compile`, `Surgery`
  and `Sharing` refine `Rewire` and `SharingPlan`.

## Where the code does not keep what it should

- `t_rstreamNow` steps over DISTINCT (log_plan_gen.cc:116-118), and `t_streamCross` over DISTINCT and
  GROUP_AGGR (log_plan_gen.cc:321-324). A distinct over the stream that is left drops tuples seen at
  earlier instants, and an aggregation over it aggregates everything that has arrived.
  `RewriteNow.RstreamNowExactly`, `ExactStreams.StreamCrossExactly` and `WholeRewrite.RewritingExactly`
  give the exact conditions, with interpretations that tell the plans apart when they fail, and
  `WholeRewrite.DistinctNowChanged` a query. The comment at log_plan_gen.cc:75-85 presents the first case
  as correct.
- An interpreted query may use an aggregation in a predicate, partition a window by attributes of another
  stream, or project attributes it does not group by. Some reference of its plan then does not resolve,
  and in no other case: `Resolution.ReferencesResolve`. `Resolution.AcceptedInVain` gives such a query.
  A relation is left with the window of the table before it (sem_interp.cc:744, 776-795), which does no
  harm since the naive plan puts no window over a relation.
- The type of a count follows whatever column comes first (gen_phy_plan.cc:716-719, 746-750), so it may
  differ from the type the logical plan gives it: `PlanColumns.ColumnTypes` is about all other columns.
- If classes may not share, equal operators of different classes are left alone (plan_trans.cc:1108-1109), and one
  that is taken off the list for that reason is not compared any more: `Sharing.DifferentExactly` says when
  nothing equal is left.
- Merging projects can make two operators equal after sharing has been done, if a join has its projections
  from an earlier pass (plan_mgr_impl.cc:347-370): `JoinedBefore.MergingMakesEqual` gives such a plan, and
  `ProjectOrigins.StillDifferent` shows that there is no other reason.
- `mergeSelects` and `mergeProjectsToJoin` give up when the operator to be merged has as many readers as a
  record has room for, although they would take the place of the operator itself in the reader list
  (plan_trans.cc:739-746).
- `new_op` dereferences the new head of the free list, `mergeOperators` dereferences both neighbours in
  the used list and does not check the number of readers, and `findSharedOps` may meet a merged operator
  again if the inputs of a join are at different distances from the sources. These appear as
  preconditions; `Optimizer.EndsUnshareable` shows that the neighbours always exist.

## Model

| member | source | states |
|---|---|---|
| `Manager.PlanManager.constructor` | AQSIOSCoordinator/src/metadata/gen_phy_plan.cc:1379-1395 | Organizing the pool threads every slot, in order, into the free list; no slot is in use. |
| `Manager.PlanManager.NewOp` | AQSIOSCoordinator/src/metadata/gen_phy_plan.cc:1402-1431 | The first free slot moves to the front of the used list with an empty record; free, used and merged-away slots still partition the pool, and both lists stay acyclic and doubly linked. An exhausted pool changes nothing. The free list must not hold exactly one slot, whose successor is dereferenced. |
| `Manager.PlanManager.FreeOp` | AQSIOSCoordinator/src/metadata/gen_phy_plan.cc:1436-1482 | The slot moves from its place in the used list to the front of the free list; the partition and both lists are kept. |
| `Manager.PlanManager.Unlink` | AQSIOSCoordinator/src/metadata/plan_trans.cc:1169-1172 | Taking a merged operator out of the used list without null checks keeps the lists in order exactly because it is neither first nor last; the slot joins those merged away and never returns to the free list. |
| `Surgery.AddOutput` | AQSIOSCoordinator/src/metadata/plan_trans.cc:764-774 | A reader is added if and only if the record has room; a full record leaves everything as it was. |
| `Surgery.GetOutputIndex` | AQSIOSCoordinator/src/metadata/plan_trans.cc:692-704 | The position found is the first at which the reader stands. |
| `Surgery.GetInputIndex` | AQSIOSCoordinator/src/metadata/plan_trans.cc:706-718 | The position found is the first at which the input stands. |
| `Surgery.ShortCircuitInputOutput` | AQSIOSCoordinator/src/metadata/plan_trans.cc:725-762 | It succeeds if and only if the readers fit into the input's record while the operator still is one of its readers. Then every reader reads the input instead, as often as it read the operator, and inputs and readers still agree with multiplicity. |
| `Surgery.MergeOperators` | AQSIOSCoordinator/src/metadata/plan_trans.cc:1098-1181 | Every reader of op2 reads op1 instead, op2 leaves its inputs' reader lists and the used list, the classes combine to the more urgent one, and inputs and readers still agree with multiplicity. Operators of different classes are left alone when classes may not share. |
| `Rewire.SpliceEdges` | AQSIOSCoordinator/src/metadata/plan_trans.cc:1114-1165 | Cutting an operator out and letting its readers read another keeps "p is an input of c as often as c is a reader of p", for self-joins and repeated readers too. |
| `Rewire.SpliceUnfold` | AQSIOSCoordinator/src/metadata/plan_trans.cc:1098-1181 | Cutting out an operator in favour of one that unfolds to the same tree changes no operator's unfolding, so no cycle appears. |
| `Rewire.SpliceMeaning` | AQSIOSCoordinator/src/metadata/plan_trans.cc:725-762 | If the operator that stays computes what the one cut out computed, every other operator computes what it did. |
| `Compare.ExprEqCorrect` | AQSIOSCoordinator/src/metadata/plan_trans.cc:784-837 | The recursive comparison of expressions is equality of expressions. |
| `Compare.PredEqCorrect` | AQSIOSCoordinator/src/metadata/plan_trans.cc:839-855 | The comparison of predicates is equality. |
| `Compare.CompareProjs` | AQSIOSCoordinator/src/metadata/plan_trans.cc:867-875 | Projections compare equal if and only if they are equal one by one. |
| `Compare.CompareGroupAggrs` | AQSIOSCoordinator/src/metadata/plan_trans.cc:892-915 | Grouping and aggregated attributes compare equal if and only if functions and attributes agree one by one. |
| `Compare.ComparePartnWins` | AQSIOSCoordinator/src/metadata/plan_trans.cc:917-932 | Partition windows compare equal if and only if rows and partition attributes agree. |
| `Compare.ComparePayloads` | AQSIOSCoordinator/src/metadata/plan_trans.cc:857-996 | Kind-specific parts compare equal if and only if they are equal and of a kind that may be shared. |
| `Compare.CompareOperators` | AQSIOSCoordinator/src/metadata/plan_trans.cc:998-1096 | Two operators compare equal if and only if they unfold to the same tree: same kind, parameters, schema, flag and pairwise equal inputs. Hence they compute the same for every source input. |
| `SharingPlan.HeightFalls` | AQSIOSCoordinator/src/metadata/plan_trans.cc:1098-1181 | The height of an operator is determined by its tree, and an operator is higher than its inputs: equal operators have equal heights, so merging never makes an operator read itself. |
| `Sharing.FindSharedOps` | AQSIOSCoordinator/src/metadata/plan_trans.cc:1197-1256 | On a levelled plan whose merged readers fit, every surviving operator computes what it computed, every operator there was is still there or an equal one is, and the loop takes at most one round more than the plan has levels. If classes may share, or equal operators are in one class, no two operators that read from base tables are still equal; and if classes may not share, every operator keeps its class and what disappears stands for its own class. |
| `Sharing.DifferentExactly` | AQSIOSCoordinator/src/metadata/plan_trans.cc:1197-1256 | Sharing leaves no two equal operators that read from base tables if and only if classes may share or such operators were in one class before. |
| `Sharing.SurvivorUrgent` | AQSIOSCoordinator/src/metadata/plan_trans.cc:1098-1112 | If classes may share, what is left of equal operators is as urgent as each of them, and one of them has its class. |
| `Sharing.ShareLevel` | AQSIOSCoordinator/src/metadata/plan_trans.cc:1215-1249 | One round shares a level completely: what remains of the list is pairwise different, and the next list is exactly the readers of what remains. |
| `Sharing.ShareWith` | AQSIOSCoordinator/src/metadata/plan_trans.cc:1219-1232 | Every later operator of the list equal to the i-th is taken off the list, and merged into it if classes allow. |
| `Sharing.Dedup` | AQSIOSCoordinator/src/metadata/plan_trans.cc:1233-1242 | The next list holds every gathered reader exactly once, and nothing else. |
| `SharingPlan.MergeKeepsTerms` | AQSIOSCoordinator/src/metadata/plan_trans.cc:1098-1181 | Merging equal operators changes no tree. |
| `SharingPlan.LoadPair` | AQSIOSCoordinator/src/metadata/plan_trans.cc:1116-1120 | Two equal operators have together no more readers than the group of operators equal to them, which bounds the fan-out of the merged one. |
| `Absorb.TransExprEval` | AQSIOSCoordinator/src/metadata/plan_trans.cc:209-272 | Evaluating an expression on the concatenated tuple equals evaluating its image on the pair of tuples. |
| `Absorb.AbsorbedDen` | AQSIOSCoordinator/src/metadata/plan_trans.cc:288-326 | An operator that took over its reader's work (select into select or join, project into join, query source) computes what the reader computed. |
| `MergePasses.RemoveQuerySources` | AQSIOSCoordinator/src/metadata/plan_trans.cc:135-163 | It succeeds if and only if the readers of every query source fit beside those its input has by then, counted along the list of used operators. Then no query source is left, nothing else has disappeared or changed its work, and every operator receives, input by input, what it received before. |
| `MergePasses.SourceUnreads` | AQSIOSCoordinator/src/metadata/plan_trans.cc:135-163 | Removing a query source never leaves more operators without readers than there were, so the sinks that are needed can be counted beforehand. |
| `MergePasses.MergeSelect` | AQSIOSCoordinator/src/metadata/plan_trans.cc:288-326 | A select is merged if and only if it stands on a select or join that nobody else reads; its conjuncts, translated to positions below the join, become part of that operator's predicate. |
| `MergePasses.MergeSelects` | AQSIOSCoordinator/src/metadata/plan_trans.cc:328-357 | It succeeds if and only if no select that can be merged has as many readers as a record has room for. One pass leaves no select above a select or join that nobody else reads, keeps consumers before producers in the used list, and keeps what every lasting operator receives. |
| `MergePasses.MergeProject` | AQSIOSCoordinator/src/metadata/plan_trans.cc:359-433 | A project is merged if and only if it stands on a join nobody else reads; the join then produces the translated projections. |
| `MergePasses.MergeProjectsToJoin` | AQSIOSCoordinator/src/metadata/plan_trans.cc:435-463 | It succeeds if and only if no project that can be merged has as many readers as a record has room for. One pass leaves no project above a join nobody else reads, keeps what every lasting operator receives, and tells for every operator left whose work it does. |
| `ProjectOrigins.LineageStep` | AQSIOSCoordinator/src/metadata/plan_trans.cc:359-433 | After one more project is merged, every operator left still does the work of one operator there was, with inputs that do the work of its inputs, and no two do the work of the same one. |
| `ProjectOrigins.ProjsInjective` | AQSIOSCoordinator/src/metadata/plan_trans.cc:209-272 | Translating projections to a join loses nothing: projections with equal translations over equal widths are equal. |
| `ProjectOrigins.EqualOrigins` | AQSIOSCoordinator/src/metadata/plan_trans.cc:435-463 | Operators that unfold to one tree after projects were merged do the work of operators that did so before, unless one is a join that had its projections and the other got them now. |
| `ProjectOrigins.StillDifferent` | AQSIOSCoordinator/src/metadata/plan_trans.cc:435-463 | Hence, without such a pair, if no two operators that read from base tables were equal, none are afterwards. |
| `JoinedBefore.MergingMakesEqual` | AQSIOSCoordinator/src/metadata/plan_trans.cc:435-463 | A plan in which no two operators are equal and merging a project makes two equal, because a join has its projection from an earlier pass. |
| `MergePasses.CutOrdered` | AQSIOSCoordinator/src/metadata/plan_trans.cc:328-357 | Cutting an operator out keeps every consumer before its producers in the used list. |
| `Feeding.PassMeaning` | AQSIOSCoordinator/src/metadata/plan_trans.cc:135-463 | After a pass every operator that was not given more to do, in particular every output, produces what it produced before. |
| `Feeding.TookOverMeaning` | AQSIOSCoordinator/src/metadata/plan_trans.cc:288-463 | The operator that took over a reader's work produces what the reader produced. |
| `Build.AddedOrdered` | AQSIOSCoordinator/src/metadata/gen_phy_plan.cc:1402-1431 | Putting a new operator in front of the used list keeps every consumer before its producers. |
| `Build.AddSinks` | AQSIOSCoordinator/src/metadata/plan_trans.cc:165-185 | Every operator that is neither output nor system stream is read by somebody afterwards; only sinks are new, and everything else does what it did. It fails if and only if a sink is needed and no slot is free. |
| `Optimizer.PreparePlan` | AQSIOSCoordinator/src/metadata/plan_mgr_impl.cc:328-345 | Removing query sources, adding sinks and merging selects leaves no query source and no select to merge, and every output delivering the same tuples at every instant, given a free slot more than there are operators nobody reads. |
| `Optimizer.ShareAndProject` | AQSIOSCoordinator/src/metadata/plan_mgr_impl.cc:347-370 | Sharing leaves a plan that represents every operator there was, and merging projects turns that plan into the result; every output delivers the same tuples at every instant. If classes may share, or equal operators are in one class, no two operators of the result that read from base tables unfold to the same tree, if no join had projections before, and otherwise unless such a join equals one that got them now. It succeeds if and only if no project to be merged has as many readers as a record has room for. |
| `Optimizer.EndsUnshareable` | AQSIOSCoordinator/src/metadata/plan_trans.cc:1169-1172 | With consumers before producers, the ends of the used list are of kinds that are never merged, so the missing null checks are harmless. |
| `PhysicalPlan.MeaningWidth` | AQSIOSCoordinator/src/metadata/gen_phy_plan.cc:1180-1221 | Every tuple an operator produces has one value per attribute of its schema. |
| `Histories.ViewsJoinGrows` | AQSIOSCoordinator/src/metadata/gen_phy_plan.cc:592-594 | The join of what two streams have brought so far only grows, so reporting it as a stream never has to retract a tuple. |
| `Histories.CumulateDelta` | AQSIOSCoordinator/src/metadata/gen_phy_plan.cc:592-594 | Reporting a growing state as a stream and accumulating the stream gives back the state. |
| `Growth.StreamsNeverRetract` | AQSIOSCoordinator/src/metadata/gen_phy_plan.cc:592-594 | An operator that has its stream flag from its inputs (select, project, distinct, join, join with project, union, and what passes tuples on) reports exactly what is new in a state that only grows; the state is the operator's own function of its inputs as relations, and accumulating the reports gives it back. |
| `Growth.StreamsRefineRelations` | AQSIOSCoordinator/src/metadata/gen_phy_plan.cc:379-1140 | Reading the whole plan relationally, with every such operator recomputed at every instant from what has arrived, gives what accumulating its stream output gives: processing streams incrementally refines recomputing relations. |
| `Histories.RangeOneIsNow` | AQSIOSCoordinator/src/metadata/gen_phy_plan.cc:318-319 | A range window of one time unit holds exactly the arrivals of the instant. |
| `Build.MkUnary` | AQSIOSCoordinator/src/metadata/gen_phy_plan.cc:1124-1146 | A constructor with one input succeeds if and only if a slot is free and the input has room for a reader; then there is one operator more, everything else unfolds as before, and links, schemas and flags are in order. |
| `Build.MkBinary` | AQSIOSCoordinator/src/metadata/gen_phy_plan.cc:560-670 | The same for two inputs, which may be one operator read twice. |
| `Build.MkSource` | AQSIOSCoordinator/src/metadata/plan_mgr_impl.cc:89-125 | The same for a source, which needs only a free slot. |
| `Extend.ExtendsMeaning` | AQSIOSCoordinator/src/metadata/plan_mgr_impl.cc:197-269 | Adding operators on top never changes what an operator that was there produces. |
| `Extend.AddedPlan` | AQSIOSCoordinator/src/metadata/gen_phy_plan.cc:1194-1205 | An acyclic plan with agreeing links, schemas and flags stays one when an operator is added. |
| `Translate.TransEval` | AQSIOSCoordinator/src/metadata/gen_phy_plan.cc:1252-1352 | Evaluating a translated expression by position gives what evaluating the original by name gives. |
| `Translate.FuseSelects` | AQSIOSCoordinator/src/metadata/gen_phy_plan.cc:400-409 | Filtering by a predicate put in front of a conjunction is filtering by the conjunction and then by the predicate. |
| `Translate.TransUnary` | AQSIOSCoordinator/src/metadata/gen_phy_plan.cc:198-439 | The physical operator of a unary logical operator computes, on the same histories, what the logical one means; Now becomes a range of one time unit, and counting does not depend on the attribute. |
| `Translate.TransBinary` | AQSIOSCoordinator/src/metadata/gen_phy_plan.cc:560-1066 | The physical join, stream join, union or difference computes what the logical operator means. |
| `Compile.CompiledUnary` | AQSIOSCoordinator/src/metadata/gen_phy_plan.cc:198-439 | A translated unary operator over an input that produces what its plan means produces what the whole plan means. |
| `Compile.CompiledBinary` | AQSIOSCoordinator/src/metadata/gen_phy_plan.cc:560-1066 | The same for two inputs. |
| `Compile.CompiledFused` | AQSIOSCoordinator/src/metadata/gen_phy_plan.cc:405-409 | A select whose predicate is put in front of that of a select made for the same plan produces what the plan means. |
| `Compile.CompiledExtends` | AQSIOSCoordinator/src/metadata/plan_mgr_impl.cc:197-269 | A translated plan keeps producing what it means while other queries are added. |
| `GenPhyPlan.TransformAttr` | AQSIOSCoordinator/src/metadata/gen_phy_plan.cc:1252-1276 | The first position of the name in the input's schema is found; for resolving references the last exit is never reached. |
| `GenPhyPlan.TransformExpr` | AQSIOSCoordinator/src/metadata/gen_phy_plan.cc:1304-1352 | The expression with every name replaced by its position. |
| `GenPhyPlan.TransformBExpr` | AQSIOSCoordinator/src/metadata/gen_phy_plan.cc:1278-1302 | The predicate with every name replaced by its position. |
| `GenPhyPlan.ProjectColumns` | AQSIOSCoordinator/src/metadata/gen_phy_plan.cc:509-540 | Every projected column has the type of its expression, and a string the length of the column of that name in the input. |
| `GenPhyPlan.GroupColumns` | AQSIOSCoordinator/src/metadata/gen_phy_plan.cc:727-770 | Grouping columns are those of their names in the input; then comes one column per aggregation, of the output type of its function over the column of that name, or over the first column for a count. |
| `GenPhyPlan.UnionColumns` | AQSIOSCoordinator/src/metadata/gen_phy_plan.cc:963-986 | Column by column the type of the left input, and for strings the longer of the two lengths. |
| `PlanColumns.ColumnTypes` | AQSIOSCoordinator/src/metadata/gen_phy_plan.cc:509-541 | In a plan whose references resolve, every column has the type of its logical attribute, unless it counts; a count has the type of whatever column comes first. |
| `PlanColumns.ColumnRoom` | AQSIOSCoordinator/src/metadata/gen_phy_plan.cc:727-770 | Every column for an attribute of a table has the registered type, and for a string the registered length, through all operators in between; an average is a FLOAT, and a sum, minimum or maximum has the type of its attribute. |
| `PlanColumns.UnionRoom` | AQSIOSCoordinator/src/metadata/gen_phy_plan.cc:963-986 | A string column of a union or difference is as long as the longer of the two it comes from. |
| `GenPhyPlan.UnaryRecord` | AQSIOSCoordinator/src/metadata/gen_phy_plan.cc:198-941 | Record and columns of a unary operator are those its logical operator translates to, types and lengths included. |
| `GenPhyPlan.BinaryRecord` | AQSIOSCoordinator/src/metadata/gen_phy_plan.cc:560-1066 | Record and columns of a binary operator are those its logical operator translates to, types and lengths included. |
| `GenPhyPlan.MkOne` | AQSIOSCoordinator/src/metadata/gen_phy_plan.cc:198-558 | It succeeds if and only if the input has room for a reader. The new operator then has the columns and flag of the plan and produces what the plan means; nobody reads it yet, the input has one reader more, and everything that was there does the same. |
| `GenPhyPlan.MkSelect` | AQSIOSCoordinator/src/metadata/gen_phy_plan.cc:379-439 | A select over a select made for this plan becomes its first conjunct, which always succeeds; otherwise it gets an operator of its own if and only if the input has room for a reader. Either way the result produces what the plan means and no operator of another query changes. |
| `GenPhyPlan.MkTwo` | AQSIOSCoordinator/src/metadata/gen_phy_plan.cc:560-670 | It succeeds if and only if both inputs have room for a reader, for two if they are the same. The new binary operator then produces what the plan means, and everything that was there does the same. |
| `GenPhyPlan.FindSource` | AQSIOSCoordinator/src/metadata/gen_phy_plan.cc:132-196 | The operator of the first registration of the table. |
| `Readers.KidNoRoom` | AQSIOSCoordinator/src/metadata/gen_phy_plan.cc:46-55 | If an input cannot be translated for lack of room after the inputs before it were, the plan as a whole gives some source more readers than it has room for. |
| `Readers.RootGained` | AQSIOSCoordinator/src/metadata/gen_phy_plan.cc:1180-1221 | The readers the sources have gained after the root is linked are those counted on the logical plan. |
| `GenPhyPlan.GenPhysicalPlan` | AQSIOSCoordinator/src/metadata/gen_phy_plan.cc:30-130 | It succeeds if and only if all products are binary and every source has room for the readers the plan gives it, counted on the logical plan. The operator returned then has the columns and flag of the logical plan and produces what the plan means under every interpretation that agrees with the sources. It is a source that was there or an operator nobody reads, no operator that was there changed kind, schema, inputs, parameters or class, and consumers are still listed before producers. |
| `Register.Registry.constructor` | AQSIOSCoordinator/src/metadata/plan_mgr_impl.cc:20-78 | The plan starts with the system stream in class 1, registered as the source of its table. |
| `Register.Registry.AddBaseTable` | AQSIOSCoordinator/src/metadata/plan_mgr_impl.cc:89-163 | It succeeds if and only if a slot is free and attributes, base tables and tables are within their limits; then the table is read from a new source with its registered columns and everything that was there does the same. |
| `Register.Registry.AddLogicalQueryPlan` | AQSIOSCoordinator/src/metadata/plan_mgr_impl.cc:197-269 | Registration succeeds if and only if products are binary, sources have room for all the readers the query gives them, and queries and outputs are within their limits. Then the query's result, and its output if wanted, produce what the plan means; every operator that was there does the same, and the output's class has been spread over exactly what it reads from. |
| `Register.Registry.Map` | AQSIOSCoordinator/src/metadata/plan_mgr_impl.cc:271-323 | A query's result becomes readable as a table if and only if the query is known, its columns are exactly the registered ones in type and length, and there is room; otherwise nothing changes. The registry stays in order if and only if the table is declared a stream exactly when the query gives one, which nothing checks. |
| `Register.SpreadRight` | AQSIOSCoordinator/src/metadata/plan_mgr_impl.cc:256-262 | Registering a query keeps every class the smallest of the registered outputs reading from the operator. |
| `QueryClasses.AddQueryClasses` | AQSIOSCoordinator/src/metadata/plan_mgr_impl.cc:166-193 | Spreading class c lowers the class of exactly the operators the start reads from, directly or not, to at most c, in spite of ending early at operators with a class at least as urgent. |
| `QueryClasses.ClassBounds` | AQSIOSCoordinator/src/metadata/plan_mgr_impl.cc:170-178 | Below an operator with a class every operator has a class that is no larger: the reason the early end is right. |
| `QueryClasses.LeastIsMinimum` | AQSIOSCoordinator/src/metadata/plan_mgr_impl.cc:166-193 | The class an operator should have bounds the classes of all registered outputs that read from it, and is one of them unless it is the initial class. |
| `QueryClasses.RunRight` | AQSIOSCoordinator/src/metadata/plan_mgr_impl.cc:166-193 | After any run of registrations and growth every operator has the smallest class of the registered outputs reading from it, 0 if there is none, and 1 at most for the system stream. |
| `LogicalOps.Pool.NewOp` | AQSIOSCoordinator/src/querygen/logop.cc:55-74 | Slots are handed out in order until the pool is exhausted, which changes nothing. |
| `LogicalOps.Pool.MkSource` | AQSIOSCoordinator/src/querygen/logop.cc:116-175 | The new source stands as a plan whose schema lists the attributes of its table under the variable, in order. |
| `LogicalOps.Pool.MkUnary` | AQSIOSCoordinator/src/querygen/logop.cc:178-311 | The new operator stands as a plan over the given one: links agree both ways, schema and stream flag are those its input determines, and only the input's output link changed. |
| `LogicalOps.Pool.MkBare` | AQSIOSCoordinator/src/querygen/logop.cc:314-431 | The same for a project or aggregation that has no columns yet. |
| `LogicalOps.Pool.AddProjectExpr` | AQSIOSCoordinator/src/querygen/logop.cc:337-365 | One more projection, named if it is a reference, if and only if there is room. |
| `LogicalOps.Pool.AddGroupAttr` | AQSIOSCoordinator/src/querygen/logop.cc:434-452 | One more grouping attribute if and only if there is room. |
| `LogicalOps.Pool.AddAggr` | AQSIOSCoordinator/src/querygen/logop.cc:455-491 | One more aggregate, named after attribute and function, if and only if there is room. |
| `LogicalOps.Pool.PartnWindowAddAttr` | AQSIOSCoordinator/src/querygen/logop.cc:274-287 | One more partition attribute if and only if there is room. |
| `LogicalOps.Pool.MkCross` | AQSIOSCoordinator/src/querygen/logop.cc:368-379 | A cross product without inputs: no columns, and a stream. |
| `LogicalOps.Pool.CrossAddInput` | AQSIOSCoordinator/src/querygen/logop.cc:382-409 | One more input if and only if its columns and the input fit; the schema grows by the input's, and the product is a stream only if all inputs are. |
| `LogicalOps.Pool.MkStreamCross` | AQSIOSCoordinator/src/querygen/logop.cc:581-606 | A stream cross product with its stream input, whose schema it has. |
| `LogicalOps.Pool.StreamCrossAddInput` | AQSIOSCoordinator/src/querygen/logop.cc:609-633 | One more input if and only if its columns and the input fit; the schema grows by the input's. |
| `LogicalOps.Pool.MkBinary` | AQSIOSCoordinator/src/querygen/logop.cc:666-726 | Union and difference have the types of the left input without names; a union is a stream if both inputs are, a difference never. |
| `Updates.UpdateSchema` | AQSIOSCoordinator/src/querygen/logop.cc:728-771 | Recomputing schemas from a changed operator up, and ending where a schema no longer follows its inputs, leaves every stored schema the one its inputs determine. |
| `Updates.UpdateStream` | AQSIOSCoordinator/src/querygen/logop.cc:773-824 | The same for stream flags. |
| `TransformSelect.CheckReference` | AQSIOSCoordinator/src/querygen/logop.cc:855-888 | True if and only if every attribute of the expression is in the operator's schema. |
| `LogicalPlan.FindUnique` | AQSIOSCoordinator/src/querygen/log_plan_gen.cc:166-191 | In a schema of unique names, a name is found at its position; attributes without a name equal nothing. |
| `LogicalPlan.GraftAlike` | AQSIOSCoordinator/src/querygen/log_plan_gen.cc:19-73 | Replacing a part of a plan by one with the same schema, flag and output leaves the plan with the same schema, flag and output. |
| `LogicalPlan.MeaningWidth` | AQSIOSCoordinator/src/querygen/logop.cc:76-105 | Every tuple of a well-formed plan has one value per attribute of its schema. |
| `RewriteNow.RstreamNowAlike` | AQSIOSCoordinator/src/querygen/log_plan_gen.cc:86-161 | Over selects and projects, Rstream(f(S[Now])) and f(S) have the same schema, flag and output. |
| `RewriteNow.RstreamNowExactly` | AQSIOSCoordinator/src/querygen/log_plan_gen.cc:104-125 | Removing the pair keeps the output under every interpretation if and only if no distinct is on the path; with a distinct, an interpretation that tells the plans apart is given. |
| `TransformNow.RstreamNow` | AQSIOSCoordinator/src/querygen/log_plan_gen.cc:86-161 | The links, flags and root are changed to those of the plan without the two operators, if and only if the plan has the pattern; otherwise nothing changes. |
| `RewriteCross.StreamedMoved` | AQSIOSCoordinator/src/querygen/log_plan_gen.cc:292-393 | Above the cross product the rewritten plan has the same tuples with the stream's columns moved to the front, in schema and tuples alike; from the first project on nothing differs. |
| `RewriteCross.StreamCrossAlike` | AQSIOSCoordinator/src/querygen/log_plan_gen.cc:292-393 | Under an Rstream, and over selects and at least one project, replacing the cross product by a stream cross product keeps schema, flag and output. |
| `ExactStreams.StreamCrossExactly` | AQSIOSCoordinator/src/querygen/log_plan_gen.cc:311-331 | Given a project above it, the replacement keeps the output under every interpretation if and only if only selects and projects are above the cross product (no distinct, no aggregation) or one of its inputs is a window of no time, so that the product is always empty. |
| `Products.ProductFirst` | AQSIOSCoordinator/src/querygen/log_plan_gen.cc:349-367 | Moving a factor to the front of an n-way product moves its columns to the front and changes nothing else. |
| `TransformCross.MakeStreamCross` | AQSIOSCoordinator/src/querygen/log_plan_gen.cc:292-393 | The pool holds the rewritten plan with schemas and flags up to date; it fails if and only if the pattern is there and no slot is left or the product has too many inputs. |
| `RewriteProject.ProjectRemovedAlike` | AQSIOSCoordinator/src/querygen/log_plan_gen.cc:225-277 | Removing a project whose columns have the names of its input's keeps schema, flag and output, given that equal names hold equal values. |
| `RewriteProject.GroupTells` | AQSIOSCoordinator/src/querygen/log_plan_gen.cc:193-207 | Below an aggregation repeated names hold equal values even if an attribute is grouped by twice. |
| `TransformProject.IsUselessProject` | AQSIOSCoordinator/src/querygen/log_plan_gen.cc:193-207 | True if and only if the columns of the project have, one by one, the names of its input's columns. |
| `TransformProject.RemoveProject` | AQSIOSCoordinator/src/querygen/log_plan_gen.cc:225-277 | The first project below operators that keep the schema is taken out if and only if it is useless; links and root stay consistent. |
| `RewriteBinary.LeftDeepAlike` | AQSIOSCoordinator/src/querygen/log_plan_gen.cc:452-476 | The left-deep tree of binary products has the schema, flag and output of the n-way product, for cross products of streams and relations in any mix and for stream cross products. |
| `RewriteBinary.MadeBinaryAlike` | AQSIOSCoordinator/src/querygen/log_plan_gen.cc:405-579 | Making the first product of a plan binary keeps schema, flag and output. |
| `TransformBinary.MakeBinary` | AQSIOSCoordinator/src/querygen/log_plan_gen.cc:405-579 | The pool holds the plan with the product made binary, for either kind of product; it fails if and only if the slots do not suffice. |
| `TransformSelect.CanBePushed` | AQSIOSCoordinator/src/querygen/log_plan_gen.cc:585-616 | A select can go below another select, or below a product into the first input that has all its attributes; the position found is that input's. |
| `RewriteSelect.PushAlike` | AQSIOSCoordinator/src/querygen/log_plan_gen.cc:623-697 | Putting a select in as deep as it can go gives the schema, flag and output of putting it on top. |
| `RewriteSelect.SelectsPushedAlike` | AQSIOSCoordinator/src/querygen/log_plan_gen.cc:711-789 | Pushing all selects keeps schema, flag and output. |
| `TransformSelect.PushSelect` | AQSIOSCoordinator/src/querygen/log_plan_gen.cc:623-697 | A copy of the select is put in as deep as it can go if and only if that is below a product; parent and child links agree afterwards. |
| `TransformSelect.PushSelects` | AQSIOSCoordinator/src/querygen/log_plan_gen.cc:711-789 | The pool holds the plan with every select in turn pushed and the original taken out. |
| `PushedForm.SelectsPushedSettled` | AQSIOSCoordinator/src/querygen/log_plan_gen.cc:748-786 | At the end no select has, as its first descendant that is not a select, a product with one input supplying all its attributes. |
| `PushedForm.SelectsPushedPreds` | AQSIOSCoordinator/src/querygen/log_plan_gen.cc:748-786 | The multiset of predicates is what it was. |
| `Stacks.StackedBinary` | AQSIOSCoordinator/src/querygen/log_plan_gen.cc:405-579 | A plan of the rewriter's form has only binary products and nothing but settled operators below its first selects. |
| `Bypass.TakeOut` | AQSIOSCoordinator/src/querygen/log_plan_gen.cc:254-267 | Taking out an operator with the schema and flag of its input leaves consistent links, also at the root. |
| `Bypass.Place` | AQSIOSCoordinator/src/querygen/log_plan_gen.cc:370-379 | A prepared part takes the place of an operator under its reader or at the root. |
| `LogPlanGen.RewrittenForm` | AQSIOSCoordinator/src/querygen/log_plan_gen.cc:19-73 | After all rewriting every product is binary, no select could be pushed further, no project below operators that keep the schema gives just the columns of its input, no Rstream stands over only selects, projects and distincts above a Now window, nor over a cross product with a Now input that the search reaches; and the predicates are those of the naive plan. |
| `LogPlanGen.AfterStreamsNeeded` | AQSIOSCoordinator/src/querygen/log_plan_gen.cc:86-161 | After the two stream rewrites neither pattern with a Now window is left below an Rstream. |
| `FinalForm.ProductStreamable` | AQSIOSCoordinator/src/querygen/log_plan_gen.cc:301-343 | In a plan of the rewriter's form the search reaches every cross product with a Now input that it is meant for. |
| `FinalForm.RemovedIdle` | AQSIOSCoordinator/src/querygen/log_plan_gen.cc:225-277 | Where there is at most one project below operators that keep the schema, removing a useless one leaves none that gives just the columns of its input. |
| `FinalForm.SelectsPushedIdle` | AQSIOSCoordinator/src/querygen/log_plan_gen.cc:711-789 | Making products binary and pushing selects brings no such project back, since they keep the schema of what is below it. |
| `LogPlanGen.GenLogPlan` | AQSIOSCoordinator/src/querygen/log_plan_gen.cc:19-73 | It fails if and only if joined tables or aggregations do not fit into an operator; otherwise the pool holds the rewritten naive plan, in which nothing of that is left and whose predicates are those of the naive plan, and it never runs out of slots on the way. |
| `WholeRewrite.RewritingKeepsMeaning` | AQSIOSCoordinator/src/querygen/log_plan_gen.cc:19-73 | For every accepted harmless query the rewritten plan has the schema of the naive plan and produces the same tuples in the same column order at every instant. |
| `WholeRewrite.RewritingExactly` | AQSIOSCoordinator/src/querygen/log_plan_gen.cc:19-73 | The rewritten plan computes what the naive plan computes under every interpretation if and only if the query is harmless (under an Rstream with a Now window no distinct, and over several tables no aggregation) or joins a window of no time. |
| `WholeRewrite.DistinctNowChanged` | AQSIOSCoordinator/src/querygen/log_plan_gen.cc:104-125 | The query SELECT RSTREAM DISTINCT a FROM S [NOW] is rewritten to one with another output; the interpretation that tells them apart is given. |
| `WholeRewrite.HarmlessPlain` | AQSIOSCoordinator/src/querygen/log_plan_gen.cc:104-125 | The condition on the query holds if and only if the searches in its naive plan find nothing but selects and projects. |
| `NaivePlan.CollectedHas` | AQSIOSCoordinator/src/querygen/log_naive_plan_gen.cc:411-479 | Collecting keeps what is in the list and adds every aggregation the expression uses, each once and nothing else. |
| `NaivePlan.CollectedAllHas` | AQSIOSCoordinator/src/querygen/log_naive_plan_gen.cc:503-510 | The aggregations collected from all projections are exactly those the projections use, each once. |
| `NaivePlan.JoinPlanShape` | AQSIOSCoordinator/src/querygen/log_naive_plan_gen.cc:294-374 | The joined tables have the attributes of all FROM tables, in order, under unique names; the references of their windows resolve if and only if partition windows of streams are over their own attributes. |
| `NaivePlan.GroupedResolves` | AQSIOSCoordinator/src/querygen/log_naive_plan_gen.cc:484-536 | Every reference of a projection over the aggregation operator resolves. |
| `NaivePlan.SfwPlanSound` | AQSIOSCoordinator/src/querygen/log_naive_plan_gen.cc:249-288 | In the naive plan of an accepted query every reference resolves in the schema of its operator's input, windows read streams, and products have unique names. |
| `QuerySemantics.FindPlace` | AQSIOSCoordinator/src/querygen/log_naive_plan_gen.cc:694-705 | An attribute of a FROM table is found in the joined tables at its own position after the columns of the tables before it. |
| `QuerySemantics.RowEval` | AQSIOSCoordinator/src/querygen/log_naive_plan_gen.cc:760-814 | An expression of the plan has in a row of the product the value the query gives it: attributes by table and position, operations on left and right in order. |
| `QuerySemantics.CollectedMentions` | AQSIOSCoordinator/src/querygen/log_naive_plan_gen.cc:411-479 | The aggregations collected are those the projections mention, in the order in which each occurs first. |
| `QuerySemantics.GroupEval` | AQSIOSCoordinator/src/querygen/log_naive_plan_gen.cc:760-814 | An expression over the aggregation operator has the value the query gives it for the group: grouping attributes and aggregations at their places. |
| `QuerySemantics.TableShows` | AQSIOSCoordinator/src/querygen/log_naive_plan_gen.cc:625-676 | The plan of a FROM table shows the relation that its window makes of the stream, or the relation itself. |
| `QuerySemantics.JoinShows` | AQSIOSCoordinator/src/querygen/log_naive_plan_gen.cc:294-374 | The plan of the FROM clause shows the product of these relations in order, and is a stream exactly if every table is an unwindowed stream. |
| `QuerySemantics.WhereShows` | AQSIOSCoordinator/src/querygen/log_naive_plan_gen.cc:379-396 | The selects leave the rows for which every condition of the query holds. |
| `QuerySemantics.RowsShow` | AQSIOSCoordinator/src/querygen/log_naive_plan_gen.cc:484-536 | With grouping or aggregations there is one row per group of what the conditions leave, computed at the places of the attributes; otherwise the rows themselves. |
| `QuerySemantics.SelectedShow` | AQSIOSCoordinator/src/querygen/log_naive_plan_gen.cc:548-568 | The project gives the values of the SELECT expressions, in order. |
| `QuerySemantics.ReportShows` | AQSIOSCoordinator/src/querygen/log_naive_plan_gen.cc:590-619 | What the top of the plan reports is what the query asks for: the state, what is new in it, or what is gone from it. |
| `QuerySemantics.SfwMeans` | AQSIOSCoordinator/src/querygen/log_naive_plan_gen.cc:249-288 | The naive plan of an accepted query computes what the query means, defined without plans: windows, product, conditions, groups, projections, distinct, and what is reported. |
| `QuerySemantics.BinaryMeans` | AQSIOSCoordinator/src/querygen/log_naive_plan_gen.cc:214-247 | The plan of a union or difference computes the union or difference of its two tables. |
| `NaiveGen.GetSource` | AQSIOSCoordinator/src/querygen/log_naive_plan_gen.cc:681-691 | A stream or relation source for the table under the variable. |
| `NaiveGen.ApplyWindow` | AQSIOSCoordinator/src/querygen/log_naive_plan_gen.cc:625-676 | The window the query specifies; an unbounded one is nothing at all. |
| `NaiveGen.JoinTables` | AQSIOSCoordinator/src/querygen/log_naive_plan_gen.cc:294-374 | The join of the FROM tables in order, each with its window; it fails if and only if several tables have too many attributes together or are too many. |
| `NaiveGen.ApplyPreds` | AQSIOSCoordinator/src/querygen/log_naive_plan_gen.cc:379-396 | One select per predicate, the first lowest. |
| `NaiveGen.CollectAggrs` | AQSIOSCoordinator/src/querygen/log_naive_plan_gen.cc:411-479 | The list with the aggregations of the expression it did not have, or failure if and only if these do not fit. |
| `NaiveGen.ApplyAggr` | AQSIOSCoordinator/src/querygen/log_naive_plan_gen.cc:484-536 | An aggregation operator with the grouping attributes and collected aggregations if and only if the query groups or aggregates. |
| `NaiveGen.DoProjs` | AQSIOSCoordinator/src/querygen/log_naive_plan_gen.cc:548-568 | A project with the SELECT expressions in order. |
| `NaiveGen.ApplyDistinct` | AQSIOSCoordinator/src/querygen/log_naive_plan_gen.cc:573-583 | A distinct if and only if the query asks for one. |
| `NaiveGen.ApplyR2S` | AQSIOSCoordinator/src/querygen/log_naive_plan_gen.cc:590-619 | The relation-to-stream operator of the query. |
| `NaiveGen.GenSfwPlan` | AQSIOSCoordinator/src/querygen/log_naive_plan_gen.cc:249-288 | The naive plan of a select-from-where query, or failure if and only if joined tables or aggregations do not fit. |
| `NaiveGen.GenBinOpPlan` | AQSIOSCoordinator/src/querygen/log_naive_plan_gen.cc:214-247 | The naive plan of a union or difference of two tables. |
| `NaiveGen.GenPlan` | AQSIOSCoordinator/src/querygen/log_naive_plan_gen.cc:189-212 | The naive plan of a query of either kind. |
| `SemInterp.Interpreter.AddSymbolTableEntry` | AQSIOSCoordinator/src/querygen/sem_interp.cc:134-161 | A variable is added if and only if the table is known, its name is not taken, and there is room. |
| `SemInterp.Interpreter.GetReferencedTables` | AQSIOSCoordinator/src/querygen/sem_interp.cc:170-222 | It succeeds if and only if the FROM tables are known, go by different names and fit; then the symbol table has them in order, each under its alias, or under its own name if it has none, with the first table of that name. |
| `SemInterp.Interpreter.InterpretVarName` | AQSIOSCoordinator/src/querygen/sem_interp.cc:288-297 | A variable of the name is found if and only if there is one. |
| `SemInterp.Interpreter.InterpretAttr` | AQSIOSCoordinator/src/querygen/sem_interp.cc:312-375 | It succeeds if and only if exactly one variable has a table with a column of the name (and goes by the qualifier, if there is one); the result is that variable and the first position at which its table has the name. |
| `SemInterp.AliasHides` | AQSIOSCoordinator/src/querygen/sem_interp.cc:202-210 | A qualified attribute belongs to a table that has the qualifier as its alias, or as its name and no alias: an alias hides the name. |
| `SemInterp.Interpreter.InterpretExpr` | AQSIOSCoordinator/src/querygen/sem_interp.cc:385-496 | It succeeds if and only if some expression says what the parse tree says, with every name resolved and every operation on two values of one type; that is the result, and its attributes belong to FROM tables. |
| `Resolution.TypesAgree` | AQSIOSCoordinator/src/querygen/sem_interp.cc:385-496 | The type interpretation gives an expression is the type it has in the plan. |
| `SemInterp.Interpreter.InterpretCondn` | AQSIOSCoordinator/src/querygen/sem_interp.cc:503-531 | It succeeds if and only if both sides can be resolved and have the same type. |
| `SemInterp.Interpreter.InterpretWin` | AQSIOSCoordinator/src/querygen/sem_interp.cc:660-695 | The window with its names resolved and its length in seconds, if and only if its names resolve and fit; no window means unbounded. |
| `SemInterp.UnitsOfTime` | AQSIOSCoordinator/src/querygen/sem_interp.cc:537-579 | Sixty of a unit of time are one of the next, twenty-four hours a day, and without a unit it is seconds. |
| `SemInterp.Interpreter.InterpretFromClause` | AQSIOSCoordinator/src/querygen/sem_interp.cc:735-804 | It succeeds if and only if every stream has a window that can be read and no relation has one. The variable of every FROM table is its own position, so the variables are pairwise distinct; a stream gets its own window, a relation is left with that of the table before it. |
| `SemInterp.Interpreter.InterpretWhereClause` | AQSIOSCoordinator/src/querygen/sem_interp.cc:810-839 | Every condition is resolved, in order, if and only if each can be and they are within the limit. |
| `SemInterp.Interpreter.InterpretStar` | AQSIOSCoordinator/src/querygen/sem_interp.cc:877-916 | A star stands for all attributes of all FROM tables, in order, if and only if these are within the limit of projections. |
| `Resolution.StarColumns` | AQSIOSCoordinator/src/querygen/sem_interp.cc:877-916 | The k-th projection of a star is, in the plan, the k-th column of the joined tables. |
| `SemInterp.Interpreter.InterpretSelectClause` | AQSIOSCoordinator/src/querygen/sem_interp.cc:922-963 | The projections of the clause, resolved and in order, or those of a star, if and only if each can be resolved and they are within the limit. |
| `SemInterp.Interpreter.InterpretQuery` | AQSIOSCoordinator/src/querygen/sem_interp.cc:1006-1090 | A parse tree is accepted if and only if some query within the limits, over variables that stand for the FROM tables, says what it says; the result is such a query, and every attribute in it belongs to a FROM table. |
| `Resolution.ReferencesResolve` | AQSIOSCoordinator/src/querygen/sem_interp.cc:1006-1090 | In the naive plan of an interpreted query every reference resolves if and only if the query passes what interpretation leaves unchecked: no aggregation in predicates, partition windows of streams over their own attributes, and with grouping only grouping attributes outside of aggregations. |
| `Resolution.AcceptedInVain` | AQSIOSCoordinator/src/querygen/sem_interp.cc:810-839 | SELECT a FROM R WHERE COUNT(*) = 1 is accepted by the interpretation, and its naive plan has a reference that does not resolve. |
| `EndToEnd.GeneratedTranslatable` | AQSIOSCoordinator/src/metadata/plan_mgr_impl.cc:197-209 | The generated plan of an accepted query over registered tables can be translated: references resolve, products are binary, tables are found. |
| `EndToEnd.QueryPlanMeans` | AQSIOSCoordinator/src/querygen/log_plan_gen.cc:19-28 | The naive plan of an accepted query of either kind computes what the query means. |
| `EndToEnd.GeneratedExactly` | AQSIOSCoordinator/src/querygen/log_plan_gen.cc:19-73 | The generated plan computes what the query means under every interpretation if and only if the query is harmless or joins a window of no time. |
| `EndToEnd.QueryAnswered` | AQSIOSCoordinator/src/metadata/plan_mgr_impl.cc:197-269 | The operator a harmless query was compiled to produces what the query means, at every instant and in the same column order. |
| `EndToEnd.OutputAnswered` | AQSIOSCoordinator/src/metadata/plan_mgr_impl.cc:328-370 | After both halves of the optimizer the output of a harmless query is still there and delivers what the query means, at every instant and in the same column order. |

## Left out

- Manager.PlanManager.NewOp: requires that the free list does not hold exactly one operator, because the code then dereferences a null pointer (gen_phy_plan.cc:1414-1416).
- Manager.PlanManager.Unlink: requires an operator with two neighbours in the used list; `Optimizer.EndsUnshareable` shows that merged operators have them.
- Sharing.FindSharedOps: requires a plan in which all inputs of an operator are at one distance from the sources, and room for the readers that merging brings together; the code checks neither. Completeness is about operators that read from base tables, since the rounds start there.
- Optimizer.ShareAndProject: takes the levels of the plan as an argument that only the proof uses, and has the same requirements.
- Optimizer.PreparePlan: requires one free operator more than there are operators nobody reads, if there are any, so that no call of `new_op` empties the free list; `Build.AddSinks` likewise, or no free operator at all.
- LogicalOps.Pool.AddAggr: requires room for one more column, because nothing in the code checks that grouping attributes and aggregates fit into the schema together (logop.cc:478).
- NaiveGen.DoProjs: requires no more projections than a schema has room for; the interpretation lets up to 50 through, and with more than 10 the code dereferences a null pointer.
- GenPhyPlan.GenPhysicalPlan: says nothing about the plan after a failure part-way, and requires enough free operators.
- GenPhyPlan.FindSource: requires the table to be registered, which the code asserts.
- Register.Registry.AddLogicalQueryPlan: assumes that free operators have no class, since `new_op` does not reset it.
- ExactStreams.StreamCrossExactly: requires sources and windows over sources as inputs, as the naive plan has them, and is about interpretations in which grouping twice by one attribute gives two equal columns and an aggregation of no tuples does not depend on the columns it would look at; `WholeRewrite.RewritingExactly` as well.
- WholeRewrite.RewritingKeepsMeaning: assumes that grouping twice by one attribute gives two equal columns.
- SemInterp.Interpreter.InterpretWin: time lengths are not limited to the width of an unsigned integer.
- SemInterp.Interpreter.InterpretQuery: which error is reported is not stated, only when there is one.
- The asserts, some of which are stricter by one than the checks (gen_phy_plan.cc:502, 1210): modelled as absent.
- Pools of expressions and predicates, and the type stored with every expression: expressions are values, and their types are computed from the tables.
- Predicate lists with a null pointer: modelled as empty lists, so comparing two joins without predicate does not dereference anything.
- The output array of an operator: modelled as a sequence of at most ten readers.
- Which type a union gives if the types of its inputs differ, which the code asserts not to happen: that of the left input.
- Failure paths that return part-way through a change of links: only what successful returns leave is stated, except where the table says that nothing changes.
- The interpretation of binary queries (sem_interp.cc:224-256, 978-1004): a union or difference starts from two tables of the same width.
- Overflow and floating-point arithmetic, string contents: values are abstract and evaluation is total.
- `t_removeIstream`, `addIntAggrs`, `mk_dummy_project`, drop operators and the `_mon` variants: not reached by the compiler.
- Parsing, printing and logging of plans, sockets, threads, the migration loop, the load manager, file input and output, server wiring: not part of the compiler.
