/** What the SQL generator promises: which tables resolve, which error a failing compilation
    reports, what a where tree means, and the shape of every clause of a successful compile. */
module SqlBuilderProps {
  import opened Results
  import opened SqlModel
  import opened SqlBuilder

  /** The column a field names, on the table registered under the field's table name. */
  function FieldColumn(f: Field): Column {
    Column(Table(f.table), f.rawName)
  }

  // ---------------------------------------------------------------------------------------
  // Registered tables

  lemma {:induction false} JoinSidesMembers(js: seq<JoinTable>, t: string)
    ensures t in JoinSides(js) <==>
            exists i :: 0 <= i < |js| && (js[i].leftTable == t || js[i].rightTable == t)
    decreases |js|
  {
    if |js| > 0 {
      var init := js[..|js| - 1];
      JoinSidesMembers(init, t);
      assert forall i :: 0 <= i < |init| ==> init[i] == js[i];
      if t in JoinSides(js) && t !in JoinSides(init) {
        assert js[|js| - 1].leftTable == t || js[|js| - 1].rightTable == t;
      }
    }
  }

  /** The registry holds exactly the from-table and both sides of every join, each under its own
      name, and a lookup of anything else fails naming that table. */
  lemma RegistryLookup(c: SqlConfig, t: string)
    ensures t in Registry(c) <==>
            (c.fromTable != "" && t == c.fromTable) ||
            exists i :: 0 <= i < |c.joinTables| && (c.joinTables[i].leftTable == t || c.joinTables[i].rightTable == t)
    ensures LookupTable(Registry(c), t) ==
            if t in RegisteredNames(c) then Ok(Table(t)) else Err(TableNotRegistered(t))
  {
    JoinSidesMembers(c.joinTables, t);
  }

  // ---------------------------------------------------------------------------------------
  // Where trees

  /** The tree mentions table `t` in one of its leaves. */
  ghost predicate ReferencesTable(w: WhereCondition, t: string)
    decreases w
  {
    match w
    case Leaf(_, c) => c.field.table == t
    case Group(_, cs) => exists i :: 0 <= i < |cs| && ReferencesTable(cs[i], t)
  }

  /** The tree uses operator `op` in one of its leaves. */
  ghost predicate UsesOperator(w: WhereCondition, op: Operator)
    decreases w
  {
    match w
    case Leaf(_, c) => c.operator == op
    case Group(_, cs) => exists i :: 0 <= i < |cs| && UsesOperator(cs[i], op)
  }

  /** Every leaf names a registered table and an operator with a handler. */
  ghost predicate Compilable(m: map<string, Table>, w: WhereCondition)
    decreases w
  {
    match w
    case Leaf(_, c) => c.field.table in m && OperatorHandler(c.operator).Some?
    case Group(_, cs) => forall i :: 0 <= i < |cs| ==> Compilable(m, cs[i])
  }

  /** The tree has at least one leaf. */
  ghost predicate HasLeaf(w: WhereCondition)
    decreases w
  {
    match w
    case Leaf(_, _) => true
    case Group(_, cs) => exists i :: 0 <= i < |cs| && HasLeaf(cs[i])
  }

  /** Every group, at every depth, has at least one child. */
  ghost predicate NonEmptyGroups(w: WhereCondition)
    decreases w
  {
    match w
    case Leaf(_, _) => true
    case Group(_, cs) => |cs| > 0 && forall i :: 0 <= i < |cs| ==> NonEmptyGroups(cs[i])
  }

  /** A where tree compiles exactly when every leaf compiles. */
  lemma {:induction false} EvalWhereOk(m: map<string, Table>, w: WhereCondition)
    ensures EvalWhere(m, w).Ok? <==> Compilable(m, w)
    decreases w, 1, 0
  {
    match w
    case Leaf(_, c) =>
    case Group(_, cs) => FoldPrefixOk(m, w, |cs|);
  }

  lemma {:induction false} FoldPrefixOk(m: map<string, Table>, w: WhereCondition, k: nat)
    requires w.Group? && k <= |w.conditions|
    ensures FoldPrefix(m, w, k).Ok? <==> forall i :: 0 <= i < k ==> Compilable(m, w.conditions[i])
    decreases w, 0, k
  {
    if k > 0 {
      FoldPrefixOk(m, w, k - 1);
      EvalWhereOk(m, w.conditions[k - 1]);
    }
  }

  /** A failing where tree reports an unregistered table it mentions, or an operator without a
      handler that one of its leaves uses. */
  lemma {:induction false} EvalWhereErr(m: map<string, Table>, w: WhereCondition)
    requires EvalWhere(m, w).Err?
    ensures var e := EvalWhere(m, w).error;
            (e.TableNotRegistered? && e.table !in m && ReferencesTable(w, e.table)) ||
            (e.UnsupportedOperator? && OperatorHandler(e.operator).None? && UsesOperator(w, e.operator))
    decreases w, 1, 0
  {
    match w
    case Leaf(_, c) =>
    case Group(_, cs) => FoldPrefixErr(m, w, |cs|);
  }

  lemma {:induction false} FoldPrefixErr(m: map<string, Table>, w: WhereCondition, k: nat)
    requires w.Group? && k <= |w.conditions|
    requires FoldPrefix(m, w, k).Err?
    ensures var e := FoldPrefix(m, w, k).error;
            (e.TableNotRegistered? && e.table !in m && ReferencesTable(w, e.table)) ||
            (e.UnsupportedOperator? && OperatorHandler(e.operator).None? && UsesOperator(w, e.operator))
    decreases w, 0, k
  {
    if FoldPrefix(m, w, k - 1).Err? {
      FoldPrefixErr(m, w, k - 1);
    } else {
      EvalWhereErr(m, w.conditions[k - 1]);
    }
  }

  /** The fold is the empty criterion (and no WHERE clause is added) exactly when the tree has no leaf. */
  lemma {:induction false} EvalWhereEmpty(m: map<string, Table>, w: WhereCondition)
    requires EvalWhere(m, w).Ok?
    ensures EvalWhere(m, w).value == EmptyCriterion <==> !HasLeaf(w)
    decreases w, 1, 0
  {
    match w
    case Leaf(_, c) =>
    case Group(_, cs) => FoldPrefixEmpty(m, w, |cs|);
  }

  lemma {:induction false} FoldPrefixEmpty(m: map<string, Table>, w: WhereCondition, k: nat)
    requires w.Group? && k <= |w.conditions|
    requires FoldPrefix(m, w, k).Ok?
    ensures FoldPrefix(m, w, k).value == EmptyCriterion <==>
            forall i :: 0 <= i < k ==> !HasLeaf(w.conditions[i])
    decreases w, 0, k
  {
    if k > 0 {
      FoldPrefixEmpty(m, w, k - 1);
      EvalWhereEmpty(m, w.conditions[k - 1]);
    }
  }

  /** Truth of a compiled predicate, given the truth `u` of its basic comparisons. */
  ghost predicate Holds(p: Criterion, u: Criterion -> bool) {
    match p
    case EmptyCriterion => true
    case Basic(_, _, _) => u(p)
    case AndCriterion(l, r) => Holds(l, u) && Holds(r, u)
    case OrCriterion(l, r) => Holds(l, u) || Holds(r, u)
  }

  /** The meaning of a where tree read directly: a leaf is its comparison, an AND group holds
      when all children hold, an OR group when some child holds. */
  ghost predicate Sat(m: map<string, Table>, w: WhereCondition, u: Criterion -> bool)
    decreases w
  {
    match w
    case Leaf(_, c) => ConditionCriterion(m, c).Ok? && u(ConditionCriterion(m, c).value)
    case Group(And, cs) => forall i :: 0 <= i < |cs| ==> Sat(m, cs[i], u)
    case Group(Or, cs) => exists i :: 0 <= i < |cs| && Sat(m, cs[i], u)
  }

  lemma {:induction false} NonEmptyGroupsHasLeaf(w: WhereCondition)
    requires NonEmptyGroups(w)
    ensures HasLeaf(w)
    decreases w
  {
    if w.Group? {
      NonEmptyGroupsHasLeaf(w.conditions[0]);
    }
  }

  /** Folding left to right with AND / OR preserves the boolean meaning of the tree. */
  lemma {:induction false} WhereMeaning(m: map<string, Table>, w: WhereCondition, u: Criterion -> bool)
    requires NonEmptyGroups(w) && EvalWhere(m, w).Ok?
    ensures Holds(EvalWhere(m, w).value, u) == Sat(m, w, u)
    decreases w, 1, 0
  {
    match w
    case Leaf(_, c) =>
    case Group(_, cs) => FoldMeaning(m, w, |cs|, u);
  }

  lemma {:induction false} FoldMeaning(m: map<string, Table>, w: WhereCondition, k: nat, u: Criterion -> bool)
    requires NonEmptyGroups(w) && w.Group? && 0 < k <= |w.conditions|
    requires FoldPrefix(m, w, k).Ok?
    ensures w.connector == And ==>
              (Holds(FoldPrefix(m, w, k).value, u) <==> forall i :: 0 <= i < k ==> Sat(m, w.conditions[i], u))
    ensures w.connector == Or ==>
              (Holds(FoldPrefix(m, w, k).value, u) <==> exists i :: 0 <= i < k && Sat(m, w.conditions[i], u))
    decreases w, 0, k
  {
    var sub := w.conditions[k - 1];
    WhereMeaning(m, sub, u);
    var acc := FoldPrefix(m, w, k - 1).value;
    var p := EvalWhere(m, sub).value;
    assert FoldPrefix(m, w, k).value == Combine(w.connector, acc, p);
    if k == 1 {
      assert acc == EmptyCriterion;
      SatPrefix(m, w.conditions, k, u);
    } else {
      FoldMeaning(m, w, k - 1, u);
      NonEmptyGroupsHasLeaf(w.conditions[0]);
      FoldPrefixEmpty(m, w, k - 1);
      CombineHolds(w.connector, acc, p, u);
      SatPrefix(m, w.conditions, k, u);
    }
  }

  /** AND of two criteria holds when both do (the empty criterion always holds); OR of a
      non-empty criterion and another holds when either does. */
  lemma CombineHolds(conn: FilterConnector, acc: Criterion, p: Criterion, u: Criterion -> bool)
    requires acc != EmptyCriterion
    ensures conn == And ==> Holds(Combine(conn, acc, p), u) == (Holds(acc, u) && Holds(p, u))
    ensures conn == Or ==> Holds(Combine(conn, acc, p), u) == (Holds(acc, u) || Holds(p, u))
  {
  }

  /** All / some of the first `k` children, split at the last one. */
  lemma SatPrefix(m: map<string, Table>, cs: seq<WhereCondition>, k: nat, u: Criterion -> bool)
    requires 0 < k <= |cs|
    ensures (forall i :: 0 <= i < k ==> Sat(m, cs[i], u)) <==>
            (forall i :: 0 <= i < k - 1 ==> Sat(m, cs[i], u)) && Sat(m, cs[k - 1], u)
    ensures (exists i :: 0 <= i < k && Sat(m, cs[i], u)) <==>
            (exists i :: 0 <= i < k - 1 && Sat(m, cs[i], u)) || Sat(m, cs[k - 1], u)
  {
  }

  // ---------------------------------------------------------------------------------------
  // Group-by inference

  /** The plain fields are exactly the select fields without an aggregate tag. */
  lemma {:induction false} PlainFieldsMembers(fs: seq<Field>, f: Field)
    ensures f in PlainFields(fs) <==> f in fs && f.aggregate.None?
    decreases |fs|
  {
    if |fs| > 0 {
      var init := fs[..|fs| - 1];
      PlainFieldsMembers(init, f);
      assert fs == init + [fs[|fs| - 1]];
    }
  }

  /** No plain fields exactly when every select field is aggregated. */
  lemma {:induction false} PlainFieldsEmpty(fs: seq<Field>)
    ensures PlainFields(fs) == [] <==> forall i :: 0 <= i < |fs| ==> fs[i].aggregate.Some?
    decreases |fs|
  {
    if |fs| > 0 {
      var init := fs[..|fs| - 1];
      PlainFieldsEmpty(init);
      assert forall i :: 0 <= i < |init| ==> init[i] == fs[i];
    }
  }

  // ---------------------------------------------------------------------------------------
  // Stage by stage

  /** Columns of fields over the registry are the fields' own columns. */
  lemma ColumnsOk(c: SqlConfig, fs: seq<Field>)
    ensures Collect(ColumnFn(Registry(c)), fs).Ok? <==> forall i :: 0 <= i < |fs| ==> fs[i].table in RegisteredNames(c)
    ensures Collect(ColumnFn(Registry(c)), fs).Ok? ==>
              Collect(ColumnFn(Registry(c)), fs).value == seq(|fs|, i requires 0 <= i < |fs| => FieldColumn(fs[i]))
  {
    var f := ColumnFn(Registry(c));
    CollectOk(f, fs);
    forall i | 0 <= i < |fs| ensures f(fs[i]).Ok? <==> fs[i].table in RegisteredNames(c) {
      RegistryLookup(c, fs[i].table);
    }
  }

  /** A failing column list reports an unregistered table of one of its fields. */
  lemma ColumnsErr(m: map<string, Table>, fs: seq<Field>)
    requires Collect(ColumnFn(m), fs).Err?
    ensures var e := Collect(ColumnFn(m), fs).error;
            e.TableNotRegistered? && e.table !in m && exists i :: 0 <= i < |fs| && fs[i].table == e.table
  {
    CollectErr(ColumnFn(m), fs);
  }

  lemma SelectErr(m: map<string, Table>, fs: seq<Field>)
    requires Collect(SelectItemFn(m), fs).Err?
    ensures var e := Collect(SelectItemFn(m), fs).error;
            (e.TableNotRegistered? && e.table !in m && exists i :: 0 <= i < |fs| && fs[i].table == e.table) ||
            (e.InvalidAggregateType? && AggregateFunctionOf(e.aggregate).None? &&
             exists i :: 0 <= i < |fs| && fs[i].aggregate == Some(e.aggregate))
  {
    CollectErr(SelectItemFn(m), fs);
  }

  lemma OrderErr(m: map<string, Table>, os: seq<Order>)
    requires Collect(OrderFn(m), os).Err?
    ensures var e := Collect(OrderFn(m), os).error;
            e.TableNotRegistered? && e.table !in m && exists i :: 0 <= i < |os| && os[i].field.table == e.table
  {
    CollectErr(OrderFn(m), os);
  }

  /** Over the registry, the FROM / JOIN stage can only fail for a missing source or a join type
      without a join method: every table it looks up is registered by construction. */
  lemma FromStageErr(c: SqlConfig, q: Query)
    requires FromStage(Registry(c), c, q).Err?
    ensures var e := FromStage(Registry(c), c, q).error;
            (e == MissingFromOrJoin && !HasSource(c)) ||
            (e.UnsupportedJoinType? && JoinMethod(e.joinType).None? && HasSource(c) &&
             exists j :: 0 <= j < |c.joinTables| && c.joinTables[j].joinType == e.joinType)
  {
    var m := Registry(c);
    if HasSource(c) {
      RegistryLookup(c, c.fromTable);
      var q1 := FromTableStage(m, c, q);
      assert q1.Ok?;
      if c.joinTables != [] {
        var js := c.joinTables;
        CollectErr(JoinFn(m), js);
        var k :| 0 <= k < |js| && JoinFn(m)(js[k]) == Err(Collect(JoinFn(m), js).error);
        RegistryLookup(c, js[k].leftTable);
        RegistryLookup(c, js[k].rightTable);
        assert Collect(JoinFn(m), js).error == UnsupportedJoinType(js[k].joinType);
      }
    }
  }

  // ---------------------------------------------------------------------------------------
  // The whole compilation

  /** The configuration mentions table `t` in a select field, a group-by field, an order-by
      entry or a where leaf (from- and join tables are registered by construction). */
  ghost predicate References(c: SqlConfig, t: string) {
    || (exists i :: 0 <= i < |c.selectFields| && c.selectFields[i].table == t)
    || (exists i :: 0 <= i < |c.groupBy| && c.groupBy[i].table == t)
    || (exists i :: 0 <= i < |c.orderBy| && c.orderBy[i].field.table == t)
    || (c.where.Some? && ReferencesTable(c.where.value, t))
  }

  /** Without a from-table and without joins, compilation fails with `MissingFromOrJoin`, and
      that is the only way to get this error. */
  lemma CompileMissingSource(c: SqlConfig)
    ensures Compile(c) == Err(MissingFromOrJoin) <==> !HasSource(c)
  {
    if HasSource(c) && Compile(c).Err? {
      CompileErrKinds(c);
    }
  }

  /** Every error of a compilation: a missing source, an unsupported join type, an
      unregistered table that the configuration mentions, an aggregate without a function, or
      an operator without a handler. */
  lemma CompileErrKinds(c: SqlConfig)
    requires Compile(c).Err?
    ensures var e := Compile(c).error;
            || (e == MissingFromOrJoin && !HasSource(c))
            || (e.UnsupportedJoinType? && JoinMethod(e.joinType).None? &&
                exists j :: 0 <= j < |c.joinTables| && c.joinTables[j].joinType == e.joinType)
            || (e.TableNotRegistered? && e.table !in RegisteredNames(c) && References(c, e.table))
            || (e.InvalidAggregateType? && AggregateFunctionOf(e.aggregate).None? &&
                exists i :: 0 <= i < |c.selectFields| && c.selectFields[i].aggregate == Some(e.aggregate))
            || (e.UnsupportedOperator? && OperatorHandler(e.operator).None? &&
                c.where.Some? && UsesOperator(c.where.value, e.operator))
  {
    var m := Registry(c);
    var r1 := FromStage(m, c, BlankQuery);
    if r1.Err? {
      FromStageErr(c, BlankQuery);
      return;
    }
    var r2 := SelectStage(m, c.selectFields, r1.value);
    if r2.Err? {
      SelectErr(m, c.selectFields);
      return;
    }
    var r3 := WhereStage(m, c.where, r2.value);
    if r3.Err? {
      EvalWhereErr(m, c.where.value);
      return;
    }
    var r4 := GroupByStage(m, c, r3.value);
    if r4.Err? {
      if c.groupBy != [] {
        ColumnsErr(m, c.groupBy);
      } else {
        var plain := PlainFields(c.selectFields);
        ColumnsErr(m, plain);
        var e := Compile(c).error;
        var i :| 0 <= i < |plain| && plain[i].table == e.table;
        PlainFieldsMembers(c.selectFields, plain[i]);
        var j :| 0 <= j < |c.selectFields| && c.selectFields[j] == plain[i];
      }
      return;
    }
    OrderErr(m, c.orderBy);
  }

  /** A compilation that succeeds resolved every table the configuration mentions. */
  lemma CompileOkRegistered(c: SqlConfig)
    requires Compile(c).Ok?
    ensures forall i :: 0 <= i < |c.selectFields| ==> c.selectFields[i].table in RegisteredNames(c)
    ensures forall i :: 0 <= i < |c.groupBy| ==> c.groupBy[i].table in RegisteredNames(c)
    ensures forall i :: 0 <= i < |c.orderBy| ==> c.orderBy[i].field.table in RegisteredNames(c)
    ensures c.where.Some? ==> Compilable(Registry(c), c.where.value)
    ensures forall j :: 0 <= j < |c.joinTables| ==> JoinMethod(c.joinTables[j].joinType).Some?
  {
    var m := Registry(c);
    var q1, q2, q3, q4, q5 := GenerateStages(m, c);
    if c.joinTables != [] {
      CollectOk(JoinFn(m), c.joinTables);
    }
    CollectOk(SelectItemFn(m), c.selectFields);
    forall i | 0 <= i < |c.selectFields| ensures c.selectFields[i].table in RegisteredNames(c) {
      RegistryLookup(c, c.selectFields[i].table);
    }
    if c.where.Some? {
      EvalWhereOk(m, c.where.value);
    }
    if c.groupBy != [] {
      ColumnsOk(c, c.groupBy);
    }
    CollectOk(OrderFn(m), c.orderBy);
    forall i | 0 <= i < |c.orderBy| ensures c.orderBy[i].field.table in RegisteredNames(c) {
      RegistryLookup(c, c.orderBy[i].field.table);
    }
  }

  /** Any reference to an undeclared table makes the compilation fail. */
  lemma UnregisteredReferenceFails(c: SqlConfig, t: string)
    requires References(c, t) && t !in RegisteredNames(c)
    ensures Compile(c).Err?
  {
    if Compile(c).Ok? {
      CompileOkRegistered(c);
      if c.where.Some? && ReferencesTable(c.where.value, t) {
        CompilableReferences(Registry(c), c.where.value, t);
      }
    }
  }

  /** When the source is present and every join type, aggregate and operator of the
      configuration is known, a reference to an undeclared table fails with
      `TableNotRegistered`, naming an undeclared table the configuration references. */
  lemma UnregisteredReferenceNamed(c: SqlConfig, t: string)
    requires HasSource(c)
    requires forall j :: 0 <= j < |c.joinTables| ==> JoinMethod(c.joinTables[j].joinType).Some?
    requires forall i :: 0 <= i < |c.selectFields| && c.selectFields[i].aggregate.Some? ==>
               AggregateFunctionOf(c.selectFields[i].aggregate.value).Some?
    requires forall op :: c.where.Some? && UsesOperator(c.where.value, op) ==> OperatorHandler(op).Some?
    requires References(c, t) && t !in RegisteredNames(c)
    ensures Compile(c).Err? && Compile(c).error.TableNotRegistered?
    ensures Compile(c).error.table !in RegisteredNames(c) && References(c, Compile(c).error.table)
  {
    UnregisteredReferenceFails(c, t);
    CompileErrKinds(c);
  }

  lemma {:induction false} CompilableReferences(m: map<string, Table>, w: WhereCondition, t: string)
    requires Compilable(m, w) && ReferencesTable(w, t)
    ensures t in m
    decreases w
  {
    if w.Group? {
      var i :| 0 <= i < |w.conditions| && ReferencesTable(w.conditions[i], t);
      CompilableReferences(m, w.conditions[i], t);
    }
  }

  // ---------------------------------------------------------------------------------------
  // The shape of a successful compilation

  /** The expression a select field compiles to over the registry. */
  function ExpectedExpr(f: Field): Expr {
    match f.aggregate
    case None => ColumnExpr(FieldColumn(f))
    case Some(a) => AggregateExpr(AggregateFunctionOf(a).GetOr(CountFn), FieldColumn(f))
  }

  /** The clauses one join contributes: one per link pair, joining its right table. */
  function ExpectedJoinGroup(j: JoinTable): seq<JoinClause> {
    PairClauses(JoinMethod(j.joinType).GetOr(Inner), Table(j.leftTable), Table(j.rightTable), j.linkFields)
  }

  /** The clause groups of a list of joins, join by join. */
  function ExpectedJoinGroups(js: seq<JoinTable>): seq<seq<JoinClause>> {
    seq(|js|, j requires 0 <= j < |js| => ExpectedJoinGroup(js[j]))
  }

  /** The intermediate queries of a successful compilation, stage by stage. */
  lemma CompileStages(c: SqlConfig) returns (q1: Query, q2: Query, q3: Query, q4: Query, q5: Query)
    requires Compile(c).Ok?
    ensures FromStage(Registry(c), c, BlankQuery) == Ok(q1)
    ensures SelectStage(Registry(c), c.selectFields, q1) == Ok(q2)
    ensures WhereStage(Registry(c), c.where, q2) == Ok(q3)
    ensures GroupByStage(Registry(c), c, q3) == Ok(q4)
    ensures OrderByStage(Registry(c), c.orderBy, q4) == Ok(q5)
    ensures Compile(c) == Ok(PaginationStage(c.pagination, q5))
  {
    q1, q2, q3, q4, q5 := GenerateStages(Registry(c), c);
  }


  /** Clause `k` of a join joins the right table on the `k`-th link pair. */
  lemma {:induction false} PairClausesAt(kind: JoinKind, left: Table, right: Table, pairs: seq<LinkField>, k: nat)
    requires k < |pairs|
    ensures |PairClauses(kind, left, right, pairs)| == |pairs|
    ensures PairClauses(kind, left, right, pairs)[k] ==
            JoinClause(kind, right, Column(left, pairs[k].leftField), Column(right, pairs[k].rightField))
    decreases |pairs|
  {
    var init := pairs[..|pairs| - 1];
    if k < |init| {
      PairClausesAt(kind, left, right, init, k);
    } else if |init| > 0 {
      PairClausesAt(kind, left, right, init, 0);
    }
  }

  /** FROM is the from-table when one is given, and nothing otherwise (never a join table); the
      joins are, join by join, one clause per link pair, and every join type had a method. */
  lemma CompileFromJoins(c: SqlConfig)
    requires Compile(c).Ok?
    ensures Compile(c).value.from == if c.fromTable != "" then Some(Table(c.fromTable)) else None
    ensures forall j :: 0 <= j < |c.joinTables| ==> JoinMethod(c.joinTables[j].joinType).Some?
    ensures Compile(c).value.joins == Flatten(ExpectedJoinGroups(c.joinTables))
  {
    GenerateFromJoins(Registry(c), c);
    FromStageShape(c);
  }

  lemma FromStageShape(c: SqlConfig)
    requires FromStage(Registry(c), c, BlankQuery).Ok?
    ensures var q1 := FromStage(Registry(c), c, BlankQuery).value;
            q1.from == (if c.fromTable != "" then Some(Table(c.fromTable)) else None) &&
            q1.joins == Flatten(ExpectedJoinGroups(c.joinTables)) &&
            q1.select == [] && q1.where == None && q1.groupBy == [] && q1.orderBy == [] &&
            q1.limit == None && q1.offset == None
    ensures forall j :: 0 <= j < |c.joinTables| ==> JoinMethod(c.joinTables[j].joinType).Some?
  {
    var m := Registry(c);
    var js := c.joinTables;
    RegistryLookup(c, c.fromTable);
    if js != [] {
      JoinGroupsShape(c);
      var groups := Collect(JoinFn(m), js).value;
      assert [] + Flatten(groups) == Flatten(groups);
    } else {
      assert ExpectedJoinGroups(js) == [];
    }
  }

  lemma JoinGroupsShape(c: SqlConfig)
    requires Collect(JoinFn(Registry(c)), c.joinTables).Ok?
    ensures Collect(JoinFn(Registry(c)), c.joinTables).value == ExpectedJoinGroups(c.joinTables)
    ensures forall j :: 0 <= j < |c.joinTables| ==> JoinMethod(c.joinTables[j].joinType).Some?
  {
    var m := Registry(c);
    var js := c.joinTables;
    CollectOk(JoinFn(m), js);
    var groups := Collect(JoinFn(m), js).value;
    forall j | 0 <= j < |js|
      ensures JoinMethod(js[j].joinType).Some? && groups[j] == ExpectedJoinGroup(js[j])
    {
      RegistryLookup(c, js[j].leftTable);
      RegistryLookup(c, js[j].rightTable);
    }
  }

  /** A successful generation is its stages run one after another, each succeeding. */
  lemma GenerateStages(m: map<string, Table>, c: SqlConfig) returns (q1: Query, q2: Query, q3: Query, q4: Query, q5: Query)
    requires GenerateWith(m, c).Ok?
    ensures FromStage(m, c, BlankQuery) == Ok(q1)
    ensures SelectStage(m, c.selectFields, q1) == Ok(q2)
    ensures WhereStage(m, c.where, q2) == Ok(q3)
    ensures GroupByStage(m, c, q3) == Ok(q4)
    ensures OrderByStage(m, c.orderBy, q4) == Ok(q5)
    ensures GenerateWith(m, c) == Ok(PaginationStage(c.pagination, q5))
  {
    q1 := FromStage(m, c, BlankQuery).value;
    q2 := SelectStage(m, c.selectFields, q1).value;
    q3 := WhereStage(m, c.where, q2).value;
    q4 := GroupByStage(m, c, q3).value;
    q5 := OrderByStage(m, c.orderBy, q4).value;
  }

  /** The WHERE stage sets the where criterion only: none for a missing or leafless tree. */
  lemma WhereFrame(m: map<string, Table>, w: Option<WhereCondition>, q: Query)
    requires WhereStage(m, w, q).Ok?
    ensures w.Some? ==> EvalWhere(m, w.value).Ok?
    ensures var r := WhereStage(m, w, q).value;
            r == q.(where := r.where) &&
            (w.None? ==> r.where == q.where) &&
            (w.Some? && EvalWhere(m, w.value).value == EmptyCriterion ==> r.where == q.where) &&
            (w.Some? && EvalWhere(m, w.value).value != EmptyCriterion ==> r.where == Some(EvalWhere(m, w.value).value))
  {
  }

  /** The GROUP BY stage appends its columns and changes nothing else. */
  lemma GroupByFrame(m: map<string, Table>, c: SqlConfig, q: Query)
    requires GroupByStage(m, c, q).Ok?
    ensures GroupByColumns(m, c).Ok?
    ensures GroupByStage(m, c, q).value == q.(groupBy := q.groupBy + GroupByColumns(m, c).value)
  {
  }

  /** The ORDER BY stage appends its items and changes nothing else. */
  lemma OrderByFrame(m: map<string, Table>, os: seq<Order>, q: Query)
    requires OrderByStage(m, os, q).Ok?
    ensures Collect(OrderFn(m), os).Ok?
    ensures OrderByStage(m, os, q).value == q.(orderBy := q.orderBy + Collect(OrderFn(m), os).value)
  {
  }

  /** Pagination sets the limit and the offset only. */
  lemma PaginationFrame(p: Option<Pagination>, q: Query)
    ensures var r := PaginationStage(p, q);
            r == q.(limit := r.limit, offset := r.offset)
  {
  }

  /** The from table and the joins of a successful generation are those of the FROM stage. */
  lemma GenerateFromJoins(m: map<string, Table>, c: SqlConfig)
    requires GenerateWith(m, c).Ok?
    ensures FromStage(m, c, BlankQuery).Ok?
    ensures GenerateWith(m, c).value.from == FromStage(m, c, BlankQuery).value.from
    ensures GenerateWith(m, c).value.joins == FromStage(m, c, BlankQuery).value.joins
  {
    var q1, q2, q3, q4, q5 := GenerateStages(m, c);
    assert q2 == q1.(select := q2.select);
    WhereFrame(m, c.where, q2);
    GroupByFrame(m, c, q3);
    OrderByFrame(m, c.orderBy, q4);
    PaginationFrame(c.pagination, q5);
  }

  /** The where criterion of a successful generation is the evaluated tree, or none when there is
      no tree or it evaluates to the empty criterion. */
  lemma GenerateWhere(m: map<string, Table>, c: SqlConfig)
    requires GenerateWith(m, c).Ok?
    ensures c.where.Some? ==> EvalWhere(m, c.where.value).Ok?
    ensures GenerateWith(m, c).value.where ==
            if c.where.None? || EvalWhere(m, c.where.value).value == EmptyCriterion then None
            else Some(EvalWhere(m, c.where.value).value)
  {
    var q1, q2, q3, q4, q5 := GenerateStages(m, c);
    assert q1.where == None;
    assert q2.where == None;
    WhereFrame(m, c.where, q2);
    GroupByFrame(m, c, q3);
    OrderByFrame(m, c.orderBy, q4);
    PaginationFrame(c.pagination, q5);
  }

  /** The limit and offset of a successful generation come from the pagination alone. */
  lemma GeneratePagination(m: map<string, Table>, c: SqlConfig)
    requires GenerateWith(m, c).Ok?
    ensures GenerateWith(m, c).value.limit ==
            if c.pagination.Some? && c.pagination.value.limit != 0 then Some(c.pagination.value.limit) else None
    ensures GenerateWith(m, c).value.offset ==
            if c.pagination.Some? && c.pagination.value.offset != 0 then Some(c.pagination.value.offset) else None
  {
    var q1, q2, q3, q4, q5 := GenerateStages(m, c);
    assert q1.limit == None && q1.offset == None;
    assert q2.limit == None && q2.offset == None;
    WhereFrame(m, c.where, q2);
    GroupByFrame(m, c, q3);
    OrderByFrame(m, c.orderBy, q4);
  }

  /** The select list of a successful generation is what the SELECT stage collects. */
  lemma GenerateSelect(m: map<string, Table>, c: SqlConfig)
    requires GenerateWith(m, c).Ok?
    ensures Collect(SelectItemFn(m), c.selectFields).Ok?
    ensures GenerateWith(m, c).value.select == Collect(SelectItemFn(m), c.selectFields).value
  {
    var q1, q2, q3, q4, q5 := GenerateStages(m, c);
    assert q1.select == [];
    assert q2.select == [] + Collect(SelectItemFn(m), c.selectFields).value;
    WhereFrame(m, c.where, q2);
    GroupByFrame(m, c, q3);
    OrderByFrame(m, c.orderBy, q4);
    PaginationFrame(c.pagination, q5);
  }

  /** The group-by list of a successful generation is what the GROUP BY stage collects. */
  lemma GenerateGroupBy(m: map<string, Table>, c: SqlConfig)
    requires GenerateWith(m, c).Ok?
    ensures GroupByColumns(m, c).Ok? && GenerateWith(m, c).value.groupBy == GroupByColumns(m, c).value
  {
    var q1, q2, q3, q4, q5 := GenerateStages(m, c);
    assert q1.groupBy == [];
    assert q2.groupBy == [];
    WhereFrame(m, c.where, q2);
    GroupByFrame(m, c, q3);
    assert q4.groupBy == [] + GroupByColumns(m, c).value;
    OrderByFrame(m, c.orderBy, q4);
    PaginationFrame(c.pagination, q5);
  }

  /** The order-by list of a successful generation is what the ORDER BY stage collects. */
  lemma GenerateOrderBy(m: map<string, Table>, c: SqlConfig)
    requires GenerateWith(m, c).Ok?
    ensures Collect(OrderFn(m), c.orderBy).Ok?
    ensures GenerateWith(m, c).value.orderBy == Collect(OrderFn(m), c.orderBy).value
  {
    var q1, q2, q3, q4, q5 := GenerateStages(m, c);
    assert q1.orderBy == [];
    assert q2.orderBy == [];
    WhereFrame(m, c.where, q2);
    GroupByFrame(m, c, q3);
    OrderByFrame(m, c.orderBy, q4);
    assert q5.orderBy == [] + Collect(OrderFn(m), c.orderBy).value;
    PaginationFrame(c.pagination, q5);
  }

  /** Collected select items over the registry: one per field, in order. */
  lemma SelectItemsShape(c: SqlConfig)
    requires Collect(SelectItemFn(Registry(c)), c.selectFields).Ok?
    ensures var items := Collect(SelectItemFn(Registry(c)), c.selectFields).value;
            |items| == |c.selectFields| &&
            forall i :: 0 <= i < |c.selectFields| ==>
              var f := c.selectFields[i];
              (f.aggregate.Some? ==> AggregateFunctionOf(f.aggregate.value).Some?) &&
              items[i] == SelectItem(ExpectedExpr(f), f.displayName)
  {
    var m := Registry(c);
    var fs := c.selectFields;
    CollectOk(SelectItemFn(m), fs);
    forall i | 0 <= i < |fs|
      ensures SelectItemFn(m)(fs[i]).Ok? ==> SelectItemFn(m)(fs[i]).value == SelectItem(ExpectedExpr(fs[i]), fs[i].displayName)
    {
      RegistryLookup(c, fs[i].table);
    }
  }

  /** One select item per select field, in order: its column, wrapped in the field's aggregate
      function when it is tagged (and every tag had one), aliased to the display name. */
  lemma CompileSelect(c: SqlConfig)
    requires Compile(c).Ok?
    ensures |Compile(c).value.select| == |c.selectFields|
    ensures forall i :: 0 <= i < |c.selectFields| ==>
              var f := c.selectFields[i];
              (f.aggregate.Some? ==> AggregateFunctionOf(f.aggregate.value).Some?) &&
              Compile(c).value.select[i] == SelectItem(ExpectedExpr(f), f.displayName)
  {
    GenerateSelect(Registry(c), c);
    SelectItemsShape(c);
  }

  /** A WHERE clause is present exactly when the tree has a leaf, and then it is the tree's fold. */
  lemma CompileWhere(c: SqlConfig)
    requires Compile(c).Ok?
    ensures Compile(c).value.where.Some? <==> c.where.Some? && HasLeaf(c.where.value)
    ensures Compile(c).value.where.Some? ==> EvalWhere(Registry(c), c.where.value) == Ok(Compile(c).value.where.value)
  {
    var m := Registry(c);
    GenerateWhere(m, c);
    if c.where.Some? {
      EvalWhereEmpty(m, c.where.value);
    }
  }

  /** GROUP BY: the explicit group-by fields when given; otherwise, when some select field is
      aggregated, the select fields without an aggregate; otherwise nothing. */
  lemma CompileGroupBy(c: SqlConfig)
    requires Compile(c).Ok?
    ensures c.groupBy != [] ==>
              Compile(c).value.groupBy == seq(|c.groupBy|, i requires 0 <= i < |c.groupBy| => FieldColumn(c.groupBy[i]))
    ensures c.groupBy == [] && !HasAggregate(c.selectFields) ==> Compile(c).value.groupBy == []
    ensures c.groupBy == [] && HasAggregate(c.selectFields) ==>
              var plain := PlainFields(c.selectFields);
              Compile(c).value.groupBy == seq(|plain|, i requires 0 <= i < |plain| => FieldColumn(plain[i]))
  {
    GenerateGroupBy(Registry(c), c);
    if c.groupBy != [] {
      ColumnsOk(c, c.groupBy);
    } else if HasAggregate(c.selectFields) {
      ColumnsOk(c, PlainFields(c.selectFields));
    }
  }

  /** Collected order items over the registry: one per entry, in order. */
  lemma OrderItemsShape(c: SqlConfig)
    requires Collect(OrderFn(Registry(c)), c.orderBy).Ok?
    ensures var items := Collect(OrderFn(Registry(c)), c.orderBy).value;
            |items| == |c.orderBy| &&
            forall i :: 0 <= i < |c.orderBy| ==> items[i] == OrderItem(FieldColumn(c.orderBy[i].field), c.orderBy[i].direction)
  {
    var m := Registry(c);
    var os := c.orderBy;
    CollectOk(OrderFn(m), os);
    forall i | 0 <= i < |os|
      ensures OrderFn(m)(os[i]).Ok? ==> OrderFn(m)(os[i]).value == OrderItem(FieldColumn(os[i].field), os[i].direction)
    {
      RegistryLookup(c, os[i].field.table);
    }
  }

  /** One ORDER BY item per order entry, in order, with its direction. */
  lemma CompileOrderBy(c: SqlConfig)
    requires Compile(c).Ok?
    ensures |Compile(c).value.orderBy| == |c.orderBy|
    ensures forall i :: 0 <= i < |c.orderBy| ==>
              Compile(c).value.orderBy[i] == OrderItem(FieldColumn(c.orderBy[i].field), c.orderBy[i].direction)
  {
    GenerateOrderBy(Registry(c), c);
    OrderItemsShape(c);
  }

  /** LIMIT and OFFSET appear exactly when pagination gives them non-zero, and never cause an error. */
  lemma CompilePagination(c: SqlConfig)
    requires Compile(c).Ok?
    ensures Compile(c).value.limit ==
            if c.pagination.Some? && c.pagination.value.limit != 0 then Some(c.pagination.value.limit) else None
    ensures Compile(c).value.offset ==
            if c.pagination.Some? && c.pagination.value.offset != 0 then Some(c.pagination.value.offset) else None
    ensures Compile(c.(pagination := None)).Ok?
  {
    GeneratePagination(Registry(c), c);
    var c0 := c.(pagination := None);
    assert Registry(c0) == Registry(c);
  }

  /** Pagination never decides whether a compilation succeeds: with any pagination, with or
      without LIMIT and OFFSET, it succeeds exactly when it does without one. */
  lemma PaginationNeverFails(c: SqlConfig, p: Option<Pagination>)
    ensures Compile(c.(pagination := p)).Ok? <==> Compile(c.(pagination := None)).Ok?
  {
    var c0 := c.(pagination := None);
    var cp := c.(pagination := p);
    assert Registry(cp) == Registry(c0);
    CompileOkIff(c0);
    CompileOkIff(cp);
  }

  /** The conditions under which a configuration compiles: it has a source, every join type
      has a method, every select, group-by and order-by field names a declared table, every
      aggregate tag has a function and every where leaf compiles. */
  ghost predicate Compiles(c: SqlConfig) {
    && HasSource(c)
    && (forall j :: 0 <= j < |c.joinTables| ==> JoinMethod(c.joinTables[j].joinType).Some?)
    && (forall i :: 0 <= i < |c.selectFields| ==> c.selectFields[i].table in RegisteredNames(c))
    && (forall i :: 0 <= i < |c.selectFields| && c.selectFields[i].aggregate.Some? ==>
          AggregateFunctionOf(c.selectFields[i].aggregate.value).Some?)
    && (c.where.Some? ==> Compilable(Registry(c), c.where.value))
    && (forall i :: 0 <= i < |c.groupBy| ==> c.groupBy[i].table in RegisteredNames(c))
    && (forall i :: 0 <= i < |c.orderBy| ==> c.orderBy[i].field.table in RegisteredNames(c))
  }

  /** A configuration compiles exactly under those conditions. */
  lemma CompileOkIff(c: SqlConfig)
    ensures Compile(c).Ok? <==> Compiles(c)
  {
    if Compile(c).Ok? {
      CompileMissingSource(c);
      CompileOkRegistered(c);
      CompileSelect(c);
    } else if Compiles(c) {
      CompilesOk(c);
    }
  }

  /** Under those conditions every stage succeeds. */
  lemma CompilesOk(c: SqlConfig)
    requires Compiles(c)
    ensures Compile(c).Ok?
  {
    var m := Registry(c);
    assert FromStage(m, c, BlankQuery).Ok? by {
      RegistryLookup(c, c.fromTable);
      if c.joinTables != [] {
        var js := c.joinTables;
        CollectOk(JoinFn(m), js);
        forall j | 0 <= j < |js| ensures JoinFn(m)(js[j]).Ok? {
          RegistryLookup(c, js[j].leftTable);
          RegistryLookup(c, js[j].rightTable);
        }
      }
    }
    assert Collect(SelectItemFn(m), c.selectFields).Ok? by {
      CollectOk(SelectItemFn(m), c.selectFields);
      forall i | 0 <= i < |c.selectFields| ensures SelectItemFn(m)(c.selectFields[i]).Ok? {
        RegistryLookup(c, c.selectFields[i].table);
      }
    }
    if c.where.Some? {
      EvalWhereOk(m, c.where.value);
    }
    assert GroupByColumns(m, c).Ok? by {
      if c.groupBy != [] {
        ColumnsOk(c, c.groupBy);
      } else if HasAggregate(c.selectFields) {
        var plain := PlainFields(c.selectFields);
        ColumnsOk(c, plain);
        forall i | 0 <= i < |plain| ensures plain[i].table in RegisteredNames(c) {
          PlainFieldsMembers(c.selectFields, plain[i]);
        }
      }
    }
    assert Collect(OrderFn(m), c.orderBy).Ok? by {
      CollectOk(OrderFn(m), c.orderBy);
      forall i | 0 <= i < |c.orderBy| ensures OrderFn(m)(c.orderBy[i]).Ok? {
        RegistryLookup(c, c.orderBy[i].field.table);
      }
    }
  }
}
