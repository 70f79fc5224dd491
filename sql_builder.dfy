/** The SQL generator: registers the configuration's tables and builds the FROM/JOIN, SELECT,
    WHERE, GROUP BY, ORDER BY and LIMIT/OFFSET clauses in that order, failing with the first
    error a stage meets. Each stage is specified by a function (`FromStage`, `SelectStage`, ...)
    and implemented by a method of `SqlGenerator` that threads the query through a loop. */
module SqlBuilder {
  import opened Results
  import opened SqlModel

  // ---------------------------------------------------------------------------------------
  // Table registry

  /** The left and right tables of the joins. */
  function JoinSides(js: seq<JoinTable>): set<string>
    decreases |js|
  {
    if |js| == 0 then {}
    else JoinSides(js[..|js| - 1]) + {js[|js| - 1].leftTable, js[|js| - 1].rightTable}
  }

  lemma JoinSidesPrefix(js: seq<JoinTable>, i: nat)
    requires i < |js|
    ensures JoinSides(js[..i + 1]) == JoinSides(js[..i]) + {js[i].leftTable, js[i].rightTable}
  {
    assert js[..i + 1][..i] == js[..i];
  }

  /** Registering one more name over existing entries. */
  lemma RegistryInsert(base: map<string, Table>, done: set<string>, t: string)
    ensures (base + map u | u in done :: Table(u))[t := Table(t)] == base + map u | u in done + {t} :: Table(u)
  {
  }

  /** The table names a configuration declares: a non-empty from-table and both sides of every join. */
  function RegisteredNames(c: SqlConfig): set<string> {
    (if c.fromTable != "" then {c.fromTable} else {}) + JoinSides(c.joinTables)
  }

  /** The table map `generate` builds before any clause. */
  function Registry(c: SqlConfig): map<string, Table> {
    map t | t in RegisteredNames(c) :: Table(t)
  }

  /** The single lookup every table reference goes through. */
  function LookupTable(m: map<string, Table>, name: string): Result<Table, SqlError> {
    if name in m then Ok(m[name]) else Err(TableNotRegistered(name))
  }

  /** The column a field denotes on its table. */
  function ColumnOf(m: map<string, Table>, f: Field): Result<Column, SqlError> {
    var t :- LookupTable(m, f.table);
    Ok(Column(t, f.rawName))
  }

  function ColumnFn(m: map<string, Table>): Field -> Result<Column, SqlError> {
    f => ColumnOf(m, f)
  }

  // ---------------------------------------------------------------------------------------
  // FROM / JOIN

  predicate HasSource(c: SqlConfig) {
    c.fromTable != "" || c.joinTables != []
  }

  /** One `JOIN right ON left.l = right.r` per link-field pair, in pair order. */
  function PairClauses(kind: JoinKind, left: Table, right: Table, pairs: seq<LinkField>): seq<JoinClause>
    decreases |pairs|
  {
    if |pairs| == 0 then []
    else
      var lf := pairs[|pairs| - 1];
      PairClauses(kind, left, right, pairs[..|pairs| - 1]) +
      [JoinClause(kind, right, Column(left, lf.leftField), Column(right, lf.rightField))]
  }

  /** The clauses of one join: both tables are looked up, then its join method. */
  function JoinClausesOf(m: map<string, Table>, j: JoinTable): Result<seq<JoinClause>, SqlError> {
    var left :- LookupTable(m, j.leftTable);
    var right :- LookupTable(m, j.rightTable);
    match JoinMethod(j.joinType)
    case None => Err(UnsupportedJoinType(j.joinType))
    case Some(kind) => Ok(PairClauses(kind, left, right, j.linkFields))
  }

  function JoinFn(m: map<string, Table>): JoinTable -> Result<seq<JoinClause>, SqlError> {
    j => JoinClausesOf(m, j)
  }

  function JoinStage(m: map<string, Table>, joins: seq<JoinTable>, q: Query): Result<Query, SqlError> {
    var groups :- Collect(JoinFn(m), joins);
    Ok(q.(joins := q.joins + Flatten(groups)))
  }

  function FromTableStage(m: map<string, Table>, c: SqlConfig, q: Query): Result<Query, SqlError> {
    if c.fromTable != "" then
      var t :- LookupTable(m, c.fromTable);
      Ok(q.(from := Some(t)))
    else Ok(q)
  }

  function FromStage(m: map<string, Table>, c: SqlConfig, q: Query): Result<Query, SqlError> {
    if !HasSource(c) then Err(MissingFromOrJoin)
    else
      var q1 :- FromTableStage(m, c, q);
      if c.joinTables != [] then JoinStage(m, c.joinTables, q1) else Ok(q1)
  }

  // ---------------------------------------------------------------------------------------
  // SELECT

  /** A select item: the column, wrapped in its aggregate function if tagged, aliased to the
      display name. The table is looked up before the aggregate tag is resolved. */
  function SelectItemOf(m: map<string, Table>, f: Field): Result<SelectItem, SqlError> {
    var col :- ColumnOf(m, f);
    match f.aggregate
    case None => Ok(SelectItem(ColumnExpr(col), f.displayName))
    case Some(a) =>
      match AggregateFunctionOf(a)
      case None => Err(InvalidAggregateType(a))
      case Some(fn) => Ok(SelectItem(AggregateExpr(fn, col), f.displayName))
  }

  function SelectItemFn(m: map<string, Table>): Field -> Result<SelectItem, SqlError> {
    f => SelectItemOf(m, f)
  }

  function SelectStage(m: map<string, Table>, fields: seq<Field>, q: Query): Result<Query, SqlError> {
    var items :- Collect(SelectItemFn(m), fields);
    Ok(q.(select := q.select + items))
  }

  // ---------------------------------------------------------------------------------------
  // WHERE

  /** A leaf's predicate: the field is resolved first, then the operator's handler; list
      operators take `filters`, the others `filter`. */
  function ConditionCriterion(m: map<string, Table>, c: Condition): (r: Result<Criterion, SqlError>)
    ensures r.Ok? <==> c.field.table in m && OperatorHandler(c.operator).Some?
    ensures r.Err? ==>
      r.error == if c.field.table !in m then TableNotRegistered(c.field.table) else UnsupportedOperator(c.operator)
    ensures r.Ok? ==>
      r.value == Basic(Column(m[c.field.table], c.field.rawName), OperatorHandler(c.operator).value,
                       if IsListOperator(c.operator) then ListOperand(c.filters) else ScalarOperand(c.filter))
  {
    var col :- ColumnOf(m, c.field);
    match OperatorHandler(c.operator)
    case None => Err(UnsupportedOperator(c.operator))
    case Some(cmp) =>
      if c.operator in {Include, Exclude} then Ok(Basic(col, cmp, ListOperand(c.filters)))
      else Ok(Basic(col, cmp, ScalarOperand(c.filter)))
  }

  /** `acc & sub`: the empty criterion is the identity on its left. */
  function Conjoin(acc: Criterion, sub: Criterion): Criterion {
    if acc == EmptyCriterion then sub else AndCriterion(acc, sub)
  }

  /** `acc | sub`: the empty criterion is the identity on its left. */
  function Disjoin(acc: Criterion, sub: Criterion): Criterion {
    if acc == EmptyCriterion then sub else OrCriterion(acc, sub)
  }

  function Combine(conn: FilterConnector, acc: Criterion, sub: Criterion): Criterion {
    match conn
    case And => Conjoin(acc, sub)
    case Or => Disjoin(acc, sub)
  }

  /** The predicate of a where tree: a leaf's own (its connector is not used), or the left fold
      of a group's children from the empty criterion. */
  function EvalWhere(m: map<string, Table>, w: WhereCondition): Result<Criterion, SqlError>
    decreases w, 1, 0
  {
    match w
    case Leaf(_, c) => ConditionCriterion(m, c)
    case Group(_, cs) => FoldPrefix(m, w, |cs|)
  }

  /** The fold of a group's first `k` children. */
  function FoldPrefix(m: map<string, Table>, w: WhereCondition, k: nat): Result<Criterion, SqlError>
    requires w.Group? && k <= |w.conditions|
    decreases w, 0, k
  {
    if k == 0 then Ok(EmptyCriterion)
    else
      var acc :- FoldPrefix(m, w, k - 1);
      var sub :- EvalWhere(m, w.conditions[k - 1]);
      Ok(Combine(w.connector, acc, sub))
  }

  /** Once the fold of a prefix fails, the whole fold fails with that error. */
  lemma {:induction false} FoldErrExtends(m: map<string, Table>, w: WhereCondition, k: nat)
    requires w.Group? && k <= |w.conditions|
    requires FoldPrefix(m, w, k).Err?
    ensures FoldPrefix(m, w, |w.conditions|) == FoldPrefix(m, w, k)
    decreases |w.conditions| - k
  {
    if k < |w.conditions| {
      FoldErrExtends(m, w, k + 1);
    }
  }

  function WhereStage(m: map<string, Table>, where: Option<WhereCondition>, q: Query): Result<Query, SqlError> {
    match where
    case None => Ok(q)
    case Some(w) =>
      var p :- EvalWhere(m, w);
      if p == EmptyCriterion then Ok(q) else Ok(q.(where := Some(p)))
  }

  // ---------------------------------------------------------------------------------------
  // GROUP BY

  predicate HasAggregate(fs: seq<Field>) {
    exists i :: 0 <= i < |fs| && fs[i].aggregate.Some?
  }

  /** The select fields without an aggregate tag, in select order. */
  function PlainFields(fs: seq<Field>): seq<Field>
    decreases |fs|
  {
    if |fs| == 0 then []
    else PlainFields(fs[..|fs| - 1]) + (if fs[|fs| - 1].aggregate.None? then [fs[|fs| - 1]] else [])
  }

  /** The plain fields of a prefix are a prefix of the plain fields. */
  lemma {:induction false} PlainFieldsPrefix(fs: seq<Field>, k: nat)
    requires k <= |fs|
    ensures |PlainFields(fs[..k])| <= |PlainFields(fs)|
    ensures PlainFields(fs)[..|PlainFields(fs[..k])|] == PlainFields(fs[..k])
    decreases |fs|
  {
    if k < |fs| {
      var init := fs[..|fs| - 1];
      assert init[..k] == fs[..k];
      PlainFieldsPrefix(init, k);
    } else {
      assert fs[..k] == fs;
    }
  }

  lemma PlainFieldsStep(fs: seq<Field>, i: nat)
    requires i < |fs|
    ensures fs[i].aggregate.None? ==> PlainFields(fs[..i + 1]) == PlainFields(fs[..i]) + [fs[i]]
    ensures fs[i].aggregate.Some? ==> PlainFields(fs[..i + 1]) == PlainFields(fs[..i])
  {
    assert fs[..i + 1][..i] == fs[..i];
    assert PlainFields(fs[..i]) + [] == PlainFields(fs[..i]);
  }

  /** A loop over the select fields that fails on the plain field at `i` reports what
      collecting the plain fields reports. */
  lemma PlainFieldsFailAt<B>(f: Field -> Result<B, SqlError>, fs: seq<Field>, i: nat)
    requires i < |fs| && fs[i].aggregate.None?
    requires Collect(f, PlainFields(fs[..i])).Ok? && f(fs[i]).Err?
    ensures Collect(f, PlainFields(fs)) == Err(f(fs[i]).error)
  {
    var plain := PlainFields(fs[..i]);
    PlainFieldsStep(fs, i);
    assert (plain + [fs[i]])[..|plain|] == plain;
    CollectFailsAt(f, plain + [fs[i]], |plain|);
    PlainFieldsPrefix(fs, i + 1);
    assert (plain + [fs[i]])[..|plain| + 1] == plain + [fs[i]];
    CollectErrExtends(f, PlainFields(fs), |plain| + 1);
  }

  /** Explicit grouping wins; otherwise group by the plain select fields when any field is aggregated. */
  function GroupByColumns(m: map<string, Table>, c: SqlConfig): Result<seq<Column>, SqlError> {
    if c.groupBy != [] then Collect(ColumnFn(m), c.groupBy)
    else if !HasAggregate(c.selectFields) then Ok([])
    else Collect(ColumnFn(m), PlainFields(c.selectFields))
  }

  function GroupByStage(m: map<string, Table>, c: SqlConfig, q: Query): Result<Query, SqlError> {
    var cols :- GroupByColumns(m, c);
    Ok(q.(groupBy := q.groupBy + cols))
  }

  // ---------------------------------------------------------------------------------------
  // ORDER BY, LIMIT / OFFSET

  function OrderItemOf(m: map<string, Table>, o: Order): Result<OrderItem, SqlError> {
    var col :- ColumnOf(m, o.field);
    Ok(OrderItem(col, o.direction))
  }

  function OrderFn(m: map<string, Table>): Order -> Result<OrderItem, SqlError> {
    o => OrderItemOf(m, o)
  }

  function OrderByStage(m: map<string, Table>, orders: seq<Order>, q: Query): Result<Query, SqlError> {
    var items :- Collect(OrderFn(m), orders);
    Ok(q.(orderBy := q.orderBy + items))
  }

  /** LIMIT for a non-zero limit, OFFSET for a non-zero offset, independently. */
  function PaginationStage(p: Option<Pagination>, q: Query): Query {
    match p
    case None => q
    case Some(pg) =>
      var q1 := if pg.limit != 0 then q.(limit := Some(pg.limit)) else q;
      if pg.offset != 0 then q1.(offset := Some(pg.offset)) else q1
  }

  // ---------------------------------------------------------------------------------------
  // The whole compilation

  /** The stages in their fixed order over a given table map. */
  function GenerateWith(m: map<string, Table>, c: SqlConfig): Result<Query, SqlError> {
    var q1 :- FromStage(m, c, BlankQuery);
    var q2 :- SelectStage(m, c.selectFields, q1);
    var q3 :- WhereStage(m, c.where, q2);
    var q4 :- GroupByStage(m, c, q3);
    var q5 :- OrderByStage(m, c.orderBy, q4);
    Ok(PaginationStage(c.pagination, q5))
  }

  /** What `generate` returns for a configuration. */
  function Compile(c: SqlConfig): Result<Query, SqlError> {
    GenerateWith(Registry(c), c)
  }

  // ---------------------------------------------------------------------------------------
  // The generator object

  class SqlGenerator {
    const config: SqlConfig
    var tableMap: map<string, Table>

    /** Every registered entry is a declared table under its own name. */
    ghost predicate Valid()
      reads this
    {
      forall t :: t in tableMap ==> t in RegisteredNames(config) && tableMap[t] == Table(t)
    }

    constructor (config: SqlConfig)
      ensures this.config == config && tableMap == map[] && Valid()
    {
      this.config := config;
      tableMap := map[];
    }

    /** Collects the declared table names into a set, then records each under its own name. */
    method RegisterTables()
      modifies this
      ensures tableMap == old(tableMap) + Registry(config)
    {
      var valid: set<string> := {};
      if config.fromTable != "" {
        valid := valid + {config.fromTable};
      }
      assert config.joinTables[..0] == [];
      for i := 0 to |config.joinTables|
        invariant valid == (if config.fromTable != "" then {config.fromTable} else {}) + JoinSides(config.joinTables[..i])
        invariant tableMap == old(tableMap)
      {
        JoinSidesPrefix(config.joinTables, i);
        valid := valid + {config.joinTables[i].leftTable, config.joinTables[i].rightTable};
      }
      assert config.joinTables[..|config.joinTables|] == config.joinTables;
      assert valid == RegisteredNames(config);
      var remaining := valid;
      assert (map u | u in valid - remaining :: Table(u)) == map[];
      while remaining != {}
        invariant remaining <= valid
        invariant tableMap == old(tableMap) + map t | t in valid - remaining :: Table(t)
        decreases remaining
      {
        var t :| t in remaining;
        RegistryInsert(old(tableMap), valid - remaining, t);
        assert valid - (remaining - {t}) == (valid - remaining) + {t};
        tableMap := tableMap[t := Table(t)];
        remaining := remaining - {t};
      }
      assert (map u | u in valid - remaining :: Table(u)) == Registry(config);
    }

    method GetTable(name: string) returns (r: Result<Table, SqlError>)
      ensures r == LookupTable(tableMap, name)
    {
      if name !in tableMap {
        return Err(TableNotRegistered(name));
      }
      return Ok(tableMap[name]);
    }

    method GetField(f: Field) returns (r: Result<Column, SqlError>)
      ensures r == ColumnOf(tableMap, f)
    {
      var t :- GetTable(f.table);
      return Ok(Column(t, f.rawName));
    }

    method Generate() returns (r: Result<Query, SqlError>)
      requires Valid()
      modifies this
      ensures Valid() && tableMap == Registry(config)
      ensures r == Compile(config)
    {
      RegisterTables();
      assert tableMap == Registry(config);
      var q := BlankQuery;
      q :- BuildFrom(q);
      q :- BuildSelect(q);
      q :- BuildWhere(q);
      q :- BuildGroupBy(q);
      q :- BuildOrderBy(q);
      q := BuildPagination(q);
      return Ok(q);
    }

    method BuildFrom(q: Query) returns (r: Result<Query, SqlError>)
      ensures r == FromStage(tableMap, config, q)
    {
      if !(config.fromTable != "" || config.joinTables != []) {
        return Err(MissingFromOrJoin);
      }
      var query := q;
      if config.fromTable != "" {
        var t :- GetTable(config.fromTable);
        query := query.(from := Some(t));
      }
      if config.joinTables != [] {
        r := BuildJoin(query);
        return;
      }
      return Ok(query);
    }

    method BuildJoin(q: Query) returns (r: Result<Query, SqlError>)
      ensures r == JoinStage(tableMap, config.joinTables, q)
    {
      var joins := config.joinTables;
      var query := q;
      ghost var groups: seq<seq<JoinClause>> := [];
      for i := 0 to |joins|
        invariant Collect(JoinFn(tableMap), joins[..i]) == Ok(groups)
        invariant query == q.(joins := q.joins + Flatten(groups))
      {
        var jt := joins[i];
        var left := GetTable(jt.leftTable);
        if left.Err? {
          CollectFailsAt(JoinFn(tableMap), joins, i);
          return Err(left.error);
        }
        var right := GetTable(jt.rightTable);
        if right.Err? {
          CollectFailsAt(JoinFn(tableMap), joins, i);
          return Err(right.error);
        }
        var kind := JoinMethod(jt.joinType);
        if kind.None? {
          CollectFailsAt(JoinFn(tableMap), joins, i);
          return Err(UnsupportedJoinType(jt.joinType));
        }
        query := JoinOn(query, kind.value, left.value, right.value, jt.linkFields);
        ghost var g := PairClauses(kind.value, left.value, right.value, jt.linkFields);
        assert JoinFn(tableMap)(jt) == Ok(g);
        CollectStep(JoinFn(tableMap), joins, i, groups, g);
        FlattenAppend(groups, g);
        groups := groups + [g];
      }
      assert joins[..|joins|] == joins;
      return Ok(query);
    }

    /** Adds `JOIN right ON left.l = right.r` for each link-field pair, in pair order. */
    method JoinOn(q: Query, kind: JoinKind, left: Table, right: Table, pairs: seq<LinkField>) returns (r: Query)
      ensures r == q.(joins := q.joins + PairClauses(kind, left, right, pairs))
    {
      r := q;
      for k := 0 to |pairs|
        invariant r == q.(joins := q.joins + PairClauses(kind, left, right, pairs[..k]))
      {
        assert pairs[..k + 1][..k] == pairs[..k];
        r := r.(joins := r.joins + [JoinClause(kind, right, Column(left, pairs[k].leftField), Column(right, pairs[k].rightField))]);
      }
      assert pairs[..|pairs|] == pairs;
    }

    method BuildSelect(q: Query) returns (r: Result<Query, SqlError>)
      ensures r == SelectStage(tableMap, config.selectFields, q)
    {
      var fields := config.selectFields;
      var query := q;
      ghost var items: seq<SelectItem> := [];
      for i := 0 to |fields|
        invariant Collect(SelectItemFn(tableMap), fields[..i]) == Ok(items)
        invariant query == q.(select := q.select + items)
      {
        var field := fields[i];
        var col := GetField(field);
        if col.Err? {
          CollectFailsAt(SelectItemFn(tableMap), fields, i);
          return Err(col.error);
        }
        var expr := ColumnExpr(col.value);
        if field.aggregate.Some? {
          var fn := AggregateFunctionOf(field.aggregate.value);
          if fn.None? {
            CollectFailsAt(SelectItemFn(tableMap), fields, i);
            return Err(InvalidAggregateType(field.aggregate.value));
          }
          expr := AggregateExpr(fn.value, col.value);
        }
        var item := SelectItem(expr, field.displayName);
        CollectStep(SelectItemFn(tableMap), fields, i, items, item);
        query := query.(select := query.select + [item]);
        items := items + [item];
      }
      assert fields[..|fields|] == fields;
      return Ok(query);
    }

    method BuildWhere(q: Query) returns (r: Result<Query, SqlError>)
      ensures r == WhereStage(tableMap, config.where, q)
    {
      if config.where.Some? {
        var p :- ApplyWhereConditions(config.where.value);
        if p != EmptyCriterion {
          return Ok(q.(where := Some(p)));
        }
      }
      return Ok(q);
    }

    method HandleCondition(c: Condition) returns (r: Result<Criterion, SqlError>)
      ensures r == ConditionCriterion(tableMap, c)
    {
      var col :- GetField(c.field);
      var handler := OperatorHandler(c.operator);
      if handler.None? {
        return Err(UnsupportedOperator(c.operator));
      }
      if c.operator in {Include, Exclude} {
        return Ok(Basic(col, handler.value, ListOperand(c.filters)));
      }
      return Ok(Basic(col, handler.value, ScalarOperand(c.filter)));
    }

    /** Evaluates a where tree recursively, accumulating a group's children with `&=` or `|=`. */
    method ApplyWhereConditions(w: WhereCondition) returns (r: Result<Criterion, SqlError>)
      ensures r == EvalWhere(tableMap, w)
      decreases w
    {
      var acc := EmptyCriterion;
      if w.Leaf? {
        r := HandleCondition(w.condition);
        return;
      }
      for i := 0 to |w.conditions|
        invariant FoldPrefix(tableMap, w, i) == Ok(acc)
      {
        var sub := ApplyWhereConditions(w.conditions[i]);
        if sub.Err? {
          FoldErrExtends(tableMap, w, i + 1);
          return Err(sub.error);
        }
        if w.connector == And {
          acc := Conjoin(acc, sub.value);
        } else if w.connector == Or {
          acc := Disjoin(acc, sub.value);
        }
      }
      return Ok(acc);
    }

    method BuildGroupBy(q: Query) returns (r: Result<Query, SqlError>)
      ensures r == GroupByStage(tableMap, config, q)
    {
      var query := q;
      ghost var cols: seq<Column> := [];
      if config.groupBy != [] {
        var fields := config.groupBy;
        for i := 0 to |fields|
          invariant Collect(ColumnFn(tableMap), fields[..i]) == Ok(cols)
          invariant query == q.(groupBy := q.groupBy + cols)
        {
          var col := GetField(fields[i]);
          if col.Err? {
            CollectFailsAt(ColumnFn(tableMap), fields, i);
            return Err(col.error);
          }
          CollectStep(ColumnFn(tableMap), fields, i, cols, col.value);
          query := query.(groupBy := query.groupBy + [col.value]);
          cols := cols + [col.value];
        }
        assert fields[..|fields|] == fields;
      } else {
        if !HasAggregate(config.selectFields) {
          assert q.groupBy + [] == q.groupBy;
          return Ok(q);
        }
        var fields := config.selectFields;
        for i := 0 to |fields|
          invariant Collect(ColumnFn(tableMap), PlainFields(fields[..i])) == Ok(cols)
          invariant query == q.(groupBy := q.groupBy + cols)
        {
          PlainFieldsStep(fields, i);
          if fields[i].aggregate.None? {
            var col := GetField(fields[i]);
            if col.Err? {
              PlainFieldsFailAt(ColumnFn(tableMap), fields, i);
              return Err(col.error);
            }
            CollectAppend(ColumnFn(tableMap), PlainFields(fields[..i]), fields[i], cols, col.value);
            query := query.(groupBy := query.groupBy + [col.value]);
            cols := cols + [col.value];
          }
        }
        assert fields[..|fields|] == fields;
      }
      return Ok(query);
    }

    method BuildOrderBy(q: Query) returns (r: Result<Query, SqlError>)
      ensures r == OrderByStage(tableMap, config.orderBy, q)
    {
      var orders := config.orderBy;
      var query := q;
      ghost var items: seq<OrderItem> := [];
      for i := 0 to |orders|
        invariant Collect(OrderFn(tableMap), orders[..i]) == Ok(items)
        invariant query == q.(orderBy := q.orderBy + items)
      {
        var col := GetField(orders[i].field);
        if col.Err? {
          CollectFailsAt(OrderFn(tableMap), orders, i);
          return Err(col.error);
        }
        var item := OrderItem(col.value, orders[i].direction);
        CollectStep(OrderFn(tableMap), orders, i, items, item);
        query := query.(orderBy := query.orderBy + [item]);
        items := items + [item];
      }
      assert orders[..|orders|] == orders;
      return Ok(query);
    }

    method BuildPagination(q: Query) returns (r: Query)
      ensures r == PaginationStage(config.pagination, q)
    {
      r := q;
      if config.pagination.Some? {
        if config.pagination.value.limit != 0 {
          r := r.(limit := Some(config.pagination.value.limit));
        }
        if config.pagination.value.offset != 0 {
          r := r.(offset := Some(config.pagination.value.offset));
        }
      }
    }
  }
}
