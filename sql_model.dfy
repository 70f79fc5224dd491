/** The typed query configuration the compiler consumes, the clause values it produces and its
    errors. Python's falsy values are folded onto one representative each: an absent or empty
    `from_table` is "", an absent or empty list is [], an absent or zero limit/offset is 0. */
module SqlModel {
  import opened Results

  /** Operators a condition leaf may carry. `UnknownOperator` stands for a tag that has no
      handler, the case `UnsupportedOperatorError` reports. */
  datatype Operator = Eq | Neq | Reg | NReg | Include | Exclude | UnknownOperator(token: string)

  /** `INCLUDE` and `EXCLUDE` take the list-valued filter; all other operators the scalar one. */
  predicate IsListOperator(op: Operator) {
    op == Include || op == Exclude
  }

  /** Aggregate tags; `UnknownAggregate` has no aggregate function. */
  datatype AggregateType = Count | Sum | Max | Min | Avg | UnknownAggregate(tag: string)

  /** Join types; `UnknownJoinType` has no join method on the query builder. */
  datatype JoinType = InnerJoin | LeftJoin | RightJoin | FullOuterJoin | UnknownJoinType(token: string)

  datatype FilterConnector = And | Or

  datatype OrderDirection = Asc | Desc

  /** A literal filter value. */
  datatype Value = IntValue(i: int) | StrValue(s: string)

  // ---------------------------------------------------------------------------------------
  // Query configuration

  datatype Field = Field(table: string, rawName: string, displayName: string, fieldType: string,
                         aggregate: Option<AggregateType>)

  datatype Condition = Condition(field: Field, operator: Operator, filter: Value, filters: seq<Value>)

  /** A where-tree node: a leaf holding one condition, or a group of children joined by a connector. */
  datatype WhereCondition =
    | Leaf(connector: FilterConnector, condition: Condition)
    | Group(connector: FilterConnector, conditions: seq<WhereCondition>)

  datatype LinkField = LinkField(leftField: string, rightField: string)

  datatype JoinTable = JoinTable(joinType: JoinType, leftTable: string, rightTable: string,
                                 linkFields: seq<LinkField>)

  datatype Order = Order(field: Field, direction: OrderDirection)

  datatype Pagination = Pagination(limit: int, offset: int)

  datatype SqlConfig = SqlConfig(
    selectFields: seq<Field>,
    fromTable: string,
    joinTables: seq<JoinTable>,
    where: Option<WhereCondition>,
    groupBy: seq<Field>,
    orderBy: seq<Order>,
    pagination: Option<Pagination>)

  // ---------------------------------------------------------------------------------------
  // Clauses of the compiled query

  datatype Table = Table(name: string)

  datatype Column = Column(table: Table, name: string)

  datatype AggregateFunction = CountFn | SumFn | MaxFn | MinFn | AvgFn

  /** The aggregate function a tag stands for, or None when it has none. */
  function AggregateFunctionOf(a: AggregateType): Option<AggregateFunction> {
    match a
    case Count => Some(CountFn)
    case Sum => Some(SumFn)
    case Max => Some(MaxFn)
    case Min => Some(MinFn)
    case Avg => Some(AvgFn)
    case UnknownAggregate(_) => None
  }

  datatype Expr = ColumnExpr(column: Column) | AggregateExpr(fn: AggregateFunction, column: Column)

  datatype SelectItem = SelectItem(expr: Expr, alias: string)

  /** The binary predicate an operator's handler builds. */
  datatype Comparison = Equal | NotEqual | RegexMatch | RegexNoMatch | InSet | NotInSet

  /** The handler for an operator, or None when it has none. */
  function OperatorHandler(op: Operator): Option<Comparison> {
    match op
    case Eq => Some(Equal)
    case Neq => Some(NotEqual)
    case Reg => Some(RegexMatch)
    case NReg => Some(RegexNoMatch)
    case Include => Some(InSet)
    case Exclude => Some(NotInSet)
    case UnknownOperator(_) => None
  }

  datatype Operand = ScalarOperand(value: Value) | ListOperand(values: seq<Value>)

  /** A where predicate. `EmptyCriterion` is the identity the fold starts from. */
  datatype Criterion =
    | EmptyCriterion
    | Basic(column: Column, comparison: Comparison, operand: Operand)
    | AndCriterion(left: Criterion, right: Criterion)
    | OrCriterion(left: Criterion, right: Criterion)

  datatype JoinKind = Inner | LeftOuter | RightOuter | FullOuter

  /** The query-builder join method a join type resolves to, or None when there is none. */
  function JoinMethod(t: JoinType): Option<JoinKind> {
    match t
    case InnerJoin => Some(Inner)
    case LeftJoin => Some(LeftOuter)
    case RightJoin => Some(RightOuter)
    case FullOuterJoin => Some(FullOuter)
    case UnknownJoinType(_) => None
  }

  /** `JOIN table ON left = right`. */
  datatype JoinClause = JoinClause(kind: JoinKind, table: Table, left: Column, right: Column)

  datatype OrderItem = OrderItem(column: Column, direction: OrderDirection)

  datatype Query = Query(
    from: Option<Table>,
    joins: seq<JoinClause>,
    select: seq<SelectItem>,
    where: Option<Criterion>,
    groupBy: seq<Column>,
    orderBy: seq<OrderItem>,
    limit: Option<int>,
    offset: Option<int>)

  /** The blank query builder every compilation starts from. */
  const BlankQuery := Query(None, [], [], None, [], [], None, None)

  // ---------------------------------------------------------------------------------------
  // Errors

  datatype SqlError =
    | TableNotRegistered(table: string)
    | MissingFromOrJoin
    | UnsupportedJoinType(joinType: JoinType)
    | InvalidAggregateType(aggregate: AggregateType)
    | UnsupportedOperator(operator: Operator)
    | LinkTableNotFound(uid: string, version: int)
    | LinkTableConfigError
}
