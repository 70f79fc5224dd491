# Rule-audit SQL compiler of BlueKing Audit Center, in Dafny

BlueKing Audit Center compiles rule-audit strategies into SQL in two layers. This project models both.

- **`SQLGenerator`** compiles a typed query configuration in a fixed order of stages:
  1. register the declared tables;
  2. FROM and JOIN;
  3. SELECT, with aggregate wrapping and aliases;
  4. WHERE, by folding an AND/OR condition tree;
  5. GROUP BY, either explicit or inferred from the plain select fields;
  6. ORDER BY;
  7. LIMIT and OFFSET.

  Every table reference goes through one lookup, which fails for a table that was not declared.
- **`RuleAuditSQLGenerator`** adapts a strategy's JSON configuration into such a configuration:
  - it mirrors the user's where tree;
  - it resolves the data source as one table or as a stored link table of joins;
  - it injects `system_id IN (...)` conditions for scoped tables;
  - it wraps the generated query in an outer select. That select holds a `JSON_OBJECT` payload, the strategy id and one column per field mapping. A constant target value takes priority over a source field.

SQL text is not produced. The model produces clauses: `Query` holds from, joins, select items, an optional criterion, group-by columns, order items, limit and offset; `AuditQuery` is the outer select over it. Errors are the values of `SqlError`.

Modules:

- `Results`: `Option`, `Result`, and `Collect`, a map over a list that stops at the first failure.
- `OrderedDict`: a Python `dict` as an insertion-ordered list of pairs. Assigning to a present key keeps its position and replaces its value.
- `SqlModel`: the typed configuration, the clause datatypes and the errors.
- `SqlBuilder`:
  - one specification function per stage;
  - `Compile`, the whole compilation;
  - the class `SqlGenerator`. Its `tableMap` field is filled by `RegisterTables`, and each stage is a method proved equal to its stage function.
- `SqlBuilderProps`: what compilation promises about registration, errors, where trees and every clause, and exactly when it succeeds.
- `SqlExamples`: the generator's unit-test configurations and the clauses they compile to.
- `RuleAudit`:
  - the stored JSON, as datatypes;
  - the adapter's pure constructors and its specification functions;
  - the class `RuleAuditSqlGenerator`, whose looping methods are proved equal to those functions.
- `RuleAuditProps`: what the adapter promises about the where tree, the data source, the injected conditions and the outer select.

Behaviour worth noting:

- **FROM table.** When `from_table` is empty, the generator does not fill it in from the first join's left table. The model's query then has joins and no FROM.
- **Multiple link pairs.** The model gives one join clause per link pair. `_build_join` binds the join method once per join and calls `.on(...)` once per pair, rebinding `query` each time; the clauses the query builder keeps from that are not modelled.
- **Ignored keys.** The adapter never reads `group_by`, `order_by` or `pagination` from the JSON, so the configuration it builds has none of them.

## Model

| member | source | states |
|---|---|---|
| SqlBuilder.SqlGenerator.constructor | src/backend/core/sql/sql_builder.py:39-47 | keeps the configuration; the table map starts empty |
| SqlBuilder.SqlGenerator.RegisterTables | src/backend/core/sql/sql_builder.py:49-60 | the table map gains exactly the from-table (when non-empty) and both sides of every join, each under its own name |
| SqlBuilder.SqlGenerator.GetTable | src/backend/core/sql/sql_builder.py:62-66 | a registered name gives its table; any other name fails with TableNotRegistered of that name |
| SqlBuilder.SqlGenerator.GetField | src/backend/core/sql/sql_builder.py:68-70 | a field is the column `raw_name` of its table, through the same lookup |
| SqlBuilder.SqlGenerator.Generate | src/backend/core/sql/sql_builder.py:72-82 | registers the tables, then runs from, select, where, group by, order by and pagination in that order; the result is `Compile(config)` |
| SqlBuilder.SqlGenerator.BuildFrom | src/backend/core/sql/sql_builder.py:84-92 | fails with MissingFromOrJoin when there is neither a from-table nor a join; otherwise sets FROM for a non-empty from-table and adds the joins |
| SqlBuilder.SqlGenerator.BuildJoin | src/backend/core/sql/sql_builder.py:94-110 | joins in list order; both sides are looked up; an unknown join type fails with UnsupportedJoinType |
| SqlBuilder.SqlGenerator.JoinOn | src/backend/core/sql/sql_builder.py:106-109 | appends one `JOIN right ON left.l = right.r` per link pair, in pair order, and changes nothing else |
| SqlBuilder.SqlGenerator.BuildSelect | src/backend/core/sql/sql_builder.py:112-127 | select items in field order, aliased to the display name, wrapped in the aggregate's function; an aggregate without one fails with InvalidAggregateType |
| SqlBuilder.SqlGenerator.BuildWhere | src/backend/core/sql/sql_builder.py:129-135 | adds WHERE only when there is a where tree and its criterion is not empty |
| SqlBuilder.SqlGenerator.HandleCondition | src/backend/core/sql/sql_builder.py:137-148 | the column is looked up first; an operator without a handler fails with UnsupportedOperator; INCLUDE/EXCLUDE compare with the filter list, every other operator with the scalar filter |
| SqlBuilder.SqlGenerator.ApplyWhereConditions | src/backend/core/sql/sql_builder.py:150-163 | a leaf gives its condition's criterion; a group folds its children left to right from the empty criterion with AND or OR |
| SqlBuilder.SqlGenerator.BuildGroupBy | src/backend/core/sql/sql_builder.py:165-180 | explicit group-by columns in order; otherwise, if some select field is aggregated, the plain select fields in select order |
| SqlBuilder.SqlGenerator.BuildOrderBy | src/backend/core/sql/sql_builder.py:182-188 | order items in entry order with their directions, through the table lookup |
| SqlBuilder.SqlGenerator.BuildPagination | src/backend/core/sql/sql_builder.py:190-197 | LIMIT for a non-zero limit and OFFSET for a non-zero offset, each on its own; no pagination leaves the query unchanged |
| SqlBuilder.ConditionCriterion | src/backend/core/sql/sql_builder.py:137-148 | succeeds exactly when the table is registered and the operator has a handler; the error names the table first, then the operator; on success, the column, the handler's comparison, and the list or scalar operand chosen by the operator |
| SqlBuilderProps.JoinSidesMembers | src/backend/core/sql/sql_builder.py:54-57 | a name is a join side exactly when some join has it as its left or right table |
| SqlBuilderProps.RegistryLookup | src/backend/core/sql/sql_builder.py:49-66 | a name is registered exactly when it is the non-empty from-table or a join side; lookup gives `Table(name)` or TableNotRegistered(name) |
| SqlBuilderProps.ColumnsOk | src/backend/core/sql/sql_builder.py:68-70 | looking up a list of fields succeeds exactly when every field's table is registered, and then gives each field's column in order |
| SqlBuilderProps.EvalWhereOk | src/backend/core/sql/sql_builder.py:150-163 | a where tree compiles exactly when every leaf's table is registered and every leaf's operator has a handler |
| SqlBuilderProps.EvalWhereErr | src/backend/core/sql/sql_builder.py:137-163 | a failing where tree reports an unregistered table it references, or an operator without a handler that one of its leaves uses |
| SqlBuilderProps.EvalWhereEmpty | src/backend/core/sql/sql_builder.py:150-163 | a compiled where tree is the empty criterion exactly when it has no leaf |
| SqlBuilderProps.WhereMeaning | src/backend/core/sql/sql_builder.py:150-163 | if every group has children, the folded criterion holds exactly when the tree is satisfied: an AND group needs all of its children, an OR group at least one |
| SqlBuilderProps.PlainFieldsMembers | src/backend/core/sql/sql_builder.py:177-179 | a field is grouped by inference exactly when it is a select field without an aggregate |
| SqlBuilderProps.PlainFieldsEmpty | src/backend/core/sql/sql_builder.py:173-179 | the inferred grouping is empty exactly when every select field is aggregated |
| SqlBuilderProps.FromStageErr | src/backend/core/sql/sql_builder.py:84-110 | with the registered tables, FROM/JOIN fails only with MissingFromOrJoin, when there is no source, or with UnsupportedJoinType of some listed join's type that has no join method |
| SqlBuilderProps.CompileMissingSource | src/backend/core/sql/sql_builder.py:72-87 | compilation fails with MissingFromOrJoin exactly when there is neither a from-table nor a join |
| SqlBuilderProps.CompileErrKinds | src/backend/core/sql/sql_builder.py:72-82 | every failure is one of: missing source, the unknown type of a listed join, an unregistered table that the configuration references, an aggregate without a function that a select field carries, an operator without a handler that a where leaf uses |
| SqlBuilderProps.CompileOkRegistered | src/backend/core/sql/sql_builder.py:62-70 | a successful compilation implies that every select, group-by and order-by table is registered, the where tree compiles, and every join type is known |
| SqlBuilderProps.UnregisteredReferenceFails | src/backend/core/sql/sql_builder.py:62-66 | referencing an undeclared table anywhere makes compilation fail |
| SqlBuilderProps.UnregisteredReferenceNamed | src/backend/core/sql/sql_builder.py:62-66 | with a source and every join type, aggregate and operator known, a reference to an undeclared table fails with TableNotRegistered, naming an undeclared table the configuration references |
| SqlBuilderProps.CompilableReferences | src/backend/core/sql/sql_builder.py:139 | every table that a compilable where tree references is registered |
| SqlBuilderProps.CompileStages | src/backend/core/sql/sql_builder.py:72-82 | a successful compilation passes through every stage in order, each succeeding on the previous stage's query |
| SqlBuilderProps.GenerateStages | src/backend/core/sql/sql_builder.py:72-82 | over any table map, a successful generation is the six stages run in order, each succeeding on the previous stage's query |
| SqlBuilderProps.GenerateFromJoins | src/backend/core/sql/sql_builder.py:72-82 | the from table and the joins of a successful generation are those the FROM stage set; later stages leave them alone |
| SqlBuilderProps.GenerateSelect | src/backend/core/sql/sql_builder.py:72-82 | the select list of a successful generation is exactly the collected select items |
| SqlBuilderProps.GenerateWhere | src/backend/core/sql/sql_builder.py:72-82 | the where criterion of a successful generation is the folded tree, or none for a missing tree or an empty criterion |
| SqlBuilderProps.GenerateGroupBy | src/backend/core/sql/sql_builder.py:72-82 | the group-by list of a successful generation is exactly the group-by columns |
| SqlBuilderProps.GenerateOrderBy | src/backend/core/sql/sql_builder.py:72-82 | the order-by list of a successful generation is exactly the collected order items |
| SqlBuilderProps.GeneratePagination | src/backend/core/sql/sql_builder.py:72-82 | the limit and offset of a successful generation are the non-zero pagination values and nothing else |
| SqlBuilderProps.CompileFromJoins | src/backend/core/sql/sql_builder.py:84-110 | FROM is the from-table when it is non-empty, otherwise absent; the join clauses are the per-pair clauses of every join, concatenated in list order, with each join's kind |
| SqlBuilderProps.CompileSelect | src/backend/core/sql/sql_builder.py:112-127 | one select item per field in order: the column, wrapped in the aggregate's function when the field is tagged, aliased to the display name |
| SqlBuilderProps.CompileWhere | src/backend/core/sql/sql_builder.py:129-135 | WHERE is present exactly when there is a where tree with a leaf, and it is that tree's folded criterion |
| SqlBuilderProps.CompileGroupBy | src/backend/core/sql/sql_builder.py:165-180 | explicit group-by columns in order; no grouping without an aggregate; otherwise the plain select fields' columns in select order |
| SqlBuilderProps.CompileOrderBy | src/backend/core/sql/sql_builder.py:182-188 | one order item per entry, in order, with its column and direction |
| SqlBuilderProps.CompilePagination | src/backend/core/sql/sql_builder.py:190-197 | limit and offset are exactly the non-zero pagination values; removing pagination keeps a success |
| SqlBuilderProps.PaginationNeverFails | src/backend/core/sql/sql_builder.py:190-197 | with any pagination, compilation succeeds exactly when it succeeds without one |
| SqlBuilderProps.CompileOkIff | src/backend/core/sql/sql_builder.py:72-197 | compilation succeeds if and only if: there is a source; every join type is known; every select, group-by and order-by table is registered; every aggregate has a function; the where tree compiles |
| SqlBuilderProps.CompilesOk | src/backend/core/sql/sql_builder.py:72-197 | those conditions are enough for every stage to succeed |
| SqlExamples.SingleTableQuery | src/backend/tests/test_core/sql/test_sql_builder.py:52-64 | two columns of one table: FROM that table, both columns aliased, no other clause |
| SqlExamples.JoinTableQuery | src/backend/tests/test_core/sql/test_sql_builder.py:66-89 | an INNER JOIN on one pair gives one join clause `orders ON users.id = orders.user_id` |
| SqlExamples.WhereConditions | src/backend/tests/test_core/sql/test_sql_builder.py:91-132 | an AND group of two EQ leaves gives `age = 18 AND country = 'Ireland'` |
| SqlExamples.InvalidFieldSource | src/backend/tests/test_core/sql/test_sql_builder.py:134-145 | a select column of an undeclared table fails with TableNotRegistered("invalid_table") |
| SqlExamples.OrderByInvalidTable | src/backend/tests/test_core/sql/test_sql_builder.py:147-166 | an order-by column of an undeclared table fails with TableNotRegistered("orders") |
| SqlExamples.MultipleJoinTables | src/backend/tests/test_core/sql/test_sql_builder.py:182-216 | an INNER and then a LEFT join give their clauses in that order, with their kinds |
| SqlExamples.ExplicitGroupBy | src/backend/tests/test_core/sql/test_sql_builder.py:244-274 | an explicit group-by is used as given; a single-leaf WHERE is that leaf's comparison |
| SqlExamples.AutoInferredGroupBy | src/backend/tests/test_core/sql/test_sql_builder.py:276-301 | `id` and SUM(`amount`) are grouped by `id` alone |
| SqlExamples.MultipleAggregates | src/backend/tests/test_core/sql/test_sql_builder.py:396-426 | COUNT, MAX and a plain `status` are grouped by `status` alone |
| SqlExamples.JoinWithOrderByAndPagination | src/backend/tests/test_core/sql/test_sql_builder.py:720-757 | ORDER BY `created_at` DESC, LIMIT 10, OFFSET 20 |
| SqlExamples.UnsupportedOperatorRefused | src/backend/core/sql/sql_builder.py:141-143 | a where leaf with an operator outside the supported set fails with UnsupportedOperator |
| SqlExamples.MissingSource | src/backend/core/sql/sql_builder.py:86-87 | no from-table and no join fails with MissingFromOrJoin |
| SqlExamples.SelectFailsBeforeOrderBy | src/backend/core/sql/sql_builder.py:76-80 | SELECT runs before ORDER BY, so the undeclared select table is the one reported |
| OrderedDict.PutKeys | src/backend/services/web/strategy_v2/handlers/rule_audit.py:172-174 | assigning a key appends it only if it is absent; the order of the other keys is kept |
| OrderedDict.PutGet | src/backend/services/web/strategy_v2/handlers/rule_audit.py:172-174 | after assigning, the key holds the new value and every other key keeps its value |
| OrderedDict.PutUnique | src/backend/services/web/strategy_v2/handlers/rule_audit.py:172-174 | assigning into a dictionary keeps its keys unique |
| OrderedDict.FromPairsLaws | src/backend/services/web/strategy_v2/handlers/rule_audit.py:164-174 | a dictionary filled by assignments has unique keys in order of first assignment, each holding its last assigned value |
| RuleAudit.TransField | src/backend/services/web/strategy_v2/handlers/rule_audit.py:103-113 | `rt_id` becomes the table and the other attributes are copied; it is the unique inverse of storing a field as JSON |
| RuleAudit.TransFields | src/backend/services/web/strategy_v2/handlers/rule_audit.py:201-202 | one field per JSON field, in order, each translating back to its JSON |
| RuleAudit.ParseSingleCondition | src/backend/services/web/strategy_v2/handlers/rule_audit.py:92-101 | the field and operator are kept; an absent `filters` becomes the empty list and an absent `filter` the empty string; with both present, it inverts storing the condition |
| RuleAudit.SystemIdsCondition | src/backend/services/web/strategy_v2/handlers/rule_audit.py:115-129 | an AND leaf on the table's system-id field, not aggregated, with the INCLUDE operator over exactly the given ids |
| RuleAudit.SingleSource | src/backend/services/web/strategy_v2/handlers/rule_audit.py:131-141 | the from-table is the data source's table, there are no joins, and the scope dictionary has that table as its only key, holding its system ids or `[]` when absent |
| RuleAudit.LinkFieldsOf | src/backend/services/web/strategy_v2/handlers/rule_audit.py:177-179 | one link pair per JSON pair, in order, with the same left and right fields |
| RuleAudit.MappedColumn | src/backend/services/web/strategy_v2/handlers/rule_audit.py:265-269 | a column exists exactly when the target value or the source field is truthy; the target value wins, then the sub-table column named by the source field; the alias is the field name |
| RuleAudit.RuleAuditSqlGenerator.constructor | src/backend/services/web/strategy_v2/handlers/rule_audit.py:65-67 | keeps the strategy |
| RuleAudit.RuleAuditSqlGenerator.ParseWhereCondition | src/backend/services/web/strategy_v2/handlers/rule_audit.py:69-90 | the recursive parse with its appending loop equals `ParseWhere` |
| RuleAudit.RuleAuditSqlGenerator.BuildLinkTableConfig | src/backend/services/web/strategy_v2/handlers/rule_audit.py:143-191 | the lookup and the loop over links, which appends joins and assigns scopes, equal `LinkSource` |
| RuleAudit.RuleAuditSqlGenerator.Format | src/backend/services/web/strategy_v2/handlers/rule_audit.py:193-235 | choosing the source by config type and merging the user's where with the system-id conditions equals `FormatSpec` |
| RuleAudit.RuleAuditSqlGenerator.BuildSql | src/backend/services/web/strategy_v2/handlers/rule_audit.py:237-271 | mapping, configuration, inner generation and outer columns equal `AuditSql` |
| RuleAudit.RuleAuditSqlGenerator.BuildFieldMapping | src/backend/services/web/strategy_v2/handlers/rule_audit.py:245-249 | the dict comprehension over the configs equals `FieldMapping` |
| RuleAudit.RuleAuditSqlGenerator.BuildJsonObjArgs | src/backend/services/web/strategy_v2/handlers/rule_audit.py:254-256 | the `extend` loop equals `JsonArgs` |
| RuleAudit.RuleAuditSqlGenerator.AppendMappedColumns | src/backend/services/web/strategy_v2/handlers/rule_audit.py:265-269 | the `append` loop adds exactly `MappedColumns` after the given columns |
| RuleAuditProps.ParseChildrenAt | src/backend/services/web/strategy_v2/handlers/rule_audit.py:83-85 | the parsed children are the JSON children parsed one by one, in order |
| RuleAuditProps.ParseWhereShape | src/backend/services/web/strategy_v2/handlers/rule_audit.py:69-90 | the connector is kept; a node is a leaf exactly when it has a condition; a group has one parsed child per JSON child, in order |
| RuleAuditProps.ParseWhereRoundTrip | src/backend/services/web/strategy_v2/handlers/rule_audit.py:69-101 | parsing the stored JSON of any where tree gives that tree back |
| RuleAuditProps.JoinsOfAt | src/backend/services/web/strategy_v2/handlers/rule_audit.py:166-189 | one join per link, in link order |
| RuleAuditProps.ScopeEntriesKeys | src/backend/services/web/strategy_v2/handlers/rule_audit.py:170-174 | a table is assigned a scope exactly when it is an EVENT_LOG side of some link |
| RuleAuditProps.LinkSourceErrors | src/backend/services/web/strategy_v2/handlers/rule_audit.py:150-158 | a missing link table fails with LinkTableNotFound; one without links fails with LinkTableConfigError; every other link table resolves |
| RuleAuditProps.LinkSourceShape | src/backend/services/web/strategy_v2/handlers/rule_audit.py:160-191 | from-table is the first link's left table; one join per link with its type, tables and pairs; the scope map holds each EVENT_LOG table once, in order of first appearance, with its last list |
| RuleAuditProps.LinkScopeKeys | src/backend/services/web/strategy_v2/handlers/rule_audit.py:170-174 | a table is in the resolved scope map exactly when it is an EVENT_LOG side of some link |
| RuleAuditProps.SystemConditionsEmpty | src/backend/services/web/strategy_v2/handlers/rule_audit.py:217-222 | no system-id condition is made exactly when every scoped table has an empty list |
| RuleAuditProps.SystemConditionsMembers | src/backend/services/web/strategy_v2/handlers/rule_audit.py:217-222 | each system-id condition belongs to a scoped table with a non-empty list, and each such table has one |
| RuleAuditProps.FinalWhereShape | src/backend/services/web/strategy_v2/handlers/rule_audit.py:210-227 | no where exactly when there is no user where and every list is empty; otherwise an AND group of the user's tree first, then the system-id conditions |
| RuleAuditProps.FormatSingleTable | src/backend/services/web/strategy_v2/handlers/rule_audit.py:131-141 | a single-table config never fails: that table, no joins, and the table's own system ids, with `[]` when absent |
| RuleAuditProps.FormatShape | src/backend/services/web/strategy_v2/handlers/rule_audit.py:193-235 | fails exactly when the source fails, with that error; otherwise the translated select fields, the source's tables, the final where, and no grouping, ordering or pagination |
| RuleAuditProps.InjectedConditionsCompile | src/backend/services/web/strategy_v2/handlers/rule_audit.py:217-222 | when the configuration has a source, every injected system-id condition compiles over its registered tables |
| RuleAuditProps.ScopedConditionsCompile | src/backend/services/web/strategy_v2/handlers/rule_audit.py:217-222 | over a table map holding every scoped table, each system-id condition compiles |
| RuleAuditProps.JsonArgsShape | src/backend/services/web/strategy_v2/handlers/rule_audit.py:254-256 | the JSON object arguments alternate display name and sub-table column, two per select field, in order |
| RuleAuditProps.FieldMappingLaws | src/backend/services/web/strategy_v2/handlers/rule_audit.py:245-249 | the mapping has unique field names in order of first appearance, each with the mapping of its last config |
| RuleAuditProps.MapEntriesKeys | src/backend/services/web/strategy_v2/handlers/rule_audit.py:245-249 | a field name is mapped exactly when some config with that name has a mapping |
| RuleAuditProps.MappedColumnsFrom | src/backend/services/web/strategy_v2/handlers/rule_audit.py:265-269 | every mapping column comes from a mapping of the dictionary under the precedence rule |
| RuleAuditProps.MappedColumnsAll | src/backend/services/web/strategy_v2/handlers/rule_audit.py:265-269 | every mapping that yields a column contributes it |
| RuleAuditProps.MappedColumnsDistinct | src/backend/services/web/strategy_v2/handlers/rule_audit.py:265-269 | over a dictionary, whose keys are unique, the mapping columns have distinct aliases |
| RuleAuditProps.AuditSqlShape | src/backend/services/web/strategy_v2/handlers/rule_audit.py:237-271 | fails exactly with the configuration's or the compilation's error; otherwise the inner query under `sub_table`, then the JSON payload, the strategy id and the mapping columns |

## Left out

- SQL text: the model produces clause values instead, so pypika's rendering, quoting and table aliases are not modelled. This covers `FROM "users" "users"`, OR parenthesisation and the `JSON_OBJECT` function object.
- The pypika builder object that is threaded through the stages: the stages act on the `Query` value instead.
- Several link pairs on one join: each pair gives its own join clause. The model makes no claim about how pypika combines them, or whether only the last pair's clause survives.
- Joins without a FROM table: when `from_table` is empty the model returns a query with joins and no FROM. What pypika does with such a join (it may raise a join exception, since the ON criterion names a table that is not in FROM) is not modelled.
- Validation of the typed configuration: the pydantic models and enums are not part of this model. Unknown operators, aggregates and join types are `UnknownOperator`, `UnknownAggregate` and `UnknownJoinType` values, which reach the generator's own checks instead of failing at construction.
- Missing required JSON keys: the `KeyError` a missing required key raises is not modelled, because required keys are plain fields of the JSON datatypes.
- JSON key states: a key read with a default is an `Option`. An empty `condition` or `map_config` object counts as absent, as a falsy value does in the source.
- The database lookup of a link table: the stored link tables are a parameter (`store`), and a miss is the error `LinkTableNotFound`, standing for the 404.
- Constant names: the names of the system-id field and of the event-mapping fields are defined outside the adapter, so fixed placeholder strings stand in for them. So does the scalar filter of the injected condition, which its list operator ignores.
- Truthiness of values: an empty from-table, a zero limit or offset and an empty list count as absent. Other falsy values, such as a `False` filter, are not distinguished.
