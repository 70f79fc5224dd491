/** The rule-audit adapter: turns a strategy's JSON configuration into a query configuration
    for the SQL generator (the data source as a single table or a stored list of joins, the
    user's where tree, and `system_id IN (...)` conditions for every scoped table), then wraps
    the generated query in an outer select that packs the inner columns into a JSON object and
    adds the strategy id and the mapped event fields. */
module RuleAudit {
  import opened Results
  import opened OrderedDict
  import opened SqlModel
  import opened SqlBuilder

  // ---------------------------------------------------------------------------------------
  // The JSON the front end stores. A key read with a default, or tested for truthiness, is an
  // `Option` (or a list that is empty when absent); a key read with `[...]` is a plain field.

  datatype FieldJson = FieldJson(rtId: string, rawName: string, displayName: string, fieldType: string,
                                 aggregate: Option<AggregateType>)

  datatype ConditionJson = ConditionJson(field: FieldJson, operator: Operator,
                                         filters: Option<seq<Value>>, filter: Option<Value>)

  /** `condition` is None when the key is absent or its object is empty (falsy). */
  datatype WhereJson = WhereJson(connector: FilterConnector, condition: Option<ConditionJson>,
                                 conditions: seq<WhereJson>)

  datatype TableType = EventLog | OtherTableType(tag: string)

  datatype LinkSideJson = LinkSideJson(rtId: string, tableType: TableType, systemIds: Option<seq<Value>>)

  datatype LinkFieldJson = LinkFieldJson(leftField: string, rightField: string)

  datatype LinkJson = LinkJson(leftTable: LinkSideJson, rightTable: LinkSideJson, joinType: JoinType,
                               linkFields: seq<LinkFieldJson>)

  /** The `config` of a stored link table. */
  datatype LinkConfig = LinkConfig(links: seq<LinkJson>)

  /** The key a link table is stored under. */
  datatype LinkTableRef = LinkTableRef(uid: string, version: int)

  datatype DataSourceJson = DataSourceJson(rtId: string, systemIds: Option<seq<Value>>, linkTable: LinkTableRef)

  /** Every configuration type other than the link table is handled as a single table. */
  datatype ConfigType = LinkTable | OtherConfigType(tag: string)

  datatype ConfigJson = ConfigJson(configType: ConfigType, dataSource: DataSourceJson,
                                   select: seq<FieldJson>, where: Option<WhereJson>)

  /** A field mapping: a constant target value, or the display name of an inner column. */
  datatype FieldMap = FieldMap(sourceField: Option<string>, targetValue: Option<string>)

  /** `mapConfig` is None when the key is absent or its object is empty (falsy). */
  datatype EventFieldConfig = EventFieldConfig(fieldName: string, mapConfig: Option<FieldMap>)

  datatype Strategy = Strategy(strategyId: int, configs: ConfigJson, eventBasicFieldConfigs: seq<EventFieldConfig>)

  // ---------------------------------------------------------------------------------------
  // The outer query

  datatype JsonArg = NameLiteral(name: string) | SubTableField(name: string)

  datatype OuterColumn =
    | JsonObjectColumn(args: seq<JsonArg>, alias: string)
    | IntConstant(value: int, alias: string)
    | StrConstant(text: string, alias: string)
    | SubTableColumn(field: string, alias: string)

  /** `SELECT columns FROM (subQuery) subAlias`. */
  datatype AuditQuery = AuditQuery(subQuery: Query, subAlias: string, columns: seq<OuterColumn>)

  /** A resolved data source: from-table, joins and the scope map (table -> system ids) in
      insertion order. */
  datatype Source = Source(fromTable: string, joinTables: seq<JoinTable>, scopes: seq<(string, seq<Value>)>)

  /** Names of the system-id field and of the event fields; these are defined outside the
      adapter and stand here as placeholders. */
  const SystemIdFieldName := "system_id"
  const SystemIdAlias := "system_id"
  const SystemIdFieldType := "string"
  const EventDataField := "event_data"
  const StrategyIdField := "strategy_id"
  const SubTableAlias := "sub_table"
  /** The scalar filter of a condition built without one (the list operator ignores it). */
  const UnsetFilter := StrValue("")

  // ---------------------------------------------------------------------------------------
  // Fields and conditions

  /** The JSON a field is stored as. */
  function FieldToJson(f: Field): FieldJson {
    FieldJson(f.table, f.rawName, f.displayName, f.fieldType, f.aggregate)
  }

  /** `rt_id` becomes the table name; the other attributes are copied unchanged. */
  function TransField(j: FieldJson): (r: Field)
    ensures FieldToJson(r) == j
    ensures forall f :: FieldToJson(f) == j ==> f == r
  {
    Field(j.rtId, j.rawName, j.displayName, j.fieldType, j.aggregate)
  }

  function TransFields(js: seq<FieldJson>): (r: seq<Field>)
    ensures |r| == |js| && forall i :: 0 <= i < |js| ==> FieldToJson(r[i]) == js[i]
  {
    seq(|js|, i requires 0 <= i < |js| => TransField(js[i]))
  }

  /** The JSON a condition is stored as, with both filters present. */
  function ConditionToJson(c: Condition): ConditionJson {
    ConditionJson(FieldToJson(c.field), c.operator, Some(c.filters), Some(c.filter))
  }

  /** An absent `filters` is the empty list and an absent `filter` the empty string. */
  function ParseSingleCondition(c: ConditionJson): (r: Condition)
    ensures FieldToJson(r.field) == c.field && r.operator == c.operator
    ensures r.filters == (if c.filters.Some? then c.filters.value else [])
    ensures r.filter == (if c.filter.Some? then c.filter.value else StrValue(""))
    ensures c.filters.Some? && c.filter.Some? ==> ConditionToJson(r) == c
  {
    Condition(TransField(c.field), c.operator, c.filter.GetOr(StrValue("")), c.filters.GetOr([]))
  }

  // ---------------------------------------------------------------------------------------
  // The where tree

  /** A node with a condition is a leaf; any other node is a group of its parsed children.
      The connector is copied either way. */
  function ParseWhere(w: WhereJson): WhereCondition
    decreases w, 1, 0
  {
    match w.condition
    case Some(c) => Leaf(w.connector, ParseSingleCondition(c))
    case None => Group(w.connector, ParseChildren(w, |w.conditions|))
  }

  /** The parsed first `k` children. */
  function ParseChildren(w: WhereJson, k: nat): seq<WhereCondition>
    requires k <= |w.conditions|
    decreases w, 0, k
  {
    if k == 0 then [] else ParseChildren(w, k - 1) + [ParseWhere(w.conditions[k - 1])]
  }

  /** The JSON a where tree is stored as. */
  function WhereToJson(wc: WhereCondition): WhereJson
    decreases wc
  {
    match wc
    case Leaf(conn, c) => WhereJson(conn, Some(ConditionToJson(c)), [])
    case Group(conn, cs) => WhereJson(conn, None, seq(|cs|, i requires 0 <= i < |cs| => WhereToJson(cs[i])))
  }

  /** `system_id IN ids` on the given table, as an AND leaf. */
  function SystemIdsCondition(rtId: string, ids: seq<Value>): (r: WhereCondition)
    ensures r.Leaf? && r.connector == And
    ensures r.condition.field.table == rtId && r.condition.field.rawName == SystemIdFieldName
    ensures r.condition.field.aggregate.None?
    ensures r.condition.operator == Include && r.condition.filters == ids
  {
    Leaf(And, Condition(Field(rtId, SystemIdFieldName, SystemIdAlias, SystemIdFieldType, None), Include, UnsetFilter, ids))
  }

  // ---------------------------------------------------------------------------------------
  // Data sources

  /** One table, no joins, and that table scoped by its system ids (none when absent). */
  function SingleSource(ds: DataSourceJson): (r: Source)
    ensures r.fromTable == ds.rtId && r.joinTables == []
    ensures Keys(r.scopes) == [ds.rtId] && UniqueKeys(r.scopes)
    ensures Get(r.scopes, ds.rtId) == Some(if ds.systemIds.Some? then ds.systemIds.value else [])
  {
    Source(ds.rtId, [], [(ds.rtId, ds.systemIds.GetOr([]))])
  }

  function LinkFieldsOf(lfs: seq<LinkFieldJson>): (r: seq<LinkField>)
    ensures |r| == |lfs|
    ensures forall i :: 0 <= i < |lfs| ==> r[i].leftField == lfs[i].leftField && r[i].rightField == lfs[i].rightField
  {
    seq(|lfs|, i requires 0 <= i < |lfs| => LinkField(lfs[i].leftField, lfs[i].rightField))
  }

  /** The join a link describes. */
  function JoinOf(lk: LinkJson): JoinTable {
    JoinTable(lk.joinType, lk.leftTable.rtId, lk.rightTable.rtId, LinkFieldsOf(lk.linkFields))
  }

  function JoinsOf(links: seq<LinkJson>): seq<JoinTable>
    decreases |links|
  {
    if |links| == 0 then [] else JoinsOf(links[..|links| - 1]) + [JoinOf(links[|links| - 1])]
  }

  /** The scope entry of one side of a link: event-log tables only. */
  function SideEntry(side: LinkSideJson): seq<(string, seq<Value>)> {
    if side.tableType == EventLog then [(side.rtId, side.systemIds.GetOr([]))] else []
  }

  /** The scope assignments of the links in order: left side, then right side, of each link. */
  function ScopeEntries(links: seq<LinkJson>): seq<(string, seq<Value>)>
    decreases |links|
  {
    if |links| == 0 then []
    else
      var lk := links[|links| - 1];
      ScopeEntries(links[..|links| - 1]) + SideEntry(lk.leftTable) + SideEntry(lk.rightTable)
  }

  /** Assigning one side's scope entry into a dictionary. */
  lemma SideAssign(before: seq<(string, seq<Value>)>, side: LinkSideJson)
    ensures side.tableType == EventLog ==>
              FromPairs(before + SideEntry(side)) == Put(FromPairs(before), side.rtId, side.systemIds.GetOr([]))
    ensures side.tableType != EventLog ==> FromPairs(before + SideEntry(side)) == FromPairs(before)
  {
    if side.tableType == EventLog {
      FromPairsAppend(before, side.rtId, side.systemIds.GetOr([]));
    } else {
      assert before + SideEntry(side) == before;
    }
  }

  /** One more link adds its join and the scope entries of its two sides. */
  lemma LinksPrefix(links: seq<LinkJson>, i: nat)
    requires i < |links|
    ensures JoinsOf(links[..i + 1]) == JoinsOf(links[..i]) + [JoinOf(links[i])]
    ensures ScopeEntries(links[..i + 1]) ==
            ScopeEntries(links[..i]) + SideEntry(links[i].leftTable) + SideEntry(links[i].rightTable)
  {
    assert links[..i + 1][..i] == links[..i];
  }

  /** A stored link table: missing is an error, no links is an error; otherwise the first
      link's left table is the from-table, each link is a join, and the scope map is built by
      assigning the event-log sides in order. */
  function LinkSource(ds: DataSourceJson, store: map<LinkTableRef, LinkConfig>): Result<Source, SqlError> {
    if ds.linkTable !in store then Err(LinkTableNotFound(ds.linkTable.uid, ds.linkTable.version))
    else
      var links := store[ds.linkTable].links;
      if |links| == 0 then Err(LinkTableConfigError)
      else Ok(Source(links[0].leftTable.rtId, JoinsOf(links), FromPairs(ScopeEntries(links))))
  }

  function SourceOf(cfg: ConfigJson, store: map<LinkTableRef, LinkConfig>): Result<Source, SqlError> {
    if cfg.configType == LinkTable then LinkSource(cfg.dataSource, store) else Ok(SingleSource(cfg.dataSource))
  }

  // ---------------------------------------------------------------------------------------
  // The query configuration

  /** The system-id conditions of the scope map, in its order, skipping empty id lists. */
  function SystemConditions(scopes: seq<(string, seq<Value>)>): seq<WhereCondition>
    decreases |scopes|
  {
    if |scopes| == 0 then []
    else
      var (rtId, ids) := scopes[|scopes| - 1];
      SystemConditions(scopes[..|scopes| - 1]) + (if ids == [] then [] else [SystemIdsCondition(rtId, ids)])
  }

  /** One more scope entry adds its condition to the merged list unless its id list is empty. */
  lemma MergeStep(head: seq<WhereCondition>, scopes: seq<(string, seq<Value>)>, i: nat, acc: seq<WhereCondition>)
    requires i < |scopes| && acc == head + SystemConditions(scopes[..i])
    ensures scopes[i].1 == [] ==> acc == head + SystemConditions(scopes[..i + 1])
    ensures scopes[i].1 != [] ==> acc + [SystemIdsCondition(scopes[i].0, scopes[i].1)] == head + SystemConditions(scopes[..i + 1])
  {
    assert scopes[..i + 1][..i] == scopes[..i];
    if scopes[i].1 == [] {
      assert SystemConditions(scopes[..i]) + [] == SystemConditions(scopes[..i]);
    }
  }

  function FrontWhere(cfg: ConfigJson): Option<WhereCondition> {
    match cfg.where
    case None => None
    case Some(w) => Some(ParseWhere(w))
  }

  /** The conditions to merge: the user's tree first, then the system-id conditions. */
  function MergedConditions(front: Option<WhereCondition>, scopes: seq<(string, seq<Value>)>): seq<WhereCondition> {
    (match front case None => [] case Some(w) => [w]) + SystemConditions(scopes)
  }

  /** No where clause when there is nothing to merge; otherwise an AND group of the merged conditions. */
  function FinalWhere(front: Option<WhereCondition>, scopes: seq<(string, seq<Value>)>): Option<WhereCondition> {
    var merged := MergedConditions(front, scopes);
    if merged == [] then None else Some(Group(And, merged))
  }

  /** What `format` returns: no grouping, ordering or pagination is taken from the JSON. */
  function FormatSpec(cfg: ConfigJson, store: map<LinkTableRef, LinkConfig>): Result<SqlConfig, SqlError> {
    var select := TransFields(cfg.select);
    var src :- SourceOf(cfg, store);
    Ok(SqlConfig(select, src.fromTable, src.joinTables, FinalWhere(FrontWhere(cfg), src.scopes), [], [], None))
  }

  // ---------------------------------------------------------------------------------------
  // The outer select

  /** A display name and the inner column of that name, for every inner select field. */
  function JsonArgs(fs: seq<Field>): seq<JsonArg>
    decreases |fs|
  {
    if |fs| == 0 then []
    else
      var f := fs[|fs| - 1];
      JsonArgs(fs[..|fs| - 1]) + [NameLiteral(f.displayName), SubTableField(f.displayName)]
  }

  /** The mappings in configuration order, for the configs that have one. */
  function MapEntries(cfgs: seq<EventFieldConfig>): seq<(string, FieldMap)>
    decreases |cfgs|
  {
    if |cfgs| == 0 then []
    else
      var c := cfgs[|cfgs| - 1];
      MapEntries(cfgs[..|cfgs| - 1]) + (match c.mapConfig case None => [] case Some(fm) => [(c.fieldName, fm)])
  }

  /** `{field_name: FieldMap}` for every config with a mapping; a repeated name keeps the last. */
  function FieldMapping(cfgs: seq<EventFieldConfig>): seq<(string, FieldMap)> {
    FromPairs(MapEntries(cfgs))
  }

  predicate Truthy(s: Option<string>) {
    s.Some? && s.value != ""
  }

  /** The column for one mapping: the constant target value takes priority over the source
      field, and a mapping with neither gives no column. */
  function MappedColumn(name: string, fm: FieldMap): (r: Option<OuterColumn>)
    ensures r.Some? <==> Truthy(fm.targetValue) || Truthy(fm.sourceField)
    ensures r.Some? ==> r.value.alias == name
    ensures Truthy(fm.targetValue) ==> r == Some(StrConstant(fm.targetValue.value, name))
    ensures !Truthy(fm.targetValue) && Truthy(fm.sourceField) ==> r == Some(SubTableColumn(fm.sourceField.value, name))
  {
    if Truthy(fm.targetValue) then Some(StrConstant(fm.targetValue.value, name))
    else if Truthy(fm.sourceField) then Some(SubTableColumn(fm.sourceField.value, name))
    else None
  }

  /** The mapping columns in mapping order. */
  function MappedColumns(mapping: seq<(string, FieldMap)>): seq<OuterColumn>
    decreases |mapping|
  {
    if |mapping| == 0 then []
    else
      var (name, fm) := mapping[|mapping| - 1];
      MappedColumns(mapping[..|mapping| - 1]) + (match MappedColumn(name, fm) case None => [] case Some(col) => [col])
  }

  /** The JSON payload column and the strategy-id constant. */
  function HeadColumns(strategyId: int, select: seq<Field>): seq<OuterColumn> {
    [JsonObjectColumn(JsonArgs(select), EventDataField), IntConstant(strategyId, StrategyIdField)]
  }

  /** What `build_sql` returns for a strategy, given the stored link tables. */
  function AuditSql(s: Strategy, store: map<LinkTableRef, LinkConfig>): Result<AuditQuery, SqlError> {
    var mapping := FieldMapping(s.eventBasicFieldConfigs);
    var sc :- FormatSpec(s.configs, store);
    var sub :- Compile(sc);
    Ok(AuditQuery(sub, SubTableAlias, HeadColumns(s.strategyId, sc.selectFields) + MappedColumns(mapping)))
  }

  /** One config more: its mapping, if any, is assigned after the others. */
  lemma MapEntriesStep(cfgs: seq<EventFieldConfig>, i: nat)
    requires i < |cfgs|
    ensures cfgs[i].mapConfig.None? ==> FromPairs(MapEntries(cfgs[..i + 1])) == FromPairs(MapEntries(cfgs[..i]))
    ensures cfgs[i].mapConfig.Some? ==>
              FromPairs(MapEntries(cfgs[..i + 1])) ==
              Put(FromPairs(MapEntries(cfgs[..i])), cfgs[i].fieldName, cfgs[i].mapConfig.value)
  {
    var pre := MapEntries(cfgs[..i]);
    MapEntriesPrefix(cfgs, i);
    if cfgs[i].mapConfig.Some? {
      FromPairsAppend(pre, cfgs[i].fieldName, cfgs[i].mapConfig.value);
    } else {
      assert pre + [] == pre;
    }
  }

  lemma MapEntriesPrefix(cfgs: seq<EventFieldConfig>, i: nat)
    requires i < |cfgs|
    ensures MapEntries(cfgs[..i + 1]) ==
            MapEntries(cfgs[..i]) + (match cfgs[i].mapConfig case None => [] case Some(fm) => [(cfgs[i].fieldName, fm)])
  {
    assert cfgs[..i + 1][..i] == cfgs[..i];
  }

  // ---------------------------------------------------------------------------------------
  // The generator object

  class RuleAuditSqlGenerator {
    const strategy: Strategy

    constructor (strategy: Strategy)
      ensures this.strategy == strategy
    {
      this.strategy := strategy;
    }

    /** Parses a where node, appending each parsed child of a group in turn. */
    method ParseWhereCondition(w: WhereJson) returns (r: WhereCondition)
      ensures r == ParseWhere(w)
      decreases w
    {
      if w.condition.Some? {
        return Leaf(w.connector, ParseSingleCondition(w.condition.value));
      }
      var subConditions: seq<WhereCondition> := [];
      for i := 0 to |w.conditions|
        invariant subConditions == ParseChildren(w, i)
      {
        var sub := ParseWhereCondition(w.conditions[i]);
        subConditions := subConditions + [sub];
      }
      return Group(w.connector, subConditions);
    }

    /** Reads the stored link table and walks its links, appending one join per link and
        assigning the scope of every event-log side. */
    method BuildLinkTableConfig(ds: DataSourceJson, store: map<LinkTableRef, LinkConfig>) returns (r: Result<Source, SqlError>)
      ensures r == LinkSource(ds, store)
    {
      if ds.linkTable !in store {
        return Err(LinkTableNotFound(ds.linkTable.uid, ds.linkTable.version));
      }
      var links := store[ds.linkTable].links;
      if |links| == 0 {
        return Err(LinkTableConfigError);
      }
      var fromTable := links[0].leftTable.rtId;
      var joinTables: seq<JoinTable> := [];
      var scopes: seq<(string, seq<Value>)> := [];
      for i := 0 to |links|
        invariant joinTables == JoinsOf(links[..i])
        invariant scopes == FromPairs(ScopeEntries(links[..i]))
      {
        var lk := links[i];
        ghost var before := ScopeEntries(links[..i]);
        SideAssign(before, lk.leftTable);
        if lk.leftTable.tableType == EventLog {
          scopes := Put(scopes, lk.leftTable.rtId, lk.leftTable.systemIds.GetOr([]));
        }
        ghost var middle := before + SideEntry(lk.leftTable);
        assert scopes == FromPairs(middle);
        SideAssign(middle, lk.rightTable);
        if lk.rightTable.tableType == EventLog {
          scopes := Put(scopes, lk.rightTable.rtId, lk.rightTable.systemIds.GetOr([]));
        }
        assert scopes == FromPairs(middle + SideEntry(lk.rightTable));
        var linkFields := LinkFieldsOf(lk.linkFields);
        joinTables := joinTables + [JoinTable(lk.joinType, lk.leftTable.rtId, lk.rightTable.rtId, linkFields)];
        LinksPrefix(links, i);
      }
      assert links[..|links|] == links;
      return Ok(Source(fromTable, joinTables, scopes));
    }

    /** Builds the query configuration: select fields, data source, then the merged where. */
    method Format(cfg: ConfigJson, store: map<LinkTableRef, LinkConfig>) returns (r: Result<SqlConfig, SqlError>)
      ensures r == FormatSpec(cfg, store)
    {
      var selectFields := TransFields(cfg.select);
      var src: Source;
      if cfg.configType == LinkTable {
        src :- BuildLinkTableConfig(cfg.dataSource, store);
      } else {
        src := SingleSource(cfg.dataSource);
      }
      var conditionsToMerge: seq<WhereCondition> := [];
      if cfg.where.Some? {
        var frontWhere := ParseWhereCondition(cfg.where.value);
        conditionsToMerge := conditionsToMerge + [frontWhere];
      }
      ghost var head := conditionsToMerge;
      assert head == (match FrontWhere(cfg) case None => [] case Some(w) => [w]);
      assert SourceOf(cfg, store) == Ok(src);
      var scopes := src.scopes;
      for i := 0 to |scopes|
        invariant conditionsToMerge == head + SystemConditions(scopes[..i])
      {
        MergeStep(head, scopes, i, conditionsToMerge);
        var (rtId, systemIds) := scopes[i];
        if systemIds == [] {
          continue;
        }
        conditionsToMerge := conditionsToMerge + [SystemIdsCondition(rtId, systemIds)];
      }
      assert scopes[..|scopes|] == scopes;
      assert conditionsToMerge == MergedConditions(FrontWhere(cfg), src.scopes);
      var finalWhere: Option<WhereCondition> := None;
      if conditionsToMerge != [] {
        finalWhere := Some(Group(And, conditionsToMerge));
      }
      return Ok(SqlConfig(selectFields, src.fromTable, src.joinTables, finalWhere, [], [], None));
    }

    /** Builds the field mapping, the inner query and the outer select. */
    method BuildSql(store: map<LinkTableRef, LinkConfig>) returns (r: Result<AuditQuery, SqlError>)
      ensures r == AuditSql(strategy, store)
    {
      var fieldMapping := BuildFieldMapping(strategy.eventBasicFieldConfigs);
      var sqlConfig :- Format(strategy.configs, store);
      var generator := new SqlGenerator(sqlConfig);
      var subTable :- generator.Generate();
      var jsonObjArgs := BuildJsonObjArgs(sqlConfig.selectFields);
      var selectColumns := [JsonObjectColumn(jsonObjArgs, EventDataField), IntConstant(strategy.strategyId, StrategyIdField)];
      selectColumns := AppendMappedColumns(selectColumns, fieldMapping);
      return Ok(AuditQuery(subTable, SubTableAlias, selectColumns));
    }

    /** The dict comprehension over the event field configs, one assignment at a time. */
    method BuildFieldMapping(configs: seq<EventFieldConfig>) returns (fieldMapping: seq<(string, FieldMap)>)
      ensures fieldMapping == FieldMapping(configs)
    {
      fieldMapping := [];
      for i := 0 to |configs|
        invariant fieldMapping == FromPairs(MapEntries(configs[..i]))
      {
        MapEntriesStep(configs, i);
        if configs[i].mapConfig.Some? {
          fieldMapping := Put(fieldMapping, configs[i].fieldName, configs[i].mapConfig.value);
        }
      }
      assert configs[..|configs|] == configs;
    }

    /** Extends the argument list with a display name and its inner column, field by field. */
    method BuildJsonObjArgs(fields: seq<Field>) returns (jsonObjArgs: seq<JsonArg>)
      ensures jsonObjArgs == JsonArgs(fields)
    {
      jsonObjArgs := [];
      for i := 0 to |fields|
        invariant jsonObjArgs == JsonArgs(fields[..i])
      {
        assert fields[..i + 1][..i] == fields[..i];
        jsonObjArgs := jsonObjArgs + [NameLiteral(fields[i].displayName), SubTableField(fields[i].displayName)];
      }
      assert fields[..|fields|] == fields;
    }

    /** Appends the column of every mapping that has one, in mapping order. */
    method AppendMappedColumns(columns: seq<OuterColumn>, fieldMapping: seq<(string, FieldMap)>) returns (r: seq<OuterColumn>)
      ensures r == columns + MappedColumns(fieldMapping)
    {
      r := columns;
      for i := 0 to |fieldMapping|
        invariant r == columns + MappedColumns(fieldMapping[..i])
      {
        assert fieldMapping[..i + 1][..i] == fieldMapping[..i];
        var (fieldName, mapConfig) := fieldMapping[i];
        if Truthy(mapConfig.targetValue) {
          r := r + [StrConstant(mapConfig.targetValue.value, fieldName)];
        } else if Truthy(mapConfig.sourceField) {
          r := r + [SubTableColumn(mapConfig.sourceField.value, fieldName)];
        } else {
          assert MappedColumns(fieldMapping[..i + 1]) == MappedColumns(fieldMapping[..i]) + [];
        }
      }
      assert fieldMapping[..|fieldMapping|] == fieldMapping;
    }
  }
}
