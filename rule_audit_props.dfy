/** What the rule-audit adapter promises about the configuration it builds and the outer select. */
module RuleAuditProps {
  import opened Results
  import opened OrderedDict
  import opened SqlModel
  import opened SqlBuilder
  import opened SqlBuilderProps
  import opened RuleAudit

  // ---------------------------------------------------------------------------------------
  // The where tree

  lemma {:induction false} ParseChildrenAt(w: WhereJson, k: nat)
    requires k <= |w.conditions|
    ensures |ParseChildren(w, k)| == k
    ensures forall i :: 0 <= i < k ==> ParseChildren(w, k)[i] == ParseWhere(w.conditions[i])
    decreases k
  {
    if k > 0 {
      ParseChildrenAt(w, k - 1);
    }
  }

  /** The parsed tree mirrors the JSON node for node: a node with a condition is a leaf, any
      other node a group with one child per JSON child in order, and the connector is kept. */
  lemma ParseWhereShape(w: WhereJson)
    ensures ParseWhere(w).connector == w.connector
    ensures ParseWhere(w).Leaf? <==> w.condition.Some?
    ensures w.condition.Some? ==> ParseWhere(w).condition == ParseSingleCondition(w.condition.value)
    ensures w.condition.None? ==>
              |ParseWhere(w).conditions| == |w.conditions| &&
              forall i :: 0 <= i < |w.conditions| ==> ParseWhere(w).conditions[i] == ParseWhere(w.conditions[i])
  {
    ParseChildrenAt(w, |w.conditions|);
  }

  /** Parsing the stored JSON of a where tree gives the tree back. */
  lemma {:induction false} ParseWhereRoundTrip(wc: WhereCondition)
    ensures ParseWhere(WhereToJson(wc)) == wc
    decreases wc
  {
    match wc
    case Leaf(_, c) =>
    case Group(conn, cs) =>
      var j := WhereToJson(wc);
      ParseWhereShape(j);
      forall i | 0 <= i < |cs| ensures ParseWhere(j.conditions[i]) == cs[i] {
        ParseWhereRoundTrip(cs[i]);
      }
  }

  // ---------------------------------------------------------------------------------------
  // Data sources

  lemma {:induction false} JoinsOfAt(links: seq<LinkJson>)
    ensures |JoinsOf(links)| == |links|
    ensures forall i :: 0 <= i < |links| ==> JoinsOf(links)[i] == JoinOf(links[i])
    decreases |links|
  {
    if |links| > 0 {
      var init := links[..|links| - 1];
      JoinsOfAt(init);
      assert forall i :: 0 <= i < |init| ==> init[i] == links[i];
    }
  }

  /** The scope entries assign exactly the event-log sides of the links. */
  lemma {:induction false} ScopeEntriesKeys(links: seq<LinkJson>, t: string)
    ensures t in Keys(ScopeEntries(links)) <==>
            exists i :: 0 <= i < |links| &&
                        ((links[i].leftTable.rtId == t && links[i].leftTable.tableType == EventLog) ||
                         (links[i].rightTable.rtId == t && links[i].rightTable.tableType == EventLog))
    decreases |links|
  {
    if |links| > 0 {
      var init := links[..|links| - 1];
      var lk := links[|links| - 1];
      ScopeEntriesKeys(init, t);
      assert forall i :: 0 <= i < |init| ==> init[i] == links[i];
      var a := ScopeEntries(init);
      var b := SideEntry(lk.leftTable);
      var c := SideEntry(lk.rightTable);
      KeysAppend(a, b);
      KeysAppend(a + b, c);
      SideEntryKeys(lk.leftTable, t);
      SideEntryKeys(lk.rightTable, t);
    }
  }

  lemma SideEntryKeys(side: LinkSideJson, t: string)
    ensures t in Keys(SideEntry(side)) <==> side.rtId == t && side.tableType == EventLog
  {
    assert Keys(SideEntry(side)) == if side.tableType == EventLog then [side.rtId] else [];
  }

  /** A stored link table that is missing, or holds no links, is an error; those are the only errors. */
  lemma LinkSourceErrors(ds: DataSourceJson, store: map<LinkTableRef, LinkConfig>)
    ensures LinkSource(ds, store) == Err(LinkTableNotFound(ds.linkTable.uid, ds.linkTable.version)) <==>
            ds.linkTable !in store
    ensures LinkSource(ds, store) == Err(LinkTableConfigError) <==>
            ds.linkTable in store && store[ds.linkTable].links == []
    ensures LinkSource(ds, store).Ok? <==> ds.linkTable in store && store[ds.linkTable].links != []
  {
  }

  /** A resolved link table: the first link's left table is the from-table, there is one join
      per link in order with its type, tables and link pairs, and the scope map holds each
      event-log table once, in order of first appearance, with the ids it was assigned last. */
  lemma LinkSourceShape(ds: DataSourceJson, store: map<LinkTableRef, LinkConfig>)
    requires LinkSource(ds, store).Ok?
    ensures var links := store[ds.linkTable].links;
            var src := LinkSource(ds, store).value;
            && src.fromTable == links[0].leftTable.rtId
            && |src.joinTables| == |links|
            && (forall i :: 0 <= i < |links| ==>
                  src.joinTables[i] == JoinTable(links[i].joinType, links[i].leftTable.rtId, links[i].rightTable.rtId,
                                                 LinkFieldsOf(links[i].linkFields)))
            && UniqueKeys(src.scopes)
            && Keys(src.scopes) == Distinct(Keys(ScopeEntries(links)))
            && (forall t :: Get(src.scopes, t) == LastValue(ScopeEntries(links), t))
  {
    var links := store[ds.linkTable].links;
    JoinsOfAt(links);
    FromPairsLaws(ScopeEntries(links));
  }

  /** A table is scoped exactly when it is an event-log side of some link. */
  lemma LinkScopeKeys(ds: DataSourceJson, store: map<LinkTableRef, LinkConfig>, t: string)
    requires LinkSource(ds, store).Ok?
    ensures var links := store[ds.linkTable].links;
            t in Keys(LinkSource(ds, store).value.scopes) <==>
            exists i :: 0 <= i < |links| &&
                        ((links[i].leftTable.rtId == t && links[i].leftTable.tableType == EventLog) ||
                         (links[i].rightTable.rtId == t && links[i].rightTable.tableType == EventLog))
  {
    var links := store[ds.linkTable].links;
    FromPairsLaws(ScopeEntries(links));
    DistinctLaws(Keys(ScopeEntries(links)));
    ScopeEntriesKeys(links, t);
  }

  // ---------------------------------------------------------------------------------------
  // The final where

  /** System-id conditions are missing exactly when every scoped table has an empty list. */
  lemma {:induction false} SystemConditionsEmpty(scopes: seq<(string, seq<Value>)>)
    ensures SystemConditions(scopes) == [] <==> forall i :: 0 <= i < |scopes| ==> scopes[i].1 == []
    decreases |scopes|
  {
    if |scopes| > 0 {
      var init := scopes[..|scopes| - 1];
      SystemConditionsEmpty(init);
      assert forall i :: 0 <= i < |init| ==> init[i] == scopes[i];
    }
  }

  /** Every system-id condition belongs to a scoped table with a non-empty list, and every such
      table has its condition. */
  lemma {:induction false} SystemConditionsMembers(scopes: seq<(string, seq<Value>)>)
    ensures forall j :: 0 <= j < |SystemConditions(scopes)| ==>
              exists i :: 0 <= i < |scopes| && scopes[i].1 != [] &&
                          SystemConditions(scopes)[j] == SystemIdsCondition(scopes[i].0, scopes[i].1)
    ensures forall i :: 0 <= i < |scopes| && scopes[i].1 != [] ==>
              SystemIdsCondition(scopes[i].0, scopes[i].1) in SystemConditions(scopes)
    decreases |scopes|
  {
    if |scopes| > 0 {
      var init := scopes[..|scopes| - 1];
      SystemConditionsMembers(init);
      assert forall i :: 0 <= i < |init| ==> init[i] == scopes[i];
      var sc := SystemConditions(scopes);
      var si := SystemConditions(init);
      var last := scopes[|scopes| - 1];
      var tail := if last.1 == [] then [] else [SystemIdsCondition(last.0, last.1)];
      assert sc == si + tail;
      forall j | 0 <= j < |sc|
        ensures exists i :: 0 <= i < |scopes| && scopes[i].1 != [] && sc[j] == SystemIdsCondition(scopes[i].0, scopes[i].1)
      {
        if j < |si| {
          assert sc[j] == si[j];
          var i :| 0 <= i < |init| && init[i].1 != [] && si[j] == SystemIdsCondition(init[i].0, init[i].1);
          assert scopes[i] == init[i];
        } else {
          assert sc[j] == SystemIdsCondition(scopes[|scopes| - 1].0, scopes[|scopes| - 1].1);
        }
      }
      forall i | 0 <= i < |scopes| && scopes[i].1 != []
        ensures SystemIdsCondition(scopes[i].0, scopes[i].1) in sc
      {
        if i < |init| {
          assert SystemIdsCondition(init[i].0, init[i].1) in si;
        } else {
          assert sc[|si|] == SystemIdsCondition(last.0, last.1);
        }
      }
    } else {
      assert SystemConditions(scopes) == [];
    }
  }

  /** The final where is absent exactly when there is no user where and every scoped table has
      an empty list; otherwise it is an AND group of the user's tree (first, if any) followed by
      the system-id conditions. */
  lemma FinalWhereShape(front: Option<WhereCondition>, scopes: seq<(string, seq<Value>)>)
    ensures FinalWhere(front, scopes).None? <==> front.None? && forall i :: 0 <= i < |scopes| ==> scopes[i].1 == []
    ensures FinalWhere(front, scopes).Some? ==>
              var g := FinalWhere(front, scopes).value;
              g.Group? && g.connector == And &&
              g.conditions == (if front.Some? then [front.value] else []) + SystemConditions(scopes)
  {
    SystemConditionsEmpty(scopes);
  }

  // ---------------------------------------------------------------------------------------
  // The query configuration

  /** A single-table source: that table, no joins, nothing grouped, ordered or paginated, and
      a where that is absent exactly when there is no user where and no system ids. */
  lemma FormatSingleTable(cfg: ConfigJson, store: map<LinkTableRef, LinkConfig>)
    requires cfg.configType != LinkTable
    ensures FormatSpec(cfg, store).Ok?
    ensures var sc := FormatSpec(cfg, store).value;
            var ids := cfg.dataSource.systemIds.GetOr([]);
            && sc.fromTable == cfg.dataSource.rtId && sc.joinTables == []
            && sc.groupBy == [] && sc.orderBy == [] && sc.pagination.None?
            && (sc.where.None? <==> cfg.where.None? && ids == [])
            && (sc.where.Some? ==>
                  sc.where.value.conditions ==
                  (if cfg.where.Some? then [ParseWhere(cfg.where.value)] else []) +
                  (if ids == [] then [] else [SystemIdsCondition(cfg.dataSource.rtId, ids)]))
  {
    var ids := cfg.dataSource.systemIds.GetOr([]);
    var scopes := [(cfg.dataSource.rtId, ids)];
    FinalWhereShape(FrontWhere(cfg), scopes);
    assert scopes[..0] == [];
    assert SystemConditions(scopes) == (if ids == [] then [] else [SystemIdsCondition(cfg.dataSource.rtId, ids)]);
  }

  /** A built configuration selects the translated select fields, takes its tables from the
      resolved source, and never groups, orders or paginates. */
  lemma FormatShape(cfg: ConfigJson, store: map<LinkTableRef, LinkConfig>)
    ensures FormatSpec(cfg, store).Ok? <==> SourceOf(cfg, store).Ok?
    ensures FormatSpec(cfg, store).Err? ==> FormatSpec(cfg, store).error == SourceOf(cfg, store).error
    ensures FormatSpec(cfg, store).Ok? ==>
              var sc := FormatSpec(cfg, store).value;
              var src := SourceOf(cfg, store).value;
              && |sc.selectFields| == |cfg.select|
              && (forall i :: 0 <= i < |cfg.select| ==> FieldToJson(sc.selectFields[i]) == cfg.select[i])
              && sc.fromTable == src.fromTable && sc.joinTables == src.joinTables
              && sc.where == FinalWhere(FrontWhere(cfg), src.scopes)
              && sc.groupBy == [] && sc.orderBy == [] && sc.pagination.None?
  {
  }

  /** Every scoped table of a configuration that has a source is registered, so the injected
      system-id conditions always compile: they never report an unregistered table. */
  lemma InjectedConditionsCompile(cfg: ConfigJson, store: map<LinkTableRef, LinkConfig>)
    requires FormatSpec(cfg, store).Ok?
    ensures var sc := FormatSpec(cfg, store).value;
            var injected := SystemConditions(SourceOf(cfg, store).value.scopes);
            HasSource(sc) ==> forall j :: 0 <= j < |injected| ==> Compilable(Registry(sc), injected[j])
  {
    var sc := FormatSpec(cfg, store).value;
    var scopes := SourceOf(cfg, store).value.scopes;
    if HasSource(sc) {
      forall i | 0 <= i < |scopes| ensures scopes[i].0 in Registry(sc) {
        assert Keys(scopes)[i] == scopes[i].0;
        ScopedTableRegistered(cfg, store, scopes[i].0);
      }
      ScopedConditionsCompile(Registry(sc), scopes);
    }
  }

  /** The system-id conditions of scopes whose tables are all registered compile. */
  lemma ScopedConditionsCompile(m: map<string, Table>, scopes: seq<(string, seq<Value>)>)
    requires forall i :: 0 <= i < |scopes| ==> scopes[i].0 in m
    ensures forall j :: 0 <= j < |SystemConditions(scopes)| ==> Compilable(m, SystemConditions(scopes)[j])
  {
    SystemConditionsMembers(scopes);
    forall j | 0 <= j < |SystemConditions(scopes)| ensures Compilable(m, SystemConditions(scopes)[j]) {
      var i :| 0 <= i < |scopes| && scopes[i].1 != [] &&
               SystemConditions(scopes)[j] == SystemIdsCondition(scopes[i].0, scopes[i].1);
    }
  }

  lemma ScopedTableRegistered(cfg: ConfigJson, store: map<LinkTableRef, LinkConfig>, t: string)
    requires FormatSpec(cfg, store).Ok? && t in Keys(SourceOf(cfg, store).value.scopes)
    requires HasSource(FormatSpec(cfg, store).value)
    ensures t in Registry(FormatSpec(cfg, store).value)
  {
    var sc := FormatSpec(cfg, store).value;
    RegistryLookup(sc, t);
    if cfg.configType == LinkTable {
      var links := store[cfg.dataSource.linkTable].links;
      LinkScopeKeys(cfg.dataSource, store, t);
      JoinsOfAt(links);
      var i :| 0 <= i < |links| &&
               ((links[i].leftTable.rtId == t && links[i].leftTable.tableType == EventLog) ||
                (links[i].rightTable.rtId == t && links[i].rightTable.tableType == EventLog));
      assert sc.joinTables[i] == JoinOf(links[i]);
    } else {
      assert Keys(SourceOf(cfg, store).value.scopes) == [cfg.dataSource.rtId];
    }
  }

  // ---------------------------------------------------------------------------------------
  // The outer select

  /** The JSON object's arguments alternate display name and inner column, field by field. */
  lemma {:induction false} JsonArgsShape(fs: seq<Field>)
    ensures |JsonArgs(fs)| == 2 * |fs|
    ensures forall i :: 0 <= i < |fs| ==>
              JsonArgs(fs)[2 * i] == NameLiteral(fs[i].displayName) &&
              JsonArgs(fs)[2 * i + 1] == SubTableField(fs[i].displayName)
    decreases |fs|
  {
    if |fs| > 0 {
      var init := fs[..|fs| - 1];
      JsonArgsShape(init);
      assert forall i :: 0 <= i < |init| ==> init[i] == fs[i];
    }
  }

  /** Only configs with a mapping contribute; the mapping holds each field name once, in order
      of first appearance, with the mapping of its last config. */
  lemma FieldMappingLaws(cfgs: seq<EventFieldConfig>)
    ensures UniqueKeys(FieldMapping(cfgs))
    ensures Keys(FieldMapping(cfgs)) == Distinct(Keys(MapEntries(cfgs)))
    ensures forall k :: Get(FieldMapping(cfgs), k) == LastValue(MapEntries(cfgs), k)
  {
    FromPairsLaws(MapEntries(cfgs));
  }

  /** A field name has a mapping exactly when some config with that name carries one. */
  lemma {:induction false} MapEntriesKeys(cfgs: seq<EventFieldConfig>, k: string)
    ensures k in Keys(MapEntries(cfgs)) <==>
            exists i :: 0 <= i < |cfgs| && cfgs[i].fieldName == k && cfgs[i].mapConfig.Some?
    decreases |cfgs|
  {
    if |cfgs| > 0 {
      var init := cfgs[..|cfgs| - 1];
      MapEntriesKeys(init, k);
      assert forall i :: 0 <= i < |init| ==> init[i] == cfgs[i];
      var c := cfgs[|cfgs| - 1];
      var tail: seq<(string, FieldMap)> := match c.mapConfig case None => [] case Some(fm) => [(c.fieldName, fm)];
      assert MapEntries(cfgs) == MapEntries(init) + tail;
      assert Keys(MapEntries(init) + tail) == Keys(MapEntries(init)) + Keys(tail);
      assert Keys(tail) == if c.mapConfig.Some? then [c.fieldName] else [];
      if k in Keys(MapEntries(cfgs)) && k !in Keys(MapEntries(init)) {
        assert cfgs[|cfgs| - 1] == c;
      }
    }
  }

  /** Each mapping column comes from a mapping of the dictionary, by the precedence rule. */
  lemma {:induction false} MappedColumnsFrom(d: seq<(string, FieldMap)>)
    ensures forall j :: 0 <= j < |MappedColumns(d)| ==>
              exists i :: 0 <= i < |d| && MappedColumn(d[i].0, d[i].1) == Some(MappedColumns(d)[j])
    decreases |d|
  {
    if |d| > 0 {
      var init := d[..|d| - 1];
      var (name, fm) := d[|d| - 1];
      MappedColumnsFrom(init);
      assert forall i :: 0 <= i < |init| ==> init[i] == d[i];
      var ci := MappedColumns(init);
      var cs := MappedColumns(d);
      var tail := match MappedColumn(name, fm) case None => [] case Some(col) => [col];
      assert cs == ci + tail;
      forall j | 0 <= j < |cs|
        ensures exists i :: 0 <= i < |d| && MappedColumn(d[i].0, d[i].1) == Some(cs[j])
      {
        if j < |ci| {
          assert cs[j] == ci[j];
          var i :| 0 <= i < |init| && MappedColumn(init[i].0, init[i].1) == Some(ci[j]);
          assert d[i] == init[i];
        } else {
          assert MappedColumn(d[|d| - 1].0, d[|d| - 1].1) == Some(cs[j]);
        }
      }
    } else {
      assert MappedColumns(d) == [];
    }
  }

  /** Every mapping that yields a column contributes it. */
  lemma {:induction false} MappedColumnsAll(d: seq<(string, FieldMap)>)
    ensures forall i :: 0 <= i < |d| && MappedColumn(d[i].0, d[i].1).Some? ==>
              MappedColumn(d[i].0, d[i].1).value in MappedColumns(d)
    decreases |d|
  {
    if |d| > 0 {
      var init := d[..|d| - 1];
      var (name, fm) := d[|d| - 1];
      MappedColumnsAll(init);
      var ci := MappedColumns(init);
      var cs := MappedColumns(d);
      var tail := match MappedColumn(name, fm) case None => [] case Some(col) => [col];
      assert cs == ci + tail;
      forall i | 0 <= i < |d| && MappedColumn(d[i].0, d[i].1).Some?
        ensures MappedColumn(d[i].0, d[i].1).value in cs
      {
        if i < |init| {
          assert d[i] == init[i];
          assert MappedColumn(init[i].0, init[i].1).value in ci;
        } else {
          assert cs[|ci|] == MappedColumn(name, fm).value;
        }
      }
    }
  }

  /** Over a dictionary, whose keys are unique, the mapping columns have pairwise distinct aliases. */
  lemma {:induction false} MappedColumnsDistinct(d: seq<(string, FieldMap)>)
    requires UniqueKeys(d)
    ensures forall i, j :: 0 <= i < j < |MappedColumns(d)| ==> MappedColumns(d)[i].alias != MappedColumns(d)[j].alias
    decreases |d|
  {
    if |d| > 0 {
      var init := d[..|d| - 1];
      var (name, fm) := d[|d| - 1];
      assert UniqueKeys(init) by {
        assert forall i :: 0 <= i < |init| ==> init[i] == d[i];
      }
      MappedColumnsDistinct(init);
      MappedColumnsFrom(init);
      var ci := MappedColumns(init);
      var tail := match MappedColumn(name, fm) case None => [] case Some(col) => [col];
      assert MappedColumns(d) == ci + tail;
      forall j | 0 <= j < |ci| ensures ci[j].alias != name {
        var i :| 0 <= i < |init| && MappedColumn(init[i].0, init[i].1) == Some(ci[j]);
        assert init[i] == d[i];
        assert d[i].0 != d[|d| - 1].0;
      }
    }
  }

  /** The outer select of a strategy: the inner query under the sub-table alias, then the JSON
      payload over the inner select fields, the strategy id and the mapping columns. It fails
      exactly when building the configuration or compiling it fails, with that error. */
  lemma AuditSqlShape(s: Strategy, store: map<LinkTableRef, LinkConfig>)
    ensures FormatSpec(s.configs, store).Err? ==> AuditSql(s, store) == Err(FormatSpec(s.configs, store).error)
    ensures FormatSpec(s.configs, store).Ok? && Compile(FormatSpec(s.configs, store).value).Err? ==>
              AuditSql(s, store) == Err(Compile(FormatSpec(s.configs, store).value).error)
    ensures AuditSql(s, store).Ok? ==>
              var sc := FormatSpec(s.configs, store).value;
              var aq := AuditSql(s, store).value;
              && Compile(sc) == Ok(aq.subQuery) && aq.subAlias == SubTableAlias
              && |aq.columns| >= 2
              && aq.columns[0] == JsonObjectColumn(JsonArgs(sc.selectFields), EventDataField)
              && aq.columns[1] == IntConstant(s.strategyId, StrategyIdField)
              && aq.columns[2..] == MappedColumns(FieldMapping(s.eventBasicFieldConfigs))
  {
    if AuditSql(s, store).Ok? {
      var aq := AuditSql(s, store).value;
      var sc := FormatSpec(s.configs, store).value;
      assert aq.columns == HeadColumns(s.strategyId, sc.selectFields) + MappedColumns(FieldMapping(s.eventBasicFieldConfigs));
    }
  }
}
