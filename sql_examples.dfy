/** Concrete configurations from the generator's unit tests and the clauses they compile to. */
module SqlExamples {
  import opened Results
  import opened SqlModel
  import opened SqlBuilder
  import opened SqlBuilderProps

  function F(table: string, raw: string, display: string): Field {
    Field(table, raw, display, "string", None)
  }

  function Agg(table: string, raw: string, display: string, a: AggregateType): Field {
    Field(table, raw, display, "int", Some(a))
  }

  function Config(select: seq<Field>, from: string): SqlConfig {
    SqlConfig(select, from, [], None, [], [], None)
  }

  function Col(table: string, name: string): Column {
    Column(Table(table), name)
  }

  function Item(table: string, name: string, alias: string): SelectItem {
    SelectItem(ColumnExpr(Col(table, name)), alias)
  }

  const UsersOrders := JoinTable(InnerJoin, "users", "orders", [LinkField("id", "user_id")])

  lemma Collect1<A, B, E>(f: A -> Result<B, E>, a: A, x: B)
    requires f(a) == Ok(x)
    ensures Collect(f, [a]) == Ok([x])
  {
    assert Collect(f, []) == Ok([]);
    CollectAppend(f, [], a, [], x);
    assert [] + [a] == [a] && [] + [x] == [x];
  }

  lemma Collect2<A, B, E>(f: A -> Result<B, E>, a: A, b: A, x: B, y: B)
    requires f(a) == Ok(x) && f(b) == Ok(y)
    ensures Collect(f, [a, b]) == Ok([x, y])
  {
    Collect1(f, a, x);
    CollectAppend(f, [a], b, [x], y);
    assert [a] + [b] == [a, b] && [x] + [y] == [x, y];
  }

  lemma Collect3<A, B, E>(f: A -> Result<B, E>, a: A, b: A, d: A, x: B, y: B, z: B)
    requires f(a) == Ok(x) && f(b) == Ok(y) && f(d) == Ok(z)
    ensures Collect(f, [a, b, d]) == Ok([x, y, z])
  {
    Collect2(f, a, b, x, y);
    CollectAppend(f, [a, b], d, [x, y], z);
    assert [a, b] + [d] == [a, b, d] && [x, y] + [z] == [x, y, z];
  }

  /** Two columns of one table: FROM that table, the columns aliased, nothing else. */
  lemma SingleTableQuery()
    ensures Compile(Config([F("users", "id", "user_id"), F("users", "name", "user_name")], "users")) ==
            Ok(Query(Some(Table("users")), [], [Item("users", "id", "user_id"), Item("users", "name", "user_name")],
                     None, [], [], None, None))
  {
    var fs := [F("users", "id", "user_id"), F("users", "name", "user_name")];
    var c := Config(fs, "users");
    var m := Registry(c);
    assert "users" in RegisteredNames(c);
    var q1 := BlankQuery.(from := Some(Table("users")));
    assert FromStage(m, c, BlankQuery) == Ok(q1);
    var items := [Item("users", "id", "user_id"), Item("users", "name", "user_name")];
    Collect2(SelectItemFn(m), fs[0], fs[1], items[0], items[1]);
    var q2 := q1.(select := items);
    assert SelectStage(m, fs, q1) == Ok(q2) by {
      assert q1.select + items == items;
    }
    assert GroupByStage(m, c, q2) == Ok(q2) by {
      assert !HasAggregate(fs);
      assert q2.groupBy + [] == q2.groupBy;
    }
    assert OrderByStage(m, [], q2) == Ok(q2) by {
      assert q2.orderBy + [] == q2.orderBy;
    }
  }

  /** A column of an undeclared table fails naming that table. */
  lemma InvalidFieldSource()
    ensures Compile(Config([F("invalid_table", "id", "invalid_id")], "users")) == Err(TableNotRegistered("invalid_table"))
  {
    var c := Config([F("invalid_table", "id", "invalid_id")], "users");
    assert "invalid_table" !in RegisteredNames(c);
    CompileOkIff(c);
    CompileErrKinds(c);
  }

  /** An INNER JOIN on one link pair: one JOIN clause on the right table with the pair as its ON. */
  lemma JoinTableQuery()
    ensures var c := SqlConfig([F("users", "id", "user_id"), F("orders", "order_id", "order_id")], "users",
                               [UsersOrders], None, [], [], None);
            Compile(c).Ok? &&
            Compile(c).value.from == Some(Table("users")) &&
            Compile(c).value.joins == [JoinClause(Inner, Table("orders"), Col("users", "id"), Col("orders", "user_id"))] &&
            Compile(c).value.select == [Item("users", "id", "user_id"), Item("orders", "order_id", "order_id")]
  {
    var fs := [F("users", "id", "user_id"), F("orders", "order_id", "order_id")];
    var c := SqlConfig(fs, "users", [UsersOrders], None, [], [], None);
    var m := Registry(c);
    assert "users" in RegisteredNames(c) && "orders" in RegisteredNames(c) by {
      assert UsersOrders in c.joinTables;
      JoinSidesMembers(c.joinTables, "orders");
    }
    var clause := JoinClause(Inner, Table("orders"), Col("users", "id"), Col("orders", "user_id"));
    var q1 := BlankQuery.(from := Some(Table("users")), joins := [clause]);
    assert FromStage(m, c, BlankQuery) == Ok(q1) by {
      assert PairClauses(Inner, Table("users"), Table("orders"), UsersOrders.linkFields) == [clause] by {
        assert UsersOrders.linkFields[..0] == [];
      }
      assert JoinClausesOf(m, UsersOrders) == Ok([clause]);
      Collect1(JoinFn(m), UsersOrders, [clause]);
      assert Flatten([[clause]]) == [clause] by {
        assert [[clause]][..0] == [];
      }
    }
    var items := [Item("users", "id", "user_id"), Item("orders", "order_id", "order_id")];
    Collect2(SelectItemFn(m), fs[0], fs[1], items[0], items[1]);
    var q2 := q1.(select := items);
    assert SelectStage(m, fs, q1) == Ok(q2) by {
      assert q1.select + items == items;
    }
    assert GroupByStage(m, c, q2) == Ok(q2) by {
      assert !HasAggregate(fs);
      assert q2.groupBy + [] == q2.groupBy;
    }
    assert OrderByStage(m, [], q2) == Ok(q2) by {
      assert q2.orderBy + [] == q2.orderBy;
    }
  }

  /** Two leaves under an AND group: the leaves' comparisons joined by AND, in order. */
  lemma WhereConditions()
    ensures var age := Leaf(And, Condition(F("users", "age", "user_age"), Eq, IntValue(18), []));
            var country := Leaf(And, Condition(F("users", "country", "user_country"), Eq, StrValue("Ireland"), []));
            var c := SqlConfig([F("users", "id", "user_id")], "users", [], Some(Group(And, [age, country])), [], [], None);
            Compile(c).Ok? &&
            Compile(c).value.where ==
              Some(AndCriterion(Basic(Col("users", "age"), Equal, ScalarOperand(IntValue(18))),
                                Basic(Col("users", "country"), Equal, ScalarOperand(StrValue("Ireland")))))
  {
    var age := Leaf(And, Condition(F("users", "age", "user_age"), Eq, IntValue(18), []));
    var country := Leaf(And, Condition(F("users", "country", "user_country"), Eq, StrValue("Ireland"), []));
    var w := Group(And, [age, country]);
    var c := SqlConfig([F("users", "id", "user_id")], "users", [], Some(w), [], [], None);
    var m := Registry(c);
    assert "users" in RegisteredNames(c);
    assert "users" in m && m["users"] == Table("users");
    var a := Basic(Col("users", "age"), Equal, ScalarOperand(IntValue(18)));
    var b := Basic(Col("users", "country"), Equal, ScalarOperand(StrValue("Ireland")));
    assert FoldPrefix(m, w, 1) == Ok(a) by {
      assert EvalWhere(m, w.conditions[0]) == Ok(a);
    }
    assert EvalWhere(m, w) == Ok(AndCriterion(a, b)) by {
      assert EvalWhere(m, w.conditions[1]) == Ok(b);
    }
    EvalWhereOk(m, w);
    CompilesOk(c);
    CompileWhere(c);
  }

  /** An ORDER BY column of an undeclared table fails naming that table. */
  lemma OrderByInvalidTable()
    ensures var c := SqlConfig([F("users", "id", "user_id")], "users", [], None, [],
                               [Order(F("orders", "date", "order_date"), Desc)], None);
            Compile(c) == Err(TableNotRegistered("orders"))
  {
    var fs := [F("users", "id", "user_id")];
    var os := [Order(F("orders", "date", "order_date"), Desc)];
    var c := SqlConfig(fs, "users", [], None, [], os, None);
    var m := Registry(c);
    assert "users" in RegisteredNames(c) && "orders" !in RegisteredNames(c);
    var q1 := BlankQuery.(from := Some(Table("users")));
    assert FromStage(m, c, BlankQuery) == Ok(q1);
    var items := [Item("users", "id", "user_id")];
    Collect1(SelectItemFn(m), fs[0], items[0]);
    var q2 := q1.(select := items);
    assert SelectStage(m, fs, q1) == Ok(q2) by {
      assert q1.select + items == items;
    }
    assert GroupByStage(m, c, q2) == Ok(q2) by {
      assert !HasAggregate(fs);
      assert q2.groupBy + [] == q2.groupBy;
    }
    assert Collect(OrderFn(m), os) == Err(TableNotRegistered("orders")) by {
      assert os[..0] == [];
    }
  }

  /** Without an explicit GROUP BY, an aggregate makes the plain columns the grouping. */
  lemma AutoInferredGroupBy()
    ensures var c := Config([F("orders", "id", "order_id"), Agg("orders", "amount", "amount_sum", Sum)], "orders");
            Compile(c).Ok? &&
            Compile(c).value.select ==
              [Item("orders", "id", "order_id"), SelectItem(AggregateExpr(SumFn, Col("orders", "amount")), "amount_sum")] &&
            Compile(c).value.groupBy == [Col("orders", "id")]
  {
    var fs := [F("orders", "id", "order_id"), Agg("orders", "amount", "amount_sum", Sum)];
    var c := Config(fs, "orders");
    var m := Registry(c);
    assert "orders" in RegisteredNames(c);
    var q1 := BlankQuery.(from := Some(Table("orders")));
    assert FromStage(m, c, BlankQuery) == Ok(q1);
    var items := [Item("orders", "id", "order_id"), SelectItem(AggregateExpr(SumFn, Col("orders", "amount")), "amount_sum")];
    Collect2(SelectItemFn(m), fs[0], fs[1], items[0], items[1]);
    var q2 := q1.(select := items);
    assert SelectStage(m, fs, q1) == Ok(q2) by {
      assert q1.select + items == items;
    }
    var q3 := q2.(groupBy := [Col("orders", "id")]);
    assert GroupByStage(m, c, q2) == Ok(q3) by {
      InferredOrdersGroup(m, c);
      assert q2.groupBy + [Col("orders", "id")] == [Col("orders", "id")];
    }
    assert OrderByStage(m, [], q3) == Ok(q3) by {
      assert q3.orderBy + [] == q3.orderBy;
    }
  }

  lemma InferredOrdersGroup(m: map<string, Table>, c: SqlConfig)
    requires c.groupBy == [] && "orders" in m && m["orders"] == Table("orders")
    requires c.selectFields == [F("orders", "id", "order_id"), Agg("orders", "amount", "amount_sum", Sum)]
    ensures GroupByColumns(m, c) == Ok([Col("orders", "id")])
  {
    var fs := c.selectFields;
    assert HasAggregate(fs) by {
      assert fs[1].aggregate.Some?;
    }
    assert PlainFields(fs) == [fs[0]] by {
      assert fs[..0] == [] && fs[..2] == fs;
      PlainFieldsStep(fs, 0);
      PlainFieldsStep(fs, 1);
    }
    Collect1(ColumnFn(m), fs[0], Col("orders", "id"));
  }

  /** Two aggregates and one plain column: the plain column alone is grouped. */
  lemma MultipleAggregates()
    ensures var c := Config([Agg("orders", "id", "order_count", Count), Agg("orders", "amount", "amount_max", Max),
                             F("orders", "status", "status")], "orders");
            Compile(c).Ok? && Compile(c).value.groupBy == [Col("orders", "status")]
  {
    var fs := [Agg("orders", "id", "order_count", Count), Agg("orders", "amount", "amount_max", Max),
               F("orders", "status", "status")];
    var c := Config(fs, "orders");
    var m := Registry(c);
    assert "orders" in RegisteredNames(c);
    var q1 := BlankQuery.(from := Some(Table("orders")));
    assert FromStage(m, c, BlankQuery) == Ok(q1);
    var items := [SelectItem(AggregateExpr(CountFn, Col("orders", "id")), "order_count"),
                  SelectItem(AggregateExpr(MaxFn, Col("orders", "amount")), "amount_max"),
                  Item("orders", "status", "status")];
    Collect3(SelectItemFn(m), fs[0], fs[1], fs[2], items[0], items[1], items[2]);
    var q2 := q1.(select := items);
    assert SelectStage(m, fs, q1) == Ok(q2) by {
      assert q1.select + items == items;
    }
    var q3 := q2.(groupBy := [Col("orders", "status")]);
    assert GroupByStage(m, c, q2) == Ok(q3) by {
      assert HasAggregate(fs) by {
        assert fs[0].aggregate.Some?;
      }
      assert PlainFields(fs) == [fs[2]] by {
        assert fs[..0] == [] && fs[..3] == fs;
        PlainFieldsStep(fs, 0);
        PlainFieldsStep(fs, 1);
        PlainFieldsStep(fs, 2);
      }
      Collect1(ColumnFn(m), fs[2], Col("orders", "status"));
      assert q2.groupBy + [Col("orders", "status")] == [Col("orders", "status")];
    }
    assert OrderByStage(m, [], q3) == Ok(q3) by {
      assert q3.orderBy + [] == q3.orderBy;
    }
  }

  /** ORDER BY keeps its direction; LIMIT and OFFSET take the non-zero pagination values. */
  lemma JoinWithOrderByAndPagination()
    ensures var c := SqlConfig([F("users", "id", "user_id"), F("orders", "order_id", "order_id")], "users",
                               [UsersOrders], None, [], [Order(F("orders", "created_at", "created_at"), Desc)],
                               Some(Pagination(10, 20)));
            Compile(c).Ok? &&
            Compile(c).value.orderBy == [OrderItem(Col("orders", "created_at"), Desc)] &&
            Compile(c).value.limit == Some(10) && Compile(c).value.offset == Some(20)
  {
    var c := SqlConfig([F("users", "id", "user_id"), F("orders", "order_id", "order_id")], "users",
                       [UsersOrders], None, [], [Order(F("orders", "created_at", "created_at"), Desc)],
                       Some(Pagination(10, 20)));
    assert UsersOrders in c.joinTables;
    assert "users" in RegisteredNames(c) && "orders" in RegisteredNames(c) by {
      JoinSidesMembers(c.joinTables, "orders");
    }
    CompilesOk(c);
    var q := Compile(c).value;
    assert q.orderBy == [OrderItem(Col("orders", "created_at"), Desc)] by {
      CompileOrderBy(c);
      assert q.orderBy[0] == OrderItem(Col("orders", "created_at"), Desc);
    }
    CompilePagination(c);
  }

  /** An operator outside the supported set has no handler, and its condition is refused. */
  lemma UnsupportedOperatorRefused()
    ensures var w := Leaf(And, Condition(F("users", "name", "user_name"), UnknownOperator("unknown_op"), StrValue("test"), []));
            var c := SqlConfig([F("users", "id", "user_id")], "users", [], Some(w), [], [], None);
            Compile(c) == Err(UnsupportedOperator(UnknownOperator("unknown_op")))
  {
    var w := Leaf(And, Condition(F("users", "name", "user_name"), UnknownOperator("unknown_op"), StrValue("test"), []));
    var c := SqlConfig([F("users", "id", "user_id")], "users", [], Some(w), [], [], None);
    assert "users" in RegisteredNames(c);
    CompileOkIff(c);
    CompileErrKinds(c);
  }

  /** Neither a FROM table nor a join: nothing to select from. */
  lemma MissingSource()
    ensures Compile(Config([F("users", "id", "user_id")], "")) == Err(MissingFromOrJoin)
  {
    CompileMissingSource(Config([F("users", "id", "user_id")], ""));
  }

  const OrdersProducts := JoinTable(LeftJoin, "orders", "products", [LinkField("order_id", "id")])

  /** Two joins: their clauses in list order, each with its own join kind. */
  lemma MultipleJoinTables()
    ensures var c := SqlConfig([F("users", "id", "user_id"), F("orders", "order_id", "order_id"),
                                F("products", "product_name", "product_name")], "users",
                               [UsersOrders, OrdersProducts], None, [], [], None);
            Compile(c).Ok? &&
            Compile(c).value.joins ==
              [JoinClause(Inner, Table("orders"), Col("users", "id"), Col("orders", "user_id")),
               JoinClause(LeftOuter, Table("products"), Col("orders", "order_id"), Col("products", "id"))]
  {
    var fs := [F("users", "id", "user_id"), F("orders", "order_id", "order_id"),
               F("products", "product_name", "product_name")];
    var c := SqlConfig(fs, "users", [UsersOrders, OrdersProducts], None, [], [], None);
    var m := Registry(c);
    assert "users" in RegisteredNames(c) && "orders" in RegisteredNames(c) && "products" in RegisteredNames(c) by {
      assert UsersOrders in c.joinTables && OrdersProducts in c.joinTables;
      JoinSidesMembers(c.joinTables, "orders");
      JoinSidesMembers(c.joinTables, "products");
    }
    var j1 := JoinClause(Inner, Table("orders"), Col("users", "id"), Col("orders", "user_id"));
    var j2 := JoinClause(LeftOuter, Table("products"), Col("orders", "order_id"), Col("products", "id"));
    var q1 := BlankQuery.(from := Some(Table("users")), joins := [j1, j2]);
    assert FromStage(m, c, BlankQuery) == Ok(q1) by {
      assert PairClauses(Inner, Table("users"), Table("orders"), UsersOrders.linkFields) == [j1] by {
        assert UsersOrders.linkFields[..0] == [];
      }
      assert PairClauses(LeftOuter, Table("orders"), Table("products"), OrdersProducts.linkFields) == [j2] by {
        assert OrdersProducts.linkFields[..0] == [];
      }
      assert JoinClausesOf(m, UsersOrders) == Ok([j1]);
      assert JoinClausesOf(m, OrdersProducts) == Ok([j2]);
      Collect2(JoinFn(m), UsersOrders, OrdersProducts, [j1], [j2]);
      assert Flatten([[j1], [j2]]) == [j1, j2] by {
        assert [[j1], [j2]][..1] == [[j1]];
        assert Flatten([[j1]]) == [j1] by {
          assert [[j1]][..0] == [];
        }
      }
      var q0 := BlankQuery.(from := Some(Table("users")));
      assert FromTableStage(m, c, BlankQuery) == Ok(q0);
      assert q0.joins + [j1, j2] == [j1, j2];
      assert JoinStage(m, c.joinTables, q0) == Ok(q1);
    }
    var items := [Item("users", "id", "user_id"), Item("orders", "order_id", "order_id"),
                  Item("products", "product_name", "product_name")];
    Collect3(SelectItemFn(m), fs[0], fs[1], fs[2], items[0], items[1], items[2]);
    var q2 := q1.(select := items);
    assert SelectStage(m, fs, q1) == Ok(q2) by {
      assert q1.select + items == items;
    }
    assert GroupByStage(m, c, q2) == Ok(q2) by {
      assert !HasAggregate(fs);
      assert q2.groupBy + [] == q2.groupBy;
    }
    assert OrderByStage(m, [], q2) == Ok(q2) by {
      assert q2.orderBy + [] == q2.orderBy;
    }
  }

  /** An explicit GROUP BY is used as given, and a single-leaf where is that leaf's comparison. */
  lemma ExplicitGroupBy()
    ensures var country := F("users", "country", "user_country");
            var c := SqlConfig([Agg("users", "id", "user_id", Count), country], "users", [],
                               Some(Leaf(And, Condition(country, Eq, StrValue("Ireland"), []))), [country], [], None);
            Compile(c).Ok? &&
            Compile(c).value.where == Some(Basic(Col("users", "country"), Equal, ScalarOperand(StrValue("Ireland")))) &&
            Compile(c).value.groupBy == [Col("users", "country")]
  {
    var country := F("users", "country", "user_country");
    var w := Leaf(And, Condition(country, Eq, StrValue("Ireland"), []));
    var c := SqlConfig([Agg("users", "id", "user_id", Count), country], "users", [], Some(w), [country], [], None);
    assert "users" in RegisteredNames(c);
    var m := Registry(c);
    assert "users" in m && m["users"] == Table("users");
    assert EvalWhere(m, w) == Ok(Basic(Col("users", "country"), Equal, ScalarOperand(StrValue("Ireland"))));
    EvalWhereOk(m, w);
    CompilesOk(c);
    var q := Compile(c).value;
    assert q.where == Some(Basic(Col("users", "country"), Equal, ScalarOperand(StrValue("Ireland")))) by {
      CompileWhere(c);
    }
    assert q.groupBy == [Col("users", "country")] by {
      CompileGroupBy(c);
    }
  }

  /** The stages run in order: an undeclared select table is reported although the ORDER BY
      also names an undeclared table. */
  lemma SelectFailsBeforeOrderBy()
    ensures var c := SqlConfig([F("invalid_table", "id", "invalid_id")], "users", [], None, [],
                               [Order(F("orders", "date", "order_date"), Desc)], None);
            Compile(c) == Err(TableNotRegistered("invalid_table"))
  {
    var c := SqlConfig([F("invalid_table", "id", "invalid_id")], "users", [], None, [],
                       [Order(F("orders", "date", "order_date"), Desc)], None);
    var m := Registry(c);
    assert "users" in RegisteredNames(c) && "invalid_table" !in RegisteredNames(c);
    assert FromStage(m, c, BlankQuery).Ok?;
    assert Collect(SelectItemFn(m), c.selectFields) == Err(TableNotRegistered("invalid_table")) by {
      assert c.selectFields[..0] == [];
    }
  }
}
