/** The DML half of the `Schema` trait: `insert`, `insert_many`, `update`,
    `update_one`, `update_many`, `upsert`, `delete`, `delete_one`,
    `delete_many` and `count`. A model instance is given by its primary key
    and its `into_map()` row. */
module SchemaDml {
  import opened Wrappers
  import opened Text
  import opened Model
  import opened Pools
  import opened Schema

  // ------------------------------------------------------------ column lists

  function ColumnNames(cols: seq<Column>): seq<string>
  {
    seq(|cols|, i requires 0 <= i < |cols| => cols[i].name)
  }

  /** The encoded value of every column of `row`, in declaration order. */
  function EncodedValues(format: Formatter, cols: seq<Column>, row: Row): seq<string>
  {
    seq(|cols|, i requires 0 <= i < |cols| => format.encodeValue(cols[i], Get(row, cols[i].name)))
  }

  /** One `col = value` entry of a SET list. */
  function Assignment(format: Formatter, col: Column, row: Row): string
  {
    col.name + " = " + format.encodeValue(col, Get(row, col.name))
  }

  /** The columns a SET list covers: all but the primary key, in declaration order. */
  function SetColumns(cols: seq<Column>, primaryKeyName: string): seq<Column>
  {
    if |cols| == 0 then []
    else
      var last := cols[|cols| - 1];
      SetColumns(cols[..|cols| - 1], primaryKeyName) + (if last.name != primaryKeyName then [last] else [])
  }

  function Assignments(format: Formatter, cols: seq<Column>, row: Row, primaryKeyName: string): seq<string>
  {
    var setCols := SetColumns(cols, primaryKeyName);
    seq(|setCols|, i requires 0 <= i < |setCols| => Assignment(format, setCols[i], row))
  }

  /** The SET list covers every column except the primary key, and no other. */
  lemma {:induction false} SetColumnsMembers(cols: seq<Column>, primaryKeyName: string, c: Column)
    ensures c in SetColumns(cols, primaryKeyName) <==> c in cols && c.name != primaryKeyName
    decreases |cols|
  {
    if |cols| > 0 {
      var init := cols[..|cols| - 1];
      SetColumnsMembers(init, primaryKeyName, c);
      assert cols == init + [cols[|cols| - 1]];
    }
  }

  /** The SET list keeps declaration order: the SET columns of a concatenation
      are the concatenation of the SET columns. */
  lemma {:induction false} SetColumnsAppend(a: seq<Column>, b: seq<Column>, primaryKeyName: string)
    ensures SetColumns(a + b, primaryKeyName) == SetColumns(a, primaryKeyName) + SetColumns(b, primaryKeyName)
    decreases |b|
  {
    if |b| == 0 {
      assert a + b == a;
    } else {
      assert (a + b)[..|a + b| - 1] == a + b[..|b| - 1];
      SetColumnsAppend(a, b[..|b| - 1], primaryKeyName);
    }
  }

  /** How one more column extends the SET list. */
  lemma AssignmentsStep(format: Formatter, cols: seq<Column>, i: nat, row: Row, primaryKeyName: string)
    requires i < |cols|
    ensures Assignments(format, cols[..i + 1], row, primaryKeyName) ==
            Assignments(format, cols[..i], row, primaryKeyName) +
            (if cols[i].name != primaryKeyName then [Assignment(format, cols[i], row)] else [])
  {
    assert cols[..i + 1][..i] == cols[..i];
  }

  // ------------------------------------------------------------------ insert

  /** The loop of `insert`: every column in declaration order, with its value
      at the same position. */
  method InsertEntries(format: Formatter, cols: seq<Column>, row: Row) returns (columns: seq<string>, values: seq<string>)
    ensures |columns| == |cols| && |values| == |cols|
    ensures forall i :: 0 <= i < |cols| ==>
              columns[i] == cols[i].name && values[i] == format.encodeValue(cols[i], Get(row, cols[i].name))
  {
    columns, values := [], [];
    for i := 0 to |cols|
      invariant |columns| == i && |values| == i
      invariant forall k :: 0 <= k < i ==>
                  columns[k] == cols[k].name && values[k] == format.encodeValue(cols[k], Get(row, cols[k].name))
    {
      var col := cols[i];
      var column := col.name;
      var value := format.encodeValue(col, Get(row, column));
      columns := columns + [column];
      values := values + [value];
    }
  }

  /** The template `insert` and `insert_many` share: the column list and the
      value list, each in one pair of parentheses. */
  function InsertSql(table: string, columns: seq<string>, values: seq<string>): string
  {
    "INSERT INTO " + table + " (" + Join(columns, ",") + ") VALUES (" + Join(values, ",") + ");"
  }

  /** The statement `insert` executes for a row. */
  function InsertStatement(prefix: string, format: Formatter, schema: Schema, row: Row): string
  {
    InsertSql(TableName(prefix, schema.typeName), ColumnNames(schema.columns), EncodedValues(format, schema.columns, row))
  }

  /** `insert`: succeeds exactly when the writer pool exists and one row was
      inserted. */
  method Insert(env: Env, schema: Schema, row: Row) returns (r: Result<(), Error>)
    ensures InitWriter(env.registry, schema).Err? ==> r == Err(PoolClosed)
    ensures InitWriter(env.registry, schema).Ok? ==>
              r == ExpectOneRow(env.execute(InsertStatement(env.namespacePrefix, env.format, schema, row)))
    ensures r.Ok? <==> InitWriter(env.registry, schema).Ok? &&
                       env.execute(InsertStatement(env.namespacePrefix, env.format, schema, row)) == Ok(1)
  {
    var writer := InitWriter(env.registry, schema);
    if writer.Err? {
      return Err(PoolClosed);
    }
    var table := TableName(env.namespacePrefix, schema.typeName);
    var columns, values := InsertEntries(env.format, schema.columns, row);
    assert columns == ColumnNames(schema.columns);
    assert values == EncodedValues(env.format, schema.columns, row);
    var sql := InsertSql(table, columns, values);
    r := ExpectOneRow(env.execute(sql));
  }

  // ------------------------------------------------------------- insert_many

  /** `n` copies of `s`, one after the other. */
  function Repeat(s: seq<string>, n: nat): (r: seq<string>)
  {
    if n == 0 then [] else Repeat(s, n - 1) + s
  }

  lemma {:induction false} RepeatLength(s: seq<string>, n: nat)
    ensures |Repeat(s, n)| == n * |s|
  {
    if n > 0 {
      RepeatLength(s, n - 1);
    }
  }

  /** One parenthesised VALUES tuple. */
  function Tuple(values: seq<string>): string
  {
    "(" + Join(values, ",") + ")"
  }

  function Tuples(format: Formatter, cols: seq<Column>, rows: seq<Row>): seq<string>
  {
    seq(|rows|, i requires 0 <= i < |rows| => Tuple(EncodedValues(format, cols, rows[i])))
  }

  /** The loops of `insert_many` as written: the column names are pushed once
      per model, so the column list is the declared names repeated once per
      row; each row gives one tuple of its encoded values. */
  method InsertManyEntries(format: Formatter, cols: seq<Column>, rows: seq<Row>) returns (columns: seq<string>, values: seq<string>)
    ensures columns == Repeat(ColumnNames(cols), |rows|)
    ensures values == Tuples(format, cols, rows)
  {
    columns, values := [], [];
    for m := 0 to |rows|
      invariant columns == Repeat(ColumnNames(cols), m)
      invariant values == Tuples(format, cols, rows[..m])
    {
      var row := rows[m];
      var entries: seq<string> := [];
      ghost var before := columns;
      for i := 0 to |cols|
        invariant columns == before + ColumnNames(cols[..i])
        invariant entries == EncodedValues(format, cols[..i], row)
      {
        var col := cols[i];
        var column := col.name;
        var value := format.encodeValue(col, Get(row, column));
        assert ColumnNames(cols[..i + 1]) == ColumnNames(cols[..i]) + [column];
        assert EncodedValues(format, cols[..i + 1], row) == EncodedValues(format, cols[..i], row) + [value];
        columns := columns + [column];
        entries := entries + [value];
      }
      assert cols[..|cols|] == cols;
      assert Tuples(format, cols, rows[..m + 1]) == Tuples(format, cols, rows[..m]) + [Tuple(entries)];
      values := values + [Tuple(entries)];
    }
    assert rows[..|rows|] == rows;
  }

  /** As written, two or more rows make the column list name every column once
      per row: the first column appears again right after the declared names,
      and the list is longer than each tuple. */
  lemma InsertManyRepeatsColumns(format: Formatter, cols: seq<Column>, rows: seq<Row>)
    requires |cols| > 0 && |rows| >= 2
    ensures var columns := Repeat(ColumnNames(cols), |rows|);
            |columns| == |rows| * |cols| > |cols| &&
            columns[0] == columns[|cols|] == cols[0].name
  {
    RepeatLength(ColumnNames(cols), |rows|);
    RepeatPrefix(ColumnNames(cols), |rows|);
    var names := ColumnNames(cols);
    assert Repeat(names, 1) == [] + names == names;
    assert Repeat(names, 2) == names + names;
  }

  /** The first two copies open any repetition of at least two. */
  lemma {:induction false} RepeatPrefix(s: seq<string>, n: nat)
    requires n >= 2
    ensures Repeat(s, 2) <= Repeat(s, n)
  {
    if n > 2 {
      RepeatPrefix(s, n - 1);
    } else {
      assert Repeat(s, n) == Repeat(s, 2);
    }
  }

  /** `insert_many` with the column list built once, as evidently intended:
      the list names the declared columns, once each, and every tuple has one
      value per listed column, in the same order. */
  method InsertManyEntriesOnce(format: Formatter, cols: seq<Column>, rows: seq<Row>) returns (columns: seq<string>, values: seq<string>)
    ensures columns == ColumnNames(cols)
    ensures |values| == |rows|
    ensures forall m :: 0 <= m < |rows| ==>
              values[m] == Tuple(EncodedValues(format, cols, rows[m])) &&
              |EncodedValues(format, cols, rows[m])| == |columns|
  {
    columns := [];
    for i := 0 to |cols|
      invariant columns == ColumnNames(cols[..i])
    {
      assert ColumnNames(cols[..i + 1]) == ColumnNames(cols[..i]) + [cols[i].name];
      columns := columns + [cols[i].name];
    }
    assert cols[..|cols|] == cols;
    values := [];
    for m := 0 to |rows|
      invariant |values| == m
      invariant forall k :: 0 <= k < m ==> values[k] == Tuple(EncodedValues(format, cols, rows[k]))
    {
      var entries := EncodedValues(format, cols, rows[m]);
      values := values + [Tuple(entries)];
    }
  }

  /** As written, `insert_many` puts its already parenthesised tuples inside
      the template's own parentheses: right after the template's `VALUES (`
      comes the first tuple's `(`, so the statement reads `VALUES ((`. */
  lemma InsertManyNestsTuples(table: string, format: Formatter, cols: seq<Column>, columns: seq<string>, rows: seq<Row>)
    requires |rows| > 0
    ensures "INSERT INTO " + table + " (" + Join(columns, ",") + ") VALUES (" + "(" <=
            InsertSql(table, columns, Tuples(format, cols, rows))
  {
    var tuples := Tuples(format, cols, rows);
    JoinStartsWithFirst(tuples, ",");
    assert "(" <= tuples[0];
    PrefixWithin("INSERT INTO " + table + " (" + Join(columns, ",") + ") VALUES (", "(", Join(tuples, ","), ");");
  }

  /** The multi-row INSERT as evidently intended: the column list once, then
      the tuples, separated by commas and not wrapped again. */
  function InsertManyCorrectedSql(table: string, columns: seq<string>, tuples: seq<string>): string
  {
    "INSERT INTO " + table + " (" + Join(columns, ",") + ") VALUES " + Join(tuples, ",") + ";"
  }

  /** With the corrected statement, inserting one model is exactly `insert`'s
      statement for it. */
  lemma InsertManyOfOne(table: string, format: Formatter, cols: seq<Column>, row: Row)
    ensures InsertManyCorrectedSql(table, ColumnNames(cols), Tuples(format, cols, [row])) ==
            InsertSql(table, ColumnNames(cols), EncodedValues(format, cols, row))
  {
    var tuples := Tuples(format, cols, [row]);
    assert tuples == [Tuple(EncodedValues(format, cols, row))];
    assert Join(tuples, ",") == Tuple(EncodedValues(format, cols, row));
  }

  /** With the corrected statement, the VALUES list of `a + b` is the tuples of
      `a`, a comma, and the tuples of `b`: one tuple per model, in order, under
      one column list. */
  lemma InsertManyCorrectedAppend(table: string, format: Formatter, cols: seq<Column>, a: seq<Row>, b: seq<Row>)
    requires |a| > 0 && |b| > 0
    ensures InsertManyCorrectedSql(table, ColumnNames(cols), Tuples(format, cols, a + b)) ==
            "INSERT INTO " + table + " (" + Join(ColumnNames(cols), ",") + ") VALUES " +
            Join(Tuples(format, cols, a), ",") + "," + Join(Tuples(format, cols, b), ",") + ";"
  {
    assert Tuples(format, cols, a + b) == Tuples(format, cols, a) + Tuples(format, cols, b);
    JoinAppend(Tuples(format, cols, a), Tuples(format, cols, b), ",");
    var head := "INSERT INTO " + table + " (" + Join(ColumnNames(cols), ",") + ") VALUES ";
    assert InsertManyCorrectedSql(table, ColumnNames(cols), Tuples(format, cols, a + b)) ==
           head + (Join(Tuples(format, cols, a), ",") + "," + Join(Tuples(format, cols, b), ",")) + ";";
  }

  /** `insert_many`: one multi-row statement, returning the rows affected
      without checking them. */
  method InsertMany(env: Env, schema: Schema, rows: seq<Row>) returns (r: Result<u64, Error>)
    ensures InitWriter(env.registry, schema).Err? ==> r == Err(PoolClosed)
    ensures InitWriter(env.registry, schema).Ok? ==>
              r == Executed(env.execute(InsertSql(
                     TableName(env.namespacePrefix, schema.typeName),
                     Repeat(ColumnNames(schema.columns), |rows|),
                     Tuples(env.format, schema.columns, rows))))
  {
    var writer := InitWriter(env.registry, schema);
    if writer.Err? {
      return Err(PoolClosed);
    }
    var table := TableName(env.namespacePrefix, schema.typeName);
    var columns, values := InsertManyEntries(env.format, schema.columns, rows);
    r := Executed(env.execute(InsertSql(table, columns, values)));
  }

  /** `insert_many` built on `InsertManyEntriesOnce` and the corrected
      statement: one column list, then one tuple per row; the rows affected
      are returned unchecked. */
  method InsertManyCorrected(env: Env, schema: Schema, rows: seq<Row>) returns (r: Result<u64, Error>)
    ensures InitWriter(env.registry, schema).Err? ==> r == Err(PoolClosed)
    ensures InitWriter(env.registry, schema).Ok? ==>
              r == Executed(env.execute(InsertManyCorrectedSql(
                     TableName(env.namespacePrefix, schema.typeName),
                     ColumnNames(schema.columns),
                     Tuples(env.format, schema.columns, rows))))
  {
    var writer := InitWriter(env.registry, schema);
    if writer.Err? {
      return Err(PoolClosed);
    }
    var table := TableName(env.namespacePrefix, schema.typeName);
    var columns, values := InsertManyEntriesOnce(env.format, schema.columns, rows);
    assert values == Tuples(env.format, schema.columns, rows);
    r := Executed(env.execute(InsertManyCorrectedSql(table, columns, values)));
  }

  // ------------------------------------------------------------------ update

  /** The loop of `update`: `col = value` for every column but the primary key. */
  method UpdateAssignments(format: Formatter, cols: seq<Column>, row: Row, primaryKeyName: string) returns (mutations: seq<string>)
    ensures mutations == Assignments(format, cols, row, primaryKeyName)
  {
    mutations := [];
    for i := 0 to |cols|
      invariant mutations == Assignments(format, cols[..i], row, primaryKeyName)
    {
      AssignmentsStep(format, cols, i, row, primaryKeyName);
      var col := cols[i];
      var column := col.name;
      if column != primaryKeyName {
        var value := format.encodeValue(col, Get(row, column));
        mutations := mutations + [column + " = " + value];
      }
    }
    assert cols[..|cols|] == cols;
  }

  function UpdateSql(table: string, mutations: seq<string>, primaryKeyName: string, primaryKey: string): string
  {
    "UPDATE " + table + " SET " + Join(mutations, ",") + " WHERE " + primaryKeyName + " = '" + primaryKey + "';"
  }

  function UpdateStatement(prefix: string, format: Formatter, schema: Schema, primaryKey: string, row: Row): string
  {
    UpdateSql(TableName(prefix, schema.typeName), Assignments(format, schema.columns, row, schema.primaryKeyName),
              schema.primaryKeyName, primaryKey)
  }

  /** `update`: sets every non-key column of the row with that primary key;
      succeeds exactly when one row was updated. */
  method Update(env: Env, schema: Schema, primaryKey: string, row: Row) returns (r: Result<(), Error>)
    ensures InitWriter(env.registry, schema).Err? ==> r == Err(PoolClosed)
    ensures InitWriter(env.registry, schema).Ok? ==>
              r == ExpectOneRow(env.execute(UpdateStatement(env.namespacePrefix, env.format, schema, primaryKey, row)))
    ensures r.Ok? <==> InitWriter(env.registry, schema).Ok? &&
                       env.execute(UpdateStatement(env.namespacePrefix, env.format, schema, primaryKey, row)) == Ok(1)
  {
    var writer := InitWriter(env.registry, schema);
    if writer.Err? {
      return Err(PoolClosed);
    }
    var table := TableName(env.namespacePrefix, schema.typeName);
    var mutations := UpdateAssignments(env.format, schema.columns, row, schema.primaryKeyName);
    var sql := UpdateSql(table, mutations, schema.primaryKeyName, primaryKey);
    r := ExpectOneRow(env.execute(sql));
  }

  /** The subquery that selects the primary key of the first matching row. */
  function FirstKeySubquery(table: string, primaryKeyName: string, filters: string, sort: string): string
  {
    "(SELECT " + primaryKeyName + " FROM " + table + " " + filters + " " + sort + " LIMIT 1)"
  }

  function UpdateOneSql(table: string, primaryKeyName: string, updates: string, filters: string, sort: string): string
  {
    "UPDATE " + table + " SET " + updates + " WHERE " + primaryKeyName + " IN " +
    FirstKeySubquery(table, primaryKeyName, filters, sort) + ";"
  }

  function UpdateOneStatement(prefix: string, format: Formatter, schema: Schema, query: Query, mutation: Mutation): string
  {
    UpdateOneSql(TableName(prefix, schema.typeName), schema.primaryKeyName,
                 format.formatUpdates(schema.columns, mutation),
                 format.formatFilters(schema.columns, query), format.formatSort(query))
  }

  /** `update_one`: updates the row whose key the LIMIT 1 subquery selects;
      succeeds exactly when at most one row was affected. */
  function UpdateOne(env: Env, schema: Schema, query: Query, mutation: Mutation): (r: Result<(), Error>)
    ensures InitWriter(env.registry, schema).Err? ==> r == Err(PoolClosed)
    ensures r.Ok? <==> InitWriter(env.registry, schema).Ok? &&
                       var result := env.execute(UpdateOneStatement(env.namespacePrefix, env.format, schema, query, mutation));
                       result.Ok? && result.value <= 1
    ensures InitWriter(env.registry, schema).Ok? ==>
              var result := env.execute(UpdateOneStatement(env.namespacePrefix, env.format, schema, query, mutation));
              (result.Err? ==> r == Err(Database(result.error))) &&
              (result.Ok? && result.value > 1 ==> r == Err(Io(RowsMessage(result.value, true))))
  {
    match InitWriter(env.registry, schema)
    case Err(e) => Err(e)
    case Ok(_) => ExpectAtMostOneRow(env.execute(UpdateOneStatement(env.namespacePrefix, env.format, schema, query, mutation)))
  }

  function UpdateManyStatement(prefix: string, format: Formatter, schema: Schema, query: Query, mutation: Mutation): string
  {
    "UPDATE " + TableName(prefix, schema.typeName) + " SET " + format.formatUpdates(schema.columns, mutation) + " " +
    format.formatFilters(schema.columns, query) + ";"
  }

  /** `update_many`: returns however many rows were updated; never refuses a count. */
  function UpdateMany(env: Env, schema: Schema, query: Query, mutation: Mutation): (r: Result<u64, Error>)
    ensures InitWriter(env.registry, schema).Err? ==> r == Err(PoolClosed)
    ensures InitWriter(env.registry, schema).Ok? ==>
              var result := env.execute(UpdateManyStatement(env.namespacePrefix, env.format, schema, query, mutation));
              (r.Ok? <==> result.Ok?) && (result.Ok? ==> r.value == result.value)
  {
    match InitWriter(env.registry, schema)
    case Err(e) => Err(e)
    case Ok(_) => Executed(env.execute(UpdateManyStatement(env.namespacePrefix, env.format, schema, query, mutation)))
  }

  // ------------------------------------------------------------------ upsert

  /** The loop of `upsert`: the full column and value lists, and the SET list
      without the primary key. */
  method UpsertEntries(format: Formatter, cols: seq<Column>, row: Row, primaryKeyName: string)
    returns (columns: seq<string>, values: seq<string>, mutations: seq<string>)
    ensures columns == ColumnNames(cols)
    ensures values == EncodedValues(format, cols, row)
    ensures mutations == Assignments(format, cols, row, primaryKeyName)
  {
    columns, values, mutations := [], [], [];
    for i := 0 to |cols|
      invariant columns == ColumnNames(cols[..i])
      invariant values == EncodedValues(format, cols[..i], row)
      invariant mutations == Assignments(format, cols[..i], row, primaryKeyName)
    {
      AssignmentsStep(format, cols, i, row, primaryKeyName);
      var col := cols[i];
      var column := col.name;
      var value := format.encodeValue(col, Get(row, column));
      if column != primaryKeyName {
        mutations := mutations + [column + " = " + value];
      }
      assert ColumnNames(cols[..i + 1]) == ColumnNames(cols[..i]) + [column];
      assert EncodedValues(format, cols[..i + 1], row) == EncodedValues(format, cols[..i], row) + [value];
      columns := columns + [column];
      values := values + [value];
    }
    assert cols[..|cols|] == cols;
  }

  function UpsertSql(table: string, columns: seq<string>, values: seq<string>, primaryKeyName: string, mutations: seq<string>): string
  {
    "INSERT INTO " + table + " (" + Join(columns, ",") + ") VALUES (" + Join(values, ",") + ")" +
    " ON CONFLICT (" + primaryKeyName + ") DO UPDATE SET " + Join(mutations, ",") + ";"
  }

  function UpsertStatement(prefix: string, format: Formatter, schema: Schema, row: Row): string
  {
    UpsertSql(TableName(prefix, schema.typeName), ColumnNames(schema.columns), EncodedValues(format, schema.columns, row),
              schema.primaryKeyName, Assignments(format, schema.columns, row, schema.primaryKeyName))
  }

  /** `upsert`: inserts the row, or on a primary-key conflict sets every
      non-key column; succeeds exactly when one row was affected. */
  method Upsert(env: Env, schema: Schema, row: Row) returns (r: Result<(), Error>)
    ensures InitWriter(env.registry, schema).Err? ==> r == Err(PoolClosed)
    ensures InitWriter(env.registry, schema).Ok? ==>
              r == ExpectOneRow(env.execute(UpsertStatement(env.namespacePrefix, env.format, schema, row)))
    ensures r.Ok? <==> InitWriter(env.registry, schema).Ok? &&
                       env.execute(UpsertStatement(env.namespacePrefix, env.format, schema, row)) == Ok(1)
  {
    var writer := InitWriter(env.registry, schema);
    if writer.Err? {
      return Err(PoolClosed);
    }
    var table := TableName(env.namespacePrefix, schema.typeName);
    var columns, values, mutations := UpsertEntries(env.format, schema.columns, row, schema.primaryKeyName);
    var sql := UpsertSql(table, columns, values, schema.primaryKeyName, mutations);
    r := ExpectOneRow(env.execute(sql));
  }

  // ------------------------------------------------------------------ delete

  function DeleteStatement(prefix: string, schema: Schema, primaryKey: string): string
  {
    "DELETE FROM " + TableName(prefix, schema.typeName) + " WHERE " + schema.primaryKeyName + " = '" + primaryKey + "';"
  }

  /** `delete`: succeeds exactly when one row was deleted, so a missing key
      (0 rows) is an error. */
  function Delete(env: Env, schema: Schema, primaryKey: string): (r: Result<(), Error>)
    ensures InitWriter(env.registry, schema).Err? ==> r == Err(PoolClosed)
    ensures r.Ok? <==> InitWriter(env.registry, schema).Ok? &&
                       env.execute(DeleteStatement(env.namespacePrefix, schema, primaryKey)) == Ok(1)
    ensures InitWriter(env.registry, schema).Ok? ==>
              var result := env.execute(DeleteStatement(env.namespacePrefix, schema, primaryKey));
              (result.Err? ==> r == Err(Database(result.error))) &&
              (result.Ok? && result.value != 1 ==> r == Err(Io(RowsMessage(result.value, false))))
  {
    match InitWriter(env.registry, schema)
    case Err(e) => Err(e)
    case Ok(_) => ExpectOneRow(env.execute(DeleteStatement(env.namespacePrefix, schema, primaryKey)))
  }

  function DeleteOneSql(table: string, primaryKeyName: string, filters: string, sort: string): string
  {
    "DELETE FROM " + table + " WHERE " + primaryKeyName + " IN " + FirstKeySubquery(table, primaryKeyName, filters, sort) + ";"
  }

  function DeleteOneStatement(prefix: string, format: Formatter, schema: Schema, query: Query): string
  {
    DeleteOneSql(TableName(prefix, schema.typeName), schema.primaryKeyName,
                 format.formatFilters(schema.columns, query), format.formatSort(query))
  }

  /** `delete_one`: deletes the row whose key the LIMIT 1 subquery selects;
      succeeds exactly when at most one row was affected. */
  function DeleteOne(env: Env, schema: Schema, query: Query): (r: Result<(), Error>)
    ensures InitWriter(env.registry, schema).Err? ==> r == Err(PoolClosed)
    ensures r.Ok? <==> InitWriter(env.registry, schema).Ok? &&
                       var result := env.execute(DeleteOneStatement(env.namespacePrefix, env.format, schema, query));
                       result.Ok? && result.value <= 1
    ensures InitWriter(env.registry, schema).Ok? ==>
              var result := env.execute(DeleteOneStatement(env.namespacePrefix, env.format, schema, query));
              (result.Err? ==> r == Err(Database(result.error))) &&
              (result.Ok? && result.value > 1 ==> r == Err(Io(RowsMessage(result.value, true))))
  {
    match InitWriter(env.registry, schema)
    case Err(e) => Err(e)
    case Ok(_) => ExpectAtMostOneRow(env.execute(DeleteOneStatement(env.namespacePrefix, env.format, schema, query)))
  }

  /** `update_one` and `delete_one` restrict themselves to the same key: the
      first one the query's filters and sort select. */
  lemma SelectFirstShared(prefix: string, format: Formatter, schema: Schema, query: Query, mutation: Mutation)
    ensures var sub := FirstKeySubquery(TableName(prefix, schema.typeName), schema.primaryKeyName,
                                        format.formatFilters(schema.columns, query), format.formatSort(query));
            var tail := " WHERE " + schema.primaryKeyName + " IN " + sub + ";";
            UpdateOneStatement(prefix, format, schema, query, mutation) ==
              "UPDATE " + TableName(prefix, schema.typeName) + " SET " + format.formatUpdates(schema.columns, mutation) + tail &&
            DeleteOneStatement(prefix, format, schema, query) ==
              "DELETE FROM " + TableName(prefix, schema.typeName) + tail
  {
  }

  function DeleteManyStatement(prefix: string, format: Formatter, schema: Schema, query: Query): string
  {
    "DELETE FROM " + TableName(prefix, schema.typeName) + " " + format.formatFilters(schema.columns, query) + ";"
  }

  /** `delete_many`: returns however many rows were deleted; never refuses a count. */
  function DeleteMany(env: Env, schema: Schema, query: Query): (r: Result<u64, Error>)
    ensures InitWriter(env.registry, schema).Err? ==> r == Err(PoolClosed)
    ensures InitWriter(env.registry, schema).Ok? ==>
              var result := env.execute(DeleteManyStatement(env.namespacePrefix, env.format, schema, query));
              (r.Ok? <==> result.Ok?) && (result.Ok? ==> r.value == result.value)
  {
    match InitWriter(env.registry, schema)
    case Err(e) => Err(e)
    case Ok(_) => Executed(env.execute(DeleteManyStatement(env.namespacePrefix, env.format, schema, query)))
  }

  // ------------------------------------------------------------------- count

  /** One projection entry of `count`. */
  function CountEntry(key: string, distinct: bool): string
  {
    if key != "*" then
      if distinct then "count(distinct " + key + ") as " + key + "_count_distinct"
      else "count(" + key + ") as " + key + "_count"
    else "count(*)"
  }

  function CountEntries(columns: seq<(string, bool)>): seq<string>
  {
    seq(|columns|, i requires 0 <= i < |columns| => CountEntry(columns[i].0, columns[i].1))
  }

  /** The projection of `count`: the entries joined by ',' in input order. */
  function CountProjection(columns: seq<(string, bool)>): string
  {
    Join(CountEntries(columns), ",")
  }

  /** The projection lists one entry per requested column, in order: when no
      key contains a comma, splitting it at ',' gives back the entries. */
  lemma CountProjectionEntries(columns: seq<(string, bool)>)
    requires |columns| > 0
    requires forall i :: 0 <= i < |columns| ==> ',' !in columns[i].0
    ensures Split(CountProjection(columns), ',') == CountEntries(columns)
  {
    var entries := CountEntries(columns);
    forall i | 0 <= i < |entries|
      ensures ',' !in entries[i]
    {
      var key := columns[i].0;
      assert ',' !in "count(distinct " && ',' !in ") as " && ',' !in "_count_distinct";
      assert ',' !in "count(" && ',' !in "_count" && ',' !in "count(*)";
    }
    SplitJoin(entries, ',');
  }

  function CountStatement(prefix: string, format: Formatter, schema: Schema, query: Query, columns: seq<(string, bool)>): string
  {
    "SELECT " + CountProjection(columns) + " FROM " + TableName(prefix, schema.typeName) + " " +
    format.formatFilters(schema.columns, query) + ";"
  }

  /** `count`: fetches the one row of counts. As in the source, it runs on the
      writer pool. */
  function Count(env: Env, schema: Schema, query: Query, columns: seq<(string, bool)>): (r: Result<Row, Error>)
    ensures InitWriter(env.registry, schema).Err? ==> r == Err(PoolClosed)
    ensures InitWriter(env.registry, schema).Ok? ==>
              var result := env.fetchOne(CountStatement(env.namespacePrefix, env.format, schema, query, columns));
              (r.Ok? <==> result.Ok?) && (result.Ok? ==> r.value == result.value) &&
              (result.Err? ==> r.error == Database(result.error))
  {
    match InitWriter(env.registry, schema)
    case Err(e) => Err(e)
    case Ok(_) =>
      match env.fetchOne(CountStatement(env.namespacePrefix, env.format, schema, query, columns))
      case Ok(row) => Ok(row)
      case Err(e) => Err(Database(e))
  }
}
