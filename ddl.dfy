/** The DDL half of the `Schema` trait: `create_table` and `create_indexes`. */
module SchemaDdl {
  import opened Wrappers
  import opened Text
  import opened Model
  import opened Pools
  import opened Schema

  // ---------------------------------------------------------------- create_table

  /** The clause after a column's type: DEFAULT when there is a default value,
      otherwise NOT NULL when the column is not nullable, otherwise nothing. */
  function ColumnConstraint(format: Formatter, col: Column): string
  {
    if col.defaultValue.Some? then " DEFAULT " + format.formatValue(col, col.defaultValue.value)
    else if col.notNull then " NOT NULL"
    else ""
  }

  /** A column gets a DEFAULT clause exactly when it has a default value, NOT
      NULL exactly when it has none and is not nullable, and never both. */
  lemma ConstraintCases(format: Formatter, col: Column)
    ensures StartsWith(ColumnConstraint(format, col), " DEFAULT ") <==> col.defaultValue.Some?
    ensures ColumnConstraint(format, col) == " NOT NULL" <==> col.defaultValue.None? && col.notNull
    ensures ColumnConstraint(format, col) == "" <==> col.defaultValue.None? && !col.notNull
  {
    var c := ColumnConstraint(format, col);
    if col.defaultValue.Some? {
      assert c[..9] == " DEFAULT ";
      assert c != " NOT NULL" by { assert c[1] == 'D'; }
      assert |c| >= 9;
    } else {
      assert !StartsWith(" NOT NULL", " DEFAULT ") by { assert " NOT NULL"[1] != " DEFAULT "[1]; }
    }
  }

  /** One entry of the column list: name, SQL type and constraint. */
  function ColumnDefinition(format: Formatter, col: Column): string
  {
    col.name + " " + format.columnType(col) + ColumnConstraint(format, col)
  }

  /** The loop of `create_table`: one definition per column, in declaration order. */
  method ColumnDefinitions(format: Formatter, columns: seq<Column>) returns (defs: seq<string>)
    ensures |defs| == |columns|
    ensures forall i :: 0 <= i < |columns| ==> defs[i] == ColumnDefinition(format, columns[i])
  {
    defs := [];
    for i := 0 to |columns|
      invariant |defs| == i
      invariant forall k :: 0 <= k < i ==> defs[k] == ColumnDefinition(format, columns[k])
    {
      var col := columns[i];
      var column := col.name + " " + format.columnType(col);
      if col.defaultValue.Some? {
        column := column + " DEFAULT " + format.formatValue(col, col.defaultValue.value);
      } else if col.notNull {
        column := column + " NOT NULL";
      }
      defs := defs + [column];
    }
  }

  /** The Citus call appended when the model names a distribution column. */
  function DistributionCall(table: string, distributionColumn: Option<string>): (r: string)
    ensures r == "" <==> distributionColumn.None?
  {
    match distributionColumn
    case None => ""
    case Some(column) => "\n SELECT create_distributed_table('" + table + "', '" + column + "');"
  }

  /** The CREATE TABLE statement before the optional distribution call. */
  function CreateTableHead(table: string, primaryKeyName: string, defs: seq<string>): string
  {
    "CREATE TABLE IF NOT EXISTS " + table + " (" + Join(defs, ",\n") +
    ", CONSTRAINT " + table + "_pkey PRIMARY KEY (" + primaryKeyName + "));"
  }

  function CreateTableSql(table: string, primaryKeyName: string, defs: seq<string>, distributionColumn: Option<string>): string
  {
    CreateTableHead(table, primaryKeyName, defs) + DistributionCall(table, distributionColumn)
  }

  /** The statement `create_table` executes for a model. */
  function CreateTableStatement(prefix: string, format: Formatter, schema: Schema): string
  {
    CreateTableSql(
      TableName(prefix, schema.typeName),
      schema.primaryKeyName,
      seq(|schema.columns|, i requires 0 <= i < |schema.columns| => ColumnDefinition(format, schema.columns[i])),
      schema.distributionColumn)
  }

  /** `create_table`: executes the DDL on the writer pool and returns the rows
      affected. */
  method CreateTable(env: Env, schema: Schema) returns (r: Result<u64, Error>)
    ensures InitWriter(env.registry, schema).Err? ==> r == Err(PoolClosed)
    ensures InitWriter(env.registry, schema).Ok? ==>
              r == Executed(env.execute(CreateTableStatement(env.namespacePrefix, env.format, schema)))
  {
    var writer := InitWriter(env.registry, schema);
    if writer.Err? {
      return Err(PoolClosed);
    }
    var table := TableName(env.namespacePrefix, schema.typeName);
    var defs := ColumnDefinitions(env.format, schema.columns);
    assert defs == seq(|schema.columns|, i requires 0 <= i < |schema.columns| => ColumnDefinition(env.format, schema.columns[i]));
    var sql := "CREATE TABLE IF NOT EXISTS " + table + " (" + Join(defs, ",\n") +
               ", CONSTRAINT " + table + "_pkey PRIMARY KEY (" + schema.primaryKeyName + "));";
    assert sql == CreateTableHead(table, schema.primaryKeyName, defs);
    if schema.distributionColumn.Some? {
      var call := "\n SELECT create_distributed_table('" + table + "', '" + schema.distributionColumn.value + "');";
      assert call == DistributionCall(table, schema.distributionColumn);
      sql := sql + call;
    }
    assert sql == CreateTableSql(table, schema.primaryKeyName, defs, schema.distributionColumn);
    r := Executed(env.execute(sql));
  }

  // -------------------------------------------------------------- create_indexes

  predicate IsTextIndex(indexType: string)
  {
    StartsWith(indexType, "text")
  }

  /** The language of a text index: what follows "text:", or "english". */
  function TextLanguage(indexType: string): string
  {
    StripPrefix(indexType, "text:").GetOr("english")
  }

  /** The bare "text" kind is a text index in english. */
  lemma TextIndexKind()
    ensures IsTextIndex("text") && TextLanguage("text") == "english"
    ensures !IsTextIndex("hash") && !IsTextIndex("gin") && !IsTextIndex("btree")
  {
    assert "text"[..4] == "text";
    assert !StartsWith("text", "text:");
    assert "hash"[..4][0] != "text"[0] && "btree"[..4][0] != "text"[0];
    assert |"gin"| < |"text"|;
  }

  predicate HasPlainIndex(col: Column)
  {
    col.indexType.Some? && !IsTextIndex(col.indexType.value)
  }

  predicate HasTextIndex(col: Column)
  {
    col.indexType.Some? && IsTextIndex(col.indexType.value)
  }

  function Coalesce(name: string): string
  {
    "coalesce(" + name + ", '')"
  }

  /** B-tree indexes are created in descending order, other kinds without an order. */
  function SortOrder(indexType: string): (r: string)
    ensures r != "" <==> indexType == "btree"
  {
    if indexType == "btree" then " DESC" else ""
  }

  /** The index of one non-text indexed column. */
  function PlainIndexSql(table: string, name: string, indexType: string): string
  {
    "CREATE INDEX CONCURRENTLY IF NOT EXISTS " + table + "_" + name + "_index ON " +
    table + " USING " + indexType + "(" + name + SortOrder(indexType) + ");"
  }

  /** The full-text index of one language over the given tsvector expression. */
  function TextIndexSql(table: string, language: string, expression: string): string
  {
    "CREATE INDEX CONCURRENTLY IF NOT EXISTS " + table + "_text_search_" + language + "_index ON " +
    table + " USING gin(to_tsvector('" + language + "', " + expression + "));"
  }

  /** (name, index kind) of every non-text indexed column, in declaration order. */
  function PlainIndexes(cols: seq<Column>): seq<(string, string)>
  {
    if |cols| == 0 then []
    else
      var last := cols[|cols| - 1];
      PlainIndexes(cols[..|cols| - 1]) +
      (if HasPlainIndex(last) then [(last.name, last.indexType.value)] else [])
  }

  /** `text_search_columns`: (language, coalesce expression) of every text
      indexed column, in declaration order. */
  function TextSearchColumns(cols: seq<Column>): seq<(string, string)>
  {
    if |cols| == 0 then []
    else
      var last := cols[|cols| - 1];
      TextSearchColumns(cols[..|cols| - 1]) +
      (if HasTextIndex(last) then [(TextLanguage(last.indexType.value), Coalesce(last.name))] else [])
  }

  /** `text_search_languages`: one language per text indexed column. */
  function TextSearchLanguages(cols: seq<Column>): seq<string>
  {
    if |cols| == 0 then []
    else
      var last := cols[|cols| - 1];
      TextSearchLanguages(cols[..|cols| - 1]) +
      (if HasTextIndex(last) then [TextLanguage(last.indexType.value)] else [])
  }

  /** The expressions of `textColumns` whose language is `language`, in order. */
  function LanguageColumns(textColumns: seq<(string, string)>, language: string): seq<string>
  {
    if |textColumns| == 0 then []
    else
      var last := textColumns[|textColumns| - 1];
      LanguageColumns(textColumns[..|textColumns| - 1], language) +
      (if last.0 == language then [last.1] else [])
  }

  /** How one more column extends the index plan. */
  lemma PlanStep(cols: seq<Column>, k: nat)
    requires k < |cols|
    ensures PlainIndexes(cols[..k + 1]) == PlainIndexes(cols[..k]) +
            (if HasPlainIndex(cols[k]) then [(cols[k].name, cols[k].indexType.value)] else [])
    ensures TextSearchColumns(cols[..k + 1]) == TextSearchColumns(cols[..k]) +
            (if HasTextIndex(cols[k]) then [(TextLanguage(cols[k].indexType.value), Coalesce(cols[k].name))] else [])
    ensures TextSearchLanguages(cols[..k + 1]) == TextSearchLanguages(cols[..k]) +
            (if HasTextIndex(cols[k]) then [TextLanguage(cols[k].indexType.value)] else [])
  {
    assert cols[..k + 1][..k] == cols[..k];
  }

  /** The tsvector argument of a language's index. */
  function TextSearchExpression(textColumns: seq<(string, string)>, language: string): string
  {
    Join(LanguageColumns(textColumns, language), " || ' ' || ")
  }

  /** Two english text columns, name then description, share one expression. */
  lemma EnglishNameAndDescription(textColumns: seq<(string, string)>)
    requires textColumns == [("english", Coalesce("name")), ("english", Coalesce("description"))]
    ensures TextSearchExpression(textColumns, "english") ==
            Coalesce("name") + " || ' ' || " + Coalesce("description")
  {
    var first := textColumns[..1];
    assert first[..0] == [] && first[0].0 == "english" && textColumns[1].0 == "english";
    assert LanguageColumns(first, "english") == [Coalesce("name")];
    assert LanguageColumns(textColumns, "english") == [Coalesce("name")] + [Coalesce("description")];
    JoinPair(Coalesce("name"), Coalesce("description"), " || ' ' || ");
  }

  function PlainIndexStatements(table: string, cols: seq<Column>): seq<string>
  {
    var plain := PlainIndexes(cols);
    seq(|plain|, i requires 0 <= i < |plain| => PlainIndexSql(table, plain[i].0, plain[i].1))
  }

  function TextIndexStatements(table: string, languages: seq<string>, textColumns: seq<(string, string)>): seq<string>
  {
    seq(|languages|, i requires 0 <= i < |languages| =>
      TextIndexSql(table, languages[i], TextSearchExpression(textColumns, languages[i])))
  }

  /** Every statement `create_indexes` executes, in order: the per-column
      indexes, then one full-text index per entry of `text_search_languages`. */
  function IndexStatements(table: string, cols: seq<Column>): seq<string>
  {
    PlainIndexStatements(table, cols) + TextIndexStatements(table, TextSearchLanguages(cols), TextSearchColumns(cols))
  }

  function Max(a: u64, b: u64): u64
  {
    if a >= b then a else b
  }

  /** Executes the statements in order, stopping at the first error, and
      returns the largest number of rows any of them affected. */
  function RunStatements(stmts: seq<string>, execute: string -> Result<u64, DbError>): Result<u64, Error>
  {
    if |stmts| == 0 then Ok(0)
    else
      var rows :- RunStatements(stmts[..|stmts| - 1], execute);
      var n :- Executed(execute(stmts[|stmts| - 1]));
      Ok(Max(n, rows))
  }

  /** Once a prefix fails, running more statements returns that failure. */
  lemma {:induction false} RunPrefixError(a: seq<string>, b: seq<string>, execute: string -> Result<u64, DbError>)
    requires RunStatements(a, execute).Err?
    ensures RunStatements(a + b, execute) == RunStatements(a, execute)
    decreases |b|
  {
    if |b| == 0 {
      assert a + b == a;
    } else {
      assert (a + b)[..|a + b| - 1] == a + b[..|b| - 1];
      RunPrefixError(a, b[..|b| - 1], execute);
    }
  }

  /** The result of `create_indexes` is the maximum of the rows affected (0 for
      no statement); an error is the error of the first statement that fails. */
  lemma {:induction false} RunStatementsResult(stmts: seq<string>, execute: string -> Result<u64, DbError>)
    ensures var r := RunStatements(stmts, execute);
            (r.Ok? ==> (forall i :: 0 <= i < |stmts| ==> execute(stmts[i]).Ok? && execute(stmts[i]).value <= r.value) &&
                       (r.value == 0 || exists i :: 0 <= i < |stmts| && execute(stmts[i]) == Ok(r.value))) &&
            (r.Err? ==> exists i :: 0 <= i < |stmts| && execute(stmts[i]).Err? && r.error == Database(execute(stmts[i]).error) &&
                                   forall j :: 0 <= j < i ==> execute(stmts[j]).Ok?)
    decreases |stmts|
  {
    if |stmts| > 0 {
      var init := stmts[..|stmts| - 1];
      RunStatementsResult(init, execute);
      assert forall i :: 0 <= i < |init| ==> init[i] == stmts[i];
      var r := RunStatements(init, execute);
      if r.Err? {
        var i :| 0 <= i < |init| && execute(init[i]).Err? && r.error == Database(execute(init[i]).error) &&
                 forall j :: 0 <= j < i ==> execute(init[j]).Ok?;
        assert execute(stmts[i]).Err?;
      }
    }
  }

  /** The first loop of `create_indexes`: executes the index of every non-text
      indexed column as it is met, and collects the text columns and their
      languages. */
  method CreatePlainIndexes(execute: string -> Result<u64, DbError>, table: string, cols: seq<Column>)
    returns (r: Result<u64, Error>, textSearchLanguages: seq<string>, textSearchColumns: seq<(string, string)>)
    ensures r == RunStatements(PlainIndexStatements(table, cols), execute)
    ensures r.Ok? ==> textSearchLanguages == TextSearchLanguages(cols) && textSearchColumns == TextSearchColumns(cols)
  {
    textSearchLanguages, textSearchColumns := [], [];
    var rows: u64 := 0;
    ghost var executed: seq<string> := [];
    for i := 0 to |cols|
      invariant textSearchLanguages == TextSearchLanguages(cols[..i])
      invariant textSearchColumns == TextSearchColumns(cols[..i])
      invariant executed == PlainIndexStatements(table, cols[..i])
      invariant RunStatements(executed, execute) == Ok(rows)
    {
      var col := cols[i];
      ColumnStep(table, cols, i);
      if col.indexType.Some? {
        var indexType := col.indexType.value;
        var name := col.name;
        if StartsWith(indexType, "text") {
          var language := TextLanguage(indexType);
          var column := Coalesce(name);
          textSearchLanguages := textSearchLanguages + [language];
          textSearchColumns := textSearchColumns + [(language, column)];
        } else {
          var sql := PlainIndexSql(table, name, indexType);
          var result := execute(sql);
          RunStep(executed, sql, execute);
          executed := executed + [sql];
          if result.Err? {
            PlainErrorPropagates(table, cols, i + 1, execute);
            r := Err(Database(result.error));
            return;
          }
          rows := Max(result.value, rows);
        }
      }
    }
    assert cols[..|cols|] == cols;
    r := Ok(rows);
  }

  /** The second loop of `create_indexes`: one full-text statement per entry of
      `textSearchLanguages`, continuing the run of `executed`. */
  method CreateTextIndexes(execute: string -> Result<u64, DbError>, table: string,
                           textSearchLanguages: seq<string>, textSearchColumns: seq<(string, string)>,
                           rows: u64, ghost executed: seq<string>)
    returns (r: Result<u64, Error>)
    requires RunStatements(executed, execute) == Ok(rows)
    ensures r == RunStatements(executed + TextIndexStatements(table, textSearchLanguages, textSearchColumns), execute)
  {
    ghost var text := TextIndexStatements(table, textSearchLanguages, textSearchColumns);
    var max := rows;
    assert executed + text[..0] == executed;
    for j := 0 to |textSearchLanguages|
      invariant RunStatements(executed + text[..j], execute) == Ok(max)
    {
      var language := textSearchLanguages[j];
      var column := TextSearchExpression(textSearchColumns, language);
      var sql := TextIndexSql(table, language, column);
      assert text[j] == sql;
      var result := execute(sql);
      RunNext(executed, text, j, execute);
      if result.Err? {
        return Err(Database(result.error));
      }
      max := Max(result.value, max);
    }
    assert text[..|textSearchLanguages|] == text;
    r := Ok(max);
  }

  /** Running `stmts[j]` after `executed + stmts[..j]`; a failure there is the
      failure of the whole run. */
  lemma RunNext(executed: seq<string>, stmts: seq<string>, j: nat, execute: string -> Result<u64, DbError>)
    requires j < |stmts|
    requires RunStatements(executed + stmts[..j], execute).Ok?
    ensures execute(stmts[j]).Ok? ==>
              RunStatements(executed + stmts[..j + 1], execute) ==
              Ok(Max(execute(stmts[j]).value, RunStatements(executed + stmts[..j], execute).value))
    ensures execute(stmts[j]).Err? ==>
              RunStatements(executed + stmts, execute) == Err(Database(execute(stmts[j]).error))
  {
    var done := executed + stmts[..j];
    assert stmts[..j + 1] == stmts[..j] + [stmts[j]];
    assert executed + stmts[..j + 1] == done + [stmts[j]];
    RunStep(done, stmts[j], execute);
    if execute(stmts[j]).Err? {
      var failed := executed + stmts[..j + 1];
      assert stmts[..j + 1] + stmts[j + 1..] == stmts;
      assert failed + stmts[j + 1..] == executed + stmts;
      RunPrefixError(failed, stmts[j + 1..], execute);
    }
  }

  /** `create_indexes`: executes the per-column indexes while scanning the
      columns, then the full-text indexes, and returns the largest row count. */
  method CreateIndexes(env: Env, schema: Schema) returns (r: Result<u64, Error>)
    ensures InitWriter(env.registry, schema).Err? ==> r == Err(PoolClosed)
    ensures InitWriter(env.registry, schema).Ok? ==>
              r == RunStatements(IndexStatements(TableName(env.namespacePrefix, schema.typeName), schema.columns), env.execute)
  {
    var writer := InitWriter(env.registry, schema);
    if writer.Err? {
      return Err(PoolClosed);
    }
    var table := TableName(env.namespacePrefix, schema.typeName);
    var cols := schema.columns;
    ghost var plain := PlainIndexStatements(table, cols);
    ghost var text := TextIndexStatements(table, TextSearchLanguages(cols), TextSearchColumns(cols));
    var plainResult, languages, textColumns := CreatePlainIndexes(env.execute, table, cols);
    if plainResult.Err? {
      RunPrefixError(plain, text, env.execute);
      return plainResult;
    }
    r := CreateTextIndexes(env.execute, table, languages, textColumns, plainResult.value, plain);
  }

  /** Running one more statement. */
  lemma RunStep(executed: seq<string>, sql: string, execute: string -> Result<u64, DbError>)
    requires RunStatements(executed, execute).Ok?
    ensures RunStatements(executed + [sql], execute) ==
            match execute(sql)
            case Err(e) => Err(Database(e))
            case Ok(n) => Ok(Max(n, RunStatements(executed, execute).value))
  {
    assert (executed + [sql])[..|executed|] == executed;
  }

  /** A failure among the statements of `cols[..k]` is the failure of all of them. */
  lemma PlainErrorPropagates(table: string, cols: seq<Column>, k: nat, execute: string -> Result<u64, DbError>)
    requires k <= |cols|
    requires RunStatements(PlainIndexStatements(table, cols[..k]), execute).Err?
    ensures RunStatements(PlainIndexStatements(table, cols), execute) ==
            RunStatements(PlainIndexStatements(table, cols[..k]), execute)
  {
    var done := PlainIndexStatements(table, cols[..k]);
    var all := PlainIndexStatements(table, cols);
    PlainIndexStatementsPrefix(table, cols, k);
    RunPrefixError(done, all[|done|..], execute);
    assert done + all[|done|..] == all;
  }

  /** How the column `cols[i]` extends the three accumulations of the first loop. */
  lemma ColumnStep(table: string, cols: seq<Column>, i: nat)
    requires i < |cols|
    ensures var col := cols[i];
            && PlainIndexStatements(table, cols[..i + 1]) ==
               PlainIndexStatements(table, cols[..i]) +
               (if HasPlainIndex(col) then [PlainIndexSql(table, col.name, col.indexType.value)] else [])
            && TextSearchLanguages(cols[..i + 1]) ==
               TextSearchLanguages(cols[..i]) + (if HasTextIndex(col) then [TextLanguage(col.indexType.value)] else [])
            && TextSearchColumns(cols[..i + 1]) ==
               TextSearchColumns(cols[..i]) +
               (if HasTextIndex(col) then [(TextLanguage(col.indexType.value), Coalesce(col.name))] else [])
  {
    assert cols[..i + 1][..i] == cols[..i];
    assert cols[..i + 1] == cols[..i] + [cols[i]];
    PlainStatementsStep(table, cols[..i], cols[i]);
  }

  /** How one more column extends the per-column statements. */
  lemma PlainStatementsStep(table: string, cols: seq<Column>, col: Column)
    ensures PlainIndexStatements(table, cols + [col]) ==
            PlainIndexStatements(table, cols) +
            (if HasPlainIndex(col) then [PlainIndexSql(table, col.name, col.indexType.value)] else [])
  {
    assert (cols + [col])[..|cols|] == cols;
  }

  /** The per-column statements of a prefix of the columns are a prefix of
      all per-column statements. */
  lemma PlainIndexStatementsPrefix(table: string, cols: seq<Column>, k: nat)
    requires k <= |cols|
    ensures PlainIndexStatements(table, cols[..k]) <= PlainIndexStatements(table, cols)
  {
    PlainIndexesAppend(cols[..k], cols[k..]);
    assert cols[..k] + cols[k..] == cols;
  }

  /** The per-column plan keeps declaration order: the plan of a concatenation
      is the concatenation of the plans. */
  lemma {:induction false} PlainIndexesAppend(a: seq<Column>, b: seq<Column>)
    ensures PlainIndexes(a + b) == PlainIndexes(a) + PlainIndexes(b)
    decreases |b|
  {
    if |b| == 0 {
      assert a + b == a;
    } else {
      assert (a + b)[..|a + b| - 1] == a + b[..|b| - 1];
      PlainIndexesAppend(a, b[..|b| - 1]);
    }
  }

  /** The text-search plan of a concatenation is the concatenation of the plans. */
  lemma {:induction false} TextPlanAppend(a: seq<Column>, b: seq<Column>)
    ensures TextSearchColumns(a + b) == TextSearchColumns(a) + TextSearchColumns(b)
    ensures TextSearchLanguages(a + b) == TextSearchLanguages(a) + TextSearchLanguages(b)
    decreases |b|
  {
    if |b| == 0 {
      assert a + b == a;
    } else {
      assert (a + b)[..|a + b| - 1] == a + b[..|b| - 1];
      TextPlanAppend(a, b[..|b| - 1]);
    }
  }

  /** The plan of four consecutive groups of columns. */
  lemma PlanOfGroups(a: seq<Column>, b: seq<Column>, c: seq<Column>, d: seq<Column>)
    ensures PlainIndexes(a + b + c + d) == PlainIndexes(a) + PlainIndexes(b) + PlainIndexes(c) + PlainIndexes(d)
    ensures TextSearchColumns(a + b + c + d) ==
            TextSearchColumns(a) + TextSearchColumns(b) + TextSearchColumns(c) + TextSearchColumns(d)
    ensures TextSearchLanguages(a + b + c + d) ==
            TextSearchLanguages(a) + TextSearchLanguages(b) + TextSearchLanguages(c) + TextSearchLanguages(d)
  {
    PlainIndexesAppend(a, b);
    PlainIndexesAppend(a + b, c);
    PlainIndexesAppend(a + b + c, d);
    TextPlanAppend(a, b);
    TextPlanAppend(a + b, c);
    TextPlanAppend(a + b + c, d);
  }

  /** Columns without an index attribute plan no index at all. */
  lemma {:induction false} UnindexedPlan(cols: seq<Column>)
    requires forall i :: 0 <= i < |cols| ==> cols[i].indexType.None?
    ensures PlainIndexes(cols) == [] && TextSearchColumns(cols) == [] && TextSearchLanguages(cols) == []
    decreases |cols|
  {
    if |cols| > 0 {
      UnindexedPlan(cols[..|cols| - 1]);
    }
  }

  /** Exactly the non-text indexed columns get an index of their own, with
      their declared kind. */
  lemma {:induction false} PlainIndexesMembers(cols: seq<Column>, name: string, indexType: string)
    ensures (name, indexType) in PlainIndexes(cols) <==>
            exists i :: 0 <= i < |cols| && HasPlainIndex(cols[i]) && cols[i].name == name && cols[i].indexType == Some(indexType)
    decreases |cols|
  {
    if |cols| > 0 {
      var init := cols[..|cols| - 1];
      PlainIndexesMembers(init, name, indexType);
      assert forall i :: 0 <= i < |init| ==> init[i] == cols[i];
    }
  }

  /** The columns of `cols` with a text index in `language`, in declaration order. */
  function TextColumnsOf(cols: seq<Column>, language: string): seq<Column>
  {
    if |cols| == 0 then []
    else
      var last := cols[|cols| - 1];
      TextColumnsOf(cols[..|cols| - 1], language) +
      (if HasTextIndex(last) && TextLanguage(last.indexType.value) == language then [last] else [])
  }

  function CoalescedNames(cols: seq<Column>): (r: seq<string>)
    ensures |r| == |cols|
  {
    if |cols| == 0 then [] else CoalescedNames(cols[..|cols| - 1]) + [Coalesce(cols[|cols| - 1].name)]
  }

  /** Grouping by language: the full-text index of a language covers exactly
      the text columns of that language, in declaration order. */
  lemma {:induction false} TextSearchGrouping(cols: seq<Column>, language: string)
    ensures LanguageColumns(TextSearchColumns(cols), language) == CoalescedNames(TextColumnsOf(cols, language))
    ensures TextSearchExpression(TextSearchColumns(cols), language) ==
            Join(CoalescedNames(TextColumnsOf(cols, language)), " || ' ' || ")
    decreases |cols|
  {
    if |cols| > 0 {
      var init := cols[..|cols| - 1];
      var last := cols[|cols| - 1];
      TextSearchGrouping(init, language);
      var tsc := TextSearchColumns(cols);
      var tco := TextColumnsOf(cols, language);
      if HasTextIndex(last) {
        assert tsc == TextSearchColumns(init) + [(TextLanguage(last.indexType.value), Coalesce(last.name))];
        assert tsc[..|tsc| - 1] == TextSearchColumns(init);
        if TextLanguage(last.indexType.value) == language {
          assert tco == TextColumnsOf(init, language) + [last];
          assert tco[..|tco| - 1] == TextColumnsOf(init, language);
          assert CoalescedNames(tco) == CoalescedNames(TextColumnsOf(init, language)) + [Coalesce(last.name)];
          assert LanguageColumns(tsc, language) == LanguageColumns(TextSearchColumns(init), language) + [Coalesce(last.name)];
        } else {
          assert tco == TextColumnsOf(init, language);
          assert LanguageColumns(tsc, language) == LanguageColumns(TextSearchColumns(init), language);
        }
      } else {
        assert tsc == TextSearchColumns(init);
        assert tco == TextColumnsOf(init, language);
      }
    }
  }

  /** The quirk of `text_search_languages`: a language occurs once per text
      column of that language, so its full-text statement is issued that many
      times, each time identical. */
  lemma {:induction false} LanguageOccurrences(cols: seq<Column>, language: string)
    ensures multiset(TextSearchLanguages(cols))[language] == |TextColumnsOf(cols, language)|
    decreases |cols|
  {
    if |cols| > 0 {
      LanguageOccurrences(cols[..|cols| - 1], language);
    }
  }

  lemma IdenticalTextStatements(table: string, cols: seq<Column>, i: nat, j: nat)
    requires i < |TextSearchLanguages(cols)| && j < |TextSearchLanguages(cols)|
    requires TextSearchLanguages(cols)[i] == TextSearchLanguages(cols)[j]
    ensures var text := TextIndexStatements(table, TextSearchLanguages(cols), TextSearchColumns(cols));
            text[i] == text[j]
  {
  }
}
