/** The model-independent core of the `Schema` trait
    (`zino-core/src/database/schema.rs`): a model's static description, name
    derivation, column lookup, pool selection and the row-count checks. The
    SQL builders are in the modules SchemaDdl, SchemaDml and SchemaRelated. */
module Schema {
  import opened Wrappers
  import opened Text
  import opened Model
  import opened Pools

  /** The associated constants and the `columns()` of one model type. */
  datatype Schema = Schema(
    typeName: string,
    primaryKeyName: string,
    readerName: string,
    writerName: string,
    distributionColumn: Option<string>,
    columns: seq<Column>)

  const DefaultPrimaryKeyName := "id"
  const DefaultReaderName := "main"
  const DefaultWriterName := "main"

  /** A model type that keeps every defaulted constant of the trait. */
  function DefaultSchema(typeName: string, columns: seq<Column>): Schema
  {
    Schema(typeName, DefaultPrimaryKeyName, DefaultReaderName, DefaultWriterName, None, columns)
  }

  /** Everything an operation depends on besides the model: the namespace
      prefix, the pool registry, the formatter hooks, and the database, seen
      through what executing or fetching a statement returns. */
  datatype Env = Env(
    namespacePrefix: string,
    registry: ConnectionPools,
    format: Formatter,
    execute: string -> Result<u64, DbError>,
    fetch: string -> Result<seq<(string, Row)>, DbError>,
    fetchOne: string -> Result<Row, DbError>)

  /** `model_namespace`: the prefix and the type name joined by ':'. */
  function ModelNamespace(prefix: string, typeName: string): (r: string)
    ensures r == prefix + ":" + typeName
  {
    JoinPair(prefix, typeName, ":");
    Join([prefix, typeName], ":")
  }

  /** `table_name`: the prefix and the type name joined by '_', with every ':'
      replaced by '_'. */
  function TableName(prefix: string, typeName: string): (r: string)
    ensures ':' !in r
    ensures |r| == |prefix| + 1 + |typeName|
  {
    JoinPair(prefix, typeName, "_");
    var r := ReplaceColons(Join([prefix, typeName], "_"));
    assert forall i :: 0 <= i < |r| ==> r[i] != ':';
    r
  }

  /** The table name is the namespace with its colons replaced, so a model's
      namespace determines its table. */
  lemma TableNameFromNamespace(prefix: string, typeName: string)
    ensures TableName(prefix, typeName) == ReplaceColons(ModelNamespace(prefix, typeName))
  {
    JoinPair(prefix, typeName, "_");
    var joined := Join([prefix, typeName], "_");
    var namespace := ModelNamespace(prefix, typeName);
    assert forall i :: 0 <= i < |joined| && i != |prefix| ==> joined[i] == namespace[i];
    assert joined[|prefix|] == '_' && namespace[|prefix|] == ':';
    SameUpToColons(joined, namespace);
  }

  /** Two strings that differ only where one has '_' and the other ':' give the
      same string once colons are replaced. */
  lemma SameUpToColons(a: string, b: string)
    requires |a| == |b|
    requires forall i :: 0 <= i < |a| ==> a[i] == b[i] || (a[i] in "_:" && b[i] in "_:")
    ensures ReplaceColons(a) == ReplaceColons(b)
  {
  }

  /** Without colons in the prefix or the type name, the table name is just
      the two joined by '_'. */
  lemma TableNameWithoutColons(prefix: string, typeName: string)
    requires ':' !in prefix && ':' !in typeName
    ensures TableName(prefix, typeName) == prefix + "_" + typeName
  {
    JoinPair(prefix, typeName, "_");
    var joined := prefix + "_" + typeName;
    assert forall i :: 0 <= i < |joined| ==> joined[i] != ':' by {
      forall i | 0 <= i < |joined| ensures joined[i] != ':' {
        if i < |prefix| {
          assert joined[i] == prefix[i];
        } else if i > |prefix| {
          assert joined[i] == typeName[i - |prefix| - 1];
        }
      }
    }
    ReplaceNoColons(joined);
  }

  /** `get_column`: the first column with that name. */
  function GetColumn(columns: seq<Column>, key: string): (r: Option<Column>)
    ensures r.None? <==> forall i :: 0 <= i < |columns| ==> columns[i].name != key
    ensures r.Some? ==> exists i :: 0 <= i < |columns| && columns[i] == r.value && r.value.name == key &&
                                    forall j :: 0 <= j < i ==> columns[j].name != key
    decreases |columns|
  {
    if |columns| == 0 then None
    else if columns[0].name == key then Some(columns[0])
    else
      assert forall i :: 1 <= i < |columns| ==> columns[i] == columns[1..][i - 1];
      GetColumn(columns[1..], key)
  }

  /** `init_reader`: the registry's pool named READER_NAME, or `PoolClosed`.
      `get_reader` is taken to be the same lookup. */
  function InitReader(registry: ConnectionPools, schema: Schema): (r: Result<ConnectionPool, Error>)
    ensures r.Err? <==> forall i :: 0 <= i < |registry.pools| ==> registry.pools[i].name != schema.readerName
    ensures r.Err? ==> r.error == PoolClosed
    ensures r.Ok? ==> r.value.name == schema.readerName && r.value in registry.pools
  {
    match GetPool(registry, schema.readerName)
    case None => Err(PoolClosed)
    case Some(pool) => Ok(pool)
  }

  /** `init_writer`: the registry's pool named WRITER_NAME, or `PoolClosed`.
      `get_writer` is taken to be the same lookup. */
  function InitWriter(registry: ConnectionPools, schema: Schema): (r: Result<ConnectionPool, Error>)
    ensures r.Err? <==> forall i :: 0 <= i < |registry.pools| ==> registry.pools[i].name != schema.writerName
    ensures r.Err? ==> r.error == PoolClosed
    ensures r.Ok? ==> r.value.name == schema.writerName && r.value in registry.pools
  {
    match GetPool(registry, schema.writerName)
    case None => Err(PoolClosed)
    case Some(pool) => Ok(pool)
  }

  /** Under the defaults, reads and writes go to the same pool. */
  lemma DefaultReaderIsWriter(registry: ConnectionPools, typeName: string, columns: seq<Column>)
    ensures InitReader(registry, DefaultSchema(typeName, columns)) == InitWriter(registry, DefaultSchema(typeName, columns))
  {
  }

  /** The message of a row-count mismatch. */
  function RowsMessage(rowsAffected: u64, atMost: bool): string
  {
    NatToString(rowsAffected) + " rows are affected while it is expected to affect " +
    (if atMost then "at most 1 row" else "1 row")
  }

  /** The driver's result of executing a statement, with its error forwarded. */
  function Executed(result: Result<u64, DbError>): (r: Result<u64, Error>)
    ensures r.Ok? <==> result.Ok?
    ensures r.Ok? ==> r.value == result.value
    ensures r.Err? ==> r.error == Database(result.error)
  {
    match result
    case Ok(n) => Ok(n)
    case Err(e) => Err(Database(e))
  }

  /** The check of `insert`, `update`, `upsert` and `delete`: success exactly
      when one row was affected. */
  function ExpectOneRow(result: Result<u64, DbError>): (r: Result<(), Error>)
    ensures r.Ok? <==> result == Ok(1)
    ensures result.Err? ==> r == Err(Database(result.error))
    ensures result.Ok? && result.value != 1 ==> r == Err(Io(RowsMessage(result.value, false)))
  {
    match result
    case Err(e) => Err(Database(e))
    case Ok(n) => if n == 1 then Ok(()) else Err(Io(RowsMessage(n, false)))
  }

  /** The check of `update_one` and `delete_one`: success exactly when at most
      one row was affected (zero included). */
  function ExpectAtMostOneRow(result: Result<u64, DbError>): (r: Result<(), Error>)
    ensures r.Ok? <==> result.Ok? && result.value <= 1
    ensures result.Err? ==> r == Err(Database(result.error))
    ensures result.Ok? && result.value > 1 ==> r == Err(Io(RowsMessage(result.value, true)))
  {
    match result
    case Err(e) => Err(Database(e))
    case Ok(n) => if n <= 1 then Ok(()) else Err(Io(RowsMessage(n, true)))
  }

  /** Zero affected rows is accepted by the at-most-one check and refused by
      the exactly-one check, which is where the two differ. */
  lemma ZeroRowsDiffer()
    ensures ExpectAtMostOneRow(Ok(0)).Ok?
    ensures ExpectOneRow(Ok(0)).Err?
  {
  }
}
