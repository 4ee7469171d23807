/** The value types the schema layer works on: JSON values and rows (the
    `Map` of `serde_json`), column descriptors, queries and mutations, the
    errors the layer reports, and the hooks into code that is not part of
    this model (SQL type names, value encoding, filter/sort rendering). */
module Model {
  import opened Wrappers

  /** Rust's `u64`, the type of `rows_affected()`. */
  type u64 = x: int | 0 <= x < 0x1_0000_0000_0000_0000

  /** A JSON value (`serde_json::Value`); numbers are kept as integers. */
  datatype Value =
    | Null
    | Bool(b: bool)
    | Number(n: int)
    | Str(s: string)
    | Array(items: seq<Value>)
    | Object(fields: map<string, Value>)

  /** A JSON object (`zino_core::Map`), the generic row representation. */
  type Row = map<string, Value>

  function Get(row: Row, key: string): Option<Value>
  {
    if key in row then Some(row[key]) else None
  }

  /** Static descriptor of one model field: name, type tag, optional default
      expression, NOT NULL flag and optional index kind (`hash`, `btree`,
      `gin`, `text` or `text:<language>`). */
  datatype Column = Column(
    name: string,
    typeName: string,
    defaultValue: Option<string>,
    notNull: bool,
    indexType: Option<string>)

  /** A structured query: projection, filters, sort and pagination. Its content
      is only read by the formatter hooks below. */
  datatype Query = Query(
    fields: seq<string>,
    filters: Row,
    sortOrder: seq<(string, bool)>,
    offset: nat,
    limit: nat)

  /** A field -> new value mapping for `SET` clauses. */
  datatype Mutation = Mutation(updates: Row)

  /** Rendering of types, values and query parts, as the Postgres dialect and
      the query/mutation formatters do it; none of their rules are modelled. */
  datatype Formatter = Formatter(
    columnType: Column -> string,
    formatValue: (Column, string) -> string,
    encodeValue: (Column, Option<Value>) -> string,
    formatFilters: (seq<Column>, Query) -> string,
    formatSort: Query -> string,
    formatPagination: Query -> string,
    formatFields: Query -> string,
    formatUpdates: (seq<Column>, Mutation) -> string,
    appendFilters: (Query, Row) -> Query,
    parseArray: Option<Value> -> Option<seq<string>>)

  /** An error reported by the database driver while executing or fetching. */
  datatype DbError = DbError(message: string)

  /** The error cases of `sqlx::Error` the schema layer produces or forwards. */
  datatype Error =
    | PoolClosed
    | Database(cause: DbError)
    | Io(message: string)
    | Decode(message: string)
    | RowNotFound
}
