# zino schema layer in Dafny

This project models the database layer of zino's `Schema` trait and its supporting pieces.
It covers:

- **Naming.** A model's namespace and table name come from the namespace prefix and the model's type name.
- **Column lookup.** `get_column` finds a declared column by name.
- **Pool registry.** `ConnectionPool::connect_lazy` resolves a pool's options and their defaults from one `postgres` config table. `SHARED_CONNECTION_POOLS` builds the registry from the `postgres` array. `ConnectionPools::get_pool` looks a pool up by name.
- **Pool selection.** `init_reader`/`init_writer` pick the model's pool and fail with `PoolClosed` when it is missing.
- **SQL text.** The trait builds the statements of `create_table`, `create_indexes`, `insert`, `insert_many`, `update`, `update_one`, `update_many`, `upsert`, `delete`, `delete_one`, `delete_many` and `count`.
- **Row-count checks.** Each operation that checks the rows affected is modelled, with its error message.
- **The N+1 resolver** of `find_related`/`find_related_one`:
  - it collects foreign keys from the named columns;
  - it appends a `$in` primary-key filter only when keys were found;
  - it builds the primary-key → model association map;
  - it substitutes references in place.
- **The `Dataset` and `Record` models:**
  - their fields and `#[schema]` column declarations;
  - their `read_map` validators, which update `id` and `name` in place and record failures into a `Validation`.

Module layout follows the source:

- `Wrappers`, `Text` and `Model` hold the value types (`Value`, `Row`, `Column`, `Query`, `Mutation`, `Error`). They also hold the string helpers the source takes from Rust's standard library (`join`, `strip_prefix`, `replace`).
- `Pools` is `database/mod.rs`.
- `Schema`, `SchemaDdl`, `SchemaDml` and `SchemaRelated` split `database/schema.rs` into naming and pool selection, DDL, DML and `find_related`.
- `ModelValidation`, `DatasetModel` and `RecordModel` cover the two model files.

How the model treats the pieces it does not define:

- **Uninterpreted functions.** These are function-valued fields, so every property holds for every implementation of them:
  - the Postgres formatting and encoding (`column_type`, `format_value`, `encode_value`);
  - the query and mutation rendering (`format_filters`, `format_sort`, `format_pagination`, `format_fields`, `format_updates`, `append_filters`);
  - the `Validation` parsers (`parse_array`, `parse_uuid`, `parse_string`);
  - the TOML getters and `State::decrypt_password`.

  The uninterpreted functions sit in `Model.Formatter`, `Pools.TableReader` and `ModelValidation.Parsers`.
- **Database access.** Executing a statement is a parameter (`Schema.Env`):
  - `execute` yields the rows affected or a driver error;
  - `fetch` yields the fetched `(primary key, row)` pairs or an error;
  - `fetchOne` yields one row or an error.
- **Explicit inputs.** The namespace prefix and the pool registry (the `LazyLock` statics) are passed in explicitly.
- **Panics.** A panicking `expect` in the configuration code becomes an `Err` carrying the `expect` message.

Behaviour modelled as written:

- `create_indexes` pushes a language once per text column. A language with several text columns therefore gets that many identical GIN statements (`SchemaDdl.IdenticalTextStatements`, `DatasetModel.DatasetTextIndexes`).
- `count` runs on the writer pool, not the reader.
- `find_related` extends the caller's query before it fetches, so the query is changed even when the fetch fails.
- The SQL templates that span several lines in the source are modelled as single-line strings. The words and punctuation are unchanged; the indentation and line breaks inside the template are not kept.

## Model

| member | source | states |
|---|---|---|
| Schema.ModelNamespace | zino-core/src/database/schema.rs:51-53 | the namespace is the prefix, ':' and the type name |
| Schema.TableName | zino-core/src/database/schema.rs:57-62 | the table name contains no ':' and is one character longer than prefix and type name together |
| Schema.TableNameFromNamespace | zino-core/src/database/schema.rs:51-62 | the table name is the namespace with every ':' replaced by '_' |
| Schema.TableNameWithoutColons | zino-core/src/database/schema.rs:57-62 | when neither part contains ':', the table name is prefix + "_" + type name |
| Schema.GetColumn | zino-core/src/database/schema.rs:66-68 | the first column with that name; None exactly when no column has it |
| Schema.InitReader | zino-core/src/database/schema.rs:72-76 | Err(PoolClosed) exactly when no pool has the reader name; otherwise a registry pool with that name |
| Schema.InitWriter | zino-core/src/database/schema.rs:80-84 | Err(PoolClosed) exactly when no pool has the writer name; otherwise a registry pool with that name |
| Schema.DefaultReaderIsWriter | zino-core/src/database/schema.rs:20-24 | under the default reader and writer names both lookups give the same pool |
| Schema.Executed | zino-core/src/database/schema.rs:116-117 | the rows affected are passed through unchecked; a driver error becomes a database error |
| Schema.ExpectOneRow | zino-core/src/database/schema.rs:190-198 | Ok exactly when one row was affected; any other count is an I/O error naming the count; a driver error is forwarded |
| Schema.ExpectAtMostOneRow | zino-core/src/database/schema.rs:271-279 | Ok exactly when at most one row was affected; a larger count is an I/O error naming it; a driver error is forwarded |
| Schema.ZeroRowsDiffer | zino-core/src/database/schema.rs:271-279 | zero affected rows pass the at-most-one check of `update_one` and fail the exactly-one check of `insert` (lines 190-198) |
| Text.StripPrefix | zino-core/src/database/schema.rs:131 | Some exactly when the string starts with the prefix, and then prefix + rest is the string |
| Text.ReplaceColons | zino-core/src/database/schema.rs:60 | same length, every ':' becomes '_', every other character is kept |
| Text.SplitJoin | zino-core/src/database/schema.rs:566-580 | joining parts free of the separator and splitting again gives the parts back |
| Pools.ConnectLazy | zino-core/src/database/mod.rs:34-89 | fails exactly when `database` is present and the username or password is missing, with the matching `expect` message |
| Pools.ConnectOptionsResolved | zino-core/src/database/mod.rs:36-43 | application name, statement cache capacity (100), host ("127.0.0.1") and port (5432): each default applies exactly when its key is absent |
| Pools.CredentialsResolved | zino-core/src/database/mod.rs:44-61 | database, username and password are applied only when `database` is present; otherwise there are no credentials and the database name is "" |
| Pools.PoolOptionsResolved | zino-core/src/database/mod.rs:64-83 | max/min connections 16/2, max lifetime 3600 s, idle timeout 600 s, acquire timeout 30 s, name "main": each default applies exactly when its key is absent |
| Pools.GetPool | zino-core/src/database/mod.rs:117-119 | the first pool in registry order with that name; None exactly when no pool has it |
| Pools.TablesAppend | zino-core/src/database/mod.rs:136 | the table entries of a concatenation are the table entries of each part, in order |
| Pools.RegistryPoolsPrefixError | zino-core/src/database/mod.rs:136-139 | once an entry fails, the whole registry fails with that error |
| Pools.RegistryPoolsShape | zino-core/src/database/mod.rs:132-140 | one pool per table entry of the array, in order, each `connect_lazy` of that table; non-table entries are skipped; a failure is the failure of one table |
| Pools.BuildRegistry | zino-core/src/database/mod.rs:123-141 | a missing `name` or `postgres` fails with its `expect` message; otherwise the loop builds exactly the registry of RegistryPools |
| Pools.UnnamedPoolIsMain | zino-core/src/database/mod.rs:83 | a registry pool whose table has no `name` is found under "main", the default reader and writer name |
| SchemaDdl.ConstraintCases | zino-core/src/database/schema.rs:96-100 | a column gets a DEFAULT clause iff it has a default, NOT NULL iff it has none and is not-null, never both |
| SchemaDdl.ColumnDefinitions | zino-core/src/database/schema.rs:92-102 | one definition per declared column, in declaration order: name, type, constraint |
| SchemaDdl.DistributionCall | zino-core/src/database/schema.rs:113-115 | the distributed-table call is present exactly when a distribution column is declared |
| SchemaDdl.CreateTable | zino-core/src/database/schema.rs:87-118 | PoolClosed without a writer; otherwise executes the CREATE TABLE statement (definitions joined by ",\n", primary-key constraint, distribution call) and returns the rows affected |
| SchemaDdl.TextIndexKind | zino-core/src/database/schema.rs:130-131 | a bare "text" index is a text index in english; "hash", "gin" and "btree" are not text indexes |
| SchemaDdl.SortOrder | zino-core/src/database/schema.rs:136 | the sort suffix is present exactly for "btree" |
| SchemaDdl.PlanStep | zino-core/src/database/schema.rs:127-150 | each column adds a plain index if it has a non-text index, or a language and a coalesce expression if it has a text index |
| SchemaDdl.PlainIndexesAppend | zino-core/src/database/schema.rs:127-150 | the plain indexes of a concatenation are those of each part, in order |
| SchemaDdl.TextPlanAppend | zino-core/src/database/schema.rs:127-134 | the text-search columns and languages of a concatenation are those of each part, in order |
| SchemaDdl.PlanOfGroups | zino-core/src/database/schema.rs:127-150 | the index plan of four consecutive column groups is the concatenation of their plans |
| SchemaDdl.UnindexedPlan | zino-core/src/database/schema.rs:128 | columns without an index attribute plan nothing |
| SchemaDdl.PlainIndexesMembers | zino-core/src/database/schema.rs:128-148 | (name, kind) is planned exactly when a column of that name has that non-text index kind |
| SchemaDdl.TextSearchGrouping | zino-core/src/database/schema.rs:151-157 | a language's expression joins `coalesce(col, '')` of exactly that language's text columns, in declaration order, with " \|\| ' ' \|\| " |
| SchemaDdl.LanguageOccurrences | zino-core/src/database/schema.rs:133 | a language is pushed once per text column of that language |
| SchemaDdl.IdenticalTextStatements | zino-core/src/database/schema.rs:151-163 | two text-index statements for the same language are identical |
| SchemaDdl.EnglishNameAndDescription | zino-core/src/database/schema.rs:151-157 | english name and description columns give `coalesce(name, '') \|\| ' ' \|\| coalesce(description, '')` |
| SchemaDdl.RunStatementsResult | zino-core/src/database/schema.rs:143-147 | on success the result is at least every statement's count and is 0 or one of them (the max); an error is the first failing statement's (the same loop runs at lines 164-168) |
| SchemaDdl.RunPrefixError | zino-core/src/database/schema.rs:143-145 | once a statement fails, later statements do not change the error |
| SchemaDdl.CreatePlainIndexes | zino-core/src/database/schema.rs:127-150 | the column loop runs exactly the per-column index statements, keeping the running max, and accumulates the text-search languages and columns |
| SchemaDdl.CreateTextIndexes | zino-core/src/database/schema.rs:151-169 | the language loop continues the same run with one GIN statement per pushed language |
| SchemaDdl.CreateIndexes | zino-core/src/database/schema.rs:121-171 | PoolClosed without a writer; otherwise the result of running every plain-index statement and then every text-index statement |
| SchemaDml.SetColumnsMembers | zino-core/src/database/schema.rs:234-240 | the SET list of `update` (and of `upsert`, lines 302-310) covers every column except the primary key, and no other |
| SchemaDml.SetColumnsAppend | zino-core/src/database/schema.rs:234-240 | the SET list keeps declaration order |
| SchemaDml.InsertEntries | zino-core/src/database/schema.rs:180-185 | every column in declaration order, with its encoded value at the same position |
| SchemaDml.Insert | zino-core/src/database/schema.rs:174-199 | PoolClosed without a writer; otherwise Ok exactly when the INSERT affects one row |
| SchemaDml.InsertManyEntries | zino-core/src/database/schema.rs:207-217 | the column list is the declared names repeated once per model; one value tuple per model |
| SchemaDml.InsertManyRepeatsColumns | zino-core/src/database/schema.rs:207-217 | with two or more models the column list names the first column twice and is longer than each tuple |
| SchemaDml.InsertManyEntriesOnce | zino-core/src/database/schema.rs:202-224 | corrected: the column list names the declared columns once, and every tuple has one value per listed column |
| SchemaDml.InsertManyNestsTuples | zino-core/src/database/schema.rs:216-221 | as written, the tuples, each already in parentheses, sit inside the template's `VALUES (…)`, so the statement reads `VALUES ((` |
| SchemaDml.InsertMany | zino-core/src/database/schema.rs:202-224 | PoolClosed without a writer; otherwise executes the statement as written (the `insert` template over the repeated column list and the tuples) and returns the rows affected unchecked |
| SchemaDml.InsertManyOfOne | zino-core/src/database/schema.rs:216-221 | corrected: the multi-row statement for one model is exactly `insert`'s statement for it (lines 187-188) |
| SchemaDml.InsertManyCorrectedAppend | zino-core/src/database/schema.rs:216-221 | corrected: for rows `a + b` the VALUES list is the tuples of `a`, a comma and the tuples of `b`, under one column list |
| SchemaDml.InsertManyCorrected | zino-core/src/database/schema.rs:202-224 | corrected: PoolClosed without a writer; otherwise executes the column list once followed by the unwrapped tuples, and returns the rows affected unchecked |
| SchemaDml.UpdateAssignments | zino-core/src/database/schema.rs:234-240 | `col = value` for exactly the SET columns, in declaration order |
| SchemaDml.Update | zino-core/src/database/schema.rs:227-255 | PoolClosed without a writer; otherwise Ok exactly when the UPDATE of that primary key affects one row |
| SchemaDml.UpdateOne | zino-core/src/database/schema.rs:258-280 | PoolClosed without a writer; otherwise Ok exactly when at most one row is affected, with an I/O error naming a larger count |
| SchemaDml.SelectFirstShared | zino-core/src/database/schema.rs:267-268 | `update_one` and `delete_one` (lines 359-360) restrict to the same LIMIT 1 primary-key subquery |
| SchemaDml.UpdateMany | zino-core/src/database/schema.rs:283-291 | PoolClosed without a writer; otherwise any rows-affected count is returned |
| SchemaDml.UpsertEntries | zino-core/src/database/schema.rs:302-310 | all columns with aligned values, and the SET list without the primary key |
| SchemaDml.Upsert | zino-core/src/database/schema.rs:294-330 | PoolClosed without a writer; otherwise Ok exactly when the INSERT … ON CONFLICT affects one row |
| SchemaDml.Delete | zino-core/src/database/schema.rs:333-348 | PoolClosed without a writer; otherwise Ok exactly when one row was deleted, so a missing key is an error |
| SchemaDml.DeleteOne | zino-core/src/database/schema.rs:351-372 | PoolClosed without a writer; otherwise Ok exactly when at most one row is affected |
| SchemaDml.DeleteMany | zino-core/src/database/schema.rs:375-382 | PoolClosed without a writer; otherwise any rows-affected count is returned |
| SchemaDml.CountProjectionEntries | zino-core/src/database/schema.rs:566-580 | the projection holds one entry per requested column in input order: splitting it at ',' gives back the entries |
| SchemaDml.Count | zino-core/src/database/schema.rs:559-584 | PoolClosed without a writer (count uses the writer pool); otherwise the fetched row, or the driver error |
| SchemaRelated.RowKeysMembers | zino-core/src/database/schema.rs:451-455 | a key is collected from a row exactly when a listed column of it yields that key |
| SchemaRelated.ForeignKeysMembers | zino-core/src/database/schema.rs:450-456 | a key is collected exactly when some listed column of some row yields it |
| SchemaRelated.CollectRowKeys | zino-core/src/database/schema.rs:510-515 | the column loop collects one row's keys: every parsed array of a listed column, column after column |
| SchemaRelated.CollectForeignKeys | zino-core/src/database/schema.rs:449-456 | the nested loop collects the keys row after row, column after column |
| SchemaRelated.RelatedQuery | zino-core/src/database/schema.rs:457-466 | the query is unchanged when no key was collected, and gets the `{pk: {"$in": keys}}` filter otherwise |
| SchemaRelated.AssociationsSpec | zino-core/src/database/schema.rs:472-477 | the association keys are exactly the fetched primary keys, each mapped to the last row fetched under it |
| SchemaRelated.BuildAssociations | zino-core/src/database/schema.rs:472-477 | the fetch loop builds exactly that association map |
| SchemaRelated.SubstituteValueSpec | zino-core/src/database/schema.rs:480-493 | a string with an association becomes the model; array entries are replaced element-wise with the length kept; everything else is untouched; every resolvable reference is resolved; idempotent |
| SchemaRelated.SubstituteRowSpec | zino-core/src/database/schema.rs:479-495 | keys are unchanged, unlisted columns are untouched, a listed column gets the substituted value however often it is listed |
| SchemaRelated.SubstituteRowIdempotent | zino-core/src/database/schema.rs:478-496 | substituting a second time changes nothing |
| SchemaRelated.SubstituteEntries | zino-core/src/database/schema.rs:486-492 | every array entry is substituted, the length is kept |
| SchemaRelated.SubstituteColumns | zino-core/src/database/schema.rs:479-495 | the column loop over one row computes exactly the row substitution |
| SchemaRelated.AssociationCount | zino-core/src/database/schema.rs:497 | the count as u64, or a decode error when it does not fit |
| SchemaRelated.FindRelated | zino-core/src/database/schema.rs:441-498 | PoolClosed (nothing changed) without a reader; the query is extended before the fetch; a fetch error leaves the rows untouched; otherwise every row is substituted in place and the number of associations is returned |
| SchemaRelated.FindRelatedOne | zino-core/src/database/schema.rs:502-555 | the same for one map, returning Ok(()) |
| ModelValidation.ReadIdAndName | zino-model/src/dataset.rs:61-76 | the id changes exactly when "id" parses as a UUID, the name exactly when "name" parses as a string |
| ModelValidation.ReadFailures | zino-model/src/dataset.rs:61-76 | an "id" failure exactly when "id" fails to parse (with its message), a "name" failure exactly when the resulting name is empty ("must be nonempty"), no other keys, at most two failures |
| ModelValidation.Validation.constructor | zino-model/src/dataset.rs:62 | a new validation holds no failures |
| ModelValidation.Validation.RecordFail | zino-model/src/dataset.rs:66 | appends one failure |
| DatasetModel.Dataset.constructor | zino-model/src/dataset.rs:6-47 | `Default::default()`: nil UUIDs, empty strings, lists and maps, zero version and edition, no task; each of the four timestamps is the clock reading taken for it |
| DatasetModel.Dataset.ReadMap | zino-model/src/dataset.rs:61-76 | only `id` and `name` change, to the values ReadIdAndName gives, and the new validation holds its failures |
| DatasetModel.DatasetPlainIndexes | zino-model/src/dataset.rs:14-44 | hash on namespace and status, gin on tags, btree on created_at and updated_at, in that order |
| DatasetModel.DatasetTextIndexes | zino-model/src/dataset.rs:12-21 | name and description share one english expression, and its GIN statement is planned twice |
| RecordModel.Record.constructor | zino-model/src/record.rs:6-33 | `Default::default()`: nil UUID, empty strings and maps; `recorded_at` is the clock reading taken for it |
| RecordModel.Record.ReadMap | zino-model/src/record.rs:44-59 | only `id` and `name` change, to the values ReadIdAndName gives, and the new validation holds its failures |
| RecordModel.RecordPlainIndexes | zino-model/src/record.rs:14-27 | hash on namespace and status, btree on recorded_at, in that order |
| RecordModel.RecordTextIndexes | zino-model/src/record.rs:12-21 | name and description share one english expression, and its GIN statement is planned twice |

## Left out

- Execution of SQL: every statement is an input-to-result function in `Schema.Env`. The database's semantics, result streaming and the `rows_affected` values are not modelled.
- `find`, `find_as`, `find_one`, `find_one_as`, `count_as`, `query_as`, `query_one_as` and `try_get_model`: they fetch and then decode with serde_json or Avro, which are foreign libraries.
- `execute`, `query` and `query_one`: they only pass their template through `format::format_query`. That module is not part of this model.
- `format_fields`, `format_filters`, `format_sort`, `format_pagination`, `format_updates`, `append_filters`, `column_type`, `format_value` and `encode_value` are uninterpreted. Their modules (query.rs, mutation.rs, postgres.rs) are not part of this model, so quoting and escaping are not modelled.
- `parse_array`, `parse_uuid` and `parse_string` are uninterpreted, and the `Validation` type's own file is not part of this model. A validation's failures are modelled as an ordered list of (key, message) pairs.
- SchemaDml.Count: returns the fetched row itself; the `DecodeRow` step for a caller-chosen type is not modelled.
- SchemaRelated.FindRelated: the stream's per-row decode errors (`try_get_unchecked`, `Map::decode_row`) are folded into the fetch error. An error part-way through the stream is the same as an error for the whole fetch. Either way the rows are untouched, as in the source.
- SchemaRelated.FindRelatedOne: folds the same per-row errors of its fetch loop into the fetch error, just as FindRelated does; the map is then untouched.
- `get_reader`/`get_writer` are generated by the derive macro, which is not part of this model. They are modelled as the registry lookup under the reader/writer name, the same as `init_reader`/`init_writer`.
- The `#[schema]` column declarations keep the attribute strings as written; the derive macro's expansion of defaults such as `now` or `Dataset::model_namespace` is not modelled. The column type names are the Rust field types.
- `model_name`, which only returns the type name.
- Async behaviour, the `LazyLock` statics, the pool's own runtime (acquire, timeouts, lifecycle) and `PgConnectOptions`' environment-variable defaults.
- `State::decrypt_password`, UUID v4 and `DateTime::now()` in `Model::new`: the first is an uninterpreted function of the config; `new` is nondeterministic and not modelled.
- DatasetModel.Dataset.constructor: `DateTime::default()` is the current time. The four timestamp fields are unconstrained readings of the clock, passed in as parameters; nothing relates one reading to another, and the clock itself is not modelled.
- RecordModel.Record.constructor: `recorded_at` defaults to the current time. That reading is a parameter, and the clock is not modelled.
- JSON numbers are modelled as unbounded integers; floating point is not modelled.
- The indentation and line breaks inside multi-line SQL templates are normalised to single spaces.

## Findings

| source | as written | input that shows it | evidently intended | confidence | as-written member | corrected member |
|---|---|---|---|---|---|---|
| zino-core/src/database/schema.rs:207-215 | `insert_many` pushes every column name once per model into the one column list of the statement | two models of a schema with columns `a, b` give `INSERT INTO t (a,b,a,b) VALUES ((…),(…));`, which names each column twice and lists four columns for tuples of two | the column list is built once, and each tuple supplies one value per listed column | not executed | SchemaDml.InsertManyRepeatsColumns | SchemaDml.InsertManyEntriesOnce |
| zino-core/src/database/schema.rs:216-221 | each tuple is already wrapped as `(…)`, and the `insert` template wraps the joined tuples again in `VALUES (…)` | one model with columns `a, b` gives `INSERT INTO t (a,b) VALUES ((x,y));`: one row-valued expression for two target columns | `VALUES (x,y),(…)`: the tuples joined by commas with no outer parentheses, so one model gives exactly `insert`'s statement | not executed | SchemaDml.InsertManyNestsTuples | SchemaDml.InsertManyOfOne |
