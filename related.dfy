/** `find_related` and `find_related_one`: collect the foreign keys stored in
    some columns, fetch the referenced models in one merged select on the
    primary key, and substitute each resolvable key by the fetched model. */
module SchemaRelated {
  import opened Wrappers
  import opened Model
  import opened Pools
  import opened Schema

  // ------------------------------------------------------------ foreign keys

  /** The keys `parse_array` finds in one column of one row. */
  function KeysAt(row: Row, col: string, parseArray: Option<Value> -> Option<seq<string>>): seq<string>
  {
    match parseArray(Get(row, col))
    case Some(keys) => keys
    case None => []
  }

  /** The keys of one row, column after column. */
  function RowKeys(row: Row, cols: seq<string>, parseArray: Option<Value> -> Option<seq<string>>): seq<string>
  {
    if |cols| == 0 then []
    else RowKeys(row, cols[..|cols| - 1], parseArray) + KeysAt(row, cols[|cols| - 1], parseArray)
  }

  /** The keys of all rows, row after row. */
  function ForeignKeys(data: seq<Row>, cols: seq<string>, parseArray: Option<Value> -> Option<seq<string>>): seq<string>
  {
    if |data| == 0 then []
    else ForeignKeys(data[..|data| - 1], cols, parseArray) + RowKeys(data[|data| - 1], cols, parseArray)
  }

  /** A key is collected from a row exactly when some listed column of it yields it. */
  lemma {:induction false} RowKeysMembers(row: Row, cols: seq<string>, parseArray: Option<Value> -> Option<seq<string>>, key: string)
    ensures key in RowKeys(row, cols, parseArray) <==>
            exists j :: 0 <= j < |cols| && key in KeysAt(row, cols[j], parseArray)
    decreases |cols|
  {
    if |cols| > 0 {
      var init := cols[..|cols| - 1];
      RowKeysMembers(row, init, parseArray, key);
      if key in RowKeys(row, cols, parseArray) {
        if key !in RowKeys(row, init, parseArray) {
          assert key in KeysAt(row, cols[|cols| - 1], parseArray);
        } else {
          var j :| 0 <= j < |init| && key in KeysAt(row, init[j], parseArray);
          assert cols[j] == init[j];
        }
      } else {
        forall j | 0 <= j < |cols|
          ensures key !in KeysAt(row, cols[j], parseArray)
        {
          if j < |init| {
            assert cols[j] == init[j];
          }
        }
      }
    }
  }

  /** A key is collected exactly when some listed column of some row yields it. */
  lemma {:induction false} ForeignKeysMembers(data: seq<Row>, cols: seq<string>, parseArray: Option<Value> -> Option<seq<string>>, key: string)
    ensures key in ForeignKeys(data, cols, parseArray) <==>
            exists i :: 0 <= i < |data| && key in RowKeys(data[i], cols, parseArray)
    decreases |data|
  {
    if |data| > 0 {
      var init := data[..|data| - 1];
      ForeignKeysMembers(init, cols, parseArray, key);
      if key in ForeignKeys(data, cols, parseArray) {
        if key !in ForeignKeys(init, cols, parseArray) {
          assert key in RowKeys(data[|data| - 1], cols, parseArray);
        } else {
          var i :| 0 <= i < |init| && key in RowKeys(init[i], cols, parseArray);
          assert data[i] == init[i];
        }
      } else {
        forall i | 0 <= i < |data|
          ensures key !in RowKeys(data[i], cols, parseArray)
        {
          if i < |init| {
            assert data[i] == init[i];
          }
        }
      }
    }
  }

  lemma RowKeysStep(row: Row, cols: seq<string>, j: nat, parseArray: Option<Value> -> Option<seq<string>>)
    requires j < |cols|
    ensures RowKeys(row, cols[..j + 1], parseArray) == RowKeys(row, cols[..j], parseArray) + KeysAt(row, cols[j], parseArray)
  {
    assert cols[..j + 1][..j] == cols[..j];
  }

  lemma ForeignKeysStep(data: seq<Row>, i: nat, cols: seq<string>, parseArray: Option<Value> -> Option<seq<string>>)
    requires i < |data|
    ensures ForeignKeys(data[..i + 1], cols, parseArray) == ForeignKeys(data[..i], cols, parseArray) + RowKeys(data[i], cols, parseArray)
  {
    assert data[..i + 1][..i] == data[..i];
  }

  /** The inner loop of `find_related`'s key collection: the keys of one row,
      column after column. */
  method CollectRowKeys(row: Row, cols: seq<string>, parseArray: Option<Value> -> Option<seq<string>>)
    returns (keys: seq<string>)
    ensures keys == RowKeys(row, cols, parseArray)
  {
    keys := [];
    for j := 0 to |cols|
      invariant keys == RowKeys(row, cols[..j], parseArray)
    {
      RowKeysStep(row, cols, j, parseArray);
      var found := parseArray(Get(row, cols[j]));
      if found.Some? {
        keys := keys + found.value;
      }
    }
    assert cols[..|cols|] == cols;
  }

  /** The first loop of `find_related`: the keys of every row, in order. */
  method CollectForeignKeys(data: array<Row>, cols: seq<string>, parseArray: Option<Value> -> Option<seq<string>>)
    returns (values: seq<string>)
    ensures values == ForeignKeys(data[..], cols, parseArray)
  {
    values := [];
    for i := 0 to data.Length
      invariant values == ForeignKeys(data[..i], cols, parseArray)
    {
      ForeignKeysStep(data[..], i, cols, parseArray);
      assert data[..][..i] == data[..i] && data[..][..i + 1] == data[..i + 1];
      var keys := CollectRowKeys(data[i], cols, parseArray);
      values := values + keys;
    }
    assert data[..data.Length] == data[..];
  }

  // ------------------------------------------------------------------- query

  /** The filter `{ pk: { "$in": values } }`. */
  function PrimaryKeyFilter(primaryKeyName: string, values: seq<string>): Row
  {
    map[primaryKeyName := Object(map["$in" := Array(seq(|values|, i requires 0 <= i < |values| => Str(values[i])))])]
  }

  /** The query after the primary-key filter is (or is not) appended. */
  function RelatedQuery(format: Formatter, query: Query, primaryKeyName: string, values: seq<string>): (q: Query)
    ensures values == [] ==> q == query
    ensures values != [] ==> q == format.appendFilters(query, PrimaryKeyFilter(primaryKeyName, values))
  {
    if values == [] then query else format.appendFilters(query, PrimaryKeyFilter(primaryKeyName, values))
  }

  function RelatedSql(format: Formatter, table: string, schema: Schema, query: Query): string
  {
    "SELECT " + format.formatFields(query) + " FROM " + table + " " + format.formatFilters(schema.columns, query) + ";"
  }

  // ------------------------------------------------------------ associations

  /** The associations map: each fetched model under its primary key, a later
      row with the same key replacing an earlier one. */
  function Associations(fetched: seq<(string, Row)>): map<string, Row>
  {
    if |fetched| == 0 then map[]
    else
      var last := fetched[|fetched| - 1];
      Associations(fetched[..|fetched| - 1])[last.0 := last.1]
  }

  /** The keys of the associations are exactly the fetched primary keys, and
      each maps to the last row fetched under it. */
  lemma {:induction false} AssociationsSpec(fetched: seq<(string, Row)>)
    ensures Associations(fetched).Keys == set i | 0 <= i < |fetched| :: fetched[i].0
    ensures forall i :: 0 <= i < |fetched| && (forall j :: i < j < |fetched| ==> fetched[j].0 != fetched[i].0) ==>
              Associations(fetched)[fetched[i].0] == fetched[i].1
    decreases |fetched|
  {
    if |fetched| > 0 {
      var init := fetched[..|fetched| - 1];
      AssociationsSpec(init);
      var n := |fetched| - 1;
      assert forall i :: 0 <= i < n ==> fetched[i] == init[i];
      var keys := set i | 0 <= i < |fetched| :: fetched[i].0;
      var initKeys := set i | 0 <= i < |init| :: init[i].0;
      assert keys == initKeys + {fetched[n].0} by {
        forall k | k in keys ensures k in initKeys + {fetched[n].0} {
          var i :| 0 <= i < |fetched| && fetched[i].0 == k;
          if i < n { assert init[i].0 == k; }
        }
      }
    }
  }

  lemma AssociationsStep(fetched: seq<(string, Row)>, i: nat)
    requires i < |fetched|
    ensures Associations(fetched[..i + 1]) == Associations(fetched[..i])[fetched[i].0 := fetched[i].1]
  {
    assert fetched[..i + 1][..i] == fetched[..i];
  }

  /** The `while let` loop over the fetched rows. */
  method BuildAssociations(fetched: seq<(string, Row)>) returns (associations: map<string, Row>)
    ensures associations == Associations(fetched)
  {
    associations := map[];
    for i := 0 to |fetched|
      invariant associations == Associations(fetched[..i])
    {
      AssociationsStep(fetched, i);
      var (primaryKey, row) := fetched[i];
      associations := associations[primaryKey := row];
    }
    assert fetched[..|fetched|] == fetched;
  }

  // ------------------------------------------------------------ substitution

  /** One array entry: a string naming a fetched key becomes that model. */
  function SubstituteEntry(entry: Value, associations: map<string, Row>): Value
  {
    if entry.Str? && entry.s in associations then Object(associations[entry.s]) else entry
  }

  /** One column value: a string is replaced as a whole, an array entry by
      entry, anything else is left alone. */
  function SubstituteValue(value: Value, associations: map<string, Row>): Value
  {
    match value
    case Str(s) => if s in associations then Object(associations[s]) else value
    case Array(items) => Array(seq(|items|, i requires 0 <= i < |items| => SubstituteEntry(items[i], associations)))
    case _ => value
  }

  /** One row: each listed column present in it, in order. */
  function SubstituteRow(row: Row, cols: seq<string>, associations: map<string, Row>): Row
  {
    if |cols| == 0 then row
    else
      var r := SubstituteRow(row, cols[..|cols| - 1], associations);
      var col := cols[|cols| - 1];
      if col in r then r[col := SubstituteValue(r[col], associations)] else r
  }

  /** A value no longer names a fetched key: every resolvable reference was
      resolved. */
  predicate Resolved(value: Value, associations: map<string, Row>)
  {
    (value.Str? ==> value.s !in associations) &&
    (value.Array? ==> forall i :: 0 <= i < |value.items| ==>
                        !(value.items[i].Str? && value.items[i].s in associations))
  }

  /** Substitution replaces a string with an association by the associated
      model, replaces array entries element-wise keeping the length, leaves
      every other value and entry alone, resolves every reference it can, and
      substituting twice is substituting once. */
  lemma SubstituteValueSpec(value: Value, associations: map<string, Row>)
    ensures Resolved(SubstituteValue(value, associations), associations)
    ensures value.Str? && value.s !in associations ==> SubstituteValue(value, associations) == value
    ensures value.Str? && value.s in associations ==> SubstituteValue(value, associations) == Object(associations[value.s])
    ensures value.Array? ==> SubstituteValue(value, associations).Array? &&
                             |SubstituteValue(value, associations).items| == |value.items|
    ensures value.Array? ==> forall i :: 0 <= i < |value.items| && !(value.items[i].Str? && value.items[i].s in associations) ==>
                               SubstituteValue(value, associations).items[i] == value.items[i]
    ensures !value.Str? && !value.Array? ==> SubstituteValue(value, associations) == value
    ensures SubstituteValue(SubstituteValue(value, associations), associations) == SubstituteValue(value, associations)
  {
    if value.Array? {
      var once := SubstituteValue(value, associations);
      var twice := SubstituteValue(once, associations);
      assert |twice.items| == |once.items|;
      forall i | 0 <= i < |once.items|
        ensures twice.items[i] == once.items[i]
      {
        assert once.items[i] == SubstituteEntry(value.items[i], associations);
      }
    }
  }

  /** Substitution in a row keeps its keys, leaves unlisted columns alone, and
      gives each listed column the substituted value once, however often it
      is listed. */
  lemma {:induction false} SubstituteRowSpec(row: Row, cols: seq<string>, associations: map<string, Row>)
    ensures SubstituteRow(row, cols, associations).Keys == row.Keys
    ensures forall k :: k in row && k !in cols ==> SubstituteRow(row, cols, associations)[k] == row[k]
    ensures forall k :: k in row && k in cols ==>
              SubstituteRow(row, cols, associations)[k] == SubstituteValue(row[k], associations)
    decreases |cols|
  {
    if |cols| > 0 {
      var init := cols[..|cols| - 1];
      var col := cols[|cols| - 1];
      SubstituteRowSpec(row, init, associations);
      assert cols == init + [col];
      if col in row {
        SubstituteValueSpec(row[col], associations);
      }
    }
  }

  /** Running the substitution again changes nothing. */
  lemma SubstituteRowIdempotent(row: Row, cols: seq<string>, associations: map<string, Row>)
    ensures SubstituteRow(SubstituteRow(row, cols, associations), cols, associations) == SubstituteRow(row, cols, associations)
  {
    var once := SubstituteRow(row, cols, associations);
    var twice := SubstituteRow(once, cols, associations);
    SubstituteRowSpec(row, cols, associations);
    SubstituteRowSpec(once, cols, associations);
    forall k | k in once && k in cols
      ensures twice[k] == once[k]
    {
      SubstituteValueSpec(row[k], associations);
    }
  }

  /** The innermost loop: every entry of one array. */
  method SubstituteEntries(items: seq<Value>, associations: map<string, Row>) returns (result: seq<Value>)
    ensures |result| == |items|
    ensures forall i :: 0 <= i < |items| ==> result[i] == SubstituteEntry(items[i], associations)
  {
    result := items;
    for j := 0 to |items|
      invariant |result| == |items|
      invariant forall k :: 0 <= k < j ==> result[k] == SubstituteEntry(items[k], associations)
      invariant forall k :: j <= k < |items| ==> result[k] == items[k]
    {
      var entry := result[j];
      if entry.Str? && entry.s in associations {
        result := result[j := Object(associations[entry.s])];
      }
    }
  }

  lemma SubstituteRowStep(row: Row, cols: seq<string>, j: nat, associations: map<string, Row>)
    requires j < |cols|
    ensures var r := SubstituteRow(row, cols[..j], associations);
            SubstituteRow(row, cols[..j + 1], associations) ==
              if cols[j] in r then r[cols[j] := SubstituteValue(r[cols[j]], associations)] else r
  {
    assert cols[..j + 1][..j] == cols[..j];
  }

  /** The column loop over one row. */
  method SubstituteColumns(row: Row, cols: seq<string>, associations: map<string, Row>) returns (result: Row)
    ensures result == SubstituteRow(row, cols, associations)
  {
    result := row;
    for j := 0 to |cols|
      invariant result == SubstituteRow(row, cols[..j], associations)
    {
      SubstituteRowStep(row, cols, j, associations);
      var col := cols[j];
      if col in result {
        var value := result[col];
        if value.Str? {
          if value.s in associations {
            result := result[col := Object(associations[value.s])];
          } else {
            assert result[col := value] == result;
          }
        } else if value.Array? {
          var entries := SubstituteEntries(value.items, associations);
          assert entries == SubstituteValue(value, associations).items;
          result := result[col := Array(entries)];
        } else {
          assert result[col := value] == result;
        }
      }
    }
    assert cols[..|cols|] == cols;
  }

  // ------------------------------------------------------------------ result

  const TryFromIntMessage := "out of range integral type conversion attempted"

  /** `u64::try_from(associations.len())`. */
  function AssociationCount(n: nat): (r: Result<u64, Error>)
    ensures r.Ok? <==> n < 0x1_0000_0000_0000_0000
    ensures r.Ok? ==> r.value == n
    ensures r.Err? ==> r.error == Decode(TryFromIntMessage)
  {
    if n < 0x1_0000_0000_0000_0000 then Ok(n) else Err(Decode(TryFromIntMessage))
  }

  function SubstitutedData(data: seq<Row>, cols: seq<string>, associations: map<string, Row>): seq<Row>
  {
    seq(|data|, i requires 0 <= i < |data| => SubstituteRow(data[i], cols, associations))
  }

  /** `find_related`: the query is extended in place (before the fetch, so
      also when the fetch fails); on success every row is substituted in
      place and the number of distinct fetched keys is returned. */
  method FindRelated(env: Env, schema: Schema, query: Query, data: array<Row>, cols: seq<string>)
    returns (r: Result<u64, Error>, query': Query)
    modifies data
    ensures InitReader(env.registry, schema).Err? ==>
              r == Err(PoolClosed) && query' == query && data[..] == old(data[..])
    ensures InitReader(env.registry, schema).Ok? ==>
              var values := ForeignKeys(old(data[..]), cols, env.format.parseArray);
              query' == RelatedQuery(env.format, query, schema.primaryKeyName, values) &&
              var result := env.fetch(RelatedSql(env.format, TableName(env.namespacePrefix, schema.typeName), schema, query'));
              (result.Err? ==> r == Err(Database(result.error)) && data[..] == old(data[..])) &&
              (result.Ok? ==> r == AssociationCount(|Associations(result.value)|) &&
                              data[..] == SubstitutedData(old(data[..]), cols, Associations(result.value)))
  {
    query' := query;
    var reader := InitReader(env.registry, schema);
    if reader.Err? {
      return Err(PoolClosed), query';
    }
    var table := TableName(env.namespacePrefix, schema.typeName);
    var values := CollectForeignKeys(data, cols, env.format.parseArray);
    if values != [] {
      var filter := PrimaryKeyFilter(schema.primaryKeyName, values);
      query' := env.format.appendFilters(query', filter);
    }
    var sql := RelatedSql(env.format, table, schema, query');
    var fetched := env.fetch(sql);
    if fetched.Err? {
      return Err(Database(fetched.error)), query';
    }
    var associations := BuildAssociations(fetched.value);
    ghost var before := data[..];
    for i := 0 to data.Length
      invariant forall k :: 0 <= k < i ==> data[k] == SubstituteRow(before[k], cols, associations)
      invariant forall k :: i <= k < data.Length ==> data[k] == before[k]
    {
      var row := SubstituteColumns(data[i], cols, associations);
      data[i] := row;
    }
    assert data[..] == SubstitutedData(before, cols, associations);
    r := AssociationCount(|associations|);
  }

  /** `find_related_one`: the same for a single map, which is returned with
      the (possibly extended) query. */
  method FindRelatedOne(env: Env, schema: Schema, query: Query, data: Row, cols: seq<string>)
    returns (r: Result<(), Error>, query': Query, data': Row)
    ensures InitReader(env.registry, schema).Err? ==> r == Err(PoolClosed) && query' == query && data' == data
    ensures InitReader(env.registry, schema).Ok? ==>
              var values := RowKeys(data, cols, env.format.parseArray);
              query' == RelatedQuery(env.format, query, schema.primaryKeyName, values) &&
              var result := env.fetch(RelatedSql(env.format, TableName(env.namespacePrefix, schema.typeName), schema, query'));
              (result.Err? ==> r == Err(Database(result.error)) && data' == data) &&
              (result.Ok? ==> r == Ok(()) && data' == SubstituteRow(data, cols, Associations(result.value)))
  {
    query', data' := query, data;
    var reader := InitReader(env.registry, schema);
    if reader.Err? {
      return Err(PoolClosed), query', data';
    }
    var table := TableName(env.namespacePrefix, schema.typeName);
    var values := CollectRowKeys(data, cols, env.format.parseArray);
    if values != [] {
      var filter := PrimaryKeyFilter(schema.primaryKeyName, values);
      query' := env.format.appendFilters(query', filter);
    }
    var sql := RelatedSql(env.format, table, schema, query');
    var fetched := env.fetch(sql);
    if fetched.Err? {
      return Err(Database(fetched.error)), query', data';
    }
    var associations := BuildAssociations(fetched.value);
    data' := SubstituteColumns(data, cols, associations);
    r := Ok(());
  }
}
