/** The `Record` model: its fields, its `#[schema]` column declarations and
    its `read_map` validator. */
module RecordModel {
  import opened Wrappers
  import opened Model
  import opened ModelValidation
  import SchemaDdl

  class Record {
    // basic fields
    var id: Uuid
    var name: string
    var namespace: string
    var visibility: string
    var status: string
    var description: string
    // info fields
    var integrity: string
    var signature: string
    var recordedAt: DateTime
    // extensions
    var content: Row
    var metrics: Row
    var extras: Row

    /** `Default::default()`: a nil UUID, empty strings and maps.
        `DateTime::default()` is the current time; that reading is the
        parameter. */
    constructor(recordedAtNow: DateTime)
      ensures id == 0 && name == "" && namespace == "" && visibility == "" && status == "" && description == ""
      ensures integrity == "" && signature == "" && recordedAt == recordedAtNow
      ensures content == map[] && metrics == map[] && extras == map[]
    {
      id, name, namespace, visibility, status, description := 0, "", "", "", "", "";
      integrity, signature, recordedAt := "", "", recordedAtNow;
      content, metrics, extras := map[], map[], map[];
    }

    /** `read_map`: only `id` and `name` change, as `ReadIdAndName` says. */
    method ReadMap(data: Row, parsers: Parsers) returns (validation: Validation)
      modifies this`id, this`name
      ensures fresh(validation)
      ensures var o := ReadIdAndName(old(id), old(name), data, parsers);
              id == o.id && name == o.name && validation.failures == o.failures
    {
      validation := new Validation();
      var parsed := parsers.parseUuid(Get(data, "id"));
      if parsed.Some? {
        match parsed.value
        case Ok(u) => id := u;
        case Err(e) => validation.RecordFail("id", e);
      }
      var parsedName := parsers.parseString(Get(data, "name"));
      if parsedName.Some? {
        name := parsedName.value;
      }
      if name == "" {
        validation.RecordFail("name", NameEmptyMessage);
      }
    }
  }

  /** The `#[schema]` declarations, in field order, grouped as the struct
      groups its fields. */
  const RecordBasicColumns: seq<Column> := [
    Column("id", "Uuid", None, false, None),
    Column("name", "String", None, true, Some("text")),
    Column("namespace", "String", Some("Record::model_namespace"), false, Some("hash")),
    Column("visibility", "String", Some("internal"), false, None),
    Column("status", "String", Some("active"), false, Some("hash")),
    Column("description", "String", None, false, Some("text"))
  ]

  const RecordInfoColumns: seq<Column> := [
    Column("integrity", "String", None, false, None),
    Column("signature", "String", None, false, None),
    Column("recorded_at", "DateTime", Some("now"), false, Some("btree"))
  ]

  const RecordExtensionColumns: seq<Column> := [
    Column("content", "Map", None, false, None),
    Column("metrics", "Map", None, false, None),
    Column("extras", "Map", None, false, None)
  ]

  const RecordColumns: seq<Column> := RecordBasicColumns + RecordInfoColumns + RecordExtensionColumns

  lemma RecordBasicPlan()
    ensures SchemaDdl.PlainIndexes(RecordBasicColumns) == [("namespace", "hash"), ("status", "hash")]
    ensures SchemaDdl.TextSearchColumns(RecordBasicColumns) ==
            [("english", SchemaDdl.Coalesce("name")), ("english", SchemaDdl.Coalesce("description"))]
    ensures SchemaDdl.TextSearchLanguages(RecordBasicColumns) == ["english", "english"]
  {
    var cols := RecordBasicColumns;
    SchemaDdl.TextIndexKind();
    var head, tail := cols[..3], cols[3..];
    assert head + tail == cols;
    SchemaDdl.PlanStep(head, 0); SchemaDdl.PlanStep(head, 1); SchemaDdl.PlanStep(head, 2);
    assert head[..3] == head;
    SchemaDdl.PlanStep(tail, 0); SchemaDdl.PlanStep(tail, 1); SchemaDdl.PlanStep(tail, 2);
    assert tail[..3] == tail;
    SchemaDdl.PlainIndexesAppend(head, tail);
    SchemaDdl.TextPlanAppend(head, tail);
  }

  lemma RecordInfoPlan()
    ensures SchemaDdl.PlainIndexes(RecordInfoColumns) == [("recorded_at", "btree")]
    ensures SchemaDdl.TextSearchColumns(RecordInfoColumns) == [] && SchemaDdl.TextSearchLanguages(RecordInfoColumns) == []
  {
    var cols := RecordInfoColumns;
    SchemaDdl.TextIndexKind();
    SchemaDdl.UnindexedPlan(cols[..2]);
    SchemaDdl.PlanStep(cols, 2);
    assert cols[..3] == cols;
  }

  /** Index planning for `Record`: hash indexes on namespace and status and a
      btree index on recorded_at, in declaration order. */
  lemma RecordPlainIndexes()
    ensures SchemaDdl.PlainIndexes(RecordColumns) ==
            [("namespace", "hash"), ("status", "hash"), ("recorded_at", "btree")]
  {
    RecordBasicPlan();
    RecordInfoPlan();
    SchemaDdl.UnindexedPlan(RecordExtensionColumns);
    SchemaDdl.UnindexedPlan([]);
    SchemaDdl.PlanOfGroups(RecordBasicColumns, RecordInfoColumns, RecordExtensionColumns, []);
    assert RecordColumns + [] == RecordColumns;
  }

  /** Name and description form one english text-search expression, whose
      statement is planned once per text column, so twice. */
  lemma RecordTextIndexes()
    ensures SchemaDdl.TextSearchLanguages(RecordColumns) == ["english", "english"]
    ensures SchemaDdl.TextSearchExpression(SchemaDdl.TextSearchColumns(RecordColumns), "english") ==
            SchemaDdl.Coalesce("name") + " || ' ' || " + SchemaDdl.Coalesce("description")
  {
    RecordBasicPlan();
    RecordInfoPlan();
    SchemaDdl.UnindexedPlan(RecordExtensionColumns);
    SchemaDdl.UnindexedPlan([]);
    SchemaDdl.PlanOfGroups(RecordBasicColumns, RecordInfoColumns, RecordExtensionColumns, []);
    assert RecordColumns + [] == RecordColumns;
    SchemaDdl.EnglishNameAndDescription(SchemaDdl.TextSearchColumns(RecordColumns));
  }
}
