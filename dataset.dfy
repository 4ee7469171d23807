/** The `Dataset` model: its fields, its `#[schema]` column declarations and
    its `read_map` validator. */
module DatasetModel {
  import opened Wrappers
  import opened Model
  import opened Pools
  import opened ModelValidation
  import Schema
  import SchemaDdl

  class Dataset {
    // basic fields
    var id: Uuid
    var name: string
    var namespace: string
    var visibility: string
    var status: string
    var description: string
    // info fields
    var projectId: Uuid
    var taskId: Option<Uuid>
    var validFrom: DateTime
    var expiresAt: DateTime
    var tags: seq<Uuid>
    // extensions
    var content: Row
    var metrics: Row
    var extras: Row
    // revisions
    var managerId: Uuid
    var maintainerId: Uuid
    var createdAt: DateTime
    var updatedAt: DateTime
    var version: u64
    var edition: u32

    /** `Default::default()`: nil UUIDs, empty strings, lists and maps, zero
        counters and no task. `DateTime::default()` is the current time, read
        once per timestamp field; those readings are the parameters, in field
        order. */
    constructor(validFromNow: DateTime, expiresAtNow: DateTime, createdAtNow: DateTime, updatedAtNow: DateTime)
      ensures id == 0 && name == "" && namespace == "" && visibility == "" && status == "" && description == ""
      ensures projectId == 0 && taskId == None && tags == []
      ensures validFrom == validFromNow && expiresAt == expiresAtNow
      ensures content == map[] && metrics == map[] && extras == map[]
      ensures managerId == 0 && maintainerId == 0 && version == 0 && edition == 0
      ensures createdAt == createdAtNow && updatedAt == updatedAtNow
    {
      id, name, namespace, visibility, status, description := 0, "", "", "", "", "";
      projectId, taskId, validFrom, expiresAt, tags := 0, None, validFromNow, expiresAtNow, [];
      content, metrics, extras := map[], map[], map[];
      managerId, maintainerId, createdAt, updatedAt, version, edition := 0, 0, createdAtNow, updatedAtNow, 0, 0;
    }

    /** `read_map`: only `id` and `name` change, as `ReadIdAndName` says. */
    method ReadMap(data: Row, parsers: Parsers) returns (validation: Validation)
      modifies this`id, this`name
      ensures fresh(validation)
      ensures var o := ReadIdAndName(old(id), old(name), data, parsers);
              id == o.id && name == o.name && validation.failures == o.failures
    {
      validation := new Validation();
      var parsed := parsers.parseUuid(Get(data, "id"));
      if parsed.Some? {
        match parsed.value
        case Ok(u) => id := u;
        case Err(e) => validation.RecordFail("id", e);
      }
      var parsedName := parsers.parseString(Get(data, "name"));
      if parsedName.Some? {
        name := parsedName.value;
      }
      if name == "" {
        validation.RecordFail("name", NameEmptyMessage);
      }
    }
  }

  /** The `#[schema]` declarations, in field order, grouped as the struct
      groups its fields. */
  const DatasetBasicColumns: seq<Column> := [
    Column("id", "Uuid", None, false, None),
    Column("name", "String", None, true, Some("text")),
    Column("namespace", "String", Some("Dataset::model_namespace"), false, Some("hash")),
    Column("visibility", "String", Some("internal"), false, None),
    Column("status", "String", Some("active"), false, Some("hash")),
    Column("description", "String", None, false, Some("text"))
  ]

  const DatasetInfoColumns: seq<Column> := [
    Column("project_id", "Uuid", None, false, None),
    Column("task_id", "Option<Uuid>", None, false, None),
    Column("valid_from", "DateTime", Some("now"), false, None),
    Column("expires_at", "DateTime", Some("now"), false, None),
    Column("tags", "Vec<Uuid>", None, false, Some("gin"))
  ]

  const DatasetExtensionColumns: seq<Column> := [
    Column("content", "Map", None, false, None),
    Column("metrics", "Map", None, false, None),
    Column("extras", "Map", None, false, None)
  ]

  const DatasetRevisionColumns: seq<Column> := [
    Column("manager_id", "Uuid", None, false, None),
    Column("maintainer_id", "Uuid", None, false, None),
    Column("created_at", "DateTime", Some("now"), false, Some("btree")),
    Column("updated_at", "DateTime", Some("now"), false, Some("btree")),
    Column("version", "u64", None, false, None),
    Column("edition", "u32", None, false, None)
  ]

  const DatasetColumns: seq<Column> := DatasetBasicColumns + DatasetInfoColumns + DatasetExtensionColumns + DatasetRevisionColumns

  lemma DatasetBasicPlan()
    ensures SchemaDdl.PlainIndexes(DatasetBasicColumns) == [("namespace", "hash"), ("status", "hash")]
    ensures SchemaDdl.TextSearchColumns(DatasetBasicColumns) ==
            [("english", SchemaDdl.Coalesce("name")), ("english", SchemaDdl.Coalesce("description"))]
    ensures SchemaDdl.TextSearchLanguages(DatasetBasicColumns) == ["english", "english"]
  {
    var cols := DatasetBasicColumns;
    SchemaDdl.TextIndexKind();
    var head, tail := cols[..3], cols[3..];
    assert head + tail == cols;
    SchemaDdl.PlanStep(head, 0); SchemaDdl.PlanStep(head, 1); SchemaDdl.PlanStep(head, 2);
    assert head[..3] == head;
    SchemaDdl.PlanStep(tail, 0); SchemaDdl.PlanStep(tail, 1); SchemaDdl.PlanStep(tail, 2);
    assert tail[..3] == tail;
    SchemaDdl.PlainIndexesAppend(head, tail);
    SchemaDdl.TextPlanAppend(head, tail);
  }

  lemma DatasetInfoPlan()
    ensures SchemaDdl.PlainIndexes(DatasetInfoColumns) == [("tags", "gin")]
    ensures SchemaDdl.TextSearchColumns(DatasetInfoColumns) == [] && SchemaDdl.TextSearchLanguages(DatasetInfoColumns) == []
  {
    var cols := DatasetInfoColumns;
    SchemaDdl.TextIndexKind();
    SchemaDdl.UnindexedPlan(cols[..4]);
    SchemaDdl.PlanStep(cols, 4);
    assert cols[..5] == cols;
  }

  lemma DatasetRevisionPlan()
    ensures SchemaDdl.PlainIndexes(DatasetRevisionColumns) == [("created_at", "btree"), ("updated_at", "btree")]
    ensures SchemaDdl.TextSearchColumns(DatasetRevisionColumns) == [] && SchemaDdl.TextSearchLanguages(DatasetRevisionColumns) == []
  {
    var cols := DatasetRevisionColumns;
    SchemaDdl.TextIndexKind();
    SchemaDdl.UnindexedPlan(cols[..2]);
    SchemaDdl.PlanStep(cols, 2); SchemaDdl.PlanStep(cols, 3);
    SchemaDdl.UnindexedPlan(cols[4..]);
    SchemaDdl.PlainIndexesAppend(cols[..4], cols[4..]);
    SchemaDdl.TextPlanAppend(cols[..4], cols[4..]);
    assert cols[..4] + cols[4..] == cols;
  }

  /** Index planning for `Dataset`: hash indexes on namespace and status, gin
      on tags and btree on the two timestamps, in declaration order. */
  lemma DatasetPlainIndexes()
    ensures SchemaDdl.PlainIndexes(DatasetColumns) ==
            [("namespace", "hash"), ("status", "hash"), ("tags", "gin"), ("created_at", "btree"), ("updated_at", "btree")]
  {
    DatasetBasicPlan();
    DatasetInfoPlan();
    SchemaDdl.UnindexedPlan(DatasetExtensionColumns);
    DatasetRevisionPlan();
    SchemaDdl.PlanOfGroups(DatasetBasicColumns, DatasetInfoColumns, DatasetExtensionColumns, DatasetRevisionColumns);
  }

  /** Name and description form one english text-search expression, whose
      statement is planned once per text column, so twice. */
  lemma DatasetTextIndexes()
    ensures SchemaDdl.TextSearchLanguages(DatasetColumns) == ["english", "english"]
    ensures SchemaDdl.TextSearchExpression(SchemaDdl.TextSearchColumns(DatasetColumns), "english") ==
            SchemaDdl.Coalesce("name") + " || ' ' || " + SchemaDdl.Coalesce("description")
  {
    DatasetBasicPlan();
    DatasetInfoPlan();
    SchemaDdl.UnindexedPlan(DatasetExtensionColumns);
    DatasetRevisionPlan();
    SchemaDdl.PlanOfGroups(DatasetBasicColumns, DatasetInfoColumns, DatasetExtensionColumns, DatasetRevisionColumns);
    SchemaDdl.EnglishNameAndDescription(SchemaDdl.TextSearchColumns(DatasetColumns));
  }
}
