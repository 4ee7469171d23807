/** The shared `read_map` logic of the `Dataset` and `Record` models and the
    `Validation` it fills. */
module ModelValidation {
  import opened Wrappers
  import opened Model

  /** A UUID, as its 128-bit value. */
  type Uuid = x: int | 0 <= x < 0x1_0000_0000_0000_0000_0000_0000_0000_0000

  /** Microseconds since the Unix epoch. */
  type DateTime = int

  /** `Validation::parse_uuid` and `Validation::parse_string`, whose file is
      not part of this model: `None` when the entry is absent or of the wrong
      kind, otherwise the parse outcome. */
  datatype Parsers = Parsers(
    parseUuid: Option<Value> -> Option<Result<Uuid, string>>,
    parseString: Option<Value> -> Option<string>)

  const NameEmptyMessage := "must be nonempty"

  /** The failures a validation has recorded, in order. */
  class Validation {
    var failures: seq<(string, string)>

    constructor()
      ensures failures == []
    {
      failures := [];
    }

    method RecordFail(key: string, message: string)
      modifies this
      ensures failures == old(failures) + [(key, message)]
    {
      failures := failures + [(key, message)];
    }
  }

  /** What `read_map` leaves in `id`, `name` and the validation. */
  datatype ReadOutcome = ReadOutcome(id: Uuid, name: string, failures: seq<(string, string)>)

  predicate Failed(failures: seq<(string, string)>, key: string)
  {
    exists i :: 0 <= i < |failures| && failures[i].0 == key
  }

  /** `read_map` of a model whose current id and name are given. */
  function ReadIdAndName(id: Uuid, name: string, data: Row, parsers: Parsers): (o: ReadOutcome)
    // the id is overwritten exactly when "id" parses as a UUID
    ensures var parsed := parsers.parseUuid(Get(data, "id"));
            o.id == (if parsed.Some? && parsed.value.Ok? then parsed.value.value else id)
    // the name is overwritten exactly when "name" parses
    ensures o.name == (if parsers.parseString(Get(data, "name")).Some? then parsers.parseString(Get(data, "name")).value else name)
  {
    var (id', idFailures) :=
      match parsers.parseUuid(Get(data, "id"))
      case Some(Ok(u)) => (u, [])
      case Some(Err(e)) => (id, [("id", e)])
      case None => (id, []);
    var name' := match parsers.parseString(Get(data, "name")) case Some(n) => n case None => name;
    var failures := idFailures + if name' == "" then [("name", NameEmptyMessage)] else [];
    ReadOutcome(id', name', failures)
  }

  /** The failures `read_map` records: the parse error of "id" when it does
      not parse, and "must be nonempty" exactly when the resulting name is
      empty; no other key, and each at most once. */
  lemma ReadFailures(id: Uuid, name: string, data: Row, parsers: Parsers)
    ensures var o := ReadIdAndName(id, name, data, parsers);
            var parsed := parsers.parseUuid(Get(data, "id"));
            (parsed.Some? && parsed.value.Err? <==> Failed(o.failures, "id")) &&
            (parsed.Some? && parsed.value.Err? ==> ("id", parsed.value.error) in o.failures)
    ensures var o := ReadIdAndName(id, name, data, parsers);
            (Failed(o.failures, "name") <==> o.name == "") &&
            (o.name == "" ==> ("name", NameEmptyMessage) in o.failures)
    ensures var o := ReadIdAndName(id, name, data, parsers);
            |o.failures| <= 2 && forall i :: 0 <= i < |o.failures| ==> o.failures[i].0 in {"id", "name"}
  {
    var o := ReadIdAndName(id, name, data, parsers);
    var idFailures := if parsers.parseUuid(Get(data, "id")).Some? && parsers.parseUuid(Get(data, "id")).value.Err?
                      then [("id", parsers.parseUuid(Get(data, "id")).value.error)] else [];
    assert o.failures == idFailures + if o.name == "" then [("name", NameEmptyMessage)] else [];
    assert forall i :: 0 <= i < |idFailures| ==> idFailures[i].0 == "id" != "name";
    if o.name == "" {
      assert o.failures[|idFailures|].0 == "name";
    }
  }
}
