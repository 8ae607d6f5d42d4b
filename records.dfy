/** The records that flow from the collector to the renderer: one scored entry
    per model, IDE or agent, and the aggregate leaderboard document. */
module Records {

  datatype Option<+T> = None | Some(value: T)

  /** An optional string-valued key of a JSON record. The collector and the
      renderer distinguish a key that is missing (`Absent`, where `dict.get`
      applies its default) from a key holding JSON null (`Null`, which Python
      formats as "None") and a key holding a string. */
  datatype Field = Absent | Null | Value(text: string)

  /** Python truthiness of a field value: a missing key, null and "" are falsy. */
  predicate Falsy(f: Field) {
    f.Absent? || f.Null? || f == Value("")
  }

  /** One leaderboard record. `name` holds the `model` key of an LLM record and
      the `name` key of an IDE or agent record; `kind` is the `type` key;
      `detail` is `parameters` for an LLM and `version` for an IDE or agent. */
  datatype Entry = Entry(
    name: string,
    score: Option<int>,
    organization: string,
    kind: Field,
    detail: Field,
    rank: int)

  /** The persisted aggregate document. A category key that is missing from the
      JSON file is read as the empty list. */
  datatype Document = Document(
    lastUpdated: Field,
    sources: seq<string>,
    llms: seq<Entry>,
    ides: seq<Entry>,
    agents: seq<Entry>)
}
