/** The flat rows the transform consumes: one dictionary per document, read
    by key, where a missing key raises KeyError. */
module PaperRecords {
  import opened Wrappers

  /** A column value; the transform never inspects its type, it only compares
      values for equality and uses them as dictionary keys. */
  datatype Value = Str(s: string) | Int(i: int) | Null

  /** A row of the paper table: column name to value. */
  type Record = map<string, Value>

  /** `row[key]` on a missing key raises KeyError naming that key. */
  datatype Error = KeyError(key: string)

  /** The grouping key (subject_code, subject_name, year). */
  type SubjectKey = (Value, Value, Value)

  /** Where a row's URL goes inside its subject, and under which doc type. */
  datatype Path = Path(session: Value, paper: Value, variant: Value, docType: Value)

  const GroupFields: seq<string> := ["subject_code", "subject_name", "year"]
  const PathFields: seq<string> := ["session", "paper", "variant", "doc_type", "file_url"]

  /** `row[name]`. */
  function Field(row: Record, name: string): Result<Value, Error> {
    if name in row then Ok(row[name]) else Err(KeyError(name))
  }

  predicate HasSubjectKey(row: Record) {
    "subject_code" in row && "subject_name" in row && "year" in row
  }

  predicate HasPath(row: Record) {
    && "session" in row && "paper" in row && "variant" in row
    && "doc_type" in row && "file_url" in row
  }

  function SubjectKeyOf(row: Record): SubjectKey
    requires HasSubjectKey(row)
  {
    (row["subject_code"], row["subject_name"], row["year"])
  }

  function PathOf(row: Record): Path
    requires HasPath(row)
  {
    Path(row["session"], row["paper"], row["variant"], row["doc_type"])
  }

  function UrlOf(row: Record): Value
    requires HasPath(row)
  {
    row["file_url"]
  }

  /** The tuple built for the grouping key, reading subject_code, subject_name
      and year in that order: it fails exactly when one is missing, naming a
      missing one (the first, by the order of the reads). */
  function LookupSubjectKey(row: Record): (r: Result<SubjectKey, Error>)
    ensures r.Ok? <==> HasSubjectKey(row)
    ensures r.Ok? ==> r.value == SubjectKeyOf(row)
    ensures r.Err? ==> r.error.key in GroupFields && r.error.key !in row
  {
    var code :- Field(row, "subject_code");
    var name :- Field(row, "subject_name");
    var year :- Field(row, "year");
    Ok((code, name, year))
  }

  /** The five reads of the build step, session, paper, variant, doc_type and
      file_url in that order: it fails exactly when one is missing, naming a
      missing one (the first, by the order of the reads). */
  function LookupPath(row: Record): (r: Result<(Path, Value), Error>)
    ensures r.Ok? <==> HasPath(row)
    ensures r.Ok? ==> r.value == (PathOf(row), UrlOf(row))
    ensures r.Err? ==> r.error.key in PathFields && r.error.key !in row
  {
    var session :- Field(row, "session");
    var paper :- Field(row, "paper");
    var variant :- Field(row, "variant");
    var docType :- Field(row, "doc_type");
    var url :- Field(row, "file_url");
    Ok((Path(session, paper, variant, docType), url))
  }
}
