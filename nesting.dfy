/** The transform of papers/views.py as functions: group the rows by subject,
    build each subject's nested dictionaries, then keep only the "qp" and "ms"
    documents of every variant. Each step reads its input left to right, as
    the Python loops do, and fails with the first KeyError they would raise. */
module Nesting {
  import opened Wrappers
  import opened Distinct
  import opened OrderedMap
  import opened PaperRecords
  import opened NestedTree

  const QP: Value := Str("qp")
  const MS: Value := Str("ms")

  type Groups = OMap<SubjectKey, seq<Record>>

  // Step 1: group the rows by (subject_code, subject_name, year).

  /** The groups after the first `|rows|` iterations of the grouping loop:
      each key's list of rows, keys in first-seen order. */
  function GroupRows(rows: seq<Record>): Result<Groups, Error>
  {
    if rows == [] then Ok([])
    else
      var groups :- GroupRows(rows[..|rows| - 1]);
      var row := rows[|rows| - 1];
      var key :- LookupSubjectKey(row);
      Ok(Put(groups, key, GetOr(groups, key, []) + [row]))
  }

  // Step 2: the nested dictionaries of one subject.

  /** Get-or-insert the session, paper and variant on `path`, then store `url`
      under its doc type, replacing any earlier URL there. */
  function PutDoc(sessions: OMap<Value, Session>, path: Path, url: Value): OMap<Value, Session> {
    var session := GetOr(sessions, path.session, Session([]));
    var paper := GetOr(session.papers, path.paper, Paper([]));
    var variant := GetOr(paper.variants, path.variant, Variant([]));
    var variant' := Variant(Put(variant.docTypes, path.docType, url));
    var paper' := Paper(Put(paper.variants, path.variant, variant'));
    var session' := Session(Put(session.papers, path.paper, paper'));
    Put(sessions, path.session, session')
  }

  /** The sessions of a subject after its first `|rows|` rows. */
  function AddRows(rows: seq<Record>): Result<OMap<Value, Session>, Error>
  {
    if rows == [] then Ok([])
    else
      var sessions :- AddRows(rows[..|rows| - 1]);
      var entry :- LookupPath(rows[|rows| - 1]);
      Ok(PutDoc(sessions, entry.0, entry.1))
  }

  function BuildSubject(key: SubjectKey, rows: seq<Record>): Result<Subject, Error> {
    var sessions :- AddRows(rows);
    Ok(Subject(key.1, key.0, key.2, sessions))
  }

  /** One subject per group, in the groups' order. */
  function BuildSubjects(groups: Groups): Result<seq<Subject>, Error>
  {
    if groups == [] then Ok([])
    else
      var subjects :- BuildSubjects(groups[..|groups| - 1]);
      var group := groups[|groups| - 1];
      var subject :- BuildSubject(group.0, group.1);
      Ok(subjects + [subject])
  }

  // Step 3: the second pass over every variant.

  /** A fresh doc_types dictionary holding "qp" and then "ms", for those of
      the two that are present: at most those two keys, "qp" first, each with
      its original URL, every other doc type dropped. */
  function SortDocTypes(docTypes: OMap<Value, Value>): (r: OMap<Value, Value>)
    ensures Keys(r) in {[], [QP], [MS], [QP, MS]}
    ensures forall k :: Find(r, k) == if k == QP || k == MS then Find(docTypes, k) else None
  {
    var qp := Find(docTypes, QP);
    var ms := Find(docTypes, MS);
    var r := (if qp.Some? then [(QP, qp.value)] else []) + (if ms.Some? then [(MS, ms.value)] else []);
    assert |r| == 2 ==> Keys(r) == [r[0].0, r[1].0];
    assert |r| == 1 ==> Keys(r) == [r[0].0];
    r
  }

  function SortVariant(variant: Variant): Variant {
    Variant(SortDocTypes(variant.docTypes))
  }

  function SortPaper(paper: Paper): Paper {
    Paper(MapValues(paper.variants, SortVariant))
  }

  function SortSession(session: Session): Session {
    Session(MapValues(session.papers, SortPaper))
  }

  function SortSubject(subject: Subject): Subject {
    subject.(sessions := MapValues(subject.sessions, SortSession))
  }

  function SortSubjects(subjects: seq<Subject>): seq<Subject> {
    seq(|subjects|, i requires 0 <= i < |subjects| => SortSubject(subjects[i]))
  }

  /** transform_to_nested: the tree, or the KeyError that aborts it. */
  function Transform(rows: seq<Record>): Result<Tree, Error> {
    var groups :- GroupRows(rows);
    var subjects :- BuildSubjects(groups);
    Ok(Tree(SortSubjects(subjects)))
  }

  // Reference definitions the properties of Transform are stated with.

  /** Every row has the three grouping fields. */
  predicate AllKeyed(rows: seq<Record>) {
    forall i :: 0 <= i < |rows| ==> HasSubjectKey(rows[i])
  }

  /** Every row has the five fields the build step reads. */
  predicate AllPathed(rows: seq<Record>) {
    forall i :: 0 <= i < |rows| ==> HasPath(rows[i])
  }

  /** The grouping key of every row, in input order. */
  function SubjectKeysOf(rows: seq<Record>): seq<SubjectKey>
    requires AllKeyed(rows)
  {
    seq(|rows|, i requires 0 <= i < |rows| && HasSubjectKey(rows[i]) => SubjectKeyOf(rows[i]))
  }

  /** The session of every row, in input order. */
  function SessionsOf(rows: seq<Record>): seq<Value>
    requires AllPathed(rows)
  {
    seq(|rows|, i requires 0 <= i < |rows| && HasPath(rows[i]) => PathOf(rows[i]).session)
  }

  /** The paper of every row in session `s`, in input order. */
  function PapersOf(rows: seq<Record>, s: Value): seq<Value>
  {
    if rows == [] then []
    else
      var row := rows[|rows| - 1];
      PapersOf(rows[..|rows| - 1], s) + if HasPath(row) && PathOf(row).session == s then [PathOf(row).paper] else []
  }

  /** The variant of every row in paper `p` of session `s`, in input order. */
  function VariantsOf(rows: seq<Record>, s: Value, p: Value): seq<Value>
  {
    if rows == [] then []
    else
      var row := rows[|rows| - 1];
      VariantsOf(rows[..|rows| - 1], s, p)
        + if HasPath(row) && PathOf(row).session == s && PathOf(row).paper == p then [PathOf(row).variant] else []
  }

  /** The rows with grouping key `key`, in input order. */
  function RowsOf(rows: seq<Record>, key: SubjectKey): seq<Record>
  {
    if rows == [] then []
    else
      var row := rows[|rows| - 1];
      RowsOf(rows[..|rows| - 1], key) + if HasSubjectKey(row) && SubjectKeyOf(row) == key then [row] else []
  }

  /** The URL of the last row addressed to `path`, None when there is none. */
  function LastUrl(rows: seq<Record>, path: Path): Option<Value>
  {
    if rows == [] then None
    else
      var row := rows[|rows| - 1];
      if HasPath(row) && PathOf(row) == path then Some(UrlOf(row)) else LastUrl(rows[..|rows| - 1], path)
  }

  /** The row's path goes through variant `v` of paper `p` in session `s`. */
  predicate RowReaches(row: Record, s: Value, p: Value, v: Value) {
    HasPath(row) && PathOf(row).session == s && PathOf(row).paper == p && PathOf(row).variant == v
  }

  /** Some row reaches variant `v` of paper `p` in session `s`. */
  ghost predicate Reaches(rows: seq<Record>, s: Value, p: Value, v: Value)
  {
    exists i :: 0 <= i < |rows| && RowReaches(rows[i], s, p, v)
  }
}
