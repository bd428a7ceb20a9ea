/** transform_to_nested of papers/views.py as the loops it is written with:
    a grouping loop, a loop over the groups that fills each subject's nested
    dictionaries row by row, and a final nested loop that rebuilds every
    variant's doc_types. Each loop is proved to compute the functions of
    module Nesting, whose properties are proved in TransformProofs. */
module Views {
  import opened Wrappers
  import opened OrderedMap
  import opened PaperRecords
  import opened NestedTree
  import opened Nesting
  import opened GroupingProofs
  import opened BuildingProofs

  /** The whole transform: the nested tree, or the KeyError that aborts it. */
  method TransformToNested(rows: seq<Record>) returns (result: Result<Tree, Error>)
    ensures result == Transform(rows)
  {
    // Step 1: group by (subject_code, subject_name, year)
    var groups: Groups := [];
    for i := 0 to |rows|
      invariant GroupRows(rows[..i]) == Ok(groups)
    {
      var row := rows[i];
      assert rows[..i + 1][..i] == rows[..i];
      GroupRowsStep(rows[..i + 1]);
      var key := LookupSubjectKey(row);
      if key.Err? {
        GroupRowsPrefixFailure(rows, i + 1);
        return Err(key.error);
      }
      ghost var before := groups;
      groups := Ensure(groups, key.value, []);
      var files := Find(groups, key.value).value;
      groups := Put(groups, key.value, files + [row]);
      EnsurePut(before, key.value, [], files + [row]);
    }
    assert rows[..|rows|] == rows;

    // Step 2: one subject per group, in first-seen order
    var subjects: seq<Subject> := [];
    for g := 0 to |groups|
      invariant BuildSubjects(groups[..g]) == Ok(subjects)
    {
      var (key, files) := groups[g];
      assert groups[..g + 1][..g] == groups[..g];
      BuildSubjectsStep(groups[..g + 1]);
      var sessions := BuildSessions(files);
      if sessions.Err? {
        BuildSubjectsPrefixFailure(groups, g + 1);
        return Err(sessions.error);
      }
      subjects := subjects + [Subject(key.1, key.0, key.2, sessions.value)];
    }
    assert groups[..|groups|] == groups;

    subjects := SortEverySubject(subjects);
    result := Ok(Tree(subjects));
  }

  /** Step 3 of one subject: get-or-insert the session, paper and variant of
      each row in turn and store its file_url under its doc_type. */
  method BuildSessions(rows: seq<Record>) returns (result: Result<OMap<Value, Session>, Error>)
    ensures result == AddRows(rows)
  {
    var sessions: OMap<Value, Session> := [];
    for i := 0 to |rows|
      invariant AddRows(rows[..i]) == Ok(sessions)
    {
      assert rows[..i + 1][..i] == rows[..i];
      AddRowsStep(rows[..i + 1]);
      var entry := LookupPath(rows[i]);
      if entry.Err? {
        AddRowsPrefixFailure(rows, i + 1);
        return Err(entry.error);
      }
      var (path, url) := entry.value;
      ghost var before := sessions;

      // Ensure session exists
      sessions := Ensure(sessions, path.session, Session([]));
      var session := Find(sessions, path.session).value;
      // Ensure paper exists
      var papers := Ensure(session.papers, path.paper, Paper([]));
      var paper := Find(papers, path.paper).value;
      // Ensure variant exists
      var variants := Ensure(paper.variants, path.variant, Variant([]));
      var variant := Find(variants, path.variant).value;

      // Add the doc_type and URL, writing the changed nodes back
      var variant' := Variant(Put(variant.docTypes, path.docType, url));
      EnsurePut(paper.variants, path.variant, Variant([]), variant');
      variants := Put(variants, path.variant, variant');
      EnsurePut(session.papers, path.paper, Paper([]), Paper(variants));
      papers := Put(papers, path.paper, Paper(variants));
      EnsurePut(before, path.session, Session([]), Session(papers));
      sessions := Put(sessions, path.session, Session(papers));
    }
    assert rows[..|rows|] == rows;
    result := Ok(sessions);
  }

  /** The final pass, outer loop: every subject. */
  method SortEverySubject(subjects: seq<Subject>) returns (sorted: seq<Subject>)
    ensures sorted == SortSubjects(subjects)
  {
    sorted := subjects;
    for i := 0 to |sorted|
      invariant |sorted| == |subjects|
      invariant forall j :: 0 <= j < i ==> sorted[j] == SortSubject(subjects[j])
      invariant forall j :: i <= j < |sorted| ==> sorted[j] == subjects[j]
    {
      var sessions := SortEverySession(sorted[i].sessions);
      sorted := sorted[i := sorted[i].(sessions := sessions)];
    }
  }

  method SortEverySession(sessions: OMap<Value, Session>) returns (sorted: OMap<Value, Session>)
    ensures sorted == MapValues(sessions, SortSession)
  {
    sorted := sessions;
    for i := 0 to |sorted|
      invariant |sorted| == |sessions|
      invariant forall j :: 0 <= j < i ==> sorted[j] == (sessions[j].0, SortSession(sessions[j].1))
      invariant forall j :: i <= j < |sorted| ==> sorted[j] == sessions[j]
    {
      var papers := SortEveryPaper(sorted[i].1.papers);
      sorted := sorted[i := (sorted[i].0, Session(papers))];
    }
  }

  method SortEveryPaper(papers: OMap<Value, Paper>) returns (sorted: OMap<Value, Paper>)
    ensures sorted == MapValues(papers, SortPaper)
  {
    sorted := papers;
    for i := 0 to |sorted|
      invariant |sorted| == |papers|
      invariant forall j :: 0 <= j < i ==> sorted[j] == (papers[j].0, SortPaper(papers[j].1))
      invariant forall j :: i <= j < |sorted| ==> sorted[j] == papers[j]
    {
      var variants := SortEveryVariant(sorted[i].1.variants);
      sorted := sorted[i := (sorted[i].0, Paper(variants))];
    }
  }

  /** The innermost loop: every variant's doc_types is replaced by its
      filtered and reordered copy. */
  method SortEveryVariant(variants: OMap<Value, Variant>) returns (sorted: OMap<Value, Variant>)
    ensures sorted == MapValues(variants, SortVariant)
  {
    sorted := variants;
    for i := 0 to |sorted|
      invariant |sorted| == |variants|
      invariant forall j :: 0 <= j < i ==> sorted[j] == (variants[j].0, SortVariant(variants[j].1))
      invariant forall j :: i <= j < |sorted| ==> sorted[j] == variants[j]
    {
      var sortedDocs := SortDocs(sorted[i].1.docTypes);
      sorted := sorted[i := (sorted[i].0, Variant(sortedDocs))];
    }
  }

  /** `sorted_docs` of one variant: "qp" if present, then "ms" if present. */
  method SortDocs(docTypes: OMap<Value, Value>) returns (sortedDocs: OMap<Value, Value>)
    ensures sortedDocs == SortDocTypes(docTypes)
  {
    sortedDocs := [];
    if QP in Keys(docTypes) {
      sortedDocs := Put(sortedDocs, QP, Find(docTypes, QP).value);
      assert sortedDocs == [(QP, Find(docTypes, QP).value)];
    }
    ghost var withQp := sortedDocs;
    if MS in Keys(docTypes) {
      var url := Find(docTypes, MS).value;
      sortedDocs := Put(sortedDocs, MS, url);
      if withQp != [] {
        assert withQp[0].0 == QP != MS;
        assert sortedDocs == [withQp[0]] + Put([], MS, url);
      }
      assert sortedDocs == withQp + [(MS, url)];
    }
    assert sortedDocs == SortDocTypes(docTypes);
  }
}
