/** What transform_to_nested promises about its result, stated against the
    rows it was given. */
module TransformProofs {
  import opened Wrappers
  import opened Distinct
  import opened OrderedMap
  import opened PaperRecords
  import opened NestedTree
  import opened Nesting
  import opened GroupingProofs
  import opened BuildingProofs
  import opened SortingProofs

  /** No rows: both loops are skipped and `{"subjects": []}` is returned. */
  lemma TransformEmpty()
    ensures Transform([]) == Ok(Tree([]))
  {
    assert SortSubjects([]) == [];
  }

  lemma RowsOfPathed(rows: seq<Record>, key: SubjectKey)
    requires AllPathed(rows)
    ensures AllPathed(RowsOf(rows, key))
  {
    var r := RowsOf(rows, key);
    forall i | 0 <= i < |r|
      ensures HasPath(r[i])
    {
      RowsOfMember(rows, key, r[i]);
    }
  }

  /** Group `i` holds exactly the rows that carry its key. */
  lemma GroupAt(rows: seq<Record>, i: nat)
    requires GroupRows(rows).Ok? && i < |GroupRows(rows).value|
    ensures AllKeyed(rows)
    ensures GroupRows(rows).value[i].0 in SubjectKeysOf(rows)
    ensures GroupRows(rows).value[i].1 == RowsOf(rows, GroupRows(rows).value[i].0)
  {
    var g := GroupRows(rows).value;
    GroupRowsKeys(rows);
    GroupRowsFind(rows, g[i].0);
    assert Keys(g)[i] == g[i].0;
    FindPair(g, g[i].0, g[i].1);
  }

  /** The group that a keyed row went into. */
  lemma GroupOfRow(rows: seq<Record>, j: nat) returns (i: nat)
    requires GroupRows(rows).Ok? && j < |rows|
    ensures AllKeyed(rows)
    ensures i < |GroupRows(rows).value|
    ensures GroupRows(rows).value[i].0 == SubjectKeyOf(rows[j])
    ensures rows[j] in GroupRows(rows).value[i].1
  {
    var g := GroupRows(rows).value;
    GroupRowsKeys(rows);
    var key := SubjectKeyOf(rows[j]);
    assert SubjectKeysOf(rows)[j] == key;
    assert key in Keys(g);
    i :| 0 <= i < |g| && Keys(g)[i] == key;
    GroupAt(rows, i);
    RowsOfMember(rows, key, rows[j]);
  }

  /** The transform returns a tree exactly when every row has all eight
      fields it reads; otherwise it raises and no tree is produced. */
  lemma TransformOk(rows: seq<Record>)
    ensures Transform(rows).Ok? <==> AllKeyed(rows) && AllPathed(rows)
  {
    GroupRowsOk(rows);
    if AllKeyed(rows) {
      var g := GroupRows(rows).value;
      BuildSubjectsOk(g);
      if AllPathed(rows) {
        forall i | 0 <= i < |g|
          ensures AddRows(g[i].1).Ok?
        {
          GroupAt(rows, i);
          RowsOfPathed(rows, g[i].0);
          AddRowsOk(g[i].1);
        }
      } else {
        var j :| 0 <= j < |rows| && !HasPath(rows[j]);
        var i := GroupOfRow(rows, j);
        AddRowsOk(g[i].1);
      }
    }
  }

  /** The KeyError that aborts the transform names one of the eight fields
      it reads, and some row lacks that field. */
  lemma TransformError(rows: seq<Record>)
    requires Transform(rows).Err?
    ensures Transform(rows).error.key in GroupFields || Transform(rows).error.key in PathFields
    ensures exists j :: 0 <= j < |rows| && Transform(rows).error.key !in rows[j]
  {
    if GroupRows(rows).Err? {
      GroupRowsError(rows);
    } else {
      var g := GroupRows(rows).value;
      BuildSubjectsError(g);
      var i :| 0 <= i < |g| && AddRows(g[i].1) == Err(Transform(rows).error);
      AddRowsError(g[i].1);
      var j :| 0 <= j < |g[i].1| && Transform(rows).error.key !in g[i].1[j];
      GroupAt(rows, i);
      RowsOfMember(rows, g[i].0, g[i].1[j]);
    }
  }

  /** Subject `i` is group `i`, built and then sorted. */
  lemma SubjectAt(rows: seq<Record>, i: nat)
    requires Transform(rows).Ok?
    ensures GroupRows(rows).Ok? && BuildSubjects(GroupRows(rows).value).Ok?
    ensures |Transform(rows).value.subjects| == |GroupRows(rows).value|
    ensures i < |GroupRows(rows).value| ==>
      var group := GroupRows(rows).value[i];
      && KeyOfSubject(Transform(rows).value.subjects[i]) == group.0
      && AddRows(group.1).Ok?
      && Transform(rows).value.subjects[i].sessions == MapValues(AddRows(group.1).value, SortSession)
  {
    var g := GroupRows(rows).value;
    BuildSubjectsAt(g);
  }

  /** The subjects' triples are the group keys, in order. */
  lemma SubjectKeysGroups(rows: seq<Record>)
    requires Transform(rows).Ok?
    ensures GroupRows(rows).Ok?
    ensures SubjectKeys(Transform(rows).value.subjects) == Keys(GroupRows(rows).value)
  {
    var subjects := Transform(rows).value.subjects;
    var g := GroupRows(rows).value;
    SubjectAt(rows, 0);
    assert |SubjectKeys(subjects)| == |Keys(g)|;
    forall i | 0 <= i < |subjects|
      ensures SubjectKeys(subjects)[i] == Keys(g)[i]
    {
      SubjectAt(rows, i);
    }
  }

  /** One subject per distinct (subject_code, subject_name, year) of the
      input, in the order each first appears; so never more subjects than
      rows. */
  lemma TransformSubjects(rows: seq<Record>)
    requires Transform(rows).Ok?
    ensures AllKeyed(rows)
    ensures SubjectKeys(Transform(rows).value.subjects) == Dedup(SubjectKeysOf(rows))
    ensures |Transform(rows).value.subjects| <= |rows|
  {
    SubjectKeysGroups(rows);
    GroupRowsKeys(rows);
    assert |Dedup(SubjectKeysOf(rows))| <= |SubjectKeysOf(rows)| == |rows|;
  }

  /** Subject `i`'s sessions are built from exactly the rows carrying its
      triple, in input order. */
  lemma SubjectRows(rows: seq<Record>, i: nat)
    requires Transform(rows).Ok? && i < |Transform(rows).value.subjects|
    ensures AllPathed(RowsOf(rows, KeyOfSubject(Transform(rows).value.subjects[i])))
    ensures
      var subject := Transform(rows).value.subjects[i];
      && AddRows(RowsOf(rows, KeyOfSubject(subject))).Ok?
      && subject.sessions == MapValues(AddRows(RowsOf(rows, KeyOfSubject(subject))).value, SortSession)
  {
    SubjectAt(rows, i);
    GroupAt(rows, i);
    TransformOk(rows);
    RowsOfPathed(rows, KeyOfSubject(Transform(rows).value.subjects[i]));
  }

  /** Last write wins, and only "qp" and "ms" survive: the URL at a path of
      subject `i` is the file_url of the last row of that subject addressed to
      it when the doc type is "qp" or "ms", and there is none otherwise. */
  lemma TransformLastWins(rows: seq<Record>, i: nat, path: Path)
    requires Transform(rows).Ok? && i < |Transform(rows).value.subjects|
    ensures FindDoc(Transform(rows).value.subjects[i].sessions, path)
      == if path.docType == QP || path.docType == MS
         then LastUrl(RowsOf(rows, KeyOfSubject(Transform(rows).value.subjects[i])), path)
         else None
  {
    SubjectRows(rows, i);
    var key := KeyOfSubject(Transform(rows).value.subjects[i]);
    SortedFindDoc(AddRows(RowsOf(rows, key)).value, path);
    AddRowsLastWins(RowsOf(rows, key), path);
  }

  /** Subject `i` has a variant exactly where one of its rows reached, and
      every variant's doc_types keys are among "qp", "ms", in that order. */
  lemma TransformVariants(rows: seq<Record>, i: nat, s: Value, p: Value, v: Value)
    requires Transform(rows).Ok? && i < |Transform(rows).value.subjects|
    ensures
      var found := FindVariant(Transform(rows).value.subjects[i].sessions, s, p, v);
      && (found.Some? <==> Reaches(RowsOf(rows, KeyOfSubject(Transform(rows).value.subjects[i])), s, p, v))
      && (found.Some? ==> Keys(found.value.docTypes) in {[], [QP], [MS], [QP, MS]})
  {
    SubjectRows(rows, i);
    var key := KeyOfSubject(Transform(rows).value.subjects[i]);
    SortedFindVariant(AddRows(RowsOf(rows, key)).value, s, p, v);
    AddRowsVariants(RowsOf(rows, key), s, p, v);
  }

  /** A variant reached only by rows of other doc types is kept, with an
      empty doc_types. */
  lemma TransformEmptyVariant(rows: seq<Record>, i: nat, s: Value, p: Value, v: Value)
    requires Transform(rows).Ok? && i < |Transform(rows).value.subjects|
    requires Reaches(RowsOf(rows, KeyOfSubject(Transform(rows).value.subjects[i])), s, p, v)
    requires LastUrl(RowsOf(rows, KeyOfSubject(Transform(rows).value.subjects[i])), Path(s, p, v, QP)).None?
    requires LastUrl(RowsOf(rows, KeyOfSubject(Transform(rows).value.subjects[i])), Path(s, p, v, MS)).None?
    ensures FindVariant(Transform(rows).value.subjects[i].sessions, s, p, v) == Some(Variant([]))
  {
    TransformVariants(rows, i, s, p, v);
    TransformLastWins(rows, i, Path(s, p, v, QP));
    TransformLastWins(rows, i, Path(s, p, v, MS));
    var docTypes := FindVariant(Transform(rows).value.subjects[i].sessions, s, p, v).value.docTypes;
    assert QP !in Keys(docTypes) && MS !in Keys(docTypes);
    assert |docTypes| == |Keys(docTypes)| == 0;
  }

  /** A subject's sessions are the distinct sessions of its rows, in the
      order each first appears. */
  lemma TransformSessions(rows: seq<Record>, i: nat)
    requires Transform(rows).Ok? && i < |Transform(rows).value.subjects|
    ensures AllPathed(RowsOf(rows, KeyOfSubject(Transform(rows).value.subjects[i])))
    ensures Keys(Transform(rows).value.subjects[i].sessions)
      == Dedup(SessionsOf(RowsOf(rows, KeyOfSubject(Transform(rows).value.subjects[i]))))
  {
    SubjectRows(rows, i);
    var key := KeyOfSubject(Transform(rows).value.subjects[i]);
    MapValuesKeys(AddRows(RowsOf(rows, key)).value, SortSession);
    AddRowsSessionKeys(RowsOf(rows, key));
  }

  /** Within a session of a subject, the papers are the distinct papers of
      the subject's rows in that session, in the order each first appears. */
  lemma TransformPapers(rows: seq<Record>, i: nat, s: Value)
    requires Transform(rows).Ok? && i < |Transform(rows).value.subjects|
    ensures Keys(PapersAt(Transform(rows).value.subjects[i].sessions, s))
      == Dedup(PapersOf(RowsOf(rows, KeyOfSubject(Transform(rows).value.subjects[i])), s))
  {
    SubjectRows(rows, i);
    var built := AddRows(RowsOf(rows, KeyOfSubject(Transform(rows).value.subjects[i]))).value;
    SortedPapersAt(built, s);
    MapValuesKeys(PapersAt(built, s), SortPaper);
    AddRowsPaperKeys(RowsOf(rows, KeyOfSubject(Transform(rows).value.subjects[i])), s);
  }

  /** Within a paper of a subject, the variants are the distinct variants of
      the subject's rows on that paper, in the order each first appears. */
  lemma TransformVariantKeys(rows: seq<Record>, i: nat, s: Value, p: Value)
    requires Transform(rows).Ok? && i < |Transform(rows).value.subjects|
    ensures Keys(VariantsAt(Transform(rows).value.subjects[i].sessions, s, p))
      == Dedup(VariantsOf(RowsOf(rows, KeyOfSubject(Transform(rows).value.subjects[i])), s, p))
  {
    SubjectRows(rows, i);
    var built := AddRows(RowsOf(rows, KeyOfSubject(Transform(rows).value.subjects[i]))).value;
    SortedVariantsAt(built, s, p);
    MapValuesKeys(VariantsAt(built, s, p), SortVariant);
    AddRowsVariantKeys(RowsOf(rows, KeyOfSubject(Transform(rows).value.subjects[i])), s, p);
  }

  /** Every dictionary of the tree has unique keys, and so has the list of
      subjects. */
  lemma TransformWellFormed(rows: seq<Record>)
    requires Transform(rows).Ok?
    ensures WellFormed(Transform(rows).value)
  {
    var subjects := Transform(rows).value.subjects;
    TransformSubjects(rows);
    forall i | 0 <= i < |subjects|
      ensures SessionsWellFormed(subjects[i].sessions)
    {
      SubjectRows(rows, i);
      var key := KeyOfSubject(subjects[i]);
      AddRowsWellFormed(RowsOf(rows, key));
      SortedWellFormed(AddRows(RowsOf(rows, key)).value);
    }
  }

  /** Two rows of one subject that differ only in doc_type and file_url, plus
      a third doc type that the final pass drops. */
  function ExampleRow(docType: string, url: string): Record {
    map["subject_code" := Str("0580"), "subject_name" := Str("Math"), "year" := Int(2021),
        "session" := Str("May"), "paper" := Str("1"), "variant" := Str("2"),
        "doc_type" := Str(docType), "file_url" := Str(url)]
  }

  const ExampleKey: SubjectKey := (Str("0580"), Str("Math"), Int(2021))

  function ExampleSessions(docTypes: OMap<Value, Value>): OMap<Value, Session> {
    [(Str("May"), Session([(Str("1"), Paper([(Str("2"), Variant(docTypes))]))]))]
  }

  /** What the transform reads from an example row. */
  lemma ExampleRowFields(docType: string, url: string)
    ensures HasSubjectKey(ExampleRow(docType, url))
    ensures SubjectKeyOf(ExampleRow(docType, url)) == ExampleKey
    ensures HasPath(ExampleRow(docType, url))
    ensures PathOf(ExampleRow(docType, url)) == Path(Str("May"), Str("1"), Str("2"), Str(docType))
    ensures UrlOf(ExampleRow(docType, url)) == Str(url)
  {
  }

  /** Appending a row of the example subject to rows grouped under it alone. */
  lemma ExampleGroupStep(rows: seq<Record>, row: Record)
    requires rows != [] && GroupRows(rows) == Ok([(ExampleKey, rows)])
    requires HasSubjectKey(row) && SubjectKeyOf(row) == ExampleKey
    ensures GroupRows(rows + [row]) == Ok([(ExampleKey, rows + [row])])
  {
    var all := rows + [row];
    assert all[..|all| - 1] == rows && all[|all| - 1] == row;
    GroupRowsStep(all);
    var g: Groups := [(ExampleKey, rows)];
    assert GetOr(g, ExampleKey, []) + [row] == all;
    assert Put(g, ExampleKey, all) == [(ExampleKey, all)];
  }

  lemma ExampleGroupFirst(row: Record)
    requires HasSubjectKey(row) && SubjectKeyOf(row) == ExampleKey
    ensures GroupRows([row]) == Ok([(ExampleKey, [row])])
  {
    GroupRowsStep([row]);
    assert [row][..0] == [] && GroupRows([]) == Ok([]);
    assert GetOr([], ExampleKey, []) + [row] == [row];
    assert Put([], ExampleKey, [row]) == [(ExampleKey, [row])];
  }

  lemma ExampleGroups(a: Record, b: Record, c: Record)
    requires HasSubjectKey(a) && SubjectKeyOf(a) == ExampleKey
    requires HasSubjectKey(b) && SubjectKeyOf(b) == ExampleKey
    requires HasSubjectKey(c) && SubjectKeyOf(c) == ExampleKey
    ensures GroupRows([a, b, c]) == Ok([(ExampleKey, [a, b, c])])
  {
    var ab, abc := [a] + [b], [a, b] + [c];
    assert ab == [a, b] && abc == [a, b, c];
    assert GroupRows([a]) == Ok([(ExampleKey, [a])]) by {
      ExampleGroupFirst(a);
    }
    assert GroupRows(ab) == Ok([(ExampleKey, ab)]) by {
      ExampleGroupStep([a], b);
    }
    ExampleGroupStep([a, b], c);
  }

  lemma ExamplePutDoc(docs: OMap<Value, Value>, d: Value, u: Value)
    ensures PutDoc(ExampleSessions(docs), Path(Str("May"), Str("1"), Str("2"), d), u)
      == ExampleSessions(Put(docs, d, u))
  {
    var variant := Variant(docs);
    var paper := Paper([(Str("2"), variant)]);
    var session := Session([(Str("1"), paper)]);
    assert GetOr(ExampleSessions(docs), Str("May"), Session([])) == session;
    assert GetOr(session.papers, Str("1"), Paper([])) == paper;
    assert GetOr(paper.variants, Str("2"), Variant([])) == variant;
    var variant' := Variant(Put(docs, d, u));
    var paper' := Paper([(Str("2"), variant')]);
    var session' := Session([(Str("1"), paper')]);
    assert Put(paper.variants, Str("2"), variant') == paper'.variants;
    assert Put(session.papers, Str("1"), paper') == session'.papers;
    assert Put(ExampleSessions(docs), Str("May"), session') == ExampleSessions(Put(docs, d, u));
  }

  /** The doc_types of the example's variant, one row at a time, and after
      the final pass. */
  lemma ExampleDocsMs()
    ensures Put([(Str("notes"), Str("u0"))], MS, Str("u2")) == [(Str("notes"), Str("u0")), (MS, Str("u2"))]
  {
    var one: OMap<Value, Value> := [(Str("notes"), Str("u0"))];
    assert one[0].0 != MS && one[1..] == [];
  }

  lemma ExampleDocsQp()
    ensures Put([(Str("notes"), Str("u0")), (MS, Str("u2"))], QP, Str("u1"))
      == [(Str("notes"), Str("u0")), (MS, Str("u2")), (QP, Str("u1"))]
  {
    var two: OMap<Value, Value> := [(Str("notes"), Str("u0")), (MS, Str("u2"))];
    assert two[0].0 != QP && two[1].0 != QP;
    assert two[1..] == [(MS, Str("u2"))] && two[1..][1..] == [];
    assert Put(two[1..], QP, Str("u1")) == [(MS, Str("u2")), (QP, Str("u1"))];
  }

  lemma ExampleFindQp()
    ensures Find([(Str("notes"), Str("u0")), (MS, Str("u2")), (QP, Str("u1"))], QP) == Some(Str("u1"))
  {
    var three: OMap<Value, Value> := [(Str("notes"), Str("u0")), (MS, Str("u2")), (QP, Str("u1"))];
    assert three[0].0 != QP && three[1].0 != QP;
    assert three[1..] == [(MS, Str("u2")), (QP, Str("u1"))] && three[1..][1..] == [(QP, Str("u1"))];
  }

  lemma ExampleFindMs()
    ensures Find([(Str("notes"), Str("u0")), (MS, Str("u2")), (QP, Str("u1"))], MS) == Some(Str("u2"))
  {
    var three: OMap<Value, Value> := [(Str("notes"), Str("u0")), (MS, Str("u2")), (QP, Str("u1"))];
    assert three[0].0 != MS;
    assert three[1..] == [(MS, Str("u2")), (QP, Str("u1"))];
  }

  lemma ExampleDocsSorted()
    ensures SortDocTypes([(Str("notes"), Str("u0")), (MS, Str("u2")), (QP, Str("u1"))])
      == [(QP, Str("u1")), (MS, Str("u2"))]
  {
    ExampleFindQp();
    ExampleFindMs();
  }

  /** Appending a row of the example variant to rows that built it. */
  lemma ExampleBuildStep(rows: seq<Record>, docs: OMap<Value, Value>, row: Record, d: Value)
    requires rows != [] && AddRows(rows) == Ok(ExampleSessions(docs))
    requires HasPath(row) && PathOf(row) == Path(Str("May"), Str("1"), Str("2"), d)
    ensures AddRows(rows + [row]) == Ok(ExampleSessions(Put(docs, d, UrlOf(row))))
  {
    var all := rows + [row];
    assert all[..|all| - 1] == rows && all[|all| - 1] == row;
    AddRowsStep(all);
    ExamplePutDoc(docs, d, UrlOf(row));
  }

  lemma ExampleBuildFirst(row: Record, d: Value)
    requires HasPath(row) && PathOf(row) == Path(Str("May"), Str("1"), Str("2"), d)
    ensures AddRows([row]) == Ok(ExampleSessions([(d, UrlOf(row))]))
  {
    AddRowsStep([row]);
    assert [row][..0] == [] && AddRows([]) == Ok([]);
    assert PutDoc([], PathOf(row), UrlOf(row)) == ExampleSessions([(d, UrlOf(row))]);
  }

  lemma ExampleBuild(a: Record, b: Record, c: Record)
    requires HasPath(a) && PathOf(a) == Path(Str("May"), Str("1"), Str("2"), Str("notes")) && UrlOf(a) == Str("u0")
    requires HasPath(b) && PathOf(b) == Path(Str("May"), Str("1"), Str("2"), MS) && UrlOf(b) == Str("u2")
    requires HasPath(c) && PathOf(c) == Path(Str("May"), Str("1"), Str("2"), QP) && UrlOf(c) == Str("u1")
    ensures AddRows([a, b, c]) == Ok(ExampleSessions([(Str("notes"), Str("u0")), (MS, Str("u2")), (QP, Str("u1"))]))
  {
    var notes, ms := (Str("notes"), Str("u0")), (MS, Str("u2"));
    var ab, abc := [a] + [b], [a, b] + [c];
    assert ab == [a, b] && abc == [a, b, c];
    assert AddRows([a]) == Ok(ExampleSessions([notes])) by {
      ExampleBuildFirst(a, Str("notes"));
    }
    assert AddRows(ab) == Ok(ExampleSessions([notes, ms])) by {
      ExampleBuildStep([a], [notes], b, MS);
      ExampleDocsMs();
    }
    ExampleBuildStep([a, b], [notes, ms], c, QP);
    ExampleDocsQp();
  }

  lemma ExampleOneGroup(key: SubjectKey, rows: seq<Record>, subject: Subject)
    requires BuildSubject(key, rows) == Ok(subject)
    ensures BuildSubjects([(key, rows)]) == Ok([subject])
  {
    var groups: Groups := [(key, rows)];
    assert BuildSubjects(groups[..|groups| - 1]) == Ok([]);
    assert [] + [subject] == [subject];
  }

  lemma ExampleSortedPaper(docs: OMap<Value, Value>)
    ensures SortPaper(Paper([(Str("2"), Variant(docs))])) == Paper([(Str("2"), Variant(SortDocTypes(docs)))])
  {
    var variants := [(Str("2"), Variant(docs))];
    assert MapValues(variants, SortVariant)[0] == (Str("2"), Variant(SortDocTypes(docs)));
  }

  lemma ExampleSortedSession(docs: OMap<Value, Value>)
    ensures SortSession(Session([(Str("1"), Paper([(Str("2"), Variant(docs))]))]))
      == Session([(Str("1"), Paper([(Str("2"), Variant(SortDocTypes(docs)))]))])
  {
    var papers := [(Str("1"), Paper([(Str("2"), Variant(docs))]))];
    ExampleSortedPaper(docs);
    assert MapValues(papers, SortPaper)[0] == (Str("1"), Paper([(Str("2"), Variant(SortDocTypes(docs)))]));
  }

  lemma ExampleSorted(docs: OMap<Value, Value>)
    ensures MapValues(ExampleSessions(docs), SortSession) == ExampleSessions(SortDocTypes(docs))
  {
    ExampleSortedSession(docs);
    assert MapValues(ExampleSessions(docs), SortSession)[0] == ExampleSessions(SortDocTypes(docs))[0];
  }

  /** The worked example: one subject whose single variant keeps "qp" then
      "ms", with "notes" dropped. */
  lemma TransformExample()
    ensures Transform([ExampleRow("notes", "u0"), ExampleRow("ms", "u2"), ExampleRow("qp", "u1")])
      == Ok(Tree([Subject(Str("Math"), Str("0580"), Int(2021), ExampleSessions([(QP, Str("u1")), (MS, Str("u2"))]))]))
  {
    var a, b, c := ExampleRow("notes", "u0"), ExampleRow("ms", "u2"), ExampleRow("qp", "u1");
    var notes, ms, qp := (Str("notes"), Str("u0")), (MS, Str("u2")), (QP, Str("u1"));
    var subject := Subject(Str("Math"), Str("0580"), Int(2021), ExampleSessions([notes, ms, qp]));
    assert Transform([a, b, c]) == Ok(Tree(SortSubjects([subject]))) by {
      ExampleRowFields("notes", "u0");
      ExampleRowFields("ms", "u2");
      ExampleRowFields("qp", "u1");
      ExampleGroups(a, b, c);
      ExampleBuild(a, b, c);
      ExampleOneGroup(ExampleKey, [a, b, c], subject);
    }
    assert SortSubjects([subject]) == [SortSubject(subject)];
    assert SortSubject(subject).sessions == ExampleSessions([qp, ms]) by {
      ExampleDocsSorted();
      ExampleSorted([notes, ms, qp]);
    }
  }
}
