/** Properties of step 2, building one subject's nested dictionaries from
    its rows. */
module BuildingProofs {
  import opened Wrappers
  import opened Distinct
  import opened OrderedMap
  import opened PaperRecords
  import opened NestedTree
  import opened Nesting

  /** Once the build loop has raised, the rows after it change nothing. */
  lemma {:induction false} AddRowsPrefixFailure(rows: seq<Record>, n: nat)
    requires n <= |rows| && AddRows(rows[..n]).Err?
    ensures AddRows(rows) == AddRows(rows[..n])
    decreases |rows|
  {
    if n < |rows| {
      var p := rows[..|rows| - 1];
      assert p[..n] == rows[..n];
      AddRowsPrefixFailure(p, n);
    } else {
      assert rows[..n] == rows;
    }
  }

  /** One iteration of the build loop stores the row's URL at its path. */
  lemma AddRowsStep(rows: seq<Record>)
    requires rows != []
    ensures AddRows(rows).Ok? <==> AddRows(rows[..|rows| - 1]).Ok? && HasPath(rows[|rows| - 1])
    ensures AddRows(rows).Ok? ==>
      var row := rows[|rows| - 1];
      AddRows(rows).value == PutDoc(AddRows(rows[..|rows| - 1]).value, PathOf(row), UrlOf(row))
  {
    var prefix := AddRows(rows[..|rows| - 1]);
    var entry := LookupPath(rows[|rows| - 1]);
    assert AddRows(rows) == if prefix.Err? then Err(prefix.error)
      else if entry.Err? then Err(entry.error)
      else Ok(PutDoc(prefix.value, entry.value.0, entry.value.1));
  }

  lemma AllPathedStep(rows: seq<Record>)
    requires rows != []
    ensures AllPathed(rows) <==> AllPathed(rows[..|rows| - 1]) && HasPath(rows[|rows| - 1])
  {
  }

  /** The build loop completes exactly when every row has the five fields it
      reads. */
  lemma {:induction false} AddRowsOk(rows: seq<Record>)
    ensures AddRows(rows).Ok? <==> AllPathed(rows)
  {
    if rows != [] {
      AddRowsOk(rows[..|rows| - 1]);
      AddRowsStep(rows);
      AllPathedStep(rows);
    }
  }

  /** A raised KeyError names one of the five fields that some row lacks. */
  lemma {:induction false} AddRowsError(rows: seq<Record>)
    requires AddRows(rows).Err?
    ensures AddRows(rows).error.key in PathFields
    ensures exists i :: 0 <= i < |rows| && AddRows(rows).error.key !in rows[i]
  {
    var p := rows[..|rows| - 1];
    if AddRows(p).Err? {
      AddRowsError(p);
      var i :| 0 <= i < |p| && AddRows(p).error.key !in p[i];
      assert rows[i] == p[i];
    } else {
      assert AddRows(rows).error.key !in rows[|rows| - 1];
    }
  }

  /** The variant on `path` that PutDoc stores into: the existing one, or a
      fresh empty one. */
  function PutDocVariant(sessions: OMap<Value, Session>, path: Path): Variant {
    var session := GetOr(sessions, path.session, Session([]));
    var paper := GetOr(session.papers, path.paper, Paper([]));
    GetOr(paper.variants, path.variant, Variant([]))
  }

  /** The nodes PutDoc writes back on the way to `path`. */
  function PutDocPapers(sessions: OMap<Value, Session>, path: Path, url: Value): OMap<Value, Paper> {
    var session := GetOr(sessions, path.session, Session([]));
    var paper := GetOr(session.papers, path.paper, Paper([]));
    var variant := PutDocVariant(sessions, path);
    var variants' := Put(paper.variants, path.variant, Variant(Put(variant.docTypes, path.docType, url)));
    Put(session.papers, path.paper, Paper(variants'))
  }

  lemma PutDocSession(sessions: OMap<Value, Session>, path: Path, url: Value, s: Value)
    ensures Find(PutDoc(sessions, path, url), s)
      == if s == path.session then Some(Session(PutDocPapers(sessions, path, url))) else Find(sessions, s)
  {
  }

  lemma PutDocOtherPaper(sessions: OMap<Value, Session>, path: Path, url: Value, p: Value, v: Value)
    requires p != path.paper
    ensures FindVariant(PutDoc(sessions, path, url), path.session, p, v) == FindVariant(sessions, path.session, p, v)
  {
    PutDocSession(sessions, path, url, path.session);
    var session := GetOr(sessions, path.session, Session([]));
    assert Find(PutDocPapers(sessions, path, url), p) == Find(session.papers, p);
    if Find(sessions, path.session).None? {
      assert session == Session([]);
    } else {
      assert FindVariant(sessions, path.session, p, v)
        == if Find(session.papers, p).Some? then Find(Find(session.papers, p).value.variants, v) else None;
    }
  }

  lemma PutDocOtherVariant(sessions: OMap<Value, Session>, path: Path, url: Value, v: Value)
    requires v != path.variant
    ensures FindVariant(PutDoc(sessions, path, url), path.session, path.paper, v)
      == FindVariant(sessions, path.session, path.paper, v)
  {
    PutDocSession(sessions, path, url, path.session);
    var session := GetOr(sessions, path.session, Session([]));
    var paper := GetOr(session.papers, path.paper, Paper([]));
    var variant := PutDocVariant(sessions, path);
    var variants' := Put(paper.variants, path.variant, Variant(Put(variant.docTypes, path.docType, url)));
    assert Find(PutDocPapers(sessions, path, url), path.paper) == Some(Paper(variants'));
    assert FindVariant(PutDoc(sessions, path, url), path.session, path.paper, v) == Find(paper.variants, v);
    if Find(sessions, path.session).None? || Find(session.papers, path.paper).None? {
      assert paper == Paper([]);
    } else {
      assert FindVariant(sessions, path.session, path.paper, v) == Find(paper.variants, v);
    }
  }

  /** The variant on `path` afterwards is the one stored into, with the URL
      under the doc type; the one stored into is the existing variant, or
      an empty one when there was none. */
  lemma PutDocOwnVariant(sessions: OMap<Value, Session>, path: Path, url: Value)
    ensures FindVariant(PutDoc(sessions, path, url), path.session, path.paper, path.variant)
      == Some(Variant(Put(PutDocVariant(sessions, path).docTypes, path.docType, url)))
    ensures FindVariant(sessions, path.session, path.paper, path.variant).Some? ==>
      FindVariant(sessions, path.session, path.paper, path.variant) == Some(PutDocVariant(sessions, path))
    ensures FindVariant(sessions, path.session, path.paper, path.variant).None? ==>
      PutDocVariant(sessions, path) == Variant([])
  {
    PutDocSession(sessions, path, url, path.session);
    var session := GetOr(sessions, path.session, Session([]));
    var paper := GetOr(session.papers, path.paper, Paper([]));
    assert Find(sessions, path.session).None? ==> Find(paper.variants, path.variant).None?;
    assert Find(session.papers, path.paper).None? ==> Find(paper.variants, path.variant).None?;
  }

  /** Storing at `path` changes the URL at `path` only (the leaf assignment
      overwrites), and creating the session, paper and variant on the way
      changes nothing already stored. */
  lemma PutDocFindDoc(sessions: OMap<Value, Session>, path: Path, url: Value, q: Path)
    ensures FindDoc(PutDoc(sessions, path, url), q) == if q == path then Some(url) else FindDoc(sessions, q)
  {
    if q.session != path.session {
      PutDocSession(sessions, path, url, q.session);
    } else if q.paper != path.paper {
      PutDocOtherPaper(sessions, path, url, q.paper, q.variant);
    } else if q.variant != path.variant {
      PutDocOtherVariant(sessions, path, url, q.variant);
    } else {
      PutDocOwnVariant(sessions, path, url);
    }
  }

  /** After storing at `path`, the variant on `path` exists, and every
      variant that existed still does. */
  lemma PutDocFindVariant(sessions: OMap<Value, Session>, path: Path, url: Value, s: Value, p: Value, v: Value)
    ensures FindVariant(PutDoc(sessions, path, url), s, p, v).Some?
      <==> (s == path.session && p == path.paper && v == path.variant) || FindVariant(sessions, s, p, v).Some?
  {
    if s != path.session {
      PutDocSession(sessions, path, url, s);
    } else if p != path.paper {
      PutDocOtherPaper(sessions, path, url, p, v);
    } else if v != path.variant {
      PutDocOtherVariant(sessions, path, url, v);
    } else {
      PutDocOwnVariant(sessions, path, url);
    }
  }

  /** Last write wins: the URL stored at a path is the file_url of the last
      row addressed to it, and nothing is stored where no row was addressed. */
  lemma {:induction false} AddRowsLastWins(rows: seq<Record>, path: Path)
    requires AddRows(rows).Ok?
    ensures AllPathed(rows)
    ensures FindDoc(AddRows(rows).value, path) == LastUrl(rows, path)
  {
    AddRowsOk(rows);
    if rows != [] {
      var p, row := rows[..|rows| - 1], rows[|rows| - 1];
      AddRowsStep(rows);
      AllPathedStep(rows);
      AddRowsLastWins(p, path);
      PutDocFindDoc(AddRows(p).value, PathOf(row), UrlOf(row), path);
    }
  }

  lemma ReachesStep(rows: seq<Record>, s: Value, p: Value, v: Value)
    requires rows != []
    ensures Reaches(rows, s, p, v)
      <==> Reaches(rows[..|rows| - 1], s, p, v) || RowReaches(rows[|rows| - 1], s, p, v)
  {
    var prefix := rows[..|rows| - 1];
    if Reaches(prefix, s, p, v) {
      var i :| 0 <= i < |prefix| && RowReaches(prefix[i], s, p, v);
      assert rows[i] == prefix[i];
    }
    if Reaches(rows, s, p, v) {
      var i :| 0 <= i < |rows| && RowReaches(rows[i], s, p, v);
      if i < |rows| - 1 {
        assert prefix[i] == rows[i];
      }
    }
  }

  /** A variant exists exactly when some row reached it, whatever its doc
      type. */
  lemma {:induction false} AddRowsVariants(rows: seq<Record>, s: Value, p: Value, v: Value)
    requires AddRows(rows).Ok?
    ensures AllPathed(rows)
    ensures FindVariant(AddRows(rows).value, s, p, v).Some? <==> Reaches(rows, s, p, v)
  {
    AddRowsOk(rows);
    if rows != [] {
      var prefix, row := rows[..|rows| - 1], rows[|rows| - 1];
      AddRowsStep(rows);
      AllPathedStep(rows);
      AddRowsVariants(prefix, s, p, v);
      PutDocFindVariant(AddRows(prefix).value, PathOf(row), UrlOf(row), s, p, v);
      ReachesStep(rows, s, p, v);
    }
  }

  /** Storing at a path adds its session at the end when it is new and
      otherwise keeps the session order. */
  lemma PutDocKeys(sessions: OMap<Value, Session>, path: Path, url: Value)
    ensures Keys(PutDoc(sessions, path, url))
      == if path.session in Keys(sessions) then Keys(sessions) else Keys(sessions) + [path.session]
  {
    var session := GetOr(sessions, path.session, Session([]));
    var paper := GetOr(session.papers, path.paper, Paper([]));
    var variant := GetOr(paper.variants, path.variant, Variant([]));
    var papers' := Put(session.papers, path.paper,
      Paper(Put(paper.variants, path.variant, Variant(Put(variant.docTypes, path.docType, url)))));
    assert PutDoc(sessions, path, url) == Put(sessions, path.session, Session(papers'));
    PutKeys(sessions, path.session, Session(papers'));
  }

  lemma SessionsOfStep(rows: seq<Record>)
    requires rows != [] && AllPathed(rows)
    ensures SessionsOf(rows) == SessionsOf(rows[..|rows| - 1]) + [PathOf(rows[|rows| - 1]).session]
  {
  }

  /** A subject's sessions are the distinct sessions of its rows in
      first-seen order. */
  lemma {:induction false} AddRowsSessionKeys(rows: seq<Record>)
    requires AddRows(rows).Ok?
    ensures AllPathed(rows)
    ensures Keys(AddRows(rows).value) == Dedup(SessionsOf(rows))
  {
    AddRowsOk(rows);
    if rows != [] {
      var p, row := rows[..|rows| - 1], rows[|rows| - 1];
      AddRowsStep(rows);
      AllPathedStep(rows);
      AddRowsSessionKeys(p);
      PutDocKeys(AddRows(p).value, PathOf(row), UrlOf(row));
      SessionsOfStep(rows);
      assert SessionsOf(rows)[..|rows| - 1] == SessionsOf(p);
    }
  }

  /** PutDoc adds the stored paper to its session's papers when it is new,
      and leaves every other session's papers as they were. */
  lemma PutDocPaperKeys(sessions: OMap<Value, Session>, path: Path, url: Value, s: Value)
    ensures Keys(PapersAt(PutDoc(sessions, path, url), s))
      == if s != path.session || path.paper in Keys(PapersAt(sessions, s)) then Keys(PapersAt(sessions, s))
         else Keys(PapersAt(sessions, s)) + [path.paper]
  {
    PutDocSession(sessions, path, url, s);
    if s == path.session {
      var session := GetOr(sessions, path.session, Session([]));
      var paper := GetOr(session.papers, path.paper, Paper([]));
      var variant := PutDocVariant(sessions, path);
      var variants' := Put(paper.variants, path.variant, Variant(Put(variant.docTypes, path.docType, url)));
      assert PapersAt(PutDoc(sessions, path, url), s) == Put(session.papers, path.paper, Paper(variants'));
      PutKeys(session.papers, path.paper, Paper(variants'));
    }
  }

  /** PutDoc adds the stored variant to its paper's variants when it is new,
      and leaves every other paper's variants as they were. */
  lemma PutDocVariantKeys(sessions: OMap<Value, Session>, path: Path, url: Value, s: Value, p: Value)
    ensures Keys(VariantsAt(PutDoc(sessions, path, url), s, p))
      == if s != path.session || p != path.paper || path.variant in Keys(VariantsAt(sessions, s, p))
         then Keys(VariantsAt(sessions, s, p))
         else Keys(VariantsAt(sessions, s, p)) + [path.variant]
  {
    PutDocSession(sessions, path, url, s);
    if s == path.session {
      var session := GetOr(sessions, path.session, Session([]));
      var paper := GetOr(session.papers, path.paper, Paper([]));
      var variant := PutDocVariant(sessions, path);
      var variant' := Variant(Put(variant.docTypes, path.docType, url));
      var variants' := Put(paper.variants, path.variant, variant');
      assert PapersAt(PutDoc(sessions, path, url), s) == Put(session.papers, path.paper, Paper(variants'));
      if p == path.paper {
        assert VariantsAt(sessions, s, p) == paper.variants;
        PutKeys(paper.variants, path.variant, variant');
      } else {
        assert Find(PapersAt(PutDoc(sessions, path, url), s), p) == Find(session.papers, p);
      }
    }
  }

  /** One more row adds its paper to the first-seen papers of its session
      when the paper is new there. */
  lemma PapersOfStep(rows: seq<Record>, s: Value)
    requires rows != [] && HasPath(rows[|rows| - 1])
    ensures
      var prefix, path := PapersOf(rows[..|rows| - 1], s), PathOf(rows[|rows| - 1]);
      && (path.paper in Dedup(prefix) <==> path.paper in prefix)
      && Dedup(PapersOf(rows, s))
        == if path.session != s || path.paper in prefix then Dedup(prefix) else Dedup(prefix) + [path.paper]
  {
    var prefix, path := PapersOf(rows[..|rows| - 1], s), PathOf(rows[|rows| - 1]);
    DedupAppend(prefix, path.paper);
    if path.session == s {
      assert PapersOf(rows, s) == prefix + [path.paper];
    } else {
      assert PapersOf(rows, s) == prefix + [];
      assert prefix + [] == prefix;
    }
  }

  /** One more row adds its variant to the first-seen variants of its paper
      when the variant is new there. */
  lemma VariantsOfStep(rows: seq<Record>, s: Value, p: Value)
    requires rows != [] && HasPath(rows[|rows| - 1])
    ensures
      var prefix, path := VariantsOf(rows[..|rows| - 1], s, p), PathOf(rows[|rows| - 1]);
      && (path.variant in Dedup(prefix) <==> path.variant in prefix)
      && Dedup(VariantsOf(rows, s, p))
        == if path.session != s || path.paper != p || path.variant in prefix then Dedup(prefix)
           else Dedup(prefix) + [path.variant]
  {
    var prefix, path := VariantsOf(rows[..|rows| - 1], s, p), PathOf(rows[|rows| - 1]);
    DedupAppend(prefix, path.variant);
    if path.session == s && path.paper == p {
      assert VariantsOf(rows, s, p) == prefix + [path.variant];
    } else {
      assert VariantsOf(rows, s, p) == prefix + [];
      assert prefix + [] == prefix;
    }
  }

  /** A session's papers are the distinct papers of its rows, in the order
      each first appears; a session no row reaches has none. */
  lemma {:induction false} AddRowsPaperKeys(rows: seq<Record>, s: Value)
    requires AddRows(rows).Ok?
    ensures Keys(PapersAt(AddRows(rows).value, s)) == Dedup(PapersOf(rows, s))
  {
    if rows == [] {
      assert PapersAt([], s) == [];
    } else {
      var prefix, row := rows[..|rows| - 1], rows[|rows| - 1];
      AddRowsStep(rows);
      var before := AddRows(prefix).value;
      assert AddRows(rows).value == PutDoc(before, PathOf(row), UrlOf(row));
      AddRowsPaperKeys(prefix, s);
      PutDocPaperKeys(before, PathOf(row), UrlOf(row), s);
      PapersOfStep(rows, s);
    }
  }

  /** A paper's variants are the distinct variants of its rows, in the order
      each first appears; a paper no row reaches has none. */
  lemma {:induction false} AddRowsVariantKeys(rows: seq<Record>, s: Value, p: Value)
    requires AddRows(rows).Ok?
    ensures Keys(VariantsAt(AddRows(rows).value, s, p)) == Dedup(VariantsOf(rows, s, p))
  {
    if rows == [] {
      assert PapersAt([], s) == [] && VariantsAt([], s, p) == [];
    } else {
      var prefix, row := rows[..|rows| - 1], rows[|rows| - 1];
      AddRowsStep(rows);
      var before := AddRows(prefix).value;
      assert AddRows(rows).value == PutDoc(before, PathOf(row), UrlOf(row));
      AddRowsVariantKeys(prefix, s, p);
      PutDocVariantKeys(before, PathOf(row), UrlOf(row), s, p);
      VariantsOfStep(rows, s, p);
    }
  }

  /** A value taken from a well-formed dictionary, or a fresh empty node, is
      well formed. */
  lemma GetOrSessionWellFormed(sessions: OMap<Value, Session>, s: Value)
    requires SessionsWellFormed(sessions)
    ensures SessionWellFormed(GetOr(sessions, s, Session([])))
  {
    if Find(sessions, s).Some? {
      var i :| 0 <= i < |sessions| && sessions[i] == (s, Find(sessions, s).value);
    }
  }

  lemma GetOrPaperWellFormed(session: Session, p: Value)
    requires SessionWellFormed(session)
    ensures PaperWellFormed(GetOr(session.papers, p, Paper([])))
  {
    if Find(session.papers, p).Some? {
      var i :| 0 <= i < |session.papers| && session.papers[i] == (p, Find(session.papers, p).value);
    }
  }

  lemma GetOrVariantDistinct(paper: Paper, v: Value)
    requires PaperWellFormed(paper)
    ensures DistinctKeys(GetOr(paper.variants, v, Variant([])).docTypes)
  {
    if Find(paper.variants, v).Some? {
      var i :| 0 <= i < |paper.variants| && paper.variants[i] == (v, Find(paper.variants, v).value);
    }
  }

  lemma PutVariantWellFormed(paper: Paper, v: Value, docTypes: OMap<Value, Value>)
    requires PaperWellFormed(paper) && DistinctKeys(docTypes)
    ensures PaperWellFormed(Paper(Put(paper.variants, v, Variant(docTypes))))
  {
    PutDistinct(paper.variants, v, Variant(docTypes));
    PutEntries(paper.variants, v, Variant(docTypes));
  }

  lemma PutPaperWellFormed(session: Session, p: Value, paper: Paper)
    requires SessionWellFormed(session) && PaperWellFormed(paper)
    ensures SessionWellFormed(Session(Put(session.papers, p, paper)))
  {
    PutDistinct(session.papers, p, paper);
    PutEntries(session.papers, p, paper);
  }

  lemma PutSessionWellFormed(sessions: OMap<Value, Session>, s: Value, session: Session)
    requires SessionsWellFormed(sessions) && SessionWellFormed(session)
    ensures SessionsWellFormed(Put(sessions, s, session))
  {
    PutDistinct(sessions, s, session);
    PutEntries(sessions, s, session);
  }

  /** Storing a URL keeps every dictionary's keys unique. */
  lemma PutDocWellFormed(sessions: OMap<Value, Session>, path: Path, url: Value)
    requires SessionsWellFormed(sessions)
    ensures SessionsWellFormed(PutDoc(sessions, path, url))
  {
    var session := GetOr(sessions, path.session, Session([]));
    GetOrSessionWellFormed(sessions, path.session);
    var paper := GetOr(session.papers, path.paper, Paper([]));
    GetOrPaperWellFormed(session, path.paper);
    var variant := GetOr(paper.variants, path.variant, Variant([]));
    GetOrVariantDistinct(paper, path.variant);
    var docTypes' := Put(variant.docTypes, path.docType, url);
    PutDistinct(variant.docTypes, path.docType, url);
    PutVariantWellFormed(paper, path.variant, docTypes');
    var paper' := Paper(Put(paper.variants, path.variant, Variant(docTypes')));
    PutPaperWellFormed(session, path.paper, paper');
    var session' := Session(Put(session.papers, path.paper, paper'));
    PutSessionWellFormed(sessions, path.session, session');
    assert PutDoc(sessions, path, url) == Put(sessions, path.session, session');
  }

  /** The sessions built for a subject have unique keys at every level. */
  lemma {:induction false} AddRowsWellFormed(rows: seq<Record>)
    requires AddRows(rows).Ok?
    ensures SessionsWellFormed(AddRows(rows).value)
  {
    if rows != [] {
      var p, row := rows[..|rows| - 1], rows[|rows| - 1];
      AddRowsStep(rows);
      AddRowsWellFormed(p);
      PutDocWellFormed(AddRows(p).value, PathOf(row), UrlOf(row));
    }
  }

  /** Once the subject loop has raised, the groups after it change nothing. */
  lemma {:induction false} BuildSubjectsPrefixFailure(groups: Groups, n: nat)
    requires n <= |groups| && BuildSubjects(groups[..n]).Err?
    ensures BuildSubjects(groups) == BuildSubjects(groups[..n])
    decreases |groups|
  {
    if n < |groups| {
      var p := groups[..|groups| - 1];
      assert p[..n] == groups[..n];
      BuildSubjectsPrefixFailure(p, n);
    } else {
      assert groups[..n] == groups;
    }
  }

  lemma BuildSubjectsStep(groups: Groups)
    requires groups != []
    ensures BuildSubjects(groups).Ok?
      <==> BuildSubjects(groups[..|groups| - 1]).Ok? && AddRows(groups[|groups| - 1].1).Ok?
    ensures BuildSubjects(groups).Ok? ==>
      var group := groups[|groups| - 1];
      BuildSubjects(groups).value
        == BuildSubjects(groups[..|groups| - 1]).value + [BuildSubject(group.0, group.1).value]
  {
    var group := groups[|groups| - 1];
    assert BuildSubject(group.0, group.1).Ok? <==> AddRows(group.1).Ok?;
  }

  /** One subject per group, in the groups' order, each built from its own
      group alone. */
  lemma {:induction false} BuildSubjectsAt(groups: Groups)
    requires BuildSubjects(groups).Ok?
    ensures |BuildSubjects(groups).value| == |groups|
    ensures forall i :: 0 <= i < |groups| ==>
      BuildSubject(groups[i].0, groups[i].1) == Ok(BuildSubjects(groups).value[i])
  {
    if groups != [] {
      var p := groups[..|groups| - 1];
      BuildSubjectsStep(groups);
      BuildSubjectsAt(p);
      assert forall i :: 0 <= i < |p| ==> groups[i] == p[i];
    }
  }

  /** The subject loop completes exactly when every group's rows build. */
  lemma {:induction false} BuildSubjectsOk(groups: Groups)
    ensures BuildSubjects(groups).Ok? <==> EveryGroupBuilds(groups)
  {
    if groups != [] {
      BuildSubjectsStep(groups);
      BuildSubjectsOk(groups[..|groups| - 1]);
      EveryGroupBuildsStep(groups);
    }
  }

  /** Every group's rows build without a KeyError. */
  ghost predicate EveryGroupBuilds(groups: Groups) {
    forall i :: 0 <= i < |groups| ==> AddRows(groups[i].1).Ok?
  }

  lemma EveryGroupBuildsStep(groups: Groups)
    requires groups != []
    ensures EveryGroupBuilds(groups)
      <==> EveryGroupBuilds(groups[..|groups| - 1]) && AddRows(groups[|groups| - 1].1).Ok?
  {
    var p := groups[..|groups| - 1];
    assert forall i :: 0 <= i < |p| ==> groups[i] == p[i];
  }

  /** A raised KeyError is the one raised by some group's rows. */
  lemma {:induction false} BuildSubjectsError(groups: Groups)
    requires BuildSubjects(groups).Err?
    ensures exists i :: 0 <= i < |groups| && AddRows(groups[i].1) == Err(BuildSubjects(groups).error)
  {
    var p := groups[..|groups| - 1];
    BuildSubjectsStep(groups);
    if BuildSubjects(p).Err? {
      BuildSubjectsError(p);
      var i :| 0 <= i < |p| && AddRows(p[i].1) == Err(BuildSubjects(p).error);
      assert groups[i] == p[i];
    } else {
      assert AddRows(groups[|groups| - 1].1) == Err(BuildSubjects(groups).error);
    }
  }
}
