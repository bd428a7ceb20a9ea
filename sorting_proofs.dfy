/** Properties of the second pass, which rebuilds every variant's doc_types
    to hold only "qp" and then "ms". */
module SortingProofs {
  import opened Wrappers
  import opened Distinct
  import opened OrderedMap
  import opened PaperRecords
  import opened NestedTree
  import opened Nesting

  lemma SortedSessionFind(sessions: OMap<Value, Session>, s: Value)
    ensures Find(MapValues(sessions, SortSession), s)
      == if Find(sessions, s).Some? then Some(SortSession(Find(sessions, s).value)) else None
  {
    MapValuesFind(sessions, SortSession, s);
  }

  lemma SortedPaperFind(session: Session, p: Value)
    ensures Find(SortSession(session).papers, p)
      == if Find(session.papers, p).Some? then Some(SortPaper(Find(session.papers, p).value)) else None
  {
    MapValuesFind(session.papers, SortPaper, p);
  }

  lemma SortedVariantFind(paper: Paper, v: Value)
    ensures Find(SortPaper(paper).variants, v)
      == if Find(paper.variants, v).Some? then Some(SortVariant(Find(paper.variants, v).value)) else None
  {
    MapValuesFind(paper.variants, SortVariant, v);
  }

  /** The pass keeps each session's papers, in order, rebuilding each one. */
  lemma SortedPapersAt(sessions: OMap<Value, Session>, s: Value)
    ensures PapersAt(MapValues(sessions, SortSession), s) == MapValues(PapersAt(sessions, s), SortPaper)
  {
    SortedSessionFind(sessions, s);
  }

  /** The pass keeps each paper's variants, in order, rebuilding each one. */
  lemma SortedVariantsAt(sessions: OMap<Value, Session>, s: Value, p: Value)
    ensures VariantsAt(MapValues(sessions, SortSession), s, p) == MapValues(VariantsAt(sessions, s, p), SortVariant)
  {
    SortedPapersAt(sessions, s);
    MapValuesFind(PapersAt(sessions, s), SortPaper, p);
  }

  /** Where the session and paper exist, the variant lookup goes through
      the rebuilt paper. */
  lemma SortedFindVariantPresent(sessions: OMap<Value, Session>, s: Value, p: Value, v: Value)
    requires Find(sessions, s).Some? && Find(Find(sessions, s).value.papers, p).Some?
    ensures FindVariant(MapValues(sessions, SortSession), s, p, v)
      == Find(SortPaper(Find(Find(sessions, s).value.papers, p).value).variants, v)
  {
    var session := Find(sessions, s).value;
    SortedSessionFind(sessions, s);
    SortedPaperFind(session, p);
  }

  /** Where the session or the paper is missing, it is missing after the pass too. */
  lemma SortedFindVariantAbsent(sessions: OMap<Value, Session>, s: Value, p: Value, v: Value)
    requires Find(sessions, s).None? || Find(Find(sessions, s).value.papers, p).None?
    ensures FindVariant(MapValues(sessions, SortSession), s, p, v).None?
  {
    SortedSessionFind(sessions, s);
    if Find(sessions, s).Some? {
      SortedPaperFind(Find(sessions, s).value, p);
    }
  }

  /** The pass keeps every session, paper and variant, and turns each
      variant into its sorted form. */
  lemma SortedFindVariant(sessions: OMap<Value, Session>, s: Value, p: Value, v: Value)
    ensures FindVariant(MapValues(sessions, SortSession), s, p, v)
      == if FindVariant(sessions, s, p, v).Some? then Some(SortVariant(FindVariant(sessions, s, p, v).value)) else None
  {
    if Find(sessions, s).None? || Find(Find(sessions, s).value.papers, p).None? {
      SortedFindVariantAbsent(sessions, s, p, v);
    } else {
      var paper := Find(Find(sessions, s).value.papers, p).value;
      SortedFindVariantPresent(sessions, s, p, v);
      SortedVariantFind(paper, v);
    }
  }

  /** After the pass a path holds a URL only under "qp" or "ms", and then the
      same URL as before. */
  lemma SortedFindDoc(sessions: OMap<Value, Session>, path: Path)
    ensures FindDoc(MapValues(sessions, SortSession), path)
      == if path.docType == QP || path.docType == MS then FindDoc(sessions, path) else None
  {
    SortedFindVariant(sessions, path.session, path.paper, path.variant);
  }

  /** A rebuilt paper has unique variant keys, each with unique doc types. */
  lemma SortedPaperWellFormed(paper: Paper)
    requires DistinctKeys(paper.variants)
    ensures PaperWellFormed(SortPaper(paper))
  {
    var r := SortPaper(paper).variants;
    MapValuesKeys(paper.variants, SortVariant);
    forall l | 0 <= l < |r|
      ensures DistinctKeys(r[l].1.docTypes)
    {
      assert r[l].1 == SortVariant(paper.variants[l].1);
      SortedDocsDistinct(paper.variants[l].1.docTypes);
    }
  }

  lemma SortedDocsDistinct(docTypes: OMap<Value, Value>)
    ensures DistinctKeys(SortDocTypes(docTypes))
  {
    assert Keys(SortDocTypes(docTypes)) in {[], [QP], [MS], [QP, MS]};
  }

  lemma SortedSessionWellFormed(session: Session)
    requires SessionWellFormed(session)
    ensures SessionWellFormed(SortSession(session))
  {
    var r := SortSession(session).papers;
    MapValuesKeys(session.papers, SortPaper);
    forall j | 0 <= j < |r|
      ensures PaperWellFormed(r[j].1)
    {
      assert r[j].1 == SortPaper(session.papers[j].1);
      SortedPaperWellFormed(session.papers[j].1);
    }
  }

  /** The pass keeps every dictionary's keys unique. */
  lemma SortedWellFormed(sessions: OMap<Value, Session>)
    requires SessionsWellFormed(sessions)
    ensures SessionsWellFormed(MapValues(sessions, SortSession))
  {
    var r := MapValues(sessions, SortSession);
    MapValuesKeys(sessions, SortSession);
    forall i | 0 <= i < |r|
      ensures SessionWellFormed(r[i].1)
    {
      SortedSessionWellFormed(sessions[i].1);
    }
  }
}
