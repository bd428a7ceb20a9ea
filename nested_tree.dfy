/** The nested document the transform returns:
    subjects -> sessions -> papers -> variants -> doc_types -> URL. */
module NestedTree {
  import opened Wrappers
  import opened Distinct
  import opened OrderedMap
  import opened PaperRecords

  datatype Variant = Variant(docTypes: OMap<Value, Value>)
  datatype Paper = Paper(variants: OMap<Value, Variant>)
  datatype Session = Session(papers: OMap<Value, Paper>)
  datatype Subject = Subject(subjectName: Value, subjectCode: Value, year: Value,
                             sessions: OMap<Value, Session>)
  /** `{"subjects": [...]}`. */
  datatype Tree = Tree(subjects: seq<Subject>)

  /** The grouping triple a subject was built from. */
  function KeyOfSubject(subject: Subject): SubjectKey {
    (subject.subjectCode, subject.subjectName, subject.year)
  }

  function SubjectKeys(subjects: seq<Subject>): seq<SubjectKey> {
    seq(|subjects|, i requires 0 <= i < |subjects| => KeyOfSubject(subjects[i]))
  }

  /** The papers of session `s`; none when the session is absent. */
  function PapersAt(sessions: OMap<Value, Session>, s: Value): OMap<Value, Paper> {
    GetOr(sessions, s, Session([])).papers
  }

  /** The variants of paper `p` in session `s`; none when either is absent. */
  function VariantsAt(sessions: OMap<Value, Session>, s: Value, p: Value): OMap<Value, Variant> {
    GetOr(PapersAt(sessions, s), p, Paper([])).variants
  }

  /** `sessions[s]["papers"][p]["variants"][v]`, None when a level is absent. */
  function FindVariant(sessions: OMap<Value, Session>, s: Value, p: Value, v: Value): Option<Variant> {
    match Find(sessions, s)
    case None => None
    case Some(session) =>
      match Find(session.papers, p)
      case None => None
      case Some(paper) => Find(paper.variants, v)
  }

  /** The URL stored at `path`, None when some level is absent. */
  function FindDoc(sessions: OMap<Value, Session>, path: Path): Option<Value> {
    match FindVariant(sessions, path.session, path.paper, path.variant)
    case None => None
    case Some(variant) => Find(variant.docTypes, path.docType)
  }

  // Every dictionary of the tree has unique keys, at every level.

  ghost predicate PaperWellFormed(paper: Paper) {
    && DistinctKeys(paper.variants)
    && forall i :: 0 <= i < |paper.variants| ==> DistinctKeys(paper.variants[i].1.docTypes)
  }

  ghost predicate SessionWellFormed(session: Session) {
    && DistinctKeys(session.papers)
    && forall i :: 0 <= i < |session.papers| ==> PaperWellFormed(session.papers[i].1)
  }

  ghost predicate SessionsWellFormed(sessions: OMap<Value, Session>) {
    && DistinctKeys(sessions)
    && forall i :: 0 <= i < |sessions| ==> SessionWellFormed(sessions[i].1)
  }

  ghost predicate WellFormed(tree: Tree) {
    && NoDup(SubjectKeys(tree.subjects))
    && forall i :: 0 <= i < |tree.subjects| ==> SessionsWellFormed(tree.subjects[i].sessions)
  }
}
