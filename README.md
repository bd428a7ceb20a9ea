# Past-papers nesting transform

This project models `transform_to_nested` from `papers/views.py` of the past-papers API.
The function takes the flat rows of the past-papers table. Each row is a dictionary with `subject_code`, `subject_name`, `year`, `session`, `paper`, `variant`, `doc_type` and `file_url`. The function builds the nested tree the API returns:

```
{"subjects": [{subject_name, subject_code, year,
               sessions: {session: {papers: {paper: {variants: {variant: {doc_types: {doc_type: url}}}}}}}}]}
```

The source does this in three passes:

1. It groups the rows by `(subject_code, subject_name, year)`, with groups in the order each triple is first seen.
2. It builds one subject per group. It walks the group's rows, inserts the session, paper and variant nodes on the row's path when they are missing, and stores the URL under the row's doc type. A later row overwrites an earlier one on the same path.
3. It rebuilds every variant's `doc_types` with `"qp"` first and `"ms"` second. Only the ones present are kept, and all other doc types are dropped.

A row that lacks a field raises `KeyError`, and the whole transform fails.

Layout:

- `wrappers.dfy` (`Wrappers`): `Option` and `Result`.
- `distinct.dfy` (`Distinct`): duplicate-free sequences, first occurrence, and first-seen de-duplication (`Dedup`).
- `ordered_map.dfy` (`OrderedMap`): a Python `dict` as an insertion-ordered association list.
  - `Put` is `d[k] = v`: it replaces a present key in place and appends a new one.
  - `Find` and `GetOr` are `d[k]` / `d.get(k, default)`.
  - `Ensure` is `if k not in d: d[k] = default`.
  - `MapValues` rebuilds every value and keeps the keys.
- `paper_records.dfy` (`PaperRecords`): rows, column values, `KeyError`, and the two groups of field reads.
- `nested_tree.dfy` (`NestedTree`): subjects, sessions, papers, variants and doc types, with lookups (`FindVariant`, `FindDoc`, and `PapersAt`/`VariantsAt`, which give an empty dictionary for an absent node) and the well-formedness predicate (unique keys at every level).
- `nesting.dfy` (`Nesting`): the transform as functions, one per pass (`GroupRows`, `AddRows`/`BuildSubjects`, `SortDocTypes` and the `Sort*` maps). It also holds the reference definitions the properties are stated with: `SubjectKeysOf`, `RowsOf`, `SessionsOf`, `PapersOf`, `VariantsOf`, `LastUrl` and `Reaches`.
- `views.dfy` (`Views`): `transform_to_nested` as its loops. Each loop is proved to compute the corresponding function of `Nesting`.
- `grouping_proofs.dfy`, `building_proofs.dfy`, `sorting_proofs.dfy`, `transform_proofs.dfy`: properties of each pass and of the whole transform.

Column values are `Str`, `Int` or `Null`. The transform never looks inside a value: it only compares values and uses them as dictionary keys.

How the code reports a missing field:

- The transform reads eight fields of each row.
- A missing field raises a `KeyError` that names the key, with no row position.
- The first missing field found is the one reported. The grouping pass reads `subject_code`, `subject_name` and `year` for every row in input order. Only after that does the build pass read `session`, `paper`, `variant`, `doc_type` and `file_url`, group by group.

## Model

| member | source | states |
|---|---|---|
| Views.TransformToNested | papers/views.py:9-72 | The three loops compute `Transform(rows)`. That is the tree when every row has its fields, and the first `KeyError` the loops raise otherwise. |
| Views.BuildSessions | papers/views.py:35-55 | The per-row loop of step 3 (get-or-insert session, paper and variant, then store the URL) computes `AddRows(rows)`, including the error case. |
| Views.SortEverySubject | papers/views.py:59-70 | The final pass over all subjects equals `SortSubjects`, which rebuilds every variant. |
| Views.SortEverySession | papers/views.py:60-70 | The pass over one subject's sessions equals `MapValues(sessions, SortSession)`. |
| Views.SortEveryPaper | papers/views.py:61-70 | The pass over one session's papers equals `MapValues(papers, SortPaper)`. |
| Views.SortEveryVariant | papers/views.py:62-70 | The pass over one paper's variants equals `MapValues(variants, SortVariant)`. |
| Views.SortDocs | papers/views.py:64-70 | The `sorted_docs` built by the two `if`s equals `SortDocTypes(doc_types)`. |
| Nesting.SortDocTypes | papers/views.py:63-70 | The filtered doc_types hold keys `[]`, `["qp"]`, `["ms"]` or `["qp","ms"]`, in that order. `"qp"` and `"ms"` keep their URLs; every other doc type is absent. |
| PaperRecords.LookupSubjectKey | papers/views.py:17 | Fails exactly when one of `subject_code`, `subject_name`, `year` is missing, naming a missing one. Otherwise it yields the row's triple. |
| PaperRecords.LookupPath | papers/views.py:36-40 | Fails exactly when one of `session`, `paper`, `variant`, `doc_type`, `file_url` is missing, naming a missing one. Otherwise it yields the row's path and URL. |
| OrderedMap.Put | papers/views.py:20 | `d[k] = v` makes `d[k]` be `v` and leaves every other key's entry as it was. |
| OrderedMap.PutKeys | papers/views.py:20 | Assignment keeps the key order: a present key stays in place and a new key is appended last. |
| OrderedMap.PutDistinct | papers/views.py:20 | Assignment never duplicates a key. |
| OrderedMap.PutPut | papers/views.py:19-22 | Assigning a key twice is the same as assigning it once, with the second value. |
| OrderedMap.Ensure | papers/views.py:43-52 | Get-or-insert leaves an existing entry untouched and otherwise inserts the default. Afterwards `d[k]` is `d.get(k, default)`, and other keys are unchanged. |
| OrderedMap.EnsurePut | papers/views.py:43-55 | Writing into a node obtained by get-or-insert is the same as writing the updated node directly. |
| OrderedMap.MapValuesFind | papers/views.py:59-70 | Rebuilding every value keeps the key set: each key finds the rebuilt value of its old entry. |
| OrderedMap.MapValuesKeys | papers/views.py:59-70 | Rebuilding every value keeps the keys and their order. |
| Distinct.Dedup | papers/views.py:15-22 | First-seen de-duplication has no repeats, contains exactly the elements of its input, and is no longer than its input. |
| Distinct.DedupFirstSeen | papers/views.py:15-22 | De-duplication lists the elements in the order of their first occurrence. |
| GroupingProofs.GroupRowsOk | papers/views.py:15-22 | Grouping succeeds exactly when every row has the three grouping fields. |
| GroupingProofs.GroupRowsError | papers/views.py:17 | A grouping failure names a grouping field that some row lacks. |
| GroupingProofs.GroupRowsKeys | papers/views.py:15-22 | The group keys are unique and are the rows' triples in first-seen order. |
| GroupingProofs.GroupRowsFind | papers/views.py:19-22 | Each triple's group holds exactly the rows carrying that triple, in input order. A triple of no row has no group. |
| GroupingProofs.RowsOfMember | papers/views.py:19-22 | A row is in a triple's group list exactly when it is an input row carrying that triple. |
| BuildingProofs.AddRowsOk | papers/views.py:35-55 | Building a subject succeeds exactly when each of its rows has the five path fields. |
| BuildingProofs.AddRowsError | papers/views.py:36-40 | A build failure names a path field that some row lacks. |
| BuildingProofs.PutDocFindDoc | papers/views.py:42-55 | Storing a URL at a path makes that path hold the URL and changes no other path. |
| BuildingProofs.PutDocFindVariant | papers/views.py:42-55 | After a store, a variant exists exactly when it existed before or is the variant on the stored path. |
| BuildingProofs.AddRowsLastWins | papers/views.py:35-55 | The URL at each path is the `file_url` of the last row addressed to it. |
| BuildingProofs.AddRowsVariants | papers/views.py:42-52 | A variant exists exactly when some row's path reaches it. |
| BuildingProofs.AddRowsSessionKeys | papers/views.py:42-44 | The sessions are the rows' distinct sessions, in first-seen order. |
| BuildingProofs.PutDocPaperKeys | papers/views.py:46-48 | Storing a row appends its paper to its session's papers when the paper is new there, and otherwise keeps them. Every other session's papers keep their keys and order. |
| BuildingProofs.PutDocVariantKeys | papers/views.py:50-52 | Storing a row appends its variant to its paper's variants when the variant is new there, and otherwise keeps them. Every other paper's variants keep their keys and order. |
| BuildingProofs.AddRowsPaperKeys | papers/views.py:35-48 | A session's papers are the distinct papers of the rows in that session, in first-seen order. A session no row reaches has none. |
| BuildingProofs.AddRowsVariantKeys | papers/views.py:35-52 | A paper's variants are the distinct variants of the rows on that paper, in first-seen order. A paper no row reaches has none. |
| BuildingProofs.AddRowsWellFormed | papers/views.py:42-55 | Every dictionary built has unique keys. |
| BuildingProofs.BuildSubjectsAt | papers/views.py:25-57 | Step 2 yields one subject per group, in group order, and subject `i` is built from group `i`. |
| BuildingProofs.BuildSubjectsOk | papers/views.py:25-57 | Step 2 succeeds exactly when every group's rows build. |
| BuildingProofs.BuildSubjectsError | papers/views.py:25-57 | A step 2 failure is the failure of some group's build. |
| SortingProofs.SortedFindVariant | papers/views.py:59-70 | The final pass keeps every session, paper and variant and replaces only its doc_types by the filtered ones. |
| SortingProofs.SortedFindDoc | papers/views.py:63-70 | After the final pass, a path with doc type `"qp"` or `"ms"` holds its old URL, and any other path holds none. |
| SortingProofs.SortedWellFormed | papers/views.py:59-70 | The final pass keeps every level's keys unique. |
| SortingProofs.SortedPapersAt | papers/views.py:59-70 | The final pass keeps each session's paper keys in their order, and turns each paper into its rebuilt form. |
| SortingProofs.SortedVariantsAt | papers/views.py:59-70 | The final pass keeps each paper's variant keys in their order, and turns each variant into its rebuilt form. |
| TransformProofs.TransformEmpty | papers/views.py:9-72 | No rows give `{"subjects": []}`. |
| TransformProofs.TransformOk | papers/views.py:15-40 | The transform returns a tree exactly when every row has all eight fields. |
| TransformProofs.TransformError | papers/views.py:15-40 | A failed transform names one of the eight fields, and some row lacks it. No partial tree is returned. |
| TransformProofs.GroupAt | papers/views.py:15-22 | Group `i` is keyed by a triple of the input and holds exactly that triple's rows. |
| TransformProofs.GroupOfRow | papers/views.py:15-22 | Every row lands in the group of its own triple. |
| TransformProofs.SubjectAt | papers/views.py:25-70 | Subject `i` carries group `i`'s triple, and its sessions are that group's built sessions after the final pass. |
| TransformProofs.TransformSubjects | papers/views.py:15-57 | The subjects' (code, name, year) are the input's distinct triples, each exactly once, in first-seen order. So there are never more subjects than rows. |
| TransformProofs.SubjectRows | papers/views.py:25-57 | A subject's sessions are built from exactly the rows carrying its triple, in input order. |
| TransformProofs.TransformLastWins | papers/views.py:55-70 | At any path of a subject, the URL is that of the last row of the subject addressed there when the doc type is `"qp"` or `"ms"`, and there is none otherwise. |
| TransformProofs.TransformVariants | papers/views.py:42-70 | A subject has a variant exactly where one of its rows reached. Every variant's doc_types keys are an order-preserving subsequence of `["qp","ms"]`. |
| TransformProofs.TransformEmptyVariant | papers/views.py:51-70 | A variant reached only by rows of other doc types stays in the tree with empty doc_types. |
| TransformProofs.TransformSessions | papers/views.py:42-44 | A subject's sessions are the distinct sessions of its rows, in first-seen order. |
| TransformProofs.TransformPapers | papers/views.py:46-70 | Within a subject's session, the papers are the distinct papers of the subject's rows in that session, in first-seen order. The final pass does not reorder them. |
| TransformProofs.TransformVariantKeys | papers/views.py:50-70 | Within a subject's paper, the variants are the distinct variants of the subject's rows on that paper, in first-seen order. The final pass does not reorder them. |
| TransformProofs.TransformWellFormed | papers/views.py:9-72 | The subjects' triples are unique, and every dictionary in the tree has unique keys. |
| TransformProofs.TransformExample | papers/views.py:9-72 | Rows for `0580`/`Math`/`2021`, session `May`, paper `1`, variant `2`, with doc types `notes`, `ms` and `qp`, give one subject whose variant's doc_types are `{"qp": "u1", "ms": "u2"}`. |

## Left out

- `get_papers` (papers/views.py:82-96): the HTTP handler, the database query, the 404 on an empty result and the 500 on an exception. These are I/O around the transform.
- The environment and database client setup (papers/views.py:74-79): process configuration and the network.
- `papers/urls.py` (routing) and the JSON serialisation of the result: framework code.
- Aliasing of the nested dictionaries. The source updates a node through the dictionary that holds it. The model handles nodes as values: it reads a node, updates it, and stores it back into its parent (`Views.BuildSessions`). `OrderedMap.EnsurePut` proves that a get-or-insert followed by this write-back equals a single assignment to the parent. The model does not prove that this matches the source's update through shared references. That match rests on each node being created fresh (papers/views.py:44, 48 and 52) and held by exactly one parent, which is argued here but not proved.
- In-place replacement of `variant["doc_types"]` during the final pass. The model rebuilds each variant's entry in its parent dictionary, which keeps the same keys in the same order.
- Python's equality of mixed-type keys (`1 == 1.0 == True` collide as dictionary keys). The model's values are `Str`, `Int` and `Null`, compared structurally. Floats and booleans in the table are not modelled.
- PaperRecords.LookupSubjectKey: the contract names some missing grouping field rather than pinning which one is reported first. The body reads the fields in the source's order, so the first one is what is returned.
- PaperRecords.LookupPath: the same as `LookupSubjectKey`, for the five path fields.
- TransformProofs.TransformError: states that the reported field is missing from some row, not that the row is the first failing one. The order in which failures are found is fixed by `Views.TransformToNested` being equal to `Transform`.
- Idempotence and determinism are not separate lemmas: `Transform` is a function, so equal inputs give equal trees.
