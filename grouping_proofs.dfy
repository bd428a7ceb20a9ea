/** Properties of step 1, the grouping of rows by (subject_code,
    subject_name, year). */
module GroupingProofs {
  import opened Wrappers
  import opened Distinct
  import opened OrderedMap
  import opened PaperRecords
  import opened Nesting

  /** Once the grouping loop has raised, the rows after it change nothing. */
  lemma {:induction false} GroupRowsPrefixFailure(rows: seq<Record>, n: nat)
    requires n <= |rows| && GroupRows(rows[..n]).Err?
    ensures GroupRows(rows) == GroupRows(rows[..n])
    decreases |rows|
  {
    if n < |rows| {
      var p := rows[..|rows| - 1];
      assert p[..n] == rows[..n];
      GroupRowsPrefixFailure(p, n);
    } else {
      assert rows[..n] == rows;
    }
  }

  /** One iteration of the grouping loop: append the row to its key's list,
      creating the list when the key is new. */
  lemma GroupRowsStep(rows: seq<Record>)
    requires rows != []
    ensures GroupRows(rows).Ok? <==> GroupRows(rows[..|rows| - 1]).Ok? && HasSubjectKey(rows[|rows| - 1])
    ensures GroupRows(rows).Ok? ==>
      var g := GroupRows(rows[..|rows| - 1]).value;
      var row := rows[|rows| - 1];
      GroupRows(rows).value == Put(g, SubjectKeyOf(row), GetOr(g, SubjectKeyOf(row), []) + [row])
  {
  }

  lemma AllKeyedStep(rows: seq<Record>)
    requires rows != []
    ensures AllKeyed(rows) <==> AllKeyed(rows[..|rows| - 1]) && HasSubjectKey(rows[|rows| - 1])
  {
  }

  /** The grouping loop completes exactly when every row has all three key
      fields. */
  lemma {:induction false} GroupRowsOk(rows: seq<Record>)
    ensures GroupRows(rows).Ok? <==> AllKeyed(rows)
  {
    if rows != [] {
      GroupRowsOk(rows[..|rows| - 1]);
      GroupRowsStep(rows);
      AllKeyedStep(rows);
    }
  }

  /** A raised KeyError names a key field that some row lacks. */
  lemma {:induction false} GroupRowsError(rows: seq<Record>)
    requires GroupRows(rows).Err?
    ensures GroupRows(rows).error.key in GroupFields
    ensures exists i :: 0 <= i < |rows| && GroupRows(rows).error.key !in rows[i]
  {
    var p := rows[..|rows| - 1];
    if GroupRows(p).Err? {
      GroupRowsError(p);
      var i :| 0 <= i < |p| && GroupRows(p).error.key !in p[i];
      assert rows[i] == p[i];
    } else {
      assert GroupRows(rows).error.key !in rows[|rows| - 1];
    }
  }

  lemma SubjectKeysOfStep(rows: seq<Record>)
    requires rows != [] && AllKeyed(rows)
    ensures SubjectKeysOf(rows) == SubjectKeysOf(rows[..|rows| - 1]) + [SubjectKeyOf(rows[|rows| - 1])]
  {
  }

  lemma {:induction false} RowsOfAbsent(rows: seq<Record>, key: SubjectKey)
    requires AllKeyed(rows) && key !in SubjectKeysOf(rows)
    ensures RowsOf(rows, key) == []
  {
    if rows != [] {
      SubjectKeysOfStep(rows);
      RowsOfAbsent(rows[..|rows| - 1], key);
    }
  }

  /** RowsOf keeps exactly the rows with the given key. */
  lemma {:induction false} RowsOfMember(rows: seq<Record>, key: SubjectKey, row: Record)
    ensures row in RowsOf(rows, key) <==> row in rows && HasSubjectKey(row) && SubjectKeyOf(row) == key
  {
    if rows != [] {
      var p := rows[..|rows| - 1];
      assert rows == p + [rows[|rows| - 1]];
      RowsOfMember(p, key, row);
    }
  }

  /** The groups are the distinct keys in first-seen order. */
  lemma {:induction false} GroupRowsKeys(rows: seq<Record>)
    requires GroupRows(rows).Ok?
    ensures AllKeyed(rows)
    ensures DistinctKeys(GroupRows(rows).value)
    ensures Keys(GroupRows(rows).value) == Dedup(SubjectKeysOf(rows))
  {
    GroupRowsOk(rows);
    if rows != [] {
      var p, row := rows[..|rows| - 1], rows[|rows| - 1];
      GroupRowsStep(rows);
      AllKeyedStep(rows);
      GroupRowsKeys(p);
      var g0 := GroupRows(p).value;
      var key := SubjectKeyOf(row);
      SubjectKeysOfStep(rows);
      assert SubjectKeysOf(rows)[..|rows| - 1] == SubjectKeysOf(p);
      PutKeys(g0, key, GetOr(g0, key, []) + [row]);
      PutDistinct(g0, key, GetOr(g0, key, []) + [row]);
    }
  }

  /** Each group holds the rows with its key, in their original order. */
  lemma {:induction false} GroupRowsFind(rows: seq<Record>, key: SubjectKey)
    requires GroupRows(rows).Ok?
    ensures AllKeyed(rows)
    ensures Find(GroupRows(rows).value, key)
      == if key in SubjectKeysOf(rows) then Some(RowsOf(rows, key)) else None
  {
    GroupRowsOk(rows);
    if rows != [] {
      var p, row := rows[..|rows| - 1], rows[|rows| - 1];
      GroupRowsStep(rows);
      AllKeyedStep(rows);
      GroupRowsFind(p, key);
      SubjectKeysOfStep(rows);
      var g0 := GroupRows(p).value;
      var k0 := SubjectKeyOf(row);
      var g := GroupRows(rows).value;
      assert g == Put(g0, k0, GetOr(g0, k0, []) + [row]);
      assert key in SubjectKeysOf(rows) <==> key in SubjectKeysOf(p) || key == k0;
      assert RowsOf(rows, key) == RowsOf(p, key) + if k0 == key then [row] else [];
      if key == k0 {
        assert Find(g, key) == Some(GetOr(g0, k0, []) + [row]);
        if k0 !in SubjectKeysOf(p) {
          RowsOfAbsent(p, k0);
        }
        assert Find(g, key) == Some(RowsOf(rows, key));
      } else {
        assert RowsOf(rows, key) == RowsOf(p, key);
      }
    } else {
      assert Find(GroupRows(rows).value, key) == None;
    }
  }
}
