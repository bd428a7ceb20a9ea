/** Python's insertion-ordered dict as an association list: a sequence of
    key/value pairs whose keys are kept distinct by every operation. */
module OrderedMap {
  import opened Wrappers
  import opened Distinct

  type OMap<K, V> = seq<(K, V)>

  /** The keys in iteration (insertion) order. */
  function Keys<K, V>(m: OMap<K, V>): (ks: seq<K>)
    ensures |ks| == |m|
    ensures forall i :: 0 <= i < |m| ==> ks[i] == m[i].0
  {
    if m == [] then [] else [m[0].0] + Keys(m[1..])
  }

  /** Every key occurs once, as in a dict. */
  ghost predicate DistinctKeys<K, V>(m: OMap<K, V>) {
    NoDup(Keys(m))
  }

  /** `m[k]` when `k in m`, and None otherwise. */
  function Find<K(==), V>(m: OMap<K, V>, k: K): (r: Option<V>)
    ensures r.Some? <==> k in Keys(m)
    ensures r.Some? ==> (k, r.value) in m
  {
    if m == [] then None
    else if m[0].0 == k then Some(m[0].1)
    else Find(m[1..], k)
  }

  /** `m.get(k, d)`. */
  function GetOr<K(==), V>(m: OMap<K, V>, k: K, d: V): V {
    match Find(m, k)
    case Some(v) => v
    case None => d
  }

  /** `m[k] = v`: the value of a present key is replaced where it stands, an
      absent key is appended at the end. */
  function Put<K(==,!new), V>(m: OMap<K, V>, k: K, v: V): (r: OMap<K, V>)
    ensures Find(r, k) == Some(v)
    ensures forall k' :: k' != k ==> Find(r, k') == Find(m, k')
  {
    if m == [] then [(k, v)]
    else if m[0].0 == k then [(k, v)] + m[1..]
    else [m[0]] + Put(m[1..], k, v)
  }

  /** Assignment keeps the key order: a present key stays where it is, a new
      key goes last. */
  lemma {:induction false} PutKeys<K(!new), V>(m: OMap<K, V>, k: K, v: V)
    ensures Keys(Put(m, k, v)) == if k in Keys(m) then Keys(m) else Keys(m) + [k]
  {
    if m != [] && m[0].0 != k {
      PutKeys(m[1..], k, v);
    }
  }

  /** Every entry after assignment is the new one or an entry from before. */
  lemma {:induction false} PutEntries<K(!new), V>(m: OMap<K, V>, k: K, v: V)
    ensures forall i :: 0 <= i < |Put(m, k, v)| ==> Put(m, k, v)[i] == (k, v) || Put(m, k, v)[i] in m
  {
    if m != [] && m[0].0 != k {
      PutEntries(m[1..], k, v);
      var r := Put(m, k, v);
      assert r == [m[0]] + Put(m[1..], k, v);
      forall i | 0 < i < |r|
        ensures r[i] == (k, v) || r[i] in m
      {
        assert r[i] == Put(m[1..], k, v)[i - 1];
      }
    }
  }

  /** Assignment keeps every key unique. */
  lemma PutDistinct<K(!new), V>(m: OMap<K, V>, k: K, v: V)
    requires DistinctKeys(m)
    ensures DistinctKeys(Put(m, k, v))
  {
    PutKeys(m, k, v);
    if k !in Keys(m) {
      NoDupAppend(Keys(m), k);
    }
  }

  /** Assigning twice to one key is the second assignment alone: creating a
      node and then storing into it is the same as storing directly. */
  lemma {:induction false} PutPut<K(!new), V>(m: OMap<K, V>, k: K, d: V, v: V)
    ensures Put(Put(m, k, d), k, v) == Put(m, k, v)
  {
    if m != [] && m[0].0 != k {
      PutPut(m[1..], k, d, v);
    }
  }

  /** `if k not in m: m[k] = d` -- get-or-insert. An existing entry is left
      as it is; a fresh one is added only when the key is absent. */
  function Ensure<K(==,!new), V>(m: OMap<K, V>, k: K, d: V): (r: OMap<K, V>)
    ensures k in Keys(m) ==> r == m
    ensures Find(r, k) == Some(GetOr(m, k, d))
    ensures forall k' :: k' != k ==> Find(r, k') == Find(m, k')
  {
    if k in Keys(m) then m else Put(m, k, d)
  }

  /** Storing into a node obtained by get-or-insert is storing directly. */
  lemma EnsurePut<K(!new), V>(m: OMap<K, V>, k: K, d: V, v: V)
    ensures Put(Ensure(m, k, d), k, v) == Put(m, k, v)
  {
    if k !in Keys(m) {
      PutPut(m, k, d, v);
    }
  }

  /** With unique keys, the pair stored for a key is what Find returns. */
  lemma FindPair<K, V>(m: OMap<K, V>, k: K, v: V)
    requires DistinctKeys(m) && (k, v) in m
    ensures Find(m, k) == Some(v)
  {
    var i :| 0 <= i < |m| && m[i] == (k, v);
    var j :| 0 <= j < |m| && m[j] == (k, Find(m, k).value);
    assert Keys(m)[i] == Keys(m)[j];
    assert i == j;
  }

  /** Replaces every value by its image under `f`, keys and order untouched. */
  function MapValues<K, V>(m: OMap<K, V>, f: V -> V): OMap<K, V> {
    seq(|m|, i requires 0 <= i < |m| => (m[i].0, f(m[i].1)))
  }

  /** MapValues keeps the keys and their order. */
  lemma MapValuesKeys<K, V>(m: OMap<K, V>, f: V -> V)
    ensures Keys(MapValues(m, f)) == Keys(m)
  {
    var r := MapValues(m, f);
    assert |Keys(r)| == |Keys(m)|;
    forall i | 0 <= i < |r|
      ensures Keys(r)[i] == Keys(m)[i]
    {
    }
  }

  /** MapValues looks a key up to the image of its original value. */
  lemma {:induction false} MapValuesFind<K, V>(m: OMap<K, V>, f: V -> V, k: K)
    ensures Find(MapValues(m, f), k) == match Find(m, k)
      case Some(v) => Some(f(v))
      case None => None
  {
    if m != [] {
      var r := MapValues(m, f);
      assert r[1..] == MapValues(m[1..], f);
      MapValuesFind(m[1..], f, k);
    }
  }
}
