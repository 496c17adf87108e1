/**
 * Python dictionaries where iteration order (insertion order) matters: an
 * association list. Assigning to an existing key keeps its position; a new
 * key goes to the end; deleting closes the gap.
 */
module Dict {

  type Dict<K, V> = seq<(K, V)>

  function Keys<K, V>(d: Dict<K, V>): (ks: seq<K>)
    ensures |ks| == |d|
    ensures forall i :: 0 <= i < |d| ==> ks[i] == d[i].0
  {
    if d == [] then [] else [d[0].0] + Keys(d[1..])
  }

  /** `k in d`. */
  predicate Has<K(==), V>(d: Dict<K, V>, k: K)
  {
    d != [] && (d[0].0 == k || Has(d[1..], k))
  }

  lemma {:induction false} HasIndex<K, V>(d: Dict<K, V>, k: K)
    ensures Has(d, k) <==> exists i :: 0 <= i < |d| && d[i].0 == k
  {
    if d != [] {
      HasIndex(d[1..], k);
      if Has(d[1..], k) {
        var i :| 0 <= i < |d[1..]| && d[1..][i].0 == k;
        assert d[i + 1].0 == k;
      }
      if exists i :: 0 <= i < |d| && d[i].0 == k {
        var i :| 0 <= i < |d| && d[i].0 == k;
        if i > 0 {
          assert d[1..][i - 1].0 == k;
        }
      }
    }
  }

  /** Membership after appending an entry. */
  lemma {:induction false} HasSnoc<K, V>(d: Dict<K, V>, e: (K, V), k: K)
    ensures Has(d + [e], k) <==> Has(d, k) || e.0 == k
  {
    if d != [] {
      assert (d + [e])[1..] == d[1..] + [e];
      HasSnoc(d[1..], e, k);
    }
  }

  /** `d.get(k)` after appending an entry: an earlier entry wins. */
  lemma {:induction false} GetOrSnoc<K, V>(d: Dict<K, V>, e: (K, V), k: K, dflt: V)
    ensures GetOr(d + [e], k, dflt) == if Has(d, k) then GetOr(d, k, dflt) else if e.0 == k then e.1 else dflt
  {
    HasSnoc(d, e, k);
    if d != [] {
      assert (d + [e])[1..] == d[1..] + [e];
      GetOrSnoc(d[1..], e, k, dflt);
    }
  }

  /** Python dictionaries never hold a key twice. */
  predicate UniqueKeys<K(==), V>(d: Dict<K, V>)
  {
    forall i, j :: 0 <= i < j < |d| ==> d[i].0 != d[j].0
  }

  /** `d[k]` for a key that is present. */
  function Lookup<K(==), V>(d: Dict<K, V>, k: K): (v: V)
    requires Has(d, k)
    ensures (k, v) in d
  {
    if d[0].0 == k then d[0].1 else Lookup(d[1..], k)
  }

  /** `d.get(k, dflt)`. */
  function GetOr<K(==), V>(d: Dict<K, V>, k: K, dflt: V): (v: V)
    ensures !Has(d, k) ==> v == dflt
  {
    if Has(d, k) then Lookup(d, k) else dflt
  }

  /** `d[k] = v`: overwrite in place when present, append otherwise. */
  function Put<K(==), V>(d: Dict<K, V>, k: K, v: V): (r: Dict<K, V>)
    ensures Has(r, k)
    ensures !Has(d, k) ==> r == d + [(k, v)]
    ensures Has(d, k) ==> |r| == |d| && Keys(r) == Keys(d)
  {
    if d == [] then [(k, v)]
    else if d[0].0 == k then [(k, v)] + d[1..]
    else
      var r := Put(d[1..], k, v);
      assert ([d[0]] + r)[1..] == r;
      assert (d + [(k, v)])[1..] == d[1..] + [(k, v)];
      [d[0]] + r
  }

  /** `d.get(k')` after `d[k] = v`. */
  lemma {:induction false} PutGetOr<K, V>(d: Dict<K, V>, k: K, v: V, k': K, dflt: V)
    ensures GetOr(Put(d, k, v), k', dflt) == if k' == k then v else GetOr(d, k', dflt)
  {
    if d != [] && d[0].0 != k {
      PutGetOr(d[1..], k, v, k', dflt);
      assert ([d[0]] + Put(d[1..], k, v))[1..] == Put(d[1..], k, v);
    }
  }

  /** Membership after `d[k] = v`. */
  lemma {:induction false} HasPut<K, V>(d: Dict<K, V>, k: K, v: V, k': K)
    ensures Has(Put(d, k, v), k') <==> k' == k || Has(d, k')
  {
    if d != [] && d[0].0 != k {
      HasPut(d[1..], k, v, k');
      assert ([d[0]] + Put(d[1..], k, v))[1..] == Put(d[1..], k, v);
    }
  }

  /** Assignment keeps keys unique. */
  lemma {:induction false} PutUnique<K, V>(d: Dict<K, V>, k: K, v: V)
    requires UniqueKeys(d)
    ensures UniqueKeys(Put(d, k, v))
  {
    HasIndex(d, k);
  }

  /** `del d[k]`. */
  function Remove<K(==), V>(d: Dict<K, V>, k: K): (r: Dict<K, V>)
    ensures !Has(r, k)
    ensures |r| <= |d|
  {
    if d == [] then []
    else if d[0].0 == k then Remove(d[1..], k)
    else
      var r := Remove(d[1..], k);
      assert ([d[0]] + r)[1..] == r;
      [d[0]] + r
  }

  /** `d.get(k')` after `del d[k]`. */
  lemma {:induction false} RemoveGetOr<K, V>(d: Dict<K, V>, k: K, k': K, dflt: V)
    ensures GetOr(Remove(d, k), k', dflt) == if k' == k then dflt else GetOr(d, k', dflt)
  {
    if d != [] {
      RemoveGetOr(d[1..], k, k', dflt);
      if d[0].0 != k {
        assert ([d[0]] + Remove(d[1..], k))[1..] == Remove(d[1..], k);
      }
    }
  }

  /** `del d[k]` drops exactly the entries under `k`. */
  lemma {:induction false} RemoveEntries<K, V>(d: Dict<K, V>, k: K, e: (K, V))
    ensures e in Remove(d, k) <==> e in d && e.0 != k
  {
    if d != [] {
      RemoveEntries(d[1..], k, e);
      assert d == [d[0]] + d[1..];
      if d[0].0 != k {
        assert Remove(d, k) == [d[0]] + Remove(d[1..], k);
      }
    }
  }

  /** Deletion keeps keys unique. */
  lemma {:induction false} RemoveUnique<K, V>(d: Dict<K, V>, k: K)
    requires UniqueKeys(d)
    ensures UniqueKeys(Remove(d, k))
  {
    if d != [] {
      assert UniqueKeys(d[1..]);
      RemoveUnique(d[1..], k);
      if d[0].0 != k {
        var r := Remove(d[1..], k);
        forall i | 0 <= i < |r|
          ensures r[i].0 != d[0].0
        {
          RemoveEntries(d[1..], k, r[i]);
        }
        assert forall i, j :: 0 < i < j < |[d[0]] + r| ==> ([d[0]] + r)[i] == r[i - 1] && ([d[0]] + r)[j] == r[j - 1];
      }
    }
  }
}
