/**
 * PHP arrays with string keys, as the bundle builder uses them: entries in
 * insertion order, each key at most once. Integer keys are written as their
 * decimal text, which is how PHP compares and implodes them.
 */
module OrderedMaps {
  import opened Common

  type OrdMap<V> = seq<(string, V)>

  /** `array_keys(m)`, in order. */
  function Keys<V>(m: OrdMap<V>): (ks: seq<string>)
    ensures |ks| == |m|
    ensures forall i :: 0 <= i < |m| ==> ks[i] == m[i].0
  {
    if m == [] then [] else [m[0].0] + Keys(m[1..])
  }

  /** `array_values(m)`, in order. */
  function Values<V>(m: OrdMap<V>): (vs: seq<V>)
    ensures |vs| == |m|
    ensures forall i :: 0 <= i < |m| ==> vs[i] == m[i].1
  {
    if m == [] then [] else [m[0].1] + Values(m[1..])
  }

  predicate UniqueKeys<V>(m: OrdMap<V>)
  {
    forall i, j :: 0 <= i < j < |m| ==> m[i].0 != m[j].0
  }

  /** `array_key_exists(k, m) ? m[k] : false`. */
  function Lookup<V>(m: OrdMap<V>, k: string): (r: Option<V>)
    ensures r.None? <==> k !in Keys(m)
    ensures r.Some? ==> (k, r.value) in m
  {
    if m == [] then None
    else if m[0].0 == k then Some(m[0].1)
    else Lookup(m[1..], k)
  }

  /**
   * `m[k] = v`: a key already present keeps its position and takes the new
   * value; a new key is appended (PutKeys, PutLookup, PutUnique).
   */
  function Put<V>(m: OrdMap<V>, k: string, v: V): (r: OrdMap<V>)
    ensures |r| == if k in Keys(m) then |m| else |m| + 1
  {
    if m == [] then [(k, v)]
    else if m[0].0 == k then [(k, v)] + m[1..]
    else [m[0]] + Put(m[1..], k, v)
  }

  /** Putting keeps the existing key order and appends only a key not yet present. */
  lemma {:induction false} PutKeys<V>(m: OrdMap<V>, k: string, v: V)
    ensures Keys(Put(m, k, v)) == if k in Keys(m) then Keys(m) else Keys(m) + [k]
  {
    if m != [] && m[0].0 != k {
      PutKeys(m[1..], k, v);
      assert Keys(m) == [m[0].0] + Keys(m[1..]);
    }
  }

  /** After `m[k] = v`, key k holds v and every other key holds what it held before. */
  lemma {:induction false} PutLookup<V>(m: OrdMap<V>, k: string, v: V, k': string)
    ensures Lookup(Put(m, k, v), k') == if k' == k then Some(v) else Lookup(m, k')
  {
    if m != [] && m[0].0 != k {
      PutLookup(m[1..], k, v, k');
    }
  }

  /** Putting never creates a second entry for a key. */
  lemma {:induction false} PutUnique<V>(m: OrdMap<V>, k: string, v: V)
    requires UniqueKeys(m)
    ensures UniqueKeys(Put(m, k, v))
  {
    if m != [] && m[0].0 == k {
      ReplaceHeadUnique(m, v);
    } else if m != [] {
      var t := m[1..];
      forall i, j | 0 <= i < j < |t| ensures t[i].0 != t[j].0 {
        assert t[i] == m[i + 1] && t[j] == m[j + 1];
      }
      PutUnique(t, k, v);
      PutKeys(t, k, v);
      forall i | 0 <= i < |t| ensures Keys(t)[i] != m[0].0 {
        assert t[i] == m[i + 1];
      }
      ConsUnique(m[0], Put(t, k, v));
    }
  }

  /** Replacing the first entry's value keeps the keys, so keeps them unique. */
  lemma ReplaceHeadUnique<V>(m: OrdMap<V>, v: V)
    requires m != [] && UniqueKeys(m)
    ensures UniqueKeys([(m[0].0, v)] + m[1..])
  {
    var r := [(m[0].0, v)] + m[1..];
    forall i, j | 0 <= i < j < |r| ensures r[i].0 != r[j].0 {
      assert r[i].0 == m[i].0 && r[j].0 == m[j].0;
    }
  }

  /** An entry whose key is new, put before a map with unique keys, keeps them unique. */
  lemma ConsUnique<V>(e: (string, V), p: OrdMap<V>)
    requires UniqueKeys(p) && e.0 !in Keys(p)
    ensures UniqueKeys([e] + p)
  {
    var r := [e] + p;
    forall i, j | 0 <= i < j < |r| ensures r[i].0 != r[j].0 {
      if i == 0 {
        assert r[j].0 == Keys(p)[j - 1];
      } else {
        assert r[i] == p[i - 1] && r[j] == p[j - 1];
      }
    }
  }

  /** In a map with unique keys, the entry found for a key is the one stored at its position. */
  lemma {:induction false} LookupAt<V>(m: OrdMap<V>, i: nat)
    requires UniqueKeys(m) && i < |m|
    ensures Lookup(m, m[i].0) == Some(m[i].1)
  {
    if i > 0 {
      assert m[0].0 != m[i].0;
      assert m[1..][i - 1] == m[i];
      LookupAt(m[1..], i - 1);
    }
  }
}
