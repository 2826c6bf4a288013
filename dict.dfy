/** Python's `dict`: a key/value table that remembers insertion order.
    Iterating a dict, and therefore the order of payload segments and of
    per-client sends, follows that order, so the model keeps the pairs in a
    sequence. */
module OrderedDict {
  import opened Common

  type Dict<K, V> = seq<(K, V)>

  /** The keys in iteration order, `list(d.keys())`. */
  function Keys<K(==), V>(d: Dict<K, V>): (r: seq<K>)
    ensures |r| == |d|
    ensures forall i :: 0 <= i < |d| ==> r[i] == d[i].0
  {
    if d == [] then [] else [d[0].0] + Keys(d[1..])
  }

  /** No key occurs twice, which every dict satisfies. */
  predicate KeysUnique<K(==), V>(d: Dict<K, V>)
  {
    forall i, j :: 0 <= i < j < |d| ==> d[i].0 != d[j].0
  }

  /** `d.get(k)`: the value stored under the first occurrence of `k`. */
  function Get<K(==), V>(d: Dict<K, V>, k: K): Option<V>
  {
    if d == [] then None
    else if d[0].0 == k then Some(d[0].1)
    else Get(d[1..], k)
  }

  /** `d[k] = v`: an existing key keeps its place and takes the new value, a
      new key goes to the end. */
  function Put<K(==), V>(d: Dict<K, V>, k: K, v: V): Dict<K, V>
  {
    if d == [] then [(k, v)]
    else if d[0].0 == k then [(k, v)] + d[1..]
    else [d[0]] + Put(d[1..], k, v)
  }

  /** `del d[k]`: the pair under `k` goes, the others keep their order. */
  function Remove<K(==), V>(d: Dict<K, V>, k: K): Dict<K, V>
  {
    if d == [] then []
    else if d[0].0 == k then Remove(d[1..], k)
    else [d[0]] + Remove(d[1..], k)
  }

  /** The dict as an unordered map. */
  function ToMap<K(==), V>(d: Dict<K, V>): map<K, V>
  {
    if d == [] then map[] else ToMap(d[1..])[d[0].0 := d[0].1]
  }

  /** Storing a value makes it the one `get` returns and leaves every other
      key's value, and the key order, as they were. */
  lemma PutGet<K, V>(d: Dict<K, V>, k: K, v: V)
    ensures Get(Put(d, k, v), k) == Some(v)
    ensures forall k' :: k' != k ==> Get(Put(d, k, v), k') == Get(d, k')
    ensures Keys(Put(d, k, v)) == if k in Keys(d) then Keys(d) else Keys(d) + [k]
  {
    forall k' | k' != k ensures Get(Put(d, k, v), k') == Get(d, k') {
      PutGetOther(d, k, v, k');
    }
    PutGetSame(d, k, v);
    PutKeys(d, k, v);
  }

  lemma {:induction false} PutGetSame<K, V>(d: Dict<K, V>, k: K, v: V)
    ensures Get(Put(d, k, v), k) == Some(v)
  {
    if d != [] && d[0].0 != k {
      PutGetSame(d[1..], k, v);
      assert Put(d, k, v) == [d[0]] + Put(d[1..], k, v);
      assert ([d[0]] + Put(d[1..], k, v))[1..] == Put(d[1..], k, v);
    }
  }

  lemma {:induction false} PutGetOther<K, V>(d: Dict<K, V>, k: K, v: V, k': K)
    requires k' != k
    ensures Get(Put(d, k, v), k') == Get(d, k')
  {
    if d != [] && d[0].0 != k {
      PutGetOther(d[1..], k, v, k');
      assert Put(d, k, v) == [d[0]] + Put(d[1..], k, v);
      assert ([d[0]] + Put(d[1..], k, v))[1..] == Put(d[1..], k, v);
    } else if d != [] {
      assert Put(d, k, v)[1..] == d[1..];
    }
  }

  lemma {:induction false} PutKeys<K, V>(d: Dict<K, V>, k: K, v: V)
    ensures Keys(Put(d, k, v)) == if k in Keys(d) then Keys(d) else Keys(d) + [k]
  {
    if d != [] {
      var r := Put(d, k, v);
      assert Keys(d) == [d[0].0] + Keys(d[1..]);
      assert Keys(r) == [r[0].0] + Keys(r[1..]);
      if d[0].0 != k {
        PutKeys(d[1..], k, v);
        assert r[1..] == Put(d[1..], k, v);
      } else {
        assert r[1..] == d[1..];
      }
    }
  }

  /** `get` finds exactly the listed keys. */
  lemma {:induction false} GetKeys<K, V>(d: Dict<K, V>, k: K)
    ensures Get(d, k).Some? <==> k in Keys(d)
  {
    if d != [] {
      assert Keys(d) == [d[0].0] + Keys(d[1..]);
      GetKeys(d[1..], k);
    }
  }

  /** A new key is appended. */
  lemma {:induction false} PutNew<K, V>(d: Dict<K, V>, k: K, v: V)
    requires k !in Keys(d)
    ensures Put(d, k, v) == d + [(k, v)]
  {
    if d != [] {
      assert Keys(d) == [d[0].0] + Keys(d[1..]);
      PutNew(d[1..], k, v);
      assert d == [d[0]] + d[1..];
    }
  }

  /** Storing keeps the keys unique. */
  lemma PutUnique<K, V>(d: Dict<K, V>, k: K, v: V)
    requires KeysUnique(d)
    ensures KeysUnique(Put(d, k, v))
  {
    var r := Put(d, k, v);
    PutGet(d, k, v);
    assert forall i :: 0 <= i < |r| ==> Keys(r)[i] == r[i].0;
  }

  /** Storing twice under one key is storing the second value. */
  lemma {:induction false} PutTwice<K, V>(d: Dict<K, V>, k: K, v1: V, v2: V)
    ensures Put(Put(d, k, v1), k, v2) == Put(d, k, v2)
  {
    if d != [] && d[0].0 != k {
      PutTwice(d[1..], k, v1, v2);
      assert Put(d, k, v1) == [d[0]] + Put(d[1..], k, v1);
      assert ([d[0]] + Put(d[1..], k, v1))[1..] == Put(d[1..], k, v1);
    }
  }

  /** Every pair after storing is the stored one or one that was there. */
  lemma {:induction false} PutEntries<K, V>(d: Dict<K, V>, k: K, v: V, e: (K, V))
    requires e in Put(d, k, v)
    ensures e == (k, v) || e in d
  {
    if d != [] && d[0].0 != k && e != d[0] {
      assert e in Put(d[1..], k, v);
      PutEntries(d[1..], k, v, e);
    }
  }

  /** The unordered view agrees with `get`. */
  lemma {:induction false} ToMapGet<K, V>(d: Dict<K, V>, k: K)
    ensures k in ToMap(d) <==> k in Keys(d)
    ensures k in ToMap(d) ==> Get(d, k) == Some(ToMap(d)[k])
  {
    if d != [] {
      ToMapGet(d[1..], k);
      assert Keys(d) == [d[0].0] + Keys(d[1..]);
    }
  }

  /** With unique keys, every listed pair is what `get` returns. */
  lemma {:induction false} GetListed<K, V>(d: Dict<K, V>, i: int)
    requires KeysUnique(d) && 0 <= i < |d|
    ensures Get(d, d[i].0) == Some(d[i].1)
  {
    if i > 0 {
      assert d[1..][i - 1] == d[i];
      GetListed(d[1..], i - 1);
    }
  }

  /** Storing into the dict stores into its unordered view. */
  lemma {:induction false} PutToMap<K, V>(d: Dict<K, V>, k: K, v: V)
    ensures ToMap(Put(d, k, v)) == ToMap(d)[k := v]
  {
    if d != [] && d[0].0 != k {
      PutToMap(d[1..], k, v);
      assert Put(d, k, v)[1..] == Put(d[1..], k, v);
    } else if d != [] {
      assert Put(d, k, v)[1..] == d[1..];
    }
  }

  lemma KeysTail<K, V>(d: Dict<K, V>)
    requires d != []
    ensures Keys(d[1..]) == Keys(d)[1..]
  {
  }

  /** After `del d[k]`, `get` finds nothing under `k` and the old value
      under every other key. */
  lemma {:induction false} RemoveGet<K, V>(d: Dict<K, V>, k: K, k': K)
    ensures Get(Remove(d, k), k) == None
    ensures k' != k ==> Get(Remove(d, k), k') == Get(d, k')
  {
    if d != [] {
      RemoveGet(d[1..], k, k');
      if d[0].0 != k {
        assert Remove(d, k)[1..] == Remove(d[1..], k);
      }
    }
  }

  /** Deleting a key the dict does not hold changes nothing. */
  lemma {:induction false} RemoveAbsent<K, V>(d: Dict<K, V>, k: K)
    requires k !in Keys(d)
    ensures Remove(d, k) == d
  {
    if d != [] {
      assert Keys(d) == [d[0].0] + Keys(d[1..]);
      RemoveAbsent(d[1..], k);
    }
  }

  /** Deleting the first key of a dict drops its first pair. */
  lemma RemoveFirst<K, V>(d: Dict<K, V>)
    requires KeysUnique(d) && d != []
    ensures Remove(d, d[0].0) == d[1..]
  {
    assert d[0].0 !in Keys(d[1..]) by {
      forall i | 0 <= i < |d[1..]| ensures Keys(d[1..])[i] != d[0].0 {
        assert d[1..][i] == d[i + 1];
      }
    }
    RemoveAbsent(d[1..], d[0].0);
  }

  /** A key the dict holds sits at some position, whose value `get` returns. */
  lemma {:induction false} GetFound<K, V>(d: Dict<K, V>, k: K) returns (i: int)
    requires k in Keys(d)
    ensures 0 <= i < |d| && d[i].0 == k && Get(d, k) == Some(d[i].1)
  {
    if d[0].0 == k {
      i := 0;
    } else {
      assert Keys(d) == [d[0].0] + Keys(d[1..]);
      var j := GetFound(d[1..], k);
      i := j + 1;
    }
  }
}
