/**
 * PHP arrays with string keys: ordered lists of (key, value) entries.
 * `Put` is the assignment `$a[$k] = $v`: it overwrites the value of an
 * existing key in place and otherwise appends a new entry at the end.
 */
module OrderedMaps {
  import opened Wrappers

  type Assoc<V> = seq<(string, V)>

  /** The keys in iteration order. */
  function Keys<V>(m: Assoc<V>): (ks: seq<string>)
    ensures |ks| == |m|
    ensures forall i :: 0 <= i < |m| ==> ks[i] == m[i].0
  {
    if m == [] then [] else [m[0].0] + Keys(m[1..])
  }

  predicate HasKey<V>(m: Assoc<V>, k: string) {
    k in Keys(m)
  }

  /** No key occurs twice: every PHP array has this shape. */
  predicate DistinctKeys<V>(m: Assoc<V>) {
    m == [] || (!HasKey(m[1..], m[0].0) && DistinctKeys(m[1..]))
  }

  /** `$a[$k]`, or None when the key is not set. */
  function Lookup<V>(m: Assoc<V>, k: string): (r: Option<V>)
    ensures r.Some? <==> HasKey(m, k)
    ensures r.Some? ==> exists i :: 0 <= i < |m| && m[i] == (k, r.value)
  {
    if m == [] then None
    else if m[0].0 == k then Some(m[0].1)
    else Lookup(m[1..], k)
  }

  /** `$a[$k] = $v`. */
  function Put<V>(m: Assoc<V>, k: string, v: V): (r: Assoc<V>)
    ensures forall k' {:trigger Lookup(r, k')} :: k' != k ==> Lookup(r, k') == Lookup(m, k')
  {
    if m == [] then [(k, v)]
    else if m[0].0 == k then [(k, v)] + m[1..]
    else [m[0]] + Put(m[1..], k, v)
  }

  /** After the assignment the key reads back the value assigned. */
  lemma {:induction false} PutLookup<V>(m: Assoc<V>, k: string, v: V)
    ensures Lookup(Put(m, k, v), k) == Some(v)
  {
    if m != [] && m[0].0 != k {
      PutLookup(m[1..], k, v);
    }
  }

  /** Overwriting an existing key keeps the key order. */
  lemma {:induction false} PutKeysPresent<V>(m: Assoc<V>, k: string, v: V)
    requires HasKey(m, k)
    ensures Keys(Put(m, k, v)) == Keys(m)
  {
    var r := Put(m, k, v);
    if m[0].0 == k {
      assert r[1..] == m[1..];
    } else {
      PutKeysPresent(m[1..], k, v);
      assert r[1..] == Put(m[1..], k, v);
    }
  }

  /** A new key goes last. */
  lemma {:induction false} PutKeysAbsent<V>(m: Assoc<V>, k: string, v: V)
    requires !HasKey(m, k)
    ensures Keys(Put(m, k, v)) == Keys(m) + [k]
  {
    PutAbsent(m, k, v);
    KeysAppend(m, k, v);
  }

  lemma {:induction false} KeysAppend<V>(m: Assoc<V>, k: string, v: V)
    ensures Keys(m + [(k, v)]) == Keys(m) + [k]
  {
    if m != [] {
      KeysAppend(m[1..], k, v);
      assert (m + [(k, v)])[1..] == m[1..] + [(k, v)];
    }
  }

  /** Assignment never creates a duplicate key. */
  lemma {:induction false} PutDistinct<V>(m: Assoc<V>, k: string, v: V)
    requires DistinctKeys(m)
    ensures DistinctKeys(Put(m, k, v))
  {
    var r := Put(m, k, v);
    if m == [] {
    } else if m[0].0 == k {
      assert r[1..] == m[1..];
    } else {
      PutDistinct(m[1..], k, v);
      assert r[1..] == Put(m[1..], k, v);
      if HasKey(m[1..], k) {
        PutKeysPresent(m[1..], k, v);
      } else {
        PutKeysAbsent(m[1..], k, v);
      }
    }
  }

  /** Assigning a key that a prefix does not hold leaves that prefix alone. */
  lemma {:induction false} PutPast<V>(a: Assoc<V>, b: Assoc<V>, k: string, v: V)
    requires !HasKey(a, k)
    ensures Put(a + b, k, v) == a + Put(b, k, v)
  {
    if a != [] {
      assert (a + b)[0] == a[0] && (a + b)[1..] == a[1..] + b;
      PutPast(a[1..], b, k, v);
      assert a + Put(b, k, v) == [a[0]] + (a[1..] + Put(b, k, v));
    } else {
      assert a + b == b;
    }
  }

  /** On an array with distinct keys, an existing key is overwritten at its own position. */
  lemma {:induction false} PutAt<V>(m: Assoc<V>, i: nat, v: V)
    requires DistinctKeys(m) && i < |m|
    ensures Put(m, m[i].0, v) == m[i := (m[i].0, v)]
  {
    var k := m[i].0;
    assert !HasKey(m[..i], k) by {
      forall j | 0 <= j < i
        ensures Keys(m[..i])[j] != k
      {
        DistinctAt(m, j, i);
      }
    }
    assert m == m[..i] + ([m[i]] + m[i + 1..]);
    assert Put(m, k, v) == m[..i] + ([(k, v)] + m[i + 1..]) by {
      PutPast(m[..i], [m[i]] + m[i + 1..], k, v);
    }
    assert m[i := (k, v)] == m[..i] + ([(k, v)] + m[i + 1..]) by {
      var r := m[..i] + ([(k, v)] + m[i + 1..]);
      forall j | 0 <= j < |m|
        ensures r[j] == m[i := (k, v)][j]
      {
        if j > i {
          assert r[j] == m[i + 1..][j - i - 1];
        }
      }
    }
  }

  /** Two positions of an array with distinct keys hold different keys. */
  lemma {:induction false} DistinctAt<V>(m: Assoc<V>, i: nat, j: nat)
    requires DistinctKeys(m) && i < |m| && j < |m| && i != j
    ensures m[i].0 != m[j].0
  {
    if i == 0 {
      assert m[j].0 == Keys(m[1..])[j - 1];
    } else if j == 0 {
      assert m[i].0 == Keys(m[1..])[i - 1];
    } else {
      DistinctAt(m[1..], i - 1, j - 1);
    }
  }

  /** A key that is not set is appended as the last entry. */
  lemma {:induction false} PutAbsent<V>(m: Assoc<V>, k: string, v: V)
    requires !HasKey(m, k)
    ensures Put(m, k, v) == m + [(k, v)]
  {
    if m != [] {
      PutAbsent(m[1..], k, v);
      assert m == [m[0]] + m[1..];
      assert m + [(k, v)] == [m[0]] + (m[1..] + [(k, v)]);
    }
  }

  /** The value stored at position i is what a lookup of its key returns. */
  lemma {:induction false} LookupAt<V>(m: Assoc<V>, i: nat)
    requires DistinctKeys(m) && i < |m|
    ensures Lookup(m, m[i].0) == Some(m[i].1)
  {
    if i > 0 {
      LookupAt(m[1..], i - 1);
    }
  }

  /** The last entry of an array is found by its key when that key occurs nowhere else. */
  lemma {:induction false} LookupLast<V>(m: Assoc<V>, k: string, v: V)
    requires !HasKey(m, k)
    ensures Lookup(m + [(k, v)], k) == Some(v)
  {
    if m != [] {
      LookupLast(m[1..], k, v);
      assert (m + [(k, v)])[1..] == m[1..] + [(k, v)];
    }
  }

  /** Assigning to the key of the last entry replaces that entry. */
  lemma {:induction false} PutLast<V>(m: Assoc<V>, k: string, v: V, w: V)
    requires !HasKey(m, k)
    ensures Put(m + [(k, v)], k, w) == m + [(k, w)]
  {
    if m == [] {
      assert [(k, v)][1..] == [];
    } else {
      var mv := m + [(k, v)];
      assert m[0].0 != k by { assert Keys(m)[0] == m[0].0; }
      assert !HasKey(m[1..], k) by { assert Keys(m) == [m[0].0] + Keys(m[1..]); }
      assert mv[0] == m[0] && mv[1..] == m[1..] + [(k, v)];
      PutLast(m[1..], k, v, w);
      calc {
        Put(mv, k, w);
        [m[0]] + Put(m[1..] + [(k, v)], k, w);
        [m[0]] + (m[1..] + [(k, w)]);
        { assert [m[0]] + m[1..] == m; }
        m + [(k, w)];
      }
    }
  }

  /** Assigning a key an array with distinct keys does not hold: appended last, keys still distinct. */
  lemma PutNew<V>(m: Assoc<V>, k: string, v: V)
    requires DistinctKeys(m) && !HasKey(m, k)
    ensures var r := Put(m, k, v);
      && r == m + [(k, v)]
      && Keys(r) == Keys(m) + [k]
      && DistinctKeys(r)
      && Lookup(r, k) == Some(v)
  {
    PutAbsent(m, k, v);
    PutKeysAbsent(m, k, v);
    PutDistinct(m, k, v);
    PutLookup(m, k, v);
  }
}
