/**
 * A Python `dict` with string keys, as the client builds its query
 * parameters: a sequence of entries in insertion order, one per key.
 * `Get` is `d.get(k)`, `Assign` is the statement `d[k] = v`, and `Update`
 * is `d.update(p)`.
 */
module OrderedDict {
  import opened Wrappers

  type Dict<V> = seq<(string, V)>

  /** The keys in insertion order (iterating over the dict). */
  function Keys<V>(d: Dict<V>): (ks: seq<string>)
    ensures |ks| == |d|
  {
    if d == [] then [] else [d[0].0] + Keys(d[1..])
  }

  predicate Distinct(ks: seq<string>) {
    forall i, j :: 0 <= i < j < |ks| ==> ks[i] != ks[j]
  }

  /** No key occurs in both sequences. */
  predicate Disjoint(a: seq<string>, b: seq<string>) {
    forall k :: k in a ==> k !in b
  }

  /** Every Python dict has this: no key occurs twice. */
  predicate DistinctKeys<V>(d: Dict<V>) {
    Distinct(Keys(d))
  }

  /** `d.get(k)`: the value of the first entry for `k`, if any; an empty
      dict has none. */
  function Get<V>(d: Dict<V>, k: string): (r: Option<V>)
    ensures d == [] ==> r.None?
    ensures d != [] && d[0].0 == k ==> r == Some(d[0].1)
  {
    if d == [] then None else if d[0].0 == k then Some(d[0].1) else Get(d[1..], k)
  }

  /** `d[k] = v`: a key already present keeps its place and takes the new
      value; a new key is added last. */
  function Assign<V>(d: Dict<V>, k: string, v: V): (r: Dict<V>)
    ensures Get(r, k) == Some(v)
    ensures |d| <= |r| <= |d| + 1
  {
    if d == [] then [(k, v)]
    else if d[0].0 == k then [(k, v)] + d[1..]
    else [d[0]] + Assign(d[1..], k, v)
  }

  // ---------------------------------------------------------------------
  // Keys and lookups

  /** Entry `i` of the key sequence is the key of entry `i`. */
  lemma {:induction false} KeysAt<V>(d: Dict<V>)
    ensures forall i :: 0 <= i < |d| ==> Keys(d)[i] == d[i].0
  {
    if d != [] {
      KeysAt(d[1..]);
    }
  }

  lemma {:induction false} KeysAppend<V>(a: Dict<V>, b: Dict<V>)
    ensures Keys(a + b) == Keys(a) + Keys(b)
  {
    if a == [] {
      assert a + b == b;
    } else {
      assert (a + b)[0] == a[0] && (a + b)[1..] == a[1..] + b;
      KeysAppend(a[1..], b);
    }
  }

  /** `d.get(k)` finds a value exactly when `k` is a key of `d`. */
  lemma {:induction false} GetSome<V>(d: Dict<V>, k: string)
    ensures Get(d, k).Some? <==> k in Keys(d)
  {
    if d != [] {
      GetSome(d[1..], k);
    }
  }

  /** With distinct keys, `Get` finds each entry's own value. */
  lemma {:induction false} GetAt<V>(d: Dict<V>, i: nat)
    requires DistinctKeys(d) && i < |d|
    ensures Get(d, d[i].0) == Some(d[i].1)
  {
    if i > 0 {
      KeysAt(d);
      KeysAt(d[1..]);
      assert d[0].0 == Keys(d)[0] != Keys(d)[i] == d[i].0;
      assert DistinctKeys(d[1..]) by {
        forall a, b | 0 <= a < b < |d| - 1 ensures Keys(d[1..])[a] != Keys(d[1..])[b] {
          assert Keys(d[1..])[a] == Keys(d)[a + 1] && Keys(d[1..])[b] == Keys(d)[b + 1];
        }
      }
      GetAt(d[1..], i - 1);
    }
  }

  /** A dict with distinct keys is determined by its key order and its
      lookups. */
  lemma DictExt<V>(a: Dict<V>, b: Dict<V>)
    requires DistinctKeys(a) && DistinctKeys(b)
    requires Keys(a) == Keys(b)
    requires forall k :: Get(a, k) == Get(b, k)
    ensures a == b
  {
    KeysAt(a);
    KeysAt(b);
    forall i | 0 <= i < |a| ensures a[i] == b[i] {
      GetAt(a, i);
      GetAt(b, i);
    }
  }

  /** Lookup in a concatenation: the first part wins. */
  lemma {:induction false} GetAppend<V>(a: Dict<V>, b: Dict<V>, k: string)
    ensures Get(a + b, k) == if k in Keys(a) then Get(a, k) else Get(b, k)
  {
    if a == [] {
      assert a + b == b;
    } else {
      assert (a + b)[0] == a[0] && (a + b)[1..] == a[1..] + b;
      GetAppend(a[1..], b, k);
    }
  }

  /** The keys before entry `i` are distinct and do not include entry
      `i`'s key. */
  lemma KeyNotBefore<V>(p: Dict<V>, i: nat)
    requires DistinctKeys(p) && i < |p|
    ensures Keys(p[..i + 1]) == Keys(p[..i]) + [p[i].0]
    ensures p[i].0 !in Keys(p[..i])
    ensures DistinctKeys(p[..i])
  {
    assert p[..i + 1] == p[..i] + [p[i]];
    KeysAppend(p[..i], [p[i]]);
    assert p == p[..i] + p[i..];
    KeysAppend(p[..i], p[i..]);
    KeysAt(p);
    assert Keys(p[..i]) == Keys(p)[..i];
  }

  /** A new key in front of distinct keys keeps them distinct. */
  lemma DistinctCons(k: string, ks: seq<string>)
    requires Distinct(ks) && k !in ks
    ensures Distinct([k] + ks)
  {
    forall i, j | 0 <= i < j < |ks| + 1 ensures ([k] + ks)[i] != ([k] + ks)[j] {
      assert ([k] + ks)[j] == ks[j - 1];
      if i > 0 {
        assert ([k] + ks)[i] == ks[i - 1];
      }
    }
  }

  // ---------------------------------------------------------------------
  // `d[k] = v`

  /** Assigning a present key keeps the key order; a new key goes last. */
  lemma {:induction false} AssignKeys<V>(d: Dict<V>, k: string, v: V)
    ensures Keys(Assign(d, k, v)) == if k in Keys(d) then Keys(d) else Keys(d) + [k]
  {
    if d != [] {
      var r := Assign(d, k, v);
      assert r[1..] == if d[0].0 == k then d[1..] else Assign(d[1..], k, v);
      if d[0].0 != k {
        AssignKeys(d[1..], k, v);
      }
    }
  }

  /** Assigning a new key appends its entry. */
  lemma {:induction false} AssignNew<V>(d: Dict<V>, k: string, v: V)
    requires k !in Keys(d)
    ensures Assign(d, k, v) == d + [(k, v)]
  {
    if d != [] {
      AssignNew(d[1..], k, v);
      assert d == [d[0]] + d[1..];
    }
  }

  /** After `d[k] = v`, looking up `k` gives `v` and every other key is
      looked up as before. */
  lemma {:induction false} AssignGet<V>(d: Dict<V>, k: string, v: V, k': string)
    ensures Get(Assign(d, k, v), k') == if k' == k then Some(v) else Get(d, k')
  {
    if d != [] && d[0].0 != k {
      AssignGet(d[1..], k, v, k');
    }
  }

  /** Assignment keeps the keys distinct. */
  lemma AssignDistinct<V>(d: Dict<V>, k: string, v: V)
    requires DistinctKeys(d)
    ensures DistinctKeys(Assign(d, k, v))
  {
    AssignKeys(d, k, v);
  }

  // ---------------------------------------------------------------------
  // `d.update(p)`

  /** The keys of `ks` not in `seen`, in their order in `ks`. */
  function Fresh(ks: seq<string>, seen: seq<string>): seq<string> {
    if ks == [] then [] else (if ks[0] in seen then [] else [ks[0]]) + Fresh(ks[1..], seen)
  }

  lemma {:induction false} FreshAppend(a: seq<string>, b: seq<string>, seen: seq<string>)
    ensures Fresh(a + b, seen) == Fresh(a, seen) + Fresh(b, seen)
  {
    if a == [] {
      assert a + b == b;
    } else {
      assert (a + b)[0] == a[0] && (a + b)[1..] == a[1..] + b;
      FreshAppend(a[1..], b, seen);
    }
  }

  /** `Fresh` keeps only keys of `ks` that are not in `seen`. */
  lemma {:induction false} FreshIn(ks: seq<string>, seen: seq<string>, k: string)
    requires k in Fresh(ks, seen)
    ensures k in ks && k !in seen
  {
    if ks != [] {
      assert ks == [ks[0]] + ks[1..];
      if k in Fresh(ks[1..], seen) {
        FreshIn(ks[1..], seen, k);
      }
    }
  }

  /** Adding one key `k` that `q` lacks to the end of `q`. */
  lemma FreshStep(seen: seq<string>, q: seq<string>, k: string)
    requires k !in q
    ensures var f := seen + Fresh(q, seen);
      seen + Fresh(q + [k], seen) == if k in f then f else f + [k]
  {
    var f := Fresh(q, seen);
    FreshAppend(q, [k], seen);
    assert [k][1..] == [];
    if k in seen {
      assert Fresh([k], seen) == [];
    } else {
      assert Fresh([k], seen) == [k];
      if k in f {
        FreshIn(q, seen, k);
      }
      assert seen + f + [k] == seen + (f + [k]);
    }
  }

  /** The dict `d.update(p)` leaves behind: the entries of `p` assigned
      into `d` one after another, in `p`'s order. */
  function Updated<V>(d: Dict<V>, p: Dict<V>): (r: Dict<V>)
    ensures |d| <= |r| <= |d| + |p|
  {
    if p == [] then d else Assign(Updated(d, p[..|p| - 1]), p[|p| - 1].0, p[|p| - 1].1)
  }

  /** `update` keeps the keys distinct. */
  lemma {:induction false} UpdatedDistinct<V>(d: Dict<V>, p: Dict<V>)
    requires DistinctKeys(d)
    ensures DistinctKeys(Updated(d, p))
  {
    if p != [] {
      UpdatedDistinct(d, p[..|p| - 1]);
      AssignDistinct(Updated(d, p[..|p| - 1]), p[|p| - 1].0, p[|p| - 1].1);
    }
  }

  /** After `d.update(p)`, `p`'s values win and `d`'s other entries stay. */
  lemma {:induction false} UpdatedGet<V>(d: Dict<V>, p: Dict<V>, k: string)
    requires DistinctKeys(p)
    ensures Get(Updated(d, p), k) == if k in Keys(p) then Get(p, k) else Get(d, k)
  {
    if p != [] {
      var n := |p| - 1;
      var q := p[..n];
      KeyNotBefore(p, n);
      assert p[..n + 1] == p;
      UpdatedGet(d, q, k);
      AssignGet(Updated(d, q), p[n].0, p[n].1, k);
      assert p == q + [p[n]];
      GetAppend(q, [p[n]], k);
    }
  }

  /** After `d.update(p)`, keys already in `d` keep their place and `p`'s
      new keys follow in `p`'s order. */
  lemma {:induction false} UpdatedKeys<V>(d: Dict<V>, p: Dict<V>)
    requires DistinctKeys(p)
    ensures Keys(Updated(d, p)) == Keys(d) + Fresh(Keys(p), Keys(d))
  {
    if p == [] {
      assert Keys(d) + [] == Keys(d);
    } else {
      var n := |p| - 1;
      var q, k := p[..n], p[n].0;
      KeyNotBefore(p, n);
      assert p[..n + 1] == p;
      UpdatedKeys(d, q);
      AssignKeys(Updated(d, q), k, p[n].1);
      FreshStep(Keys(d), Keys(q), k);
    }
  }

  /** When `d` and `p` share no key, `d.update(p)` is `d` followed by `p`. */
  lemma {:induction false} UpdatedDisjoint<V>(d: Dict<V>, p: Dict<V>)
    requires DistinctKeys(p) && Disjoint(Keys(d), Keys(p))
    ensures Updated(d, p) == d + p
  {
    if p == [] {
      assert d + p == d;
    } else {
      var n := |p| - 1;
      var q, k := p[..n], p[n].0;
      KeyNotBefore(p, n);
      assert p[..n + 1] == p;
      assert Disjoint(Keys(d), Keys(q));
      UpdatedDisjoint(d, q);
      KeysAppend(d, q);
      assert k in Keys(p);
      AssignNew(d + q, k, p[n].1);
      assert d + q + [p[n]] == d + p;
    }
  }

  /** `d.update(p)`, entry by entry, as the `update` method of a dict does it. */
  method Update<V>(d: Dict<V>, p: Dict<V>) returns (r: Dict<V>)
    requires DistinctKeys(d) && DistinctKeys(p)
    ensures r == Updated(d, p)
    ensures DistinctKeys(r)
    ensures forall k :: Get(r, k) == if k in Keys(p) then Get(p, k) else Get(d, k)
    ensures Keys(r) == Keys(d) + Fresh(Keys(p), Keys(d))
  {
    r := d;
    var i := 0;
    assert p[..0] == [];
    while i < |p|
      invariant 0 <= i <= |p|
      invariant r == Updated(d, p[..i])
    {
      assert p[..i + 1][..i] == p[..i];
      r := Assign(r, p[i].0, p[i].1);
      i := i + 1;
    }
    assert p[..i] == p;
    UpdatedDistinct(d, p);
    forall k {
      UpdatedGet(d, p, k);
    }
    UpdatedKeys(d, p);
  }
}
