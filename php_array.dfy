/**
 * PHP arrays used as dictionaries: an ordered map whose keys keep their
 * insertion order, and PHP's `ksort`, which reorders the keys ascending.
 */
module PhpArray {

  /** Every element of `s` occurs once. */
  ghost predicate Distinct<T>(s: seq<T>) {
    forall i, j | 0 <= i < j < |s| :: s[i] != s[j]
  }

  /** `keys` is the iteration order of the array, `values` its contents. */
  datatype OrderedMap<K(==, !new), V> = OrderedMap(keys: seq<K>, values: map<K, V>) {

    ghost predicate Valid() {
      && Distinct(keys)
      && (forall k :: k in values <==> k in keys)
    }

    /** `$a[$k] = $v`: an existing key keeps its place, a new key goes last. */
    function Put(k: K, v: V): (r: OrderedMap<K, V>)
      requires Valid()
      ensures r.Valid()
    {
      OrderedMap(if k in values then keys else keys + [k], values[k := v])
    }
  }

  /** `lt` is irreflexive, transitive and relates any two distinct keys. */
  ghost predicate StrictTotalOrder<K(!new)>(lt: (K, K) -> bool) {
    && (forall a :: !lt(a, a))
    && (forall a, b, c :: lt(a, b) && lt(b, c) ==> lt(a, c))
    && (forall a, b :: a == b || lt(a, b) || lt(b, a))
  }

  /** Every element comes strictly before all later ones. */
  ghost predicate Increasing<K>(s: seq<K>, lt: (K, K) -> bool) {
    forall i, j | 0 <= i < j < |s| :: lt(s[i], s[j])
  }

  /** Inserts a new key into an increasing sequence of keys. */
  function InsertKey<K(!new)>(x: K, s: seq<K>, lt: (K, K) -> bool): (r: seq<K>)
    requires StrictTotalOrder(lt) && Increasing(s, lt) && x !in s
    ensures Increasing(r, lt)
    ensures multiset(r) == multiset(s) + multiset{x}
  {
    if s == [] then [x]
    else if lt(x, s[0]) then
      BelowHead(x, s, lt);
      ConsIncreasing(x, s, lt);
      [x] + s
    else
      var t := InsertKey(x, s[1..], lt);
      HeadBelowRest(x, s, t, lt);
      ConsIncreasing(s[0], t, lt);
      [s[0]] + t
  }

  /** A key before the head of an increasing sequence is before all of it. */
  lemma {:induction false} BelowHead<K(!new)>(x: K, s: seq<K>, lt: (K, K) -> bool)
    requires StrictTotalOrder(lt) && Increasing(s, lt) && s != [] && lt(x, s[0])
    ensures forall j | 0 <= j < |s| :: lt(x, s[j])
  {
    forall j | 0 < j < |s| ensures lt(x, s[j]) {
      assert lt(x, s[0]) && lt(s[0], s[j]);
    }
  }

  /**
   * The head of an increasing sequence comes before every key of the rest
   * with a new key that the head does not exceed inserted.
   */
  lemma {:induction false} HeadBelowRest<K(!new)>(x: K, s: seq<K>, t: seq<K>, lt: (K, K) -> bool)
    requires StrictTotalOrder(lt) && Increasing(s, lt) && s != [] && x !in s && !lt(x, s[0])
    requires multiset(t) == multiset(s[1..]) + multiset{x}
    ensures forall j | 0 <= j < |t| :: lt(s[0], t[j])
    ensures multiset([s[0]] + t) == multiset(s) + multiset{x}
  {
    assert s == [s[0]] + s[1..];
    assert lt(s[0], x) by { assert x != s[0]; }
    forall j | 0 <= j < |t| ensures lt(s[0], t[j]) {
      assert t[j] in multiset(t);
      assert t[j] == x || t[j] in s[1..];
    }
  }

  /** A key before every key of an increasing sequence can go first. */
  lemma {:induction false} ConsIncreasing<K>(x: K, s: seq<K>, lt: (K, K) -> bool)
    requires Increasing(s, lt) && forall j | 0 <= j < |s| :: lt(x, s[j])
    ensures Increasing([x] + s, lt)
  {
    var r := [x] + s;
    forall i, j | 0 <= i < j < |r| ensures lt(r[i], r[j]) {
      assert r[j] == s[j - 1];
      if i > 0 {
        assert r[i] == s[i - 1];
      }
    }
  }

  /** The keys of `s` in ascending order (insertion sort). */
  function SortKeys<K(!new)>(s: seq<K>, lt: (K, K) -> bool): (r: seq<K>)
    requires StrictTotalOrder(lt) && Distinct(s)
    ensures Increasing(r, lt)
    ensures multiset(r) == multiset(s)
  {
    if s == [] then []
    else
      var init := s[..|s| - 1];
      assert s == init + [s[|s| - 1]];
      var t := SortKeys(init, lt);
      assert s[|s| - 1] !in multiset(t);
      InsertKey(s[|s| - 1], t, lt)
  }

  /** PHP `ksort`: same entries, keys in ascending order. */
  function KSort<K(!new), V>(m: OrderedMap<K, V>, lt: (K, K) -> bool): (r: OrderedMap<K, V>)
    requires m.Valid() && StrictTotalOrder(lt)
    ensures r.Valid() && r.values == m.values
    ensures Increasing(r.keys, lt)
    ensures multiset(r.keys) == multiset(m.keys)
  {
    var keys := SortKeys(m.keys, lt);
    assert forall k :: k in keys <==> k in multiset(m.keys);
    OrderedMap(keys, m.values)
  }

  /** The first key of an increasing sequence comes before every other one. */
  lemma {:induction false} HeadIsLeast<K>(a: seq<K>, lt: (K, K) -> bool, y: K)
    requires Increasing(a, lt) && y in a
    ensures y == a[0] || lt(a[0], y)
  {
    var i :| 0 <= i < |a| && a[i] == y;
    assert i == 0 || lt(a[0], a[i]);
  }

  /** Two increasing sequences with the same elements start with the same one. */
  lemma {:induction false} SameHead<K(!new)>(a: seq<K>, b: seq<K>, lt: (K, K) -> bool)
    requires StrictTotalOrder(lt)
    requires Increasing(a, lt) && Increasing(b, lt)
    requires multiset(a) == multiset(b) && a != [] && b != []
    ensures a[0] == b[0]
  {
    assert a[0] in multiset(b) && b[0] in multiset(a);
    HeadIsLeast(b, lt, a[0]);
    HeadIsLeast(a, lt, b[0]);
  }

  /** Removing the same first element leaves the same elements. */
  lemma {:induction false} SameTail<K>(a: seq<K>, b: seq<K>)
    requires multiset(a) == multiset(b) && a != [] && b != [] && a[0] == b[0]
    ensures multiset(a[1..]) == multiset(b[1..])
  {
    assert a == [a[0]] + a[1..] && b == [b[0]] + b[1..];
    assert multiset(a[1..]) == multiset(a) - multiset{a[0]};
    assert multiset(b[1..]) == multiset(b) - multiset{b[0]};
  }

  /** Two increasing sequences with the same elements are equal: ksort's order is the only one. */
  lemma {:induction false} IncreasingUnique<K(!new)>(a: seq<K>, b: seq<K>, lt: (K, K) -> bool)
    requires StrictTotalOrder(lt)
    requires Increasing(a, lt) && Increasing(b, lt)
    requires multiset(a) == multiset(b)
    ensures a == b
  {
    assert |a| == |b| by {
      assert |multiset(a)| == |a| && |multiset(b)| == |b|;
    }
    if a != [] {
      SameHead(a, b, lt);
      SameTail(a, b);
      assert Increasing(a[1..], lt) && Increasing(b[1..], lt);
      IncreasingUnique(a[1..], b[1..], lt);
      assert a == [a[0]] + a[1..] && b == [b[0]] + b[1..];
    }
  }

  /** Byte-wise string comparison, as PHP orders two non-numeric string keys. */
  predicate StrLt(a: string, b: string) {
    if |a| == 0 then |b| != 0
    else if |b| == 0 then false
    else if a[0] != b[0] then a[0] < b[0]
    else StrLt(a[1..], b[1..])
  }

  /** Integer order, as ksort orders the day keys. */
  predicate IntLt(a: int, b: int) {
    a < b
  }

  lemma {:induction false} StrLtIrreflexive(a: string)
    ensures !StrLt(a, a)
  {
    if |a| > 0 { StrLtIrreflexive(a[1..]); }
  }

  lemma {:induction false} StrLtTransitive(a: string, b: string, c: string)
    requires StrLt(a, b) && StrLt(b, c)
    ensures StrLt(a, c)
  {
    if |a| > 0 && |b| > 0 && |c| > 0 && a[0] == b[0] && b[0] == c[0] {
      StrLtTransitive(a[1..], b[1..], c[1..]);
    }
  }

  lemma {:induction false} StrLtTotal(a: string, b: string)
    ensures a == b || StrLt(a, b) || StrLt(b, a)
  {
    if |a| > 0 && |b| > 0 && a[0] == b[0] {
      StrLtTotal(a[1..], b[1..]);
      assert a == [a[0]] + a[1..] && b == [b[0]] + b[1..];
    }
  }

  /** String keys are totally ordered, so ksort on them is well defined. */
  lemma {:induction false} StrLtIsStrictTotalOrder()
    ensures StrictTotalOrder(StrLt)
  {
    forall a ensures !StrLt(a, a) { StrLtIrreflexive(a); }
    forall a, b, c | StrLt(a, b) && StrLt(b, c) ensures StrLt(a, c) { StrLtTransitive(a, b, c); }
    forall a, b ensures a == b || StrLt(a, b) || StrLt(b, a) { StrLtTotal(a, b); }
  }

  lemma {:induction false} IntLtIsStrictTotalOrder()
    ensures StrictTotalOrder(IntLt)
  {
  }
}
