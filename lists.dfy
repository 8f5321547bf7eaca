/** `Array.prototype.filter` and the remove-by-id idiom built on it. */
module Lists {
  import opened Wrappers

  /** The index of the first element whose key is `k` (a `findById`/`findOne` lookup). */
  function FirstIndex<T, K(==)>(s: seq<T>, key: T -> K, k: K): (r: Option<nat>)
    ensures r.Some? ==> r.value < |s| && key(s[r.value]) == k
    ensures r.Some? ==> forall j :: 0 <= j < r.value ==> key(s[j]) != k
    ensures r.None? <==> forall j :: 0 <= j < |s| ==> key(s[j]) != k
  {
    if s == [] then None
    else if key(s[0]) == k then Some(0)
    else match FirstIndex(s[1..], key, k)
      case None => None
      case Some(i) => Some(i + 1)
  }

  /** The elements of `s` that satisfy `keep`, in their original order. */
  function Filter<T>(s: seq<T>, keep: T -> bool): (r: seq<T>)
    ensures |r| <= |s|
    ensures forall i :: 0 <= i < |r| ==> r[i] in s && keep(r[i])
    ensures forall i :: 0 <= i < |s| && keep(s[i]) ==> s[i] in r
  {
    if s == [] then []
    else if keep(s[0]) then [s[0]] + Filter(s[1..], keep)
    else Filter(s[1..], keep)
  }

  /** Filtering distributes over concatenation: the kept elements stay in their relative order. */
  lemma {:induction false} FilterAppend<T>(s: seq<T>, t: seq<T>, keep: T -> bool)
    ensures Filter(s + t, keep) == Filter(s, keep) + Filter(t, keep)
  {
    if s == [] {
      assert s + t == t;
    } else {
      assert (s + t)[1..] == s[1..] + t;
      FilterAppend(s[1..], t, keep);
    }
  }

  /** Filtering keeps `s` as it is when every element satisfies `keep`. */
  lemma {:induction false} FilterAllKept<T>(s: seq<T>, keep: T -> bool)
    requires forall i :: 0 <= i < |s| ==> keep(s[i])
    ensures Filter(s, keep) == s
  {
    if s != [] {
      FilterAllKept(s[1..], keep);
    }
  }

  /** An element is kept exactly when it occurs in `s` and satisfies `keep`. */
  lemma FilterMembers<T>(s: seq<T>, keep: T -> bool)
    ensures forall x :: x in Filter(s, keep) <==> x in s && keep(x)
  {
    var r := Filter(s, keep);
    forall x | x in s && keep(x) ensures x in r {
      var i :| 0 <= i < |s| && s[i] == x;
    }
  }

  /** Filtering twice with the same test is filtering once. */
  lemma FilterIdempotent<T>(s: seq<T>, keep: T -> bool)
    ensures Filter(Filter(s, keep), keep) == Filter(s, keep)
  {
    FilterAllKept(Filter(s, keep), keep);
  }

  /** Two filters can be applied in either order. */
  lemma {:induction false} FilterCommute<T>(s: seq<T>, p: T -> bool, q: T -> bool)
    ensures Filter(Filter(s, p), q) == Filter(Filter(s, q), p)
  {
    if s != [] {
      FilterCommute(s[1..], p, q);
    }
  }

  /** The test `x => key(x) !== k`. */
  function KeyIsNot<T, K(==)>(key: T -> K, k: K): T -> bool {
    x => key(x) != k
  }

  /** `s.filter(x => x._id !== k)`: every element whose key is `k` dropped, the others kept in order. */
  function RemoveKey<T, K(==)>(s: seq<T>, key: T -> K, k: K): (r: seq<T>)
    ensures forall i :: 0 <= i < |r| ==> r[i] in s && key(r[i]) != k
    ensures forall i :: 0 <= i < |s| && key(s[i]) != k ==> s[i] in r
  {
    Filter(s, KeyIsNot(key, k))
  }

  /** Removing a key that no element has changes nothing. */
  lemma RemoveAbsentKey<T, K>(s: seq<T>, key: T -> K, k: K)
    requires forall i :: 0 <= i < |s| ==> key(s[i]) != k
    ensures RemoveKey(s, key, k) == s
  {
    FilterAllKept(s, KeyIsNot(key, k));
  }

  /** Removing the same key twice is removing it once. */
  lemma RemoveKeyIdempotent<T, K>(s: seq<T>, key: T -> K, k: K)
    ensures RemoveKey(RemoveKey(s, key, k), key, k) == RemoveKey(s, key, k)
  {
    FilterIdempotent(s, KeyIsNot(key, k));
  }

  /** Removal preserves order: it distributes over concatenation. */
  lemma RemoveKeyAppend<T, K>(s: seq<T>, t: seq<T>, key: T -> K, k: K)
    ensures RemoveKey(s + t, key, k) == RemoveKey(s, key, k) + RemoveKey(t, key, k)
  {
    FilterAppend(s, t, KeyIsNot(key, k));
  }

  /** When only the element at `i` has key `k`, removing `k` deletes exactly index `i`. */
  lemma RemoveUniqueKey<T, K>(s: seq<T>, key: T -> K, k: K, i: nat)
    requires i < |s| && key(s[i]) == k
    requires forall j :: 0 <= j < |s| && j != i ==> key(s[j]) != k
    ensures RemoveKey(s, key, k) == s[..i] + s[i + 1..]
  {
    assert s == s[..i] + ([s[i]] + s[i + 1..]);
    RemoveKeyAppend(s[..i], [s[i]] + s[i + 1..], key, k);
    RemoveKeyAppend([s[i]], s[i + 1..], key, k);
    RemoveAbsentKey(s[..i], key, k);
    RemoveAbsentKey(s[i + 1..], key, k);
    assert [s[i]][1..] == [];
  }

  /**
   * Appending an element does not move the lookup of a key already present; a key that was
   * absent is found at the new element exactly when the new element has it.
   */
  lemma FirstIndexAppend<T, K>(s: seq<T>, x: T, key: T -> K, k: K)
    ensures FirstIndex(s, key, k).Some? ==> FirstIndex(s + [x], key, k) == FirstIndex(s, key, k)
    ensures FirstIndex(s, key, k).None? && key(x) == k ==> FirstIndex(s + [x], key, k) == Some(|s|)
    ensures FirstIndex(s, key, k).None? && key(x) != k ==> FirstIndex(s + [x], key, k).None?
  {
    var t := s + [x];
    assert forall j :: 0 <= j < |s| ==> t[j] == s[j];
    assert t[|s|] == x;
  }

  /** Two sequences with the same keys, position by position, answer every lookup alike. */
  lemma {:induction false} FirstIndexSameKeys<T, K>(s: seq<T>, t: seq<T>, key: T -> K, k: K)
    requires |s| == |t| && forall j :: 0 <= j < |s| ==> key(s[j]) == key(t[j])
    ensures FirstIndex(s, key, k) == FirstIndex(t, key, k)
  {
    if s != [] {
      assert key(s[0]) == key(t[0]);
      FirstIndexSameKeys(s[1..], t[1..], key, k);
    }
  }
}
