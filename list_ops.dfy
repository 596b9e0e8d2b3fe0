/**
 * The JavaScript array built-ins the storefront relies on, as functions on
 * sequences: `filter`, `slice`, a stable `sort`, `Math.ceil(n / d)`, and the
 * "toggle an item in or out of a list" update both filter panels perform.
 */
module ListOps {

  function Min(a: int, b: int): int { if a <= b then a else b }
  function Max(a: int, b: int): int { if a <= b then b else a }

  // ---------------------------------------------------------------- filter

  /** `s.filter(p)`: the elements of `s` that satisfy `p`, in their order. */
  function Filter<T(!new)>(s: seq<T>, p: T -> bool): (r: seq<T>)
    ensures |r| <= |s|
    ensures forall x :: x in r <==> x in s && p(x)
  {
    if s == [] then []
    else if p(s[0]) then [s[0]] + Filter(s[1..], p)
    else Filter(s[1..], p)
  }

  /** Every kept element is kept as often as it occurs; the others not at all. */
  lemma {:induction false} FilterCount<T(!new)>(s: seq<T>, p: T -> bool, x: T)
    ensures multiset(Filter(s, p))[x] == if p(x) then multiset(s)[x] else 0
  {
    if s != [] {
      FilterCount(s[1..], p, x);
      assert s == [s[0]] + s[1..];
    }
  }

  /** `a` is obtained from `b` by deleting elements: same order, nothing added. */
  ghost predicate Subsequence<T>(a: seq<T>, b: seq<T>)
    decreases |b|
  {
    if b == [] then a == []
    else (a != [] && a[0] == b[0] && Subsequence(a[1..], b[1..])) || Subsequence(a, b[1..])
  }

  lemma {:induction false} FilterIsSubsequence<T(!new)>(s: seq<T>, p: T -> bool)
    ensures Subsequence(Filter(s, p), s)
  {
    if s != [] {
      FilterIsSubsequence(s[1..], p);
    }
  }

  lemma {:induction false} FilterConcat<T(!new)>(a: seq<T>, b: seq<T>, p: T -> bool)
    ensures Filter(a + b, p) == Filter(a, p) + Filter(b, p)
  {
    if a != [] {
      assert (a + b)[1..] == a[1..] + b;
      FilterConcat(a[1..], b, p);
    } else {
      assert a + b == b;
    }
  }

  /** Filters that agree on every element give the same list. */
  lemma {:induction false} FilterExt<T(!new)>(s: seq<T>, p: T -> bool, q: T -> bool)
    requires forall x :: x in s ==> p(x) == q(x)
    ensures Filter(s, p) == Filter(s, q)
  {
    if s != [] {
      FilterExt(s[1..], p, q);
    }
  }

  /** A filter that keeps every element is the identity. */
  lemma {:induction false} FilterKeepsAll<T(!new)>(s: seq<T>, p: T -> bool)
    requires forall x :: x in s ==> p(x)
    ensures Filter(s, p) == s
  {
    if s != [] {
      FilterKeepsAll(s[1..], p);
    }
  }

  /** Filtering twice is filtering once by the conjunction. */
  lemma {:induction false} FilterFilter<T(!new)>(s: seq<T>, p: T -> bool, q: T -> bool, both: T -> bool)
    requires forall x :: both(x) == (p(x) && q(x))
    ensures Filter(Filter(s, p), q) == Filter(s, both)
  {
    if s != [] {
      FilterFilter(s[1..], p, q, both);
    }
  }

  /** The two halves of a partition together hold every element exactly once. */
  lemma {:induction false} PartitionIsPermutation<T(!new)>(s: seq<T>, p: T -> bool, notP: T -> bool)
    requires forall x :: notP(x) == !p(x)
    ensures multiset(Filter(s, p) + Filter(s, notP)) == multiset(s)
  {
    if s != [] {
      var t := s[1..];
      PartitionIsPermutation(t, p, notP);
      assert multiset(s) == multiset([s[0]]) + multiset(t) by {
        assert s == [s[0]] + t;
      }
      if p(s[0]) {
        assert Filter(s, p) == [s[0]] + Filter(t, p);
        assert Filter(s, notP) == Filter(t, notP);
      } else {
        assert Filter(s, p) == Filter(t, p);
        assert Filter(s, notP) == [s[0]] + Filter(t, notP);
      }
    }
  }

  // ---------------------------------------------------------------- toggle

  /**
   * The checkbox update of the filter panels: a present item is removed
   * (every occurrence), an absent one is appended at the end.
   */
  function Toggle<T(==,!new)>(list: seq<T>, item: T): seq<T>
  {
    if item in list then Filter(list, x => x != item) else list + [item]
  }

  lemma ToggleAbsentAppends<T(!new)>(list: seq<T>, item: T)
    requires item !in list
    ensures Toggle(list, item) == list + [item]
  {
  }

  lemma TogglePresentRemovesAll<T(!new)>(list: seq<T>, item: T)
    requires item in list
    ensures item !in Toggle(list, item)
    ensures forall y :: y != item ==> multiset(Toggle(list, item))[y] == multiset(list)[y]
    ensures Subsequence(Toggle(list, item), list)
  {
    var keep := (x: T) => x != item;
    FilterIsSubsequence(list, keep);
    forall y | y != item ensures multiset(Toggle(list, item))[y] == multiset(list)[y] {
      FilterCount(list, keep, y);
    }
  }

  /** Toggling an absent item twice gives back the original list. */
  lemma ToggleTwiceRestores<T(!new)>(list: seq<T>, item: T)
    requires item !in list
    ensures Toggle(Toggle(list, item), item) == list
  {
    var keep := (x: T) => x != item;
    assert item in list + [item];
    FilterConcat(list, [item], keep);
    FilterKeepsAll(list, keep);
  }

  // ---------------------------------------------------------------- slice

  /**
   * `s.slice(start, end)` for non-negative bounds: both are clamped to the
   * length, and an empty range gives the empty list.
   */
  function Slice<T>(s: seq<T>, start: nat, end: nat): (r: seq<T>)
    ensures |r| <= Max(0, end - start)
    ensures |r| == Max(0, Min(end, |s|) - start)
    ensures forall k :: 0 <= k < |r| ==> start + k < |s| && r[k] == s[start + k]
  {
    if start >= |s| || end <= start then [] else s[start..Min(end, |s|)]
  }

  /**
   * `s.filter((_, i) => i !== idx)`: drops the element at position `idx`, if
   * there is one, and keeps the others in order.
   */
  function WithoutIndex<T>(s: seq<T>, idx: int): (r: seq<T>)
    ensures 0 <= idx < |s| ==> r == s[..idx] + s[idx + 1..]
    ensures !(0 <= idx < |s|) ==> r == s
    decreases |s|
  {
    if s == [] then []
    else if idx == 0 then s[1..]
    else
      var rest := WithoutIndex(s[1..], idx - 1);
      assert 0 < idx < |s| ==> s[..idx] + s[idx + 1..] == [s[0]] + (s[1..][..idx - 1] + s[1..][idx..]);
      [s[0]] + rest
  }

  /** `Math.ceil(n / d)` for a natural `n` and a positive `d`. */
  function CeilDiv(n: nat, d: nat): (r: nat)
    requires d > 0
    ensures r * d >= n
    ensures r > 0 ==> (r - 1) * d < n
  {
    (n + d - 1) / d
  }

  // ---------------------------------------------------------------- sort

  /** Non-decreasing by `key`. */
  ghost predicate SortedBy<T>(s: seq<T>, key: T -> int)
  {
    forall i, j :: 0 <= i < j < |s| ==> key(s[i]) <= key(s[j])
  }

  /** One insertion step: `x` goes before the first element whose key is at least its own. */
  function Insert<T>(x: T, s: seq<T>, key: T -> int): seq<T>
  {
    if s == [] || key(x) <= key(s[0]) then [x] + s
    else [s[0]] + Insert(x, s[1..], key)
  }

  /** Inserting into a sorted list keeps it sorted; the head is `x` or the old head. */
  lemma {:induction false} InsertSorted<T>(x: T, s: seq<T>, key: T -> int)
    requires SortedBy(s, key)
    ensures SortedBy(Insert(x, s, key), key)
    ensures |Insert(x, s, key)| == |s| + 1
    ensures Insert(x, s, key)[0] == x || (s != [] && Insert(x, s, key)[0] == s[0])
  {
    if s != [] && key(x) > key(s[0]) {
      var rest := Insert(x, s[1..], key);
      InsertSorted(x, s[1..], key);
      var r := [s[0]] + rest;
      forall i, j | 0 <= i < j < |r| ensures key(r[i]) <= key(r[j]) {
        if i == 0 {
          assert key(s[0]) <= key(rest[0]) <= key(rest[j - 1]);
        } else {
          assert r[i] == rest[i - 1] && r[j] == rest[j - 1];
        }
      }
    }
  }

  /** Inserting adds exactly `x` to the elements. */
  lemma {:induction false} InsertPermutes<T>(x: T, s: seq<T>, key: T -> int)
    ensures multiset(Insert(x, s, key)) == multiset(s) + multiset{x}
  {
    if s != [] && key(x) > key(s[0]) {
      InsertPermutes(x, s[1..], key);
      assert s == [s[0]] + s[1..];
    }
  }

  function SortBy<T>(s: seq<T>, key: T -> int): (r: seq<T>)
    ensures SortedBy(r, key)
    ensures multiset(r) == multiset(s)
    ensures |r| == |s|
  {
    if s == [] then []
    else
      var sorted := SortBy(s[1..], key);
      InsertSorted(s[0], sorted, key);
      InsertPermutes(s[0], sorted, key);
      assert s == [s[0]] + s[1..];
      Insert(s[0], sorted, key)
  }

  /**
   * Inserting `x` puts it after every element with its own key: among the
   * elements with one given key, `x` comes first and the others keep their order.
   */
  lemma {:induction false} FilterInsert<T(!new)>(x: T, s: seq<T>, key: T -> int, p: T -> bool, k: int)
    requires forall y :: p(y) == (key(y) == k)
    ensures Filter(Insert(x, s, key), p) == (if p(x) then [x] else []) + Filter(s, p)
  {
    if s != [] && key(x) > key(s[0]) {
      FilterInsert(x, s[1..], key, p, k);
      assert p(x) ==> !p(s[0]);
      assert Insert(x, s, key) == [s[0]] + Insert(x, s[1..], key);
      assert ([s[0]] + Insert(x, s[1..], key))[1..] == Insert(x, s[1..], key);
    } else {
      assert ([x] + s)[1..] == s;
    }
  }

  /**
   * `SortBy` is stable, as `Array.prototype.sort` is: the elements sharing a
   * key appear in the result in the order they had in the input.
   */
  lemma {:induction false} SortByStable<T(!new)>(s: seq<T>, key: T -> int, p: T -> bool, k: int)
    requires forall y :: p(y) == (key(y) == k)
    ensures Filter(SortBy(s, key), p) == Filter(s, p)
  {
    if s != [] {
      SortByStable(s[1..], key, p, k);
      FilterInsert(s[0], SortBy(s[1..], key), key, p, k);
    }
  }
}
