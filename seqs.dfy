/** Array operations of JavaScript used across the core, on sequences:
    `filter`, `slice`, `sort` with a numeric comparator, `new Set(...)`. */
module Seqs {

  // ---------------------------------------------------------------------
  // filter

  /** `s.filter(p)`. */
  function Filter<T>(s: seq<T>, p: T -> bool): seq<T> {
    if s == [] then []
    else if p(s[0]) then [s[0]] + Filter(s[1..], p)
    else Filter(s[1..], p)
  }

  /** The filter keeps exactly the elements that pass, and no more of them
      than there were. */
  lemma {:induction false} FilterMembers<T>(s: seq<T>, p: T -> bool)
    ensures |Filter(s, p)| <= |s|
    ensures forall i :: 0 <= i < |Filter(s, p)| ==> Filter(s, p)[i] in s && p(Filter(s, p)[i])
    ensures forall i :: 0 <= i < |s| && p(s[i]) ==> s[i] in Filter(s, p)
  {
    if s != [] {
      FilterMembers(s[1..], p);
      var r := Filter(s, p);
      forall i | 0 <= i < |s| && p(s[i]) ensures s[i] in r {
        if i > 0 { assert s[i] == s[1..][i - 1]; }
      }
    }
  }

  /** A test no element passes keeps nothing. */
  lemma {:induction false} FilterNone<T>(s: seq<T>, p: T -> bool)
    requires forall i :: 0 <= i < |s| ==> !p(s[i])
    ensures Filter(s, p) == []
  {
    if s != [] {
      FilterNone(s[1..], p);
    }
  }

  /** `r` is `s` with some elements left out, the rest in their order. */
  predicate SubsequenceOf<T(==)>(r: seq<T>, s: seq<T>)
    decreases |s|
  {
    if r == [] then true
    else if s == [] then false
    else (r[0] == s[0] && SubsequenceOf(r[1..], s[1..])) || SubsequenceOf(r, s[1..])
  }

  /** `filter` keeps the order of what it keeps. */
  lemma {:induction false} FilterIsSubsequence<T>(s: seq<T>, p: T -> bool)
    ensures SubsequenceOf(Filter(s, p), s)
  {
    if s != [] {
      FilterIsSubsequence(s[1..], p);
      if p(s[0]) {
        assert Filter(s, p)[1..] == Filter(s[1..], p);
      }
    }
  }

  /** Two filters in a row keep what the conjunction keeps. */
  lemma {:induction false} FilterFilter<T>(s: seq<T>, p: T -> bool, q: T -> bool, both: T -> bool)
    requires forall i :: 0 <= i < |s| ==> both(s[i]) == (p(s[i]) && q(s[i]))
    ensures Filter(Filter(s, p), q) == Filter(s, both)
  {
    if s != [] {
      FilterFilter(s[1..], p, q, both);
      if p(s[0]) {
        assert Filter(s, p)[1..] == Filter(s[1..], p);
      }
    }
  }

  /** A filter that every element passes changes nothing. */
  lemma {:induction false} FilterKeepsAll<T>(s: seq<T>, p: T -> bool)
    requires forall i :: 0 <= i < |s| ==> p(s[i])
    ensures Filter(s, p) == s
  {
    if s != [] {
      FilterKeepsAll(s[1..], p);
    }
  }

  /** `s.filter(p).length`. */
  function Count<T>(s: seq<T>, p: T -> bool): nat {
    |Filter(s, p)|
  }

  lemma {:induction false} CountAppend<T>(a: seq<T>, b: seq<T>, p: T -> bool)
    ensures Filter(a + b, p) == Filter(a, p) + Filter(b, p)
  {
    if a == [] {
      assert a + b == b;
    } else {
      CountAppend(a[1..], b, p);
      assert (a + b)[1..] == a[1..] + b;
    }
  }

  /** Filters that agree on every element keep the same elements. */
  lemma {:induction false} FilterSame<T>(s: seq<T>, p: T -> bool, q: T -> bool)
    requires forall i :: 0 <= i < |s| ==> p(s[i]) == q(s[i])
    ensures Filter(s, p) == Filter(s, q)
  {
    if s != [] {
      FilterSame(s[1..], p, q);
    }
  }

  /** Replacing one element changes the count by what the old and the new
      element contribute. */
  lemma CountUpdate<T>(s: seq<T>, k: nat, x: T, p: T -> bool)
    requires k < |s|
    ensures Count(s[k := x], p) == Count(s, p) - (if p(s[k]) then 1 else 0) + (if p(x) then 1 else 0)
  {
    assert s == s[..k] + [s[k]] + s[k + 1..];
    assert s[k := x] == s[..k] + [x] + s[k + 1..];
    CountAppend(s[..k] + [s[k]], s[k + 1..], p);
    CountAppend(s[..k], [s[k]], p);
    CountAppend(s[..k] + [x], s[k + 1..], p);
    CountAppend(s[..k], [x], p);
  }

  /** Removing the element at `k` shortens the sequence by one and takes
      away exactly that element. */
  lemma RemoveAt<T>(s: seq<T>, k: nat)
    requires k < |s|
    ensures |s[..k] + s[k + 1..]| == |s| - 1
    ensures multiset(s[..k] + s[k + 1..]) + multiset{s[k]} == multiset(s)
  {
    assert s == s[..k] + [s[k]] + s[k + 1..];
    assert multiset(s) == multiset(s[..k]) + multiset([s[k]]) + multiset(s[k + 1..]);
  }

  /** Removing one element lowers the count by what it contributed. */
  lemma CountRemove<T>(s: seq<T>, k: nat, p: T -> bool)
    requires k < |s|
    ensures Count(s[..k] + s[k + 1..], p) == Count(s, p) - (if p(s[k]) then 1 else 0)
  {
    assert s == s[..k] + [s[k]] + s[k + 1..];
    CountAppend(s[..k] + [s[k]], s[k + 1..], p);
    CountAppend(s[..k], [s[k]], p);
    CountAppend(s[..k], s[k + 1..], p);
  }

  // ---------------------------------------------------------------------
  // slice and pagination

  /** How `Array.prototype.slice` reads an index: negative counts from the
      end, and the result is clamped to `[0, n]`. */
  function RelativeIndex(i: int, n: nat): (r: nat)
    ensures r <= n
    ensures 0 <= i ==> r == if i <= n then i else n
  {
    if i < 0 then (if n + i < 0 then 0 else n + i) else if i > n then n else i
  }

  /** `s.slice(start, end)`. */
  function Slice<T>(s: seq<T>, start: int, end: int): (r: seq<T>)
    ensures |r| <= |s|
  {
    var a := RelativeIndex(start, |s|);
    var b := RelativeIndex(end, |s|);
    if a < b then s[a..b] else []
  }

  /** One page of a list, as the controllers report it. */
  datatype Page<T> = Page(data: seq<T>, total: nat, hasMore: bool)

  /** `{data: s.slice(offset, offset + limit), total: s.length,
      hasMore: offset + limit < s.length}`. */
  function Paginate<T>(s: seq<T>, offset: int, limit: int): (p: Page<T>)
    ensures p.total == |s|
  {
    Page(Slice(s, offset, offset + limit), |s|, offset + limit < |s|)
  }

  /** For a non-negative offset and limit, the page is the `limit` elements
      from `offset` on (fewer at the end), and `hasMore` says exactly that
      elements remain after the page. */
  lemma PaginateWindow<T>(s: seq<T>, offset: int, limit: int)
    requires 0 <= offset && 0 <= limit
    ensures var p := Paginate(s, offset, limit);
            && (offset < |s| ==> p.data == s[offset..if offset + limit <= |s| then offset + limit else |s|])
            && (offset >= |s| ==> p.data == [])
            && (p.hasMore <==> offset + |p.data| < |s|)
  {
  }

  /** `s.slice(0, n)`. */
  function Take<T>(s: seq<T>, n: nat): (r: seq<T>)
    ensures |r| == if n <= |s| then n else |s|
    ensures r == s[..|r|]
  {
    if n <= |s| then s[..n] else s
  }

  // ---------------------------------------------------------------------
  // distinct values

  predicate NoDuplicates<T(==)>(s: seq<T>) {
    forall i, j :: 0 <= i < j < |s| ==> s[i] != s[j]
  }

  /** `[...new Set(s)]`: each value once, at its first occurrence. */
  function Distinct<T(==)>(s: seq<T>): (r: seq<T>)
    ensures NoDuplicates(r)
    ensures forall i :: 0 <= i < |r| ==> r[i] in s
    ensures forall i :: 0 <= i < |s| ==> s[i] in r
  {
    if s == [] then []
    else
      var d := Distinct(s[..|s| - 1]);
      assert s == s[..|s| - 1] + [s[|s| - 1]];
      if s[|s| - 1] in d then d else d + [s[|s| - 1]]
  }

  // ---------------------------------------------------------------------
  // sorting by a numeric key

  /** Largest key first. */
  predicate SortedDesc<T>(s: seq<T>, key: T -> int) {
    forall i, j :: 0 <= i < j < |s| ==> key(s[i]) >= key(s[j])
  }

  /** Puts `x` before the first element whose key is not larger, so that
      it precedes the elements with an equal key. */
  function InsertDesc<T>(x: T, s: seq<T>, key: T -> int): (r: seq<T>)
    requires SortedDesc(s, key)
    ensures SortedDesc(r, key)
    ensures multiset(r) == multiset(s) + multiset{x}
  {
    if s == [] then [x]
    else if key(s[0]) <= key(x) then
      assert s == [s[0]] + s[1..];
      [x] + s
    else
      var rest := InsertDesc(x, s[1..], key);
      assert rest[0] in multiset(rest);
      assert rest[0] != x ==> rest[0] in multiset(s[1..]);
      SortedCons(s[0], rest, key);
      assert s == [s[0]] + s[1..];
      [s[0]] + rest
  }

  /** An element with a key no smaller than the first key of a sorted
      sequence can go in front of it. */
  lemma SortedCons<T>(a: T, s: seq<T>, key: T -> int)
    requires SortedDesc(s, key) && (s != [] ==> key(a) >= key(s[0]))
    ensures SortedDesc([a] + s, key)
  {
    var r := [a] + s;
    forall i, j | 0 <= i < j < |r| ensures key(r[i]) >= key(r[j]) {
      if i == 0 {
        assert r[j] == s[j - 1];
        assert key(s[0]) >= key(s[j - 1]);
      } else {
        assert r[i] == s[i - 1] && r[j] == s[j - 1];
      }
    }
  }

  /** `s.sort((a, b) => key(b) - key(a))`: a stable sort, largest key
      first. Sorting by `-key` gives the ascending order. */
  function SortDesc<T>(s: seq<T>, key: T -> int): (r: seq<T>)
    ensures SortedDesc(r, key)
    ensures multiset(r) == multiset(s)
    ensures |r| == |s|
  {
    if s == [] then []
    else
      assert s == [s[0]] + s[1..];
      InsertDesc(s[0], SortDesc(s[1..], key), key)
  }

  /** The test "has key `k`". */
  function WithKey<T>(key: T -> int, k: int): T -> bool {
    x => key(x) == k
  }

  /** `filter` on a sequence with a first element. */
  lemma FilterCons<T>(a: T, t: seq<T>, p: T -> bool)
    ensures Filter([a] + t, p) == if p(a) then [a] + Filter(t, p) else Filter(t, p)
  {
    assert ([a] + t)[1..] == t;
  }

  /** One step of the insertion past a larger key keeps the order of the
      elements with key `k`. */
  lemma InsertStepStable<T>(x: T, s: seq<T>, rest: seq<T>, key: T -> int, k: int)
    requires s != [] && key(s[0]) > key(x)
    requires Filter(rest, WithKey(key, k)) == Filter([x] + s[1..], WithKey(key, k))
    ensures Filter([s[0]] + rest, WithKey(key, k)) == Filter([x] + s, WithKey(key, k))
  {
    var p := WithKey(key, k);
    assert s == [s[0]] + s[1..];
    FilterCons(s[0], rest, p);
    FilterCons(x, s[1..], p);
    FilterCons(x, s, p);
    FilterCons(s[0], s[1..], p);
  }

  /** Inserting `x` keeps, among the elements with any one key, the order
      of `[x] + s`: `x` lands before the elements whose key equals its own. */
  lemma {:induction false} InsertDescStable<T>(x: T, s: seq<T>, key: T -> int, k: int)
    requires SortedDesc(s, key)
    ensures Filter(InsertDesc(x, s, key), WithKey(key, k)) == Filter([x] + s, WithKey(key, k))
  {
    if s != [] && key(s[0]) > key(x) {
      var rest := InsertDesc(x, s[1..], key);
      assert InsertDesc(x, s, key) == [s[0]] + rest;
      InsertDescStable(x, s[1..], key, k);
      InsertStepStable(x, s, rest, key, k);
    }
  }

  /** The sort is stable: the elements with any one key come out in the
      order they went in. */
  lemma {:induction false} SortDescStable<T>(s: seq<T>, key: T -> int, k: int)
    ensures Filter(SortDesc(s, key), WithKey(key, k)) == Filter(s, WithKey(key, k))
  {
    if s != [] {
      var sorted := SortDesc(s[1..], key);
      assert SortDesc(s, key) == InsertDesc(s[0], sorted, key);
      SortDescStable(s[1..], key, k);
      InsertDescStable(s[0], sorted, key, k);
      SortStepStable(s, sorted, WithKey(key, k));
    }
  }

  /** A first element put in front of a tail with the same filter gives
      the same filter as the whole sequence. */
  lemma SortStepStable<T>(s: seq<T>, sorted: seq<T>, p: T -> bool)
    requires s != [] && Filter(sorted, p) == Filter(s[1..], p)
    ensures Filter([s[0]] + sorted, p) == Filter(s, p)
  {
    assert s == [s[0]] + s[1..];
    FilterCons(s[0], sorted, p);
    FilterCons(s[0], s[1..], p);
  }

  /** A sequence whose keys are all equal comes out of the sort unchanged. */
  lemma SortDescEqualKeys<T>(s: seq<T>, key: T -> int)
    requires forall i :: 0 <= i < |s| ==> key(s[i]) == key(s[0])
    ensures SortDesc(s, key) == s
  {
    if s != [] {
      var p := WithKey(key, key(s[0]));
      var r := SortDesc(s, key);
      SortDescStable(s, key, key(s[0]));
      FilterKeepsAll(s, p);
      forall i | 0 <= i < |r| ensures p(r[i]) {
        assert r[i] in multiset(s);
      }
      FilterKeepsAll(r, p);
    }
  }
}
