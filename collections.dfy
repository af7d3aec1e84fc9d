/**
 * The array idioms the board and editor code relies on, as functions on
 * sequences: `findIndex`, `filter`, `Array.from(new Set(xs))` and the
 * add-or-delete toggle of a `Set`.
 */
module Collections {

  /** Concatenation is associative. */
  lemma AppendAssoc<T>(a: seq<T>, b: seq<T>, c: seq<T>)
    ensures (a + b) + c == a + (b + c)
  {
  }

  /** `s.map(f)`. */
  function Mapped<A, B>(s: seq<A>, f: A -> B): (r: seq<B>)
    ensures |r| == |s|
    ensures forall i :: 0 <= i < |s| ==> r[i] == f(s[i])
  {
    seq(|s|, i requires 0 <= i < |s| => f(s[i]))
  }

  /** Mapping commutes with appending one element. */
  lemma MappedSnoc<A, B>(s: seq<A>, x: A, f: A -> B)
    ensures Mapped(s + [x], f) == Mapped(s, f) + [f(x)]
  {
    var a, b := Mapped(s + [x], f), Mapped(s, f) + [f(x)];
    forall i | 0 <= i < |a|
      ensures a[i] == b[i]
    {
      if i < |s| {
        assert (s + [x])[i] == s[i];
      }
    }
  }

  /** A two-element sequence is the display of its two elements. */
  lemma PairOf<T>(s: seq<T>, a: T, b: T)
    requires |s| == 2 && s[0] == a && s[1] == b
    ensures s == [a, b]
  {
  }

  /** A prefix one longer is the prefix followed by the next element. */
  lemma TakeSnoc<T>(s: seq<T>, i: nat)
    requires i < |s|
    ensures s[..i + 1] == s[..i] + [s[i]]
  {
  }

  predicate NoDup<T(==)>(s: seq<T>) {
    forall i, j :: 0 <= i < j < |s| ==> s[i] != s[j]
  }

  /** `findIndex(p)`: the first index whose element satisfies `p`, or -1. */
  function FirstIndex<T>(s: seq<T>, p: T -> bool): (i: int)
    ensures -1 <= i < |s|
    ensures i >= 0 ==> p(s[i])
    ensures forall j :: 0 <= j < |s| && (i < 0 || j < i) ==> !p(s[j])
  {
    if s == [] then -1
    else if p(s[0]) then 0
    else
      var k := FirstIndex(s[1..], p);
      assert forall j :: 1 <= j < |s| ==> s[j] == s[1..][j - 1];
      if k < 0 then -1 else k + 1
  }

  /** `filter(keep)`: the kept elements, in order, each as often as it occurred. */
  function Filter<T>(s: seq<T>, keep: T -> bool): (r: seq<T>)
    ensures |r| <= |s|
    ensures forall x :: x in r ==> x in s && keep(x)
    ensures forall x :: x in s && keep(x) ==> x in r
  {
    if s == [] then []
    else if keep(s[0]) then [s[0]] + Filter(s[1..], keep)
    else Filter(s[1..], keep)
  }

  /** Filtering distributes over concatenation, so it keeps the relative order of what it keeps. */
  lemma {:induction false} FilterAppend<T>(a: seq<T>, b: seq<T>, keep: T -> bool)
    ensures Filter(a + b, keep) == Filter(a, keep) + Filter(b, keep)
  {
    if a != [] {
      assert (a + b)[1..] == a[1..] + b;
      FilterAppend(a[1..], b, keep);
    } else {
      assert a + b == b;
    }
  }

  /** A filter that keeps everything changes nothing. */
  lemma {:induction false} FilterAll<T>(s: seq<T>, keep: T -> bool)
    requires forall x :: x in s ==> keep(x)
    ensures Filter(s, keep) == s
  {
    if s != [] {
      FilterAll(s[1..], keep);
    }
  }

  /** Two filters in a row are one filter by both conditions. */
  lemma {:induction false} FilterFilter<T>(s: seq<T>, p: T -> bool, q: T -> bool, both: T -> bool)
    requires forall x :: x in s ==> both(x) == (p(x) && q(x))
    ensures Filter(Filter(s, p), q) == Filter(s, both)
  {
    if s != [] {
      FilterFilter(s[1..], p, q, both);
    }
  }

  /** `Array.from(new Set(s))`: the elements of `s` in order of first occurrence, each once. */
  function Dedup<T(==,!new)>(s: seq<T>): (r: seq<T>)
    ensures NoDup(r)
    ensures forall x :: x in r <==> x in s
    ensures |r| <= |s|
    decreases |s|
  {
    if s == [] then []
    else
      var init := Dedup(s[..|s| - 1]);
      var last := s[|s| - 1];
      assert forall x :: x in s <==> x in s[..|s| - 1] || x == last by {
        assert s == s[..|s| - 1] + [last];
      }
      if last in init then init else init + [last]
  }

  /** Some occurrence of `x` in `s` comes before every occurrence of `y`. */
  ghost predicate OccursBefore<T>(s: seq<T>, x: T, y: T) {
    exists a :: 0 <= a < |s| && s[a] == x && y !in s[..a]
  }

  /** Appending one element: it joins the end exactly when it is new. */
  lemma DedupSnoc<T(!new)>(s: seq<T>, x: T)
    ensures Dedup(s + [x]) == if x in s then Dedup(s) else Dedup(s) + [x]
  {
    assert (s + [x])[..|s|] == s;
    assert (s + [x])[|s|] == x;
  }

  /** `Dedup` keeps first-occurrence order: an earlier element first appears in `s` before the later one does. */
  lemma {:induction false} DedupFirstOccurrenceOrder<T(!new)>(s: seq<T>)
    ensures forall i, j :: 0 <= i < j < |Dedup(s)| ==> OccursBefore(s, Dedup(s)[i], Dedup(s)[j])
    decreases |s|
  {
    if s != [] {
      var t, last := s[..|s| - 1], s[|s| - 1];
      DedupFirstOccurrenceOrder(t);
      var d, r := Dedup(t), Dedup(s);
      forall i, j | 0 <= i < j < |r|
        ensures OccursBefore(s, r[i], r[j])
      {
        assert r[i] == d[i];
        assert r[i] in t;
        if j < |d| {
          assert OccursBefore(t, d[i], d[j]);
          var a :| 0 <= a < |t| && t[a] == d[i] && d[j] !in t[..a];
          assert s[..a] == t[..a];
          assert s[a] == d[i];
        } else {
          assert r[j] == last && last !in t;
          var a :| 0 <= a < |t| && t[a] == d[i];
          assert s[..a] == t[..a];
          assert s[a] == d[i];
        }
      }
    }
  }

  /** A sequence without duplicates is its own set-order. */
  lemma {:induction false} DedupNoDup<T(!new)>(s: seq<T>)
    requires NoDup(s)
    ensures Dedup(s) == s
    decreases |s|
  {
    if s != [] {
      DedupNoDup(s[..|s| - 1]);
      assert s[|s| - 1] !in s[..|s| - 1];
      assert s == s[..|s| - 1] + [s[|s| - 1]];
    }
  }

  /** Every element except `x`. */
  function Without<T(==,!new)>(s: seq<T>, x: T): (r: seq<T>)
    ensures forall y :: y in r <==> y in s && y != x
    ensures NoDup(s) ==> NoDup(r)
    ensures |r| <= |s|
  {
    if s == [] then []
    else
      var rest := Without(s[1..], x);
      assert NoDup(s) ==> NoDup(s[1..]) && s[0] !in s[1..];
      if s[0] == x then rest else [s[0]] + rest
  }

  /** `set.has(x) ? set.delete(x) : set.add(x)`, then `Array.from(set)`. */
  function Toggle<T(==,!new)>(s: seq<T>, x: T): (r: seq<T>)
    ensures NoDup(r)
    ensures forall y :: y != x ==> (y in r <==> y in s)
    ensures x in r <==> x !in s
  {
    var d := Dedup(s);
    if x in d then Without(d, x) else d + [x]
  }

  /** Toggling twice gives back a sequence without duplicates. */
  lemma ToggleTwice<T(!new)>(s: seq<T>, x: T)
    requires NoDup(s) && x !in s
    ensures Toggle(Toggle(s, x), x) == s
  {
    DedupNoDup(s);
    assert Toggle(s, x) == s + [x];
    DedupNoDup(s + [x]);
    WithoutLast(s, x);
  }

  lemma {:induction false} WithoutLast<T(!new)>(s: seq<T>, x: T)
    requires x !in s
    ensures Without(s + [x], x) == s
  {
    if s != [] {
      assert (s + [x])[1..] == s[1..] + [x];
      WithoutLast(s[1..], x);
    }
  }

  /** `new Map(items.map(x => [key(x), x]))`: one entry per key, a later item replacing an earlier one. */
  function MapFrom<K(==,!new), T>(items: seq<T>, key: T -> K): (m: map<K, T>)
    ensures forall k :: k in m <==> exists i :: 0 <= i < |items| && key(items[i]) == k
    ensures forall k :: k in m ==> m[k] in items
  {
    if items == [] then map[]
    else
      var front := items[..|items| - 1];
      var last := items[|items| - 1];
      assert forall i :: 0 <= i < |front| ==> front[i] == items[i];
      MapFrom(front, key)[key(last) := last]
  }

  /** An item whose key no later item repeats is the entry for that key. */
  lemma {:induction false} MapFromLastWins<K(!new), T>(items: seq<T>, key: T -> K, i: nat)
    requires i < |items|
    requires forall j :: i < j < |items| ==> key(items[j]) != key(items[i])
    ensures key(items[i]) in MapFrom(items, key) && MapFrom(items, key)[key(items[i])] == items[i]
    decreases |items|
  {
    if i < |items| - 1 {
      var front := items[..|items| - 1];
      assert forall j :: i < j < |front| ==> front[j] == items[j];
      MapFromLastWins(front, key, i);
    }
  }

  /** `s` is in non-decreasing order of `key`. */
  predicate SortedBy<T>(s: seq<T>, key: T -> int) {
    forall i, j :: 0 <= i < j < |s| ==> key(s[i]) <= key(s[j])
  }

  /** Inserting `x` before the first element whose key is not below its own. */
  function InsertBy<T>(x: T, s: seq<T>, key: T -> int): seq<T> {
    if s == [] || key(x) <= key(s[0]) then [x] + s else [s[0]] + InsertBy(x, s[1..], key)
  }

  /** A stable sort by `key`, as `Array.prototype.sort` with a comparator on keys performs it. */
  function SortBy<T>(s: seq<T>, key: T -> int): seq<T> {
    if s == [] then [] else InsertBy(s[0], SortBy(s[1..], key), key)
  }

  /** Inserting adds `x` once and keeps everything else. */
  lemma {:induction false} InsertByElements<T>(x: T, s: seq<T>, key: T -> int)
    ensures multiset(InsertBy(x, s, key)) == multiset(s) + multiset{x}
  {
    if s != [] && key(s[0]) < key(x) {
      InsertByElements(x, s[1..], key);
      assert s == [s[0]] + s[1..];
    }
  }

  lemma {:induction false} InsertBySorted<T>(x: T, s: seq<T>, key: T -> int)
    requires SortedBy(s, key)
    ensures SortedBy(InsertBy(x, s, key), key)
  {
    if s != [] && key(s[0]) < key(x) {
      InsertBySorted(x, s[1..], key);
      InsertByElements(x, s[1..], key);
      var t := InsertBy(x, s[1..], key);
      forall k | 0 <= k < |t| ensures key(s[0]) <= key(t[k]) {
        assert t[k] in multiset(s[1..]) + multiset{x};
        if t[k] != x {
          assert t[k] in s[1..];
        }
      }
      assert InsertBy(x, s, key) == [s[0]] + t;
    }
  }

  /** Sorting orders its input by key and only rearranges it. */
  lemma {:induction false} SortByCorrect<T>(s: seq<T>, key: T -> int)
    ensures SortedBy(SortBy(s, key), key)
    ensures multiset(SortBy(s, key)) == multiset(s)
  {
    if s != [] {
      SortByCorrect(s[1..], key);
      InsertBySorted(s[0], SortBy(s[1..], key), key);
      InsertByElements(s[0], SortBy(s[1..], key), key);
      assert s == [s[0]] + s[1..];
    }
  }

  /** A sequence already in key order is left as it is, so sorting twice is sorting once. */
  lemma {:induction false} SortBySorted<T>(s: seq<T>, key: T -> int)
    requires SortedBy(s, key)
    ensures SortBy(s, key) == s
  {
    if s != [] {
      SortBySorted(s[1..], key);
      assert s == [s[0]] + s[1..];
    }
  }
}
