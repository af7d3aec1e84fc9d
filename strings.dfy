/**
 * The JavaScript string operations the application relies on: `trim`,
 * `split(/\s+/)`, `split('.')`, `join`, `lastIndexOf`, and the default
 * `Array.prototype.sort` order on strings (lexicographic by character).
 */
module Strings {

  /** The characters of the regular-expression class `\s`, which `trim` also removes. */
  const SPACES: set<char> := {
    ' ', '\t', '\n', '\r', '\U{000B}', '\U{000C}', '\U{00A0}', '\U{1680}',
    '\U{2000}', '\U{2001}', '\U{2002}', '\U{2003}', '\U{2004}', '\U{2005}', '\U{2006}', '\U{2007}', '\U{2008}', '\U{2009}', '\U{200A}',
    '\U{2028}', '\U{2029}', '\U{202F}', '\U{205F}', '\U{3000}', '\U{FEFF}'}

  predicate IsSpace(c: char) {
    c in SPACES
  }

  predicate NoSpace(s: string) {
    forall i :: 0 <= i < |s| ==> !IsSpace(s[i])
  }

  function TrimStart(s: string): (r: string)
    ensures |r| <= |s| && r == s[|s| - |r|..]
    ensures r == [] || !IsSpace(r[0])
    ensures forall i :: 0 <= i < |s| - |r| ==> IsSpace(s[i])
  {
    if s == [] || !IsSpace(s[0]) then s else TrimStart(s[1..])
  }

  function TrimEnd(s: string): (r: string)
    ensures |r| <= |s| && r == s[..|r|]
    ensures r == [] || !IsSpace(r[|r| - 1])
    ensures forall i :: |r| <= i < |s| ==> IsSpace(s[i])
  {
    if s == [] || !IsSpace(s[|s| - 1]) then s else TrimEnd(s[..|s| - 1])
  }

  /** `s.trim()`: `s` without its leading and trailing whitespace. */
  function Trim(s: string): (r: string)
    ensures r == [] || (!IsSpace(r[0]) && !IsSpace(r[|r| - 1]))
    ensures |r| <= |s|
  {
    TrimEnd(TrimStart(s))
  }

  /**
   * The trim is the infix of `s` that starts after the leading whitespace
   * (kept out of `Trim`'s contract: in scope everywhere, it slows the proofs
   * about `Trim` of a known string).
   */
  lemma TrimInfix(s: string)
    ensures var k := |s| - |TrimStart(s)|; k + |Trim(s)| <= |s| && Trim(s) == s[k..k + |Trim(s)|]
  {
    var t := TrimStart(s);
    var e := TrimEnd(t);
    assert Trim(s) == e;
    PrefixOfSuffix(s, t, e);
  }

  /** A prefix `e` of a suffix `t` of `s` is the infix of `s` where `t` starts. */
  lemma PrefixOfSuffix<T>(s: seq<T>, t: seq<T>, e: seq<T>)
    requires |t| <= |s| && t == s[|s| - |t|..] && |e| <= |t| && e == t[..|e|]
    ensures |s| - |t| + |e| <= |s| && e == s[|s| - |t|..|s| - |t| + |e|]
  {
    DropTake(s, |s| - |t|, |e|);
  }

  /** Taking `n` after dropping `k` is the infix from `k` of length `n`. */
  lemma DropTake<T>(s: seq<T>, k: nat, n: nat)
    requires k + n <= |s|
    ensures s[k..][..n] == s[k..k + n]
  {
  }

  /** The index of the first whitespace character of `s`, or `|s|` when there is none. */
  function FirstSpace(s: string): (i: nat)
    ensures i <= |s|
    ensures NoSpace(s[..i])
    ensures i < |s| ==> IsSpace(s[i])
  {
    if s == [] then 0 else if IsSpace(s[0]) then 0 else 1 + FirstSpace(s[1..])
  }

  /** `s.split(/\s+/)`: pieces between maximal runs of whitespace; `''` gives `['']`. */
  function SplitWs(s: string): (r: seq<string>)
    ensures |r| >= 1
    ensures forall k :: 0 <= k < |r| ==> NoSpace(r[k])
    decreases |s|
  {
    var i := FirstSpace(s);
    if i == |s| then [s]
    else
      var rest := TrimStart(s[i..]);
      [s[..i]] + SplitWs(rest)
  }

  /** `parts.join(sep)`. */
  function Join(parts: seq<string>, sep: string): string {
    if parts == [] then ""
    else if |parts| == 1 then parts[0]
    else parts[0] + sep + Join(parts[1..], sep)
  }

  /** Joining one more part appends the separator and the part. */
  lemma {:induction false} JoinSnoc(parts: seq<string>, x: string, sep: string)
    requires |parts| >= 1
    ensures Join(parts + [x], sep) == Join(parts, sep) + sep + x
    decreases |parts|
  {
    if |parts| > 1 {
      assert (parts + [x])[1..] == parts[1..] + [x];
      JoinSnoc(parts[1..], x, sep);
    }
  }

  /** A join of non-empty parts starts with the first part's first character and ends with the last part's last character. */
  lemma {:induction false} JoinEnds(parts: seq<string>, sep: string)
    requires |parts| >= 1 && forall k :: 0 <= k < |parts| ==> |parts[k]| > 0
    ensures var j := Join(parts, sep); |j| > 0 && j[0] == parts[0][0] && j[|j| - 1] == parts[|parts| - 1][|parts[|parts| - 1]| - 1]
    decreases |parts|
  {
    if |parts| > 1 {
      JoinEnds(parts[1..], sep);
    }
  }

  /** A string that neither starts nor ends with whitespace is its own trim. */
  lemma TrimUnchanged(s: string)
    requires |s| > 0 && !IsSpace(s[0]) && !IsSpace(s[|s| - 1])
    ensures Trim(s) == s
  {
    assert TrimStart(s) == s;
    assert TrimEnd(s) == s;
  }

  /** Non-empty whitespace-free words joined by a single space are their own trim. */
  lemma JoinWordsTrimmed(words: seq<string>)
    requires |words| >= 1 && forall k :: 0 <= k < |words| ==> |words[k]| > 0 && NoSpace(words[k])
    ensures Trim(Join(words, " ")) == Join(words, " ")
  {
    JoinEnds(words, " ");
    var first, last := words[0], words[|words| - 1];
    assert !IsSpace(first[0]) && !IsSpace(last[|last| - 1]);
    TrimUnchanged(Join(words, " "));
  }

  /** The first whitespace after a whitespace-free word is right after the word. */
  lemma {:induction false} FirstSpaceAfterWord(w: string, t: string)
    requires NoSpace(w) && |t| > 0 && IsSpace(t[0])
    ensures FirstSpace(w + t) == |w|
    decreases |w|
  {
    if w != [] {
      assert (w + t)[1..] == w[1..] + t;
      FirstSpaceAfterWord(w[1..], t);
    }
  }

  /** Splitting a space-joined list of non-empty words on whitespace gives the words back. */
  lemma {:induction false} SplitWsJoin(words: seq<string>)
    requires |words| >= 1 && forall k :: 0 <= k < |words| ==> |words[k]| > 0 && NoSpace(words[k])
    ensures SplitWs(Join(words, " ")) == words
    decreases |words|
  {
    var w := words[0];
    if |words| == 1 {
      assert FirstSpace(w) == |w|;
    } else {
      var rest := Join(words[1..], " ");
      JoinEnds(words[1..], " ");
      assert Join(words, " ") == w + (" " + rest);
      FirstSpaceAfterWord(w, " " + rest);
      assert (w + (" " + rest))[|w|..] == " " + rest;
      assert (w + (" " + rest))[..|w|] == w;
      assert TrimStart(" " + rest) == TrimStart(rest);
      assert TrimStart(rest) == rest;
      SplitWsJoin(words[1..]);
    }
  }

  /** The index of the first `c` in `s`, or `|s|` when there is none. */
  function IndexOf(s: string, c: char): (i: nat)
    ensures i <= |s|
    ensures c !in s[..i]
    ensures i < |s| ==> s[i] == c
  {
    if s == [] then 0 else if s[0] == c then 0 else 1 + IndexOf(s[1..], c)
  }

  /** `s.split(c)` for a one-character separator. */
  function SplitOn(s: string, c: char): (r: seq<string>)
    ensures |r| >= 1
    ensures forall k :: 0 <= k < |r| ==> c !in r[k]
    decreases |s|
  {
    var i := IndexOf(s, c);
    if i == |s| then [s] else [s[..i]] + SplitOn(s[i + 1..], c)
  }

  /** Joining a part in front of at least one more puts the separator between them. */
  lemma JoinCons(a: string, rest: seq<string>, sep: string)
    requires |rest| >= 1
    ensures Join([a] + rest, sep) == a + sep + Join(rest, sep)
  {
    assert ([a] + rest)[1..] == rest;
  }

  /** Splitting on a character and joining with it gives back the string. */
  lemma {:induction false} SplitOnJoin(s: string, c: char)
    ensures Join(SplitOn(s, c), [c]) == s
    decreases |s|
  {
    var i := IndexOf(s, c);
    if i < |s| {
      var rest := SplitOn(s[i + 1..], c);
      assert SplitOn(s, c) == [s[..i]] + rest;
      JoinCons(s[..i], rest, [c]);
      SplitOnJoin(s[i + 1..], c);
      assert s == s[..i] + [c] + s[i + 1..];
    }
  }

  /** The first `c` in `a + [c] + b` is the one after `a` when `a` has none. */
  lemma {:induction false} IndexOfAfter(a: string, b: string, c: char)
    requires c !in a
    ensures IndexOf(a + [c] + b, c) == |a|
    decreases |a|
  {
    if a != [] {
      assert (a + [c] + b)[1..] == a[1..] + [c] + b;
      IndexOfAfter(a[1..], b, c);
    }
  }

  /** Splitting a join whose parts hold no separator gives back the parts. */
  lemma {:induction false} JoinSplitOn(parts: seq<string>, c: char)
    requires |parts| >= 1 && forall k :: 0 <= k < |parts| ==> c !in parts[k]
    ensures SplitOn(Join(parts, [c]), c) == parts
    decreases |parts|
  {
    if |parts| == 1 {
      assert IndexOf(parts[0], c) == |parts[0]|;
    } else {
      var j := Join(parts, [c]);
      var rest := Join(parts[1..], [c]);
      assert j == parts[0] + [c] + rest;
      IndexOfAfter(parts[0], rest, c);
      assert j[..|parts[0]|] == parts[0];
      assert j[|parts[0]| + 1..] == rest;
      JoinSplitOn(parts[1..], c);
    }
  }

  /** Joins of parts free of the separator are equal only when the parts are. */
  lemma JoinInjective(xs: seq<string>, ys: seq<string>, c: char)
    requires |xs| >= 1 && forall k :: 0 <= k < |xs| ==> c !in xs[k]
    requires |ys| >= 1 && forall k :: 0 <= k < |ys| ==> c !in ys[k]
    requires Join(xs, [c]) == Join(ys, [c])
    ensures xs == ys
  {
    JoinSplitOn(xs, c);
    JoinSplitOn(ys, c);
  }

  /** `s.lastIndexOf(c)`: the last index holding `c`, or -1. */
  function LastIndexOf(s: string, c: char): (i: int)
    ensures -1 <= i < |s|
    ensures i >= 0 ==> s[i] == c
    ensures forall j :: i < j < |s| ==> s[j] != c
  {
    if s == [] then -1
    else if s[|s| - 1] == c then |s| - 1
    else LastIndexOf(s[..|s| - 1], c)
  }

  /** `n.toString()` for a natural number: its decimal digits, without leading zeros. */
  function Decimal(n: nat): (r: string)
    ensures |r| >= 1
    ensures forall i :: 0 <= i < |r| ==> '0' <= r[i] <= '9'
    ensures |r| > 1 ==> r[0] != '0'
  {
    if n < 10 then [('0' as int + n) as char]
    else Decimal(n / 10) + [('0' as int + n % 10) as char]
  }

  /** Lower-casing of the ASCII letters (the PMO kinds are ASCII). */
  function ToLowerAscii(s: string): (r: string)
    ensures |r| == |s|
    ensures forall i :: 0 <= i < |s| ==> r[i] == if 'A' <= s[i] <= 'Z' then (s[i] as int + 32) as char else s[i]
  {
    if s == [] then []
    else [if 'A' <= s[0] <= 'Z' then (s[0] as int + 32) as char else s[0]] + ToLowerAscii(s[1..])
  }

  /** The default order of `Array.prototype.sort` on strings: lexicographic by character. */
  predicate Less(a: string, b: string) {
    if a == [] then b != []
    else if b == [] then false
    else if a[0] != b[0] then a[0] < b[0]
    else Less(a[1..], b[1..])
  }

  lemma {:induction false} LessIrreflexive(a: string)
    ensures !Less(a, a)
  {
    if a != [] {
      LessIrreflexive(a[1..]);
    }
  }

  lemma {:induction false} LessTransitive(a: string, b: string, c: string)
    requires Less(a, b) && Less(b, c)
    ensures Less(a, c)
  {
    if a != [] && b != [] && c != [] && a[0] == b[0] && b[0] == c[0] {
      LessTransitive(a[1..], b[1..], c[1..]);
    }
  }

  /** Any two different strings are ordered one way or the other. */
  lemma {:induction false} LessTotal(a: string, b: string)
    requires a != b
    ensures Less(a, b) || Less(b, a)
  {
    if a != [] && b != [] && a[0] == b[0] {
      assert a == [a[0]] + a[1..] && b == [b[0]] + b[1..];
      LessTotal(a[1..], b[1..]);
    }
  }

  lemma {:induction false} LessAsymmetric(a: string, b: string)
    requires Less(a, b)
    ensures !Less(b, a)
  {
    if a != [] && b != [] && a[0] == b[0] {
      LessAsymmetric(a[1..], b[1..]);
    }
  }

  /** `a` comes no later than `b` in the sort order. */
  predicate LessEq(a: string, b: string) {
    !Less(b, a)
  }

  lemma LessEqTransitive(a: string, b: string, c: string)
    requires LessEq(a, b) && LessEq(b, c)
    ensures LessEq(a, c)
  {
    if Less(c, a) {
      if a == b {
      } else if b == c {
      } else {
        LessTotal(a, b);
        LessTotal(b, c);
        LessTransitive(a, b, c);
        LessAsymmetric(a, c);
      }
    }
  }

  predicate Sorted(s: seq<string>) {
    forall i, j :: 0 <= i < j < |s| ==> LessEq(s[i], s[j])
  }

  /** Inserting `x` before the first element that is not smaller than it. */
  function Insert(x: string, s: seq<string>): seq<string> {
    if s == [] || LessEq(x, s[0]) then [x] + s else [s[0]] + Insert(x, s[1..])
  }

  lemma {:induction false} InsertSorted(x: string, s: seq<string>)
    requires Sorted(s)
    ensures Sorted(Insert(x, s))
    ensures multiset(Insert(x, s)) == multiset(s) + multiset{x}
  {
    InsertElements(x, s);
    if s == [] {
    } else if LessEq(x, s[0]) {
      forall j | 0 <= j < |s| ensures LessEq(x, s[j]) {
        if j > 0 {
          LessEqTransitive(x, s[0], s[j]);
        }
      }
      ConsSorted(x, s);
    } else {
      assert Sorted(s[1..]);
      InsertSorted(x, s[1..]);
      var t := Insert(x, s[1..]);
      LessAsymmetric(s[0], x);
      HeadBeforeInserted(x, s, t);
      ConsSorted(s[0], t);
    }
  }

  /** Inserting adds `x` once and keeps everything else. */
  lemma {:induction false} InsertElements(x: string, s: seq<string>)
    ensures multiset(Insert(x, s)) == multiset(s) + multiset{x}
  {
    if s != [] && !LessEq(x, s[0]) {
      InsertElements(x, s[1..]);
      assert s == [s[0]] + s[1..];
    }
  }

  /** A head no later than anything in a sorted tail gives a sorted sequence. */
  lemma ConsSorted(h: string, t: seq<string>)
    requires Sorted(t) && forall k :: 0 <= k < |t| ==> LessEq(h, t[k])
    ensures Sorted([h] + t)
  {
  }

  /** The head of a sorted sequence comes no later than anything in the rest with `x` inserted, if it does not come after `x`. */
  lemma HeadBeforeInserted(x: string, s: seq<string>, t: seq<string>)
    requires Sorted(s) && s != [] && LessEq(s[0], x)
    requires multiset(t) == multiset(s[1..]) + multiset{x}
    ensures forall k :: 0 <= k < |t| ==> LessEq(s[0], t[k])
  {
    forall k | 0 <= k < |t| ensures LessEq(s[0], t[k]) {
      assert t[k] in multiset(s[1..]) + multiset{x};
      if t[k] != x {
        assert t[k] in s[1..];
      }
    }
  }

  /** The default `Array.prototype.sort()` on strings, as an insertion sort. */
  function SortStrings(s: seq<string>): seq<string> {
    if s == [] then [] else Insert(s[0], SortStrings(s[1..]))
  }

  /** Sorting yields an ordered rearrangement of its input. */
  lemma {:induction false} SortStringsCorrect(s: seq<string>)
    ensures Sorted(SortStrings(s))
    ensures multiset(SortStrings(s)) == multiset(s)
  {
    if s != [] {
      SortStringsCorrect(s[1..]);
      InsertSorted(s[0], SortStrings(s[1..]));
      assert s == [s[0]] + s[1..];
    }
  }

  /** Two ordered rearrangements of the same strings are the same sequence. */
  lemma {:induction false} SortedUnique(a: seq<string>, b: seq<string>)
    requires Sorted(a) && Sorted(b)
    requires multiset(a) == multiset(b)
    ensures a == b
  {
    if a != [] {
      SortedHeads(a, b);
      DropHead(a, b);
      assert Sorted(a[1..]) && Sorted(b[1..]);
      SortedUnique(a[1..], b[1..]);
      assert a == [a[0]] + a[1..] && b == [b[0]] + b[1..];
    }
  }

  /** Two ordered rearrangements of the same non-empty strings start alike. */
  lemma SortedHeads(a: seq<string>, b: seq<string>)
    requires Sorted(a) && Sorted(b) && a != []
    requires multiset(a) == multiset(b)
    ensures b != [] && a[0] == b[0]
  {
    assert a[0] in multiset(b);
    assert b != [] && b[0] in multiset(a);
    var i :| 0 <= i < |b| && b[i] == a[0];
    var j :| 0 <= j < |a| && a[j] == b[0];
    LessIrreflexive(a[0]);
    LessIrreflexive(b[0]);
    assert LessEq(a[0], a[j]) && LessEq(b[0], b[i]);
    if a[0] != b[0] {
      LessTotal(a[0], b[0]);
    }
  }

  /** Removing the same first element from two rearrangements leaves rearrangements. */
  lemma DropHead(a: seq<string>, b: seq<string>)
    requires a != [] && b != [] && a[0] == b[0]
    requires multiset(a) == multiset(b)
    ensures multiset(a[1..]) == multiset(b[1..])
  {
    assert a == [a[0]] + a[1..] && b == [b[0]] + b[1..];
    assert multiset(a[1..]) == multiset(a) - multiset{a[0]};
    assert multiset(b[1..]) == multiset(b) - multiset{b[0]};
  }

  /** Hence sorting forgets the order of its input. */
  lemma SortForgetsOrder(a: seq<string>, b: seq<string>)
    requires multiset(a) == multiset(b)
    ensures SortStrings(a) == SortStrings(b)
  {
    SortStringsCorrect(a);
    SortStringsCorrect(b);
    SortedUnique(SortStrings(a), SortStrings(b));
  }
}
