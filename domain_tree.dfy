/**
 * The home page's domain tree: each domain hangs under the domain at its
 * parent location, each person under the domain at their own location,
 * every list is ordered by label, and the component records which nodes
 * are expanded. Domain nodes are shared objects in the application (the
 * location index and the children lists hold the same node); here they
 * are named by their location (`Located`), and each location's children
 * list lives in one map. `localeCompare` is the collation key `rank`.
 */
module DomainTree {
  import opened Wrappers
  import opened Strings
  import opened Collections

  /** The fields of a domain record the tree reads; `kind` is the raw `EntityKind` value. */
  datatype Domain = Domain(kind: string, name: string, id: string, location: string, resourceType: string)

  /** The fields of a person record the tree reads. */
  datatype Person = Person(email: string, name: string, surname: string, displayName: string,
                           id: string, location: string, resourceType: string)

  /** A PrimeNG tree node; `leaf` is set only on people. */
  datatype TreeNode = TreeNode(key: string, nodeLabel: string, icon: string, nodeType: string, leaf: bool)

  /** An entry of a children list: the domain node filed under a location, or a person's own leaf node. */
  datatype Ref = Located(loc: string) | Leaf(node: TreeNode)

  /** The location index, the children list of every indexed location, and the roots. */
  datatype Forest = Forest(byLocation: map<string, TreeNode>, children: map<string, seq<Ref>>, roots: seq<Ref>)

  /** `s`, with a `/` put in front unless it already starts with one. */
  function Rooted(s: string): (r: string)
    ensures |r| >= 1 && r[0] == '/'
    ensures r == s || r == "/" + s
  {
    if |s| > 0 && s[0] == '/' then s else "/" + s
  }

  /** `norm`: trimmed, rooted at `/`, with one trailing `/` dropped; blank is `/`. */
  function Norm(p: string): (r: string)
    ensures |r| >= 1 && r[0] == '/'
  {
    var s := Trim(p);
    if |s| == 0 then "/" else DropTrailingSlash(Rooted(s))
  }

  /** A blank path normalises to `/`; any other is its trim, rooted, with at most one trailing `/` dropped. */
  lemma NormCases(p: string)
    ensures Trim(p) == [] ==> Norm(p) == "/"
    ensures Trim(p) != [] ==> Norm(p) == Rooted(Trim(p)) || Rooted(Trim(p)) == Norm(p) + "/"
  {
  }

  /** `s` without its final `/`, unless `s` is the bare `/`. */
  function DropTrailingSlash(s: string): (r: string)
    ensures r == s || s == r + "/"
    ensures |s| >= 1 ==> |r| >= 1 && r[0] == s[0]
  {
    if |s| > 1 && s[|s| - 1] == '/' then
      assert s == s[..|s| - 1] + "/";
      s[..|s| - 1]
    else s
  }

  /** `Norm` of a path whose trim `s` is known and not blank. */
  lemma NormOfTrimmed(p: string, s: string)
    requires Trim(p) == s && s != []
    ensures Norm(p) == DropTrailingSlash(Rooted(s))
  {
  }

  /** A path that is already rooted, trimmed and free of a trailing `/` (or is `/`) is its own normal form. */
  lemma NormCanonical(p: string)
    requires |p| >= 1 && p[0] == '/' && !IsSpace(p[|p| - 1])
    requires |p| == 1 || p[|p| - 1] != '/'
    ensures Norm(p) == p
  {
    TrimUnchanged(p);
    NormOfTrimmed(p, p);
    assert Rooted(p) == p;
  }

  /**
   * Only one trailing `/` goes per call, so normalising is not idempotent:
   * `w//` gives `/w/`, which gives `/w` (for example `a//`, `/a/`, `/a`).
   */
  lemma NormNotIdempotent(w: string)
    requires |w| >= 1 && !IsSpace(w[0]) && w[0] != '/'
    ensures Norm(w + "//") == "/" + w + "/"
    ensures Norm(Norm(w + "//")) == "/" + w
  {
    NormRootsAndDropsOne(w);
    NormDropsAgain(w);
  }

  /** `w//` is rooted and loses one of its two trailing slashes. */
  lemma NormRootsAndDropsOne(w: string)
    requires |w| >= 1 && !IsSpace(w[0]) && w[0] != '/'
    ensures Norm(w + "//") == "/" + w + "/"
  {
    var p := w + "//";
    assert p[0] == w[0] && p[|p| - 1] == '/';
    NormOfUntrimmable(p);
    assert Rooted(p) == "/" + p;
    DropOneSlash("/" + w + "/", "/" + p);
  }

  /** `/w/` loses its trailing slash. */
  lemma NormDropsAgain(w: string)
    requires |w| >= 1
    ensures Norm("/" + w + "/") == "/" + w
  {
    var q := "/" + w + "/";
    assert q[0] == '/' && q[|q| - 1] == '/';
    NormOfUntrimmable(q);
    assert Rooted(q) == q;
    DropOneSlash("/" + w, q);
  }

  /** A path with no whitespace at either end is normalised without trimming. */
  lemma NormOfUntrimmable(p: string)
    requires |p| >= 1 && !IsSpace(p[0]) && !IsSpace(p[|p| - 1])
    ensures Norm(p) == DropTrailingSlash(Rooted(p))
  {
    TrimUnchanged(p);
    NormOfTrimmed(p, p);
  }

  /** A path longer than `/` that ends in `/` loses exactly that `/`. */
  lemma DropOneSlash(r: string, s: string)
    requires |r| >= 1 && s == r + "/"
    ensures DropTrailingSlash(s) == r
  {
    assert s[..|s| - 1] == r;
  }

  /** Normalising a rooted path never lengthens it. */
  lemma NormShortens(p: string)
    requires |p| >= 1 && p[0] == '/'
    ensures |Norm(p)| <= |p|
  {
    var s := Trim(p);
    assert !IsSpace('/');
    if s != [] {
      assert TrimStart(p) == p;
      assert s[0] == '/';
    }
  }

  /** `parentPath`: the normalised path up to its last `/`, or `''` when that `/` is the leading one. */
  function ParentPath(p: string): (r: string)
    ensures |r| < |Norm(p)|
    ensures r == "" <==> '/' !in Norm(p)[1..]
    ensures r != "" ==> Norm(p)[..|r|] == r && Norm(p)[|r|] == '/' && '/' !in Norm(p)[|r| + 1..]
  {
    ParentOf(Norm(p))
  }

  /** `parentPath` on an already normalised path `s`. */
  function ParentOf(s: string): (r: string)
    requires |s| >= 1 && s[0] == '/'
    ensures |r| < |s|
    ensures r == "" <==> '/' !in s[1..]
    ensures r != "" ==> s[..|r|] == r && s[|r|] == '/' && '/' !in s[|r| + 1..]
  {
    var idx := LastIndexOf(s, '/');
    if idx <= 0 then
      assert forall j :: 0 <= j < |s[1..]| ==> s[1..][j] == s[j + 1];
      ""
    else
      assert s[1..][idx - 1] == '/';
      var tail := s[idx + 1..];
      assert forall j :: 0 <= j < |tail| ==> tail[j] == s[idx + 1 + j];
      s[..idx]
  }

  /** `getDomainIcon`: the icon of each kind of domain, a folder for an unknown one. */
  function DomainIcon(kind: string): (icon: string)
    ensures icon == "pi pi-users" <==> kind == "department" || kind == "team"
    ensures icon == "pi pi-folder" <==> !(kind in {"tenant", "company", "group", "unit", "department", "project", "team"})
    ensures icon == "pi pi-globe" <==> kind == "tenant"
    ensures icon == "pi pi-building" <==> kind == "company"
    ensures icon == "pi pi-sitemap" <==> kind == "group"
    ensures icon == "pi pi-warehouse" <==> kind == "unit"
    ensures icon == "pi pi-th-large" <==> kind == "project"
  {
    if kind == "tenant" then "pi pi-globe"
    else if kind == "company" then "pi pi-building"
    else if kind == "group" then "pi pi-sitemap"
    else if kind == "unit" then "pi pi-warehouse"
    else if kind == "department" then "pi pi-users"
    else if kind == "container" then "pi pi-folder"
    else if kind == "project" then "pi pi-th-large"
    else if kind == "team" then "pi pi-users"
    else "pi pi-folder"
  }

  /** A person's label: the display name, else the trimmed full name, else the e-mail address. */
  function PersonLabel(p: Person): (shown: string)
    ensures p.displayName != "" ==> shown == p.displayName
    ensures shown == "" ==> p.displayName == "" && p.email == ""
    ensures p.displayName == "" && shown != p.email ==> shown == Trim(p.name + " " + p.surname)
  {
    if p.displayName != "" then p.displayName
    else
      var full := Trim(p.name + " " + p.surname);
      if full != "" then full else p.email
  }

  /** The node made for a domain. */
  function DomainNode(d: Domain): TreeNode {
    TreeNode(d.id, d.name, DomainIcon(d.kind), ToLowerAscii(d.resourceType), false)
  }

  /** The leaf made for a person. */
  function PersonNode(p: Person): TreeNode {
    TreeNode("person:" + p.id, PersonLabel(p), "pi pi-user", ToLowerAscii(p.resourceType), true)
  }

  /** The location a domain is filed under. */
  function LocationOf(d: Domain): string {
    Norm(d.location)
  }

  /**
   * The map the first loop of `buildTree` fills: each value is set at its
   * location in turn, so a later value replaces an earlier one.
   */
  function IndexOf<V>(locs: seq<string>, vals: seq<V>): (m: map<string, V>)
    requires |locs| == |vals|
    ensures forall k :: k in m <==> k in locs
  {
    if vals == [] then map[]
    else
      var n := |vals| - 1;
      assert locs == locs[..n] + [locs[n]];
      IndexOf(locs[..n], vals[..n])[locs[n] := vals[n]]
  }

  /** One more location and value: the map is updated at that location. */
  lemma IndexOfSnoc<V>(locs: seq<string>, vals: seq<V>, i: nat)
    requires |locs| == |vals| && i < |vals|
    ensures IndexOf(locs[..i + 1], vals[..i + 1]) == IndexOf(locs[..i], vals[..i])[locs[i] := vals[i]]
  {
    assert locs[..i + 1][..i] == locs[..i];
    assert vals[..i + 1][..i] == vals[..i];
  }

  /** Of several values at one location, the map keeps the last. */
  lemma {:induction false} IndexOfLastWins<V>(locs: seq<string>, vals: seq<V>, i: nat)
    requires |locs| == |vals| && i < |vals|
    requires forall j :: i < j < |vals| ==> locs[j] != locs[i]
    ensures IndexOf(locs, vals)[locs[i]] == vals[i]
  {
    var n := |vals| - 1;
    if i < n {
      assert locs[..n][i] == locs[i] && vals[..n][i] == vals[i];
      assert forall j :: i < j < n ==> locs[..n][j] == locs[j];
      IndexOfLastWins(locs[..n], vals[..n], i);
    }
  }

  /** The normalised location of every domain, in order. */
  function Locations(ds: seq<Domain>): (locs: seq<string>)
    ensures |locs| == |ds|
    ensures forall i :: 0 <= i < |ds| ==> locs[i] == LocationOf(ds[i])
  {
    Mapped(ds, LocationOf)
  }

  /** The node of every domain, in order. */
  function Nodes(ds: seq<Domain>): (nodes: seq<TreeNode>)
    ensures |nodes| == |ds|
    ensures forall i :: 0 <= i < |ds| ==> nodes[i] == DomainNode(ds[i])
  {
    Mapped(ds, DomainNode)
  }

  /** `byLocation` after the first loop: indexed are exactly the domains' normalised locations. */
  function Index(ds: seq<Domain>): (m: map<string, TreeNode>)
    ensures forall k :: k in m <==> k in Locations(ds)
  {
    IndexOf(Locations(ds), Nodes(ds))
  }

  lemma IndexSnoc(ds: seq<Domain>, d: Domain)
    ensures Index(ds + [d]) == Index(ds)[LocationOf(d) := DomainNode(d)]
  {
    LocationsSnoc(ds, d);
    NodesSnoc(ds, d);
    IndexOfAppend(Locations(ds), Nodes(ds), LocationOf(d), DomainNode(d));
  }

  /** Appending one location and value updates the map at that location. */
  lemma IndexOfAppend<V>(locs: seq<string>, vals: seq<V>, loc: string, val: V)
    requires |locs| == |vals|
    ensures IndexOf(locs + [loc], vals + [val]) == IndexOf(locs, vals)[loc := val]
  {
    IndexOfSnoc(locs + [loc], vals + [val], |vals|);
    assert (locs + [loc])[..|vals|] == locs && (vals + [val])[..|vals|] == vals;
    assert (locs + [loc])[..|vals| + 1] == locs + [loc];
    assert (vals + [val])[..|vals| + 1] == vals + [val];
  }

  /** One more domain adds its location after the others. */
  lemma LocationsSnoc(ds: seq<Domain>, d: Domain)
    ensures Locations(ds + [d]) == Locations(ds) + [LocationOf(d)]
  {
    MappedSnoc(ds, d, LocationOf);
  }

  /** One more domain adds its node after the others. */
  lemma NodesSnoc(ds: seq<Domain>, d: Domain)
    ensures Nodes(ds + [d]) == Nodes(ds) + [DomainNode(d)]
  {
    MappedSnoc(ds, d, DomainNode);
  }



  /** Of several domains at one location, the index keeps only the last. */
  lemma IndexLastWins(ds: seq<Domain>, i: nat)
    requires i < |ds|
    requires forall j :: i < j < |ds| ==> LocationOf(ds[j]) != LocationOf(ds[i])
    ensures Index(ds)[LocationOf(ds[i])] == DomainNode(ds[i])
  {
    IndexOfLastWins(Locations(ds), Nodes(ds), i);
  }

  /** The children lists and the roots while the tree is being built. */
  datatype Lists = Lists(children: map<string, seq<Ref>>, roots: seq<Ref>)

  /** One `push`: onto the children of `parent`, or onto the roots when there is none. */
  function Push(l: Lists, parent: Option<string>, r: Ref): Lists {
    match parent
    case None => l.(roots := l.roots + [r])
    case Some(p) => l.(children := l.children[p := (if p in l.children then l.children[p] else []) + [r]])
  }

  /** `r` is in the list `parent` names. */
  predicate Holds(l: Lists, parent: Option<string>, r: Ref) {
    match parent
    case None => r in l.roots
    case Some(p) => p in l.children && r in l.children[p]
  }

  /** The pushes in order. */
  function PushAll(l: Lists, entries: seq<(Option<string>, Ref)>): Lists {
    if entries == [] then l
    else Push(PushAll(l, entries[..|entries| - 1]), entries[|entries| - 1].0, entries[|entries| - 1].1)
  }

  /** A push keeps every entry already present. */
  lemma PushKeeps(l: Lists, parent: Option<string>, r: Ref, q: Option<string>, x: Ref)
    requires Holds(l, q, x)
    ensures Holds(Push(l, parent, r), q, x)
  {
  }

  lemma {:induction false} PushAllKeeps(l: Lists, entries: seq<(Option<string>, Ref)>, q: Option<string>, x: Ref)
    requires Holds(l, q, x)
    ensures Holds(PushAll(l, entries), q, x)
  {
    if entries != [] {
      var n := |entries| - 1;
      PushAllKeeps(l, entries[..n], q, x);
      PushKeeps(PushAll(l, entries[..n]), entries[n].0, entries[n].1, q, x);
    }
  }

  /** Every pushed entry ends up in the list it was pushed onto. */
  lemma {:induction false} PushAllHolds(l: Lists, entries: seq<(Option<string>, Ref)>, i: nat)
    requires i < |entries|
    ensures Holds(PushAll(l, entries), entries[i].0, entries[i].1)
  {
    var n := |entries| - 1;
    if i < n {
      PushAllHolds(l, entries[..n], i);
      PushKeeps(PushAll(l, entries[..n]), entries[n].0, entries[n].1, entries[i].0, entries[i].1);
    }
  }

  /** Where the second loop puts a domain: under the node at its parent path, if there is one. */
  function DomainParent(index: map<string, TreeNode>, d: Domain): Option<string> {
    var pl := ParentPath(LocationOf(d));
    if pl != "" && pl in index then Some(pl) else None
  }

  /** Where the third loop puts a person: under the node at exactly their location, if there is one. */
  function PersonParent(index: map<string, TreeNode>, p: Person): Option<string> {
    var loc := Norm(p.location);
    if loc in index then Some(loc) else None
  }

  function DomainEntries(index: map<string, TreeNode>, ds: seq<Domain>): (es: seq<(Option<string>, Ref)>)
    ensures |es| == |ds|
  {
    seq(|ds|, i requires 0 <= i < |ds| => (DomainParent(index, ds[i]), Located(LocationOf(ds[i]))))
  }

  function PersonEntries(index: map<string, TreeNode>, ps: seq<Person>): (es: seq<(Option<string>, Ref)>)
    ensures |es| == |ps|
  {
    seq(|ps|, i requires 0 <= i < |ps| => (PersonParent(index, ps[i]), Leaf(PersonNode(ps[i]))))
  }

  /** Every indexed domain starts with `children: []`; there are no roots yet. */
  function EmptyLists(index: map<string, TreeNode>): Lists {
    Lists(map k | k in index :: [], [])
  }

  /** The label `sortRec` compares: the node's label. */
  function LabelOf(index: map<string, TreeNode>, r: Ref): string {
    match r
    case Located(loc) => if loc in index then index[loc].nodeLabel else ""
    case Leaf(n) => n.nodeLabel
  }

  /** The sort key of an entry: the collation key of its label. */
  function ByLabel(index: map<string, TreeNode>, rank: string -> int): Ref -> int {
    r => rank(LabelOf(index, r))
  }

  /**
   * `sortRec(roots)`: the roots and every children list in label order.
   * The source sorts the lists it reaches from the roots, some of them
   * more than once; sorting a sorted list changes nothing (`SortBySorted`).
   */
  function SortLists(l: Lists, key: Ref -> int): (r: Lists)
    ensures r.children.Keys == l.children.Keys
    ensures SortedBy(r.roots, key) && multiset(r.roots) == multiset(l.roots)
    ensures forall k :: k in r.children ==> SortedBy(r.children[k], key) && multiset(r.children[k]) == multiset(l.children[k])
  {
    SortByCorrect(l.roots, key);
    SortEachCorrect(l.children, key);
    Lists(map k | k in l.children :: SortBy(l.children[k], key), SortBy(l.roots, key))
  }

  /** Every list of `m`, sorted by `key`, is in key order and holds the same elements. */
  lemma SortEachCorrect(m: map<string, seq<Ref>>, key: Ref -> int)
    ensures forall k :: k in m ==> SortedBy(SortBy(m[k], key), key) && multiset(SortBy(m[k], key)) == multiset(m[k])
  {
    forall k | k in m
      ensures SortedBy(SortBy(m[k], key), key) && multiset(SortBy(m[k], key)) == multiset(m[k])
    {
      SortByCorrect(m[k], key);
    }
  }

  lemma SortKeeps(l: Lists, key: Ref -> int, q: Option<string>, x: Ref)
    requires Holds(l, q, x)
    ensures Holds(SortLists(l, key), q, x)
  {
    match q
    case None =>
      SortByCorrect(l.roots, key);
      assert x in multiset(l.roots);
    case Some(p) =>
      SortByCorrect(l.children[p], key);
      assert x in multiset(l.children[p]);
  }

  /** `buildTree(domains, people)`. */
  function BuiltTree(ds: seq<Domain>, ps: seq<Person>, rank: string -> int): (f: Forest)
    ensures f.byLocation == Index(ds)
    ensures var key := ByLabel(Index(ds), rank);
      SortedBy(f.roots, key) && forall k :: k in f.children ==> SortedBy(f.children[k], key)
  {
    var index := Index(ds);
    var linked := PushAll(EmptyLists(index), DomainEntries(index, ds));
    var attached := PushAll(linked, PersonEntries(index, ps));
    var sorted := SortLists(attached, ByLabel(index, rank));
    Forest(index, sorted.children, sorted.roots)
  }

  /** The pushes of the domain loop, then of the people loop, each in input order. */
  method PushEach(l0: Lists, entries: seq<(Option<string>, Ref)>) returns (l: Lists)
    ensures l == PushAll(l0, entries)
  {
    l := l0;
    var i := 0;
    while i < |entries|
      invariant 0 <= i <= |entries|
      invariant l == PushAll(l0, entries[..i])
    {
      assert entries[..i + 1][..i] == entries[..i];
      var (parent, r) := entries[i];
      match parent {
        case None =>
          l := l.(roots := l.roots + [r]);
        case Some(p) =>
          var siblings := if p in l.children then l.children[p] else [];
          l := l.(children := l.children[p := siblings + [r]]);
      }
      i := i + 1;
    }
    assert entries[..i] == entries;
  }

  /** `buildTree`: index the domains, link them to their parents, attach the people, sort. */
  method BuildTree(ds: seq<Domain>, ps: seq<Person>, rank: string -> int) returns (f: Forest)
    ensures f == BuiltTree(ds, ps, rank)
  {
    var byLocation: map<string, TreeNode> := map[];
    ghost var locs, nodes := Locations(ds), Nodes(ds);
    var i := 0;
    while i < |ds|
      invariant 0 <= i <= |ds|
      invariant byLocation == IndexOf(locs[..i], nodes[..i])
    {
      IndexOfSnoc(locs, nodes, i);
      byLocation := byLocation[LocationOf(ds[i]) := DomainNode(ds[i])];
      i := i + 1;
    }
    assert locs[..i] == locs && nodes[..i] == nodes;
    var linked := PushEach(EmptyLists(byLocation), DomainEntries(byLocation, ds));
    var attached := PushEach(linked, PersonEntries(byLocation, ps));
    var sorted := SortLists(attached, ByLabel(byLocation, rank));
    f := Forest(byLocation, sorted.children, sorted.roots);
  }

  /** Each domain is listed under the node at its parent path when that path is indexed, and among the roots otherwise. */
  lemma DomainPlaced(ds: seq<Domain>, ps: seq<Person>, rank: string -> int, i: nat)
    requires i < |ds|
    ensures var f := BuiltTree(ds, ps, rank);
      Holds(Lists(f.children, f.roots), DomainParent(Index(ds), ds[i]), Located(LocationOf(ds[i])))
  {
    var index := Index(ds);
    var es := DomainEntries(index, ds);
    var linked := PushAll(EmptyLists(index), es);
    PushAllHolds(EmptyLists(index), es, i);
    PushAllKeeps(linked, PersonEntries(index, ps), es[i].0, es[i].1);
    SortKeeps(PushAll(linked, PersonEntries(index, ps)), ByLabel(index, rank), es[i].0, es[i].1);
  }

  /** Each person is a leaf under the domain at exactly their location when there is one, and a root otherwise. */
  lemma PersonPlaced(ds: seq<Domain>, ps: seq<Person>, rank: string -> int, i: nat)
    requires i < |ps|
    ensures var f := BuiltTree(ds, ps, rank);
      Holds(Lists(f.children, f.roots), PersonParent(Index(ds), ps[i]), Leaf(PersonNode(ps[i])))
  {
    var index := Index(ds);
    var linked := PushAll(EmptyLists(index), DomainEntries(index, ds));
    var es := PersonEntries(index, ps);
    PushAllHolds(linked, es, i);
    SortKeeps(PushAll(linked, es), ByLabel(index, rank), es[i].0, es[i].1);
  }

  /**
   * Two top-level domains at one location: the index keeps only the second,
   * and the roots list it twice, so the first domain disappears from the tree.
   */
  lemma DuplicateLocationShownTwice(d1: Domain, d2: Domain, rank: string -> int)
    requires LocationOf(d1) == LocationOf(d2) && ParentPath(LocationOf(d1)) == ""
    ensures var f := BuiltTree([d1, d2], [], rank); var loc := LocationOf(d1);
      f.byLocation == map[loc := DomainNode(d2)] && f.roots == [Located(loc), Located(loc)]
  {
    var loc := LocationOf(d1);
    DuplicateIndex(d1, d2);
    var index := Index([d1, d2]);
    DuplicateRoots(index, d1, d2);
    BuiltTreeParts([d1, d2], [], rank);
    SortTwins(Located(loc), ByLabel(index, rank));
  }

  /** The built tree's index and roots, spelt out. */
  lemma BuiltTreeParts(ds: seq<Domain>, ps: seq<Person>, rank: string -> int)
    ensures var index := Index(ds);
      var attached := PushAll(PushAll(EmptyLists(index), DomainEntries(index, ds)), PersonEntries(index, ps));
      BuiltTree(ds, ps, rank).byLocation == index && BuiltTree(ds, ps, rank).roots == SortBy(attached.roots, ByLabel(index, rank))
  {
  }

  /** Sorting two equal entries leaves them as they are. */
  lemma SortTwins<T>(x: T, key: T -> int)
    ensures SortBy([x, x], key) == [x, x]
  {
    assert [x, x][1..] == [x];
    assert SortBy([x], key) == [x];
  }

  lemma DuplicateIndex(d1: Domain, d2: Domain)
    requires LocationOf(d1) == LocationOf(d2)
    ensures Index([d1, d2]) == map[LocationOf(d1) := DomainNode(d2)]
  {
    IndexOne(d1);
    IndexSnoc([d1], d2);
    assert [d1] + [d2] == [d1, d2];
    MapUpdateTwice(Index([d1]), LocationOf(d1), DomainNode(d1), DomainNode(d2));
  }

  lemma MapUpdateTwice<K, V>(m: map<K, V>, k: K, a: V, b: V)
    requires m == map[k := a]
    ensures m[k := b] == map[k := b]
  {
  }

  lemma IndexOne(d: Domain)
    ensures Index([d]) == map[LocationOf(d) := DomainNode(d)]
  {
    assert Locations([d])[..0] == [] && Nodes([d])[..0] == [];
  }

  lemma DuplicateRoots(index: map<string, TreeNode>, d1: Domain, d2: Domain)
    requires LocationOf(d1) == LocationOf(d2) && ParentPath(LocationOf(d1)) == ""
    ensures var loc := LocationOf(d1);
      PushAll(PushAll(EmptyLists(index), DomainEntries(index, [d1, d2])), PersonEntries(index, [])).roots
        == [Located(loc), Located(loc)]
  {
    var loc := LocationOf(d1);
    assert DomainParent(index, d1) == None && DomainParent(index, d2) == None;
    TwoRootEntries(index, d1, d2, loc);
    PushRootsTwice(EmptyLists(index), Located(loc));
    assert PersonEntries(index, []) == [];
  }

  /** Two domains at one top-level location give two root entries for that location. */
  lemma TwoRootEntries(index: map<string, TreeNode>, d1: Domain, d2: Domain, loc: string)
    requires LocationOf(d1) == loc && LocationOf(d2) == loc
    requires DomainParent(index, d1) == None && DomainParent(index, d2) == None
    ensures DomainEntries(index, [d1, d2]) == [(None, Located(loc)), (None, Located(loc))]
  {
    var es := DomainEntries(index, [d1, d2]);
    DomainEntryAt(index, [d1, d2], 0);
    DomainEntryAt(index, [d1, d2], 1);
    Collections.PairOf(es, (None, Located(loc)), (None, Located(loc)));
  }

  lemma DomainEntryAt(index: map<string, TreeNode>, ds: seq<Domain>, i: nat)
    requires i < |ds|
    ensures DomainEntries(index, ds)[i] == (DomainParent(index, ds[i]), Located(LocationOf(ds[i])))
  {
  }

  /** Two pushes of one entry without a parent list it twice among the roots. */
  lemma PushRootsTwice(l: Lists, r: Ref)
    ensures PushAll(l, [(None, r), (None, r)]).roots == l.roots + [r, r]
  {
    var e: (Option<string>, Ref) := (None, r);
    assert [e, e][..1] == [e];
    assert [e][..0] == [];
    assert PushAll(l, [e]) == Push(l, None, r);
    assert PushAll(l, [e, e]) == Push(PushAll(l, [e]), None, r);
  }

  /** Every children list holds only domains at longer locations, so walking down the tree ends. */
  predicate Deeper(children: map<string, seq<Ref>>) {
    forall p, r :: p in children && r in children[p] && r.Located? ==> |r.loc| > |p|
  }

  lemma DomainEntriesDeeper(index: map<string, TreeNode>, ds: seq<Domain>, i: nat)
    requires i < |ds|
    ensures var e := DomainEntries(index, ds)[i]; e.0.Some? && e.1.Located? ==> |e.1.loc| > |e.0.value|
  {
    var loc := LocationOf(ds[i]);
    NormShortens(loc);
  }

  lemma {:induction false} PushAllDeeper(l: Lists, entries: seq<(Option<string>, Ref)>)
    requires Deeper(l.children)
    requires forall i :: 0 <= i < |entries| && entries[i].0.Some? && entries[i].1.Located? ==> |entries[i].1.loc| > |entries[i].0.value|
    ensures Deeper(PushAll(l, entries).children)
  {
    if entries != [] {
      var n := |entries| - 1;
      PushAllDeeper(l, entries[..n]);
    }
  }

  /** The tree `buildTree` makes has only deeper domains below each domain. */
  lemma BuiltTreeDeeper(ds: seq<Domain>, ps: seq<Person>, rank: string -> int)
    ensures Deeper(BuiltTree(ds, ps, rank).children)
  {
    var index := Index(ds);
    var des := DomainEntries(index, ds);
    forall i | 0 <= i < |des| && des[i].0.Some? && des[i].1.Located?
      ensures |des[i].1.loc| > |des[i].0.value|
    {
      DomainEntriesDeeper(index, ds, i);
    }
    PushAllDeeper(EmptyLists(index), des);
    var linked := PushAll(EmptyLists(index), des);
    PushAllDeeper(linked, PersonEntries(index, ps));
    var attached := PushAll(linked, PersonEntries(index, ps));
    var key := ByLabel(index, rank);
    forall p, r | p in attached.children && r in SortBy(attached.children[p], key) && r.Located?
      ensures |r.loc| > |p|
    {
      SortByCorrect(attached.children[p], key);
      assert r in multiset(attached.children[p]);
    }
  }

  /** The key of the node an entry stands for. */
  function KeyOf(f: Forest, r: Ref): string {
    match r
    case Located(loc) => if loc in f.byLocation then f.byLocation[loc].key else ""
    case Leaf(n) => n.key
  }

  /** The children of the node an entry stands for; a person has none. */
  function ChildrenOf(f: Forest, r: Ref): seq<Ref> {
    if r.Located? && r.loc in f.children then f.children[r.loc] else []
  }

  /** The indexed locations at least `n` characters long. */
  function Above(keys: set<string>, n: nat): set<string> {
    set k | k in keys && |k| >= n
  }

  /** What is left to walk below an entry. */
  function Below(f: Forest, r: Ref): set<string> {
    if r.Located? && r.loc in f.children then Above(f.children.Keys, |r.loc|) else {}
  }

  /** A grandchild has strictly less below it than its grandparent. */
  lemma GrandchildBelow(f: Forest, r: Ref, c: Ref, n: Ref)
    requires Deeper(f.children)
    requires c in ChildrenOf(f, r) && c.Located? && n in ChildrenOf(f, c)
    ensures Below(f, n) < Below(f, r)
  {
    assert r.loc in Below(f, r);
    if n.Located? && n.loc in f.children {
      assert |n.loc| > |c.loc| > |r.loc|;
      assert r.loc !in Below(f, n);
    }
  }

  /**
   * The keys `setExpandedAll(r)` expands, in order: `r` itself, then each
   * child that is not a leaf followed by the walk from each of its children.
   */
  function ExpandOrder(f: Forest, r: Ref): seq<string>
    requires Deeper(f.children)
    decreases Below(f, r), 2, 0
  {
    [KeyOf(f, r)] + ChildrenOrder(f, r, ChildrenOf(f, r))
  }

  function ChildrenOrder(f: Forest, r: Ref, cs: seq<Ref>): seq<string>
    requires Deeper(f.children)
    requires forall c :: c in cs ==> c in ChildrenOf(f, r)
    decreases Below(f, r), 1, |cs|
  {
    if cs == [] then []
    else
      var c := cs[0];
      var own := if c.Leaf? then [] else [KeyOf(f, c)] + EachOrder(f, r, c, ChildrenOf(f, c));
      own + ChildrenOrder(f, r, cs[1..])
  }

  function EachOrder(f: Forest, r: Ref, c: Ref, ns: seq<Ref>): seq<string>
    requires Deeper(f.children)
    requires c in ChildrenOf(f, r) && c.Located?
    requires forall n :: n in ns ==> n in ChildrenOf(f, c)
    decreases Below(f, r), 0, |ns|
  {
    if ns == [] then []
    else
      GrandchildBelow(f, r, c, ns[0]);
      ExpandOrder(f, ns[0]) + EachOrder(f, r, c, ns[1..])
  }

  /** The walk from `r` expands `r` first. */
  lemma ExpandOrderStartsWithRoot(f: Forest, r: Ref)
    requires Deeper(f.children)
    ensures |ExpandOrder(f, r)| >= 1 && ExpandOrder(f, r)[0] == KeyOf(f, r)
  {
  }

  /** The walk expands every child of `r` that is a domain. */
  lemma {:induction false} ChildrenOrderCovers(f: Forest, r: Ref, cs: seq<Ref>, c: Ref)
    requires Deeper(f.children)
    requires forall x :: x in cs ==> x in ChildrenOf(f, r)
    requires c in cs && c.Located?
    ensures KeyOf(f, c) in ChildrenOrder(f, r, cs)
    decreases |cs|
  {
    if cs[0] != c {
      ChildrenOrderCovers(f, r, cs[1..], c);
    }
  }

  /** A person placed directly under `r` adds nothing to the walk: it is not expanded. */
  lemma {:induction false} ChildrenOrderSkipsLeaves(f: Forest, r: Ref, cs: seq<Ref>, i: nat)
    requires Deeper(f.children)
    requires forall x :: x in cs ==> x in ChildrenOf(f, r)
    requires i < |cs| && cs[i].Leaf?
    ensures ChildrenOrder(f, r, cs) == ChildrenOrder(f, r, cs[..i] + cs[i + 1..])
    decreases |cs|
  {
    if i == 0 {
      assert cs[..0] + cs[1..] == cs[1..];
    } else {
      var rest := cs[..i] + cs[i + 1..];
      assert rest[0] == cs[0] && rest[1..] == cs[1..][..i - 1] + cs[1..][i..];
      ChildrenOrderSkipsLeaves(f, r, cs[1..], i - 1);
    }
  }

  /** The expansion state: `expandedKeys`, and each node's own `expanded` flag by key. */
  datatype Expansion = Expansion(expandedKeys: map<string, bool>, expanded: map<string, bool>)

  /** `expandNode`: nothing happens for a node whose key is empty. */
  function ExpandStep(e: Expansion, key: string): (r: Expansion)
    ensures key != "" ==> key in r.expandedKeys && r.expandedKeys[key] && key in r.expanded && r.expanded[key]
    ensures forall k :: k != key ==> (k in r.expandedKeys <==> k in e.expandedKeys)
  {
    if key == "" then e
    else Expansion(e.expandedKeys[key := true], e.expanded[key := true])
  }

  /** `collapseNode`: the key leaves `expandedKeys`; nothing happens for an empty key. */
  function CollapseStep(e: Expansion, key: string): (r: Expansion)
    ensures key != "" ==> key !in r.expandedKeys && key in r.expanded && !r.expanded[key]
    ensures forall k :: k != key ==> (k in r.expandedKeys <==> k in e.expandedKeys)
  {
    if key == "" then e
    else Expansion(e.expandedKeys - {key}, e.expanded[key := false])
  }

  /** Collapsing a node expanded from collapsed gives back the original `expandedKeys`. */
  lemma CollapseUndoesExpand(e: Expansion, key: string)
    requires key !in e.expandedKeys
    ensures CollapseStep(ExpandStep(e, key), key).expandedKeys == e.expandedKeys
  {
  }

  /** Expanding twice is expanding once. */
  lemma ExpandIdempotent(e: Expansion, key: string)
    ensures ExpandStep(ExpandStep(e, key), key) == ExpandStep(e, key)
  {
  }

  /** `expandNode` on each key in turn. */
  function ExpandAll(e: Expansion, keys: seq<string>): (r: Expansion)
    ensures forall k :: k in r.expandedKeys <==> k in e.expandedKeys || (k != "" && k in keys)
    decreases |keys|
  {
    if keys == [] then e else ExpandAll(ExpandStep(e, keys[0]), keys[1..])
  }

  /** After expanding a list of keys, each non-empty one of them is marked. */
  lemma {:induction false} ExpandAllMarks(e: Expansion, keys: seq<string>, k: string)
    requires k in keys && k != ""
    ensures k in ExpandAll(e, keys).expandedKeys && ExpandAll(e, keys).expandedKeys[k]
    decreases |keys|
  {
    if keys[0] == k {
      ExpandAllKeepsMark(ExpandStep(e, k), keys[1..], k);
    } else {
      ExpandAllMarks(ExpandStep(e, keys[0]), keys[1..], k);
    }
  }

  lemma {:induction false} ExpandAllKeepsMark(e: Expansion, keys: seq<string>, k: string)
    requires k in e.expandedKeys && e.expandedKeys[k]
    ensures k in ExpandAll(e, keys).expandedKeys && ExpandAll(e, keys).expandedKeys[k]
    decreases |keys|
  {
    if keys != [] {
      ExpandAllKeepsMark(ExpandStep(e, keys[0]), keys[1..], k);
    }
  }

  /** The message the tree's first node being absent throws with, when there is nothing to show. */
  const NO_FIRST_NODE: string := "Cannot read properties of undefined (reading 'key')"

  /** The domain tree component's state. */
  class DomainTreeComponent {
    var nodes: Forest
    var loading: bool
    var expansion: Expansion

    constructor()
      ensures nodes == Forest(map[], map[], []) && !loading && expansion == Expansion(map[], map[])
    {
      nodes := Forest(map[], map[], []);
      loading := false;
      expansion := Expansion(map[], map[]);
    }

    /** `loadDomains`, up to the request: the tree is loading. */
    method LoadDomains()
      modifies this
      ensures loading && nodes == old(nodes) && expansion == old(expansion)
    {
      loading := true;
    }

    /** `expandNode`. */
    method ExpandNode(key: string)
      modifies this
      ensures expansion == ExpandStep(old(expansion), key)
      ensures nodes == old(nodes) && loading == old(loading)
    {
      if key != "" {
        expansion := Expansion(expansion.expandedKeys[key := true], expansion.expanded[key := true]);
      }
    }

    /** `collapseNode`. */
    method CollapseNode(key: string)
      modifies this
      ensures expansion == CollapseStep(old(expansion), key)
      ensures nodes == old(nodes) && loading == old(loading)
    {
      if key != "" {
        expansion := Expansion(expansion.expandedKeys - {key}, expansion.expanded[key := false]);
      }
    }

    /** `setExpandedAll(r)`: the recursive walk, taken in the order it expands nodes. */
    method SetExpandedAll(r: Ref)
      requires Deeper(nodes.children)
      modifies this
      ensures nodes == old(nodes) && loading == old(loading)
      ensures expansion == ExpandAll(old(expansion), ExpandOrder(nodes, r))
    {
      var keys := ExpandOrder(nodes, r);
      var i := 0;
      while i < |keys|
        invariant 0 <= i <= |keys|
        invariant nodes == old(nodes) && loading == old(loading)
        invariant ExpandAll(expansion, keys[i..]) == ExpandAll(old(expansion), keys)
      {
        assert keys[i..][1..] == keys[i + 1..];
        ExpandNode(keys[i]);
        i := i + 1;
      }
    }

    /**
     * The `next` handler of `loadDomains`: build the tree, stop loading and
     * expand from the first root; with no roots at all that throws.
     */
    method OnLoaded(ds: seq<Domain>, ps: seq<Person>, rank: string -> int) returns (outcome: Outcome)
      modifies this
      ensures nodes == BuiltTree(ds, ps, rank) && !loading
      ensures nodes.roots == [] ==> outcome == Fail(NO_FIRST_NODE) && expansion == old(expansion)
      ensures nodes.roots != [] ==> outcome == Pass && expansion == LoadedExpansion(ds, ps, rank, old(expansion))
    {
      var f := BuildTree(ds, ps, rank);
      BuiltTreeDeeper(ds, ps, rank);
      nodes, loading := f, false;
      if f.roots == [] {
        return Fail(NO_FIRST_NODE);
      }
      LoadedExpansionOf(ds, ps, rank, expansion, f);
      SetExpandedAll(f.roots[0]);
      outcome := Pass;
    }

    /** The `error` handler of `loadDomains`: loading stops and the tree stays as it was. */
    method OnLoadFailed()
      modifies this
      ensures !loading && nodes == old(nodes) && expansion == old(expansion)
    {
      loading := false;
    }
  }

  /** The expansion state once a load has expanded from the first root of the tree it built. */
  function LoadedExpansion(ds: seq<Domain>, ps: seq<Person>, rank: string -> int, e: Expansion): Expansion
    requires BuiltTree(ds, ps, rank).roots != []
  {
    var f := BuiltTree(ds, ps, rank);
    BuiltTreeDeeper(ds, ps, rank);
    ExpandAll(e, ExpandOrder(f, f.roots[0]))
  }

  /** The loaded expansion, read off a forest known to be the built one. */
  lemma LoadedExpansionOf(ds: seq<Domain>, ps: seq<Person>, rank: string -> int, e: Expansion, f: Forest)
    requires f == BuiltTree(ds, ps, rank) && f.roots != [] && Deeper(f.children)
    ensures LoadedExpansion(ds, ps, rank, e) == ExpandAll(e, ExpandOrder(f, f.roots[0]))
  {
  }

  /** After loading, every domain directly below the first root is expanded. */
  lemma LoadExpandsFirstLevel(ds: seq<Domain>, ps: seq<Person>, rank: string -> int, e: Expansion, c: Ref)
    requires BuiltTree(ds, ps, rank).roots != []
    requires var f := BuiltTree(ds, ps, rank); c in ChildrenOf(f, f.roots[0]) && c.Located? && KeyOf(f, c) != ""
    ensures var k := KeyOf(BuiltTree(ds, ps, rank), c);
      k in LoadedExpansion(ds, ps, rank, e).expandedKeys && LoadedExpansion(ds, ps, rank, e).expandedKeys[k]
  {
    var f := BuiltTree(ds, ps, rank);
    BuiltTreeDeeper(ds, ps, rank);
    var r := f.roots[0];
    ChildrenOrderCovers(f, r, ChildrenOf(f, r), c);
    ExpandAllMarks(e, ExpandOrder(f, r), KeyOf(f, c));
  }
}
