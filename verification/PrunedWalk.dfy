/** A pruned walk over a directory tree, for any filter whose pruned directories hold
    nothing that it would let through. */
module PrunedWalk {
  import opened Options

  type Path = seq<string>

  datatype Node = File(content: seq<nat>) | Directory | Special

  type Tree = map<Path, Node>

  /** Below a root directory, every entry has a directory above it. */
  ghost predicate WellFormed(t: Tree) {
    && [] in t && t[[]].Directory?
    && forall p | p in t && p != [] :: p[..|p| - 1] in t && t[p[..|p| - 1]].Directory?
  }

  /** Which directories are pruned, which files are left out, which paths are accepted,
      what files are sorted by, and what may not occur twice. */
  datatype Filter = Filter(prune: Path -> bool, skip: Path -> bool, safe: Path -> bool, name: Path -> string, key: Path -> string) {
    /** Whatever lies below a pruned directory is left out anyway. */
    ghost predicate Closed() {
      forall p: Path, n: nat | 0 < n < |p| && prune(p[..n]) :: skip(p)
    }
  }

  /** The walk comes to p: no directory above it is pruned. */
  ghost predicate Visited(f: Filter, p: Path) {
    forall n | 0 < n < |p| :: !f.prune(p[..n])
  }

  /** What makes the walk refuse the tree when it comes to an entry. */
  ghost predicate Refused(f: Filter, t: Tree, p: Path)
    requires p in t && p != []
  {
    !f.safe(p) || (t[p].Special? && !f.skip(p))
  }

  /** The files of the package. */
  ghost predicate Included(f: Filter, t: Tree, p: Path) {
    p in t && p != [] && t[p].File? && !f.skip(p)
  }

  lemma IncludedIsVisited(f: Filter, t: Tree, p: Path)
    requires f.Closed() && Included(f, t, p)
    ensures Visited(f, p)
  {
  }

  /** The entries of a directory, whatever their order. */
  function Children(t: Tree, top: Path): set<Path> {
    set p | p in t && p != [] && p[..|p| - 1] == top
  }

  /** Everything the walk has come to when the directories in `done` were scanned. */
  ghost predicate Scanned(t: Tree, done: set<Path>, p: Path) {
    p in t && p != [] && p[..|p| - 1] in done
  }

  datatype Listing = Listing(files: set<Path>, folded: set<string>)

  ghost predicate Collected(f: Filter, t: Tree, done: set<Path>, todo: set<Path>, l: Listing) {
    && (forall p :: p in l.files <==> Included(f, t, p) && Scanned(t, done, p) && p !in todo)
    && (forall p | p in l.files :: f.key(p) in l.folded)
    && (forall k | k in l.folded :: exists p :: p in l.files && f.key(p) == k)
    && (forall p, q | p in l.files && q in l.files && p != q :: f.key(p) != f.key(q))
    && (forall p | Scanned(t, done, p) && p !in todo :: !Refused(f, t, p))
  }

  /** Why a walk may refuse a tree. */
  ghost predicate Refusable(f: Filter, t: Tree) {
    || (exists p :: p in t && p != [] && Visited(f, p) && Refused(f, t, p))
    || (exists p, q :: Included(f, t, p) && Included(f, t, q) && p != q && f.key(p) == f.key(q))
  }

  /** A directory the walk enters. */
  ghost predicate Open(f: Filter, t: Tree, d: Path) {
    d in t && t[d].Directory? && forall n | 0 < n <= |d| :: !f.prune(d[..n])
  }

  /** Every directory to be entered was scanned, or lies below one that waits. */
  ghost predicate Frontier(f: Filter, t: Tree, done: set<Path>, pending: seq<Path>, todo: set<Path>) {
    forall d | Open(f, t, d) :: d in done || exists n :: 0 <= n <= |d| && (d[..n] in pending || d[..n] in todo)
  }

  /** What waits is to be entered, waits once, and was found in a scanned directory. */
  ghost predicate Waiting(f: Filter, t: Tree, done: set<Path>, pending: seq<Path>) {
    && (forall d | d in pending || d in done :: Open(f, t, d) && (d != [] ==> d[..|d| - 1] in done))
    && (forall d | d in pending :: d !in done)
    && (forall i, j | 0 <= i < j < |pending| :: pending[i] != pending[j])
  }

  /** Entering a directory: it is scanned, and its entries are to be looked at. */
  lemma EnterKeepsFrontier(f: Filter, t: Tree, done: set<Path>, pending: seq<Path>, d: Path)
    requires WellFormed(t) && pending != [] && d == pending[|pending| - 1]
    requires Frontier(f, t, done, pending, {})
    ensures Frontier(f, t, done + {d}, pending[..|pending| - 1], Children(t, d))
  {
    var rest := pending[..|pending| - 1];
    forall e | Open(f, t, e) && e !in done + {d}
      ensures exists n :: 0 <= n <= |e| && (e[..n] in rest || e[..n] in Children(t, d))
    {
      var n :| 0 <= n <= |e| && e[..n] in pending;
      assert e[..|e|] == e;
      if e[..n] == d {
        PrefixInTree(t, e, n + 1);
        assert e[..n + 1][..n] == e[..n];
        assert e[..n + 1] in Children(t, d);
      } else {
        assert e[..n] in rest;
      }
    }
  }

  lemma {:induction false} PrefixInTree(t: Tree, p: Path, n: nat)
    requires WellFormed(t) && p in t && n <= |p|
    ensures p[..n] in t && (n < |p| ==> t[p[..n]].Directory?)
    decreases |p|
  {
    if n < |p| {
      var parent := p[..|p| - 1];
      PrefixInTree(t, parent, n);
      assert parent[..n] == p[..n];
      if n == |p| - 1 { assert p[..n] == parent; }
    } else {
      assert p[..n] == p;
    }
  }

  /** Looking at an entry that is no directory to be entered. */
  lemma SkipKeepsFrontier(f: Filter, t: Tree, done: set<Path>, pending: seq<Path>, todo: set<Path>, c: Path)
    requires WellFormed(t) && Frontier(f, t, done, pending, todo) && c in t && c != [] && (t[c].Directory? ==> f.prune(c))
    ensures Frontier(f, t, done, pending, todo - {c})
  {
    forall e | Open(f, t, e) && e !in done
      ensures exists n :: 0 <= n <= |e| && (e[..n] in pending || e[..n] in todo - {c})
    {
      var n :| 0 <= n <= |e| && (e[..n] in pending || e[..n] in todo);
      if e[..n] == c {
        PrefixInTree(t, e, n);
        if n == |e| { assert e[..n] == e; }
      }
    }
  }

  lemma PushKeepsFrontier(f: Filter, t: Tree, done: set<Path>, pending: seq<Path>, todo: set<Path>, c: Path)
    requires Frontier(f, t, done, pending, todo)
    ensures Frontier(f, t, done, pending + [c], todo - {c})
  {
    forall e | Open(f, t, e) && e !in done
      ensures exists n :: 0 <= n <= |e| && (e[..n] in pending + [c] || e[..n] in todo - {c})
    {
      var n :| 0 <= n <= |e| && (e[..n] in pending || e[..n] in todo);
      assert e[..n] in pending + [c] || e[..n] in todo - {c};
    }
  }

  lemma ChildIsVisited(f: Filter, t: Tree, d: Path, c: Path)
    requires Open(f, t, d) && c in Children(t, d)
    ensures Visited(f, c) && (!f.prune(c) && t[c].Directory? ==> Open(f, t, c))
  {
    forall n | 0 < n < |c| ensures !f.prune(c[..n]) {
      assert c[..n] == d[..n];
    }
    assert c[..|c|] == c;
  }

  /** When nothing waits any more, everything visited was scanned. */
  lemma AllScanned(f: Filter, t: Tree, done: set<Path>, l: Listing)
    requires f.Closed() && WellFormed(t) && Frontier(f, t, done, [], {}) && Collected(f, t, done, {}, l)
    ensures forall p :: p in l.files <==> Included(f, t, p)
    ensures !Refusable(f, t)
  {
    forall p | p in t && p != [] && Visited(f, p) ensures Scanned(t, done, p) {
      var d := p[..|p| - 1];
      forall n | 0 < n <= |d| ensures !f.prune(d[..n]) {
        assert d[..n] == p[..n];
      }
      assert Open(f, t, d);
    }
    forall p | Included(f, t, p) ensures Visited(f, p) {
      IncludedIsVisited(f, t, p);
    }
  }

  /** One entry of a scanned directory that is a file for the package. */
  lemma CollectOne(f: Filter, t: Tree, done: set<Path>, todo: set<Path>, l: Listing, c: Path)
    requires Collected(f, t, done, todo, l) && c in todo && Scanned(t, done, c)
    requires Included(f, t, c) && f.safe(c) && f.key(c) !in l.folded
    ensures Collected(f, t, done, todo - {c}, Listing(l.files + {c}, l.folded + {f.key(c)}))
  {
    var l' := Listing(l.files + {c}, l.folded + {f.key(c)});
    forall k | k in l'.folded ensures exists p :: p in l'.files && f.key(p) == k {
      if k in l.folded {
        var p :| p in l.files && f.key(p) == k;
        assert p in l'.files;
      } else {
        assert c in l'.files;
      }
    }
  }

  lemma CollectNone(f: Filter, t: Tree, done: set<Path>, todo: set<Path>, l: Listing, c: Path)
    requires Collected(f, t, done, todo, l) && c in todo && Scanned(t, done, c)
    requires !Included(f, t, c) && !Refused(f, t, c)
    ensures Collected(f, t, done, todo - {c}, l)
  {
  }

  /** Where the walk stands: `waiting` to be entered, `todo` to be looked at. */
  ghost predicate Stands(f: Filter, t: Tree, done: set<Path>, waiting: seq<Path>, todo: set<Path>, l: Listing) {
    && Waiting(f, t, done, waiting)
    && Frontier(f, t, done, waiting, todo)
    && Collected(f, t, done, todo, l)
    && forall c | c in todo :: c !in waiting && c !in done
  }

  lemma EnterKeepsWaiting(f: Filter, t: Tree, done: set<Path>, pending: seq<Path>)
    requires pending != [] && Waiting(f, t, done, pending)
    ensures var d, rest := pending[|pending| - 1], pending[..|pending| - 1];
            Waiting(f, t, done + {d}, rest) && d !in rest && d !in done && Open(f, t, d)
  {
    var d, rest := pending[|pending| - 1], pending[..|pending| - 1];
    assert d in pending;
    assert forall e | e in rest :: e in pending;
  }

  lemma EnterKeepsCollected(f: Filter, t: Tree, done: set<Path>, d: Path, l: Listing)
    requires Collected(f, t, done, {}, l) && d !in done
    ensures Collected(f, t, done + {d}, Children(t, d), l)
  {
    forall p ensures Scanned(t, done + {d}, p) && p !in Children(t, d) <==> Scanned(t, done, p) {
    }
  }

  lemma Entered(f: Filter, t: Tree, done: set<Path>, pending: seq<Path>, l: Listing)
    requires WellFormed(t) && pending != [] && Stands(f, t, done, pending, {}, l)
    ensures var d := pending[|pending| - 1];
            d in t && Open(f, t, d) && Stands(f, t, done + {d}, pending[..|pending| - 1], Children(t, d), l)
  {
    var d, rest := pending[|pending| - 1], pending[..|pending| - 1];
    EnterKeepsFrontier(f, t, done, pending, d);
    EnterKeepsWaiting(f, t, done, pending);
    EnterKeepsCollected(f, t, done, d, l);
    forall c | c in Children(t, d) ensures c !in rest && c !in done + {d} {
      assert c[..|c| - 1] == d;
      assert c in rest ==> c in pending;
    }
  }

  /** iter_source_files, before the final sort: None where it raises. */
  method Walk(f: Filter, t: Tree) returns (r: Option<Listing>)
    requires f.Closed() && WellFormed(t)
    ensures r.None? <==> Refusable(f, t)
    ensures r.Some? ==> forall p :: p in r.value.files <==> Included(f, t, p)
    ensures r.Some? ==> forall p, q | p in r.value.files && q in r.value.files && p != q :: f.key(p) != f.key(q)
  {
    var pending: seq<Path> := [[]];
    var l := Listing({}, {});
    ghost var done: set<Path> := {};
    forall d | Open(f, t, d) ensures d[..0] in pending {
      assert d[..0] == [];
    }
    while pending != []
      invariant Stands(f, t, done, pending, {}, l)
      decreases t.Keys - done
    {
      var d := pending[|pending| - 1];
      Entered(f, t, done, pending, l);
      assert d in pending;
      pending := pending[..|pending| - 1];
      done := done + {d};
      var scanned := ScanDirectory(f, t, d, pending, l, done);
      if scanned.None? {
        return None;
      }
      pending, l := scanned.value.0, scanned.value.1;
    }
    AllScanned(f, t, done, l);
    return Some(l);
  }

  /** The entries of one directory. */
  method ScanDirectory(f: Filter, t: Tree, d: Path, pending: seq<Path>, l: Listing, ghost done: set<Path>)
    returns (r: Option<(seq<Path>, Listing)>)
    requires f.Closed() && WellFormed(t) && d in done && Open(f, t, d) && Stands(f, t, done, pending, Children(t, d), l)
    ensures r.None? ==> Refusable(f, t)
    ensures r.Some? ==> Stands(f, t, done, r.value.0, {}, r.value.1)
  {
    var todo := Children(t, d);
    var waiting, listing := pending, l;
    while todo != {}
      invariant todo <= Children(t, d) && Stands(f, t, done, waiting, todo, listing)
    {
      var c :| c in todo;
      var entry := ScanEntry(f, t, d, c, waiting, listing, done, todo);
      if entry.None? {
        return None;
      }
      waiting, listing := entry.value.0, entry.value.1;
      todo := todo - {c};
    }
    return Some((waiting, listing));
  }

  /** One entry: refused, pruned, entered later, left out, or listed. */
  method ScanEntry(f: Filter, t: Tree, d: Path, c: Path, waiting: seq<Path>, l: Listing, ghost done: set<Path>, ghost todo: set<Path>)
    returns (r: Option<(seq<Path>, Listing)>)
    requires f.Closed() && WellFormed(t) && d in done && Open(f, t, d)
    requires c in todo && c in Children(t, d) && Stands(f, t, done, waiting, todo, l)
    ensures r.None? ==> Refusable(f, t)
    ensures r.Some? ==> Stands(f, t, done, r.value.0, todo - {c}, r.value.1)
  {
    ChildIsVisited(f, t, d, c);
    if !f.safe(c) {
      assert Refused(f, t, c);
      return None;
    }
    if t[c].Directory? {
      CollectNone(f, t, done, todo, l, c);
      if f.prune(c) {
        SkipKeepsFrontier(f, t, done, waiting, todo, c);
        return Some((waiting, l));
      }
      PushKeepsFrontier(f, t, done, waiting, todo, c);
      PushKeepsWaiting(f, t, done, waiting, c);
      return Some((waiting + [c], l));
    }
    SkipKeepsFrontier(f, t, done, waiting, todo, c);
    if f.skip(c) {
      CollectNone(f, t, done, todo, l, c);
      return Some((waiting, l));
    }
    if t[c].Special? {
      assert Refused(f, t, c);
      return None;
    }
    if f.key(c) in l.folded {
      return None;
    }
    CollectOne(f, t, done, todo, l, c);
    return Some((waiting, Listing(l.files + {c}, l.folded + {f.key(c)})));
  }

  lemma PushKeepsWaiting(f: Filter, t: Tree, done: set<Path>, waiting: seq<Path>, c: Path)
    requires Waiting(f, t, done, waiting) && Open(f, t, c) && c != [] && c[..|c| - 1] in done && c !in waiting && c !in done
    ensures Waiting(f, t, done, waiting + [c])
  {
  }

  // --------------------------------------------------------------------- sorting

  predicate NoGreater(a: string, b: string) {
    a == "" || (b != "" && (a[0] < b[0] || (a[0] == b[0] && NoGreater(a[1..], b[1..]))))
  }

  lemma {:induction false} NoGreaterOrders(a: string, b: string, c: string)
    ensures NoGreater(a, b) || NoGreater(b, a)
    ensures NoGreater(a, b) && NoGreater(b, c) ==> NoGreater(a, c)
    ensures NoGreater(a, b) && NoGreater(b, a) ==> a == b
    decreases |a| + |b| + |c|
  {
    if a != "" && b != "" {
      NoGreaterOrders(a[1..], b[1..], if c == "" then c else c[1..]);
      assert a == [a[0]] + a[1..] && b == [b[0]] + b[1..];
    }
  }

  ghost predicate SortedByName(f: Filter, files: seq<Path>) {
    forall i, j | 0 <= i < j < |files| :: NoGreater(f.name(files[i]), f.name(files[j]))
  }

  ghost predicate NoTwins(f: Filter, files: seq<Path>) {
    forall i, j | 0 <= i < j < |files| :: f.key(files[i]) != f.key(files[j])
  }

  /** Place a file before the first greater name. */
  method InsertByName(f: Filter, files: seq<Path>, p: Path) returns (r: seq<Path>)
    requires SortedByName(f, files)
    ensures SortedByName(f, r) && |r| == |files| + 1
    ensures multiset(r) == multiset(files) + multiset{p}
  {
    var k := 0;
    while k < |files| && NoGreater(f.name(files[k]), f.name(p))
      invariant k <= |files| && forall i | 0 <= i < k :: NoGreater(f.name(files[i]), f.name(p))
    {
      k := k + 1;
    }
    InsertedIsSorted(f, files, k, p);
    r := files[..k] + [p] + files[k..];
    assert files == files[..k] + files[k..];
  }

  lemma InsertedIsSorted(f: Filter, files: seq<Path>, k: nat, p: Path)
    requires SortedByName(f, files) && k <= |files|
    requires forall i | 0 <= i < k :: NoGreater(f.name(files[i]), f.name(p))
    requires k < |files| ==> !NoGreater(f.name(files[k]), f.name(p))
    ensures SortedByName(f, files[..k] + [p] + files[k..])
  {
    forall j | k <= j < |files| ensures NoGreater(f.name(p), f.name(files[j])) {
      NoGreaterOrders(f.name(p), f.name(files[k]), f.name(files[j]));
    }
  }

  method SortFiles(f: Filter, files: set<Path>) returns (sorted: seq<Path>)
    ensures SortedByName(f, sorted) && multiset(sorted) == multiset(files)
  {
    var todo := files;
    sorted := [];
    while todo != {}
      invariant todo <= files && SortedByName(f, sorted) && multiset(sorted) == multiset(files - todo)
    {
      var p :| p in todo;
      assert files - (todo - {p}) == (files - todo) + {p};
      sorted := InsertByName(f, sorted, p);
      todo := todo - {p};
    }
    assert files - {} == files;
  }

  /** The whole of iter_source_files: walk, then sort. */
  method Iterate(f: Filter, t: Tree) returns (r: Option<seq<Path>>)
    requires f.Closed() && WellFormed(t)
    ensures r.None? <==> Refusable(f, t)
    ensures r.Some? ==> (forall p :: p in r.value <==> Included(f, t, p)) && SortedByName(f, r.value) && NoTwins(f, r.value)
    ensures r.Some? ==> forall p | p in r.value :: f.safe(p)
  {
    var walked := Walk(f, t);
    if walked.None? {
      return None;
    }
    var files := SortFiles(f, walked.value.files);
    ListedOnce(files, walked.value.files);
    forall p ensures p in files <==> Included(f, t, p) {
      assert p in files <==> p in multiset(files);
    }
    forall p | Included(f, t, p) ensures f.safe(p) {
      IncludedIsVisited(f, t, p);
    }
    return Some(files);
  }

  lemma {:induction false} ListedOnce(files: seq<Path>, done: set<Path>)
    requires multiset(files) == multiset(done)
    ensures forall i, j | 0 <= i < j < |files| :: files[i] != files[j]
  {
    if files != [] {
      var rest := files[..|files| - 1];
      var last := files[|files| - 1];
      assert files == rest + [last];
      assert last in multiset(files);
      assert multiset(rest) == multiset(files) - multiset{last};
      assert multiset(rest) == multiset(done - {last});
      ListedOnce(rest, done - {last});
      forall i | 0 <= i < |rest| ensures files[i] != last {
        assert rest[i] in multiset(rest);
      }
    }
  }
}
