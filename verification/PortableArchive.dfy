/** Writing the collected files to an archive, verifying it and extracting it again.
    Entries are known by the segments of their canonical names. */
module PortableArchive {
  import opened Options
  import opened PrunedWalk

  type Content = seq<nat>

  datatype Entry = Entry(path: Path, payload: Content)

  /** Paths that must be there: all of the first, one of each pair of the second. */
  datatype Required = Required(paths: set<Path>, alternatives: seq<(Path, Path)>)

  predicate Satisfied(required: Required, names: set<Path>) {
    && required.paths <= names
    && forall pair | pair in required.alternatives :: pair.0 in names || pair.1 in names
  }

  function Paths(archive: seq<Entry>): set<Path> {
    set e | e in archive :: e.path
  }

  ghost predicate DistinctKeys(f: Filter, archive: seq<Entry>) {
    forall i, j | 0 <= i < j < |archive| :: f.key(archive[i].path) != f.key(archive[j].path)
  }

  predicate IsFile(t: Tree, p: Path) {
    p in t && t[p].File?
  }

  /** One entry is a file of the package with the content it has in the tree. */
  predicate EntryOk(f: Filter, t: Tree, files: seq<Path>, hash: Content -> nat, e: Entry) {
    && f.safe(e.path) && !f.skip(e.path)
    && e.path in files && IsFile(t, e.path)
    && hash(e.payload) == hash(t[e.path].content)
  }

  /** What verify_portable checks. */
  ghost predicate Verifies(f: Filter, t: Tree, files: seq<Path>, hash: Content -> nat, required: Required, archive: seq<Entry>) {
    && (forall e | e in archive :: EntryOk(f, t, files, hash, e))
    && DistinctKeys(f, archive)
    && Paths(archive) == (set p | p in files)
    && Satisfied(required, Paths(archive))
  }

  method VerifyPortable(f: Filter, t: Tree, files: seq<Path>, hash: Content -> nat, required: Required, archive: seq<Entry>)
    returns (ok: bool)
    ensures ok <==> Verifies(f, t, files, hash, required, archive)
  {
    var seen: set<string> := {};
    var names: set<Path> := {};
    for i := 0 to |archive|
      invariant forall e | e in archive[..i] :: EntryOk(f, t, files, hash, e)
      invariant forall a, b | 0 <= a < b < i :: f.key(archive[a].path) != f.key(archive[b].path)
      invariant seen == set e | e in archive[..i] :: f.key(e.path)
      invariant names == Paths(archive[..i])
    {
      var e := archive[i];
      if f.key(e.path) in seen {
        var a :| 0 <= a < i && f.key(archive[a].path) == f.key(e.path);
        return false;
      }
      if !EntryOk(f, t, files, hash, e) {
        return false;
      }
      seen, names := seen + {f.key(e.path)}, names + {e.path};
      assert archive[..i + 1] == archive[..i] + [e];
    }
    assert archive[..|archive|] == archive;
    return names == (set p | p in files) && Satisfied(required, names);
  }

  predicate AllFiles(t: Tree, files: seq<Path>) {
    forall i | 0 <= i < |files| :: IsFile(t, files[i])
  }

  function Written(t: Tree, files: seq<Path>): seq<Entry>
    requires AllFiles(t, files)
  {
    seq(|files|, i requires 0 <= i < |files| => Entry(files[i], t[files[i]].content))
  }

  method WriteZip(t: Tree, files: seq<Path>) returns (archive: seq<Entry>)
    requires AllFiles(t, files)
    ensures archive == Written(t, files)
  {
    archive := [];
    for i := 0 to |files|
      invariant |archive| == i && forall k | 0 <= k < i :: archive[k] == Entry(files[k], t[files[k]].content)
    {
      archive := archive + [Entry(files[i], t[files[i]].content)];
    }
  }

  // ------------------------------------------------------------------ extraction

  predicate Above(p: Path, q: Path) {
    |p| < |q| && p <= q
  }

  /** A file cannot be created where a directory is, nor below another file. */
  predicate Obstructed(out: map<Path, Content>, p: Path) {
    exists q :: q in out && (Above(q, p) || Above(p, q))
  }

  predicate Taken(f: Filter, out: map<Path, Content>, p: Path) {
    exists q :: q in out && f.key(q) == f.key(p)
  }

  /** extract_portable; None where it raises. */
  function Extracted(f: Filter, archive: seq<Entry>): Option<map<Path, Content>> {
    if archive == [] then Some(map[])
    else
      var out := Extracted(f, archive[..|archive| - 1]);
      var e := archive[|archive| - 1];
      if out.None? || !f.safe(e.path) || Taken(f, out.value, e.path) || Obstructed(out.value, e.path) then None
      else Some(out.value[e.path := e.payload])
  }

  lemma {:induction false} ExtractsEverything(f: Filter, archive: seq<Entry>)
    requires DistinctKeys(f, archive) && forall e | e in archive :: f.safe(e.path)
    requires forall a, b | a in archive && b in archive :: !Above(a.path, b.path)
    ensures var out := Extracted(f, archive);
            && out.Some? && out.value.Keys == Paths(archive)
            && forall e | e in archive :: out.value[e.path] == e.payload
    decreases |archive|
  {
    if archive != [] {
      var front, last := archive[..|archive| - 1], archive[|archive| - 1];
      assert archive == front + [last];
      ExtractsEverything(f, front);
      var out := Extracted(f, front).value;
      forall q | q in out ensures f.key(q) != f.key(last.path) && !Above(q, last.path) && !Above(last.path, q) {
        var k :| 0 <= k < |front| && front[k].path == q;
        assert archive[k] == front[k];
      }
      assert last.path !in out;
    }
  }

  /** Two files of a tree never lie below one another. */
  lemma FilesAreLeaves(t: Tree, p: Path, q: Path)
    requires WellFormed(t) && IsFile(t, p) && IsFile(t, q)
    ensures !Above(p, q)
  {
    if |p| < |q| {
      PrefixInTree(t, q, |p|);
      assert q[..|p|] != p;
    }
  }

  /** An archive that verifies extracts to exactly the files of the package, each with
      the hash of its source. */
  lemma VerifiedArchiveExtracts(f: Filter, t: Tree, files: seq<Path>, hash: Content -> nat, required: Required, archive: seq<Entry>)
    requires WellFormed(t) && Verifies(f, t, files, hash, required, archive)
    ensures var out := Extracted(f, archive);
            && out.Some? && out.value.Keys == (set p | p in files)
            && forall p | p in files :: IsFile(t, p) && hash(out.value[p]) == hash(t[p].content)
  {
    forall a, b | a in archive && b in archive ensures !Above(a.path, b.path) {
      assert EntryOk(f, t, files, hash, a) && EntryOk(f, t, files, hash, b);
      FilesAreLeaves(t, a.path, b.path);
    }
    ExtractsEverything(f, archive);
    var out := Extracted(f, archive).value;
    forall p | p in files ensures IsFile(t, p) && hash(out[p]) == hash(t[p].content) {
      assert p in Paths(archive);
      var e :| e in archive && e.path == p;
      assert EntryOk(f, t, files, hash, e);
    }
  }

  /** What is written from the collected files verifies, if nothing required is
      missing, and extracts to the very same files. */
  lemma WrittenArchiveRoundTrips(f: Filter, t: Tree, files: seq<Path>, hash: Content -> nat, required: Required)
    requires WellFormed(t) && NoTwins(f, files) && AllFiles(t, files)
    requires forall p | p in files :: Included(f, t, p) && f.safe(p)
    ensures Verifies(f, t, files, hash, required, Written(t, files)) <==> Satisfied(required, set p | p in files)
    ensures var out := Extracted(f, Written(t, files));
            && out.Some? && out.value.Keys == (set p | p in files)
            && forall p | p in files :: out.value[p] == t[p].content
  {
    var archive := Written(t, files);
    forall p | p in files ensures p in Paths(archive) {
      var i :| 0 <= i < |files| && files[i] == p;
      assert archive[i].path == p;
    }
    assert Paths(archive) == set p | p in files;
    forall a, b | a in archive && b in archive ensures !Above(a.path, b.path) {
      FilesAreLeaves(t, a.path, b.path);
    }
    ExtractsEverything(f, archive);
    var out := Extracted(f, archive).value;
    forall p | p in files ensures out[p] == t[p].content {
      var i :| 0 <= i < |files| && files[i] == p;
      assert archive[i] in archive;
    }
  }

  lemma {:induction false} FailureStays(f: Filter, archive: seq<Entry>, n: nat)
    requires n <= |archive| && Extracted(f, archive[..n]).None?
    ensures Extracted(f, archive).None?
    decreases |archive|
  {
    if n < |archive| {
      assert archive[..|archive| - 1][..n] == archive[..n];
      FailureStays(f, archive[..|archive| - 1], n);
    } else {
      assert archive[..n] == archive;
    }
  }

  method ExtractPortable(f: Filter, archive: seq<Entry>) returns (out: Option<map<Path, Content>>)
    ensures out == Extracted(f, archive)
  {
    var files: map<Path, Content> := map[];
    for i := 0 to |archive|
      invariant Extracted(f, archive[..i]) == Some(files)
    {
      var e := archive[i];
      assert archive[..i + 1][..i] == archive[..i];
      if !f.safe(e.path) || Taken(f, files, e.path) || Obstructed(files, e.path) {
        FailureStays(f, archive, i + 1);
        return None;
      }
      files := files[e.path := e.payload];
    }
    assert archive[..|archive|] == archive;
    return Some(files);
  }

  /** Collecting, writing, verifying and extracting: the extracted files are exactly
      those of the package, unless the walk refuses the tree or something required
      is missing. */
  method BuildPortable(f: Filter, t: Tree, hash: Content -> nat, required: Required) returns (out: Option<map<Path, Content>>)
    requires f.Closed() && WellFormed(t)
    ensures out.None? <==> Refusable(f, t) || !Satisfied(required, set p | p in t && Included(f, t, p))
    ensures out.Some? ==> out.value.Keys == (set p | p in t && Included(f, t, p))
                          && forall p | p in out.value :: out.value[p] == t[p].content
  {
    var files := Iterate(f, t);
    if files.None? {
      return None;
    }
    assert (set p | p in files.value) == set p | p in t && Included(f, t, p);
    var archive := WriteZip(t, files.value);
    WrittenArchiveRoundTrips(f, t, files.value, hash, required);
    var ok := VerifyPortable(f, t, files.value, hash, required, archive);
    if !ok {
      return None;
    }
    out := ExtractPortable(f, archive);
  }
}
