/** The portable package: canonical paths, a pruned walk over the source tree that
    collects exactly the files the filter lets through, and an archive that verifies
    and extracts to the same files. */
module PortablePackage {
  import opened Options
  import opened PrunedWalk

  // --------------------------------------------------------------------- strings

  function Split(s: string, separator: char): (r: seq<string>)
    ensures r != []
    ensures forall part | part in r :: separator !in part
  {
    if s == [] then [[]]
    else if s[0] == separator then [[]] + Split(s[1..], separator)
    else
      var rest := Split(s[1..], separator);
      [[s[0]] + rest[0]] + rest[1..]
  }

  function Join(parts: seq<string>, separator: char): string
    requires parts != []
  {
    if |parts| == 1 then parts[0] else parts[0] + [separator] + Join(parts[1..], separator)
  }

  lemma {:induction false} JoinSplit(s: string, separator: char)
    ensures Join(Split(s, separator), separator) == s
  {
    if s != [] {
      JoinSplit(s[1..], separator);
      var rest := Split(s[1..], separator);
      if s[0] == separator {
        assert Split(s, separator)[1..] == rest;
      } else {
        assert Split(s, separator)[1..] == rest[1..];
      }
    }
  }

  lemma {:induction false} SplitPart(part: string, tail: string, separator: char)
    requires separator !in part
    ensures Split(part + [separator] + tail, separator) == [part] + Split(tail, separator)
    ensures Split(part, separator) == [part]
  {
    if part == [] {
      assert (part + [separator] + tail)[1..] == tail;
    } else {
      SplitPart(part[1..], tail, separator);
      assert (part + [separator] + tail)[1..] == part[1..] + [separator] + tail;
      assert [part[0]] + part[1..] == part;
    }
  }

  lemma {:induction false} SplitJoin(parts: seq<string>, separator: char)
    requires parts != [] && forall part | part in parts :: separator !in part
    ensures Split(Join(parts, separator), separator) == parts
    decreases |parts|
  {
    if |parts| == 1 {
      SplitPart(parts[0], [], separator);
    } else {
      SplitJoin(parts[1..], separator);
      SplitPart(parts[0], Join(parts[1..], separator), separator);
    }
  }

  // ------------------------------------------------------------- canonical paths

  const Forbidden: string := "<>:\"|?*"
  const Digits: string := "123456789"

  predicate Reserved(stem: string) {
    var s := Fold(stem);
    || s in {"aux", "con", "nul", "prn"}
    || (|s| == 4 && (s[..3] == "com" || s[..3] == "lpt") && s[3] in Digits)
  }

  predicate SafeSegment(segment: string) {
    && segment != "" && segment != "." && segment != ".."
    && segment[|segment| - 1] != ' ' && segment[|segment| - 1] != '.'
    && (forall c | c in segment :: c as int >= 32 && c !in Forbidden)
    && !Reserved(Split(segment, '.')[0])
  }

  function Slashes(s: string): string {
    seq(|s|, i requires 0 <= i < |s| => if s[i] == '\\' then '/' else s[i])
  }

  function StripHere(s: string): string {
    if "./" <= s then StripHere(s[2..]) else s
  }

  predicate IsLetter(c: char) {
    'A' <= c <= 'Z' || 'a' <= c <= 'z'
  }

  /** safe_relative_path; None where it raises. */
  function SafeRelativePath(value: string): Option<string> {
    var normalized := StripHere(Slashes(value));
    if normalized == "" || normalized[0] == '/' || '\0' in normalized then None
    else if |normalized| >= 2 && IsLetter(normalized[0]) && normalized[1] == ':' then None
    else
      var segments := Split(normalized, '/');
      if forall segment | segment in segments :: SafeSegment(segment) then Some(Join(segments, '/')) else None
  }

  lemma {:induction false} StripIsSuffix(s: string)
    ensures var r := StripHere(s); !("./" <= r) && (forall c | c in r :: c in s) && |r| <= |s|
    ensures !("./" <= s) ==> StripHere(s) == s
    decreases |s|
  {
    if "./" <= s {
      StripIsSuffix(s[2..]);
    }
  }

  lemma SlashesIsIdentity(s: string)
    requires '\\' !in s
    ensures Slashes(s) == s
  {
  }

  /** What was accepted once is canonical: it is accepted again, as it stands. */
  lemma SafePathIsCanonical(value: string)
    requires SafeRelativePath(value).Some?
    ensures SafeRelativePath(SafeRelativePath(value).value) == SafeRelativePath(value)
  {
    var normalized := StripHere(Slashes(value));
    StripIsSuffix(Slashes(value));
    JoinSplit(normalized, '/');
    assert forall c | c in Slashes(value) :: c != '\\';
    SlashesIsIdentity(normalized);
    StripIsSuffix(normalized);
  }

  /** A directory entry's name, as an operating system gives it. */
  predicate EntryName(name: string) {
    name != "" && name != "." && name != ".." && '/' !in name && '\\' !in name
  }

  lemma {:induction false} JoinChars(parts: seq<string>, c: char)
    requires parts != [] && c != '/'
    ensures c in Join(parts, '/') <==> exists part :: part in parts && c in part
    ensures Join(parts, '/') == "" ==> parts == [""]
    decreases |parts|
  {
    if |parts| > 1 {
      JoinChars(parts[1..], c);
      assert parts == [parts[0]] + parts[1..];
    }
  }

  /** For entries of a tree the string check is a check of the segments. */
  lemma SafePathBySegments(p: seq<string>)
    requires p != [] && forall name | name in p :: EntryName(name)
    ensures SafeRelativePath(Join(p, '/')) == if forall name | name in p :: SafeSegment(name) then Some(Join(p, '/')) else None
  {
    var s := Join(p, '/');
    JoinChars(p, '\\');
    JoinChars(p, '\0');
    SlashesIsIdentity(s);
    assert p[0] in p;
    assert s[0] == p[0][0];
    assert |p[0]| >= 2 ==> s[1] == p[0][1] && s[1] != '/';
    assert |p[0]| == 1 ==> p[0] == [s[0]] && s[0] != '.';
    StripIsSuffix(s);
    SplitJoin(p, '/');
    if '\0' in s || (|s| >= 2 && IsLetter(s[0]) && s[1] == ':') {
      UnsafeCharacter(p, s);
    }
  }

  lemma UnsafeCharacter(p: seq<string>, s: string)
    requires p != [] && s == Join(p, '/') && forall name | name in p :: EntryName(name)
    requires '\0' in s || (|s| >= 2 && s[1] == ':')
    ensures exists name :: name in p && !SafeSegment(name)
  {
    if '\0' in s {
      JoinChars(p, '\0');
      var name :| name in p && '\0' in name;
      assert !SafeSegment(name);
    } else {
      JoinChars(p, ':');
      assert s[1] in s;
      var name :| name in p && ':' in name;
      assert ':' in Forbidden;
      assert !SafeSegment(name);
    }
  }

  // ------------------------------------------------------------------ the filter

  const RootExcluded: set<string> := {
    ".git", ".hg", ".nivelle", ".nozomi", ".svn", ".venv", "backup", "backups", "build", "data", "dist", "logs",
    "models", "runtime", "temp", "tmp", "update", "updates", "userdata", "venv" }

  const CacheNames: set<string> := {
    ".cache", ".mypy_cache", ".nox", ".pytest_cache", ".ruff_cache", ".tox", "__pycache__" }

  const RootPrefixes: seq<string> := [
    ".tmp.", ".venv.broken-", "nivelle-portable-", "nivelle-windows-", "nivelle-update-",
    "nozomi-portable-", "nozomi-windows-", "nozomi-update-" ]

  const LegacyBinaries: set<string> := {
    "nozomi-server.exe", "nozomi-client.exe", "nozomi-local.exe", "nozomi-updater.exe" }

  const Suffixes: seq<string> := [
    ".bak", ".db", ".gguf", ".key", ".log", ".p12", ".part", ".pem", ".pfx", ".pyc", ".pyo", ".sqlite", ".sqlite3",
    ".tmp", ".db-wal", ".db-shm", ".db-journal", ".exe.new" ]

  predicate EndsWith(s: string, suffix: string) {
    |suffix| <= |s| && s[|s| - |suffix|..] == suffix
  }

  predicate CacheSegment(segment: string) {
    Fold(segment) in CacheNames || ".venv.broken-" <= Fold(segment)
  }

  predicate ExcludedDirectory(p: Path) {
    p != [] &&
    var first := Fold(p[0]);
    || first in RootExcluded
    || (exists prefix :: prefix in RootPrefixes && prefix <= first)
    || (exists segment :: segment in p && CacheSegment(segment))
    || (|p| >= 2 && first == "config" && Fold(p[1]) != "examples")
  }

  predicate ExcludedLeaf(leaf: string) {
    || leaf in {".env", ".coverage", ".ds_store", "connections.yaml"}
    || (".env." <= leaf && leaf != ".env.example")
    || (exists suffix :: suffix in Suffixes && EndsWith(leaf, suffix))
  }

  predicate ExcludedFile(p: Path)
    requires p != []
  {
    || (|p| > 1 && ExcludedDirectory(p[..|p| - 1]))
    || (Fold(p[0]) == "config" && (|p| < 3 || Fold(p[1]) != "examples"))
    || (|p| == 1 && Fold(p[0]) in LegacyBinaries)
    || ExcludedLeaf(Fold(p[|p| - 1]))
  }

  /** An excluded directory stays excluded however far one descends. */
  lemma ExclusionDescends(p: Path, n: nat)
    requires 0 < n <= |p| && ExcludedDirectory(p[..n])
    ensures ExcludedDirectory(p)
  {
    if segment :| segment in p[..n] && CacheSegment(segment) {
      assert segment in p;
    }
  }

  /** So pruning an excluded directory loses no file that the filter lets through. */
  lemma PruningLosesNothing(p: Path, n: nat)
    requires 0 < n < |p| && ExcludedDirectory(p[..n])
    ensures ExcludedFile(p)
  {
    var parent := p[..|p| - 1];
    assert parent[..n] == p[..n];
    ExclusionDescends(parent, n);
  }

  // ------------------------------------------------------------------ collecting

  predicate SafePath(p: Path) {
    forall name | name in p :: SafeSegment(name)
  }

  function Name(p: Path): string {
    if p == [] then "" else Join(p, '/')
  }

  function PackageFilter(): Filter {
    Filter(p => ExcludedDirectory(p), p => p != [] && ExcludedFile(p), p => SafePath(p), p => Name(p), p => Fold(Name(p)))
  }

  lemma PackageFilterIsClosed()
    ensures PackageFilter().Closed()
  {
    forall p: Path, n: nat | 0 < n < |p| && ExcludedDirectory(p[..n]) ensures ExcludedFile(p) {
      PruningLosesNothing(p, n);
    }
  }

  /** The files of the package: every file the filter lets through, wherever it is. */
  ghost predicate Packaged(t: Tree, p: Path) {
    p in t && p != [] && t[p].File? && !ExcludedFile(p)
  }

  /** The walk comes to something with an unsafe name, or to a special file that is not left
      out anyway. */
  ghost predicate Stops(t: Tree, p: Path) {
    && p in t && p != [] && (forall n | 0 < n < |p| :: !ExcludedDirectory(p[..n]))
    && ((exists name :: name in p && !SafeSegment(name)) || (t[p].Special? && !ExcludedFile(p)))
  }

  /** Two files of the package differ in case only. */
  ghost predicate Twins(t: Tree, p: Path, q: Path) {
    Packaged(t, p) && Packaged(t, q) && p != q && Fold(Join(p, '/')) == Fold(Join(q, '/'))
  }

  ghost predicate RefusesTree(t: Tree) {
    (exists p :: Stops(t, p)) || (exists p, q :: Twins(t, p, q))
  }

  lemma StopsExactlyWhen(t: Tree, p: Path)
    ensures Stops(t, p) <==> p in t && p != [] && Visited(PackageFilter(), p) && Refused(PackageFilter(), t, p)
  {
    var f := PackageFilter();
    forall n | 0 < n < |p| ensures f.prune(p[..n]) == ExcludedDirectory(p[..n]) {
    }
    if Visited(f, p) {
      forall n | 0 < n < |p| ensures !ExcludedDirectory(p[..n]) {
        assert !f.prune(p[..n]);
      }
    }
    assert f.safe(p) == SafePath(p);
  }

  lemma IncludedIs(t: Tree, p: Path)
    ensures Included(PackageFilter(), t, p) <==> Packaged(t, p)
    ensures p != [] ==> PackageFilter().key(p) == Fold(Join(p, '/')) && PackageFilter().name(p) == Join(p, '/')
  {
  }

  /** Two included paths with one key. */
  ghost predicate SameKey(f: Filter, t: Tree, p: Path, q: Path) {
    Included(f, t, p) && Included(f, t, q) && p != q && f.key(p) == f.key(q)
  }

  ghost predicate StopsWalk(f: Filter, t: Tree, p: Path) {
    p in t && p != [] && Visited(f, p) && Refused(f, t, p)
  }

  lemma RefusableIs(f: Filter, t: Tree)
    ensures Refusable(f, t) <==> (exists p :: StopsWalk(f, t, p)) || (exists p, q :: SameKey(f, t, p, q))
  {
    if p :| p in t && p != [] && Visited(f, p) && Refused(f, t, p) {
      assert StopsWalk(f, t, p);
    }
    if p, q :| Included(f, t, p) && Included(f, t, q) && p != q && f.key(p) == f.key(q) {
      assert SameKey(f, t, p, q);
    }
  }

  lemma TwinsExactlyWhen(t: Tree, p: Path, q: Path)
    ensures Twins(t, p, q) <==> SameKey(PackageFilter(), t, p, q)
  {
    IncludedIs(t, p);
    IncludedIs(t, q);
  }

  lemma RefusesExactlyWhen(t: Tree)
    ensures RefusesTree(t) <==> Refusable(PackageFilter(), t)
  {
    RefusableIs(PackageFilter(), t);
    forall p ensures Stops(t, p) <==> StopsWalk(PackageFilter(), t, p) { StopsExactlyWhen(t, p); }
    forall p, q ensures Twins(t, p, q) <==> SameKey(PackageFilter(), t, p, q) { TwinsExactlyWhen(t, p, q); }
    SameRefusals(PackageFilter(), t);
  }

  lemma SameRefusals(f: Filter, t: Tree)
    requires forall p :: Stops(t, p) <==> StopsWalk(f, t, p)
    requires forall p, q :: Twins(t, p, q) <==> SameKey(f, t, p, q)
    ensures RefusesTree(t) <==> (exists p :: StopsWalk(f, t, p)) || (exists p, q :: SameKey(f, t, p, q))
  {
  }

  /** Sorted by their names, none of which come twice when case is ignored. */
  ghost predicate Listed(files: seq<Path>) {
    forall i, j | 0 <= i < j < |files| ::
      && files[i] != [] && files[j] != []
      && NoGreater(Join(files[i], '/'), Join(files[j], '/')) && Fold(Join(files[i], '/')) != Fold(Join(files[j], '/'))
  }

  lemma ListedExactlyWhen(t: Tree, files: seq<Path>)
    requires forall p | p in files :: Packaged(t, p)
    requires SortedByName(PackageFilter(), files) && NoTwins(PackageFilter(), files)
    ensures Listed(files)
  {
    forall i | 0 <= i < |files|
      ensures && files[i] != [] && PackageFilter().key(files[i]) == Fold(Join(files[i], '/'))
              && PackageFilter().name(files[i]) == Join(files[i], '/')
    {
      assert Packaged(t, files[i]);
      IncludedIs(t, files[i]);
    }
    ListedBy(PackageFilter(), files);
  }

  lemma ListedBy(f: Filter, files: seq<Path>)
    requires SortedByName(f, files) && NoTwins(f, files)
    requires forall i | 0 <= i < |files| ::
               files[i] != [] && f.key(files[i]) == Fold(Join(files[i], '/')) && f.name(files[i]) == Join(files[i], '/')
    ensures Listed(files)
  {
  }

  /** iter_source_files: exactly the files the filter lets through, sorted, without two
      that differ in case only; None exactly when the walk meets something it refuses. */
  method IterSourceFiles(t: Tree) returns (r: Option<seq<Path>>)
    requires WellFormed(t)
    ensures r.None? <==> Refusable(PackageFilter(), t)
    ensures r.Some? ==> (forall p :: p in r.value <==> Packaged(t, p)) && SortedByName(PackageFilter(), r.value)
    ensures r.Some? ==> NoTwins(PackageFilter(), r.value)
    ensures r.Some? ==> Listed(r.value)
    ensures r.None? <==> RefusesTree(t)
  {
    RefusesExactlyWhen(t);
    PackageFilterIsClosed();
    r := Iterate(PackageFilter(), t);
    if r.Some? {
      forall p ensures p in r.value <==> Packaged(t, p) {
        assert p in r.value <==> Included(PackageFilter(), t, p);
        IncludedIs(t, p);
      }
      ListedExactlyWhen(t, r.value);
    }
  }
}
