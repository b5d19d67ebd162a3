/** What the portable package contains, told by names: secrets, databases and local
    state stay out; sources go in; and whatever the package requires may go in. */
module PortableContents {
  import opened Options
  import opened PrunedWalk
  import opened PortablePackage
  import opened PortableArchive

  // -------------------------------------------------------------------- safe paths

  /** Windows devices, with any extension and in any case. */
  predicate Device(stem: string) {
    || Fold(stem) in {"aux", "con", "nul", "prn"}
    || (|stem| == 4 && Fold(stem)[..3] in {"com", "lpt"} && '1' <= stem[3] <= '9')
  }

  /** What a name must not be: a step up or in place, a device, something that ends with
      a blank or a dot, or something with a control character or one of <>:"|?* in it. */
  lemma HazardsAreRefused(segment: string)
    ensures SafeSegment(segment) <==>
              && segment !in {"", ".", ".."}
              && segment[|segment| - 1] !in {' ', '.'}
              && (forall c | c in segment :: c >= ' ' && c !in {'<', '>', ':', '\"', '|', '?', '*'})
              && !Device(Split(segment, '.')[0])
  {
    var stem := Split(segment, '.')[0];
    if |stem| == 4 {
      assert Fold(stem)[3] == FoldChar(stem[3]);
      assert forall c: char :: c in Digits <==> '1' <= c <= '9' by { DigitsAre(); }
    }
    assert Reserved(stem) <==> Device(stem);
    forall c: char ensures c !in Forbidden <==> c !in {'<', '>', ':', '\"', '|', '?', '*'} { ForbiddenAre(c); }
    assert ' ' as int == 32;
  }

  lemma DigitsAre()
    ensures forall c: char :: c in Digits <==> '1' <= c <= '9'
  {
    forall c: char | '1' <= c <= '9' ensures c in Digits {
      assert Digits[c as int - '1' as int] == c;
    }
  }

  lemma ForbiddenAre(c: char)
    ensures c in Forbidden <==> c in {'<', '>', ':', '\"', '|', '?', '*'}
  {
    assert Forbidden[0] == '<' && Forbidden[1] == '>' && Forbidden[2] == ':' && Forbidden[3] == '\"' && Forbidden[4] == '|'
        && Forbidden[5] == '?' && Forbidden[6] == '*';
  }

  /** An accepted path is relative, has no drive, goes nowhere up, and each of its names is
      safe. */
  lemma AcceptedPathIsHarmless(value: string)
    requires SafeRelativePath(value).Some?
    ensures var r := SafeRelativePath(value).value;
            && r != "" && r[0] != '/' && (forall c | c in r :: c !in {'\\', ':'})
            && forall segment | segment in Split(r, '/') :: segment !in {"", ".", ".."} && SafeSegment(segment)
  {
    var normalized := StripHere(Slashes(value));
    StripIsSuffix(Slashes(value));
    JoinSplit(normalized, '/');
    forall c | c in normalized ensures c != ':' {
      SplitKeepsChars(normalized, c);
      ForbiddenAre(':');
    }
  }

  lemma {:induction false} SplitKeepsChars(s: string, c: char)
    requires c in s
    ensures c == '/' || exists part :: part in Split(s, '/') && c in part
  {
    if c != '/' {
      if s[0] == c {
        assert c in Split(s, '/')[0];
      } else {
        assert s == [s[0]] + s[1..];
        SplitKeepsChars(s[1..], c);
        var rest := Split(s[1..], '/');
        var part :| part in rest && c in part;
        var k :| 0 <= k < |rest| && rest[k] == part;
        if s[0] == '/' {
          assert Split(s, '/')[k + 1] == part;
        } else if k == 0 {
          assert c in Split(s, '/')[0];
        } else {
          assert Split(s, '/')[k] == part;
        }
      }
    }
  }

  // ------------------------------------------------------------------- what stays out

  /** A file is left out if its name says that it is a key, a database, a log, a model, a
      backup or a part of one, in whatever case, and wherever it lies. */
  lemma SecretsStayOut(p: Path, suffix: string)
    requires p != [] && EndsWith(Fold(p[|p| - 1]), suffix)
    requires suffix in {".key", ".pem", ".pfx", ".p12", ".db", ".sqlite", ".sqlite3", ".db-wal", ".db-shm", ".db-journal",
                        ".log", ".gguf", ".bak", ".part", ".tmp", ".pyc", ".pyo", ".exe.new"}
    ensures ExcludedFile(p) && forall t :: !Packaged(t, p)
  {
    assert Suffixes[0] == ".bak" && Suffixes[1] == ".db" && Suffixes[2] == ".gguf" && Suffixes[3] == ".key" && Suffixes[4] == ".log"
        && Suffixes[5] == ".p12" && Suffixes[6] == ".part" && Suffixes[7] == ".pem" && Suffixes[8] == ".pfx" && Suffixes[9] == ".pyc"
        && Suffixes[10] == ".pyo" && Suffixes[11] == ".sqlite" && Suffixes[12] == ".sqlite3" && Suffixes[13] == ".tmp"
        && Suffixes[14] == ".db-wal" && Suffixes[15] == ".db-shm" && Suffixes[16] == ".db-journal" && Suffixes[17] == ".exe.new";
    assert suffix in Suffixes;
  }

  /** So are the settings of one machine. */
  lemma SettingsStayOut(p: Path)
    requires p != []
    requires var leaf := Fold(p[|p| - 1]);
             leaf in {".env", ".coverage", ".ds_store", "connections.yaml"} || (".env." <= leaf && leaf != ".env.example")
    ensures ExcludedFile(p) && forall t :: !Packaged(t, p)
  {
  }

  /** Nothing below a root directory of local state or of version control is taken. */
  lemma LocalStateStaysOut(p: Path)
    requires |p| >= 2
    requires Fold(p[0]) in {".git", ".hg", ".svn", ".nivelle", ".nozomi", ".venv", "venv", "data", "models", "logs", "runtime", "userdata",
                            "backup", "backups", "update", "updates", "temp", "tmp", "build", "dist"}
             || ".tmp." <= Fold(p[0]) || "nivelle-portable-" <= Fold(p[0]) || "nivelle-windows-" <= Fold(p[0])
             || "nivelle-update-" <= Fold(p[0]) || "nozomi-portable-" <= Fold(p[0]) || "nozomi-windows-" <= Fold(p[0])
             || "nozomi-update-" <= Fold(p[0])
    ensures ExcludedFile(p) && forall t :: !Packaged(t, p)
  {
    var first := Fold(p[0]);
    assert p[..|p| - 1][0] == p[0];
    assert RootPrefixes[0] == ".tmp." && RootPrefixes[2] == "nivelle-portable-" && RootPrefixes[3] == "nivelle-windows-"
        && RootPrefixes[4] == "nivelle-update-" && RootPrefixes[5] == "nozomi-portable-" && RootPrefixes[6] == "nozomi-windows-"
        && RootPrefixes[7] == "nozomi-update-";
    assert ExcludedDirectory(p[..|p| - 1]) by {
      if first !in RootExcluded {
        assert ".tmp." in RootPrefixes && "nivelle-portable-" in RootPrefixes && "nivelle-windows-" in RootPrefixes
            && "nivelle-update-" in RootPrefixes && "nozomi-portable-" in RootPrefixes && "nozomi-windows-" in RootPrefixes
            && "nozomi-update-" in RootPrefixes;
        assert exists prefix :: prefix in RootPrefixes && prefix <= first;
      }
    }
  }

  /** Nor anything below a cache or a broken environment, at any depth. */
  lemma CachesStayOut(p: Path, i: nat)
    requires i < |p| - 1
    requires Fold(p[i]) in {".cache", ".mypy_cache", ".nox", ".pytest_cache", ".ruff_cache", ".tox", "__pycache__"}
             || ".venv.broken-" <= Fold(p[i])
    ensures ExcludedFile(p) && forall t :: !Packaged(t, p)
  {
    assert p[..|p| - 1][i] == p[i];
    assert CacheSegment(p[i]);
  }

  /** Of the configuration only the examples are taken. */
  lemma OnlyExamplesOfConfiguration(p: Path)
    requires p != [] && Fold(p[0]) == "config" && (|p| < 3 || Fold(p[1]) != "examples")
    ensures ExcludedFile(p) && forall t :: !Packaged(t, p)
  {
  }

  // --------------------------------------------------------------------- what goes in

  /** A directory that none of these rules mentions. */
  predicate Ordinary(dirs: Path) {
    && (forall name | name in dirs :: Fold(name) == name && name != "" && name[0] != '.' && name[0] != '_')
    && (dirs != [] ==> dirs[0] !in RootExcluded && !("nivelle-" <= dirs[0]) && !("nozomi-" <= dirs[0]))
    && (|dirs| >= 2 && dirs[0] == "config" ==> dirs[1] == "examples")
  }

  lemma OrdinaryIsTaken(dirs: Path)
    requires Ordinary(dirs)
    ensures !ExcludedDirectory(dirs)
  {
    if dirs != [] {
      assert dirs[0] in dirs;
      forall prefix | prefix in RootPrefixes ensures !(prefix <= dirs[0]) {
        PrefixesOfPrefixes(prefix, dirs[0]);
      }
      forall name | name in dirs ensures !CacheSegment(name) {
      }
    }
  }

  lemma PrefixesOfPrefixes(prefix: string, name: string)
    requires prefix in RootPrefixes
    ensures prefix <= name ==> name[0] == '.' || "nivelle-" <= name || "nozomi-" <= name
  {
    assert forall k | 2 <= k < 5 :: "nivelle-" <= RootPrefixes[k];
    assert forall k | 5 <= k < 8 :: "nozomi-" <= RootPrefixes[k];
  }

  /** Source files by their extension. */
  predicate SourceName(leaf: string) {
    EndsWith(leaf, ".py") || EndsWith(leaf, ".ps1") || EndsWith(leaf, ".cmd") || EndsWith(leaf, ".toml") || EndsWith(leaf, ".exe")
  }

  /** The last two characters of such a name. */
  predicate SourceEnd(end: (char, char)) {
    end in {('p', 'y'), ('s', '1'), ('m', 'd'), ('m', 'l'), ('x', 'e')}
  }

  function LastTwo(s: string): (char, char)
    requires |s| >= 2
  {
    (s[|s| - 2], s[|s| - 1])
  }

  lemma SourcesEnd(leaf: string)
    requires SourceName(leaf)
    ensures |leaf| >= 2 && SourceEnd(LastTwo(leaf))
  {
    SameEnd(leaf, ".py");
    SameEnd(leaf, ".ps1");
    SameEnd(leaf, ".cmd");
    SameEnd(leaf, ".toml");
    SameEnd(leaf, ".exe");
  }

  lemma SameEnd(leaf: string, suffix: string)
    requires |suffix| >= 2
    ensures EndsWith(leaf, suffix) ==> |leaf| >= 2 && LastTwo(leaf) == LastTwo(suffix)
  {
  }

  lemma SecretsEnd(suffix: string)
    requires suffix in Suffixes
    ensures |suffix| >= 2 && !SourceEnd(LastTwo(suffix))
  {
    assert forall k | 0 <= k < |Suffixes| :: |Suffixes[k]| >= 2 && !SourceEnd(LastTwo(Suffixes[k]));
  }

  lemma SourceIsNoSecret(leaf: string)
    requires SourceName(leaf) && leaf[0] != '.'
    ensures !ExcludedLeaf(leaf)
  {
    SourcesEnd(leaf);
    forall suffix | suffix in Suffixes ensures !EndsWith(leaf, suffix) {
      SecretsEnd(suffix);
      SameEnd(leaf, suffix);
    }
    assert leaf != "connections.yaml" by {
      assert !EndsWith("connections.yaml", ".toml");
    }
  }

  /** A source file in an ordinary directory is always taken. */
  lemma SourcesGoIn(t: Tree, dirs: Path, name: string)
    requires Ordinary(dirs) && SourceName(Fold(name)) && Fold(name)[0] != '.'
    requires dirs == [] ==> Fold(name) !in {"config", "nozomi-server.exe", "nozomi-client.exe", "nozomi-local.exe", "nozomi-updater.exe"}
    requires dirs != [] && dirs[0] == "config" ==> |dirs| >= 2
    ensures Packaged(t, dirs + [name]) <==> dirs + [name] in t && t[dirs + [name]].File?
  {
    var p := dirs + [name];
    OrdinaryIsTaken(dirs);
    SourceIsNoSecret(Fold(name));
    assert p[..|p| - 1] == dirs;
    if dirs != [] {
      assert p[0] == dirs[0] && dirs[0] in dirs;
    }
  }

  // ---------------------------------------------------------------- what is required

  /** Names in two parts, at the root and among the scripts. */
  const RootRequired: seq<(string, string)> := [
    ("pyproject", ".toml"), ("Nivelle-Core", ".exe"), ("Nivelle-Link", ".exe"), ("Nivelle-Local", ".exe"),
    ("Nivelle-Updater", ".exe"), ("Nivelle-Update", ".cmd"), ("Nivelle-Rollback", ".cmd") ]

  const ScriptsRequired: seq<(string, string)> := [
    ("apply_update", ".ps1"), ("bootstrap_python", ".ps1"), ("build_executables", ".ps1"), ("build_update", ".ps1"),
    ("nivelle_executable_launcher", ".py"), ("rollback_update", ".ps1"), ("run_locked", ".ps1"),
    ("update_from_github", ".ps1"), ("verify_update", ".ps1") ]

  /** A module of the program: its directories and its name. */
  datatype Module = Module(dirs: Path, name: string) {
    function File(): Path { dirs + [name + ".py"] }
  }

  /** Each of these, under its present or its former name. */
  const Renamed: seq<(Module, Module)> := [
    (Module([], "nivelle"), Module([], "nozomi")),
    (Module([], "nivelle_runtime"), Module([], "nozomi_runtime")),
    (Module(["apps", "server", "nivelle_core"], "app"), Module(["apps", "server", "nozomi_server"], "app")),
    (Module(["apps", "client", "nivelle_link"], "main"), Module(["apps", "client", "nozomi_client"], "main")),
    (Module(["packages", "nivelle_protocol"], "version"), Module(["packages", "nozomi_protocol"], "version")),
    (Module(["packages", "nivelle_protocol"], "persona"), Module(["packages", "nozomi_protocol"], "persona")) ]

  /** What verify_portable insists on. */
  function PortableRequired(): Required {
    Required((set n | n in RootRequired :: [n.0 + n.1]) + (set n | n in ScriptsRequired :: ["scripts", n.0 + n.1])
             + {["VERSION"], ["config", "examples", "server.yaml"]},
             seq(|Renamed|, i requires 0 <= i < |Renamed| => (Renamed[i].0.File(), Renamed[i].1.File())))
  }

  /** No rule keeps the file out. */
  ghost predicate MayGoIn(p: Path) {
    p != [] && !ExcludedFile(p)
  }

  lemma FoldEnds(name: string, suffix: string)
    requires EndsWith(name, suffix) && Fold(suffix) == suffix
    ensures EndsWith(Fold(name), suffix)
  {
    var k := |name| - |suffix|;
    forall i | 0 <= i < |suffix| ensures Fold(name)[k + i] == suffix[i] {
      assert name[k..][i] == suffix[i] && Fold(suffix)[i] == FoldChar(suffix[i]);
    }
  }

  lemma SourceFolds(name: string)
    requires SourceName(name)
    ensures SourceName(Fold(name))
  {
    assert Fold(".py") == ".py" && Fold(".ps1") == ".ps1" && Fold(".cmd") == ".cmd" && Fold(".toml") == ".toml" && Fold(".exe") == ".exe";
    var end := if EndsWith(name, ".py") then ".py" else if EndsWith(name, ".ps1") then ".ps1" else if EndsWith(name, ".cmd") then ".cmd"
               else if EndsWith(name, ".toml") then ".toml" else ".exe";
    FoldEnds(name, end);
  }

  /** Such a name is none of the former programs'. */
  predicate PlainName(name: string) {
    SourceName(name) && |name| >= 2 && name[0] != '.' && (LastTwo(name) == ('p', 'y') || (name[1] != 'o' && name[1] != 'O'))
  }

  predicate Former(name: string) {
    name in {"config", "nozomi-server.exe", "nozomi-client.exe", "nozomi-local.exe", "nozomi-updater.exe"}
  }

  lemma FormerNames(name: string)
    requires Former(name)
    ensures |name| >= 2 && name[1] == 'o' && LastTwo(name) != ('p', 'y')
  {
  }

  lemma PlainFolds(name: string)
    requires PlainName(name)
    ensures SourceName(Fold(name)) && Fold(name)[0] != '.'
    ensures !Former(Fold(name))
  {
    SourceFolds(name);
    assert LastTwo(name) == ('p', 'y') ==> LastTwo(Fold(name)) == ('p', 'y');
    forall former | Former(former) ensures former != Fold(name) {
      FormerNames(former);
    }
  }

  lemma PlainMayGoIn(dirs: Path, name: string)
    requires PlainName(name) && Ordinary(dirs) && (dirs != [] && dirs[0] == "config" ==> |dirs| >= 2)
    ensures MayGoIn(dirs + [name])
  {
    PlainFolds(name);
    var p := dirs + [name];
    OrdinaryIsTaken(dirs);
    SourceIsNoSecret(Fold(name));
    assert p[..|p| - 1] == dirs;
    if dirs != [] {
      assert p[0] == dirs[0] && dirs[0] in dirs;
    }
  }

  /** A name made of a stem and an extension. */
  lemma NameIs(stem: string, end: string)
    requires |stem| >= 2 && stem[0] != '.' && end in {".py", ".ps1", ".cmd", ".toml", ".exe"}
    requires end == ".py" || stem[1] != 'o'
    requires stem[1] != 'O'
    ensures PlainName(stem + end)
  {
    assert (stem + end)[|stem|..] == end;
    if end == ".py" {
      SameEnd(stem + end, ".py");
    }
  }

  lemma RootMayGoIn(stem: string, end: string)
    requires |stem| >= 2 && stem[0] != '.' && end in {".py", ".ps1", ".cmd", ".toml", ".exe"}
    requires (end == ".py" || stem[1] != 'o') && stem[1] != 'O'
    ensures MayGoIn([stem + end])
  {
    NameIs(stem, end);
    PlainMayGoIn([], stem + end);
    assert [] + [stem + end] == [stem + end];
  }

  lemma BelowMayGoIn(dirs: Path, stem: string, end: string)
    requires Ordinary(dirs) && dirs != [] && dirs[0] != "config"
    requires |stem| >= 2 && stem[0] != '.' && end in {".py", ".ps1", ".cmd", ".toml", ".exe"}
    ensures MayGoIn(dirs + [stem + end])
  {
    var name, p := stem + end, dirs + [stem + end];
    assert name[|stem|..] == end;
    SourceFolds(name);
    SourceIsNoSecret(Fold(name));
    OrdinaryIsTaken(dirs);
    assert p[..|p| - 1] == dirs && p[0] == dirs[0] && dirs[0] in dirs;
  }

  lemma ScriptsAreOrdinary()
    ensures Ordinary(["scripts"])
  {
    assert Fold("scripts") == "scripts";
  }

  lemma ScriptMayGoIn(stem: string, end: string)
    requires |stem| >= 2 && stem[0] != '.' && end in {".py", ".ps1", ".cmd", ".toml", ".exe"}
    ensures MayGoIn(["scripts", stem + end])
  {
    ScriptsAreOrdinary();
    BelowMayGoIn(["scripts"], stem, end);
    assert ["scripts"] + [stem + end] == ["scripts", stem + end];
  }

  lemma VersionMayGoIn()
    ensures MayGoIn(["VERSION"])
  {
    assert Fold("VERSION") == "version";
    forall suffix | suffix in Suffixes ensures !EndsWith("version", suffix) {
      SameEnd("version", suffix);
      OtherEnds(suffix);
    }
    assert "version" !in {".env", ".coverage", ".ds_store", "connections.yaml"} by { assert "version"[1] == 'e'; }
    assert !(".env." <= "version") by { assert ".env."[0] != "version"[0]; }
    assert !ExcludedLeaf("version");
    assert ["VERSION"][0] == "VERSION" && ["VERSION"][|["VERSION"]| - 1] == "VERSION";
  }

  lemma OtherEnds(suffix: string)
    requires suffix in Suffixes
    ensures |suffix| >= 2 && LastTwo(suffix) != ('o', 'n') && LastTwo(suffix) != ('m', 'l')
  {
    assert forall k | 0 <= k < |Suffixes| :: |Suffixes[k]| >= 2 && LastTwo(Suffixes[k]) != ('o', 'n') && LastTwo(Suffixes[k]) != ('m', 'l');
  }

  lemma ExamplesAreOrdinary()
    ensures Fold("config") == "config" && Fold("examples") == "examples" && Ordinary(["config", "examples"])
  {
    assert Fold("config") == "config" && Fold("examples") == "examples";
  }

  lemma YamlIsNoSecret(leaf: string)
    requires |leaf| >= 2 && LastTwo(leaf) == ('m', 'l') && leaf[0] == 's'
    ensures !ExcludedLeaf(leaf)
  {
    forall suffix | suffix in Suffixes ensures !EndsWith(leaf, suffix) {
      SameEnd(leaf, suffix);
      OtherEnds(suffix);
    }
    assert "connections.yaml"[0] == 'c' && ".env."[0] == '.' && ".env"[0] == '.' && ".coverage"[0] == '.' && ".ds_store"[0] == '.';
  }

  lemma ExampleMayGoIn()
    ensures MayGoIn(["config", "examples", "server.yaml"])
  {
    var p := ["config", "examples", "server.yaml"];
    ExamplesAreOrdinary();
    OrdinaryIsTaken(["config", "examples"]);
    assert p[..2] == ["config", "examples"];
    assert Fold("server.yaml") == "server.yaml";
    YamlIsNoSecret("server.yaml");
  }

  lemma Plain(name: string)
    requires name in {"apps", "server", "client", "packages", "nivelle_core", "nozomi_server", "nivelle_link", "nozomi_client",
                      "nivelle_protocol", "nozomi_protocol"}
    ensures Fold(name) == name && name != "" && name[0] != '.' && name[0] != '_'
  {
  }

  predicate OfTheProgram(dirs: Path) {
    && dirs != [] && dirs[0] in {"apps", "packages"}
    && forall name | name in dirs :: name in {"apps", "server", "client", "packages", "nivelle_core", "nozomi_server", "nivelle_link",
                                              "nozomi_client", "nivelle_protocol", "nozomi_protocol"}
  }

  lemma ModuleMayGoIn(m: Module)
    requires m.dirs == [] || OfTheProgram(m.dirs)
    requires |m.name| >= 2 && m.name[0] != '.' && m.name[1] != 'O'
    ensures MayGoIn(m.File())
  {
    if m.dirs == [] {
      RootMayGoIn(m.name, ".py");
      assert m.File() == [m.name + ".py"];
    } else {
      forall name | name in m.dirs ensures Fold(name) == name && name != "" && name[0] != '.' && name[0] != '_' {
        Plain(name);
      }
      assert m.dirs[0] in m.dirs;
      BelowMayGoIn(m.dirs, m.name, ".py");
    }
  }

  lemma RenamedAreModules(k: nat)
    requires k < |Renamed|
    ensures var (m, n) := Renamed[k];
            && (m.dirs == [] || OfTheProgram(m.dirs)) && (n.dirs == [] || OfTheProgram(n.dirs))
            && |m.name| >= 2 && m.name[0] != '.' && m.name[1] != 'O' && |n.name| >= 2 && n.name[0] != '.' && n.name[1] != 'O'
  {
  }

  lemma NamesAreParts(n: (string, string))
    requires n in RootRequired || n in ScriptsRequired
    ensures |n.0| >= 2 && n.0[0] != '.' && n.1 in {".py", ".ps1", ".cmd", ".toml", ".exe"}
    ensures n in RootRequired ==> n.0[1] != 'o' && n.0[1] != 'O'
  {
  }

  lemma PathMayGoIn(p: Path)
    requires p in PortableRequired().paths
    ensures MayGoIn(p)
  {
    if p == ["VERSION"] { VersionMayGoIn(); }
    else if p == ["config", "examples", "server.yaml"] { ExampleMayGoIn(); }
    else { PartsMayGoIn(p); }
  }

  lemma PartsMayGoIn(p: Path)
    requires || (exists n :: n in RootRequired && p == [n.0 + n.1])
             || (exists n :: n in ScriptsRequired && p == ["scripts", n.0 + n.1])
    ensures MayGoIn(p)
  {
    if n :| n in RootRequired && p == [n.0 + n.1] {
      NamesAreParts(n);
      RootMayGoIn(n.0, n.1);
    } else {
      var n :| n in ScriptsRequired && p == ["scripts", n.0 + n.1];
      NamesAreParts(n);
      ScriptMayGoIn(n.0, n.1);
    }
  }

  lemma AlternativeMayGoIn(pair: (Path, Path))
    requires pair in PortableRequired().alternatives
    ensures MayGoIn(pair.0) && MayGoIn(pair.1)
  {
    var k :| 0 <= k < |Renamed| && pair == (Renamed[k].0.File(), Renamed[k].1.File());
    RenamedAreModules(k);
    ModuleMayGoIn(Renamed[k].0);
    ModuleMayGoIn(Renamed[k].1);
  }

  /** Whatever the package must contain, under whichever name, its own rules let in: a
      tree that has all of it can be packaged. */
  lemma RequiredMayGoIn(t: Tree, p: Path)
    requires p in PortableRequired().paths || exists pair :: pair in PortableRequired().alternatives && (p == pair.0 || p == pair.1)
    ensures Packaged(t, p) <==> p in t && t[p].File?
  {
    if p in PortableRequired().paths {
      PathMayGoIn(p);
    } else {
      var pair :| pair in PortableRequired().alternatives && (p == pair.0 || p == pair.1);
      AlternativeMayGoIn(pair);
    }
  }
}
