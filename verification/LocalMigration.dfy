/** The one-time migration of a legacy data root: stage a verified copy and a backup,
    then promote them by one rename. Every change to the disk is logged, any of them
    may be the last one, and the destination is never seen half-migrated. */
module LocalMigration {
  import opened Options

  // ---------------------------------------------------------------- data model

  type Path = seq<string>

  datatype Content =
    | Bytes(data: seq<nat>)
    | Snapshot(of: Content)               // a consistent copy of a SQLite database
    | Partial                             // a file being written
    | Completed(backup: Path)             // the marker of this very migration

  datatype Node = File(content: Content) | Directory

  /** A directory tree by relative path; the root is the empty path. */
  type Tree = map<Path, Node>

  /** The database that moves to another name in the same folder. */
  datatype Database = Database(folder: Path, legacy: string, current: string)

  const MarkerPath: Path := [".nivelle-0.4-migration.json"]

  predicate IsFile(t: Tree, p: Path) {
    p in t && t[p].File?
  }

  predicate IsDirectory(t: Tree, p: Path) {
    p in t && t[p].Directory?
  }

  ghost predicate HasFiles(t: Tree) {
    exists p :: IsFile(t, p)
  }

  function Parent(p: Path): Path
    requires p != []
  {
    p[..|p| - 1]
  }

  /** Every entry lies in a directory. */
  ghost predicate WellFormed(t: Tree) {
    && IsDirectory(t, [])
    && forall p | p in t && p != [] :: IsDirectory(t, Parent(p))
  }

  // ------------------------------------------------------------- what is copied

  /** A journal, shared-memory or write-ahead file of the database. */
  predicate IsSidecar(p: Path, db: Option<Database>) {
    && db.Some? && p != [] && Parent(p) == db.value.folder
    && var name, base := Fold(p[|p| - 1]), Fold(db.value.legacy);
       name in {base + "-journal", base + "-shm", base + "-wal"}
  }

  /** Copying descends to p: neither p nor any directory above it is named like a
      sidecar. */
  predicate Reached(p: Path, db: Option<Database>)
    decreases |p|
  {
    p == [] || (!IsSidecar(p, db) && Reached(Parent(p), db))
  }

  predicate IsDatabase(t: Tree, p: Path, db: Option<Database>) {
    db.Some? && p == db.value.folder + [db.value.legacy] && IsFile(t, p)
  }

  /** Where an entry goes; `rename` tells the main copy from the backup. */
  function Goal(t: Tree, p: Path, db: Option<Database>, rename: bool): Path {
    if rename && IsDatabase(t, p, db) then db.value.folder + [db.value.current] else p
  }

  function CopyOf(t: Tree, p: Path, db: Option<Database>): Node
    requires p in t
  {
    if IsDatabase(t, p, db) then File(Snapshot(t[p].content)) else t[p]
  }

  ghost function ReachedUnder(t: Tree, top: Path, db: Option<Database>): set<Path> {
    set p | p in t && top <= p && Reached(p, db)
  }

  /** Two names for the database at once: migration refuses to choose. */
  predicate Ambiguous(t: Tree, db: Option<Database>) {
    && db.Some? && db.value.legacy != db.value.current
    && db.value.folder + [db.value.legacy] in t && db.value.folder + [db.value.current] in t
  }

  /** `after` is `before` with the chosen entries of `t` copied below `base`. */
  ghost predicate Overlaid(t: Tree, chosen: set<Path>, base: Path, db: Option<Database>, rename: bool, before: Tree, after: Tree) {
    && (forall p | p in chosen :: p in t && base + Goal(t, p, db, rename) in after
                                  && after[base + Goal(t, p, db, rename)] == CopyOf(t, p, db))
    && (forall q | q in before :: q in after)
    && (forall q | q in after && (forall p | p in chosen :: q != base + Goal(t, p, db, rename)) ::
          q in before && after[q] == before[q])
  }

  lemma GoalIsInjective(t: Tree, p: Path, q: Path, db: Option<Database>, rename: bool)
    requires !Ambiguous(t, db) && p in t && q in t
    requires Goal(t, p, db, rename) == Goal(t, q, db, rename)
    ensures p == q
  {
  }

  lemma OverlayNothing(t: Tree, base: Path, db: Option<Database>, rename: bool, before: Tree)
    ensures Overlaid(t, {}, base, db, rename, before, before)
  {
  }

  /** Copying some entries and then others is copying both. */
  lemma OverlayBoth(t: Tree, a: set<Path>, b: set<Path>, base: Path, db: Option<Database>, rename: bool,
                    before: Tree, middle: Tree, after: Tree)
    requires !Ambiguous(t, db) && a <= t.Keys && b <= t.Keys
    requires Overlaid(t, a, base, db, rename, before, middle) && Overlaid(t, b, base, db, rename, middle, after)
    ensures Overlaid(t, a + b, base, db, rename, before, after)
  {
    forall p | p in a
      ensures base + Goal(t, p, db, rename) in after && after[base + Goal(t, p, db, rename)] == CopyOf(t, p, db)
    {
      var q := base + Goal(t, p, db, rename);
      if exists r :: r in b && q == base + Goal(t, r, db, rename) {
        var r :| r in b && q == base + Goal(t, r, db, rename);
        assert Goal(t, p, db, rename) == Goal(t, r, db, rename) by {
          assert q[|base|..] == Goal(t, p, db, rename) && q[|base|..] == Goal(t, r, db, rename);
        }
        GoalIsInjective(t, p, r, db, rename);
      }
    }
  }

  // ---------------------------------------------------------------- the outcome

  datatype Verdict = Already(backup: Path) | NotNeeded | Conflict | Proceed

  /** What the inspection of the two roots decides; a root that does not exist is
      the empty map. */
  ghost function Inspect(source: Tree, destination: Tree, db: Option<Database>): Verdict {
    if MarkerPath in destination then
      match destination[MarkerPath]
      case File(Completed(backup)) => Already(backup)
      case _ => Conflict
    else if !HasFiles(source) then NotNeeded
    else if HasFiles(destination) || Ambiguous(source, db) then Conflict
    else Proceed
  }

  /** The promoted tree: every entry the copy reaches, at its place and below the
      backup, the marker, and nothing else. */
  ghost predicate CompleteWith(source: Tree, destination: Tree, db: Option<Database>, backup: Path) {
    && |backup| == 2 && backup[0] == "backups"
    && (forall p | p in source && Reached(p, db) :: !(backup <= Goal(source, p, db, true)))
    && (forall p | p in source && Reached(p, db) && Goal(source, p, db, true) != MarkerPath ::
          && Goal(source, p, db, true) in destination
          && destination[Goal(source, p, db, true)] == CopyOf(source, p, db))
    && (forall p | p in source && Reached(p, db) ::
          backup + p in destination && destination[backup + p] == CopyOf(source, p, db))
    && MarkerPath in destination && destination[MarkerPath] == File(Completed(backup))
    && (forall q | q in destination && q != MarkerPath && q != ["backups"] ::
          InMainCopy(source, q, db) || InBackup(source, q, db, backup))
  }

  ghost predicate InMainCopy(source: Tree, q: Path, db: Option<Database>) {
    exists p :: p in source && Reached(p, db) && q == Goal(source, p, db, true)
  }

  predicate InBackup(source: Tree, q: Path, db: Option<Database>, backup: Path) {
    backup <= q && q[|backup|..] in source && Reached(q[|backup|..], db)
  }

  ghost predicate Complete(source: Tree, destination: Tree, db: Option<Database>) {
    exists backup :: CompleteWith(source, destination, db, backup)
  }

  /** The database that is migrated: a file under its legacy name that the copy reaches. */
  predicate MovesDatabase(source: Tree, db: Option<Database>) {
    db.Some? && IsFile(source, db.value.folder + [db.value.legacy]) && Reached(db.value.folder + [db.value.legacy], db)
  }

  predicate IsLegacyDatabase(p: Path, source: Tree, db: Option<Database>) {
    db.Some? && p == db.value.folder + [db.value.legacy] && IsFile(source, p)
  }

  /** Where everything is after a migration: the database as a snapshot under its current
      name and, in the backup, under its legacy one; every other entry that is reached
      as it was, at its own place and in the backup; the marker; and nothing else. */
  ghost predicate Migrated(source: Tree, destination: Tree, db: Option<Database>, backup: Path) {
    && destination.Keys >= {MarkerPath} && destination[MarkerPath] == File(Completed(backup))
    && (MovesDatabase(source, db) ==>
          var legacy, current := db.value.folder + [db.value.legacy], db.value.folder + [db.value.current];
          && (current != MarkerPath ==>
                current in destination && destination[current] == File(Snapshot(source[legacy].content)))
          && backup + legacy in destination && destination[backup + legacy] == File(Snapshot(source[legacy].content))
          && (db.value.legacy != db.value.current && legacy !in {MarkerPath, ["backups"], backup} ==> legacy !in destination))
    && (forall p | p in source && Reached(p, db) && !IsLegacyDatabase(p, source, db) ::
          && (p != MarkerPath ==> p in destination && destination[p] == source[p])
          && backup + p in destination && destination[backup + p] == source[p])
    && (forall q | q in destination ::
          || q in {MarkerPath, ["backups"]}
          || (q in source && Reached(q, db) && !IsLegacyDatabase(q, source, db))
          || (MovesDatabase(source, db) && q == db.value.folder + [db.value.current])
          || (backup <= q && q[|backup|..] in source && Reached(q[|backup|..], db)))
  }

  lemma DatabaseIsMigrated(source: Tree, destination: Tree, db: Option<Database>, backup: Path)
    requires CompleteWith(source, destination, db, backup) && !Ambiguous(source, db) && MovesDatabase(source, db)
    ensures var legacy, current := db.value.folder + [db.value.legacy], db.value.folder + [db.value.current];
            && (current != MarkerPath ==> current in destination && destination[current] == File(Snapshot(source[legacy].content)))
            && backup + legacy in destination && destination[backup + legacy] == File(Snapshot(source[legacy].content))
  {
    var legacy := db.value.folder + [db.value.legacy];
    assert Goal(source, legacy, db, true) == db.value.folder + [db.value.current];
    assert CopyOf(source, legacy, db) == File(Snapshot(source[legacy].content));
  }

  /** The legacy name is free again. */
  lemma LegacyNameIsFree(source: Tree, destination: Tree, db: Option<Database>, backup: Path)
    requires CompleteWith(source, destination, db, backup) && !Ambiguous(source, db) && MovesDatabase(source, db)
    requires db.value.legacy != db.value.current
    requires db.value.folder + [db.value.legacy] !in {MarkerPath, ["backups"], backup}
    ensures db.value.folder + [db.value.legacy] !in destination
  {
    var folder, legacy, current := db.value.folder, db.value.folder + [db.value.legacy], db.value.folder + [db.value.current];
    assert Goal(source, legacy, db, true) == current;
    Siblings(folder, db.value.legacy, db.value.current, backup);
    forall p | p in source && Reached(p, db) ensures legacy != Goal(source, p, db, true) {
      assert legacy[|legacy| - 1] != current[|current| - 1];
    }
    assert !InMainCopy(source, legacy, db) && !InBackup(source, legacy, db, backup);
  }

  lemma Siblings(folder: Path, a: string, b: string, top: Path)
    requires !(top <= folder + [b]) && top != folder + [a]
    ensures !(top <= folder + [a])
  {
    if |top| <= |folder| {
      assert (folder + [a])[..|top|] == folder[..|top|] == (folder + [b])[..|top|];
    } else if |top| == |folder| + 1 {
      assert (folder + [a])[..|top|] == folder + [a];
    }
  }

  lemma OthersAreMigrated(source: Tree, destination: Tree, db: Option<Database>, backup: Path, p: Path)
    requires CompleteWith(source, destination, db, backup) && p in source && Reached(p, db) && !IsLegacyDatabase(p, source, db)
    ensures p != MarkerPath ==> p in destination && destination[p] == source[p]
    ensures backup + p in destination && destination[backup + p] == source[p]
  {
    assert Goal(source, p, db, true) == p && CopyOf(source, p, db) == source[p];
  }

  lemma NothingElseIsMigrated(source: Tree, destination: Tree, db: Option<Database>, backup: Path, q: Path)
    requires CompleteWith(source, destination, db, backup) && q in destination && q !in {MarkerPath, ["backups"]}
    ensures || (q in source && Reached(q, db) && !IsLegacyDatabase(q, source, db))
            || (MovesDatabase(source, db) && q == db.value.folder + [db.value.current])
            || (backup <= q && q[|backup|..] in source && Reached(q[|backup|..], db))
  {
    if InMainCopy(source, q, db) {
      var p :| p in source && Reached(p, db) && q == Goal(source, p, db, true);
    }
  }

  lemma CompleteIsMigrated(source: Tree, destination: Tree, db: Option<Database>, backup: Path)
    requires CompleteWith(source, destination, db, backup) && !Ambiguous(source, db)
    ensures Migrated(source, destination, db, backup)
  {
    if MovesDatabase(source, db) {
      DatabaseIsMigrated(source, destination, db, backup);
      var legacy := db.value.folder + [db.value.legacy];
      if db.value.legacy != db.value.current && legacy !in {MarkerPath, ["backups"], backup} {
        LegacyNameIsFree(source, destination, db, backup);
      }
    }
    forall p | p in source && Reached(p, db) && !IsLegacyDatabase(p, source, db)
      ensures (p != MarkerPath ==> p in destination && destination[p] == source[p])
              && backup + p in destination && destination[backup + p] == source[p]
    {
      OthersAreMigrated(source, destination, db, backup, p);
    }
    forall q | q in destination && q !in {MarkerPath, ["backups"]}
      ensures || (q in source && Reached(q, db) && !IsLegacyDatabase(q, source, db))
              || (MovesDatabase(source, db) && q == db.value.folder + [db.value.current])
              || (backup <= q && q[|backup|..] in source && Reached(q[|backup|..], db))
    {
      NothingElseIsMigrated(source, destination, db, backup, q);
    }
  }

  /** What may be seen on the disk at any moment of a migration. */
  ghost predicate Atomic(source: Tree, destination: Tree, db: Option<Database>, seen: (Tree, Tree)) {
    && seen.0 == source
    && ((seen.1.Keys <= destination.Keys && !HasFiles(seen.1)) || Complete(source, seen.1, db))
  }

  /** What no rerun can help: a legacy file goes where the backups are to be, or a legacy
      directory where the marker is to be. */
  ghost predicate Blocked(source: Tree, db: Option<Database>) {
    || (exists p :: IsFile(source, p) && Reached(p, db) && Goal(source, p, db, true) == ["backups"])
    || (IsDirectory(source, MarkerPath) && Reached(MarkerPath, db))
  }

  /** So: a file called backups at the top, unless it is the database and moves away; the
      database, if it is to be called that; or a directory with the marker's name. */
  lemma BlockedExactlyWhen(source: Tree, db: Option<Database>)
    ensures Blocked(source, db) <==>
              || (IsFile(source, ["backups"]) && Reached(["backups"], db) && !IsLegacyDatabase(["backups"], source, db))
              || (MovesDatabase(source, db) && db.value.folder + [db.value.current] == ["backups"])
              || (IsDirectory(source, [".nivelle-0.4-migration.json"]) && Reached([".nivelle-0.4-migration.json"], db))
  {
    if IsFile(source, ["backups"]) && Reached(["backups"], db) && !IsLegacyDatabase(["backups"], source, db) {
      assert Goal(source, ["backups"], db, true) == ["backups"];
    }
    if MovesDatabase(source, db) && db.value.folder + [db.value.current] == ["backups"] {
      assert Goal(source, db.value.folder + [db.value.legacy], db, true) == ["backups"];
    }
  }

  /** The three sidecars of the database are such, in any case; the database is not. */
  lemma SidecarsAre(db: Database, name: string)
    requires Fold(name) == Fold(db.legacy)
    ensures IsSidecar(db.folder + [name + "-journal"], Some(db))
    ensures IsSidecar(db.folder + [name + "-shm"], Some(db))
    ensures IsSidecar(db.folder + [name + "-wal"], Some(db))
    ensures !IsSidecar(db.folder + [name], Some(db))
  {
    forall suffix: string ensures Parent(db.folder + [name + suffix]) == db.folder && Fold(name + suffix) == Fold(name) + Fold(suffix) {
    }
    assert Fold("-journal") == "-journal" && Fold("-shm") == "-shm" && Fold("-wal") == "-wal";
    assert Parent(db.folder + [name]) == db.folder;
    assert |Fold(name)| < |Fold(db.legacy) + "-journal"| && |Fold(name)| < |Fold(db.legacy) + "-shm"|
        && |Fold(name)| < |Fold(db.legacy) + "-wal"|;
  }

  /** No file stands where a directory of t is to be made. */
  ghost predicate Clear(t: Tree, base: Path, staging: Tree) {
    forall q | IsDirectory(t, q) :: !IsFile(staging, base + q)
  }

  lemma ClearStays(t: Tree, chosen: set<Path>, base: Path, db: Option<Database>, rename: bool, before: Tree, after: Tree)
    requires !Ambiguous(t, db) && Overlaid(t, chosen, base, db, rename, before, after) && Clear(t, base, before)
    ensures Clear(t, base, after)
  {
    forall q | IsDirectory(t, q) ensures !IsFile(after, base + q) {
      if base + q in after {
        if p :| p in chosen && base + q == base + Goal(t, p, db, rename) {
          assert (base + q)[|base|..] == q && (base + Goal(t, p, db, rename))[|base|..] == Goal(t, p, db, rename);
          assert Goal(t, q, db, rename) == q;
          GoalIsInjective(t, p, q, db, rename);
        } else {
          assert after[base + q] == before[base + q];
        }
      }
    }
  }

  /** Wherever a migration was cut short, a rerun finds work to do or the work done. */
  lemma RerunNeverConflicts(source: Tree, destination: Tree, db: Option<Database>, seen: (Tree, Tree))
    requires Inspect(source, destination, db) == Proceed
    requires Atomic(source, destination, db, seen)
    ensures Inspect(seen.0, seen.1, db) in {Proceed} || Inspect(seen.0, seen.1, db).Already?
    ensures Inspect(seen.0, seen.1, db).Already? <==> Complete(source, seen.1, db)
  {
    if MarkerPath in seen.1 {
      assert Complete(source, seen.1, db);
    }
  }

  /** A source entry is in the backup exactly when neither it nor a directory above
      it is named like a sidecar of the database: a directory of such a name takes
      everything below it out of the migration. */
  lemma BackedUpExactlyWhenReached(source: Tree, destination: Tree, db: Option<Database>, backup: Path, p: Path)
    requires CompleteWith(source, destination, db, backup) && p in source
    ensures backup + p in destination <==> Reached(p, db)
  {
    var q := backup + p;
    if q in destination {
      assert q != MarkerPath && q != ["backups"] by { assert |q| >= 2; }
      assert backup <= q && q[2..] == p;
      assert !InMainCopy(source, q, db);
    }
  }

  /** For instance. */
  lemma SidecarDirectoryIsLost()
    ensures var db := Some(Database(["database"], "nozomi.db", "nivelle.db"));
            !Reached(["database", "nozomi.db-wal", "notes.txt"], db) && !IsSidecar(["database", "nozomi.db-wal", "notes.txt"], db)
  {
    var db := Some(Database(["database"], "nozomi.db", "nivelle.db"));
    var folder := ["database", "nozomi.db-wal"];
    assert Parent(["database", "nozomi.db-wal", "notes.txt"]) == folder;
    assert Parent(folder) == ["database"];
    assert Fold("nozomi.db-wal") == Fold("nozomi.db") + "-wal";
    assert IsSidecar(folder, db);
  }

  lemma OverlayTop(t: Tree, top: Path, base: Path, db: Option<Database>, rename: bool, before: Tree)
    requires IsDirectory(t, top)
    ensures Overlaid(t, {top} + Below(t, {}, db), base, db, rename, before, before[base + top := Directory])
  {
    assert {top} + Below(t, {}, db) == {top};
  }

  lemma OverlayOneMore(t: Tree, top: Path, done: set<Path>, p: Path, base: Path, db: Option<Database>, rename: bool,
                       before: Tree, middle: Tree, after: Tree)
    requires !Ambiguous(t, db) && top in t && p in t
    requires Overlaid(t, {top} + Below(t, done, db), base, db, rename, before, middle)
    requires Overlaid(t, ReachedUnder(t, p, db), base, db, rename, middle, after)
    ensures Overlaid(t, {top} + Below(t, done + {p}, db), base, db, rename, before, after)
  {
    OverlayBoth(t, {top} + Below(t, done, db), ReachedUnder(t, p, db), base, db, rename, before, middle, after);
    BelowAdds(t, done, p, db);
    assert {top} + Below(t, done, db) + ReachedUnder(t, p, db) == {top} + Below(t, done + {p}, db);
  }

  /** How far a directory has been copied: nothing is in the way of what is left. */
  ghost predicate CopiedSoFar(t: Tree, top: Path, done: set<Path>, base: Path, db: Option<Database>, rename: bool,
                              before: Tree, after: Tree) {
    && Overlaid(t, {top} + Below(t, done, db), base, db, rename, before, after)
    && (Clear(t, base, before) ==> Clear(t, base, after))
  }

  lemma CopyBegins(t: Tree, top: Path, base: Path, db: Option<Database>, rename: bool, before: Tree)
    requires IsDirectory(t, top)
    ensures CopiedSoFar(t, top, {}, base, db, rename, before, before[base + top := Directory])
  {
    OverlayTop(t, top, base, db, rename, before);
  }

  lemma CopyGoesOn(t: Tree, top: Path, done: set<Path>, p: Path, base: Path, db: Option<Database>, rename: bool,
                   before: Tree, middle: Tree, after: Tree)
    requires !Ambiguous(t, db) && top in t && p in t
    requires CopiedSoFar(t, top, done, base, db, rename, before, middle)
    requires Overlaid(t, ReachedUnder(t, p, db), base, db, rename, middle, after)
    ensures CopiedSoFar(t, top, done + {p}, base, db, rename, before, after)
  {
    OverlayOneMore(t, top, done, p, base, db, rename, before, middle, after);
    if Clear(t, base, middle) {
      ClearStays(t, ReachedUnder(t, p, db), base, db, rename, middle, after);
    }
  }

  lemma CopyEnds(t: Tree, top: Path, base: Path, db: Option<Database>, rename: bool, before: Tree, after: Tree)
    requires WellFormed(t) && IsDirectory(t, top) && Reached(top, db)
    requires CopiedSoFar(t, top, Children(t, top), base, db, rename, before, after)
    ensures Overlaid(t, ReachedUnder(t, top, db), base, db, rename, before, after)
  {
    ReachedUnderSplits(t, top, db);
  }

  // ----------------------------------------------------------- descending a tree

  lemma {:induction false} PrefixIsReached(t: Tree, p: Path, n: nat, db: Option<Database>)
    requires WellFormed(t) && p in t && Reached(p, db) && n <= |p|
    ensures p[..n] in t && Reached(p[..n], db)
    ensures n < |p| ==> IsDirectory(t, p[..n])
    decreases |p|
  {
    if n < |p| {
      PrefixIsReached(t, Parent(p), n, db);
      assert Parent(p)[..n] == p[..n];
      if n == |p| - 1 { assert p[..n] == Parent(p); }
    } else {
      assert p[..n] == p;
    }
  }

  ghost function Children(t: Tree, top: Path): set<Path> {
    set p | p in t && p != [] && Parent(p) == top
  }

  ghost function Below(t: Tree, tops: set<Path>, db: Option<Database>): set<Path> {
    set p | p in t && Reached(p, db) && exists c :: c in tops && c <= p
  }

  /** What is reached under a directory: itself, and what is reached under its entries. */
  lemma ReachedUnderSplits(t: Tree, top: Path, db: Option<Database>)
    requires WellFormed(t) && IsDirectory(t, top) && Reached(top, db)
    ensures ReachedUnder(t, top, db) == {top} + Below(t, Children(t, top), db)
  {
    forall p | p in ReachedUnder(t, top, db) && p != top ensures p in Below(t, Children(t, top), db) {
      var c := p[..|top| + 1];
      PrefixIsReached(t, p, |top| + 1, db);
      assert Parent(c) == top;
      assert c in Children(t, top) && c <= p;
    }
    forall p, c | p in t && Reached(p, db) && c in Children(t, top) && c <= p ensures p in ReachedUnder(t, top, db) {
      assert top <= c;
    }
  }

  lemma BelowAdds(t: Tree, tops: set<Path>, c: Path, db: Option<Database>)
    requires c in t
    ensures Below(t, tops + {c}, db) == Below(t, tops, db) + ReachedUnder(t, c, db)
  {
  }

  /** Nothing is reached under a sidecar, and only itself under a file. */
  lemma {:induction false} LeafBelow(t: Tree, c: Path, db: Option<Database>)
    requires WellFormed(t) && c in t && c != []
    ensures IsSidecar(c, db) ==> ReachedUnder(t, c, db) == {}
    ensures IsFile(t, c) && Reached(c, db) ==> ReachedUnder(t, c, db) == {c}
  {
    forall p | p in ReachedUnder(t, c, db) ensures !IsSidecar(c, db) && (IsFile(t, c) ==> p == c) {
      PrefixIsReached(t, p, |c|, db);
      assert p[..|c|] == c;
    }
  }

  // ------------------------------------------------------------------ the disk

  datatype Outcome = Done(backup: Path) | WasDone(backup: Path) | NothingToDo | Conflicting | Failed

  /** The two roots and the staging directory, changed step by step; the log holds
      what the source and the destination look like after every change. */
  class Disk {
    var source: Tree
    var destination: Tree
    var staging: Tree
    ghost var log: seq<(Tree, Tree)>
    const faults: nat -> bool              // which of the disk's operations fail
    var steps: nat                         // how many there have been

    constructor (source: Tree, destination: Tree, faults: nat -> bool)
      ensures this.source == source && this.destination == destination && this.faults == faults
    {
      this.source, this.destination, this.faults := source, destination, faults;
      staging, log, steps := map[], [], 0;
    }

    /** None of these operations fails. */
    ghost predicate Clean(from: nat, to: nat) {
      forall k | from <= k < to :: !faults(k)
    }

    /** The next operation of the disk. */
    method Attempt() returns (ok: bool)
      modifies this`steps
      ensures steps == old(steps) + 1 && (ok <==> Clean(old(steps), steps))
    {
      ok := !faults(steps);
      steps := steps + 1;
    }

    ghost function Seen(): (Tree, Tree)
      reads this
    {
      (source, destination)
    }

    /** Only the staging directory changed, however often. */
    twostate predicate OnlyStaging()
      reads this
    {
      && source == old(source) && destination == old(destination)
      && old(log) <= log
      && forall k | |old(log)| <= k < |log| :: log[k] == Seen()
    }

    method Store(p: Path, node: Node)
      modifies this`staging, this`log
      ensures OnlyStaging() && staging == old(staging)[p := node]
    {
      staging := staging[p := node];
      log := log + [Seen()];
    }

    /** mkdir(exist_ok=True) */
    method MakeDirectory(p: Path) returns (ok: bool)
      modifies this`staging, this`log, this`steps
      ensures OnlyStaging() && steps >= old(steps)
      ensures ok <==> Clean(old(steps), steps) && !IsFile(old(staging), p)
      ensures staging == if ok then old(staging)[p := Directory] else old(staging)
    {
      ok := Attempt();
      if !ok || IsFile(staging, p) {
        return false;
      }
      Store(p, Directory);
      return true;
    }

    /** A verified copy: the file is incomplete first, and may stay so. */
    method CopyFile(p: Path, goal: Path, db: Option<Database>) returns (ok: bool)
      requires p in source
      modifies this`staging, this`log, this`steps
      ensures OnlyStaging() && steps >= old(steps)
      ensures ok <==> Clean(old(steps), steps)
      ensures ok ==> staging == old(staging)[goal := CopyOf(source, p, db)]
    {
      Store(goal, File(Partial));
      ok := Attempt();
      if ok {
        Store(goal, CopyOf(source, p, db));
      }
    }

    /** copy_directory: the entries in any order. */
    method CopyDirectory(top: Path, base: Path, db: Option<Database>, rename: bool, ghost depth: nat) returns (ok: bool)
      requires WellFormed(source) && IsDirectory(source, top) && Reached(top, db) && !Ambiguous(source, db)
      requires forall p | p in source :: |p| <= depth
      modifies this`staging, this`log, this`steps
      ensures OnlyStaging() && steps >= old(steps)
      ensures ok ==> Overlaid(source, ReachedUnder(source, top, db), base, db, rename, old(staging), staging)
      ensures ok ==> Clean(old(steps), steps)
      ensures Clear(source, base, old(staging)) && Clean(old(steps), steps) ==> ok
      decreases depth - |top|, 1
    {
      ok := MakeDirectory(base + top);
      if !ok {
        return;
      }
      ghost var before, t := old(staging), source;
      CopyBegins(t, top, base, db, rename, before);
      var todo := Entries(top);
      ghost var done: set<Path> := {};
      while todo != {}
        invariant source == t && OnlyStaging()
        invariant todo + done == Children(t, top) && todo !! done
        invariant CopiedSoFar(t, top, done, base, db, rename, before, staging)
        invariant steps >= old(steps) && Clean(old(steps), steps)
      {
        var p :| p in todo;
        todo := todo - {p};
        ghost var middle := staging;
        ok := CopyEntry(p, base, db, rename, depth);
        if !ok {
          return;
        }
        CopyGoesOn(t, top, done, p, base, db, rename, before, middle, staging);
        done := done + {p};
      }
      CopyEnds(t, top, base, db, rename, before, staging);
      return true;
    }

    /** One entry: a sidecar is skipped, a directory entered, a file copied; anything
        may fail. */
    method CopyEntry(p: Path, base: Path, db: Option<Database>, rename: bool, ghost depth: nat) returns (ok: bool)
      requires WellFormed(source) && p in source && p != [] && Reached(Parent(p), db) && !Ambiguous(source, db)
      requires forall q | q in source :: |q| <= depth
      modifies this`staging, this`log, this`steps
      ensures OnlyStaging() && steps >= old(steps)
      ensures ok ==> Overlaid(source, ReachedUnder(source, p, db), base, db, rename, old(staging), staging)
      ensures ok ==> Clean(old(steps), steps)
      ensures Clear(source, base, old(staging)) && Clean(old(steps), steps) ==> ok
      decreases depth - |p|, 2
    {
      LeafBelow(source, p, db);
      ok := Attempt();
      if !ok {
        return;
      }
      if IsSidecar(p, db) {
        OverlayNothing(source, base, db, rename, staging);
        return true;
      }
      if source[p].Directory? {
        ok := CopyDirectory(p, base, db, rename, depth);
      } else {
        ok := CopyFile(p, base + Goal(source, p, db, rename), db);
      }
    }

    method Entries(top: Path) returns (entries: set<Path>)
      ensures entries == Children(source, top)
    {
      entries := set p | p in source && p != [] && Parent(p) == top;
    }

    /** _next_backup_path: the first candidate that does not exist yet. */
    method NextBackupPath(stamp: string) returns (backup: Path)
      ensures |backup| == 2 && backup[0] == "backups" && backup !in staging
      ensures "pre_nivelle_0.4.0_" + stamp <= backup[1]
    {
      var suffix := 0;
      ghost var tried: set<Path> := {};
      while BackupPath(stamp, suffix) in staging
        invariant forall q | q in tried :: q in staging && exists k :: 0 <= k < suffix && q == BackupPath(stamp, k)
        decreases staging.Keys - tried
      {
        ghost var q := BackupPath(stamp, suffix);
        assert q !in tried by { CandidatesDiffer(stamp, suffix); }
        tried := tried + {q};
        suffix := suffix + 1;
      }
      backup := BackupPath(stamp, suffix);
    }

    /** os.replace over the marker's path: not possible over a directory. */
    method WriteMarker(backup: Path) returns (ok: bool)
      modifies this`staging, this`log, this`steps
      ensures OnlyStaging() && steps >= old(steps)
      ensures ok <==> Clean(old(steps), steps) && !IsDirectory(old(staging), MarkerPath)
      ensures ok ==> staging == old(staging)[MarkerPath := File(Completed(backup))]
    {
      ok := Attempt();
      if !ok || IsDirectory(staging, MarkerPath) {
        return false;
      }
      Store(MarkerPath, File(Completed(backup)));
      return true;
    }

    /** _remove_verified_empty_tree: deepest directories first, then the root. */
    method RemoveEmptyTree() returns (ok: bool)
      requires !HasFiles(destination)
      modifies this`destination, this`log, this`steps
      ensures old(log) <= log && steps >= old(steps) && (ok <==> Clean(old(steps), steps))
      ensures ok ==> destination == map[]
      ensures destination.Keys <= old(destination.Keys) && !HasFiles(destination)
      ensures forall k | |old(log)| <= k < |log| ::
                log[k].0 == source && log[k].1.Keys <= old(destination.Keys) && !HasFiles(log[k].1)
    {
      while destination != map[]
        invariant !HasFiles(destination) && destination.Keys <= old(destination.Keys) && old(log) <= log
        invariant steps >= old(steps) && Clean(old(steps), steps)
        invariant forall k | |old(log)| <= k < |log| ::
                    log[k].0 == source && log[k].1.Keys <= old(destination.Keys) && !HasFiles(log[k].1)
        decreases |destination|
      {
        ok := Attempt();
        if !ok {
          return;
        }
        var p := Deepest();
        assert forall q :: IsFile(destination - {p}, q) ==> IsFile(destination, q);
        destination := destination - {p};
        log := log + [Seen()];
      }
      return true;
    }

    /** migrate_local_data: inspect, stage the copy, the backup and the marker, clear an
        empty destination, and rename. It may be cut short at any point; it succeeds
        exactly when the disk does not fail and nothing blocks it. */
    method Migrate(db: Option<Database>, stamp: string) returns (r: Outcome)
      requires source == map[] || WellFormed(source)
      modifies this
      ensures source == old(source) && old(log) <= log && steps >= old(steps)
      ensures forall k | |old(log)| <= k < |log| && old(Inspect(source, destination, db)) == Proceed ::
                Atomic(source, old(destination), db, log[k])
      ensures match old(Inspect(source, destination, db))
              case Already(backup) => r == WasDone(backup)
              case NotNeeded => r == NothingToDo
              case Conflict => r == Conflicting
              case Proceed =>
                if Clean(old(steps), steps) && !Blocked(source, db) then r.Done? else r == Failed
      ensures old(Inspect(source, destination, db)) != Proceed ==> destination == old(destination) && log == old(log)
      ensures r.Done? ==> CompleteWith(source, destination, db, r.backup) && Migrated(source, destination, db, r.backup)
      ensures r.Failed? ==> destination.Keys <= old(destination.Keys) && !HasFiles(destination)
    {
      if MarkerPath in destination {
        match destination[MarkerPath] {
          case File(Completed(backup)) => return WasDone(backup);
          case _ => return Conflicting;
        }
      }
      var sourceHasState := AnyFile(source);
      var destinationHasState := AnyFile(destination);
      if !sourceHasState {
        return NothingToDo;
      }
      if destinationHasState || Ambiguous(source, db) {
        return Conflicting;
      }
      r := Promote(db, stamp);
      if r.Done? {
        CompleteIsMigrated(source, destination, db, r.backup);
      }
    }

    /** Stage everything, clear the destination, and rename. */
    method Promote(db: Option<Database>, stamp: string) returns (r: Outcome)
      requires WellFormed(source) && !Ambiguous(source, db) && !HasFiles(destination)
      modifies this
      ensures source == old(source) && old(log) <= log && steps >= old(steps)
      ensures forall k | |old(log)| <= k < |log| :: Atomic(source, old(destination), db, log[k])
      ensures if Clean(old(steps), steps) && !Blocked(source, db) then r.Done? else r == Failed
      ensures r.Done? ==> CompleteWith(source, destination, db, r.backup)
      ensures r.Failed? ==> destination.Keys <= old(destination.Keys) && !HasFiles(destination)
    {
      var staged, backup := Stage(db, stamp);
      if !staged {
        return Failed;
      }
      var promoted := Install(db, backup);
      return if promoted then Done(backup) else Failed;
    }

    /** Clear the destination and rename the staging directory over it. */
    method Install(db: Option<Database>, ghost backup: Path) returns (ok: bool)
      requires CompleteWith(source, staging, db, backup) && !HasFiles(destination)
      modifies this`destination, this`log, this`steps
      ensures old(log) <= log && steps >= old(steps)
      ensures forall k | |old(log)| <= k < |log| :: Atomic(source, old(destination), db, log[k])
      ensures ok <==> Clean(old(steps), steps)
      ensures ok ==> destination == staging
      ensures !ok ==> destination.Keys <= old(destination.Keys) && !HasFiles(destination)
    {
      ok := RemoveEmptyTree();
      if !ok {
        return;
      }
      ok := Attempt();
      if ok {
        destination := staging;
        log := log + [Seen()];
      }
    }

    /** The same again, after a run from `before` was cut short anywhere: it finds the work
        done, or does it unless the disk fails or the migration is blocked; and whatever
        it leaves can be taken up in the same way. */
    method MigrateAgain(ghost before: Tree, db: Option<Database>, stamp: string) returns (r: Outcome)
      requires WellFormed(source) && Inspect(source, before, db) == Proceed && Atomic(source, before, db, Seen())
      modifies this
      ensures source == old(source) && old(log) <= log && steps >= old(steps)
      ensures Atomic(source, before, db, Seen())
      ensures forall k | |old(log)| <= k < |log| :: Atomic(source, before, db, log[k])
      ensures if old(Complete(source, destination, db)) then r.WasDone? && destination == old(destination)
              else if Clean(old(steps), steps) && !Blocked(source, db) then r.Done? else r == Failed
      ensures r.Done? || r.WasDone? ==> CompleteWith(source, destination, db, r.backup) && Migrated(source, destination, db, r.backup)
    {
      RerunNeverConflicts(source, before, db, Seen());
      ghost var start := destination;
      r := Migrate(db, stamp);
      if r.WasDone? {
        CompleteIsMigrated(source, destination, db, r.backup);
      }
      forall k | |old(log)| <= k < |log| ensures Atomic(source, before, db, log[k]) {
        assert Inspect(source, start, db) == Proceed ==> Atomic(source, start, db, log[k]);
      }
    }

    method AnyFile(t: Tree) returns (found: bool)
      ensures found <==> HasFiles(t)
    {
      var files := set p | p in t && IsFile(t, p);
      found := files != {};
      if found {
        var p :| p in files;
      } else {
        forall p ensures !IsFile(t, p) { assert p !in files; }
      }
    }

    /** Everything up to the promotion happens in the staging directory. */
    method Stage(db: Option<Database>, stamp: string) returns (ok: bool, backup: Path)
      requires WellFormed(source) && !Ambiguous(source, db)
      modifies this`staging, this`log, this`steps
      ensures OnlyStaging() && steps >= old(steps)
      ensures ok ==> CompleteWith(source, staging, db, backup)
      ensures ok <==> Clean(old(steps), steps) && !Blocked(source, db)
    {
      ghost var depth := Depth(source);
      backup := [];
      staging := map[[] := Directory];
      ok := CopyDirectory([], [], db, true, depth);
      if !ok {
        return;
      }
      BlockedInStaging(source, db, staging);
      ok, backup := StageBackup(db, stamp, depth);
    }

    /** The backup and the marker, after the main copy. */
    method StageBackup(db: Option<Database>, stamp: string, ghost depth: nat) returns (ok: bool, backup: Path)
      requires WellFormed(source) && !Ambiguous(source, db)
      requires forall p | p in source :: |p| <= depth
      requires Overlaid(source, ReachedUnder(source, [], db), [], db, true, map[[] := Directory], staging)
      modifies this`staging, this`log, this`steps
      ensures OnlyStaging() && steps >= old(steps)
      ensures ok ==> CompleteWith(source, staging, db, backup)
      ensures ok <==> Clean(old(steps), steps) && !IsFile(old(staging), ["backups"]) && !IsDirectory(old(staging), MarkerPath)
    {
      ghost var s1 := staging;
      backup := NextBackupPath(stamp);
      ok := MakeDirectory(["backups"]);
      if !ok {
        return;
      }
      BackupIsClear(source, db, s1, backup);
      ok := CopyDirectory([], backup, db, false, depth);
      if !ok {
        return;
      }
      ghost var s3 := staging;
      MarkerIsKept(source, db, s1, s3, backup);
      ok := WriteMarker(backup);
      if ok {
        Assembled(source, db, s1, s3, backup);
      }
    }

    method Deepest() returns (p: Path)
      requires destination != map[]
      ensures p in destination && forall q | q in destination :: |q| <= |p|
    {
      var todo := destination.Keys;
      p :| p in todo;
      todo := todo - {p};
      while todo != {}
        invariant todo <= destination.Keys && p in destination
        invariant forall q | q in destination && q !in todo :: |q| <= |p|
      {
        var q :| q in todo;
        if |q| > |p| {
          p := q;
        }
        todo := todo - {q};
      }
    }
  }

  // ------------------------------------------------------------ putting it together

  /** The length of the longest path. */
  ghost function Depth(t: Tree): (d: nat)
    ensures forall p | p in t :: |p| <= d
    decreases |t|
  {
    if t == map[] then 0
    else
      var p :| p in t;
      var d := Depth(t - {p});
      assert forall q | q in t :: q == p || q in t - {p};
      if |p| < d then d else |p|
  }

  lemma OverlaidHas(t: Tree, db: Option<Database>, before: Tree, s1: Tree, p: Path)
    requires Overlaid(t, ReachedUnder(t, [], db), [], db, true, before, s1) && p in t && Reached(p, db)
    ensures Goal(t, p, db, true) in s1 && s1[Goal(t, p, db, true)] == CopyOf(t, p, db)
  {
    var goal := Goal(t, p, db, true);
    assert p in ReachedUnder(t, [], db) && [] + goal == goal;
  }

  /** The main copy shows whether a migration is blocked. */
  lemma BlockedInStaging(t: Tree, db: Option<Database>, s1: Tree)
    requires Overlaid(t, ReachedUnder(t, [], db), [], db, true, map[[] := Directory], s1)
    ensures Blocked(t, db) <==> IsFile(s1, ["backups"]) || IsDirectory(s1, MarkerPath)
  {
    if IsFile(s1, ["backups"]) {
      var p := Origin(t, db, s1, ["backups"]);
    }
    if IsDirectory(s1, MarkerPath) {
      var p := Origin(t, db, s1, MarkerPath);
    }
    forall p | IsFile(t, p) && Reached(p, db) && Goal(t, p, db, true) == ["backups"] ensures IsFile(s1, ["backups"]) {
      OverlaidHas(t, db, map[[] := Directory], s1, p);
    }
    if IsDirectory(t, MarkerPath) && Reached(MarkerPath, db) {
      OverlaidHas(t, db, map[[] := Directory], s1, MarkerPath);
    }
  }

  /** Where an entry of the main copy comes from. */
  lemma Origin(t: Tree, db: Option<Database>, s1: Tree, q: Path) returns (p: Path)
    requires Overlaid(t, ReachedUnder(t, [], db), [], db, true, map[[] := Directory], s1) && q in s1 && q != []
    ensures p in t && Reached(p, db) && Goal(t, p, db, true) == q && s1[q] == CopyOf(t, p, db)
  {
    assert q !in map[[] := Directory];
    p :| p in ReachedUnder(t, [], db) && q == [] + Goal(t, p, db, true);
    OverlaidHas(t, db, map[[] := Directory], s1, p);
    assert [] + Goal(t, p, db, true) == Goal(t, p, db, true);
  }

  /** Nothing stands below a backup path that does not exist. */
  lemma BackupIsClear(t: Tree, db: Option<Database>, s1: Tree, backup: Path)
    requires WellFormed(t) && Overlaid(t, ReachedUnder(t, [], db), [], db, true, map[[] := Directory], s1)
    requires |backup| == 2 && backup !in s1
    ensures Clear(t, backup, s1[["backups"] := Directory])
  {
    OverlaidIsCopied(t, db, map[[] := Directory], s1);
    forall q | IsDirectory(t, q) ensures !IsFile(s1[["backups"] := Directory], backup + q) {
      assert |backup + q| >= 2;
      if backup + q in s1 {
        var p := Origin(t, db, s1, backup + q);
        assert backup <= Goal(t, p, db, true);
        BackupIsFree(t, db, s1, backup, p);
      }
    }
  }

  /** The backup leaves the marker's place alone. */
  lemma MarkerIsKept(t: Tree, db: Option<Database>, s1: Tree, s3: Tree, backup: Path)
    requires |backup| == 2 && Overlaid(t, ReachedUnder(t, [], db), backup, db, false, s1[["backups"] := Directory], s3)
    ensures IsDirectory(s3, MarkerPath) <==> IsDirectory(s1, MarkerPath)
  {
    forall r | r in ReachedUnder(t, [], db) ensures MarkerPath != backup + Goal(t, r, db, false) {
      assert |backup + Goal(t, r, db, false)| >= 2;
    }
    assert MarkerPath != ["backups"];
  }

  ghost predicate Copied(t: Tree, db: Option<Database>, s1: Tree) {
    forall p | p in t && Reached(p, db) :: Goal(t, p, db, true) in s1
  }

  lemma OverlaidIsCopied(t: Tree, db: Option<Database>, before: Tree, s1: Tree)
    requires Overlaid(t, ReachedUnder(t, [], db), [], db, true, before, s1)
    ensures Copied(t, db, s1)
  {
    forall p | p in t && Reached(p, db) ensures Goal(t, p, db, true) in s1 {
      OverlaidHas(t, db, before, s1, p);
    }
  }

  /** Whatever the main copy has put somewhere, it has put its directories above. */
  lemma GoalPrefixIsCopied(t: Tree, db: Option<Database>, s1: Tree, p: Path, n: nat)
    requires WellFormed(t) && Copied(t, db, s1)
    requires p in t && Reached(p, db) && n <= |Goal(t, p, db, true)|
    ensures Goal(t, p, db, true)[..n] in s1
  {
    var goal := Goal(t, p, db, true);
    if n < |p| {
      PrefixIsReached(t, p, n, db);
      assert goal[..n] == p[..n];
    } else {
      assert goal[..n] == goal;
    }
  }

  /** Where the backup is to go, the main copy has put nothing. */
  lemma BackupIsFree(t: Tree, db: Option<Database>, s1: Tree, backup: Path, p: Path)
    requires WellFormed(t) && Copied(t, db, s1)
    requires backup !in s1 && p in t && Reached(p, db)
    ensures !(backup <= Goal(t, p, db, true))
  {
    var goal := Goal(t, p, db, true);
    if |backup| <= |goal| {
      GoalPrefixIsCopied(t, db, s1, p, |backup|);
      assert goal[..|backup|] != backup;
    }
  }

  /** The main copy, then the backup over it. */
  ghost predicate BothCopied(t: Tree, db: Option<Database>, s1: Tree, s3: Tree, backup: Path) {
    && |backup| == 2 && backup[0] == "backups" && backup !in s1 && !IsFile(s1, ["backups"])
    && Overlaid(t, ReachedUnder(t, [], db), [], db, true, map[[] := Directory], s1)
    && Overlaid(t, ReachedUnder(t, [], db), backup, db, false, s1[["backups"] := Directory], s3)
  }

  lemma AssembledMain(t: Tree, db: Option<Database>, s1: Tree, s3: Tree, backup: Path)
    requires WellFormed(t) && BothCopied(t, db, s1, s3, backup)
    ensures forall p | p in t && Reached(p, db) ::
              && !(backup <= Goal(t, p, db, true))
              && Goal(t, p, db, true) in s3 && s3[Goal(t, p, db, true)] == CopyOf(t, p, db)
  {
    OverlaidIsCopied(t, db, map[[] := Directory], s1);
    forall p | p in t && Reached(p, db)
      ensures !(backup <= Goal(t, p, db, true))
      ensures Goal(t, p, db, true) in s3 && s3[Goal(t, p, db, true)] == CopyOf(t, p, db)
    {
      BackupIsFree(t, db, s1, backup, p);
      MainCopyStays(t, db, s1, s3, backup, p);
    }
  }

  lemma AssembledBackup(t: Tree, db: Option<Database>, s1: Tree, s3: Tree, backup: Path)
    requires BothCopied(t, db, s1, s3, backup)
    ensures forall p | p in t && Reached(p, db) :: backup + p in s3 && s3[backup + p] == CopyOf(t, p, db)
  {
    forall p | p in t && Reached(p, db) ensures backup + p in s3 && s3[backup + p] == CopyOf(t, p, db) {
      assert p in ReachedUnder(t, [], db) && Goal(t, p, db, false) == p;
    }
  }

  lemma AssembledOnly(t: Tree, db: Option<Database>, s1: Tree, s3: Tree, backup: Path)
    requires WellFormed(t) && BothCopied(t, db, s1, s3, backup)
    ensures forall q | q in s3 && q != ["backups"] :: InMainCopy(t, q, db) || InBackup(t, q, db, backup)
  {
    forall q | q in s3 && q != ["backups"] ensures InMainCopy(t, q, db) || InBackup(t, q, db, backup) {
      NothingElse(t, db, s1, s3, backup, q);
    }
  }

  /** The main copy, the backup and the marker together are the complete tree. */
  lemma Assembled(t: Tree, db: Option<Database>, s1: Tree, s3: Tree, backup: Path)
    requires WellFormed(t) && BothCopied(t, db, s1, s3, backup)
    ensures CompleteWith(t, s3[MarkerPath := File(Completed(backup))], db, backup)
  {
    AssembledMain(t, db, s1, s3, backup);
    AssembledBackup(t, db, s1, s3, backup);
    AssembledOnly(t, db, s1, s3, backup);
    forall p | p in t && Reached(p, db) ensures backup + p != MarkerPath {
      assert |backup + p| >= 2;
    }
  }

  lemma MainCopyStays(t: Tree, db: Option<Database>, s1: Tree, s3: Tree, backup: Path, p: Path)
    requires p in t && Reached(p, db) && !(backup <= Goal(t, p, db, true))
    requires Overlaid(t, ReachedUnder(t, [], db), [], db, true, map[[] := Directory], s1)
    requires !IsFile(s1, ["backups"])
    requires Overlaid(t, ReachedUnder(t, [], db), backup, db, false, s1[["backups"] := Directory], s3)
    ensures Goal(t, p, db, true) in s3 && s3[Goal(t, p, db, true)] == CopyOf(t, p, db)
  {
    var goal := Goal(t, p, db, true);
    assert p in ReachedUnder(t, [], db) && [] + goal == goal;
    assert s1[goal] == CopyOf(t, p, db);
    assert goal in s1[["backups"] := Directory];
    assert goal in s3;
    forall r | r in ReachedUnder(t, [], db) ensures goal != backup + Goal(t, r, db, false) {
    }
  }

  lemma NothingElse(t: Tree, db: Option<Database>, s1: Tree, s3: Tree, backup: Path, q: Path)
    requires WellFormed(t) && q in s3 && q != ["backups"]
    requires Overlaid(t, ReachedUnder(t, [], db), [], db, true, map[[] := Directory], s1)
    requires Overlaid(t, ReachedUnder(t, [], db), backup, db, false, s1[["backups"] := Directory], s3)
    ensures InMainCopy(t, q, db) || InBackup(t, q, db, backup)
  {
    if r :| r in ReachedUnder(t, [], db) && q == backup + Goal(t, r, db, false) {
      assert q == backup + r && q[|backup|..] == r;
    } else {
      assert q in s1;
      assert [] in ReachedUnder(t, [], db) && [] + Goal(t, [], db, true) == [];
      var r :| r in ReachedUnder(t, [], db) && q == [] + Goal(t, r, db, true);
      assert q == Goal(t, r, db, true);
    }
  }

  function BackupPath(stamp: string, suffix: nat): Path {
    ["backups", "pre_nivelle_0.4.0_" + stamp + (if suffix == 0 then "" else "_" + Decimal(suffix))]
  }

  function Decimal(n: nat): (s: string)
    ensures s != [] && Number(s) == n
  {
    var digit := [('0' as int + n % 10) as char];
    if n < 10 then digit
    else
      var s := Decimal(n / 10) + digit;
      assert s[..|s| - 1] == Decimal(n / 10);
      s
  }

  function Number(s: string): int {
    if s == [] then 0 else 10 * Number(s[..|s| - 1]) + (s[|s| - 1] as int - '0' as int)
  }

  lemma CandidatesDiffer(stamp: string, suffix: nat)
    ensures forall k | 0 <= k < suffix :: BackupPath(stamp, k) != BackupPath(stamp, suffix)
  {
    forall k | 0 <= k < suffix ensures BackupPath(stamp, k) != BackupPath(stamp, suffix) {
      var head := "pre_nivelle_0.4.0_" + stamp;
      var a, b := BackupPath(stamp, k)[1], BackupPath(stamp, suffix)[1];
      assert b[|head| + 1..] == Decimal(suffix);
      if k == 0 {
        assert |a| == |head| && |b| > |head|;
      } else {
        assert a[|head| + 1..] == Decimal(k);
      }
    }
  }
}
