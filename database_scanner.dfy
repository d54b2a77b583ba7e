/** The database scanner: regular files outside dependency and VCS directories, sorted into
    embedded database files, SQL scripts and ORM configs, plus the known database directories
    they live in. */
module DatabaseScanner {
  import opened Wrappers
  import opened Text
  import opened SeqUtil
  import opened Sorting
  import opened RepoFiles

  const Skipped := ["node_modules", "venv", ".venv", "__pycache__", ".git", "site-packages"]

  const BinaryExtensions: set<string> :=
    {".sqlite", ".sqlite3", ".db", ".db3", ".s3db", ".sl3", ".mdb", ".accdb", ".fdb", ".gdb", ".rdb", ".odb"}
  const ScriptExtensions: set<string> := {".sql", ".psql", ".mysql", ".pgsql", ".dump"}
  const ConfigFiles: set<string> :=
    {"alembic.ini", ".sequelizerc", "sequelize.rc", "ormconfig.json", "ormconfig.js", "ormconfig.ts",
     "ormconfig.yaml", "ormconfig.yml", "schema.prisma", "database.yml", "database.php",
     "hibernate.cfg.xml", "persistence.xml", "db.json"}
  const DbDirectories: set<string> := {"migrations", "migration", "seeds", "seeders", "fixtures"}

  /** A regular file the scan looks at. */
  predicate Scanned(root: seq<string>, e: FsEntry)
  {
    e.isFile && !Denied(Parts(root, e), Skipped)
  }

  predicate IsBinary(root: seq<string>, e: FsEntry)
  {
    Scanned(root, e) && Lower(Suffix(Name(root, e))) in BinaryExtensions
  }

  /** The checks after the binary one all look at a scanned file that is not a binary database. */
  predicate PastBinary(root: seq<string>, e: FsEntry)
  {
    Scanned(root, e) && Lower(Suffix(Name(root, e))) !in BinaryExtensions
  }

  predicate IsScript(root: seq<string>, e: FsEntry)
  {
    PastBinary(root, e) && Lower(Suffix(Name(root, e))) in ScriptExtensions
  }

  predicate IsConfig(root: seq<string>, e: FsEntry)
  {
    PastBinary(root, e) && Name(root, e) in ConfigFiles
  }

  predicate InDbDirectory(root: seq<string>, e: FsEntry)
  {
    PastBinary(root, e) && LastPart(ParentParts(root, e)) in DbDirectories
  }

  /** `str(path.parent)`. */
  function ParentString(root: seq<string>, e: FsEntry): string
  {
    Join(ParentParts(root, e), "/")
  }

  /** The parents of the files in database directories, in scan order, repeats kept. */
  function DirHits(root: seq<string>, es: seq<FsEntry>): seq<string>
  {
    Collect(es, e => InDbDirectory(root, e), e => ParentString(root, e))
  }

  function Binaries(repo: Repo): seq<string>
  {
    PathsWhere(repo.root, repo.entries, e => IsBinary(repo.root, e))
  }

  function Scripts(repo: Repo): seq<string>
  {
    PathsWhere(repo.root, repo.entries, e => IsScript(repo.root, e))
  }

  function Configs(repo: Repo): seq<string>
  {
    PathsWhere(repo.root, repo.entries, e => IsConfig(repo.root, e))
  }

  /** The dictionary `scan` returns, or None when all four collections are empty; the directory
      set is reported sorted. */
  function Report(binaries: seq<string>, scripts: seq<string>, configs: seq<string>, dirs: seq<string>): Option<Entry>
  {
    if binaries == [] && scripts == [] && configs == [] && dirs == [] then None
    else Some([("type", Str("infrastructure")), ("name", Str("database")),
               ("binary_files", ListBucket("files", binaries)),
               ("scripts", ListBucket("files", scripts)),
               ("configs", ListBucket("files", configs)),
               ("directories", ListBucket("paths", SetList(dirs)))])
  }

  /** `DatabaseScanner.scan`. */
  method Scan(repo: Repo) returns (r: Option<Entry>)
    ensures r == Report(Binaries(repo), Scripts(repo), Configs(repo), DirHits(repo.root, repo.entries))
  {
    var binaries: seq<string> := [];
    var scripts: seq<string> := [];
    var configs: seq<string> := [];
    var dirs: seq<string> := [];
    var root := repo.root;
    for i := 0 to |repo.entries|
      invariant binaries == PathsWhere(root, repo.entries[..i], e => IsBinary(root, e))
      invariant scripts == PathsWhere(root, repo.entries[..i], e => IsScript(root, e))
      invariant configs == PathsWhere(root, repo.entries[..i], e => IsConfig(root, e))
      invariant dirs == DirHits(root, repo.entries[..i])
    {
      var e := repo.entries[i];
      CollectSnoc(repo.entries[..i], e, e => InDbDirectory(root, e), e => ParentString(root, e));
      PathsWhereSnoc(root, repo.entries[..i], e, e => IsBinary(root, e));
      PathsWhereSnoc(root, repo.entries[..i], e, e => IsScript(root, e));
      PathsWhereSnoc(root, repo.entries[..i], e, e => IsConfig(root, e));
      assert repo.entries[..i + 1] == repo.entries[..i] + [e];
      if Denied(Parts(root, e), Skipped) || !e.isFile {
        continue;
      }
      var suffix := Lower(Suffix(Name(root, e)));
      if suffix in BinaryExtensions {
        binaries := binaries + [PathString(root, e)];
        continue;
      }
      if suffix in ScriptExtensions {
        scripts := scripts + [PathString(root, e)];
      }
      if Name(root, e) in ConfigFiles {
        configs := configs + [PathString(root, e)];
      }
      if LastPart(ParentParts(root, e)) in DbDirectories {
        dirs := dirs + [ParentString(root, e)];
      }
    }
    assert repo.entries[..|repo.entries|] == repo.entries;
    r := Report(binaries, scripts, configs, dirs);
  }

  /** `scan` finds nothing exactly when no scanned file is a binary database, a script, a config
      or inside a database directory. */
  lemma NoneIff(repo: Repo)
    ensures Report(Binaries(repo), Scripts(repo), Configs(repo), DirHits(repo.root, repo.entries)).None? <==>
      forall e :: e in repo.entries ==>
        !IsBinary(repo.root, e) && !IsScript(repo.root, e) && !IsConfig(repo.root, e) && !InDbDirectory(repo.root, e)
  {
    var root := repo.root;
    PathsWhereEmpty(root, repo.entries, e => IsBinary(root, e));
    PathsWhereEmpty(root, repo.entries, e => IsScript(root, e));
    PathsWhereEmpty(root, repo.entries, e => IsConfig(root, e));
    CollectEmpty(repo.entries, e => InDbDirectory(root, e), e => ParentString(root, e));
  }

  /** A binary database file is listed as nothing else: with each path found once, its path is
      in neither the scripts nor the configs, and its directory is not looked at. */
  lemma BinaryOnly(repo: Repo, x: string)
    requires forall i, j :: 0 <= i < j < |repo.entries| ==>
      PathString(repo.root, repo.entries[i]) != PathString(repo.root, repo.entries[j])
    ensures x in Binaries(repo) ==> x !in Scripts(repo) && x !in Configs(repo)
    ensures forall e :: IsBinary(repo.root, e) ==> !InDbDirectory(repo.root, e)
  {
    DisjointPaths(repo.root, repo.entries, e => IsBinary(repo.root, e), e => IsScript(repo.root, e), x);
    DisjointPaths(repo.root, repo.entries, e => IsBinary(repo.root, e), e => IsConfig(repo.root, e), x);
  }

  /** The reported directories are the distinct parents of the files in database directories,
      ascending, and `count` is their number. */
  lemma DirectoriesReported(repo: Repo)
    requires Report(Binaries(repo), Scripts(repo), Configs(repo), DirHits(repo.root, repo.entries)).Some?
    ensures var v := Report(Binaries(repo), Scripts(repo), Configs(repo), DirHits(repo.root, repo.entries)).value[5].1;
      v.Bucket? && Sorted(v.items) && Distinct(v.items) && v.count == |v.items|
      && (v.detected <==> exists e :: e in repo.entries && InDbDirectory(repo.root, e))
      && forall x :: x in v.items <==> exists k :: 0 <= k < |repo.entries| && InDbDirectory(repo.root, repo.entries[k])
                                               && x == ParentString(repo.root, repo.entries[k])
  {
    var hits := DirHits(repo.root, repo.entries);
    CollectEmpty(repo.entries, e => InDbDirectory(repo.root, e), e => ParentString(repo.root, e));
    assert SetList(hits) == [] <==> hits == [] by {
      if hits != [] {
        assert hits[0] in SetList(hits);
      }
    }
  }
}
