/** The Docker scanner: regular files under the root sorted into Dockerfiles, compose files and
    ignore files, the first bucket a file fits taking it. */
module DockerScanner {
  import opened Wrappers
  import opened Text
  import opened RepoFiles

  const DockerFiles: set<string> := {"Dockerfile"}
  const ComposeFiles: set<string> := {"docker-compose.yml", "docker-compose.yaml", "compose.yml", "compose.yaml"}
  const IgnoreFiles: set<string> := {".dockerignore"}

  /** `_is_dockerfile`: "Dockerfile", "Dockerfile.<anything>" or "<anything>.Dockerfile". */
  predicate IsDockerfile(name: string)
  {
    name in DockerFiles || StartsWith(name, "Dockerfile.") || EndsWith(name, ".Dockerfile")
  }

  /** The three buckets in priority order. */
  predicate InDockerfiles(root: seq<string>, e: FsEntry)
  {
    e.isFile && IsDockerfile(Name(root, e))
  }

  predicate InCompose(root: seq<string>, e: FsEntry)
  {
    e.isFile && !IsDockerfile(Name(root, e)) && Name(root, e) in ComposeFiles
  }

  predicate InIgnore(root: seq<string>, e: FsEntry)
  {
    e.isFile && !IsDockerfile(Name(root, e)) && Name(root, e) !in ComposeFiles && Name(root, e) in IgnoreFiles
  }

  function Dockerfiles(repo: Repo): seq<string>
  {
    PathsWhere(repo.root, repo.entries, e => InDockerfiles(repo.root, e))
  }

  function ComposeList(repo: Repo): seq<string>
  {
    PathsWhere(repo.root, repo.entries, e => InCompose(repo.root, e))
  }

  function IgnoreList(repo: Repo): seq<string>
  {
    PathsWhere(repo.root, repo.entries, e => InIgnore(repo.root, e))
  }

  /** The dictionary `scan` returns for the three buckets, or None when all are empty. */
  function Report(dockerfiles: seq<string>, compose: seq<string>, ignore: seq<string>): Option<Entry>
  {
    if dockerfiles == [] && compose == [] && ignore == [] then None
    else Some([("type", Str("infrastructure")), ("name", Str("docker")),
               ("dockerfiles", ListBucket("files", dockerfiles)),
               ("compose_files", ListBucket("files", compose)),
               ("ignore_files", ListBucket("files", ignore))])
  }

  /** `DockerScanner.scan`. */
  method Scan(repo: Repo) returns (r: Option<Entry>)
    ensures r == Report(Dockerfiles(repo), ComposeList(repo), IgnoreList(repo))
  {
    var dockerfiles: seq<string> := [];
    var compose: seq<string> := [];
    var ignore: seq<string> := [];
    var root := repo.root;
    for i := 0 to |repo.entries|
      invariant dockerfiles == PathsWhere(root, repo.entries[..i], e => InDockerfiles(root, e))
      invariant compose == PathsWhere(root, repo.entries[..i], e => InCompose(root, e))
      invariant ignore == PathsWhere(root, repo.entries[..i], e => InIgnore(root, e))
    {
      var e := repo.entries[i];
      PathsWhereSnoc(root, repo.entries[..i], e, e => InDockerfiles(root, e));
      PathsWhereSnoc(root, repo.entries[..i], e, e => InCompose(root, e));
      PathsWhereSnoc(root, repo.entries[..i], e, e => InIgnore(root, e));
      assert repo.entries[..i + 1] == repo.entries[..i] + [e];
      if !e.isFile {
        continue;
      }
      var name := Name(root, e);
      if IsDockerfile(name) {
        dockerfiles := dockerfiles + [PathString(root, e)];
        continue;
      }
      if name in ComposeFiles {
        compose := compose + [PathString(root, e)];
        continue;
      }
      if name in IgnoreFiles {
        ignore := ignore + [PathString(root, e)];
        continue;
      }
    }
    assert repo.entries[..|repo.entries|] == repo.entries;
    r := Report(dockerfiles, compose, ignore);
  }

  /** `scan` finds nothing exactly when no regular file is a Dockerfile, a compose file or an
      ignore file. */
  lemma NoneIff(repo: Repo)
    ensures Report(Dockerfiles(repo), ComposeList(repo), IgnoreList(repo)).None? <==>
      forall e :: e in repo.entries && e.isFile ==>
        !IsDockerfile(Name(repo.root, e)) && Name(repo.root, e) !in ComposeFiles && Name(repo.root, e) !in IgnoreFiles
  {
    PathsWhereEmpty(repo.root, repo.entries, e => InDockerfiles(repo.root, e));
    PathsWhereEmpty(repo.root, repo.entries, e => InCompose(repo.root, e));
    PathsWhereEmpty(repo.root, repo.entries, e => InIgnore(repo.root, e));
  }

  /** Paths found once each land in at most one bucket. */
  lemma AtMostOneBucket(repo: Repo, x: string)
    requires forall i, j :: 0 <= i < j < |repo.entries| ==>
      PathString(repo.root, repo.entries[i]) != PathString(repo.root, repo.entries[j])
    ensures x in Dockerfiles(repo) ==> x !in ComposeList(repo) && x !in IgnoreList(repo)
    ensures x in ComposeList(repo) ==> x !in IgnoreList(repo)
  {
    DisjointPaths(repo.root, repo.entries, e => InDockerfiles(repo.root, e), e => InCompose(repo.root, e), x);
    DisjointPaths(repo.root, repo.entries, e => InDockerfiles(repo.root, e), e => InIgnore(repo.root, e), x);
    DisjointPaths(repo.root, repo.entries, e => InCompose(repo.root, e), e => InIgnore(repo.root, e), x);
  }

  /** A file named "Dockerfile" or "Dockerfile.dev" is a Dockerfile, and so is "web.Dockerfile";
      the name is matched case-sensitively. */
  lemma DockerfileNames()
    ensures IsDockerfile("Dockerfile") && IsDockerfile("Dockerfile.dev") && IsDockerfile("web.Dockerfile")
    ensures !IsDockerfile("dockerfile") && !IsDockerfile("Dockerfile-dev")
  {
    assert "dockerfile"[0] != "Dockerfile."[0];
    assert "Dockerfile-dev"[10] != "Dockerfile."[10];
  }
}
