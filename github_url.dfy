/** `parseGithubUrl` of the client: the owner and repository named by the first
    "github.com/<owner>/<repo>" found anywhere in a string, as the regular expression
    `github\.com\/([^/]+)\/([^/]+)` finds it, with ".git" taken out of the repository name once. */
module GithubUrl {
  import opened Wrappers
  import opened Text

  datatype GithubRef = GithubRef(owner: string, repo: string)

  const Host: string := "github.com/"

  predicate SlashFree(s: string)
  {
    forall k :: 0 <= k < |s| ==> s[k] != '/'
  }

  /** The length of the longest slash-free prefix of `s`: what a greedy `[^/]*` takes. */
  function SlashRun(s: string): (n: nat)
    ensures n <= |s| && SlashFree(s[..n]) && (n == |s| || s[n] == '/')
  {
    if |s| == 0 || s[0] == '/' then 0
    else
      var m := SlashRun(s[1..]);
      assert s[..m + 1] == [s[0]] + s[1..][..m];
      m + 1
  }

  /** A run of non-slashes followed by a slash is exactly the greedy run. */
  lemma SlashRunAt(s: string, a: string)
    requires StartsWith(s, a) && SlashFree(a) && |a| < |s| && s[|a|] == '/'
    ensures SlashRun(s) == |a|
  {
  }

  /** "github.com/", then `owner`, a slash and `repo`, both non-empty and slash-free, starting at
      `i` in `s`: one place where the pattern matches. */
  predicate Occurrence(s: string, i: nat, owner: string, repo: string)
  {
    var end := i + |Host| + |owner| + 1 + |repo|;
    end <= |s| && s[i..end] == Host + owner + "/" + repo
    && owner != "" && repo != "" && SlashFree(owner) && SlashFree(repo)
  }

  /** The match attempted at index `i`: both groups as long as the greedy runs make them. */
  function MatchAt(s: string, i: nat): Option<GithubRef>
    requires i <= |s|
  {
    var rest := s[i..];
    if !StartsWith(rest, Host) then None
    else
      var t := rest[|Host|..];
      var n := SlashRun(t);
      if n == 0 || n == |t| then None
      else
        var u := t[n + 1..];
        var m := SlashRun(u);
        if m == 0 then None else Some(GithubRef(t[..n], u[..m]))
  }

  /** The index of the leftmost match at or after `i`. */
  function FirstMatch(s: string, i: nat): (r: Option<nat>)
    requires i <= |s|
    ensures r.Some? ==> i <= r.value <= |s| && MatchAt(s, r.value).Some?
    ensures r.Some? ==> forall k :: i <= k < r.value ==> MatchAt(s, k).None?
    ensures r.None? ==> forall k :: i <= k <= |s| ==> MatchAt(s, k).None?
    decreases |s| - i
  {
    if MatchAt(s, i).Some? then Some(i)
    else if i == |s| then None
    else FirstMatch(s, i + 1)
  }

  /** `parseGithubUrl(url)`: null when nothing matches. */
  function ParseGithubUrl(url: string): Option<GithubRef>
  {
    match FirstMatch(url, 0)
      case None => None
      case Some(i) =>
        var g := MatchAt(url, i).value;
        Some(GithubRef(g.owner, ReplaceFirst(g.repo, ".git", "")))
  }

  /** Where the pattern occurs at `i`, the attempt at `i` succeeds. */
  lemma OccurrenceMatches(s: string, i: nat, owner: string, repo: string)
    requires i <= |s| && Occurrence(s, i, owner, repo)
    ensures MatchAt(s, i).Some?
  {
    var w := Host + owner + "/" + repo;
    var rest := s[i..];
    assert rest[..|w|] == w;
    assert StartsWith(rest, Host) by {
      assert rest[..|Host|] == rest[..|w|][..|Host|];
    }
    var t := rest[|Host|..];
    assert StartsWith(t, owner) by {
      assert t[..|owner|] == w[|Host|..|Host| + |owner|];
    }
    assert t[|owner|] == w[|Host| + |owner|];
    SlashRunAt(t, owner);
    var u := t[|owner| + 1..];
    assert u[0] == w[|Host| + |owner| + 1] == repo[0];
    assert SlashRun(u) != 0;
  }

  /** The text a successful attempt spans. */
  lemma MatchSpan(s: string, i: nat)
    requires i <= |s| && MatchAt(s, i).Some?
    ensures var g := MatchAt(s, i).value; var end := i + |Host| + |g.owner| + 1 + |g.repo|;
      end <= |s| && s[i..end] == Host + g.owner + "/" + g.repo
  {
    var rest := s[i..];
    var t := rest[|Host|..];
    var n := SlashRun(t);
    var u := t[n + 1..];
    var m := SlashRun(u);
    var len := |Host| + n + 1 + m;
    assert rest[..|Host|] == Host;
    assert t[n] == '/';
    assert t[..n + 1 + m] == t[..n] + "/" + u[..m];
    assert rest[..len] == rest[..|Host|] + t[..n + 1 + m];
    assert s[i..i + len] == rest[..len];
    assert s[i..i + len] == Host + t[..n] + "/" + u[..m];
  }

  /** What a successful attempt captures is an occurrence, its repository run as long as it can
      be. */
  lemma MatchOccurs(s: string, i: nat)
    requires i <= |s| && MatchAt(s, i).Some?
    ensures var g := MatchAt(s, i).value; var end := i + |Host| + |g.owner| + 1 + |g.repo|;
      Occurrence(s, i, g.owner, g.repo) && (end == |s| || s[end] == '/')
  {
    MatchSpan(s, i);
    var t := s[i..][|Host|..];
    var u := t[SlashRun(t) + 1..];
    var end := i + |Host| + SlashRun(t) + 1 + SlashRun(u);
    assert end < |s| ==> s[end] == u[SlashRun(u)];
  }

  /** The attempt at `i` succeeds exactly when the pattern occurs there. */
  lemma MatchAtIff(s: string, i: nat)
    requires i <= |s|
    ensures MatchAt(s, i).Some? <==> exists owner, repo :: Occurrence(s, i, owner, repo)
  {
    if exists owner, repo :: Occurrence(s, i, owner, repo) {
      var owner, repo :| Occurrence(s, i, owner, repo);
      OccurrenceMatches(s, i, owner, repo);
    }
    if MatchAt(s, i).Some? {
      MatchOccurs(s, i);
    }
  }

  /** Taking ".git" out leaves a slash-free name slash-free. */
  lemma ReplaceKeepsSlashFree(s: string)
    requires SlashFree(s)
    ensures SlashFree(ReplaceFirst(s, ".git", ""))
  {
    var r := ReplaceFirst(s, ".git", "");
    match IndexOf(s, ".git")
      case None =>
      case Some(i) =>
        forall k | 0 <= k < |r|
          ensures r[k] != '/'
        {
          if k < i {
            assert r[k] == s[k];
          } else {
            assert r[k] == s[k + 4];
          }
        }
  }

  /** `parseGithubUrl` returns null exactly when the pattern occurs nowhere in the string. */
  lemma {:induction false} ParseNullIff(url: string)
    ensures ParseGithubUrl(url).None? <==> !exists i: nat, owner, repo :: Occurrence(url, i, owner, repo)
  {
    if exists i: nat, owner, repo :: Occurrence(url, i, owner, repo) {
      var i: nat, owner, repo :| Occurrence(url, i, owner, repo);
      OccurrenceMatches(url, i, owner, repo);
    } else if FirstMatch(url, 0).Some? {
      MatchOccurs(url, FirstMatch(url, 0).value);
    }
  }

  /** No occurrence starts before the leftmost successful attempt. */
  lemma NoEarlierOccurrence(url: string, i: nat)
    requires FirstMatch(url, 0) == Some(i)
    ensures forall j: nat, o, r :: j < i ==> !Occurrence(url, j, o, r)
  {
    forall j: nat, o, r | j < i
      ensures !Occurrence(url, j, o, r)
    {
      if Occurrence(url, j, o, r) {
        OccurrenceMatches(url, j, o, r);
      }
    }
  }

  /** A parsed url names the leftmost occurrence of the pattern: the owner is the whole slash-free
      run after "github.com/", the repository the whole run after the next slash with its first
      ".git" taken out, and neither holds a slash. Text before and after the match is ignored. */
  lemma {:induction false} ParseLeftmost(url: string)
    requires ParseGithubUrl(url).Some?
    ensures var g := ParseGithubUrl(url).value;
      exists i: nat, repo :: Occurrence(url, i, g.owner, repo)
        && g.repo == ReplaceFirst(repo, ".git", "")
        && (i + |Host| + |g.owner| + 1 + |repo| == |url| || url[i + |Host| + |g.owner| + 1 + |repo|] == '/')
        && forall j: nat, o, r :: j < i ==> !Occurrence(url, j, o, r)
    ensures SlashFree(ParseGithubUrl(url).value.owner) && SlashFree(ParseGithubUrl(url).value.repo)
  {
    var i := FirstMatch(url, 0).value;
    var m := MatchAt(url, i).value;
    MatchOccurs(url, i);
    NoEarlierOccurrence(url, i);
    ReplaceKeepsSlashFree(m.repo);
    assert Occurrence(url, i, m.owner, m.repo);
  }

  /** A bare "github.com/<owner>/<repo>" reads back as that owner and repository. */
  lemma ParseBare(owner: string, repo: string)
    requires owner != "" && repo != "" && SlashFree(owner) && SlashFree(repo)
    ensures ParseGithubUrl(Host + owner + "/" + repo) == Some(GithubRef(owner, ReplaceFirst(repo, ".git", "")))
  {
    var url := Host + owner + "/" + repo;
    assert url[0..|url|] == url;
    assert Occurrence(url, 0, owner, repo);
    OccurrenceMatches(url, 0, owner, repo);
    MatchOccurs(url, 0);
    var g := MatchAt(url, 0).value;
    assert Occurrence(url, 0, g.owner, g.repo);
    assert url[|Host|..] == owner + "/" + repo;
    assert g.owner == owner by {
      assert url[|Host|..][..|g.owner|] == g.owner && url[|Host|..][..|owner|] == owner;
      SlashRunAt(url[|Host|..], owner);
    }
    assert |g.repo| == |repo|;
    assert g.repo == url[|Host| + |owner| + 1..] == repo;
  }
}
