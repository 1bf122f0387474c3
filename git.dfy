/** Remote-URL helpers of the CLI: reading the `origin` fetch URL out of `git remote -v`
 *  output, and splitting a GitHub remote URL into owner and repository. Each regular
 *  expression is written out as the search an ECMAScript engine performs for it (leftmost
 *  start, greedy and lazy quantifiers with backtracking), and lemmas characterise the result. */
module GitUtils {
  import opened Common

  // ---------------------------------------------------------------------------
  // extractRemoteUrl: the first match of /origin\s+(.+?)\s+\(fetch\)/, or ''.

  /** A character matched by `\s` (white space and line terminators of ECMAScript). */
  predicate IsSpace(c: char)
  {
    c == ' ' || c == '\t' || c == '\n' || c == '\r' || c == '\U{000B}' || c == '\U{000C}'
    || c == '\U{00A0}' || c == '\U{1680}' || ('\U{2000}' <= c <= '\U{200A}')
    || c == '\U{2028}' || c == '\U{2029}' || c == '\U{202F}' || c == '\U{205F}'
    || c == '\U{3000}' || c == '\U{FEFF}'
  }

  /** A character that `.` does not match. */
  predicate IsLineTerminator(c: char)
  {
    c == '\n' || c == '\r' || c == '\U{2028}' || c == '\U{2029}'
  }

  /** The characters of `s` from `i` up to `e` are all white space. */
  ghost predicate SpacesBetween(s: string, i: nat, e: nat)
  {
    i <= e <= |s| && forall k :: i <= k < e ==> IsSpace(s[k])
  }

  /** The end of the longest run of white space that starts at `i`. */
  function SpaceRunEnd(s: string, i: nat): (e: nat)
    requires i <= |s|
    ensures SpacesBetween(s, i, e)
    ensures e == |s| || !IsSpace(s[e])
    decreases |s| - i
  {
    if i < |s| && IsSpace(s[i]) then SpaceRunEnd(s, i + 1) else i
  }

  /** `\s+\(fetch\)` matches at `j`. The greedy `\s+` can only succeed with the whole run of
   *  white space, because `(` is not white space. */
  predicate FetchTailAt(s: string, j: nat)
    requires j <= |s|
  {
    j < |s| && IsSpace(s[j]) && OccursAt(s, "(fetch)", SpaceRunEnd(s, j))
  }

  /** The group `(.+?)` may span `s[e..j]` and the rest of the pattern matches after it. */
  ghost predicate GroupFits(s: string, e: nat, j: nat)
  {
    e < j <= |s| && (forall k :: e <= k < j ==> !IsLineTerminator(s[k])) && FetchTailAt(s, j)
  }

  /** One match of the whole pattern: `origin` at `p`, white space up to `e`, the group
   *  `s[e..j]`, then white space and `(fetch)`. */
  ghost predicate FetchLineAt(s: string, p: nat, e: nat, j: nat)
  {
    OccursAt(s, "origin", p) && p + 6 < e && SpacesBetween(s, p + 6, e) && GroupFits(s, e, j)
  }

  /** The lazy group begun at `e`, trying the ends `j`, `j + 1`, ... in turn: the first end at
   *  which the rest of the pattern matches, as long as the group holds no line terminator. */
  function LazyGroupEnd(s: string, e: nat, j: nat): (r: Option<nat>)
    requires e < j <= |s| + 1
    requires forall k :: e <= k < j - 1 ==> !IsLineTerminator(s[k])
    ensures r.Some? ==> j <= r.value && GroupFits(s, e, r.value)
    ensures r.Some? ==> forall q :: j <= q < r.value ==> !GroupFits(s, e, q)
    ensures r.None? ==> forall q :: j <= q ==> !GroupFits(s, e, q)
    decreases |s| + 1 - j
  {
    if j > |s| || IsLineTerminator(s[j - 1]) then None
    else if FetchTailAt(s, j) then Some(j)
    else LazyGroupEnd(s, e, j + 1)
  }

  /** After `origin` at `p`, the greedy `\s+` first takes the whole run of white space and then
   *  gives back one character at a time; `e` is the end it currently tries. */
  function BacktrackSpaces(s: string, p: nat, e: nat): (r: Option<(nat, nat)>)
    requires p + 6 <= e <= |s|
    ensures r.Some? ==> p + 6 < r.value.0 <= e && GroupFits(s, r.value.0, r.value.1)
    ensures r.Some? ==> forall e', j :: r.value.0 < e' <= e ==> !GroupFits(s, e', j)
    ensures r.Some? ==> forall j :: GroupFits(s, r.value.0, j) ==> r.value.1 <= j
    ensures r.None? ==> forall e', j :: p + 6 < e' <= e ==> !GroupFits(s, e', j)
    decreases e
  {
    if e == p + 6 then None
    else
      match LazyGroupEnd(s, e, e + 1)
      case Some(j) => Some((e, j))
      case None => BacktrackSpaces(s, p, e - 1)
  }

  /** The match at `p` that the engine reports among all those of `FetchLineAt`: the greedy
   *  `\s+` keeps the latest group start at which the rest still matches, and the lazy `(.+?)`
   *  then takes the earliest group end. */
  ghost predicate ChosenFetchLineAt(s: string, p: nat, e: nat, j: nat)
  {
    FetchLineAt(s, p, e, j)
    && (forall e': nat, j': nat :: FetchLineAt(s, p, e', j') ==> e' <= e)
    && (forall j': nat :: FetchLineAt(s, p, e, j') ==> j <= j')
  }

  /** The match of the pattern that starts at `p`, as the bounds of its group. */
  function MatchRemoteAt(s: string, p: nat): (r: Option<(nat, nat)>)
    ensures r.Some? ==> ChosenFetchLineAt(s, p, r.value.0, r.value.1)
    ensures r.None? ==> forall e, j :: !FetchLineAt(s, p, e, j)
  {
    if !OccursAt(s, "origin", p) then None
    else
      BacktrackSpaces(s, p, SpaceRunEnd(s, p + 6))
  }

  datatype RemoteMatch = RemoteMatch(start: nat, groupStart: nat, groupEnd: nat)

  /** The leftmost match that starts at `p` or later. */
  function SearchRemote(s: string, p: nat): (r: Option<RemoteMatch>)
    ensures r.Some? ==> p <= r.value.start && ChosenFetchLineAt(s, r.value.start, r.value.groupStart, r.value.groupEnd)
    ensures r.Some? ==> forall q, e, j :: p <= q < r.value.start ==> !FetchLineAt(s, q, e, j)
    ensures r.None? ==> forall q, e, j :: p <= q ==> !FetchLineAt(s, q, e, j)
    decreases |s| + 1 - p
  {
    if p > |s| then None
    else
      match MatchRemoteAt(s, p)
      case Some((e, j)) => Some(RemoteMatch(p, e, j))
      case None => SearchRemote(s, p + 1)
  }

  /** `GitUtils.extractRemoteUrl`: the URL of the first `origin <url> (fetch)` occurrence, or
   *  the empty string when the output holds none. */
  function ExtractRemoteUrl(remotes: string): (url: string)
    ensures url == "" <==> forall p: nat, e: nat, j: nat :: !FetchLineAt(remotes, p, e, j)
    ensures url != "" ==> exists p: nat, e: nat, j: nat :: ChosenFetchLineAt(remotes, p, e, j) && url == remotes[e..j]
                           && forall q: nat, e': nat, j': nat :: q < p ==> !FetchLineAt(remotes, q, e', j')
  {
    match SearchRemote(remotes, 0)
    case Some(m) => remotes[m.groupStart..m.groupEnd]
    case None => ""
  }

  /** On a line `origin<spaces><url> (fetch)...` whose URL holds no white space, the URL is
   *  exactly what is extracted, whatever follows. */
  lemma ExtractFromFetchLine(sep: string, url: string, rest: string)
    requires |sep| > 0 && forall k :: 0 <= k < |sep| ==> IsSpace(sep[k])
    requires |url| > 0 && forall k :: 0 <= k < |url| ==> !IsSpace(url[k])
    ensures ExtractRemoteUrl("origin" + sep + url + " (fetch)" + rest) == url
  {
    var s := "origin" + sep + url + " (fetch)" + rest;
    var a := 6 + |sep|;
    var b := a + |url|;
    FetchLineParts(sep, url, rest);
    LazyGroupStopsAtSpace(s, a, b);
    BacktrackKeepsRun(s, a, b);
    MatchAtStart(s, a, b, url);
  }

  /** A match at the very start is the one extracted. */
  lemma MatchAtStart(s: string, a: nat, b: nat, url: string)
    requires MatchRemoteAt(s, 0) == Some((a, b)) && a <= b <= |s| && s[a..b] == url
    ensures ExtractRemoteUrl(s) == url
  {
  }

  /** A group start followed by no white space up to `b`, where the fetch marker follows: the
   *  lazy group ends exactly at `b`. */
  lemma LazyGroupStopsAtSpace(s: string, a: nat, b: nat)
    requires a < b <= |s| && FetchTailAt(s, b)
    requires forall q :: a <= q < b ==> !IsSpace(s[q])
    ensures LazyGroupEnd(s, a, a + 1) == Some(b)
  {
    assert GroupFits(s, a, b);
  }

  /** When the whole run of white space after `origin` ends at `a` and the group from `a` fits,
   *  the match at 0 keeps the whole run. */
  lemma BacktrackKeepsRun(s: string, a: nat, b: nat)
    requires OccursAt(s, "origin", 0) && 6 < a <= |s| && SpaceRunEnd(s, 6) == a
    requires LazyGroupEnd(s, a, a + 1) == Some(b)
    ensures MatchRemoteAt(s, 0) == Some((a, b))
  {
  }

  /** The pieces of such a line: the name at 0, the spaces, the URL without white space, and the
   *  fetch marker right after it. */
  lemma FetchLineParts(sep: string, url: string, rest: string)
    requires |sep| > 0 && forall k :: 0 <= k < |sep| ==> IsSpace(sep[k])
    requires |url| > 0 && forall k :: 0 <= k < |url| ==> !IsSpace(url[k])
    ensures var s := "origin" + sep + url + " (fetch)" + rest;
            var a := 6 + |sep|;
            var b := a + |url|;
            b < |s| && s[a..b] == url && OccursAt(s, "origin", 0) && SpaceRunEnd(s, 6) == a
            && FetchTailAt(s, b) && forall q :: a <= q < b ==> !IsSpace(s[q])
  {
    var s := "origin" + sep + url + " (fetch)" + rest;
    var a := 6 + |sep|;
    var b := a + |url|;
    assert s[..6] == "origin";
    assert OccursAt(s, "origin", 0);
    assert s[6..a] == sep;
    assert s[a..b] == url;
    assert s[b] == ' ';
    assert s[b + 1..b + 8] == "(fetch)";
    assert !IsSpace(s[b + 1]);
    assert SpaceRunEnd(s, b + 1) == b + 1;
    assert SpaceRunEnd(s, b) == b + 1;
    assert FetchTailAt(s, b);
    assert !IsSpace(s[a]);
    assert SpacesBetween(s, 6, a);
    assert SpaceRunEnd(s, 6) == a;
    assert GroupFits(s, a, b);
    forall q | a <= q < b ensures !IsSpace(s[q]) {
      assert s[q] == url[q - a];
    }
  }

  /** The `origin` fetch URL in the usual two-line output of `git remote -v`. */
  lemma ExtractRemoteUrlExample()
    ensures ExtractRemoteUrl("origin" + "\t" + "git@github.com:acme/widgets.git" + " (fetch)"
                             + "\norigin\tgit@github.com:acme/widgets.git (push)\n")
            == "git@github.com:acme/widgets.git"
  {
    ExtractFromFetchLine("\t", "git@github.com:acme/widgets.git", "\norigin\tgit@github.com:acme/widgets.git (push)\n");
  }

  // ---------------------------------------------------------------------------
  // parseGitHubUrl

  datatype GitHubRepo = GitHubRepo(owner: string, repository: string)

  const HttpsPrefix: string := "https://github.com/"
  const SshPrefix: string := "git@github.com:"

  /** The index of the first `/` at or after `i`, or `|s|` when there is none. */
  function SlashFrom(s: string, i: nat): (b: nat)
    requires i <= |s|
    ensures i <= b <= |s| && (b < |s| ==> s[b] == '/')
    ensures forall k :: i <= k < b ==> s[k] != '/'
    decreases |s| - i
  {
    if i == |s| || s[i] == '/' then i else SlashFrom(s, i + 1)
  }

  /** The tail `([^\/]+?)(?:\.git)?$` over the text `r` after the owner's slash, with the lazy
   *  group trying the lengths `n`, `n + 1`, ... in turn; at each length the optional `.git` is
   *  tried before the empty alternative. Gives the group's length and whether `.git` was taken. */
  function LazyRepository(r: string, n: nat): (m: Option<(nat, bool)>)
    requires 1 <= n
    requires forall k :: 0 <= k < n - 1 && k < |r| ==> r[k] != '/'
    ensures m.Some? ==> n <= m.value.0 <= |r| && '/' !in r[..m.value.0]
    ensures m.Some? ==> r == r[..m.value.0] + (if m.value.1 then ".git" else "")
    decreases |r| + 1 - n
  {
    if n > |r| || r[n - 1] == '/' then None
    else if r[n..] == ".git" then Some((n, true))
    else if n == |r| then Some((n, false))
    else LazyRepository(r, n + 1)
  }

  /** The repository name the tail pattern keeps: one trailing `.git` goes, unless nothing
   *  would be left. */
  function StripDotGit(r: string): (s: string)
    ensures |s| <= |r| && s == r[..|s|]
  {
    if |r| > 4 && r[|r| - 4..] == ".git" then r[..|r| - 4] else r
  }

  /** The lazy search of `LazyRepository` ends at the length of `StripDotGit(r)`. */
  lemma {:induction false} LazyRepositoryFrom(r: string, n: nat)
    requires 1 <= n <= |StripDotGit(r)|
    requires forall k :: 0 <= k < n - 1 ==> r[k] != '/'
    ensures LazyRepository(r, n) ==
            if '/' in r then None else Some((|StripDotGit(r)|, |StripDotGit(r)| < |r|))
    decreases |r| - n
  {
    var t := |StripDotGit(r)|;
    if r[n - 1] == '/' {
      assert r[n - 1] in r;
    } else if n < t {
      assert r[n..] != ".git" by {
        if |r| - n == 4 {
          assert r[n..] == r[|r| - 4..];
        }
      }
      LazyRepositoryFrom(r, n + 1);
    } else {
      assert t < |r| ==> r[n..] == ".git";
      assert forall k :: n <= k < |r| ==> r[k] == r[n..][k - n];
      assert '/' !in r by {
        forall k | 0 <= k < |r| ensures r[k] != '/' {
          if n <= k {
            assert r[k] == r[n..][k - n];
          }
        }
      }
    }
  }

  /** The group of a successful tail match: the text after the slash, less one trailing `.git`. */
  lemma LazyRepositoryClosedForm(r: string)
    ensures LazyRepository(r, 1) == if r == "" || '/' in r then None else Some((|StripDotGit(r)|, |StripDotGit(r)| < |r|))
  {
    if r != "" {
      LazyRepositoryFrom(r, 1);
    }
  }

  /** A match of the HTTPS or SSH pattern: where it starts, the two groups, and whether the
   *  optional `.git` was part of it. */
  datatype UrlMatch = UrlMatch(start: nat, owner: string, repository: string, dotGit: bool)

  /** The match of `<prefix>([^\/]+)\/([^\/]+?)(?:\.git)?$` that starts at `p`. The greedy owner
   *  group runs to the first `/`: giving characters back cannot help, since the next one would
   *  then not be `/`. */
  function MatchGitHubAt(url: string, prefix: string, p: nat): (m: Option<UrlMatch>)
    ensures m.Some? ==> m.value.start == p && p + |prefix| <= |url|
    ensures m.Some? ==> m.value.owner != "" && m.value.repository != ""
    ensures m.Some? ==> '/' !in m.value.owner && '/' !in m.value.repository
  {
    if !OccursAt(url, prefix, p) then None
    else
      var a := p + |prefix|;
      var b := SlashFrom(url, a);
      if b == a || b == |url| then None
      else
        var r := url[b + 1..];
        match LazyRepository(r, 1)
        case None => None
        case Some((n, dotGit)) =>
          assert '/' !in url[a..b] by {
            forall k | 0 <= k < b - a ensures url[a..b][k] != '/' {
              assert url[a..b][k] == url[a + k];
            }
          }
          Some(UrlMatch(p, url[a..b], r[..n], dotGit))
  }

  /** A match spans the rest of the URL: the prefix, the owner, `/`, the repository and the
   *  optional `.git`, up to the end. */
  lemma MatchGitHubAtSpans(url: string, prefix: string, p: nat)
    ensures var m := MatchGitHubAt(url, prefix, p);
            m.Some? ==> url == url[..p] + prefix + m.value.owner + "/" + m.value.repository
                               + (if m.value.dotGit then ".git" else "")
  {
    if OccursAt(url, prefix, p) {
      var a := p + |prefix|;
      var b := SlashFrom(url, a);
      if b != a && b != |url| {
        var r := url[b + 1..];
        var lazy := LazyRepository(r, 1);
        if lazy.Some? {
          var n := lazy.value.0;
          var tail := if lazy.value.1 then ".git" else "";
          assert MatchGitHubAt(url, prefix, p) == Some(UrlMatch(p, url[a..b], r[..n], lazy.value.1));
          SplitAtSlash(url, p, prefix, b);
          Reassociate(url[..p] + prefix + url[a..b] + "/", r[..n], tail);
          assert r == r[..n] + tail;
        }
      }
    }
  }

  /** A URL with `prefix` at `p` and a `/` at `b` after it falls into five parts. */
  lemma SplitAtSlash(url: string, p: nat, prefix: string, b: nat)
    requires OccursAt(url, prefix, p) && p + |prefix| <= b < |url| && url[b] == '/'
    ensures url == url[..p] + prefix + url[p + |prefix|..b] + "/" + url[b + 1..]
  {
    assert url[p..p + |prefix|] == prefix;
  }

  /** Associativity of concatenation. Stated apart, as a small lemma over plain
   *  sequences, only to keep the proofs that use it within the solver's limits. */
  lemma Reassociate(x: string, y: string, z: string)
    ensures x + (y + z) == x + y + z
  {
  }

  /** The leftmost match starting at `p` or later. */
  function SearchGitHub(url: string, prefix: string, p: nat): (m: Option<UrlMatch>)
    ensures m.Some? ==> p <= m.value.start && m.value.start + |prefix| <= |url|
    ensures m.Some? ==> m.value.owner != "" && m.value.repository != ""
    ensures m.Some? ==> '/' !in m.value.owner && '/' !in m.value.repository
    decreases |url| + 1 - p
  {
    if p > |url| then None
    else
      match MatchGitHubAt(url, prefix, p)
      case Some(m) => Some(m)
      case None => SearchGitHub(url, prefix, p + 1)
  }

  /** The search finds the leftmost match: none starts between `p` and the one found, and none
   *  starts at `p` or later when nothing is found. */
  lemma {:induction false} SearchGitHubLeftmost(url: string, prefix: string, p: nat)
    ensures var m := SearchGitHub(url, prefix, p);
            m.Some? ==> MatchGitHubAt(url, prefix, m.value.start) == m
                        && forall q: nat :: p <= q < m.value.start ==> MatchGitHubAt(url, prefix, q).None?
    ensures SearchGitHub(url, prefix, p).None? ==> forall q: nat :: p <= q ==> MatchGitHubAt(url, prefix, q).None?
    decreases |url| + 1 - p
  {
    if p > |url| {
      forall q: nat | p <= q ensures MatchGitHubAt(url, prefix, q).None? {
        var m := MatchGitHubAt(url, prefix, q);
        assert m.Some? ==> q + |prefix| <= |url|;
      }
    } else if MatchGitHubAt(url, prefix, p).None? {
      SearchGitHubLeftmost(url, prefix, p + 1);
      var m := SearchGitHub(url, prefix, p);
      assert m == SearchGitHub(url, prefix, p + 1);
      if m.Some? {
        forall q: nat | p <= q < m.value.start ensures MatchGitHubAt(url, prefix, q).None? {
          if q > p { assert p + 1 <= q; }
        }
      } else {
        forall q: nat | p <= q ensures MatchGitHubAt(url, prefix, q).None? {
          if q > p { assert p + 1 <= q; }
        }
      }
    }
  }

  /** `value || 'unknown'`. */
  function OrUnknown(s: string): string
  {
    if s == "" then "unknown" else s
  }

  /** The fallback of `parseGitHubUrl`: drop the first `.git`, split on `/`, and take the last
   *  two segments; a missing segment (`parts[-1]`) is `undefined`, so it too becomes `unknown`. */
  function FallbackParse(url: string): (r: GitHubRepo)
    ensures r.owner != "" && r.repository != ""
    ensures '/' !in r.owner && '/' !in r.repository
  {
    var parts := Split(ReplaceFirst(url, ".git", ""), '/');
    var repository := parts[|parts| - 1];
    var owner := if |parts| >= 2 then parts[|parts| - 2] else "";
    GitHubRepo(OrUnknown(owner), OrUnknown(repository))
  }

  /** `GitUtils.parseGitHubUrl`. The HTTPS pattern is used when the URL contains the HTTPS prefix
   *  (and then the SSH pattern is not tried), the SSH pattern otherwise when it contains the SSH
   *  prefix; without a match the fallback applies. Parsing never fails: both parts are present
   *  and neither holds a `/`. */
  function ParseGitHubUrl(url: string): (r: GitHubRepo)
    ensures r.owner != "" && r.repository != ""
    ensures '/' !in r.owner && '/' !in r.repository
  {
    var m :=
      if Contains(url, HttpsPrefix) then SearchGitHub(url, HttpsPrefix, 0)
      else if Contains(url, SshPrefix) then SearchGitHub(url, SshPrefix, 0)
      else None;
    match m
    case Some(x) => GitHubRepo(x.owner, x.repository)
    case None => FallbackParse(url)
  }

  /** Parsing `https://github.com/<owner>/<repository>` gives the owner back, and the repository
   *  less one trailing `.git`. */
  lemma ParseHttpsUrl(owner: string, repository: string)
    requires owner != "" && repository != "" && '/' !in owner && '/' !in repository
    ensures ParseGitHubUrl(HttpsPrefix + owner + "/" + repository) == GitHubRepo(owner, StripDotGit(repository))
  {
    var url := HttpsPrefix + owner + "/" + repository;
    assert url[..|HttpsPrefix|] == HttpsPrefix;
    assert OccursAt(url, HttpsPrefix, 0);
    assert Contains(url, HttpsPrefix);
    ParsePrefixedAt(url, HttpsPrefix, owner, repository);
  }

  /** Parsing `git@github.com:<owner>/<repository>` gives the owner back, and the repository less
   *  one trailing `.git`. */
  lemma ParseSshUrl(owner: string, repository: string)
    requires owner != "" && repository != "" && '/' !in owner && '/' !in repository
    ensures ParseGitHubUrl(SshPrefix + owner + "/" + repository) == GitHubRepo(owner, StripDotGit(repository))
  {
    var url := SshPrefix + owner + "/" + repository;
    var slash := |SshPrefix| + |owner|;
    assert forall k :: 0 <= k < |url| && k != slash ==> url[k] != '/' by {
      forall k | 0 <= k < |url| && k != slash ensures url[k] != '/' {
        if k < |SshPrefix| {
          assert url[k] == SshPrefix[k];
        } else if k < slash {
          assert url[k] == owner[k - |SshPrefix|];
          assert owner[k - |SshPrefix|] in owner;
        } else {
          assert url[k] == repository[k - slash - 1];
          assert repository[k - slash - 1] in repository;
        }
      }
    }
    assert !Contains(url, HttpsPrefix) by {
      forall p: nat | p <= |url| - |HttpsPrefix| ensures !OccursAt(url, HttpsPrefix, p) {
        assert HttpsPrefix[6] == '/' && HttpsPrefix[7] == '/';
        if p + 6 != slash {
          assert url[p + 6] != '/';
          assert url[p..p + |HttpsPrefix|][6] == url[p + 6];
        } else {
          assert url[p + 7] != '/';
          assert url[p..p + |HttpsPrefix|][7] == url[p + 7];
        }
      }
    }
    assert url[..|SshPrefix|] == SshPrefix;
    assert OccursAt(url, SshPrefix, 0);
    assert Contains(url, SshPrefix);
    ParsePrefixedAt(url, SshPrefix, owner, repository);
  }

  /** The search over a URL that starts with the prefix, the owner and a slash. */
  lemma ParsePrefixedAt(url: string, prefix: string, owner: string, repository: string)
    requires owner != "" && repository != "" && '/' !in owner && '/' !in repository
    requires url == prefix + owner + "/" + repository
    ensures SearchGitHub(url, prefix, 0) == Some(UrlMatch(0, owner, StripDotGit(repository), |StripDotGit(repository)| < |repository|))
  {
    var b := |prefix| + |owner|;
    PrefixedParts(url, prefix, owner, repository);
    MatchFromParts(url, prefix, b);
  }

  /** Where the pieces of such a URL lie: the prefix at 0, the owner up to the first slash, and
   *  the repository after it. */
  lemma PrefixedParts(url: string, prefix: string, owner: string, repository: string)
    requires owner != "" && repository != "" && '/' !in owner && '/' !in repository
    requires url == prefix + owner + "/" + repository
    ensures var a := |prefix|;
            var b := a + |owner|;
            OccursAt(url, prefix, 0) && a < b < |url| && SlashFrom(url, a) == b
            && url[a..b] == owner && url[b + 1..] == repository
  {
    var a := |prefix|;
    var b := a + |owner|;
    var head := prefix + owner;
    Reassociate(head, "/", repository);
    assert url[..b] == head && url[b..] == "/" + repository;
    assert head[..a] == prefix && head[a..] == owner;
    assert url[..a] == prefix && url[a..b] == owner;
    assert url[b] == '/' && url[b + 1..] == repository;
    assert forall k :: a <= k < b ==> url[k] != '/' by {
      forall k | a <= k < b ensures url[k] != '/' {
        assert url[k] == owner[k - a];
      }
    }
  }

  /** The match at 0 of a URL with those pieces: the owner, and the repository without one
   *  trailing `.git`. */
  lemma MatchFromParts(url: string, prefix: string, b: nat)
    requires OccursAt(url, prefix, 0) && |prefix| < b < |url| - 1 && SlashFrom(url, |prefix|) == b
    requires '/' !in url[b + 1..]
    ensures var r := url[b + 1..];
            MatchGitHubAt(url, prefix, 0) == Some(UrlMatch(0, url[|prefix|..b], StripDotGit(r), |StripDotGit(r)| < |r|))
  {
    var r := url[b + 1..];
    var n := |StripDotGit(r)|;
    LazyRepositoryClosedForm(r);
    assert r[..n] == StripDotGit(r);
  }

  /** The three remote forms the CLI is written for (HTTPS with and without `.git`, SSH with
   *  `.git`) give the same owner and repository. */
  lemma ParseRemoteFormsAgree(owner: string, name: string)
    requires owner != "" && name != "" && '/' !in owner && '/' !in name
    requires |name| <= 4 || name[|name| - 4..] != ".git"
    ensures ParseGitHubUrl(HttpsPrefix + owner + "/" + name + ".git") == GitHubRepo(owner, name)
    ensures ParseGitHubUrl(HttpsPrefix + owner + "/" + name) == GitHubRepo(owner, name)
    ensures ParseGitHubUrl(SshPrefix + owner + "/" + name + ".git") == GitHubRepo(owner, name)
  {
    ParseStripsOneDotGit(owner, name);
    ParseHttpsUrl(owner, name);
    ParseSshUrl(owner, name + ".git");
    assert SshPrefix + owner + "/" + name + ".git" == SshPrefix + owner + "/" + (name + ".git");
  }

  /** Only one trailing `.git` is stripped: `<name>.git` gives `<name>` even when `<name>` itself
   *  ends in `.git`. */
  lemma ParseStripsOneDotGit(owner: string, name: string)
    requires owner != "" && name != "" && '/' !in owner && '/' !in name
    ensures ParseGitHubUrl(HttpsPrefix + owner + "/" + name + ".git") == GitHubRepo(owner, name)
  {
    var r := name + ".git";
    assert StripDotGit(r) == name && '/' !in r by {
      assert r[|r| - 4..] == ".git" && r[..|r| - 4] == name;
    }
    ParseHttpsUrl(owner, r);
    assert HttpsPrefix + owner + "/" + name + ".git" == HttpsPrefix + owner + "/" + r;
  }

  /** With neither prefix and no separator the fallback substitutes `unknown`. */
  /** The last two `/`-separated segments of `x/o/r`, for segments without `/`. */
  lemma LastTwoSegments(x: string, o: string, r: string)
    requires '/' !in o && '/' !in r
    ensures var parts := Split(x + "/" + o + "/" + r, '/');
            |parts| >= 2 && parts[|parts| - 1] == r && parts[|parts| - 2] == o
  {
    assert x + "/" + o == x + ['/'] + o;
    SplitAppend(x, '/', o);
    assert x + "/" + o + "/" + r == (x + "/" + o) + ['/'] + r;
    SplitAppend(x + "/" + o, '/', r);
  }

  /** A URL holding neither GitHub prefix is parsed by the fallback. */
  lemma FallbackApplies(url: string)
    requires !Contains(url, HttpsPrefix) && !Contains(url, SshPrefix)
    ensures ParseGitHubUrl(url) == FallbackParse(url)
  {
  }

  /** The fallback keeps the last two segments of what is left once the first `.git` is gone. */
  lemma FallbackKeepsLastTwo(url: string, x: string, owner: string, repository: string)
    requires owner != "" && repository != "" && '/' !in owner && '/' !in repository
    requires ReplaceFirst(url, ".git", "") == x + "/" + owner + "/" + repository
    ensures FallbackParse(url) == GitHubRepo(owner, repository)
  {
    LastTwoSegments(x, owner, repository);
  }

  /** Without either GitHub prefix and without `.git`, the owner and the repository are the last
   *  two `/`-separated segments of the URL. */
  lemma ParseFallbackLastTwo(x: string, owner: string, repository: string)
    requires owner != "" && repository != "" && '/' !in owner && '/' !in repository
    requires var url := x + "/" + owner + "/" + repository;
             !Contains(url, HttpsPrefix) && !Contains(url, SshPrefix) && !Contains(url, ".git")
    ensures ParseGitHubUrl(x + "/" + owner + "/" + repository) == GitHubRepo(owner, repository)
  {
    var url := x + "/" + owner + "/" + repository;
    FallbackApplies(url);
    FallbackKeepsLastTwo(url, x, owner, repository);
  }

  /** Only the first `.git` is removed, wherever it stands, before the URL is split: without
   *  either GitHub prefix, when the first `.git` starts right after `pre`, the owner and the
   *  repository are the last two segments of `pre + post`. */
  lemma ParseFallbackDropsFirstDotGit(pre: string, post: string, x: string, owner: string, repository: string)
    requires owner != "" && repository != "" && '/' !in owner && '/' !in repository
    requires var url := pre + ".git" + post;
             !Contains(url, HttpsPrefix) && !Contains(url, SshPrefix)
             && forall q: nat :: q < |pre| ==> !OccursAt(url, ".git", q)
    requires pre + post == x + "/" + owner + "/" + repository
    ensures ParseGitHubUrl(pre + ".git" + post) == GitHubRepo(owner, repository)
  {
    var url := pre + ".git" + post;
    DotGitAfter(pre, post);
    FallbackApplies(url);
    FallbackKeepsLastTwo(url, x, owner, repository);
  }

  /** Removing the first `.git` of `pre + ".git" + post`, when it starts right after `pre`,
   *  leaves `pre + post`. */
  lemma DotGitAfter(pre: string, post: string)
    requires forall q: nat :: q < |pre| ==> !OccursAt(pre + ".git" + post, ".git", q)
    ensures ReplaceFirst(pre + ".git" + post, ".git", "") == pre + post
  {
    var url := pre + ".git" + post;
    assert url[|pre|..|pre| + 4] == ".git";
    ReplaceFirstAt(url, ".git", "", |pre|);
    assert url[..|pre|] == pre && url[|pre| + 4..] == post;
  }

  /** A `.git` inside a segment is the one removed: `http://gitea:3000/a.github/x` gives the
   *  owner `ahub`. */
  lemma ParseFallbackInnerDotGit()
    ensures ParseGitHubUrl("http://gitea:3000/a.github/x") == GitHubRepo("ahub", "x")
  {
    InnerDotGitPieces();
    InnerDotGitNoPrefix();
    InnerDotGitFirst();
    ParseFallbackDropsFirstDotGit("http://gitea:3000/a", "hub/x", "http://gitea:3000", "ahub", "x");
  }

  /** The pieces of `http://gitea:3000/a.github/x` around its `.git`, and what is left without it. */
  lemma InnerDotGitPieces()
    ensures "http://gitea:3000/a.github/x" == "http://gitea:3000/a" + ".git" + "hub/x"
    ensures "http://gitea:3000/a" + "hub/x" == "http://gitea:3000" + "/" + "ahub" + "/" + "x"
  {
  }

  /** No `.git` starts inside a piece that holds no `.`. */
  lemma DotlessBeforeDotGit(pre: string, post: string)
    requires '.' !in pre
    ensures forall q: nat :: q < |pre| ==> !OccursAt(pre + ".git" + post, ".git", q)
  {
    var url := pre + ".git" + post;
    forall q: nat | q < |pre| ensures !OccursAt(url, ".git", q) {
      assert url[q] == pre[q];
    }
  }

  /** `http://gitea:3000/a.github/x` holds neither GitHub prefix: it has no `s` and no `@`. */
  lemma InnerDotGitNoPrefix()
    ensures !Contains("http://gitea:3000/a.github/x", HttpsPrefix)
    ensures !Contains("http://gitea:3000/a.github/x", SshPrefix)
  {
    InnerDotGitNoHttps();
    InnerDotGitNoSsh();
  }

  lemma InnerDotGitNoHttps()
    ensures !Contains("http://gitea:3000/a.github/x", HttpsPrefix)
  {
    assert HttpsPrefix[4] == 's';
    MissingCharacter("http://gitea:3000/a.github/x", HttpsPrefix, 's');
  }

  lemma InnerDotGitNoSsh()
    ensures !Contains("http://gitea:3000/a.github/x", SshPrefix)
  {
    assert SshPrefix[3] == '@';
    MissingCharacter("http://gitea:3000/a.github/x", SshPrefix, '@');
  }

  /** The first `.git` of `http://gitea:3000/a.github/x` follows `http://gitea:3000/a`. */
  lemma InnerDotGitFirst()
    ensures forall q: nat :: q < |"http://gitea:3000/a"| ==> !OccursAt("http://gitea:3000/a.github/x", ".git", q)
  {
    assert '.' !in "http://gitea:3000/a";
    InnerDotGitPieces();
    DotlessBeforeDotGit("http://gitea:3000/a", "hub/x");
  }

  lemma ParseFallbackExamples()
    ensures ParseGitHubUrl("") == GitHubRepo("unknown", "unknown")
  {
    assert !Contains("", HttpsPrefix);
    assert !Contains("", SshPrefix);
    assert ReplaceFirst("", ".git", "") == "";
    assert Split("", '/') == [""];
  }
}
