/**
 * GitHub URL parsing and the repository-cache key of the backend
 * (`extract_github_details` and the `f"{owner}/{repo}/{branch}"` key).
 * Strings are modelled with Python's own operations written out:
 * `str.replace(pat, "")`, `str.split("/")` and `list.index`.
 */
module GithubUrl {
  import opened Common

  /** Python's `s.replace(pat, "")`: every occurrence of `pat` found scanning
      left to right, without overlap, is removed; the text left around a removed
      occurrence is not scanned again. */
  function RemoveAll(s: string, pat: string): (r: string)
    requires pat != []
    ensures |r| <= |s|
    decreases |s|
  {
    if |s| == 0 then []
    else if pat <= s then RemoveAll(s[|pat|..], pat)
    else [s[0]] + RemoveAll(s[1..], pat)
  }

  /** Python's `s.split(sep)` for a one-character separator: the maximal
      separator-free pieces between separators. */
  function Split(s: string, sep: char): (parts: seq<string>)
    ensures |parts| >= 1
    ensures forall i :: 0 <= i < |parts| ==> sep !in parts[i]
    decreases |s|
  {
    if |s| == 0 then [""]
    else
      var rest := Split(s[1..], sep);
      if s[0] == sep then [""] + rest
      else [[s[0]] + rest[0]] + rest[1..]
  }

  /** `sep.join(parts)`, the inverse of Split. */
  function Join(parts: seq<string>, sep: char): string
    requires |parts| >= 1
    decreases |parts|
  {
    if |parts| == 1 then parts[0] else parts[0] + [sep] + Join(parts[1..], sep)
  }

  /** The cleaning step of `extract_github_details`: the scheme and host
      substrings removed, in the order the code removes them. */
  function Clean(url: string): string
  {
    RemoveAll(RemoveAll(RemoveAll(url, "https://"), "http://"), "github.com/")
  }

  /** Python's `parts.index(x)`, or None where `x in parts` is false. */
  function IndexOf(parts: seq<string>, x: string): (r: Option<nat>)
    ensures r.None? <==> x !in parts
    ensures r.Some? ==> r.value < |parts| && parts[r.value] == x && x !in parts[..r.value]
  {
    if |parts| == 0 then None
    else if parts[0] == x then Some(0)
    else match IndexOf(parts[1..], x)
      case None => None
      case Some(i) => assert parts[..i + 1] == [parts[0]] + parts[1..][..i]; Some(i + 1)
  }

  /** The branch: the segment right after the first "tree" segment, if any. */
  function BranchOf(parts: seq<string>): Option<string>
  {
    match IndexOf(parts, "tree")
    case None => None
    case Some(i) => if |parts| > i + 1 then Some(parts[i + 1]) else None
  }

  /** `(None, None, None)` or `(owner, repo, branch)`. */
  datatype GithubDetails = NoDetails | Details(owner: string, repo: string, branch: Option<string>)

  /** `extract_github_details(url)`; `url` is None for Python's None. */
  function ExtractGithubDetails(url: Option<string>): (d: GithubDetails)
    ensures d.NoDetails? <==> !Truthy(url) || '/' !in Clean(url.value)
    ensures d.Details? ==> '/' !in d.owner && '/' !in d.repo
  {
    if !Truthy(url) then NoDetails
    else
      var parts := Split(Clean(url.value), '/');
      if |parts| < 2 then (SplitCount(Clean(url.value), '/'); NoDetails)
      else (SplitCount(Clean(url.value), '/'); Details(parts[0], parts[1], BranchOf(parts)))
  }

  /** How a branch is rendered by the f-string: Python's None prints as "None". */
  function BranchText(branch: Option<string>): string
  {
    match branch
    case None => "None"
    case Some(b) => b
  }

  /** The repository-cache key `f"{owner}/{repo}/{branch}"`. */
  function CacheKey(owner: string, repo: string, branch: Option<string>): string
  {
    owner + "/" + repo + "/" + BranchText(branch)
  }

  /** One match of the resume regex `github\.com/([a-zA-Z0-9-_]+)/([a-zA-Z0-9-_]+)`:
      its two groups. */
  datatype RepoMatch = RepoMatch(owner: string, repo: string)

  /** The URL the backend builds from a match: `f"https://github.com/{owner}/{repo}"`. */
  function MatchUrl(m: RepoMatch): string
  {
    "https://github.com/" + m.owner + "/" + m.repo
  }

  /** Characters matched by the class `[a-zA-Z0-9-_]` of the resume regex. */
  predicate NameChar(c: char)
  {
    ('a' <= c <= 'z') || ('A' <= c <= 'Z') || ('0' <= c <= '9') || c == '-' || c == '_'
  }

  /** A string matched by `[a-zA-Z0-9-_]+`. */
  predicate RegexName(s: string)
  {
    |s| > 0 && forall i :: 0 <= i < |s| ==> NameChar(s[i])
  }

  // ---------------------------------------------------------------------------
  // Split and Join

  /** Splitting and joining again gives back the string. */
  lemma {:induction false} SplitJoin(s: string, sep: char)
    ensures Join(Split(s, sep), sep) == s
    decreases |s|
  {
    if |s| > 0 {
      SplitJoin(s[1..], sep);
      var rest := Split(s[1..], sep);
      if s[0] == sep {
        assert Split(s, sep)[1..] == rest;
        assert s == [s[0]] + s[1..];
      } else if |rest| == 1 {
        assert s == [s[0]] + s[1..];
      } else {
        assert Split(s, sep)[1..] == rest[1..];
        assert s == [s[0]] + s[1..];
      }
    }
  }

  /** A string without the separator is one piece; each separator adds one. */
  lemma {:induction false} SplitCount(s: string, sep: char)
    ensures |Split(s, sep)| == 1 <==> sep !in s
    ensures sep !in s ==> Split(s, sep) == [s]
    decreases |s|
  {
    if |s| > 0 {
      SplitCount(s[1..], sep);
      assert s == [s[0]] + s[1..];
    }
  }

  /** A separator-free head is the first piece; the rest splits on its own. */
  lemma {:induction false} SplitAfterSep(a: string, sep: char, b: string)
    requires sep !in a
    ensures Split(a + [sep] + b, sep) == [a] + Split(b, sep)
    decreases |a|
  {
    if |a| == 0 {
      assert a + [sep] + b == [sep] + b;
      assert ([sep] + b)[1..] == b;
    } else {
      SplitAfterSep(a[1..], sep, b);
      assert (a + [sep] + b)[1..] == a[1..] + [sep] + b;
      assert a == [a[0]] + a[1..];
    }
  }

  /** Splitting at a separator between two texts gives the pieces of each. */
  lemma {:induction false} SplitConcat(a: string, sep: char, b: string)
    ensures Split(a + [sep] + b, sep) == Split(a, sep) + Split(b, sep)
    decreases |a|
  {
    if |a| == 0 {
      SplitAfterSep(a, sep, b);
    } else {
      var c, t := a[0], a[1..] + [sep] + b;
      assert a + [sep] + b == [c] + t;
      assert a == [c] + a[1..];
      var tail, right := Split(a[1..], sep), Split(b, sep);
      SplitConcat(a[1..], sep, b);
      assert Split(t, sep) == tail + right;
      SplitCons(c, t, sep);
      SplitCons(c, a[1..], sep);
      if c != sep {
        ConsFirst([c], tail, right);
      }
    }
  }

  /** Extending the first piece distributes over appended pieces. */
  lemma ConsFirst(c: string, tail: seq<string>, right: seq<string>)
    requires |tail| > 0
    ensures [c + (tail + right)[0]] + (tail + right)[1..] == [c + tail[0]] + tail[1..] + right
  {
    assert (tail + right)[1..] == tail[1..] + right;
  }

  /** One step of Split: the first character either ends an empty piece or
      starts the first piece of the rest. */
  lemma SplitCons(c: char, t: string, sep: char)
    ensures Split([c] + t, sep) ==
              if c == sep then [""] + Split(t, sep)
              else [[c] + Split(t, sep)[0]] + Split(t, sep)[1..]
  {
    assert ([c] + t)[1..] == t;
  }

  // ---------------------------------------------------------------------------
  // RemoveAll and Clean

  /** A pattern at the front is removed. */
  lemma RemoveAllFront(pat: string, s: string)
    requires pat != []
    ensures RemoveAll(pat + s, pat) == RemoveAll(s, pat)
  {
    assert pat <= pat + s;
    assert (pat + s)[|pat|..] == s;
  }

  /** Text in which no occurrence of the pattern can start passes unchanged. */
  lemma {:induction false} RemoveAllKeep(p: string, s: string, pat: string)
    requires pat != []
    requires forall i :: 0 <= i < |p| ==> !(pat <= p[i..] + s)
    ensures RemoveAll(p + s, pat) == p + RemoveAll(s, pat)
    decreases |p|
  {
    if |p| > 0 {
      assert p[0..] == p;
      forall i | 0 <= i < |p[1..]| ensures !(pat <= p[1..][i..] + s) {
        assert p[1..][i..] == p[i + 1..];
      }
      RemoveAllKeep(p[1..], s, pat);
      var q := p + s;
      assert q[1..] == p[1..] + s;
      assert !(pat <= q);
      assert RemoveAll(q, pat) == [q[0]] + RemoveAll(q[1..], pat);
      assert p == [p[0]] + p[1..];
    } else {
      assert p + s == s;
    }
  }

  /** A string missing one of the pattern's characters holds no occurrence. */
  lemma {:induction false} RemoveAllFree(s: string, pat: string, c: char)
    requires pat != [] && c in pat && c !in s
    ensures RemoveAll(s, pat) == s
    decreases |s|
  {
    if |s| > 0 {
      assert c !in s[1..] by {
        assert s == [s[0]] + s[1..];
      }
      RemoveAllFree(s[1..], pat, c);
      assert s == [s[0]] + s[1..];
    }
  }

  /** Not a prefix: a mismatch at position k. */
  lemma NotPrefixAt(pat: string, q: string, k: nat)
    requires k < |pat| && k < |q| && q[k] != pat[k]
    ensures !(pat <= q)
  {
  }

  /** "https://", "http://" and "github.com/" in front of a URL make no
      difference to the cleaned text. */
  lemma CleanIgnoresPrefix(p: string, s: string)
    requires p == "https://" || p == "http://" || p == "github.com/"
    ensures Clean(p + s) == Clean(s)
  {
    var h1 := RemoveAll(s, "https://");
    if p == "https://" {
      RemoveAllFront("https://", s);
    } else if p == "http://" {
      forall i | 0 <= i < |p| ensures !("https://" <= p[i..] + s) {
        if i == 0 { NotPrefixAt("https://", p[i..] + s, 4); }
        else { NotPrefixAt("https://", p[i..] + s, 0); }
      }
      RemoveAllKeep(p, s, "https://");
      RemoveAllFront("http://", h1);
    } else {
      forall i | 0 <= i < |p| ensures !("https://" <= p[i..] + s) {
        if i == 3 { NotPrefixAt("https://", p[i..] + s, 1); }
        else { NotPrefixAt("https://", p[i..] + s, 0); }
      }
      RemoveAllKeep(p, s, "https://");
      forall i | 0 <= i < |p| ensures !("http://" <= p[i..] + h1) {
        if i == 3 { NotPrefixAt("http://", p[i..] + h1, 1); }
        else { NotPrefixAt("http://", p[i..] + h1, 0); }
      }
      RemoveAllKeep(p, h1, "http://");
      RemoveAllFront("github.com/", RemoveAll(h1, "http://"));
    }
  }

  // ---------------------------------------------------------------------------
  // extract_github_details

  /** With and without the scheme and host, a URL yields the same details. */
  lemma SchemeAndHostIgnored(s: string)
    ensures ExtractGithubDetails(Some("https://github.com/" + s)) == ExtractGithubDetails(Some(s))
    ensures ExtractGithubDetails(Some("http://github.com/" + s)) == ExtractGithubDetails(Some(s))
    ensures ExtractGithubDetails(Some("github.com/" + s)) == ExtractGithubDetails(Some(s))
  {
    CleanIgnoresPrefix("github.com/", s);
    assert "https://github.com/" + s == "https://" + ("github.com/" + s);
    assert "http://github.com/" + s == "http://" + ("github.com/" + s);
    CleanIgnoresPrefix("https://", "github.com/" + s);
    CleanIgnoresPrefix("http://", "github.com/" + s);
  }

  /** Owner and repo are the first two segments of the cleaned URL: the cleaned
      text is `owner/repo`, alone or followed by a slash. */
  lemma ExtractOwnerRepo(url: Option<string>)
    requires ExtractGithubDetails(url).Details?
    ensures var d := ExtractGithubDetails(url);
            var c := Clean(url.value);
            var n := |d.owner| + 1 + |d.repo|;
            n <= |c| && c[..n] == d.owner + "/" + d.repo && (n == |c| || c[n] == '/')
  {
    var c := Clean(url.value);
    var parts := Split(c, '/');
    SplitJoin(c, '/');
    if |parts| == 2 {
      assert c == parts[0] + "/" + parts[1];
    } else {
      assert Join(parts[1..], '/') == parts[1] + "/" + Join(parts[2..], '/');
      assert c == (parts[0] + "/" + parts[1]) + "/" + Join(parts[2..], '/');
    }
  }

  /** The branch is present exactly when some "tree" segment is not the last
      one, and it is the segment after the first "tree". */
  lemma ExtractBranch(url: Option<string>)
    requires ExtractGithubDetails(url).Details?
    ensures var d := ExtractGithubDetails(url);
            var parts := Split(Clean(url.value), '/');
            && (d.branch.Some? <==> exists i :: 0 <= i < |parts| - 1 && parts[i] == "tree")
            && (d.branch.Some? ==> exists i :: 0 <= i < |parts| - 1 && parts[i] == "tree"
                                               && "tree" !in parts[..i] && d.branch.value == parts[i + 1])
  {
    var parts := Split(Clean(url.value), '/');
    var d := ExtractGithubDetails(url);
    match IndexOf(parts, "tree")
    case None =>
    case Some(k) =>
      if d.branch.None? {
        assert "tree" !in parts[..k];
      }
  }

  /** Cleaning leaves text free of ':' and '.' untouched. */
  lemma CleanPlain(s: string)
    requires ':' !in s && '.' !in s
    ensures Clean(s) == s
  {
    RemoveAllFree(s, "https://", ':');
    RemoveAllFree(s, "http://", ':');
    RemoveAllFree(s, "github.com/", '.');
  }

  /** Names matched by the resume regex hold no ':', '.' or '/'. */
  lemma RegexNamePlain(s: string)
    requires RegexName(s)
    ensures ':' !in s && '.' !in s && '/' !in s
  {
    forall i | 0 <= i < |s| ensures s[i] != ':' && s[i] != '.' && s[i] != '/' {
      assert NameChar(s[i]);
    }
  }

  /** Details of a cleaned text of two segments. */
  lemma TwoSegments(url: string, owner: string, repo: string)
    requires Clean(url) == owner + "/" + repo && '/' !in owner && '/' !in repo && url != ""
    ensures ExtractGithubDetails(Some(url)) ==
            Details(owner, repo, if owner == "tree" then Some(repo) else None)
  {
    SplitAfterSep(owner, '/', repo);
    SplitCount(repo, '/');
    var parts := Split(Clean(url), '/');
    assert parts == [owner, repo];
    if owner != "tree" {
      assert parts[1..] == [repo];
      if repo == "tree" {
        assert IndexOf(parts, "tree") == Some(1);
      } else {
        assert "tree" !in parts;
      }
    }
  }

  /** A URL built from an owner and a repo matched by the resume regex parses
      back to them, with no branch; the owner must not be the word "tree". */
  lemma RegexUrlRoundTrip(m: RepoMatch)
    requires RegexName(m.owner) && RegexName(m.repo) && m.owner != "tree"
    ensures ExtractGithubDetails(Some(MatchUrl(m))) == Details(m.owner, m.repo, None)
  {
    var (owner, repo) := (m.owner, m.repo);
    var s := owner + "/" + repo;
    assert "https://github.com/" + owner + "/" + repo == "https://github.com/" + s;
    SchemeAndHostIgnored(s);
    RegexNamePlain(owner);
    RegexNamePlain(repo);
    CleanPlain(s);
    TwoSegments(s, owner, repo);
  }

  /** An owner named "tree" is taken for the tree marker: the repo name then
      comes back as the branch. */
  lemma OwnerNamedTree(repo: string)
    requires RegexName(repo)
    ensures ExtractGithubDetails(Some("https://github.com/tree/" + repo)) == Details("tree", repo, Some(repo))
  {
    var s := "tree/" + repo;
    assert "https://github.com/tree/" + repo == "https://github.com/" + s;
    assert s == "tree" + "/" + repo;
    SchemeAndHostIgnored(s);
    RegexNamePlain(repo);
    CleanPlain(s);
    TwoSegments(s, "tree", repo);
  }

  // ---------------------------------------------------------------------------
  // Cache key

  /** Keys of slash-free owners, repos and branches are equal only when the
      owners, the repos and the rendered branches are. */
  lemma CacheKeyInjective(o1: string, r1: string, b1: Option<string>,
                          o2: string, r2: string, b2: Option<string>)
    requires '/' !in o1 && '/' !in r1 && '/' !in BranchText(b1)
    requires '/' !in o2 && '/' !in r2 && '/' !in BranchText(b2)
    requires CacheKey(o1, r1, b1) == CacheKey(o2, r2, b2)
    ensures o1 == o2 && r1 == r2 && BranchText(b1) == BranchText(b2)
  {
    assert CacheKey(o1, r1, b1) == o1 + "/" + (r1 + "/" + BranchText(b1));
    assert CacheKey(o2, r2, b2) == o2 + "/" + (r2 + "/" + BranchText(b2));
    SplitAfterSep(o1, '/', r1 + "/" + BranchText(b1));
    SplitAfterSep(o2, '/', r2 + "/" + BranchText(b2));
    SplitAfterSep(r1, '/', BranchText(b1));
    SplitAfterSep(r2, '/', BranchText(b2));
    SplitCount(BranchText(b1), '/');
    SplitCount(BranchText(b2), '/');
    var k := Split(CacheKey(o1, r1, b1), '/');
    assert k == [o1, r1, BranchText(b1)];
    assert k == [o2, r2, BranchText(b2)];
  }

  /** A branch literally named "None" shares its key with no branch at all. */
  lemma CacheKeyNoneBranch(owner: string, repo: string)
    ensures CacheKey(owner, repo, None) == CacheKey(owner, repo, Some("None"))
  {
  }
}
