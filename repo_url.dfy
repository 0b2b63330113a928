/**
 * The repository-identifier resolver of the stats hook: the three regular expressions
 * tried in order, the `.git` and trailing-slash clean-up, and the declarative
 * "github.com/<owner>/<repo>" shape they accept.
 *
 * A JavaScript `String.prototype.match` with a non-global regex returns the leftmost
 * match. Each pattern here starts with the literal `github.com/` followed by greedy runs
 * of `[^/]` (or `[^/.]`), so at a given start position the groups are the maximal runs
 * and backtracking never chooses a shorter split; `MatchAt` computes exactly that, and
 * `FirstMatch` scans start positions from the left.
 */
module RepoUrl {
  import opened Wrappers

  /** The literal prefix `github\.com\/` of all three patterns. */
  const Host: string := "github.com/"

  /** `/github\.com\/([^\/]+)\/([^\/]+)/`, the same with `(\/|$)` appended, and
      `/github\.com\/([^\/]+)\/([^\/\.]+)(\.git)?/`. */
  datatype Pattern = Standard | TrailingSlash | DotGit

  /** The array the resolver loops over, in source order. */
  const Patterns: seq<Pattern> := [Standard, TrailingSlash, DotGit]

  /** The capture groups `match[1]` and `match[2]`. */
  datatype Groups = Groups(owner: string, raw: string)

  /** The resolver's result `{ owner, repo }`. */
  datatype RepoInfo = RepoInfo(owner: string, repo: string)

  /** Length of the longest run starting at `i` of characters that are not `/`
      (and, when `stopAtDot`, not `.`): the greedy `[^\/]+` / `[^\/\.]+`. */
  function Run(s: string, i: nat, stopAtDot: bool): (n: nat)
    requires i <= |s|
    ensures i + n <= |s|
    decreases |s| - i
  {
    if i == |s| || s[i] == '/' || (stopAtDot && s[i] == '.') then 0
    else 1 + Run(s, i + 1, stopAtDot)
  }

  /** The run holds no stop character and ends at one or at the end of the text. */
  lemma {:induction false} RunFacts(s: string, i: nat, stopAtDot: bool)
    requires i <= |s|
    ensures var n := Run(s, i, stopAtDot);
      && (forall k :: i <= k < i + n ==> s[k] != '/' && (stopAtDot ==> s[k] != '.'))
      && (i + n < |s| ==> s[i + n] == '/' || (stopAtDot && s[i + n] == '.'))
    decreases |s| - i
  {
    if !(i == |s| || s[i] == '/' || (stopAtDot && s[i] == '.')) {
      RunFacts(s, i + 1, stopAtDot);
    }
  }

  /** The match of pattern `p` whose text starts at index `i`, if there is one. */
  function MatchAt(p: Pattern, s: string, i: nat): (m: Option<Groups>)
    ensures m.Some? ==> m.value.owner != [] && m.value.raw != []
  {
    if i + |Host| <= |s| && s[i..i + |Host|] == Host then
      var j := i + |Host|;
      var a := Run(s, j, false);
      if a > 0 && j + a < |s| then
        var k := j + a + 1;
        var b := Run(s, k, p == DotGit);
        if b > 0 && (p == TrailingSlash ==> k + b == |s| || s[k + b] == '/') then
          Some(Groups(s[j..j + a], s[k..k + b]))
        else None
      else None
    else None
  }

  /** `s.match(p)` restricted to matches starting at or after `i`: the leftmost one. */
  function FirstMatch(p: Pattern, s: string, i: nat): (m: Option<Groups>)
    ensures m.Some? ==> m.value.owner != [] && m.value.raw != []
    decreases |s| + 1 - i
  {
    if i > |s| then None
    else
      match MatchAt(p, s, i)
      case Some(g) => Some(g)
      case None => FirstMatch(p, s, i + 1)
  }

  /** `repo.replace(/\.git$/, '')`: one trailing `.git` is removed. */
  function StripGitSuffix(t: string): (r: string)
    ensures |t| >= 4 && t[|t| - 4..] == ".git" ==> r + ".git" == t
    ensures !(|t| >= 4 && t[|t| - 4..] == ".git") ==> r == t
  {
    if |t| >= 4 && t[|t| - 4..] == ".git" then
      assert t[..|t| - 4] + t[|t| - 4..] == t;
      t[..|t| - 4]
    else t
  }

  /** `repo.replace(/\/$/, '')`: one trailing `/` is removed. */
  function StripTrailingSlash(t: string): (r: string)
    ensures |t| > 0 && t[|t| - 1] == '/' ==> r + "/" == t
    ensures !(|t| > 0 && t[|t| - 1] == '/') ==> r == t
  {
    if |t| > 0 && t[|t| - 1] == '/' then
      assert t[..|t| - 1] + [t[|t| - 1]] == t;
      t[..|t| - 1]
    else t
  }

  function Clean(g: Groups): RepoInfo {
    RepoInfo(g.owner, StripTrailingSlash(StripGitSuffix(g.raw)))
  }

  /** The `for (const pattern of patterns)` loop: the first pattern that matches with
      non-empty groups decides. */
  function TryPatterns(ps: seq<Pattern>, url: string): Option<RepoInfo> {
    if ps == [] then None
    else
      var m := FirstMatch(ps[0], url, 0);
      if m.Some? && m.value.owner != [] && m.value.raw != [] then Some(Clean(m.value))
      else TryPatterns(ps[1..], url)
  }

  /** Reference definition: the first pattern alone, cleaned. */
  function RepoInfoOf(url: string): (r: Option<RepoInfo>)
    ensures r.Some? ==> r.value.owner != []
  {
    match FirstMatch(Standard, url, 0)
    case None => None
    case Some(g) => Some(Clean(g))
  }

  /** `extractRepoInfo`, written as the source's loop over the three patterns. */
  method ExtractRepoInfo(url: string) returns (r: Option<RepoInfo>)
    ensures r == RepoInfoOf(url)
  {
    var idx := 0;
    while idx < |Patterns|
      invariant 0 <= idx <= |Patterns|
      invariant TryPatterns(Patterns[idx..], url) == TryPatterns(Patterns, url)
    {
      var m := FirstMatch(Patterns[idx], url, 0);
      if m.Some? && m.value.owner != [] && m.value.raw != [] {
        var repo := StripGitSuffix(m.value.raw);
        repo := StripTrailingSlash(repo);
        PatternsAgree(url);
        return Some(RepoInfo(m.value.owner, repo));
      }
      idx := idx + 1;
    }
    PatternsAgree(url);
    return None;
  }

  // ----- the declarative shape -----

  ghost predicate SlashFree(t: string) {
    forall k :: 0 <= k < |t| ==> t[k] != '/'
  }

  /** `github.com/` + `owner` + `/` + `raw` occurs at index `i`, both segments non-empty and
      slash-free. */
  ghost predicate ShapeAt(s: string, i: nat, owner: string, raw: string) {
    && owner != [] && raw != [] && SlashFree(owner) && SlashFree(raw)
    && i + |Host| + |owner| + 1 + |raw| <= |s|
    && s[i..i + |Host|] == Host
    && s[i + |Host|..i + |Host| + |owner|] == owner
    && s[i + |Host| + |owner|] == '/'
    && s[i + |Host| + |owner| + 1..i + |Host| + |owner| + 1 + |raw|] == raw
  }

  ghost predicate HasRepoShape(s: string) {
    exists i: nat, owner: string, raw: string :: ShapeAt(s, i, owner, raw)
  }

  /** A run of characters that are not `/`, ended by `/` or by the end, is what `Run` measures. */
  lemma {:induction false} RunIs(s: string, i: nat, n: nat, stopAtDot: bool)
    requires i + n <= |s|
    requires forall k :: i <= k < i + n ==> s[k] != '/' && (stopAtDot ==> s[k] != '.')
    requires i + n < |s| ==> s[i + n] == '/' || (stopAtDot && s[i + n] == '.')
    ensures Run(s, i, stopAtDot) == n
    decreases n
  {
    if n > 0 {
      RunIs(s, i + 1, n - 1, stopAtDot);
    }
  }

  /** Characters that are not `/` from `i` on make the longest such run at least that long. */
  lemma {:induction false} RunCovers(s: string, i: nat, n: nat)
    requires i + n <= |s|
    requires forall k :: i <= k < i + n ==> s[k] != '/'
    ensures Run(s, i, false) >= n
    decreases n
  {
    if n > 0 {
      RunCovers(s, i + 1, n - 1);
    }
  }

  /** A match of the first pattern is an occurrence of the shape. */
  lemma ShapeOfMatch(s: string, i: nat)
    requires MatchAt(Standard, s, i).Some?
    ensures ShapeAt(s, i, MatchAt(Standard, s, i).value.owner, MatchAt(Standard, s, i).value.raw)
  {
    var j := i + |Host|;
    var a := Run(s, j, false);
    var k := j + a + 1;
    var b := Run(s, k, false);
    RunFacts(s, j, false);
    RunFacts(s, k, false);
    var owner, raw := s[j..j + a], s[k..k + b];
    assert MatchAt(Standard, s, i).value == Groups(owner, raw);
    assert SlashFree(owner) by {
      forall q | 0 <= q < |owner| ensures owner[q] != '/' {
        assert owner[q] == s[j + q];
      }
    }
    assert SlashFree(raw) by {
      forall q | 0 <= q < |raw| ensures raw[q] != '/' {
        assert raw[q] == s[k + q];
      }
    }
  }

  /** An occurrence of the shape is a match of the first pattern with the same owner, whose
      repo group extends the occurrence's repo segment. */
  lemma MatchOfShape(s: string, i: nat, owner: string, raw: string)
    requires ShapeAt(s, i, owner, raw)
    ensures MatchAt(Standard, s, i).Some?
    ensures MatchAt(Standard, s, i).value.owner == owner
  {
    var j := i + |Host|;
    forall k | j <= k < j + |owner| ensures s[k] != '/' {
      assert s[k] == s[j..j + |owner|][k - j];
    }
    RunIs(s, j, |owner|, false);
    var k := j + |owner| + 1;
    forall q | k <= q < k + |raw| ensures s[q] != '/' {
      assert s[q] == s[k..k + |raw|][q - k];
    }
    RunCovers(s, k, |raw|);
  }

  /** When the second segment is followed by `/` or the end, the groups are exactly the
      two segments. */
  lemma MatchOfEndedShape(s: string, i: nat, owner: string, raw: string)
    requires ShapeAt(s, i, owner, raw)
    requires var end := i + |Host| + |owner| + 1 + |raw|; end == |s| || s[end] == '/'
    ensures MatchAt(Standard, s, i) == Some(Groups(owner, raw))
  {
    var j := i + |Host|;
    forall k | j <= k < j + |owner| ensures s[k] != '/' {
      assert s[k] == s[j..j + |owner|][k - j];
    }
    RunIs(s, j, |owner|, false);
    var k := j + |owner| + 1;
    forall q | k <= q < k + |raw| ensures s[q] != '/' {
      assert s[q] == s[k..k + |raw|][q - k];
    }
    RunIs(s, k, |raw|, false);
  }

  /** The same, for a text assembled from its parts. */
  lemma MatchOfParts(pre: string, owner: string, raw: string, rest: string)
    requires owner != [] && raw != [] && SlashFree(owner) && SlashFree(raw)
    requires rest == [] || rest[0] == '/'
    ensures MatchAt(Standard, pre + Host + owner + "/" + raw + rest, |pre|) == Some(Groups(owner, raw))
  {
    var s := pre + Host + owner + "/" + raw + rest;
    var i := |pre|;
    var j := i + |Host|;
    assert s[i..j] == Host;
    assert s[j..j + |owner|] == owner;
    assert s[j + |owner|] == '/';
    assert s[j + |owner| + 1..j + |owner| + 1 + |raw|] == raw;
    MatchOfEndedShape(s, i, owner, raw);
  }

  /** The first pattern matches at `i` exactly when the shape occurs at `i`. */
  lemma StandardMatchAtIffShape(s: string, i: nat)
    ensures MatchAt(Standard, s, i).Some? <==> exists owner, raw :: ShapeAt(s, i, owner, raw)
  {
    if MatchAt(Standard, s, i).Some? {
      ShapeOfMatch(s, i);
    }
    if owner, raw :| ShapeAt(s, i, owner, raw) {
      MatchOfShape(s, i, owner, raw);
    }
  }

  /** The scan from `i` finds nothing exactly when no match starts at any `q >= i`. */
  lemma {:induction false} FirstMatchNoneIff(p: Pattern, s: string, i: nat)
    ensures FirstMatch(p, s, i).None? <==> forall q: nat :: q >= i ==> MatchAt(p, s, q).None?
    decreases |s| + 1 - i
  {
    if i <= |s| && MatchAt(p, s, i).None? {
      FirstMatchNoneIff(p, s, i + 1);
    }
  }

  /** A successful scan from `i` returns the match at the smallest start position `q >= i`. */
  lemma {:induction false} FirstMatchLeftmost(p: Pattern, s: string, i: nat) returns (q: nat)
    requires FirstMatch(p, s, i).Some?
    ensures q >= i && MatchAt(p, s, q) == FirstMatch(p, s, i)
    ensures forall q': nat :: i <= q' < q ==> MatchAt(p, s, q').None?
    decreases |s| + 1 - i
  {
    if MatchAt(p, s, i).Some? {
      q := i;
    } else {
      q := FirstMatchLeftmost(p, s, i + 1);
    }
  }

  /** The `(\/|$)` pattern accepts exactly what the first one accepts, with the same groups. */
  lemma TrailingSlashMatchAt(s: string, i: nat)
    ensures MatchAt(TrailingSlash, s, i) == MatchAt(Standard, s, i)
  {
    if i + |Host| <= |s| {
      var j := i + |Host|;
      var a := Run(s, j, false);
      if j + a < |s| {
        RunFacts(s, j + a + 1, false);
      }
    }
  }

  /** Anything the `.git` pattern accepts, the first pattern accepts at the same place. */
  lemma DotGitMatchAt(s: string, i: nat)
    ensures MatchAt(DotGit, s, i).Some? ==> MatchAt(Standard, s, i).Some?
  {
    if MatchAt(DotGit, s, i).Some? {
      var j := i + |Host|;
      var k := j + Run(s, j, false) + 1;
      var b := Run(s, k, true);
      RunFacts(s, k, true);
      RunCovers(s, k, b);
    }
  }

  lemma {:induction false} FirstMatchSubsumed(s: string, i: nat)
    ensures FirstMatch(TrailingSlash, s, i) == FirstMatch(Standard, s, i)
    ensures FirstMatch(DotGit, s, i).Some? ==> FirstMatch(Standard, s, i).Some?
    decreases |s| + 1 - i
  {
    if i <= |s| {
      TrailingSlashMatchAt(s, i);
      DotGitMatchAt(s, i);
      FirstMatchSubsumed(s, i + 1);
    }
  }

  /** A pattern that finds no match hands the decision to the rest of the list. */
  lemma TryPatternsSkip(ps: seq<Pattern>, url: string)
    requires ps != [] && FirstMatch(ps[0], url, 0).None?
    ensures TryPatterns(ps, url) == TryPatterns(ps[1..], url)
  {
  }

  /** The loop over all three patterns computes what the first pattern alone computes: the
      second and third never decide the result. */
  lemma PatternsAgree(url: string)
    ensures TryPatterns(Patterns, url) == RepoInfoOf(url)
  {
    FirstMatchSubsumed(url, 0);
    var ps := Patterns;
    assert ps[0] == Standard && ps[1..][0] == TrailingSlash && ps[1..][1..][0] == DotGit;
    if FirstMatch(Standard, url, 0).None? {
      TryPatternsSkip(ps, url);
      TryPatternsSkip(ps[1..], url);
      TryPatternsSkip(ps[1..][1..], url);
      assert ps[1..][1..][1..] == [];
    } else {
      assert TryPatterns(ps, url) == Some(Clean(FirstMatch(Standard, url, 0).value));
    }
  }

  /** The resolver fails exactly when no `github.com/<owner>/<repo>` with non-empty,
      slash-free segments occurs in the URL. */
  lemma RepoInfoNoneIff(url: string)
    ensures RepoInfoOf(url).None? <==> !HasRepoShape(url)
  {
    if RepoInfoOf(url).None? {
      FirstMatchNoneIff(Standard, url, 0);
      forall i: nat, owner, raw | ShapeAt(url, i, owner, raw) ensures false {
        MatchOfShape(url, i, owner, raw);
      }
    } else {
      var q := FirstMatchLeftmost(Standard, url, 0);
      ShapeOfMatch(url, q);
    }
  }

  /** The leftmost match of the first pattern, with its start index; the shape occurs
      nowhere before it. */
  lemma LeftmostMatch(url: string) returns (i: nat)
    requires FirstMatch(Standard, url, 0).Some?
    ensures MatchAt(Standard, url, i) == FirstMatch(Standard, url, 0)
    ensures forall i': nat, o: string, r: string :: i' < i ==> !ShapeAt(url, i', o, r)
  {
    i := FirstMatchLeftmost(Standard, url, 0);
    forall i': nat, o: string, r: string | i' < i ensures !ShapeAt(url, i', o, r) {
      if ShapeAt(url, i', o, r) {
        MatchOfShape(url, i', o, r);
      }
    }
  }

  /** Removing `.git` from a slash-free segment leaves it slash-free, and then the
      trailing-slash strip has nothing to remove. */
  lemma CleanRepoSlashFree(raw: string)
    requires SlashFree(raw)
    ensures SlashFree(StripGitSuffix(raw))
    ensures StripTrailingSlash(StripGitSuffix(raw)) == StripGitSuffix(raw)
  {
    var stripped := StripGitSuffix(raw);
    forall k | 0 <= k < |stripped| ensures stripped[k] != '/' {
      if |raw| >= 4 && raw[|raw| - 4..] == ".git" {
        assert raw[k] == (stripped + ".git")[k];
      }
    }
    if |stripped| > 0 {
      assert stripped[|stripped| - 1] != '/';
    }
  }

  /** Position `e` is the end of `s` or holds a `/`. */
  ghost predicate SegmentEnd(s: string, e: nat) {
    e < |s| ==> s[e] == '/'
  }

  /** The repo group of a match runs up to the next `/` or the end of the string. */
  lemma RawEndsAtSlash(s: string, i: nat, g: Groups)
    requires MatchAt(Standard, s, i) == Some(g)
    ensures i + |Host| + |g.owner| + 1 + |g.raw| <= |s|
    ensures SegmentEnd(s, i + |Host| + |g.owner| + 1 + |g.raw|)
  {
    var j := i + |Host|;
    var k := j + Run(s, j, false) + 1;
    RunFacts(s, k, false);
    assert g.raw == s[k..k + Run(s, k, false)];
  }

  /** The leftmost match of the first pattern, as a shape occurrence whose repo segment
      runs up to the next `/` or the end. */
  lemma LeftmostGroups(url: string) returns (i: nat, owner: string, raw: string)
    requires FirstMatch(Standard, url, 0).Some?
    ensures FirstMatch(Standard, url, 0) == Some(Groups(owner, raw))
    ensures ShapeAt(url, i, owner, raw)
    ensures SegmentEnd(url, i + |Host| + |owner| + 1 + |raw|)
    ensures forall i': nat, o: string, r: string :: i' < i ==> !ShapeAt(url, i', o, r)
  {
    i := LeftmostMatch(url);
    var g := MatchAt(Standard, url, i).value;
    owner, raw := g.owner, g.raw;
    ShapeOfMatch(url, i);
    RawEndsAtSlash(url, i, g);
  }

  /** On success: `owner` is the first segment of the leftmost occurrence `i` of the shape
      and the repo is the next segment `raw`, taken up to the next `/` or the end, with one
      `.git` removed; neither holds a `/` and the trailing-slash strip changed nothing. */
  lemma RepoInfoSome(url: string) returns (i: nat, owner: string, raw: string)
    requires RepoInfoOf(url).Some?
    ensures RepoInfoOf(url) == Some(RepoInfo(owner, StripGitSuffix(raw)))
    ensures ShapeAt(url, i, owner, raw)
    ensures SegmentEnd(url, i + |Host| + |owner| + 1 + |raw|)
    ensures forall i': nat, o: string, r: string :: i' < i ==> !ShapeAt(url, i', o, r)
    ensures SlashFree(StripGitSuffix(raw))
  {
    i, owner, raw := LeftmostGroups(url);
    CleanRepoSlashFree(raw);
  }

  /** Start positions where no match begins can be skipped by the scan. */
  lemma {:induction false} FirstMatchSkip(p: Pattern, s: string, i: nat, j: nat)
    requires i <= j <= |s|
    requires forall q: nat :: i <= q < j ==> MatchAt(p, s, q).None?
    ensures FirstMatch(p, s, i) == FirstMatch(p, s, j)
    decreases j - i
  {
    if i < j {
      FirstMatchSkip(p, s, i + 1, j);
    }
  }

  /** A match can only start where `github.com/` starts. */
  lemma MatchStartsWithHost(p: Pattern, s: string, i: nat)
    requires MatchAt(p, s, i).Some?
    ensures i < |s| && s[i] == 'g'
  {
    assert s[i..i + |Host|][0] == s[i];
  }

  /** An `https://github.com/<owner>/<raw>` URL, with nothing or a path after `raw`,
      resolves to `owner` and `raw` less one `.git`. */
  lemma ResolvesHttpsUrl(owner: string, raw: string, rest: string)
    requires owner != [] && raw != [] && SlashFree(owner) && SlashFree(raw)
    requires rest == [] || rest[0] == '/'
    ensures FirstMatch(Standard, "https://" + Host + owner + "/" + raw + rest, 0) == Some(Groups(owner, raw))
    ensures RepoInfoOf("https://" + Host + owner + "/" + raw + rest)
      == Some(RepoInfo(owner, StripGitSuffix(raw)))
  {
    var s := "https://" + Host + owner + "/" + raw + rest;
    forall q: nat | q < 8 ensures MatchAt(Standard, s, q).None? {
      assert s[q] == "https://"[q];
      if MatchAt(Standard, s, q).Some? {
        MatchStartsWithHost(Standard, s, q);
      }
    }
    FirstMatchSkip(Standard, s, 0, 8);
    MatchOfParts("https://", owner, raw, rest);
    assert FirstMatch(Standard, s, 8) == Some(Groups(owner, raw));
    assert RepoInfoOf(s) == Some(Clean(Groups(owner, raw)));
    CleanRepoSlashFree(raw);
  }

  /** `https://github.com/vercel/next.js.git/` resolves to `vercel` / `next.js`. */
  lemma ResolvesNextJsWithGitAndSlash(owner: string, raw: string)
    requires owner == "vercel" && raw == "next.js.git"
    ensures RepoInfoOf("https://" + Host + owner + "/" + raw + "/") == Some(RepoInfo("vercel", "next.js"))
  {
    ResolvesHttpsUrl(owner, raw, "/");
    assert StripGitSuffix(raw) == "next.js";
  }

  /** `.../owner/.git` resolves with an empty repo name. */
  lemma EmptyRepoAfterGitStrip(s: string)
    requires s == "github.com/acme/.git"
    ensures RepoInfoOf(s) == Some(RepoInfo("acme", ""))
  {
    assert s[0..11] == Host;
    RunIs(s, 11, 4, false);
    RunIs(s, 16, 4, false);
    assert s[11..15] == "acme" && s[16..20] == ".git";
    assert MatchAt(Standard, s, 0) == Some(Groups("acme", ".git"));
  }
}
