/** The pure parts of the release-poster script of the TypeScript app
    (src/scripts/generateReleasePoster.ts): reading `owner/repo` out of a git
    remote URL with two regular expressions, the fallbacks for the repository
    name, the tag and the commit summary, the parse of `git diff --name-status`
    output, and the pull-request summary the release prompt is built from.
    The output of each `git` command is a parameter (`None` when the command
    failed). */
module ReleasePoster {
  import opened Wrappers
  import opened Text
  import opened Config
  import opened PosterPrompt

  // ---------------------------------------------------------------------------
  // Regular-expression matching of remote URLs
  // ---------------------------------------------------------------------------

  /** The first index at or after `p` at which `matchAt` succeeds, or `|s| + 1`
      when there is none: JavaScript's leftmost-match search. */
  function FirstMatch(s: string, p: nat, matchAt: (string, nat) -> Option<string>): (q: nat)
    requires p <= |s| + 1
    ensures p <= q <= |s| + 1
    ensures q <= |s| ==> matchAt(s, q).Some?
    ensures forall j :: p <= j < q && j <= |s| ==> matchAt(s, j).None?
    decreases |s| + 1 - p
  {
    if p == |s| + 1 then p
    else if matchAt(s, p).Some? then p
    else FirstMatch(s, p + 1, matchAt)
  }

  /** `s.match(re)?.[1]` for a pattern whose first group is what `matchAt` returns. */
  function Search(s: string, matchAt: (string, nat) -> Option<string>): (r: Option<string>)
    ensures r.Some? ==> exists q :: 0 <= q <= |s| && matchAt(s, q) == r
                                   && forall j :: 0 <= j < q ==> matchAt(s, j).None?
    ensures r.None? <==> forall q :: 0 <= q <= |s| ==> matchAt(s, q).None?
  {
    var q := FirstMatch(s, 0, matchAt);
    if q <= |s| then matchAt(s, q) else None
  }

  /** The shape of a captured `owner/repo`: a non-empty owner without `/`,
      then `/`, then a non-empty rest without `.`. */
  predicate RepoShaped(r: string) {
    var i := IndexOf(r, '/');
    0 < i && i + 1 < |r| && '.' !in r[i + 1..]
  }

  /** The group `([^/]+\/[^.]+)` at the start of `t`: the longest run
      without `/` (at least one character), a `/`, and the longest run
      without `.` (at least one character). The optional `(?:\.git)?` after
      it always matches, so it never makes the group shorter. */
  function RepoAt(t: string): (r: Option<string>)
    ensures r.Some? ==> RepoShaped(r.value)
  {
    var owner := IndexOf(t, '/');
    if owner == 0 || owner == |t| then None
    else
      var rest := IndexOf(t[owner + 1..], '.');
      if rest == 0 then None
      else
        var r := t[..owner + 1 + rest];
        assert r[..owner] == t[..owner];
        assert IndexOf(r, '/') == owner;
        assert r[owner + 1..] == t[owner + 1..][..rest];
        Some(r)
  }

  /** `/git@[^:]+:([^/]+\/[^.]+)(?:\.git)?/` at position `p`. */
  function SshAt(s: string, p: nat): Option<string> {
    if p + 4 > |s| || s[p..p + 4] != "git@" then None
    else
      var host := IndexOf(s[p + 4..], ':');
      if host == 0 || p + 4 + host == |s| then None
      else RepoAt(s[p + 4 + host + 1..])
  }

  /** Where the host starts after `https?:\/\/` at position `p`. */
  function SchemeEnd(s: string, p: nat): Option<nat> {
    if p + 8 <= |s| && s[p..p + 8] == "https://" then Some(p + 8)
    else if p + 7 <= |s| && s[p..p + 7] == "http://" then Some(p + 7)
    else None
  }

  /** `/https?:\/\/[^/]+\/([^/]+\/[^.]+)(?:\.git)?/` at position `p`. */
  function HttpsAt(s: string, p: nat): Option<string> {
    match SchemeEnd(s, p)
    case None => None
    case Some(hostStart) =>
      if hostStart > |s| then None
      else
        var host := IndexOf(s[hostStart..], '/');
        if host == 0 || hostStart + host == |s| then None
        else RepoAt(s[hostStart + host + 1..])
  }

  /** `parseRepoFromRemote`: the SSH pattern wins whenever it matches;
      otherwise the HTTPS pattern; otherwise `undefined`. */
  function ParseRepoFromRemote(remoteUrl: string): (r: Option<string>)
    ensures Search(remoteUrl, SshAt).Some? ==> r == Search(remoteUrl, SshAt)
    ensures Search(remoteUrl, SshAt).None? ==> r == Search(remoteUrl, HttpsAt)
    ensures r.Some? ==> RepoShaped(r.value)
  {
    var ssh := Search(remoteUrl, SshAt);
    if Truthy(ssh) then ssh else Search(remoteUrl, HttpsAt)
  }

  /** The captured name never ends in `.git`. */
  lemma RepoShapedHasNoGitSuffix(r: string)
    requires RepoShaped(r)
    ensures |r| < 4 || r[|r| - 4..] != ".git"
  {
    if |r| >= 4 {
      var i := IndexOf(r, '/');
      var tail := r[|r| - 4..];
      if i + 1 <= |r| - 4 {
        assert tail[0] == r[i + 1..][|r| - 4 - (i + 1)];
      } else {
        assert tail[i - (|r| - 4)] == '/';
      }
    }
  }

  /** The group reads `owner/repo` off `owner/repo.git` and `owner/repo`. */
  lemma RepoAtOf(t: string, owner: string, repo: string, suffix: string)
    requires t == owner + "/" + repo + suffix
    requires owner != "" && '/' !in owner
    requires repo != "" && '.' !in repo
    requires suffix == "" || suffix[0] == '.'
    ensures RepoAt(t) == Some(owner + "/" + repo)
  {
    var start := |owner| + 1;
    assert t == owner + ['/'] + (repo + suffix);
    IndexOfAfterPrefix(owner, '/', repo + suffix);
    assert t[start..] == repo + suffix;
    IndexOfBeforeChar(repo, '.', suffix);
    assert t[..start + |repo|] == owner + "/" + repo;
  }

  /** `git@host:owner/repo` with or without `.git` is read back as `owner/repo`. */
  lemma ParseSshRemote(host: string, owner: string, repo: string, suffix: string)
    requires host != "" && ':' !in host
    requires owner != "" && '/' !in owner
    requires repo != "" && '.' !in repo
    requires suffix == "" || suffix[0] == '.'
    ensures ParseRepoFromRemote("git@" + host + ":" + owner + "/" + repo + suffix) == Some(owner + "/" + repo)
  {
    var tail := owner + "/" + repo + suffix;
    var s := "git@" + host + ":" + tail;
    assert s == "git@" + host + ":" + owner + "/" + repo + suffix;
    assert s[0..4] == "git@";
    assert s[4..] == host + [':'] + tail;
    IndexOfAfterPrefix(host, ':', tail);
    var q := 4 + |host| + 1;
    assert s[q..] == tail;
    RepoAtOf(s[q..], owner, repo, suffix);
    assert SshAt(s, 0) == Some(owner + "/" + repo);
  }

  /** `IndexOf` stops at the end of a run free of `c` that is followed by `c`
      or by nothing. */
  lemma IndexOfBeforeChar(x: string, c: char, y: string)
    requires c !in x
    requires y == "" || y[0] == c
    ensures IndexOf(x + y, c) == |x|
  {
    if y == "" {
      assert x + y == x;
    } else {
      IndexOfAfterPrefix(x, c, y[1..]);
      assert x + y == x + [c] + y[1..];
    }
  }

  /** Without an `@` the SSH pattern matches nowhere. */
  lemma NoSshMatchWithoutAt(s: string)
    requires '@' !in s
    ensures Search(s, SshAt).None?
  {
    forall q | 0 <= q <= |s| ensures SshAt(s, q).None? {
      if q + 4 <= |s| {
        assert s[q..q + 4][3] == s[q + 3];
        assert s[q..q + 4] != "git@";
      }
    }
  }

  /** The scheme at the start of a string ends where its text ends. */
  lemma SchemeEndOf(scheme: string, rest: string)
    requires scheme == "https://" || scheme == "http://"
    ensures SchemeEnd(scheme + rest, 0) == Some(|scheme|)
  {
    var s := scheme + rest;
    assert s[..|scheme|] == scheme;
    if scheme == "http://" {
      assert s[4] == ':';
    }
  }

  lemma HttpsAtOf(scheme: string, host: string, owner: string, repo: string, suffix: string)
    requires scheme == "https://" || scheme == "http://"
    requires host != "" && '/' !in host
    requires owner != "" && '/' !in owner
    requires repo != "" && '.' !in repo
    requires suffix == "" || suffix[0] == '.'
    ensures HttpsAt(scheme + host + "/" + owner + "/" + repo + suffix, 0) == Some(owner + "/" + repo)
  {
    var tail := owner + "/" + repo + suffix;
    assert scheme + host + "/" + owner + "/" + repo + suffix == scheme + (host + ['/'] + tail);
    HttpsAtOfParts(scheme, host, tail, owner, repo, suffix);
  }

  lemma HttpsAtOfParts(scheme: string, host: string, tail: string, owner: string, repo: string, suffix: string)
    requires scheme == "https://" || scheme == "http://"
    requires host != "" && '/' !in host
    requires tail == owner + "/" + repo + suffix
    requires owner != "" && '/' !in owner
    requires repo != "" && '.' !in repo
    requires suffix == "" || suffix[0] == '.'
    ensures HttpsAt(scheme + (host + ['/'] + tail), 0) == Some(owner + "/" + repo)
  {
    var rest := host + ['/'] + tail;
    var s := scheme + rest;
    var q := |scheme| + |host| + 1;
    SchemeEndOf(scheme, rest);
    assert IndexOf(s[|scheme|..], '/') == |host| by {
      assert s[|scheme|..] == rest;
      IndexOfAfterPrefix(host, '/', tail);
    }
    assert RepoAt(s[q..]) == Some(owner + "/" + repo) by {
      assert s[q..] == tail;
      RepoAtOf(tail, owner, repo, suffix);
    }
    HttpsAtAfterHost(s, |scheme|, |host|);
  }

  /** Once the scheme and the host are found, the match is the group after
      the host's `/`. */
  lemma HttpsAtAfterHost(s: string, hostStart: nat, host: nat)
    requires SchemeEnd(s, 0) == Some(hostStart)
    requires 0 < host && hostStart + host < |s|
    requires IndexOf(s[hostStart..], '/') == host
    ensures HttpsAt(s, 0) == RepoAt(s[hostStart + host + 1..])
  {
  }

  /** `https://host/owner/repo` (or `http://`), with or without `.git`, is read
      back as `owner/repo` when no part holds an `@`. */
  lemma ParseHttpsRemote(scheme: string, host: string, owner: string, repo: string, suffix: string)
    requires scheme == "https://" || scheme == "http://"
    requires host != "" && '/' !in host
    requires owner != "" && '/' !in owner
    requires repo != "" && '.' !in repo
    requires suffix == "" || suffix[0] == '.'
    requires '@' !in host && '@' !in owner && '@' !in repo && '@' !in suffix
    ensures ParseRepoFromRemote(scheme + host + "/" + owner + "/" + repo + suffix) == Some(owner + "/" + repo)
  {
    var s := scheme + host + "/" + owner + "/" + repo + suffix;
    assert '@' !in s by {
      assert '@' !in scheme;
      assert s == scheme + (host + ("/" + (owner + ("/" + (repo + suffix)))));
    }
    NoSshMatchWithoutAt(s);
    HttpsAtOf(scheme, host, owner, repo, suffix);
  }

  // ---------------------------------------------------------------------------
  // Fallbacks
  // ---------------------------------------------------------------------------

  const UnknownRepo: string := "unknown/repo"
  const UntaggedRelease: string := "untagged-release"
  const Automation: string := "automation"

  /** `getRepoFullName`: a non-empty `GITHUB_REPOSITORY`, else the name parsed
      from the trimmed `origin` remote (`None` when `git` failed), else
      `unknown/repo`. */
  function GetRepoFullName(env: Env, remoteOutput: Option<string>): (r: string)
    ensures Truthy(Var(env, "GITHUB_REPOSITORY")) ==> r == env["GITHUB_REPOSITORY"]
    ensures !Truthy(Var(env, "GITHUB_REPOSITORY")) && remoteOutput.Some?
            && ParseRepoFromRemote(Strip(remoteOutput.value)).Some? ==>
              r == ParseRepoFromRemote(Strip(remoteOutput.value)).value
    ensures !Truthy(Var(env, "GITHUB_REPOSITORY"))
            && (remoteOutput.None? || ParseRepoFromRemote(Strip(remoteOutput.value)).None?) ==>
              r == UnknownRepo
  {
    var envRepo := Var(env, "GITHUB_REPOSITORY");
    if Truthy(envRepo) then envRepo.value
    else match remoteOutput
      case None => UnknownRepo
      case Some(output) =>
        var parsed := ParseRepoFromRemote(Strip(output));
        if Truthy(parsed) then parsed.value else UnknownRepo
  }

  /** `getTagName`: `TAG_NAME || GITHUB_REF_NAME || 'untagged-release'`; an
      empty value falls through like an unset one. */
  function GetTagName(env: Env): (r: string)
    ensures Truthy(Var(env, "TAG_NAME")) ==> r == env["TAG_NAME"]
    ensures !Truthy(Var(env, "TAG_NAME")) && Truthy(Var(env, "GITHUB_REF_NAME")) ==> r == env["GITHUB_REF_NAME"]
    ensures !Truthy(Var(env, "TAG_NAME")) && !Truthy(Var(env, "GITHUB_REF_NAME")) ==> r == UntaggedRelease
    ensures r != ""
  {
    var tag := Var(env, "TAG_NAME");
    var refName := Var(env, "GITHUB_REF_NAME");
    if Truthy(tag) then tag.value
    else if Truthy(refName) then refName.value
    else UntaggedRelease
  }

  /** `getLatestCommitSummary`: the trimmed subject and body of the last
      commit, or the fixed sentence when it is empty or `git` failed. */
  function LatestCommitSummary(logOutput: Option<string>): (r: string)
    ensures logOutput.None? || IsBlank(logOutput.value) ==> r == NoDescription
    ensures logOutput.Some? && !IsBlank(logOutput.value) ==> r == Strip(logOutput.value)
    ensures r != ""
  {
    match logOutput
    case None => NoDescription
    case Some(output) => if Strip(output) == "" then NoDescription else Strip(output)
  }

  // ---------------------------------------------------------------------------
  // `git diff --name-status` output
  // ---------------------------------------------------------------------------

  /** The index of the first whitespace character, or the length. */
  function FirstSpace(s: string): (i: nat)
    ensures i <= |s|
    ensures i < |s| ==> IsSpace(s[i])
    ensures forall j :: 0 <= j < i ==> !IsSpace(s[j])
  {
    if s == [] || IsSpace(s[0]) then 0 else 1 + FirstSpace(s[1..])
  }

  /** `line.split(/\s+/, 2)` on a trimmed, non-empty line: the first token,
      and the second token when there is whitespace after the first. */
  function SplitTwoTokens(line: string): (tokens: (string, Option<string>))
    ensures tokens.0 == line[..FirstSpace(line)]
    ensures FirstSpace(line) == |line| <==> tokens.1.None?
    ensures tokens.1.Some? ==>
              var rest := TrimStart(line[FirstSpace(line)..]);
              tokens.1.value == rest[..FirstSpace(rest)]
              && forall j :: 0 <= j < |tokens.1.value| ==> !IsSpace(tokens.1.value[j])
  {
    var i := FirstSpace(line);
    if i == |line| then (line, None)
    else
      var rest := TrimStart(line[i..]);
      (line[..i], Some(rest[..FirstSpace(rest)]))
  }

  /** One `{ filename, status }` record per non-blank line. */
  function NameStatusRecord(line: string): ChangedFileSummary {
    var tokens := SplitTwoTokens(line);
    ChangedFileSummary(filename := tokens.1, status := Some(tokens.0), additions := None, deletions := None)
  }

  function NameStatusRecords(lines: seq<string>): (files: seq<ChangedFileSummary>)
    ensures |files| == |lines|
    ensures forall k :: 0 <= k < |lines| ==> files[k] == NameStatusRecord(lines[k])
  {
    if lines == [] then [] else [NameStatusRecord(lines[0])] + NameStatusRecords(lines[1..])
  }

  /** The trimmed, non-blank lines of the output, in order. */
  function NonBlankLines(output: string): seq<string> {
    DropEmpty(TrimAll(Split(output, '\n')))
  }

  /** The parse inside `getChangedFiles`: one record per non-blank line, whose
      status is the line's first token and whose filename is its second token
      only (missing when the line has one token). */
  function ParseNameStatus(output: string): (files: seq<ChangedFileSummary>)
    ensures |files| == |NonBlankLines(output)|
    ensures forall k :: 0 <= k < |files| ==>
              files[k].status == Some(NonBlankLines(output)[k][..FirstSpace(NonBlankLines(output)[k])])
              && files[k].filename == SplitTwoTokens(NonBlankLines(output)[k]).1
              && files[k].additions.None? && files[k].deletions.None?
  {
    NameStatusRecords(NonBlankLines(output))
  }

  /** `getChangedFiles`: the parse, or no files when `git` failed. */
  function GetChangedFiles(diffOutput: Option<string>): seq<ChangedFileSummary> {
    match diffOutput
    case None => []
    case Some(output) => ParseNameStatus(output)
  }

  predicate IsToken(s: string) {
    s != "" && forall i :: 0 <= i < |s| ==> !IsSpace(s[i])
  }

  /** A `status<TAB>filename` line reads back as that status and filename. */
  lemma NameStatusRecordOfLine(status: string, filename: string)
    requires IsToken(status) && IsToken(filename)
    ensures NameStatusRecord(status + "\t" + filename)
            == ChangedFileSummary(Some(filename), Some(status), None, None)
  {
    var line := status + "\t" + filename;
    assert line == status + ("\t" + filename);
    FirstSpaceOfToken(status, "\t" + filename);
    assert line[..|status|] == status;
    assert line[|status|..] == "\t" + filename;
    TrimStartOfNonSpace(filename);
    assert TrimStart("\t" + filename) == filename by {
      assert ("\t" + filename)[1..] == filename;
    }
    FirstSpaceOfToken(filename, "");
    assert filename + "" == filename;
    assert filename[..|filename|] == filename;
    assert SplitTwoTokens(line) == (status, Some(filename));
  }

  /** A rename or copy line `R100<TAB>old<TAB>new` keeps only its second
      token: the record names the old path and drops the new one. */
  lemma NameStatusRecordOfRenameLine(status: string, filename: string, other: string)
    requires IsToken(status) && IsToken(filename)
    ensures NameStatusRecord(status + "\t" + filename + "\t" + other)
            == ChangedFileSummary(Some(filename), Some(status), None, None)
  {
    var tail := "\t" + other;
    assert tail[0] == '\t';
    FirstSpaceOfToken(filename, tail);
    SplitTwoTokensAfterTab(status, filename + tail);
    Regroup(status + "\t", filename, "\t", other);
  }

  lemma Regroup(a: string, b: string, c: string, d: string)
    ensures a + b + c + d == a + (b + (c + d))
  {
  }

  /** A token, a tab, then text starting with a non-space character: the
      second token is the leading run of that text. */
  lemma SplitTwoTokensAfterTab(status: string, rest: string)
    requires IsToken(status)
    requires rest != [] && !IsSpace(rest[0])
    ensures SplitTwoTokens(status + "\t" + rest) == (status, Some(rest[..FirstSpace(rest)]))
  {
    var line := status + "\t" + rest;
    assert line == status + ("\t" + rest);
    FirstSpaceOfToken(status, "\t" + rest);
    assert line[|status|..] == "\t" + rest;
    assert ("\t" + rest)[1..] == rest;
    TrimStartOfNonSpace(rest);
  }

  lemma FirstSpaceOfToken(token: string, rest: string)
    requires IsToken(token)
    requires rest == "" || IsSpace(rest[0])
    ensures FirstSpace(token + rest) == |token|
    ensures (token + rest)[..|token|] == token
  {
    var t := token + rest;
    assert t[..|token|] == token;
  }

  /** Lines of a stripped `status<TAB>filename` form parse back into those
      records, one per line, in order. */
  lemma NameStatusRecordsOfLines(statuses: seq<string>, filenames: seq<string>)
    requires |statuses| == |filenames|
    requires forall k :: 0 <= k < |statuses| ==> IsToken(statuses[k]) && IsToken(filenames[k])
    ensures var lines := seq(|statuses|, k requires 0 <= k < |statuses| => statuses[k] + "\t" + filenames[k]);
            NameStatusRecords(lines)
            == seq(|statuses|, k requires 0 <= k < |statuses| => ChangedFileSummary(Some(filenames[k]), Some(statuses[k]), None, None))
  {
    var lines := seq(|statuses|, k requires 0 <= k < |statuses| => statuses[k] + "\t" + filenames[k]);
    var expected := seq(|statuses|, k requires 0 <= k < |statuses| => ChangedFileSummary(Some(filenames[k]), Some(statuses[k]), None, None));
    var records := NameStatusRecords(lines);
    forall k | 0 <= k < |statuses| ensures records[k] == expected[k] {
      NameStatusRecordOfLine(statuses[k], filenames[k]);
    }
    assert records == expected;
  }

  // ---------------------------------------------------------------------------
  // The release summary
  // ---------------------------------------------------------------------------

  /** `releaseSummary`: a pull-request summary titled `Release <tag>`, numbered
      0, with the commit summary as body and `GITHUB_ACTOR` (or `automation`
      when unset) as author. */
  function ReleaseSummary(env: Env, tagName: string, commitMessage: string): (pr: PullRequestSummary)
    ensures pr.title == "Release " + tagName && pr.number == 0 && pr.body == Some(commitMessage)
    ensures "GITHUB_ACTOR" in env ==> Author(pr) == env["GITHUB_ACTOR"]
    ensures "GITHUB_ACTOR" !in env ==> Author(pr) == Automation
  {
    PullRequestSummary(
      title := "Release " + tagName,
      body := Some(commitMessage),
      number := 0,
      htmlUrl := None,
      user := Some(User(Some(OrElse(Var(env, "GITHUB_ACTOR"), Some(Automation)).value))))
  }

  /** The release prompt: the poster prompt of the release summary, the
      changed files and the configured base prompt and file limit. */
  function ReleasePrompt(config: AppConfig, env: Env, repoFullName: string, tagName: string,
                         commitMessage: string, files: seq<ChangedFileSummary>): (prompt: string)
    ensures |prompt| >= |config.posterPrompt| && prompt[..|config.posterPrompt|] == config.posterPrompt
    ensures var section := FormatFiles(files, config.maxFiles);
            |prompt| >= |section| && prompt[|prompt| - |section|..] == section
  {
    BuildPosterPrompt(config.posterPrompt, repoFullName, ReleaseSummary(env, tagName, commitMessage), files, config.maxFiles)
  }
}
