/** The prompt text of the TypeScript app (src/prompt.ts): a PR body cut to
    500 characters, a changed-file list cut to `maxFiles` entries, and the
    template that joins them under the configured base prompt. */
module PosterPrompt {
  import opened Wrappers
  import opened Text

  datatype User = User(login: Option<string>)

  /** `PullRequestSummary`; `None` stands for both `null` and `undefined`. */
  datatype PullRequestSummary = PullRequestSummary(
    title: string,
    body: Option<string>,
    number: int,
    htmlUrl: Option<string>,
    user: Option<User>)

  /** `ChangedFileSummary`. The file name is optional because the release
      script casts records whose name may be `undefined` to this type. */
  datatype ChangedFileSummary = ChangedFileSummary(
    filename: Option<string>,
    status: Option<string>,
    additions: Option<int>,
    deletions: Option<int>)

  const Ellipsis: char := '\U{2026}'
  const SummaryLimit: int := 500
  const NoFileList: string := "No file list available from webhook payload."
  const NoDescription: string := "No description provided."
  const UnknownContributor: string := "unknown contributor"

  /** `truncate`: the value itself when it fits, otherwise its first `limit`
      characters followed by an ellipsis. */
  function Truncate(value: string, limit: int): (r: string)
    ensures |value| <= limit ==> r == value
    ensures 0 <= limit < |value| ==> |r| == limit + 1 && r[..limit] == value[..limit] && r[limit] == Ellipsis
    ensures 0 <= limit ==> |r| <= limit + 1
  {
    if |value| <= limit then value else PrefixUpTo(value, limit) + [Ellipsis]
  }

  /** How `Array.prototype.join` renders an element: `undefined` becomes "". */
  function JoinedName(name: Option<string>): string {
    name.GetOr("")
  }

  /** The `parts` of one file line: the name, then the status when it is
      truthy, then the diff counts when either count is a number. */
  function FileParts(file: ChangedFileSummary): (parts: seq<string>)
    ensures |parts| == 1 + (if Truthy(file.status) then 1 else 0)
                         + (if file.additions.Some? || file.deletions.Some? then 1 else 0)
    ensures parts[0] == JoinedName(file.filename)
    ensures Truthy(file.status) ==> parts[1] == "status: " + file.status.value
    ensures file.additions.Some? || file.deletions.Some? ==>
              parts[|parts| - 1] == "diff +" + IntToString(file.additions.GetOr(0)) + "/-" + IntToString(file.deletions.GetOr(0))
  {
    var withStatus := [JoinedName(file.filename)] + (if Truthy(file.status) then ["status: " + file.status.value] else []);
    withStatus + (if file.additions.Some? || file.deletions.Some? then
                    ["diff +" + IntToString(file.additions.GetOr(0)) + "/-" + IntToString(file.deletions.GetOr(0))]
                  else [])
  }

  function FileLine(file: ChangedFileSummary): (line: string)
    ensures |line| >= 2 + |JoinedName(file.filename)|
    ensures line[..2 + |JoinedName(file.filename)|] == "- " + JoinedName(file.filename)
  {
    "- " + Join(FileParts(file), " | ")
  }

  function FileLines(files: seq<ChangedFileSummary>): (lines: seq<string>)
    ensures |lines| == |files|
    ensures forall i :: 0 <= i < |files| ==> lines[i] == FileLine(files[i])
  {
    if files == [] then [] else [FileLine(files[0])] + FileLines(files[1..])
  }

  /** `formatFiles`: the first `maxFiles` files (JavaScript `slice(0, maxFiles)`),
      one line each, or a fixed sentence when none is left. */
  function FormatFiles(files: seq<ChangedFileSummary>, maxFiles: int): string {
    var limited := PrefixUpTo(files, maxFiles);
    if |limited| == 0 then NoFileList else Join(FileLines(limited), "\n")
  }

  /** `pr.body?.trim() || 'No description provided.'`, cut to 500 characters. */
  function ShortenedSummary(body: Option<string>): (r: string)
    ensures |r| <= SummaryLimit + 1
    ensures (body.None? || IsBlank(body.value)) ==> r == NoDescription
    ensures body.Some? && |Strip(body.value)| <= SummaryLimit && !IsBlank(body.value) ==> r == Strip(body.value)
  {
    var summary := match body
      case None => NoDescription
      case Some(b) => if Strip(b) == "" then NoDescription else Strip(b);
    Truncate(summary, SummaryLimit)
  }

  /** `pr.user?.login ?? 'unknown contributor'`. */
  function Author(pr: PullRequestSummary): (r: string)
    ensures (pr.user.None? || pr.user.value.login.None?) ==> r == UnknownContributor
    ensures pr.user.Some? && pr.user.value.login.Some? ==> r == pr.user.value.login.value
  {
    match pr.user
    case None => UnknownContributor
    case Some(u) => u.login.GetOr(UnknownContributor)
  }

  /** The fixed template up to the file section, starting with the base
      prompt. */
  function PromptHead(basePrompt: string, repoFullName: string, pr: PullRequestSummary): (head: string)
    ensures |head| >= |basePrompt| && head[..|basePrompt|] == basePrompt
  {
    var tail := "\n\nRepository: " + repoFullName
      + "\nPull Request #" + IntToString(pr.number) + ": " + pr.title
      + "\nAuthor: " + Author(pr)
      + "\n\nPR Summary: " + ShortenedSummary(pr.body)
      + "\n\nChanged files:\n";
    assert (basePrompt + tail)[..|basePrompt|] == basePrompt;
    basePrompt + tail
  }

  /** `buildPosterPrompt`: the fixed template around the base prompt, the
      repository, the PR, the summary and the file section. */
  function BuildPosterPrompt(basePrompt: string, repoFullName: string, pr: PullRequestSummary,
                             files: seq<ChangedFileSummary>, maxFiles: int): (r: string)
    ensures |r| >= |basePrompt| && r[..|basePrompt|] == basePrompt
    ensures var section := FormatFiles(files, maxFiles);
            |r| >= |section| && r[|r| - |section|..] == section
  {
    var head := PromptHead(basePrompt, repoFullName, pr);
    var section := FormatFiles(files, maxFiles);
    assert (head + section)[..|basePrompt|] == basePrompt by {
      assert (head + section)[..|head|] == head;
    }
    assert (head + section)[|head|..] == section;
    head + section
  }

  // ---------------------------------------------------------------------------
  // Properties
  // ---------------------------------------------------------------------------

  /** No line break in what a file line is built from. */
  predicate SingleLine(file: ChangedFileSummary) {
    '\n' !in JoinedName(file.filename) && (file.status.Some? ==> '\n' !in file.status.value)
  }

  lemma NoNewlineInNumber(n: int)
    ensures '\n' !in IntToString(n)
  {
    IntToStringChars(n);
  }

  lemma {:induction false} NoNewlineInJoin(parts: seq<string>, sep: string)
    requires '\n' !in sep
    requires forall i :: 0 <= i < |parts| ==> '\n' !in parts[i]
    ensures '\n' !in Join(parts, sep)
    decreases |parts|
  {
    if |parts| > 1 {
      NoNewlineInJoin(parts[1..], sep);
    }
  }

  lemma FileLineIsOneLine(file: ChangedFileSummary)
    requires SingleLine(file)
    ensures '\n' !in FileLine(file)
  {
    NoNewlineInNumber(file.additions.GetOr(0));
    NoNewlineInNumber(file.deletions.GetOr(0));
    NoNewlineInJoin(FileParts(file), " | ");
  }

  /** The file section has exactly one line per listed file, in input order,
      each starting with `- <filename>`, and lists at most `maxFiles` files;
      with nothing to list it is the single fixed sentence. */
  lemma FormatFilesLines(files: seq<ChangedFileSummary>, maxFiles: int)
    requires maxFiles >= 0
    requires forall i :: 0 <= i < |files| && i < maxFiles ==> SingleLine(files[i])
    ensures var lines := Split(FormatFiles(files, maxFiles), '\n');
            var n := if maxFiles <= |files| then maxFiles else |files|;
            && (n == 0 ==> lines == [NoFileList])
            && (n > 0 ==> |lines| == n <= maxFiles)
            && (n > 0 ==> forall i :: 0 <= i < n ==>
                            (lines[i] == FileLine(files[i])
                             && lines[i][..2 + |JoinedName(files[i].filename)|] == "- " + JoinedName(files[i].filename)))
  {
    var limited := PrefixUpTo(files, maxFiles);
    if |limited| == 0 {
      assert '\n' !in NoFileList;
      SplitOfJoin([NoFileList], '\n');
    } else {
      var lines := FileLines(limited);
      forall i | 0 <= i < |lines| ensures '\n' !in lines[i] {
        FileLineIsOneLine(limited[i]);
      }
      SplitOfJoin(lines, '\n');
    }
  }

  /** A blank or missing body is replaced; otherwise the stripped body is kept
      up to 500 characters and an ellipsis marks a cut. */
  lemma ShortenedSummaryOfLongBody(body: string)
    requires |Strip(body)| > SummaryLimit
    ensures ShortenedSummary(Some(body)) == Strip(body)[..SummaryLimit] + [Ellipsis]
  {
  }
}
