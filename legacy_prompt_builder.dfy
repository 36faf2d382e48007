/** The prompt builder of the `gitsoviet/` Python package
    (gitsoviet/prompt_builder.py): the diff summary `summarize_files` builds
    under a character budget, the fragment lookup `_load_text`, and the order
    in which `build` loads its fragments. The Jinja template `prompt.j2` is not
    part of this model: its rendering is a function parameter. */
module LegacyPromptBuilder {
  import opened Wrappers
  import opened Text

  // ---------------------------------------------------------------------------
  // Python's str.splitlines
  // ---------------------------------------------------------------------------

  /** The line boundaries of Python's `str.splitlines`. */
  predicate IsLineBreak(c: char) {
    c == '\n' || c == '\r' || c == '\U{000B}' || c == '\U{000C}' || c == '\U{001C}' || c == '\U{001D}'
    || c == '\U{001E}' || c == '\U{0085}' || c == '\U{2028}' || c == '\U{2029}'
  }

  predicate NoLineBreak(s: string) {
    forall i :: 0 <= i < |s| ==> !IsLineBreak(s[i])
  }

  function FirstLineBreak(s: string): (i: nat)
    ensures i <= |s|
    ensures i < |s| ==> IsLineBreak(s[i])
    ensures NoLineBreak(s[..i])
  {
    if s == [] || IsLineBreak(s[0]) then 0
    else
      var i := 1 + FirstLineBreak(s[1..]);
      assert s[..i] == [s[0]] + s[1..][..i - 1];
      i
  }

  /** `s.splitlines()`: the lines without their terminators; `\r\n` is one
      terminator, and a final terminator does not start another line. */
  function SplitLines(s: string): (lines: seq<string>)
    ensures |lines| <= |s|
    ensures lines == [] <==> s == []
    ensures forall k :: 0 <= k < |lines| ==> NoLineBreak(lines[k])
    decreases |s|
  {
    if s == [] then []
    else
      var i := FirstLineBreak(s);
      if i == |s| then [s]
      else
        var next := if s[i] == '\r' && i + 1 < |s| && s[i + 1] == '\n' then i + 2 else i + 1;
        [s[..i]] + SplitLines(s[next..])
  }

  /** Lines without breaks, the last one non-empty, joined by `\n` are split
      back into the same lines. */
  lemma {:induction false} SplitLinesOfJoin(lines: seq<string>)
    requires |lines| >= 1 && lines[|lines| - 1] != ""
    requires forall k :: 0 <= k < |lines| ==> NoLineBreak(lines[k])
    ensures SplitLines(Join(lines, "\n")) == lines
    decreases |lines|
  {
    if |lines| == 1 {
      SplitLinesOfLine(lines[0]);
    } else {
      var rest := Join(lines[1..], "\n");
      JoinNonEmptyTail(lines[1..]);
      SplitLinesStep(lines[0], rest);
      SplitLinesOfJoin(lines[1..]);
    }
  }

  /** A non-empty text without breaks is one line. */
  lemma SplitLinesOfLine(x: string)
    requires x != "" && NoLineBreak(x)
    ensures SplitLines(x) == [x]
  {
  }

  /** A line followed by `\n` and more text splits off as the first line. */
  lemma SplitLinesStep(x: string, y: string)
    requires NoLineBreak(x) && y != ""
    ensures SplitLines(x + "\n" + y) == [x] + SplitLines(y)
  {
    var s := x + "\n" + y;
    FirstLineBreakBefore(x, y);
    assert s[..|x|] == x;
    assert s[|x| + 1..] == y;
  }

  lemma FirstLineBreakBefore(x: string, y: string)
    requires NoLineBreak(x)
    ensures FirstLineBreak(x + "\n" + y) == |x|
  {
    var s := x + "\n" + y;
    assert s[..|x|] == x;
    assert s[|x|] == '\n';
  }

  lemma {:induction false} JoinNonEmptyTail(lines: seq<string>)
    requires |lines| >= 1 && lines[|lines| - 1] != ""
    ensures Join(lines, "\n") != ""
    decreases |lines|
  {
    if |lines| > 1 {
      assert |Join(lines, "\n")| >= |lines[0]| + 1;
    }
  }

  // ---------------------------------------------------------------------------
  // One file of the summary
  // ---------------------------------------------------------------------------

  /** A count in a file record: the key may be absent, hold `None`, or hold a number. */
  datatype Count = Missing | Null | Number(n: int)

  /** A file record of the pull-request files API, as far as it is read. */
  datatype FileRecord = FileRecord(filename: Option<string>, additions: Count, deletions: Count, patch: Option<string>)

  /** The default budget of `summarize_files`. */
  const DefaultMaxChars: int := 3500
  const SnippetLines: int := 10
  const SnippetWidth: int := 160
  const Indent: string := "\n    "

  /** `f"{file.get('filename')}"`: a missing name prints as `None`. */
  function RenderName(filename: Option<string>): string {
    filename.GetOr("None")
  }

  /** `f"{file.get('additions', 0)}"`: an absent key prints as 0, a `None` value as `None`. */
  function RenderCount(c: Count): (r: string)
    ensures c.Missing? ==> r == "0"
    ensures c.Null? ==> r == "None"
    ensures c.Number? ==> r == IntToString(c.n) && ParseInt(r) == Some(c.n)
  {
    match c
    case Missing => "0"
    case Null => "None"
    case Number(n) =>
      ParseIntOfIntToString(n, "");
      assert IntToString(n) + "" == IntToString(n);
      IntToString(n)
  }

  /** `* <filename> (+<additions>/-<deletions>)`. */
  function Header(file: FileRecord): (h: string)
    ensures var name := RenderName(file.filename);
            |h| > 2 + |name| && h[..2 + |name|] == "* " + name && h[|h| - 1] == ')'
            && h[2 + |name|..] == " (+" + RenderCount(file.additions) + "/-" + RenderCount(file.deletions) + ")"
  {
    var name := RenderName(file.filename);
    var counts := " (+" + RenderCount(file.additions) + "/-" + RenderCount(file.deletions) + ")";
    var h := "* " + name + counts;
    assert h[..2 + |name|] == "* " + name;
    assert h[2 + |name|..] == counts;
    h
  }

  function CutLines(lines: seq<string>): (cut: seq<string>)
    ensures |cut| == |lines|
    ensures forall k :: 0 <= k < |lines| ==> cut[k] == PrefixUpTo(lines[k], SnippetWidth)
  {
    if lines == [] then [] else [PrefixUpTo(lines[0], SnippetWidth)] + CutLines(lines[1..])
  }

  /** `"\n".join(line[:160] for line in patch.splitlines()[:10])`. */
  function Snippet(patch: string): string {
    Join(CutLines(PrefixUpTo(SplitLines(patch), SnippetLines)), "\n")
  }

  /** `s.replace('\n', '\n    ')`. */
  function IndentLines(s: string): (r: string)
    ensures |r| >= |s|
  {
    if s == [] then []
    else (if s[0] == '\n' then Indent else [s[0]]) + IndentLines(s[1..])
  }

  /** The summary line of a file with a patch. */
  function SummaryEntry(patch: string): string {
    "  Summary:\n    " + IndentLines(Snippet(patch))
  }

  /** The lines one file adds: its header, then its patch summary when the
      patch is neither missing nor empty. */
  function FileEntries(file: FileRecord): (entries: seq<string>)
    ensures 1 <= |entries| <= 2 && entries[0] == Header(file)
    ensures |entries| == 2 <==> Truthy(file.patch)
    ensures |entries| == 2 ==> entries[1] == SummaryEntry(file.patch.value)
  {
    var patch := file.patch.GetOr("");
    [Header(file)] + (if patch != "" then [SummaryEntry(patch)] else [])
  }

  /** The concatenation of `f(x)` over `xs`, in order. */
  function ConcatMap<T>(xs: seq<T>, f: T -> seq<string>): seq<string> {
    if xs == [] then [] else ConcatMap(xs[..|xs| - 1], f) + f(xs[|xs| - 1])
  }

  lemma ConcatMapSnoc<T>(xs: seq<T>, x: T, f: T -> seq<string>)
    ensures ConcatMap(xs + [x], f) == ConcatMap(xs, f) + f(x)
  {
    assert (xs + [x])[..|xs|] == xs;
  }

  lemma {:induction false} ConcatMapAppend<T>(a: seq<T>, b: seq<T>, f: T -> seq<string>)
    ensures ConcatMap(a + b, f) == ConcatMap(a, f) + ConcatMap(b, f)
    decreases |b|
  {
    if b == [] {
      assert a + b == a;
    } else {
      var b' := b[..|b| - 1];
      var x := b[|b| - 1];
      assert a + b == (a + b') + [x];
      assert b == b' + [x];
      ConcatMapSnoc(a + b', x, f);
      ConcatMapSnoc(b', x, f);
      ConcatMapAppend(a, b', f);
    }
  }

  /** The entries of several files, in file order. */
  function AllEntries(files: seq<FileRecord>): seq<string> {
    ConcatMap(files, FileEntries)
  }

  lemma AllEntriesOfPrefix(files: seq<FileRecord>, i: nat)
    requires i < |files|
    ensures AllEntries(files[..i + 1]) == AllEntries(files[..i]) + FileEntries(files[i])
  {
    assert files[..i + 1] == files[..i] + [files[i]];
    ConcatMapSnoc(files[..i], files[i], FileEntries);
  }

  /** `sum(len(line) for line in lines)`. */
  function TotalLength(lines: seq<string>): nat {
    if lines == [] then 0 else TotalLength(lines[..|lines| - 1]) + |lines[|lines| - 1]|
  }

  // ---------------------------------------------------------------------------
  // The summary
  // ---------------------------------------------------------------------------

  /** The summed length of the lines of the first `j` items. */
  function Used<T>(xs: seq<T>, f: T -> seq<string>, j: nat): nat
    requires j <= |xs|
  {
    TotalLength(ConcatMap(xs[..j], f))
  }

  /** How many files the loop takes when it resumes after the first `k`: the
      first file whose entries push the total over `maxChars` is the last one
      taken. */
  function StopFrom<T>(xs: seq<T>, f: T -> seq<string>, k: nat, maxChars: int): (stop: nat)
    requires k <= |xs|
    ensures k <= stop <= |xs|
    ensures k < |xs| ==> k < stop
    ensures forall j :: k < j < stop ==> Used(xs, f, j) <= maxChars
    ensures stop < |xs| ==> k < stop && Used(xs, f, stop) > maxChars
    decreases |xs| - k
  {
    if k == |xs| then k
    else if Used(xs, f, k + 1) > maxChars then k + 1
    else StopFrom(xs, f, k + 1, maxChars)
  }

  /** The lines `summarize_files` collects: the entries of every file up to
      and including the first one after which the total length exceeds
      `maxChars`. */
  function Collected(files: seq<FileRecord>, maxChars: int): seq<string> {
    AllEntries(files[..StopFrom(files, FileEntries, 0, maxChars)])
  }

  /** What `summarize_files` returns: the collected lines joined by `\n`, and
      when that is longer than `maxChars`, its first `maxChars - 3`
      characters (Python's `s[:n]`) followed by `...`. */
  function Summary(files: seq<FileRecord>, maxChars: int): string {
    var joined := Join(Collected(files, maxChars), "\n");
    if |joined| > maxChars then PrefixUpTo(joined, maxChars - 3) + "..." else joined
  }

  /** One round of the loop: the file's entries are appended, and the stop
      is here when they overflow the budget, and further on otherwise. */
  lemma TakeFile(files: seq<FileRecord>, i: nat, maxChars: int)
    requires i < |files|
    ensures AllEntries(files[..i + 1]) == AllEntries(files[..i]) + FileEntries(files[i])
    ensures Used(files, FileEntries, i + 1) > maxChars ==> StopFrom(files, FileEntries, i, maxChars) == i + 1
    ensures Used(files, FileEntries, i + 1) <= maxChars ==>
              StopFrom(files, FileEntries, i, maxChars) == StopFrom(files, FileEntries, i + 1, maxChars)
  {
    AllEntriesOfPrefix(files, i);
  }

  /** `summarize_files`. */
  method SummarizeFiles(files: seq<FileRecord>, maxChars: int) returns (summary: string)
    ensures summary == Summary(files, maxChars)
  {
    var lines: seq<string> := [];
    var i := 0;
    ghost var stop := StopFrom(files, FileEntries, 0, maxChars);
    while i < |files|
      invariant 0 <= i <= |files|
      invariant lines == AllEntries(files[..i])
      invariant StopFrom(files, FileEntries, i, maxChars) == stop
    {
      var file := files[i];
      lines := lines + FileEntries(file);
      TakeFile(files, i, maxChars);
      if TotalLength(lines) > maxChars {
        break;
      }
      i := i + 1;
    }
    assert lines == Collected(files, maxChars) by {
      assert i == |files| ==> files[..i] == files;
    }
    summary := Join(lines, "\n");
    if |summary| > maxChars {
      summary := PrefixUpTo(summary, maxChars - 3) + "...";
    }
  }

  // ---------------------------------------------------------------------------
  // Properties of the summary
  // ---------------------------------------------------------------------------

  /** With a budget of at least 3 the summary never exceeds it; when it is
      cut, it is exactly the first `maxChars - 3` characters of the joined
      lines followed by `...`. */
  lemma SummaryWithinBudget(files: seq<FileRecord>, maxChars: int)
    requires maxChars >= 3
    ensures |Summary(files, maxChars)| <= maxChars
    ensures var joined := Join(Collected(files, maxChars), "\n");
            && (|joined| > maxChars ==> Summary(files, maxChars) == joined[..maxChars - 3] + "...")
            && (|joined| <= maxChars ==> Summary(files, maxChars) == joined)
  {
  }

  /** No files, no summary (for any budget that is not negative). */
  lemma EmptySummary(maxChars: int)
    requires maxChars >= 0
    ensures Summary([], maxChars) == ""
  {
    assert Collected([], maxChars) == [];
  }

  /** The entries of a concatenation are the concatenation of the entries:
      files contribute in input order. */
  lemma AllEntriesAppend(a: seq<FileRecord>, b: seq<FileRecord>)
    ensures AllEntries(a + b) == AllEntries(a) + AllEntries(b)
  {
    ConcatMapAppend(a, b, FileEntries);
  }

  /** The collected lines are the entries of a prefix of the files: every
      file before the stop kept the total within budget, the file at the stop
      (if the loop stopped early) pushed it over, and no later file appears. */
  lemma CollectedStopsAtFirstOverflow(files: seq<FileRecord>, maxChars: int)
    ensures var stop := StopFrom(files, FileEntries, 0, maxChars);
            && Collected(files, maxChars) == AllEntries(files[..stop])
            && AllEntries(files) == Collected(files, maxChars) + AllEntries(files[stop..])
            && (forall j :: 0 < j < stop ==> Used(files, FileEntries, j) <= maxChars)
            && (stop < |files| ==> TotalLength(Collected(files, maxChars)) > maxChars)
  {
    StopSplits(files, FileEntries, maxChars);
  }

  lemma StopSplits<T>(xs: seq<T>, f: T -> seq<string>, maxChars: int)
    ensures var stop := StopFrom(xs, f, 0, maxChars);
            && ConcatMap(xs, f) == ConcatMap(xs[..stop], f) + ConcatMap(xs[stop..], f)
            && (stop < |xs| ==> TotalLength(ConcatMap(xs[..stop], f)) > maxChars)
  {
    var stop := StopFrom(xs, f, 0, maxChars);
    assert xs[..stop] + xs[stop..] == xs;
    ConcatMapAppend(xs[..stop], xs[stop..], f);
  }

  lemma {:induction false} ConcatMapFirst<T>(xs: seq<T>, f: T -> seq<string>)
    requires |xs| >= 1 && |f(xs[0])| >= 1
    ensures |ConcatMap(xs, f)| >= 1 && ConcatMap(xs, f)[0] == f(xs[0])[0]
    decreases |xs|
  {
    if |xs| > 1 {
      ConcatMapFirst(xs[..|xs| - 1], f);
      assert xs[..|xs| - 1][0] == xs[0];
    }
  }

  /** The summary of at least one file starts with the first file's header
      (for a budget of at least 4, which keeps at least one character before
      the `...`). */
  lemma SummaryStartsWithHeader(files: seq<FileRecord>, maxChars: int)
    requires files != [] && maxChars >= 4
    ensures Summary(files, maxChars) != "" && Summary(files, maxChars)[0] == '*'
  {
    var lines := Collected(files, maxChars);
    CollectedStartsWithHeader(files, maxChars);
    var h := lines[0];
    assert h[0] == ("* " + RenderName(files[0].filename))[0] == '*';
    var joined := Join(lines, "\n");
    assert joined[..|h|] == h;
    assert joined[0] == '*';
  }

  /** The collected lines of at least one file open with its header. */
  lemma CollectedStartsWithHeader(files: seq<FileRecord>, maxChars: int)
    requires files != []
    ensures |Collected(files, maxChars)| >= 1 && Collected(files, maxChars)[0] == Header(files[0])
  {
    var stop := StopFrom(files, FileEntries, 0, maxChars);
    var taken := files[..stop];
    assert taken[0] == files[0];
    ConcatMapFirst(taken, FileEntries);
  }

  /** The snippet of a non-empty patch has at most 10 lines, each the first
      (at most) 160 characters of the corresponding patch line. */
  lemma SnippetShape(patch: string)
    requires patch != ""
    ensures var lines := SplitLines(patch);
            var shown := Split(Snippet(patch), '\n');
            && |shown| == (if |lines| <= SnippetLines then |lines| else SnippetLines)
            && forall k :: 0 <= k < |shown| ==>
                 |shown[k]| <= SnippetWidth && shown[k] == PrefixUpTo(lines[k], SnippetWidth)
  {
    var lines := SplitLines(patch);
    var cut := CutLines(PrefixUpTo(lines, SnippetLines));
    forall k | 0 <= k < |cut| ensures '\n' !in cut[k] {
      var line := PrefixUpTo(lines, SnippetLines)[k];
      assert NoLineBreak(line);
      assert forall j :: 0 <= j < |cut[k]| ==> cut[k][j] == line[j];
    }
    SplitOfJoin(cut, '\n');
  }

  /** Inside the summary line the snippet's lines are indented by four spaces. */
  lemma {:induction false} IndentLinesOfJoin(lines: seq<string>)
    requires forall k :: 0 <= k < |lines| ==> '\n' !in lines[k]
    ensures IndentLines(Join(lines, "\n")) == Join(lines, Indent)
    decreases |lines|
  {
    if |lines| == 1 {
      IndentLinesNoBreak(lines[0]);
    } else if |lines| > 1 {
      var rest := Join(lines[1..], "\n");
      IndentLinesNoBreak(lines[0]);
      IndentLinesAppend(lines[0] + "\n", rest);
      IndentLinesAppend(lines[0], "\n");
      assert IndentLines("\n") == Indent by {
        assert "\n"[1..] == [];
      }
      IndentLinesOfJoin(lines[1..]);
    }
  }

  lemma {:induction false} IndentLinesNoBreak(s: string)
    requires '\n' !in s
    ensures IndentLines(s) == s
    decreases |s|
  {
    if s != [] {
      assert '\n' !in s[1..];
      IndentLinesNoBreak(s[1..]);
    }
  }

  lemma {:induction false} IndentLinesAppend(a: string, b: string)
    ensures IndentLines(a + b) == IndentLines(a) + IndentLines(b)
    decreases |a|
  {
    if a == [] {
      assert a + b == b;
    } else {
      assert (a + b)[1..] == a[1..] + b;
      IndentLinesAppend(a[1..], b);
    }
  }

  // ---------------------------------------------------------------------------
  // Fragments and the prompt
  // ---------------------------------------------------------------------------

  /** The `*.txt` files of one data folder: file stem to file content. */
  type FragmentDir = map<string, string>

  /** The data directory: folder name to its fragments. A missing folder has none. */
  type DataDir = map<string, FragmentDir>

  function Fragments(data: DataDir, folder: string): FragmentDir {
    if folder in data then data[folder] else map[]
  }

  /** `Unknown <folder without its last letter> '<name>'. Available: <stems>`. */
  function UnknownFragment(folder: string, name: string, available: seq<string>): string {
    "Unknown " + PrefixUpTo(folder, -1) + " '" + name + "'. Available: " + Join(available, ", ")
  }

  /** `_load_text`: the stripped content of `<name lower-cased>.txt`, or an
      error listing the available stems in sorted order. */
  function LoadText(data: DataDir, folder: string, name: string): (r: Result<string, string>)
    ensures r.Success? <==> Lower(name) in Fragments(data, folder)
    ensures r.Success? ==> r.value == Strip(Fragments(data, folder)[Lower(name)])
    ensures r.Failure? ==> r.error == UnknownFragment(folder, name, SortedSet(Fragments(data, folder).Keys))
  {
    var dir := Fragments(data, folder);
    var key := Lower(name);
    if key !in dir then Failure(UnknownFragment(folder, name, SortedSet(dir.Keys)))
    else Success(Strip(dir[key]))
  }

  /** Names that differ only in case load the same fragment, and what is
      loaded has no surrounding whitespace. */
  lemma LoadTextIgnoresCase(data: DataDir, folder: string, a: string, b: string)
    requires Lower(a) == Lower(b)
    ensures LoadText(data, folder, a).Success? <==> LoadText(data, folder, b).Success?
    ensures LoadText(data, folder, a).Success? ==>
              LoadText(data, folder, a) == LoadText(data, folder, b)
              && Strip(LoadText(data, folder, a).value) == LoadText(data, folder, a).value
  {
    var dir := Fragments(data, folder);
    if Lower(a) in dir {
      StripIdempotent(dir[Lower(a)]);
    }
  }

  /** The error of an unknown name lists every stem once, in sorted order. */
  lemma UnknownFragmentListsSortedStems(data: DataDir, folder: string, name: string)
    requires Lower(name) !in Fragments(data, folder)
    ensures var available := SortedSet(Fragments(data, folder).Keys);
            && LoadText(data, folder, name) == Failure(UnknownFragment(folder, name, available))
            && StrictlySorted(available)
            && forall stem :: stem in available <==> stem in Fragments(data, folder)
  {
  }

  datatype PromptContext = PromptContext(
    formatName: string,
    styleName: string,
    language: string,
    prTitle: string,
    prBody: string,
    diffSummary: string,
    extraGuidance: string)

  /** The variables `prompt.j2` is rendered with. */
  datatype TemplateArgs = TemplateArgs(
    formatPrompt: string,
    stylePrompt: string,
    language: string,
    prTitle: string,
    prBody: string,
    diffSummary: string,
    extraGuidance: string)

  /** `PromptBuilder.build`: the format fragment, then the style fragment,
      then the render. An unknown format is the error even when the style is
      unknown as well. */
  function Build(data: DataDir, ctx: PromptContext, render: TemplateArgs -> string): (r: Result<string, string>)
    ensures LoadText(data, "formats", ctx.formatName).Failure? ==>
              r == Failure(LoadText(data, "formats", ctx.formatName).error)
    ensures LoadText(data, "formats", ctx.formatName).Success? && LoadText(data, "styles", ctx.styleName).Failure? ==>
              r == Failure(LoadText(data, "styles", ctx.styleName).error)
    ensures r.Success? <==> LoadText(data, "formats", ctx.formatName).Success? && LoadText(data, "styles", ctx.styleName).Success?
    ensures r.Success? ==>
              r.value == render(TemplateArgs(LoadText(data, "formats", ctx.formatName).value,
                                             LoadText(data, "styles", ctx.styleName).value,
                                             ctx.language, ctx.prTitle, ctx.prBody, ctx.diffSummary, ctx.extraGuidance))
  {
    match LoadText(data, "formats", ctx.formatName)
    case Failure(e) => Failure(e)
    case Success(formatPrompt) =>
      match LoadText(data, "styles", ctx.styleName)
      case Failure(e) => Failure(e)
      case Success(stylePrompt) =>
        Success(render(TemplateArgs(formatPrompt, stylePrompt, ctx.language, ctx.prTitle, ctx.prBody,
                                    ctx.diffSummary, ctx.extraGuidance)))
  }

  /** An unknown format is reported as a format, whatever the style. */
  lemma UnknownFormatWins(data: DataDir, ctx: PromptContext, render: TemplateArgs -> string)
    requires Lower(ctx.formatName) !in Fragments(data, "formats")
    ensures Build(data, ctx, render)
            == Failure(UnknownFragment("formats", ctx.formatName, SortedSet(Fragments(data, "formats").Keys)))
    ensures PrefixUpTo("formats", -1) == "format"
  {
  }
}
