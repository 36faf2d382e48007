/** `PromptBuilder` of the `src/gitsoviet/` Python package
    (src/gitsoviet/prompt_builder.py): loads a format fragment and a style
    fragment by lower-cased name, normalises the pull request fields and
    renders them into the literal `PROMPT_TEMPLATE`. The fragment folders on
    disk are the same kind of data directory the `gitsoviet/` package reads. */
module FragmentPrompt {
  import opened Wrappers
  import opened Text
  import L = LegacyPromptBuilder

  /** `load_fragment`: the stripped content of `<name lower-cased>.txt` in
      the folder, or the `ValueError` listing the available stems, sorted. */
  function LoadFragment(data: L.DataDir, folder: string, name: string): (r: Result<string, string>)
    ensures r.Success? <==> Lower(name) in L.Fragments(data, folder)
    ensures r.Success? ==> r.value == Strip(L.Fragments(data, folder)[Lower(name)])
    ensures r.Failure? ==> r.error == L.UnknownFragment(folder, name, SortedSet(L.Fragments(data, folder).Keys))
  {
    var dir := L.Fragments(data, folder);
    var key := Lower(name);
    if key in dir then Success(Strip(dir[key]))
    else Failure(L.UnknownFragment(folder, name, SortedSet(dir.Keys)))
  }

  /** The lookup does not depend on the case of the name, and what it
      returns has no surrounding whitespace. */
  lemma LoadFragmentIgnoresCase(data: L.DataDir, folder: string, a: string, b: string)
    requires Lower(a) == Lower(b)
    ensures LoadFragment(data, folder, a).Success? <==> LoadFragment(data, folder, b).Success?
    ensures LoadFragment(data, folder, a).Success? ==>
              LoadFragment(data, folder, a) == LoadFragment(data, folder, b)
              && Strip(LoadFragment(data, folder, a).value) == LoadFragment(data, folder, a).value
  {
    var dir := L.Fragments(data, folder);
    if Lower(a) in dir {
      StripIdempotent(dir[Lower(a)]);
    }
  }

  /** `PromptComponents`. */
  datatype PromptComponents = PromptComponents(
    formatPrompt: string,
    stylePrompt: string,
    title: string,
    body: string,
    changedFiles: seq<string>,
    diff: string,
    guidance: string,
    language: string)

  /** What the `{%- for %}` loop of the template produces: each file on a new
      line after two spaces and a dash. */
  function FileBlock(files: seq<string>): string {
    if files == [] then "" else "\n  - " + files[0] + FileBlock(files[1..])
  }

  /** The lines of the file list. */
  function Bullets(files: seq<string>): (lines: seq<string>)
    ensures |lines| == |files|
    ensures forall i :: 0 <= i < |files| ==> lines[i] == "  - " + files[i]
  {
    if files == [] then [] else ["  - " + files[0]] + Bullets(files[1..])
  }

  const ChangedFilesHeading: string := "- Changed files:"

  /** The template text from the blank line after the format fragment up to
      and including the newline before `- Changed files:`. */
  function StyleAndContext(c: PromptComponents): string {
    "\n\n" + c.stylePrompt + "\n\nSlogan language: " + c.language
      + ".\n\nPull request context:\n- Title: " + c.title + "\n- Description: " + c.body + "\n"
  }

  /** The template text up to and including the newline before
      `- Changed files:`. */
  function BeforeFiles(c: PromptComponents): string {
    "\n" + c.formatPrompt + StyleAndContext(c)
  }

  /** The template text after the file list. Jinja drops the template's
      final newline. */
  function AfterFiles(c: PromptComponents): string {
    "\n\nDiff summary:\n" + c.diff + "\n\nAdditional creative direction:\n" + c.guidance
  }

  /** `PROMPT_TEMPLATE.render(...)`. */
  function Render(c: PromptComponents): (prompt: string)
    ensures |prompt| > |c.formatPrompt| && prompt[..|c.formatPrompt| + 1] == "\n" + c.formatPrompt
  {
    var lead := "\n" + c.formatPrompt;
    var files := ChangedFilesHeading + FileBlock(c.changedFiles);
    PrefixOfAppend(lead, StyleAndContext(c), |lead|);
    PrefixOfAppend(BeforeFiles(c), files, |lead|);
    PrefixOfAppend(BeforeFiles(c) + files, AfterFiles(c), |lead|);
    BeforeFiles(c) + files + AfterFiles(c)
  }

  /** The file list, heading included, is a run of lines: the heading, then
      one `  - <file>` line per file, in input order. */
  lemma {:induction false} FileBlockLines(heading: string, files: seq<string>)
    ensures heading + FileBlock(files) == Join([heading] + Bullets(files), "\n")
    decreases |files|
  {
    if files != [] {
      var rest := files[1..];
      var merged := heading + "\n  - " + files[0];
      FileBlockLines(merged, rest);
      JoinStep(heading, "  - " + files[0], Bullets(rest));
      assert merged == heading + "\n" + ("  - " + files[0]) by {
        assert "\n  - " == "\n" + "  - ";
      }
      assert [heading] + Bullets(files) == [heading] + (["  - " + files[0]] + Bullets(rest));
    }
  }

  /** Joining after merging the first two parts with the separator. */
  lemma JoinStep(a: string, b: string, rest: seq<string>)
    ensures Join([a + "\n" + b] + rest, "\n") == Join([a] + ([b] + rest), "\n")
  {
    assert ([a] + ([b] + rest))[1..] == [b] + rest;
    assert ([b] + rest)[1..] == rest;
    assert ([a + "\n" + b] + rest)[1..] == rest;
  }

  /** The rendered prompt, with the file list written as lines. */
  lemma RenderListsFilesOnePerLine(c: PromptComponents)
    ensures Render(c) == BeforeFiles(c) + Join([ChangedFilesHeading] + Bullets(c.changedFiles), "\n") + AfterFiles(c)
  {
    FileBlockLines(ChangedFilesHeading, c.changedFiles);
  }

  /** `language.strip() or "English"`. */
  function SloganLanguage(language: string): (lang: string)
    ensures IsBlank(language) ==> lang == "English"
    ensures !IsBlank(language) ==> lang == Strip(language) && Strip(lang) == lang
  {
    var s := Strip(language);
    if s == "" then "English"
    else
      StripOfStripped(s);
      s
  }

  /** The `PromptComponents` that `build` renders: the fragments as loaded,
      the text fields stripped, the language defaulted, the changed files as
      given. */
  function Components(formatPrompt: string, stylePrompt: string, title: string, body: string,
                      changedFiles: seq<string>, diff: string, guidance: string, language: string): (c: PromptComponents)
    ensures c.formatPrompt == formatPrompt && c.stylePrompt == stylePrompt && c.changedFiles == changedFiles
    ensures c.title == Strip(title) && c.body == Strip(body) && c.diff == Strip(diff) && c.guidance == Strip(guidance)
    ensures c.language == SloganLanguage(language)
  {
    PromptComponents(formatPrompt, stylePrompt, Strip(title), Strip(body), changedFiles,
                     Strip(diff), Strip(guidance), SloganLanguage(language))
  }

  /** Whitespace around the title, body, diff, guidance or language does not
      change the prompt. */
  lemma ComponentsIgnorePadding(formatPrompt: string, stylePrompt: string, title: string, body: string,
                                changedFiles: seq<string>, diff: string, guidance: string, language: string,
                                a: string, b: string)
    requires IsBlank(a) && IsBlank(b)
    ensures Components(formatPrompt, stylePrompt, a + title + b, a + body + b, changedFiles,
                       a + diff + b, a + guidance + b, a + language + b)
            == Components(formatPrompt, stylePrompt, title, body, changedFiles, diff, guidance, language)
  {
    StripPadded(a, title, b);
    StripPadded(a, body, b);
    StripPadded(a, diff, b);
    StripPadded(a, guidance, b);
    StripPadded(a, language, b);
    assert IsBlank(a + language + b) <==> IsBlank(language) by {
      assert Strip(a + language + b) == Strip(language);
    }
  }

  /** `build`: the format fragment is loaded first, then the style fragment,
      then the components are rendered. */
  function Build(data: L.DataDir, formatName: string, styleName: string, title: string, body: string,
                 changedFiles: seq<string>, diff: string, guidance: string, language: string): (r: Result<string, string>)
    ensures LoadFragment(data, "formats", formatName).Failure? ==>
              r == Failure(LoadFragment(data, "formats", formatName).error)
    ensures LoadFragment(data, "formats", formatName).Success? && LoadFragment(data, "styles", styleName).Failure? ==>
              r == Failure(LoadFragment(data, "styles", styleName).error)
    ensures r.Success? <==> LoadFragment(data, "formats", formatName).Success? && LoadFragment(data, "styles", styleName).Success?
    ensures r.Success? ==>
              r.value == Render(Components(LoadFragment(data, "formats", formatName).value,
                                           LoadFragment(data, "styles", styleName).value,
                                           title, body, changedFiles, diff, guidance, language))
  {
    match LoadFragment(data, "formats", formatName)
    case Failure(e) => Failure(e)
    case Success(formatPrompt) =>
      match LoadFragment(data, "styles", styleName)
      case Failure(e) => Failure(e)
      case Success(stylePrompt) =>
        Success(Render(Components(formatPrompt, stylePrompt, title, body, changedFiles, diff, guidance, language)))
  }

  /** An unknown format is reported even when the style is unknown too. */
  lemma UnknownFormatWins(data: L.DataDir, formatName: string, styleName: string, title: string, body: string,
                          changedFiles: seq<string>, diff: string, guidance: string, language: string)
    requires Lower(formatName) !in L.Fragments(data, "formats")
    ensures Build(data, formatName, styleName, title, body, changedFiles, diff, guidance, language)
            == Failure(L.UnknownFragment("formats", formatName, SortedSet(L.Fragments(data, "formats").Keys)))
  {
  }
}
