# gitsoviet in Dafny

gitsoviet turns a GitHub pull request into a propaganda-poster prompt and asks an
image provider to draw it. The repository holds three implementations of this,
and each is modelled on its own:

- the `gitsoviet/` Python package: a command line that resolves the repository and
  pull request, summarises the changed files within a character budget, loads
  format and style fragments, and creates a provider from a mutable registry;
- the `src/gitsoviet/` Python package: a `PosterRequest` that validates and
  normalises format and style names, a prompt builder that renders a literal
  template, a command line that reads fields from an event, flags or files, and a
  read-only provider lookup;
- the TypeScript Probot app under `src/`: configuration from the environment, the
  poster prompt, the image providers, the pull-request handler and the
  release-poster script.

The modules are:

- `Wrappers` holds `Option` and `Result`.
- `Text` holds the string primitives both languages supply: whitespace stripping,
  lower-casing, `split`/`join`, integer rendering and `parseInt`, and sorted name
  lists.
- The `gitsoviet/` package is modelled by `LegacyPromptBuilder`, `LegacyRegistry`
  and `LegacyCli`.
- The `src/gitsoviet/` package is modelled by `Request`, `FragmentPrompt`,
  `GitHubEvent`, `RequestCli` and `ProviderLookup`.
- The TypeScript app is modelled by `Config`, `PosterPrompt`, `ImageProviders`,
  `ProbotApp` and `ReleasePoster`.

The following are modelled as classes whose methods update fields:

- the registry that `register` updates in place (`LegacyRegistry.ProviderRegistry`);
- the request whose derived fields `__post_init__` assigns (`Request.PosterRequest`);
- the ChatGPT provider whose constructor sets its fields
  (`ImageProviders.ChatGptImageProvider`).

`summarize_files` is a method with a loop, proved equal to a specification function.

Everything outside the program is a parameter:

- the environment is a map;
- a data directory of fragments is a map from folder to stem to content;
- event files, file reads and `git` output are passed in as values;
- the Jinja render of `prompt.j2` is an opaque function;
- the image endpoint and the comment call are functions.

The handler returns the trace of the effects it would perform.

## Model

| member | source | states |
|---|---|---|
| Text.Strip | src/gitsoviet/request.py:57 | the result is empty exactly when the input is blank, and otherwise starts and ends with a non-space character |
| Text.StripIdempotent | src/gitsoviet/prompt_builder.py:57 | stripping a stripped string changes nothing |
| Text.StripPadded | src/gitsoviet/prompt_builder.py:63-67 | whitespace added around a value does not change what stripping yields |
| Text.Lower | src/gitsoviet/request.py:57 | lower-casing keeps the length and maps each character on its own |
| Text.StripLower | src/gitsoviet/request.py:57 | lower-casing and stripping commute |
| Text.Split | src/config.ts:27 | split never returns an empty list, no piece holds the separator, and joining the pieces with the separator gives the input back |
| Text.SplitOfJoin | src/config.ts:27 | splitting undoes joining when no part holds the separator |
| Text.ParseIntOfIntToString | src/imageProviders.ts:41 | parsing the decimal rendering of any integer, followed by any non-digit text, gives that integer back |
| Text.SortedSet | gitsoviet/prompt_builder.py:36 | `sorted(...)` of a set of names lists each name exactly once, in strictly increasing order |
| Text.StrictlySortedUnique | gitsoviet/prompt_builder.py:36 | two strictly sorted lists with the same elements are equal, so the sorted listing is unique |
| Text.PrefixUpTo | gitsoviet/prompt_builder.py:62 | `s[:n]` and `slice(0, n)`: the result is a prefix whose length follows Python's rule for non-negative and negative `n` |
| Config.AllowedRepos | src/config.ts:23-31 | an unset or empty `ALLOWED_REPOS` gives the empty set; otherwise the set holds exactly the trimmed, non-empty comma-separated entries |
| Config.AllowedReposOfJoin | src/config.ts:23-31 | an allow-list written as `a,b,c` is read back as exactly those entries |
| Config.AllowedReposTrimsEntries | src/config.ts:26-29 | every allowed entry is non-empty, carries no surrounding whitespace, and is the trimmed form of one comma-separated piece |
| Config.MaxFiles | src/config.ts:41-54 | `MAX_FILES` parsed as an integer, and 10 when it is unset or does not parse |
| Config.ImageWidth | src/config.ts:42-55 | `IMAGE_WIDTH`, else `IMAGE_SIZE`, else 1024; 1024 when the chosen value does not parse |
| Config.ImageHeight | src/config.ts:43-56 | `IMAGE_HEIGHT`, else `IMAGE_SIZE`, else 1536; 1536 when the chosen value does not parse |
| Config.LoadConfig | src/config.ts:22-58 | provider `chatgpt`, model `gpt-image-1` and the default prompt apply only when the variable is unset (an empty value is kept); key and base URL are passed through; allow-list and numbers are as above |
| PosterPrompt.Truncate | src/prompt.ts:24-30 | a value that fits is returned unchanged; otherwise the result is its first `limit` characters followed by `…`, so it is never longer than `limit + 1` |
| PosterPrompt.FileParts | src/prompt.ts:40-46 | the name comes first; `status: <s>` is present exactly when the status is non-empty; the diff part is present when either count is a number, with a missing count rendered as 0 |
| PosterPrompt.FileLine | src/prompt.ts:47 | every file line starts with `- <filename>` |
| PosterPrompt.FormatFilesLines | src/prompt.ts:32-50 | the file section has one line per listed file, in input order and at most `maxFiles` of them; with nothing to list it is exactly `No file list available from webhook payload.` |
| PosterPrompt.ShortenedSummary | src/prompt.ts:59-60 | a missing or blank body becomes `No description provided.`; a trimmed body of up to 500 characters is kept as it is; the result is never longer than 501 characters |
| PosterPrompt.ShortenedSummaryOfLongBody | src/prompt.ts:59-60 | a trimmed body longer than 500 characters is cut to its first 500 followed by `…` |
| PosterPrompt.Author | src/prompt.ts:63 | `unknown contributor` exactly when the user or the login is missing; an empty login is kept |
| PosterPrompt.BuildPosterPrompt | src/prompt.ts:52-64 | the prompt starts with the base prompt and ends with the file section |
| ProbotApp.ShouldProcessRepoOfEnv | src/index.ts:17-23 | with `ALLOWED_REPOS` unset or empty every repository is processed; otherwise a repository is processed exactly when the loaded set is empty (as for `" , "`) or lists it |
| ProbotApp.ShouldProcessListedRepos | src/index.ts:17-23 | with the allow-list `a,b,c` a repository is processed exactly when it is one of those entries |
| ProbotApp.BuildPromptFromPayload | src/index.ts:25-46 | the prompt starts with the configured base prompt and ends with the file section for the configured file limit |
| ProbotApp.CreateCommentBody | src/index.ts:83-95 | the comment is a fixed head (title, image line, `<details>` and `<summary>` with the provider), then the prompt verbatim, then a line break and `</details>` |
| ProbotApp.TitleIsOneLine | src/index.ts:85 | the comment title is a single line |
| ProbotApp.HeadLinesAreOneLine | src/index.ts:84-91 | with a URL and provider free of line breaks, every fixed line of the comment is a single line |
| ProbotApp.CommentBodyLines | src/index.ts:83-95 | when no part holds a line break, the comment splits back into exactly its nine lines, with the image markdown, the provider inside `<summary>` and the prompt |
| ProbotApp.FailureComment | src/index.ts:122-128 | the failure comment is `❗ Unable to generate poster: ` followed by the error's message, or by `Unknown error` for a thrown value that is not an `Error` |
| ProbotApp.HandlePullRequestEvent | src/index.ts:97-131 | a repository that is not allowed only logs the skip, before any fetch, generation or comment; otherwise the files are fetched, the poster is requested with the prompt and the configured size, and the comment or the failure comment follows; every comment goes to the event's pull request |
| ProbotApp.AfterGeneration | src/index.ts:107-130 | after a successful generation the poster comment is posted; a failed generation, or a failed post of that comment, is followed by the logged error and the failure comment |
| ProbotApp.FailedGenerationIsReported | src/index.ts:121-129 | a failed generation ends the trace with the log entry and the failure comment carrying the error |
| ProbotApp.DummyProviderComment | src/index.ts:107-120 | with the dummy provider, the one comment holds the placeholder for the configured size and the prompt |
| ImageProviders.SizeString | src/imageProviders.ts:41 | the size string splits at `x` into two halves that parse back to the width and the height |
| ImageProviders.ChatGptImageProvider.constructor | src/imageProviders.ts:26-35 | the client gets the API key and base URL; model, width and height are copied from the configuration |
| ImageProviders.NewChatGptImageProvider | src/imageProviders.ts:26-35 | construction fails with the `OPENAI_API_KEY is required` error exactly when the key is missing or empty; otherwise the provider is new, its client carries the key and the configured base URL, and it keeps the configured model, width and height |
| ImageProviders.ChatGptImageProvider.Call | src/imageProviders.ts:38-42 | the request carries the model and the prompt, and its size holds the request's dimensions where given and the configured ones otherwise |
| ImageProviders.ChatGptImageProvider.GeneratePoster | src/imageProviders.ts:37-54 | generation succeeds exactly when the endpoint returns a non-empty URL; the result echoes the prompt and names `chatgpt`; otherwise the error is `returned no URL` |
| ImageProviders.PlaceholderUrl | src/imageProviders.ts:62 | the placeholder URL is the fixed base, the size, then the fixed query |
| ImageProviders.DummyGeneratePoster | src/imageProviders.ts:57-67 | the dummy result echoes the prompt as alt text, names `dummy`, and embeds the request size (512x768 by default) in the placeholder URL |
| ImageProviders.SelectedProvider | src/imageProviders.ts:69-75 | `dummy` exactly when the configured provider is `dummy`; ChatGPT for any other name with a key; the key error for any other name without one |
| ImageProviders.CreateImageProvider | src/imageProviders.ts:69-75 | returns the provider that the selection names, or its error; a ChatGPT provider is new, its client carries the configured key and base URL, and it keeps the configured model and size |
| ReleasePoster.FirstMatch | src/scripts/generateReleasePoster.ts:12 | the leftmost position at which a pattern matches, or none |
| ReleasePoster.Search | src/scripts/generateReleasePoster.ts:12-18 | a search finds a match exactly when the pattern matches at some position, and what it returns is the match at the leftmost such position |
| ReleasePoster.RepoAt | src/scripts/generateReleasePoster.ts:12 | a captured group is a non-empty owner without `/`, a slash, and a non-empty name without `.` |
| ReleasePoster.ParseRepoFromRemote | src/scripts/generateReleasePoster.ts:11-19 | the SSH pattern wins whenever it matches; otherwise the HTTPS result; nothing when neither matches; a result is always `owner/repo` shaped |
| ReleasePoster.RepoShapedHasNoGitSuffix | src/scripts/generateReleasePoster.ts:12-17 | a captured name never ends in `.git` |
| ReleasePoster.ParseSshRemote | src/scripts/generateReleasePoster.ts:12-14 | `git@host:owner/repo`, with or without `.git`, is read back as `owner/repo` |
| ReleasePoster.NoSshMatchWithoutAt | src/scripts/generateReleasePoster.ts:12 | a remote without `@` never matches the SSH pattern |
| ReleasePoster.ParseHttpsRemote | src/scripts/generateReleasePoster.ts:17-18 | `https://host/owner/repo` or `http://…`, with or without `.git`, is read back as `owner/repo` when no `@` occurs in the URL (an `@` would let the SSH pattern match first) |
| ReleasePoster.GetRepoFullName | src/scripts/generateReleasePoster.ts:21-38 | a non-empty `GITHUB_REPOSITORY`, else the name parsed from the trimmed remote, else `unknown/repo` |
| ReleasePoster.GetTagName | src/scripts/generateReleasePoster.ts:40-42 | `TAG_NAME`, else `GITHUB_REF_NAME`, else `untagged-release`; empty values fall through, and the tag is never empty |
| ReleasePoster.LatestCommitSummary | src/scripts/generateReleasePoster.ts:44-51 | the trimmed commit text, or `No description provided.` when `git` fails or the text is blank |
| ReleasePoster.SplitTwoTokens | src/scripts/generateReleasePoster.ts:61 | the first token runs up to the first whitespace; there is a second token exactly when whitespace follows the first, and it is the whitespace-free run that starts after that whitespace |
| ReleasePoster.ParseNameStatus | src/scripts/generateReleasePoster.ts:56-63 | one record per non-blank trimmed line, in order; the status is the line's first token, the filename is its second token (missing for a one-token line), and no counts are set |
| ReleasePoster.NameStatusRecordOfLine | src/scripts/generateReleasePoster.ts:61-62 | a `status<TAB>filename` line reads back as that status and filename |
| ReleasePoster.NameStatusRecordOfRenameLine | src/scripts/generateReleasePoster.ts:61-62 | a rename or copy line `R100<TAB>old<TAB>new` yields a record naming only the old path, with the score as its status |
| ReleasePoster.NameStatusRecordsOfLines | src/scripts/generateReleasePoster.ts:56-63 | lines of `status<TAB>filename` parse back into those records, one per line, in order |
| ReleasePoster.ReleaseSummary | src/scripts/generateReleasePoster.ts:112-117 | the title is `Release <tag>`, the number is 0, the body is the commit summary, and the author is `GITHUB_ACTOR` or `automation` |
| ReleasePoster.ReleasePrompt | src/scripts/generateReleasePoster.ts:119-125 | the release prompt starts with the configured base prompt and ends with the file section for the configured file limit |
| LegacyPromptBuilder.SplitLines | gitsoviet/prompt_builder.py:62 | `splitlines()` returns no lines exactly for the empty text, and no line holds a line boundary |
| LegacyPromptBuilder.SplitLinesOfJoin | gitsoviet/prompt_builder.py:62 | lines without breaks, the last non-empty, joined by `\n` are split back into exactly those lines |
| LegacyPromptBuilder.Header | gitsoviet/prompt_builder.py:58 | a file's header is `* <filename>` followed by ` (+<additions>/-<deletions>)` with each count rendered as `RenderCount` states |
| LegacyPromptBuilder.RenderCount | gitsoviet/prompt_builder.py:58 | an absent count prints `0`, a `None` count prints `None`, and a number prints as its decimal rendering, which parses back to that number |
| LegacyPromptBuilder.CutLines | gitsoviet/prompt_builder.py:62 | each line is cut to at most its first 160 characters |
| LegacyPromptBuilder.FileEntries | gitsoviet/prompt_builder.py:58-63 | a file contributes its header, then a summary line exactly when its patch is neither missing nor empty |
| LegacyPromptBuilder.StopFrom | gitsoviet/prompt_builder.py:57-65 | the loop takes at least one more file if any remain, every earlier round stayed within budget, and an early stop is at the first round that exceeded it |
| LegacyPromptBuilder.TakeFile | gitsoviet/prompt_builder.py:57-65 | one round appends the file's entries and stops exactly when the running total exceeds the budget |
| LegacyPromptBuilder.SummarizeFiles | gitsoviet/prompt_builder.py:55-69 | the loop returns exactly the specified summary of the files |
| LegacyPromptBuilder.SummaryWithinBudget | gitsoviet/prompt_builder.py:66-69 | with a budget of at least 3 the summary never exceeds it; a cut summary is the first `max_chars - 3` characters of the joined lines followed by `...` |
| LegacyPromptBuilder.EmptySummary | gitsoviet/prompt_builder.py:55-69 | no files give the empty summary |
| LegacyPromptBuilder.AllEntriesAppend | gitsoviet/prompt_builder.py:57-63 | entries keep file order: those of two lists of files are the entries of the first, then those of the second |
| LegacyPromptBuilder.CollectedStopsAtFirstOverflow | gitsoviet/prompt_builder.py:57-65 | the collected lines are the entries of a prefix of the files, every round before the stop stayed within budget, the stop is where the total first exceeds it, and later files never appear |
| LegacyPromptBuilder.SummaryStartsWithHeader | gitsoviet/prompt_builder.py:58-68 | the summary of at least one file starts with a header's `*` |
| LegacyPromptBuilder.SnippetShape | gitsoviet/prompt_builder.py:62 | a snippet shows exactly the first 10 patch lines (all of them when there are fewer), each cut to its first 160 characters |
| LegacyPromptBuilder.IndentLinesOfJoin | gitsoviet/prompt_builder.py:63 | inside the summary line, the snippet's lines are joined by a line break and four spaces |
| LegacyPromptBuilder.LoadText | gitsoviet/prompt_builder.py:33-38 | succeeds exactly when the lower-cased name is a stem of the folder, returning the stripped content; otherwise the error names the folder kind and the name and lists the stems |
| LegacyPromptBuilder.LoadTextIgnoresCase | gitsoviet/prompt_builder.py:34 | names equal up to case load the same fragment, and what is loaded carries no surrounding whitespace |
| LegacyPromptBuilder.UnknownFragmentListsSortedStems | gitsoviet/prompt_builder.py:35-37 | the error for an unknown name lists every stem exactly once, in sorted order |
| LegacyPromptBuilder.Build | gitsoviet/prompt_builder.py:40-52 | the format is loaded before the style, so an unknown format is the error even when the style is unknown too; on success the render receives both fragments and the context unchanged |
| LegacyPromptBuilder.UnknownFormatWins | gitsoviet/prompt_builder.py:42-43 | an unknown format is reported as an unknown `format`, whatever the style |
| LegacyRegistry.CreateFrom | gitsoviet/providers/registry.py:17-22 | `create` succeeds exactly when the lower-cased name is registered and calls its factory with the keyword arguments; otherwise it fails listing the names |
| LegacyRegistry.ProviderRegistry.constructor | gitsoviet/providers/registry.py:11-12 | a new registry is empty |
| LegacyRegistry.ProviderRegistry.Register | gitsoviet/providers/registry.py:14-15 | the factory is stored under the lower-cased name, replacing any earlier one, and nothing else changes |
| LegacyRegistry.ProviderRegistry.Create | gitsoviet/providers/registry.py:17-22 | `create` answers as `CreateFrom` does on the registry's dictionary, which it does not change |
| LegacyRegistry.ProviderRegistry.StoredKeysFound | gitsoviet/providers/registry.py:14-22 | in a registry whose keys are all lower-cased, as `register` keeps them, every stored key is found by `create` and gives its own factory's provider |
| LegacyRegistry.ProviderRegistry.Choices | gitsoviet/providers/registry.py:24-25 | `choices` is a copy of the registry: what the caller does with it cannot reach the registry |
| LegacyRegistry.CreateAfterRegister | gitsoviet/providers/registry.py:14-22 | after `register(n, f)`, `create(m)` calls `f` with the keyword arguments for every `m` equal to `n` up to case |
| LegacyRegistry.RegisterReplaces | gitsoviet/providers/registry.py:14-15 | a second registration of the same name in any case replaces the first and adds no name |
| LegacyRegistry.RegisterLeavesOthers | gitsoviet/providers/registry.py:14-22 | registering one name leaves `create` of every other name as it was |
| LegacyRegistry.EmptyRegistryFails | gitsoviet/providers/registry.py:19-21 | an empty registry fails every name and lists `<none>` |
| LegacyRegistry.UnknownListsSortedNames | gitsoviet/providers/registry.py:19-21 | an unknown name is reported with every registered name exactly once, in sorted order |
| LegacyRegistry.RegisterThenCreate | gitsoviet/providers/registry.py:11-22 | a fresh registry with one factory registered creates from it under every spelling of the name |
| LegacyCli.InferFromEvent | gitsoviet/cli.py:23-38 | no event gives nothing; the number comes from `pull_request`, else from an `issue` that is a pull request, else from the first pull request of `workflow_run`; a non-empty top-level repository is always kept |
| LegacyCli.WorkflowRunFallback | gitsoviet/cli.py:33-37 | a workflow run supplies the number of its first pull request, and its repository only when the top-level one is missing or empty |
| LegacyCli.NoPullRequestInEvent | gitsoviet/cli.py:29-38 | without any of the three sources there is no number |
| LegacyCli.ResolveRepoAndPr | gitsoviet/cli.py:41-51 | the repository comes from the option, else the event, else `GITHUB_REPOSITORY`; the number comes from the option, else the event; empty strings and 0 count as missing, and a missing repository is reported first |
| LegacyCli.ResolvedValues | gitsoviet/cli.py:45-51 | a resolved repository is non-empty and a resolved number is not 0; explicit options win |
| LegacyCli.RepoErrorFirst | gitsoviet/cli.py:47-50 | without a repository anywhere, the repository error is raised whatever the number |
| LegacyCli.DetermineSize | gitsoviet/cli.py:54-57 | `1536x1024` exactly when the lower-cased format is `mural`, and `1024x1536` otherwise |
| LegacyCli.Context | gitsoviet/cli.py:88-99 | an empty PR body becomes `No description`; the diff summary is `No file changes detected` exactly when there are no files, and otherwise is the summary of the files |
| LegacyCli.SummaryOfFiles | gitsoviet/cli.py:88 | the summary is empty exactly when there are no files |
| LegacyCli.Generate | gitsoviet/cli.py:74-102 | repository, number and key errors come before any GitHub request; the two requests are made in order; a ready run holds the built prompt, the key, and the provider created for the format's size |
| LegacyCli.GenerateCheckOrder | gitsoviet/cli.py:79-87 | a run that made no request failed with a repository, number or key error; a run that made requests made exactly two |
| Request.NormalizeShape | src/gitsoviet/request.py:55-57 | a normalised name has no surrounding whitespace, no upper-case letter and no space |
| Request.NormalizeIdempotent | src/gitsoviet/request.py:55-57 | normalising twice is normalising once |
| Request.NormalizeIgnoresPadding | src/gitsoviet/request.py:57 | whitespace around a name does not change its normal form |
| Request.NormalizeIgnoresCase | src/gitsoviet/request.py:57 | names equal up to case have the same normal form |
| Request.Validate | src/gitsoviet/request.py:34-40 | accepted exactly when the normalised format is `poster` or `mural` and the normalised style is one of the five styles; the format is checked first; each error names the value and lists the table's keys |
| Request.BadFormatWins | src/gitsoviet/request.py:37-38 | a bad format is reported whatever the style, listing `mural, poster` |
| Request.BadStyleListsStyles | src/gitsoviet/request.py:39-40 | an unknown style lists `capitalist, cuban, dprk, royalist, soviet` |
| Request.TableKeysAccepted | src/gitsoviet/request.py:22-40 | every pair of table keys is accepted as it is |
| Request.PosterRequest.constructor | src/gitsoviet/request.py:34-41 | the derived keys are the normalised format and style, and every given field is kept |
| Request.Create | src/gitsoviet/request.py:34-41 | construction fails exactly when validation does, with its error; otherwise the request is new, consistent with the tables, keyed by the normalised format and style, and holds every given field unchanged |
| Request.PosterRequest.FormatLabel | src/gitsoviet/request.py:43-45 | `Poster` for a poster and `Mural` for a mural |
| Request.PosterRequest.StyleLabel | src/gitsoviet/request.py:47-49 | the style's label from the table |
| Request.PosterRequest.ImageSize | src/gitsoviet/request.py:51-53 | `1024x1536` for a poster and `1536x1024` for a mural |
| FragmentPrompt.LoadFragment | src/gitsoviet/prompt_builder.py:52-57 | succeeds exactly when the lower-cased name is a stem of the folder, returning the stripped content; otherwise the error lists the stems in sorted order |
| FragmentPrompt.LoadFragmentIgnoresCase | src/gitsoviet/prompt_builder.py:53 | names equal up to case load the same fragment, which carries no surrounding whitespace |
| FragmentPrompt.Bullets | src/gitsoviet/prompt_builder.py:23-25 | one `  - <file>` line per changed file, in input order |
| FragmentPrompt.Render | src/gitsoviet/prompt_builder.py:11-33 | the rendered prompt starts with a line break and the format fragment |
| FragmentPrompt.FileBlockLines | src/gitsoviet/prompt_builder.py:22-25 | the file list is the heading line followed by one `  - <file>` line per file |
| FragmentPrompt.RenderListsFilesOnePerLine | src/gitsoviet/prompt_builder.py:11-33 | the rendered prompt holds `- Changed files:` and, on the lines directly under it, each file in input order |
| FragmentPrompt.SloganLanguage | src/gitsoviet/prompt_builder.py:68 | a blank language becomes `English`; otherwise the language is stripped |
| FragmentPrompt.Components | src/gitsoviet/prompt_builder.py:60-69 | title, body, diff and guidance are stripped, the language is defaulted, and the fragments and files are kept as given |
| FragmentPrompt.ComponentsIgnorePadding | src/gitsoviet/prompt_builder.py:63-68 | whitespace around the title, body, diff, guidance or language does not change the prompt |
| FragmentPrompt.Build | src/gitsoviet/prompt_builder.py:59-70 | the format fragment is loaded before the style fragment; on success the prompt is the template rendered with the normalised components |
| FragmentPrompt.UnknownFormatWins | src/gitsoviet/prompt_builder.py:61-62 | an unknown format is reported even when the style is unknown too |
| GitHubEvent.Get | src/gitsoviet/github.py:19-20 | an absent key gives the default, `null` gives `None`, and a string is returned as it is |
| GitHubEvent.FilesOf | src/gitsoviet/github.py:25 | a missing or `None` changed-files value becomes the empty list |
| GitHubEvent.LoadPrFromEvent | src/gitsoviet/github.py:15-30 | there is data exactly when the event is an object with a non-empty `pull_request` object; a missing title or body becomes `""`; changed files and diff come from the `gitsoviet` object, and are `[]` and `""` without it |
| GitHubEvent.LoadOfEventOf | src/gitsoviet/github.py:15-30 | reading the payload written for some fields gives those fields back |
| GitHubEvent.DetailsOnlyFromGitsoviet | src/gitsoviet/github.py:22-28 | without a `gitsoviet` object, nothing else in the pull request changes what is read, and there are no changed files |
| RequestCli.NonBlank | src/gitsoviet/cli.py:13 | no kept line is blank |
| RequestCli.NonBlankMembers | src/gitsoviet/cli.py:13 | the kept lines are exactly the lines that are not blank, not trimmed |
| RequestCli.NonBlankAppend | src/gitsoviet/cli.py:13 | filtering keeps the order of the lines |
| RequestCli.ParseChangedFiles | src/gitsoviet/cli.py:12-13 | no returned entry is blank, and none holds a line feed or a carriage return |
| RequestCli.ParseOfNewlineJoin | src/gitsoviet/cli.py:12-13 | a list of non-blank single-line names joined by `\n` is read back exactly; the empty list is the empty flag |
| RequestCli.ParseOfEmpty | src/gitsoviet/cli.py:12-13 | an empty flag gives no changed file |
| RequestCli.ParseOfCrLfJoin | src/gitsoviet/cli.py:12-13 | the same list joined by `\r\n` is read back exactly, without blank entries |
| RequestCli.FlagOrFile | src/gitsoviet/cli.py:16-19 | a non-empty flag wins and no file is read; otherwise the named file is read, or the value is `""` when no file is named |
| RequestCli.ResolvePrFields | src/gitsoviet/cli.py:41-50 | a pull request in the event gives all four fields and only the event file is read; otherwise the title flag, body and diff from flag or file, and the parsed changed files |
| RequestCli.FlagBeatsFile | src/gitsoviet/cli.py:47-48 | a body flag wins over the body file, which is then not read; the same for the diff |
| RequestCli.FilesReadWhenFlagsEmpty | src/gitsoviet/cli.py:47-48 | with both flags empty the body file and then the diff file are read |
| RequestCli.EventOverridesFlags | src/gitsoviet/cli.py:42-46 | a pull request in the event overrides every flag |
| ProviderLookup.ProviderRegistry.Get | src/gitsoviet/providers.py:18-23 | succeeds exactly when the lower-cased name is a key, returning its provider; otherwise it fails listing the sorted keys |
| ProviderLookup.UpperCaseKeyUnreachable | src/gitsoviet/providers.py:16-20 | keys are not lower-cased, so a key with an upper-case letter is never found |
| ProviderLookup.GetIgnoresCase | src/gitsoviet/providers.py:19 | names equal up to case find the same provider |
| ProviderLookup.EmptyRegistryFails | src/gitsoviet/providers.py:20-22 | an empty registry fails every name and lists `none` |
| ProviderLookup.DefaultRegistry | src/gitsoviet/providers.py:38-39 | the default registry has exactly the one key `openai` |
| ProviderLookup.DefaultRegistryFindsOpenAi | src/gitsoviet/providers.py:18-39 | the default registry finds the OpenAI provider exactly for the names that lower-case to `openai` |

## Left out

- Whitespace and case are ASCII only. Python's `str.strip`/`str.lower`, JavaScript's `trim` and the `\s` class of a JavaScript regular expression use Unicode tables, so non-ASCII spaces and letters are treated as ordinary characters here.
- Text.Strip: whitespace is the six characters space, tab, `\n`, `\r`, `\v` and `\f` for both languages. Python's `str.strip()` also removes the ASCII separators U+001C to U+001F, which JavaScript's `trim()` keeps, so for the Python packages a value padded with those separators keeps them here where Python would strip them.
- The Jinja environment and the `prompt.j2` template of the `gitsoviet/` package are not part of this model. The render is a function parameter, and only the arguments it receives are stated.
- All I/O is left out: GitHub REST calls (`github_client.py`, octokit), OpenAI SDK calls, `fetchChangedFiles` with its pagination loop, `downloadImage`, `execSync`, `dotenv.config()`, typer/argparse parsing, writing the image and the JSON output. Their results enter as parameters, and the handler's effects are a returned trace.
- JSON parsing is left out. An event is a datatype holding the keys that are read, so a value of an unexpected JSON type (a number where a string is expected, a list where an object is expected) is not representable.
- The `PRData` fields of `src/gitsoviet/github.py` can be `None` when the payload holds `null`. The model carries them as `Option` through `resolve_pr_fields` and does not follow them further.
- `src/gitsoviet/generator.py` and `create_request` in `src/gitsoviet/cli.py` (orchestration around an external provider) are not part of this model.
- The interface files `gitsoviet/providers/base.py`, `src/gitsoviet/providers/base.py` and `gitsoviet/providers/__init__.py`, and `src/gitsoviet/__init__.py` are not part of this model. The last imports names that `generator.py` does not define.
- The OpenAI providers (`openai_provider.py` in both packages, `OpenAIProvider`) are not part of this model. Registries hold them as opaque values of a type parameter.
- The Probot event registration (src/index.ts:133-141) and the module-level `loadConfig()`/`createImageProvider()` calls are left out. The handler takes the configuration as a parameter.
- `Number.parseInt` is modelled for optional leading whitespace, an optional `-` or `+` sign, and leading decimal digits, with `None` for `NaN`. With radix 10 a `0x` prefix reads as the digit `0`, as it does here. JavaScript's loss of precision on very long digit runs is not modelled: the value here is exact.
- LegacyPromptBuilder.SummarizeFiles: appends a file's header and summary line to the list in one step rather than two. The budget check runs once per file after both appends, so the result is the same.
- LegacyPromptBuilder.SummarizeFiles: the f-string with a backslash inside its braces (gitsoviet/prompt_builder.py:63) is read with Python 3.12 semantics. Earlier Python versions reject it as a syntax error.
- LegacyRegistry.ProviderRegistry.Choices: returns the map value itself. A Dafny map cannot be mutated, so the copy made by `dict(...)` needs no counterpart.
- LegacyRegistry.RegisterThenCreate: states registration and creation for any key. The CLI's own registration of `openai` at import time is an instance of it.
- PosterPrompt.Truncate: lengths and cuts count Unicode code points. JavaScript's `length` and `slice` count UTF-16 code units, so for text with characters outside the Basic Multilingual Plane (emoji, for one) the source cuts earlier than the model does and can split a surrogate pair, which a Dafny string of code points cannot hold.
- PosterPrompt.ShortenedSummary: the 500-character bound counts code points, not JavaScript's UTF-16 code units; the same holds for PosterPrompt.ShortenedSummaryOfLongBody, so a body of astral characters is cut at a different place in the source.
- PosterPrompt.FormatFilesLines: requires `maxFiles >= 0`. `FormatFiles` itself follows JavaScript's `slice(0, n)` for a negative `maxFiles` too, but the line-count statement is made only for non-negative limits.
- ProbotApp.HandlePullRequestEvent: the two awaited calls before the `try` (fetching files, building the prompt) are taken not to throw. A throw there would leave the handler without a comment.
