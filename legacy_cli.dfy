/** The command line of the `gitsoviet/` Python package (gitsoviet/cli.py):
    where the repository and the pull-request number come from, the image
    size for a format, and the order in which `generate` checks its inputs,
    calls GitHub, builds the prompt and creates the provider. The event file
    is given as its parsed contents, the GitHub responses as parameters, and
    the provider's own image call is not part of this model. */
module LegacyCli {
  import opened Wrappers
  import opened Text
  import opened LegacyPromptBuilder
  import opened LegacyRegistry

  // ---------------------------------------------------------------------------
  // The event payload
  // ---------------------------------------------------------------------------

  /** An object with a `number` key (which may be absent or `null`). */
  datatype PullRequestRef = PullRequestRef(number: Option<int>)

  /** `issue`: whether its `pull_request` value is truthy, and its number. */
  datatype IssueRef = IssueRef(pullRequest: bool, number: Option<int>)

  /** `workflow_run`: its `pull_requests` list and its repository's `full_name`. */
  datatype WorkflowRun = WorkflowRun(pullRequests: seq<PullRequestRef>, repositoryFullName: Option<string>)

  /** The parts of a GitHub event payload that are read; a missing key is `None`. */
  datatype Event = Event(
    repositoryFullName: Option<string>,
    pullRequest: Option<PullRequestRef>,
    issue: Option<IssueRef>,
    workflowRun: Option<WorkflowRun>)

  /** Python truthiness of a number that may be `None`: present and not 0. */
  predicate TruthyInt(n: Option<int>) {
    n.Some? && n.value != 0
  }

  /** `_infer_from_event`, given the parsed event file (`None` when there is
      no path or no file): the top-level repository, and the number of the
      pull request, of the issue that is a pull request, or of the first pull
      request of the workflow run, tried in that order. */
  function InferFromEvent(event: Option<Event>): (r: (Option<string>, Option<int>))
    ensures event.None? ==> r == (None, None)
    ensures event.Some? && event.value.pullRequest.Some? ==>
              r == (event.value.repositoryFullName, event.value.pullRequest.value.number)
    ensures event.Some? && event.value.pullRequest.None? && event.value.issue.Some? && event.value.issue.value.pullRequest ==>
              r == (event.value.repositoryFullName, event.value.issue.value.number)
    ensures event.Some? && Truthy(event.value.repositoryFullName) ==> r.0 == event.value.repositoryFullName
  {
    match event
    case None => (None, None)
    case Some(e) =>
      if e.pullRequest.Some? then (e.repositoryFullName, e.pullRequest.value.number)
      else if e.issue.Some? && e.issue.value.pullRequest then (e.repositoryFullName, e.issue.value.number)
      else if e.workflowRun.Some? && |e.workflowRun.value.pullRequests| > 0 then
        var run := e.workflowRun.value;
        (Or(e.repositoryFullName, run.repositoryFullName), run.pullRequests[0].number)
      else (e.repositoryFullName, None)
  }

  /** A workflow run supplies the number of its first pull request, and its
      repository only when the top-level one is missing or empty. */
  lemma WorkflowRunFallback(e: Event)
    requires e.pullRequest.None? && (e.issue.None? || !e.issue.value.pullRequest)
    requires e.workflowRun.Some? && |e.workflowRun.value.pullRequests| > 0
    ensures InferFromEvent(Some(e)).1 == e.workflowRun.value.pullRequests[0].number
    ensures !Truthy(e.repositoryFullName) ==> InferFromEvent(Some(e)).0 == e.workflowRun.value.repositoryFullName
  {
  }

  /** Without a pull request, an issue that is one, or a workflow run with
      pull requests, there is no number. */
  lemma NoPullRequestInEvent(e: Event)
    requires e.pullRequest.None? && (e.issue.None? || !e.issue.value.pullRequest)
    requires e.workflowRun.None? || |e.workflowRun.value.pullRequests| == 0
    ensures InferFromEvent(Some(e)) == (e.repositoryFullName, None)
  {
  }

  const RepoMissing: string := "Repository must be provided via --repo or GITHUB_REPOSITORY"
  const PrMissing: string := "Pull request number missing. Provide --pr-number or event context"

  /** `_resolve_repo_and_pr`: the repository from the option, else the event,
      else `GITHUB_REPOSITORY`; the number from the option, else the event;
      empty strings and 0 count as missing, and a missing repository is
      reported before a missing number. */
  function ResolveRepoAndPr(repo: Option<string>, prNumber: Option<int>, event: Option<Event>, env: Env): (r: Result<(string, int), string>)
    ensures var (inferredRepo, inferredPr) := InferFromEvent(event);
            var chosenRepo := Or(repo, Or(inferredRepo, Var(env, "GITHUB_REPOSITORY")));
            var chosenPr := if TruthyInt(prNumber) then prNumber else inferredPr;
            && (!Truthy(chosenRepo) ==> r == Failure(RepoMissing))
            && (Truthy(chosenRepo) && !TruthyInt(chosenPr) ==> r == Failure(PrMissing))
            && (Truthy(chosenRepo) && TruthyInt(chosenPr) ==> r == Success((chosenRepo.value, chosenPr.value)))
  {
    var (inferredRepo, inferredPr) := InferFromEvent(event);
    var chosenRepo := Or(repo, Or(inferredRepo, Var(env, "GITHUB_REPOSITORY")));
    var chosenPr := if TruthyInt(prNumber) then prNumber else inferredPr;
    if !Truthy(chosenRepo) then Failure(RepoMissing)
    else if !TruthyInt(chosenPr) then Failure(PrMissing)
    else Success((chosenRepo.value, chosenPr.value))
  }

  /** A resolved repository and number are never empty or 0, and explicit
      options win over the event and the environment. */
  lemma ResolvedValues(repo: Option<string>, prNumber: Option<int>, event: Option<Event>, env: Env)
    ensures var r := ResolveRepoAndPr(repo, prNumber, event, env);
            && (r.Success? ==> r.value.0 != "" && r.value.1 != 0)
            && (r.Success? && Truthy(repo) ==> r.value.0 == repo.value)
            && (r.Success? && TruthyInt(prNumber) ==> r.value.1 == prNumber.value)
            && (Truthy(repo) && TruthyInt(prNumber) ==> r == Success((repo.value, prNumber.value)))
  {
  }

  /** Without a repository anywhere, the repository error is raised whatever
      the number. */
  lemma RepoErrorFirst(prNumber: Option<int>, event: Option<Event>, env: Env)
    requires event.None? && "GITHUB_REPOSITORY" !in env
    ensures ResolveRepoAndPr(None, prNumber, event, env) == Failure(RepoMissing)
  {
  }

  const MuralSize: string := "1536x1024"
  const PosterSize: string := "1024x1536"

  /** `_determine_size`: landscape exactly for the format `mural` in any
      spelling, portrait for everything else. */
  function DetermineSize(formatName: string): (size: string)
    ensures size == MuralSize <==> Lower(formatName) == "mural"
    ensures size == PosterSize <==> Lower(formatName) != "mural"
  {
    if Lower(formatName) == "mural" then MuralSize else PosterSize
  }

  // ---------------------------------------------------------------------------
  // generate
  // ---------------------------------------------------------------------------

  /** The options of the `generate` command that decide what it does. */
  datatype GenerateOptions = GenerateOptions(
    repo: Option<string>,
    prNumber: Option<int>,
    apiKey: Option<string>,
    formatName: string,
    styleName: string,
    language: string,
    provider: string,
    extraGuidance: string,
    eventPath: Option<string>)

  /** What `get_pull_request` returns that the prompt uses; the body may be `null`. */
  datatype PullRequestInfo = PullRequestInfo(title: string, body: Option<string>)

  /** The GitHub requests `generate` makes. */
  datatype GitHubRequest = GetPullRequest(repo: string, number: int) | GetPullRequestFiles(repo: string, number: int)

  /** What `generate` hands to the provider's image call. */
  datatype Ready<P> = Ready(provider: P, prompt: string, apiKey: string)

  /** The requests made, and either the error raised or what is ready for the
      image call. */
  datatype GenerateRun<P> = GenerateRun(requests: seq<GitHubRequest>, outcome: Result<Ready<P>, string>)

  const ApiKeyMissing: string := "API key must be provided via --api-key or OPENAI_API_KEY"
  const NoFileChanges: string := "No file changes detected"
  const NoDescription: string := "No description"

  /** The event path: the option, else `GITHUB_EVENT_PATH` when it is set and non-empty. */
  function EventPath(option: Option<string>, env: Env): Option<string> {
    if option.None? && Truthy(Var(env, "GITHUB_EVENT_PATH")) then Var(env, "GITHUB_EVENT_PATH") else option
  }

  /** The event read from `path` among the event files that exist. */
  function ReadEvent(path: Option<string>, events: map<string, Event>): Option<Event> {
    if path.Some? && path.value in events then Some(events[path.value]) else None
  }

  /** The prompt context `generate` builds: the pull request's title, its
      body or `No description`, the file summary or `No file changes detected`. */
  function Context(options: GenerateOptions, info: PullRequestInfo, files: seq<FileRecord>): (ctx: PromptContext)
    ensures ctx.formatName == options.formatName && ctx.styleName == options.styleName
    ensures ctx.language == options.language && ctx.extraGuidance == options.extraGuidance
    ensures ctx.prTitle == info.title
    ensures ctx.prBody == (if Truthy(info.body) then info.body.value else NoDescription)
    ensures ctx.diffSummary == NoFileChanges <==> files == []
    ensures files != [] ==> ctx.diffSummary == Summary(files, DefaultMaxChars)
  {
    SummaryOfFiles(files, DefaultMaxChars);
    var summary := Summary(files, DefaultMaxChars);
    PromptContext(
      formatName := options.formatName,
      styleName := options.styleName,
      language := options.language,
      prTitle := info.title,
      prBody := Or(info.body, Some(NoDescription)).value,
      diffSummary := if summary != "" then summary else NoFileChanges,
      extraGuidance := options.extraGuidance)
  }

  /** The summary of no files is empty, and that of some files starts with
      the first file's header, so it is never the fallback sentence. */
  lemma SummaryOfFiles(files: seq<FileRecord>, maxChars: int)
    requires maxChars >= 4
    ensures files == [] <==> Summary(files, maxChars) == ""
    ensures files != [] ==> Summary(files, maxChars)[0] == '*'
  {
    if files == [] {
      EmptySummary(maxChars);
    } else {
      SummaryStartsWithHeader(files, maxChars);
    }
  }

  /** `generate`, up to the provider's image call. */
  function Generate<P>(options: GenerateOptions, env: Env, events: map<string, Event>, info: PullRequestInfo,
                       files: seq<FileRecord>, data: DataDir, render: TemplateArgs -> string,
                       providers: map<string, Kwargs -> P>): (run: GenerateRun<P>)
    ensures var resolved := ResolveRepoAndPr(options.repo, options.prNumber, ReadEvent(EventPath(options.eventPath, env), events), env);
            && (resolved.Failure? ==> run == GenerateRun([], Failure(resolved.error)))
            && (resolved.Success? && !Truthy(options.apiKey) ==> run == GenerateRun([], Failure(ApiKeyMissing)))
            && (resolved.Success? && Truthy(options.apiKey) ==>
                  run.requests == [GetPullRequest(resolved.value.0, resolved.value.1),
                                   GetPullRequestFiles(resolved.value.0, resolved.value.1)])
    ensures run.outcome.Success? ==>
              var prompt := Build(data, Context(options, info, files), render);
              && prompt.Success? && run.outcome.value.prompt == prompt.value
              && Truthy(options.apiKey) && run.outcome.value.apiKey == options.apiKey.value
              && CreateFrom(providers, options.provider, map["size" := DetermineSize(options.formatName)])
                 == Success(run.outcome.value.provider)
  {
    var event := ReadEvent(EventPath(options.eventPath, env), events);
    match ResolveRepoAndPr(options.repo, options.prNumber, event, env)
    case Failure(e) => GenerateRun([], Failure(e))
    case Success((repo, number)) =>
      if !Truthy(options.apiKey) then GenerateRun([], Failure(ApiKeyMissing))
      else
        var requests := [GetPullRequest(repo, number), GetPullRequestFiles(repo, number)];
        match Build(data, Context(options, info, files), render)
        case Failure(e) => GenerateRun(requests, Failure(e))
        case Success(prompt) =>
          match CreateFrom(providers, options.provider, map["size" := DetermineSize(options.formatName)])
          case Failure(e) => GenerateRun(requests, Failure(e))
          case Success(provider) => GenerateRun(requests, Success(Ready(provider, prompt, options.apiKey.value)))
  }

  /** Every error that `generate` raises before its GitHub requests is a
      repository, number or key error; a prompt or provider error comes after
      both requests. */
  lemma GenerateCheckOrder<P>(options: GenerateOptions, env: Env, events: map<string, Event>, info: PullRequestInfo,
                              files: seq<FileRecord>, data: DataDir, render: TemplateArgs -> string,
                              providers: map<string, Kwargs -> P>)
    ensures var run := Generate(options, env, events, info, files, data, render, providers);
            && (run.requests == [] ==> run.outcome.Failure?
                                       && run.outcome.error in {RepoMissing, PrMissing, ApiKeyMissing})
            && (run.requests != [] ==> |run.requests| == 2 && Truthy(options.apiKey))
  {
  }
}
