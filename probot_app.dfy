/** The pull-request handler of the TypeScript Probot app (src/index.ts): the
    allow-list test, the prompt built from the webhook payload, the comment
    bodies, and the order of the handler's effects. The GitHub API, the
    image provider and the logger are outside the model: the handler is a
    function from their answers to the trace of effects it performs. */
module ProbotApp {
  import opened Wrappers
  import opened Text
  import opened Config
  import opened PosterPrompt
  import opened ImageProviders

  // ---------------------------------------------------------------------------
  // Allow-list
  // ---------------------------------------------------------------------------

  /** `shouldProcessRepo`: an empty allow-list lets every repository through. */
  predicate ShouldProcessRepo(allowedRepos: set<string>, repoFullName: string) {
    allowedRepos == {} || repoFullName in allowedRepos
  }

  /** With `ALLOWED_REPOS` unset or empty every repository is processed, and
      with `a,b,c` exactly the listed ones are. */
  lemma ShouldProcessRepoOfEnv(env: Env, repoFullName: string)
    ensures ("ALLOWED_REPOS" !in env || env["ALLOWED_REPOS"] == "") ==> ShouldProcessRepo(LoadConfig(env).allowedRepos, repoFullName)
    ensures ("ALLOWED_REPOS" in env && env["ALLOWED_REPOS"] != "") ==>
              (ShouldProcessRepo(LoadConfig(env).allowedRepos, repoFullName) <==>
                 LoadConfig(env).allowedRepos == {} || repoFullName in ListEntries(env["ALLOWED_REPOS"]))
  {
  }

  lemma ShouldProcessListedRepos(repos: seq<string>, repoFullName: string)
    requires |repos| >= 1
    requires forall i :: 0 <= i < |repos| ==> repos[i] != "" && ',' !in repos[i] && Strip(repos[i]) == repos[i]
    ensures ShouldProcessRepo(AllowedRepos(Some(Join(repos, ","))), repoFullName) <==> repoFullName in repos
  {
    AllowedReposOfJoin(repos);
    assert repos[0] in AllowedRepos(Some(Join(repos, ",")));
  }

  // ---------------------------------------------------------------------------
  // Payload and prompt
  // ---------------------------------------------------------------------------

  datatype Repository = Repository(fullName: string, name: string, ownerLogin: string)

  /** The part of the `pull_request` webhook payload the handler reads. */
  datatype PullRequestPayload = PullRequestPayload(repository: Repository, pullRequest: PullRequestSummary)

  /** `buildPromptFromPayload`: the configured base prompt and file limit
      applied to the payload's repository and pull request. */
  function BuildPromptFromPayload(config: AppConfig, payload: PullRequestPayload, files: seq<ChangedFileSummary>): (prompt: string)
    ensures |prompt| >= |config.posterPrompt| && prompt[..|config.posterPrompt|] == config.posterPrompt
    ensures var section := FormatFiles(files, config.maxFiles);
            |prompt| >= |section| && prompt[|prompt| - |section|..] == section
  {
    BuildPosterPrompt(config.posterPrompt, payload.repository.fullName, payload.pullRequest, files, config.maxFiles)
  }

  // ---------------------------------------------------------------------------
  // Comments
  // ---------------------------------------------------------------------------

  const CommentTitle: string :=
    "\U{1F6E0}\U{FE0F} Generated " + "Soviet-inspired " + "propaganda " + "poster for " + "this PR!"
  const FailurePrefix: string := "\U{2757} Unable to generate poster: "
  const UnknownError: string := "Unknown error"
  const DetailsEnd: string := "</details>"

  function ImageLine(imageUrl: string): string {
    "![Generated poster](" + imageUrl + ")"
  }

  function SummaryLine(provider: string): string {
    "<summary>Prompt (" + provider + ")</summary>"
  }

  /** The comment lines above the prompt. */
  function HeadLines(imageUrl: string, provider: string): seq<string> {
    [CommentTitle, "", ImageLine(imageUrl), "", "<details>", SummaryLine(provider), ""]
  }

  /** Everything of the comment that comes before the prompt. */
  function CommentHead(imageUrl: string, provider: string): string {
    Join(HeadLines(imageUrl, provider), "\n") + "\n"
  }

  /** `createCommentBody`: the fixed lines joined by line breaks. The prompt
      sits verbatim between a head that depends only on the URL and the
      provider and the closing `</details>` line. */
  function CreateCommentBody(imageUrl: string, prompt: string, provider: string): (body: string)
    ensures var head := CommentHead(imageUrl, provider);
            && |body| == |head| + |prompt| + 1 + |DetailsEnd|
            && body[..|head|] == head
            && body[|head|..|head| + |prompt|] == prompt
            && body[|head| + |prompt|..] == "\n" + DetailsEnd
  {
    var head := HeadLines(imageUrl, provider);
    JoinAppend(head, prompt, "\n");
    JoinAppend(head + [prompt], DetailsEnd, "\n");
    var body := Join(head + [prompt] + [DetailsEnd], "\n");
    var before := CommentHead(imageUrl, provider) + prompt;
    assert body == before + "\n" + DetailsEnd;
    assert body == CommentHead(imageUrl, provider) + prompt + ("\n" + DetailsEnd) by {
      assert before + "\n" + DetailsEnd == before + ("\n" + DetailsEnd);
    }
    ConcatSlices(CommentHead(imageUrl, provider), prompt, "\n" + DetailsEnd);
    body
  }

  lemma TitleIsOneLine()
    ensures '\n' !in CommentTitle
  {
    assert '\n' !in "\U{1F6E0}\U{FE0F} Generated ";
    assert '\n' !in "Soviet-inspired ";
    assert '\n' !in "propaganda ";
    assert '\n' !in "poster for ";
    assert '\n' !in "this PR!";
  }

  lemma HeadLinesAreOneLine(imageUrl: string, provider: string)
    requires '\n' !in imageUrl && '\n' !in provider
    ensures forall k :: 0 <= k < |HeadLines(imageUrl, provider)| ==> '\n' !in HeadLines(imageUrl, provider)[k]
  {
    assert '\n' !in ImageLine(imageUrl) by {
      assert '\n' !in "![Generated poster](";
    }
    assert '\n' !in SummaryLine(provider) by {
      assert '\n' !in "<summary>Prompt (" && '\n' !in ")</summary>";
    }
    TitleIsOneLine();
    assert '\n' !in "<details>";
  }

  /** When none of its parts contains a line break, the comment splits back
      into exactly its nine lines: the title, the image, the provider in the
      summary and the prompt inside the details block. */
  lemma CommentBodyLines(imageUrl: string, prompt: string, provider: string)
    requires '\n' !in imageUrl && '\n' !in prompt && '\n' !in provider
    ensures Split(CreateCommentBody(imageUrl, prompt, provider), '\n')
            == [CommentTitle, "", ImageLine(imageUrl), "", "<details>", SummaryLine(provider), "", prompt, DetailsEnd]
  {
    var lines := HeadLines(imageUrl, provider) + [prompt] + [DetailsEnd];
    HeadLinesAreOneLine(imageUrl, provider);
    assert '\n' !in DetailsEnd;
    assert forall k :: 0 <= k < |lines| ==> '\n' !in lines[k];
    SplitOfJoin(lines, '\n');
  }

  /** What a `catch` receives: an `Error` carries a message, anything else
      does not. */
  datatype Thrown = ErrorInstance(message: string) | OtherValue

  /** The comment posted when generation (or the first comment) fails. */
  function FailureComment(error: Thrown): (body: string)
    ensures |body| >= |FailurePrefix| && body[..|FailurePrefix|] == FailurePrefix
    ensures error.ErrorInstance? ==> body[|FailurePrefix|..] == error.message
    ensures error.OtherValue? ==> body[|FailurePrefix|..] == UnknownError
  {
    var message := if error.ErrorInstance? then error.message else UnknownError;
    assert (FailurePrefix + message)[|FailurePrefix|..] == message;
    FailurePrefix + message
  }

  // ---------------------------------------------------------------------------
  // The handler
  // ---------------------------------------------------------------------------

  /** The effects of `handlePullRequestEvent`, in order. */
  datatype Effect =
    | LogSkip(message: string)
    | FetchChangedFiles(owner: string, repo: string, pullNumber: int)
    | GeneratePoster(request: ImageRequest)
    | LogGenerationFailure
    | CreateComment(owner: string, repo: string, issueNumber: int, body: string)

  function SkipMessage(repoFullName: string): string {
    "Skipping PR for " + repoFullName + " because it is not in the allowed list."
  }

  function CommentOn(payload: PullRequestPayload, body: string): Effect {
    CreateComment(payload.repository.ownerLogin, payload.repository.name, payload.pullRequest.number, body)
  }

  /** Every comment in the trace goes to the event's pull request. */
  predicate CommentsTarget(trace: seq<Effect>, payload: PullRequestPayload) {
    forall k :: 0 <= k < |trace| && trace[k].CreateComment? ==>
      trace[k].owner == payload.repository.ownerLogin && trace[k].repo == payload.repository.name
      && trace[k].issueNumber == payload.pullRequest.number
  }

  lemma CommentsTargetAppend(a: seq<Effect>, b: seq<Effect>, payload: PullRequestPayload)
    requires CommentsTarget(a, payload) && CommentsTarget(b, payload)
    ensures CommentsTarget(a + b, payload)
  {
    forall k | 0 <= k < |a + b| && (a + b)[k].CreateComment?
      ensures (a + b)[k].issueNumber == payload.pullRequest.number
    {
      if k >= |a| {
        assert (a + b)[k] == b[k - |a|];
      }
    }
  }

  /** The `catch` branch: log, then post the failure comment. */
  function Recover(payload: PullRequestPayload, error: Thrown): (trace: seq<Effect>)
    ensures |trace| == 2 && trace[0] == LogGenerationFailure
    ensures CommentsTarget(trace, payload)
  {
    [LogGenerationFailure, CommentOn(payload, FailureComment(error))]
  }

  /** What the handler does once the provider has answered: post the poster
      comment, and recover from a failed generation or a failed post. */
  function AfterGeneration(payload: PullRequestPayload, prompt: string, generated: Result<ImageResult, Thrown>,
                           postComment: string -> Option<Thrown>): (trace: seq<Effect>)
    ensures 1 <= |trace| <= 3
    ensures CommentsTarget(trace, payload) && trace[|trace| - 1].CreateComment?
    ensures generated.Failure? ==> trace == Recover(payload, generated.error)
    ensures generated.Success? && postComment(CreateCommentBody(generated.value.url, prompt, generated.value.provider)).None? ==>
              trace == [CommentOn(payload, CreateCommentBody(generated.value.url, prompt, generated.value.provider))]
    ensures generated.Success? && postComment(CreateCommentBody(generated.value.url, prompt, generated.value.provider)).Some? ==>
              trace == [CommentOn(payload, CreateCommentBody(generated.value.url, prompt, generated.value.provider))]
                       + Recover(payload, postComment(CreateCommentBody(generated.value.url, prompt, generated.value.provider)).value)
  {
    match generated
    case Failure(error) => Recover(payload, error)
    case Success(image) =>
      var comment := CreateCommentBody(image.url, prompt, image.provider);
      match postComment(comment)
      case None => [CommentOn(payload, comment)]
      case Some(error) => [CommentOn(payload, comment)] + Recover(payload, error)
  }

  /** The two calls before generation: fetch the changed files, then ask
      the provider for the poster. Neither is a comment. */
  function Prelude(payload: PullRequestPayload, request: ImageRequest): (start: seq<Effect>)
    ensures |start| == 2 && CommentsTarget(start, payload)
    ensures start[0] == FetchChangedFiles(payload.repository.ownerLogin, payload.repository.name, payload.pullRequest.number)
    ensures start[1] == GeneratePoster(request)
  {
    [FetchChangedFiles(payload.repository.ownerLogin, payload.repository.name, payload.pullRequest.number),
     GeneratePoster(request)]
  }

  /** `handlePullRequestEvent`. `files` is what fetching the changed files
      returned, `generate` answers the image provider's `generatePoster`, and
      `postComment` says whether posting a comment throws (and what). A throw
      from the failure comment itself leaves the handler, so nothing follows
      it in the trace. */
  function HandlePullRequestEvent(config: AppConfig, payload: PullRequestPayload,
                                  files: seq<ChangedFileSummary>,
                                  generate: ImageRequest -> Result<ImageResult, Thrown>,
                                  postComment: string -> Option<Thrown>): (trace: seq<Effect>)
    ensures CommentsTarget(trace, payload)
    ensures !ShouldProcessRepo(config.allowedRepos, payload.repository.fullName) ==>
              trace == [LogSkip(SkipMessage(payload.repository.fullName))]
    ensures ShouldProcessRepo(config.allowedRepos, payload.repository.fullName) ==>
              var prompt := BuildPromptFromPayload(config, payload, files);
              var request := ImageRequest(prompt, Some(config.imageWidth), Some(config.imageHeight));
              && 3 <= |trace| <= 5
              && trace[0] == FetchChangedFiles(payload.repository.ownerLogin, payload.repository.name, payload.pullRequest.number)
              && trace[1] == GeneratePoster(request)
              && trace[2..] == AfterGeneration(payload, prompt, generate(request), postComment)
  {
    var repoFullName := payload.repository.fullName;
    if !ShouldProcessRepo(config.allowedRepos, repoFullName) then
      [LogSkip(SkipMessage(repoFullName))]
    else
      var prompt := BuildPromptFromPayload(config, payload, files);
      var request := ImageRequest(prompt, Some(config.imageWidth), Some(config.imageHeight));
      var start := Prelude(payload, request);
      var rest := AfterGeneration(payload, prompt, generate(request), postComment);
      assert (start + rest)[2..] == rest;
      CommentsTargetAppend(start, rest, payload);
      start + rest
  }

  /** A failed generation ends with the failure comment carrying the error's
      message, or `Unknown error` for a thrown non-`Error`. */
  lemma FailedGenerationIsReported(config: AppConfig, payload: PullRequestPayload,
                                   files: seq<ChangedFileSummary>,
                                   generate: ImageRequest -> Result<ImageResult, Thrown>,
                                   postComment: string -> Option<Thrown>)
    requires ShouldProcessRepo(config.allowedRepos, payload.repository.fullName)
    requires generate(ImageRequest(BuildPromptFromPayload(config, payload, files),
                                   Some(config.imageWidth), Some(config.imageHeight))).Failure?
    ensures var trace := HandlePullRequestEvent(config, payload, files, generate, postComment);
            var error := generate(ImageRequest(BuildPromptFromPayload(config, payload, files),
                                               Some(config.imageWidth), Some(config.imageHeight))).error;
            |trace| == 4 && trace[2] == LogGenerationFailure
            && trace[3] == CommentOn(payload, FailureComment(error))
  {
  }

  /** With the dummy provider and a comment that posts, the handler posts one
      comment whose image is the placeholder for the configured size and whose
      details hold the prompt. */
  lemma DummyProviderComment(config: AppConfig, payload: PullRequestPayload,
                             files: seq<ChangedFileSummary>,
                             postComment: string -> Option<Thrown>)
    requires ShouldProcessRepo(config.allowedRepos, payload.repository.fullName)
    requires forall body :: postComment(body) == None
    ensures var prompt := BuildPromptFromPayload(config, payload, files);
            var request := ImageRequest(prompt, Some(config.imageWidth), Some(config.imageHeight));
            var trace := HandlePullRequestEvent(config, payload, files, (r: ImageRequest) => Success(DummyGeneratePoster(r)), postComment);
            |trace| == 3
            && trace[2] == CommentOn(payload, CreateCommentBody(PlaceholderUrl(SizeString(config.imageWidth, config.imageHeight)), prompt, DummyName))
  {
    var prompt := BuildPromptFromPayload(config, payload, files);
    var request := ImageRequest(prompt, Some(config.imageWidth), Some(config.imageHeight));
    assert DummyGeneratePoster(request).url == PlaceholderUrl(SizeString(config.imageWidth, config.imageHeight));
  }
}
