/** `load_pr_from_event` of the `src/gitsoviet/` Python package
    (src/gitsoviet/github.py): reads the pull request fields out of a parsed
    GitHub event payload, and the changed files and diff out of the
    `gitsoviet` object nested inside the pull request. */
module GitHubEvent {
  import opened Wrappers

  /** A string-valued key of a JSON object: absent, `null`, or a string. */
  datatype Field = Absent | Null | Text(s: string)

  /** `obj.get(key, default)`: the default for an absent key, Python's
      `None` (here `None`) for a `null`. */
  function Get(f: Field, default: string): (v: Option<string>)
    ensures f.Absent? ==> v == Some(default)
    ensures f.Null? ==> v == None
    ensures f.Text? ==> v == Some(f.s)
  {
    match f
    case Absent => Some(default)
    case Null => None
    case Text(s) => Some(s)
  }

  /** The `gitsoviet` object: `changed_files` is `None` when the key is
      absent or `null`. */
  datatype Details = Details(changedFiles: Option<seq<string>>, diff: Field)

  /** A `pull_request` object. `otherKeys` says whether it has keys besides
      the three read here, which decides whether it is an empty `dict`. */
  datatype PullRequestObject = PullRequestObject(
    otherKeys: bool,
    title: Field,
    body: Field,
    gitsoviet: Option<Details>)

  /** The value under `pull_request`: absent, a falsy scalar (`null`,
      `false`, `0`, `""`), or an object. */
  datatype PullRequestValue = Missing | FalsyScalar | Object(pr: PullRequestObject)

  /** The parsed payload: something other than an object, or an object. */
  datatype Event = NotADict | EventDict(pullRequest: PullRequestValue)

  /** `PRData`. A `null` title, body or diff reaches it as `None`. */
  datatype PRData = PRData(title: Option<string>, body: Option<string>, changedFiles: seq<string>, diff: Option<string>)

  /** Python truthiness of a `dict`: it has at least one key. */
  predicate NonEmpty(pr: PullRequestObject) {
    pr.otherKeys || !pr.title.Absent? || !pr.body.Absent? || pr.gitsoviet.Some?
  }

  /** `details.get("changed_files", []) or []`. */
  function FilesOf(changedFiles: Option<seq<string>>): (files: seq<string>)
    ensures changedFiles.None? ==> files == []
    ensures changedFiles.Some? ==> files == changedFiles.value
  {
    if changedFiles.None? || changedFiles.value == [] then [] else changedFiles.value
  }

  /** `load_pr_from_event`. */
  function LoadPrFromEvent(event: Event): (r: Option<PRData>)
    ensures r.Some? <==> event.EventDict? && event.pullRequest.Object? && NonEmpty(event.pullRequest.pr)
    ensures r.Some? ==> r.value.title == Get(event.pullRequest.pr.title, "")
                        && r.value.body == Get(event.pullRequest.pr.body, "")
    ensures r.Some? && event.pullRequest.pr.gitsoviet.None? ==> r.value.changedFiles == [] && r.value.diff == Some("")
    ensures r.Some? && event.pullRequest.pr.gitsoviet.Some? ==>
              var details := event.pullRequest.pr.gitsoviet.value;
              r.value.changedFiles == FilesOf(details.changedFiles) && r.value.diff == Get(details.diff, "")
  {
    if event.NotADict? || !event.pullRequest.Object? || !NonEmpty(event.pullRequest.pr) then None
    else
      var pr := event.pullRequest.pr;
      var title := Get(pr.title, "");
      var body := Get(pr.body, "");
      match pr.gitsoviet
      case Some(details) => Some(PRData(title, body, FilesOf(details.changedFiles), Get(details.diff, "")))
      case None => Some(PRData(title, body, [], Some("")))
  }

  /** The payload a workflow would write for the given fields. */
  function EventOf(title: string, body: string, changedFiles: seq<string>, diff: string): Event {
    EventDict(Object(PullRequestObject(false, Text(title), Text(body), Some(Details(Some(changedFiles), Text(diff))))))
  }

  /** Reading back the payload written for some fields gives those fields. */
  lemma LoadOfEventOf(title: string, body: string, changedFiles: seq<string>, diff: string)
    ensures LoadPrFromEvent(EventOf(title, body, changedFiles, diff))
            == Some(PRData(Some(title), Some(body), changedFiles, Some(diff)))
  {
  }

  /** Changed files and diff come only from the `gitsoviet` object: a pull
      request without one reads the same whatever else it holds. */
  lemma DetailsOnlyFromGitsoviet(pr: PullRequestObject, other: PullRequestObject)
    requires pr.gitsoviet.None? && other.gitsoviet.None?
    requires pr.title == other.title && pr.body == other.body
    requires NonEmpty(pr) && NonEmpty(other)
    ensures LoadPrFromEvent(EventDict(Object(pr))) == LoadPrFromEvent(EventDict(Object(other)))
    ensures LoadPrFromEvent(EventDict(Object(pr))).value.changedFiles == []
  {
  }
}
