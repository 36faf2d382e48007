/** `loadConfig` of the TypeScript app (src/config.ts): every setting is read
    from the process environment with a fixed fallback. The environment is a
    map from variable name to value; an absent key is `undefined`. */
module Config {
  import opened Wrappers
  import opened Text

  datatype AppConfig = AppConfig(
    allowedRepos: set<string>,
    imageProvider: string,
    openaiApiKey: Option<string>,
    openaiModel: string,
    openaiBaseUrl: Option<string>,
    posterPrompt: string,
    maxFiles: int,
    imageWidth: int,
    imageHeight: int)

  const DefaultPrompt: string :=
    "Generate a high-contrast Soviet propaganda style poster that celebrates the collaboration in this pull request. "
    + "Include bold geometric shapes, expressive characters, and heroic lighting."
  const DefaultProvider: string := "chatgpt"
  const DefaultModel: string := "gpt-image-1"
  const DefaultMaxFiles: int := 10
  const DefaultWidth: int := 1024
  const DefaultHeight: int := 1536

  /** `a ?? b` on two optional values: only `undefined` falls through. */
  function OrElse(a: Option<string>, b: Option<string>): Option<string> {
    if a.Some? then a else b
  }

  /** `entries.map((entry) => entry.trim())`. */
  function TrimAll(entries: seq<string>): (r: seq<string>)
    ensures |r| == |entries|
    ensures forall i :: 0 <= i < |entries| ==> r[i] == Strip(entries[i])
  {
    if entries == [] then [] else [Strip(entries[0])] + TrimAll(entries[1..])
  }

  /** `.filter(Boolean)` on strings: drops the empty ones, keeps the order. */
  function DropEmpty(entries: seq<string>): (r: seq<string>)
    ensures |r| <= |entries|
    ensures forall x :: x in r <==> x in entries && x != ""
  {
    if entries == [] then []
    else if entries[0] == "" then DropEmpty(entries[1..])
    else [entries[0]] + DropEmpty(entries[1..])
  }

  /** The entries of a comma-separated list, trimmed, empty ones dropped. */
  function ListEntries(raw: string): seq<string> {
    DropEmpty(TrimAll(Split(raw, ',')))
  }

  /** `ALLOWED_REPOS` as a set: unset or empty gives the empty set. */
  function AllowedRepos(raw: Option<string>): (r: set<string>)
    ensures raw.None? || raw.value == "" ==> r == {}
    ensures raw.Some? ==> forall x :: x in r <==> x in ListEntries(raw.value)
  {
    if raw.None? || raw.value == "" then {}
    else set x | x in ListEntries(raw.value)
  }

  /** `Number.parseInt(text, 10)` with `NaN` replaced by `fallback`. */
  function IntOr(text: string, fallback: int): int {
    ParseInt(text).GetOr(fallback)
  }

  lemma ParseIntOf10()
    ensures ParseInt("10") == Some(10)
  {
    assert DigitChar(0) == '0';
    assert DigitChar(1) == '1';
    assert NatToString(1) == "1";
    assert NatToString(10) == "10";
    ParseIntOfNonNegative(10, "");
    assert NatToString(10) + "" == "10";
  }

  lemma ParseIntOf1024()
    ensures ParseInt("1024") == Some(1024)
  {
    assert DigitChar(0) == '0';
    assert DigitChar(1) == '1';
    assert DigitChar(2) == '2';
    assert DigitChar(4) == '4';
    assert NatToString(1) == "1";
    assert NatToString(10) == "10";
    assert NatToString(102) == "102";
    assert NatToString(1024) == "1024";
    ParseIntOfNonNegative(1024, "");
    assert NatToString(1024) + "" == "1024";
  }

  lemma ParseIntOf1536()
    ensures ParseInt("1536") == Some(1536)
  {
    assert DigitChar(1) == '1';
    assert DigitChar(3) == '3';
    assert DigitChar(5) == '5';
    assert DigitChar(6) == '6';
    assert NatToString(1) == "1";
    assert NatToString(15) == "15";
    assert NatToString(153) == "153";
    assert NatToString(1536) == "1536";
    ParseIntOfNonNegative(1536, "");
    assert NatToString(1536) + "" == "1536";
  }

  /** `maxFiles`: `MAX_FILES` parsed, 10 when it is unset or not a number. */
  function MaxFiles(env: Env): (n: int)
    ensures "MAX_FILES" !in env ==> n == DefaultMaxFiles
    ensures "MAX_FILES" in env ==> n == ParseInt(env["MAX_FILES"]).GetOr(DefaultMaxFiles)
  {
    ParseIntOf10();
    IntOr(OrElse(Var(env, "MAX_FILES"), Some("10")).value, DefaultMaxFiles)
  }

  /** `imageWidth`: `IMAGE_WIDTH`, else `IMAGE_SIZE`, else 1024; 1024 when not a number. */
  function ImageWidth(env: Env): (w: int)
    ensures "IMAGE_WIDTH" in env ==> w == ParseInt(env["IMAGE_WIDTH"]).GetOr(DefaultWidth)
    ensures "IMAGE_WIDTH" !in env && "IMAGE_SIZE" in env ==> w == ParseInt(env["IMAGE_SIZE"]).GetOr(DefaultWidth)
    ensures "IMAGE_WIDTH" !in env && "IMAGE_SIZE" !in env ==> w == DefaultWidth
  {
    ParseIntOf1024();
    IntOr(OrElse(Var(env, "IMAGE_WIDTH"), OrElse(Var(env, "IMAGE_SIZE"), Some("1024"))).value, DefaultWidth)
  }

  /** `imageHeight`: `IMAGE_HEIGHT`, else `IMAGE_SIZE`, else 1536; 1536 when not a number. */
  function ImageHeight(env: Env): (h: int)
    ensures "IMAGE_HEIGHT" in env ==> h == ParseInt(env["IMAGE_HEIGHT"]).GetOr(DefaultHeight)
    ensures "IMAGE_HEIGHT" !in env && "IMAGE_SIZE" in env ==> h == ParseInt(env["IMAGE_SIZE"]).GetOr(DefaultHeight)
    ensures "IMAGE_HEIGHT" !in env && "IMAGE_SIZE" !in env ==> h == DefaultHeight
  {
    ParseIntOf1536();
    IntOr(OrElse(Var(env, "IMAGE_HEIGHT"), OrElse(Var(env, "IMAGE_SIZE"), Some("1536"))).value, DefaultHeight)
  }

  /** `loadConfig()`: the provider, model and prompt fall back only when their
      variable is unset (an empty value is kept). */
  function LoadConfig(env: Env): (c: AppConfig)
    ensures "IMAGE_PROVIDER" !in env ==> c.imageProvider == DefaultProvider
    ensures "IMAGE_PROVIDER" in env ==> c.imageProvider == env["IMAGE_PROVIDER"]
    ensures "OPENAI_IMAGE_MODEL" !in env ==> c.openaiModel == DefaultModel
    ensures "OPENAI_IMAGE_MODEL" in env ==> c.openaiModel == env["OPENAI_IMAGE_MODEL"]
    ensures "POSTER_PROMPT" !in env ==> c.posterPrompt == DefaultPrompt
    ensures "POSTER_PROMPT" in env ==> c.posterPrompt == env["POSTER_PROMPT"]
    ensures c.openaiApiKey == Var(env, "OPENAI_API_KEY") && c.openaiBaseUrl == Var(env, "OPENAI_BASE_URL")
    ensures c.allowedRepos == AllowedRepos(Var(env, "ALLOWED_REPOS"))
    ensures c.maxFiles == MaxFiles(env) && c.imageWidth == ImageWidth(env) && c.imageHeight == ImageHeight(env)
  {
    AppConfig(
      allowedRepos := AllowedRepos(Var(env, "ALLOWED_REPOS")),
      imageProvider := OrElse(Var(env, "IMAGE_PROVIDER"), Some(DefaultProvider)).value,
      openaiApiKey := Var(env, "OPENAI_API_KEY"),
      openaiModel := OrElse(Var(env, "OPENAI_IMAGE_MODEL"), Some(DefaultModel)).value,
      openaiBaseUrl := Var(env, "OPENAI_BASE_URL"),
      posterPrompt := OrElse(Var(env, "POSTER_PROMPT"), Some(DefaultPrompt)).value,
      maxFiles := MaxFiles(env),
      imageWidth := ImageWidth(env),
      imageHeight := ImageHeight(env))
  }

  /** An allow-list written as `a,b,c` (entries non-empty, without commas and
      without surrounding whitespace) is read back as exactly those entries. */
  lemma {:induction false} AllowedReposOfJoin(repos: seq<string>)
    requires |repos| >= 1
    requires forall i :: 0 <= i < |repos| ==> repos[i] != "" && ',' !in repos[i] && Strip(repos[i]) == repos[i]
    ensures AllowedRepos(Some(Join(repos, ","))) == set x | x in repos
  {
    SplitOfJoin(repos, ',');
    var raw := Join(repos, ",");
    assert raw[..|repos[0]|] == repos[0];
    assert raw != "";
    var trimmed := TrimAll(repos);
    assert trimmed == repos;
  }

  /** Every allowed entry is non-empty and trimmed, and is the trimmed form
      of one comma-separated piece of the variable. */
  lemma AllowedReposTrimsEntries(raw: string, x: string)
    requires x in AllowedRepos(Some(raw))
    ensures x != "" && Strip(x) == x
    ensures x in TrimAll(Split(raw, ','))
  {
    var trimmed := TrimAll(Split(raw, ','));
    assert x in trimmed;
    var i :| 0 <= i < |trimmed| && trimmed[i] == x;
    StripIdempotent(Split(raw, ',')[i]);
  }
}
