/** `PosterRequest` of the `src/gitsoviet/` Python package
    (src/gitsoviet/request.py): a request whose format and style names are
    normalised on construction and checked against two fixed tables, and
    whose labels and image size are read from those tables. */
module Request {
  import opened Wrappers
  import opened Text

  /** One row of `FORMATS`. */
  datatype FormatConfig = FormatConfig(labelText: string, size: string)

  /** `FORMATS`. */
  const Formats: map<string, FormatConfig> :=
    map["poster" := FormatConfig("Poster", "1024x1536"),
        "mural" := FormatConfig("Mural", "1536x1024")]

  /** `STYLES`. */
  const Styles: map<string, string> :=
    map["soviet" := "Soviet",
        "dprk" := "DPRK",
        "cuban" := "Cuban",
        "capitalist" := "Capitalist",
        "royalist" := "Royalist"]

  /** `_normalize`: stripped, lower-cased, spaces turned into underscores. */
  function Normalize(value: string): string {
    ReplaceChar(Lower(Strip(value)), ' ', '_')
  }

  /** What `_normalize` makes of one character of the stripped value. */
  function NormChar(c: char): char {
    if LowerChar(c) == ' ' then '_' else LowerChar(c)
  }

  lemma NormCharFacts(c: char)
    ensures NormChar(c) != ' ' && !('A' <= NormChar(c) <= 'Z')
    ensures LowerChar(NormChar(c)) == NormChar(c)
    ensures !IsSpace(c) ==> !IsSpace(NormChar(c))
  {
  }

  /** `_normalize` works character by character on the stripped value. */
  lemma NormalizePointwise(value: string)
    ensures var s := Strip(value);
            var n := Normalize(value);
            |n| == |s| && forall i :: 0 <= i < |n| ==> n[i] == NormChar(s[i])
  {
  }

  /** A normalised name has no surrounding whitespace, no upper-case letter
      and no space. */
  lemma NormalizeShape(value: string)
    ensures var n := Normalize(value);
            && Strip(n) == n
            && forall i :: 0 <= i < |n| ==> n[i] != ' ' && !('A' <= n[i] <= 'Z') && LowerChar(n[i]) == n[i]
  {
    var s := Strip(value);
    var n := Normalize(value);
    NormalizePointwise(value);
    forall i | 0 <= i < |n| ensures n[i] != ' ' && !('A' <= n[i] <= 'Z') && LowerChar(n[i]) == n[i] {
      NormCharFacts(s[i]);
    }
    if n != [] {
      NormCharFacts(s[0]);
      NormCharFacts(s[|s| - 1]);
    }
    StripOfStripped(n);
  }

  /** A normalised name is a fixed point of `_normalize`. */
  lemma NormalizeIdempotent(value: string)
    ensures Normalize(Normalize(value)) == Normalize(value)
  {
    var n := Normalize(value);
    NormalizeShape(value);
    assert Strip(n) == n;
    assert forall i :: 0 <= i < |n| ==> n[i] != ' ' && LowerChar(n[i]) == n[i];
    NormalizeFixed(n);
  }

  /** A name without surrounding whitespace, upper-case letters or spaces
      is left as it is. */
  lemma NormalizeFixed(n: string)
    requires Strip(n) == n
    requires forall i :: 0 <= i < |n| ==> n[i] != ' ' && LowerChar(n[i]) == n[i]
    ensures Normalize(n) == n
  {
    assert Lower(n) == n by {
      var l := Lower(n);
      assert forall i :: 0 <= i < |n| ==> l[i] == n[i];
    }
    assert ReplaceChar(n, ' ', '_') == n by {
      var r := ReplaceChar(n, ' ', '_');
      assert forall i :: 0 <= i < |n| ==> r[i] == n[i];
    }
  }

  /** `Unsupported <kind> '<value>'. Available: <sorted names>`. */
  function Unsupported(kind: string, value: string, names: set<string>): string {
    "Unsupported " + kind + " '" + value + "'. Available: " + Join(SortedSet(names), ", ")
  }

  /** The checks of `__post_init__`: the normalised format, then the
      normalised style, each against its table. The result is the pair of
      keys. */
  function Validate(format: string, style: string): (r: Result<(string, string), string>)
    ensures r.Success? <==> Normalize(format) in Formats && Normalize(style) in Styles
    ensures r.Success? ==> r.value == (Normalize(format), Normalize(style))
    ensures Normalize(format) !in Formats ==> r == Failure(Unsupported("format", format, Formats.Keys))
    ensures Normalize(format) in Formats && Normalize(style) !in Styles ==>
              r == Failure(Unsupported("style", style, Styles.Keys))
  {
    var formatKey := Normalize(format);
    var styleKey := Normalize(style);
    if formatKey !in Formats then Failure(Unsupported("format", format, Formats.Keys))
    else if styleKey !in Styles then Failure(Unsupported("style", style, Styles.Keys))
    else Success((formatKey, styleKey))
  }

  /** A bad format is reported whatever the style. */
  lemma BadFormatWins(format: string, style: string)
    requires Normalize(format) !in Formats
    ensures Validate(format, style) == Failure(Unsupported("format", format, Formats.Keys))
    ensures SortedSet(Formats.Keys) == ["mural", "poster"]
  {
    FormatNamesSorted();
  }

  /** An unknown style is reported with the five style names in order. */
  lemma BadStyleListsStyles(format: string, style: string)
    requires Normalize(format) in Formats && Normalize(style) !in Styles
    ensures Validate(format, style) == Failure(Unsupported("style", style, Styles.Keys))
    ensures SortedSet(Styles.Keys) == ["capitalist", "cuban", "dprk", "royalist", "soviet"]
  {
    StyleNamesSorted();
  }

  lemma FormatNamesSorted()
    ensures SortedSet(Formats.Keys) == ["mural", "poster"]
  {
    var names := ["mural", "poster"];
    assert LexLe("mural", "poster");
    assert StrictlySorted(names);
    assert Formats.Keys == {"mural", "poster"};
    StrictlySortedUnique(SortedSet(Formats.Keys), names);
  }

  lemma StyleNamesSorted()
    ensures SortedSet(Styles.Keys) == ["capitalist", "cuban", "dprk", "royalist", "soviet"]
  {
    var names := ["capitalist", "cuban", "dprk", "royalist", "soviet"];
    assert LexLe("capitalist", "cuban");
    assert LexLe("cuban", "dprk");
    assert LexLe("dprk", "royalist");
    assert LexLe("royalist", "soviet");
    forall i, j | 0 <= i < j < |names| ensures LexLe(names[i], names[j]) && names[i] != names[j] {
      if j > i + 1 {
        LexLeChain(names, i, j);
      }
    }
    assert Styles.Keys == {"capitalist", "cuban", "dprk", "royalist", "soviet"};
    StrictlySortedUnique(SortedSet(Styles.Keys), names);
  }

  lemma {:induction false} LexLeChain(names: seq<string>, i: nat, j: nat)
    requires i < j < |names|
    requires forall k :: 0 <= k < |names| - 1 ==> LexLe(names[k], names[k + 1])
    ensures LexLe(names[i], names[j])
    decreases j - i
  {
    if j > i + 1 {
      LexLeChain(names, i + 1, j);
      LexLeTransitive(names[i], names[i + 1], names[j]);
    }
  }

  /** The fields of a `PosterRequest` once `__post_init__` has accepted it. */
  class PosterRequest {
    const repoName: string
    const prTitle: string
    const prDescription: string
    const prAuthor: string
    const diff: string
    const format: string
    const style: string
    const language: string
    const additionalPrompt: string
    const formatKey: string
    const styleKey: string
    const formatConfig: FormatConfig

    /** The derived fields agree with the tables. */
    ghost predicate Valid() {
      formatKey in Formats && styleKey in Styles && formatConfig == Formats[formatKey]
    }

    /** `__post_init__` past its checks; `Create` is the whole construction,
        the `ValueError`s included. */
    constructor(repoName: string, prTitle: string, prDescription: string, prAuthor: string, diff: string,
                format: string, style: string, language: string, additionalPrompt: string)
      requires Validate(format, style).Success?
      ensures Valid() && formatKey == Normalize(format) && styleKey == Normalize(style)
      ensures this.repoName == repoName && this.prTitle == prTitle && this.prDescription == prDescription
      ensures this.prAuthor == prAuthor && this.diff == diff && this.format == format && this.style == style
      ensures this.language == language && this.additionalPrompt == additionalPrompt
    {
      this.repoName := repoName;
      this.prTitle := prTitle;
      this.prDescription := prDescription;
      this.prAuthor := prAuthor;
      this.diff := diff;
      this.format := format;
      this.style := style;
      this.language := language;
      this.additionalPrompt := additionalPrompt;
      formatKey := Normalize(format);
      styleKey := Normalize(style);
      formatConfig := Formats[Normalize(format)];
    }

    /** `format_label`. */
    function FormatLabel(): (text: string)
      requires Valid()
      ensures text == (if formatKey == "poster" then "Poster" else "Mural")
    {
      formatConfig.labelText
    }

    /** `style_label`. */
    function StyleLabel(): (text: string)
      requires Valid()
      ensures text in Styles.Values && text == Styles[styleKey]
    {
      Styles[styleKey]
    }

    /** `image_size`: portrait for a poster, landscape for a mural. */
    function ImageSize(): (size: string)
      requires Valid()
      ensures formatKey == "poster" ==> size == "1024x1536"
      ensures formatKey == "mural" ==> size == "1536x1024"
    {
      formatConfig.size
    }
  }

  /** `PosterRequest(...)`: the request, or the `ValueError` of `__post_init__`. */
  method Create(repoName: string, prTitle: string, prDescription: string, prAuthor: string, diff: string,
                format: string, style: string, language: string, additionalPrompt: string)
    returns (r: Result<PosterRequest, string>)
    ensures r.Failure? <==> Validate(format, style).Failure?
    ensures r.Failure? ==> r.error == Validate(format, style).error
    ensures r.Success? ==> fresh(r.value) && r.value.Valid()
                           && (r.value.formatKey, r.value.styleKey) == Validate(format, style).value
                           && r.value.format == format && r.value.style == style
    ensures r.Success? ==> r.value.repoName == repoName && r.value.prTitle == prTitle
                           && r.value.prDescription == prDescription && r.value.prAuthor == prAuthor
                           && r.value.diff == diff && r.value.language == language
                           && r.value.additionalPrompt == additionalPrompt
  {
    match Validate(format, style)
    case Failure(e) => return Failure(e);
    case Success(_) =>
      var request := new PosterRequest(repoName, prTitle, prDescription, prAuthor, diff,
                                       format, style, language, additionalPrompt);
      return Success(request);
  }

  /** Every pair of table keys is accepted as it is, the default pair
      (`poster`, `soviet`) among them. */
  lemma TableKeysAccepted(format: string, style: string)
    requires format in Formats && style in Styles
    ensures Validate(format, style) == Success((format, style))
  {
    FormatKeysNormal(format);
    StyleKeysNormal(style);
  }

  lemma FormatKeysNormal(key: string)
    requires key in Formats
    ensures Normalize(key) == key
  {
    if key == "poster" { NormalizeLiteral("poster"); }
    else { NormalizeLiteral("mural"); }
  }

  lemma StyleKeysNormal(key: string)
    requires key in Styles
    ensures Normalize(key) == key
  {
    if key == "soviet" { NormalizeLiteral("soviet"); }
    else if key == "dprk" { NormalizeLiteral("dprk"); }
    else if key == "cuban" { NormalizeLiteral("cuban"); }
    else if key == "capitalist" { NormalizeLiteral("capitalist"); }
    else { NormalizeLiteral("royalist"); }
  }

  /** Whitespace around a format or style name does not matter. */
  lemma NormalizeIgnoresPadding(a: string, value: string, b: string)
    requires IsBlank(a) && IsBlank(b)
    ensures Normalize(a + value + b) == Normalize(value)
  {
    StripPadded(a, value, b);
  }

  /** Upper case does not matter: names equal up to case normalise alike. */
  lemma NormalizeIgnoresCase(a: string, b: string)
    requires Lower(a) == Lower(b)
    ensures Normalize(a) == Normalize(b)
  {
    StripLower(a);
    StripLower(b);
  }

  lemma NormalizeLiteral(s: string)
    requires s != [] && forall i :: 0 <= i < |s| ==> 'a' <= s[i] <= 'z'
    ensures Normalize(s) == s
  {
    StripOfStripped(s);
    NormalizeFixed(s);
  }
}
