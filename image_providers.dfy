/** Image providers of the TypeScript app (src/imageProviders.ts): the factory
    that picks a provider from the configuration, the ChatGPT provider whose
    constructor insists on an API key and whose request size is `<w>x<h>`,
    and the dummy provider that answers with a placeholder URL. The OpenAI
    SDK is not modelled: the image endpoint is a function parameter from the
    request sent to the URL it returns (if any). */
module ImageProviders {
  import opened Wrappers
  import opened Text
  import opened Config

  datatype ImageRequest = ImageRequest(prompt: string, width: Option<int>, height: Option<int>)

  datatype ImageResult = ImageResult(url: string, altText: string, provider: string)

  /** The arguments of `client.images.generate`. */
  datatype GenerateCall = GenerateCall(model: string, prompt: string, size: string)

  /** What `new OpenAI(...)` is given; the client itself is outside the model. */
  datatype ClientOptions = ClientOptions(apiKey: string, baseUrl: Option<string>)

  const MissingApiKey: string := "OPENAI_API_KEY is required for the chatgpt image provider"
  const NoUrlReturned: string := "Image generation succeeded but returned no URL"
  const PlaceholderBase: string := "https://placehold.co/"
  const PlaceholderQuery: string := "?text=Soviet+Poster"
  const DummyWidth: int := 512
  const DummyHeight: int := 768

  /** The `${width}x${height}` size string. Its two halves read back as the
      two numbers it was made from. */
  function SizeString(width: int, height: int): (size: string)
    ensures var parts := Split(size, 'x');
            |parts| == 2 && ParseInt(parts[0]) == Some(width) && ParseInt(parts[1]) == Some(height)
  {
    SizeStringParts(width, height);
    IntToString(width) + "x" + IntToString(height)
  }

  lemma SizeStringParts(width: int, height: int)
    ensures Split(IntToString(width) + "x" + IntToString(height), 'x') == [IntToString(width), IntToString(height)]
    ensures ParseInt(IntToString(width)) == Some(width) && ParseInt(IntToString(height)) == Some(height)
  {
    IntToStringChars(width);
    IntToStringChars(height);
    var parts := [IntToString(width), IntToString(height)];
    JoinAppend([IntToString(width)], IntToString(height), "x");
    SplitOfJoin(parts, 'x');
    ParseIntOfIntToString(width, "");
    ParseIntOfIntToString(height, "");
    assert IntToString(width) + "" == IntToString(width);
    assert IntToString(height) + "" == IntToString(height);
  }

  /** `ChatGptImageProvider`: the fields its constructor sets. */
  class ChatGptImageProvider {
    const client: ClientOptions
    const model: string
    const width: int
    const height: int

    /** The constructor past its key check; `NewChatGptImageProvider` is the
        whole constructor, throwing included. */
    constructor(config: AppConfig)
      requires Truthy(config.openaiApiKey)
      ensures client == ClientOptions(config.openaiApiKey.value, config.openaiBaseUrl)
      ensures model == config.openaiModel
      ensures width == config.imageWidth && height == config.imageHeight
    {
      client := ClientOptions(config.openaiApiKey.value, config.openaiBaseUrl);
      model := config.openaiModel;
      width := config.imageWidth;
      height := config.imageHeight;
    }

    /** The request sent to the image endpoint: the configured model, the
        prompt, and a size whose dimensions are the request's own where given
        and the configured ones otherwise. */
    function Call(request: ImageRequest): (call: GenerateCall)
      ensures call.model == model && call.prompt == request.prompt
      ensures var parts := Split(call.size, 'x');
              |parts| == 2
              && ParseInt(parts[0]) == Some(request.width.GetOr(width))
              && ParseInt(parts[1]) == Some(request.height.GetOr(height))
    {
      GenerateCall(model, request.prompt, SizeString(request.width.GetOr(width), request.height.GetOr(height)))
    }

    /** `generatePoster`: succeeds exactly when the endpoint returns a
        non-empty URL, which becomes the poster's URL. */
    function GeneratePoster(request: ImageRequest, endpoint: GenerateCall -> Option<string>): (r: Result<ImageResult, string>)
      ensures r.Success? <==> Truthy(endpoint(Call(request)))
      ensures r.Success? ==> r.value == ImageResult(endpoint(Call(request)).value, request.prompt, ChatGptName)
      ensures r.Failure? ==> r.error == NoUrlReturned
    {
      var imageUrl := endpoint(Call(request));
      if !Truthy(imageUrl) then Failure(NoUrlReturned)
      else Success(ImageResult(imageUrl.value, request.prompt, ChatGptName))
    }
  }

  const ChatGptName: string := "chatgpt"
  const DummyName: string := "dummy"

  /** `new ChatGptImageProvider(config)`, which throws without an API key. */
  method NewChatGptImageProvider(config: AppConfig) returns (r: Result<ChatGptImageProvider, string>)
    ensures r.Failure? <==> !Truthy(config.openaiApiKey)
    ensures r.Failure? ==> r.error == MissingApiKey
    ensures r.Success? ==> fresh(r.value) && r.value.model == config.openaiModel
                           && r.value.client == ClientOptions(config.openaiApiKey.value, config.openaiBaseUrl)
                           && r.value.width == config.imageWidth && r.value.height == config.imageHeight
  {
    if !Truthy(config.openaiApiKey) {
      return Failure(MissingApiKey);
    }
    var provider := new ChatGptImageProvider(config);
    return Success(provider);
  }

  /** The placeholder URL for a size string: the size sits between a fixed
      base and a fixed query. */
  function PlaceholderUrl(size: string): (url: string)
    ensures |url| == |PlaceholderBase| + |size| + |PlaceholderQuery|
    ensures url[..|PlaceholderBase|] == PlaceholderBase
    ensures url[|PlaceholderBase|..|url| - |PlaceholderQuery|] == size
    ensures url[|url| - |PlaceholderQuery|..] == PlaceholderQuery
  {
    var url := PlaceholderBase + size + PlaceholderQuery;
    assert url[..|PlaceholderBase|] == PlaceholderBase;
    assert url[|PlaceholderBase|..|url| - |PlaceholderQuery|] == size;
    assert url[|url| - |PlaceholderQuery|..] == PlaceholderQuery;
    url
  }

  /** `DummyImageProvider.generatePoster`: a placeholder URL carrying the
      size (512x768 unless the request says otherwise), the prompt as the
      alternative text, and the provider name `dummy`. */
  function DummyGeneratePoster(request: ImageRequest): (r: ImageResult)
    ensures r.altText == request.prompt && r.provider == DummyName
    ensures |r.url| >= |PlaceholderBase| + |PlaceholderQuery|
    ensures r.url[..|PlaceholderBase|] == PlaceholderBase
    ensures r.url[|r.url| - |PlaceholderQuery|..] == PlaceholderQuery
    ensures var parts := Split(r.url[|PlaceholderBase|..|r.url| - |PlaceholderQuery|], 'x');
            |parts| == 2
            && ParseInt(parts[0]) == Some(request.width.GetOr(DummyWidth))
            && ParseInt(parts[1]) == Some(request.height.GetOr(DummyHeight))
  {
    var size := SizeString(request.width.GetOr(DummyWidth), request.height.GetOr(DummyHeight));
    ImageResult(PlaceholderUrl(size), request.prompt, DummyName)
  }

  /** The provider `createImageProvider` returns. */
  datatype ImageProvider = Dummy | ChatGpt(chatGpt: ChatGptImageProvider)

  /** Which provider the configuration selects, or the error the selection
      throws: the dummy exactly for the name `dummy`, and every other name
      (known or not) asks for the ChatGPT provider and so for a key. */
  function SelectedProvider(config: AppConfig): (r: Result<string, string>)
    ensures r == Success(DummyName) <==> config.imageProvider == DummyName
    ensures r == Success(ChatGptName) <==> config.imageProvider != DummyName && Truthy(config.openaiApiKey)
    ensures r.Failure? <==> config.imageProvider != DummyName && !Truthy(config.openaiApiKey)
    ensures r.Failure? ==> r.error == MissingApiKey
  {
    if config.imageProvider == DummyName then Success(DummyName)
    else if !Truthy(config.openaiApiKey) then Failure(MissingApiKey)
    else Success(ChatGptName)
  }

  /** `createImageProvider`. */
  method CreateImageProvider(config: AppConfig) returns (r: Result<ImageProvider, string>)
    ensures SelectedProvider(config).Failure? <==> r.Failure?
    ensures r.Failure? ==> r.error == SelectedProvider(config).error
    ensures SelectedProvider(config) == Success(DummyName) <==> r == Success(Dummy)
    ensures r.Success? && r.value.ChatGpt? ==>
              fresh(r.value.chatGpt) && r.value.chatGpt.model == config.openaiModel
              && Truthy(config.openaiApiKey)
              && r.value.chatGpt.client == ClientOptions(config.openaiApiKey.value, config.openaiBaseUrl)
              && r.value.chatGpt.width == config.imageWidth && r.value.chatGpt.height == config.imageHeight
  {
    if config.imageProvider == DummyName {
      return Success(Dummy);
    }
    var provider := NewChatGptImageProvider(config);
    match provider
    case Failure(e) => return Failure(e);
    case Success(p) => return Success(ChatGpt(p));
  }
}
