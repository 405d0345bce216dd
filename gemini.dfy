/** The Gemini image client: the request it builds, the way it reads the
    image out of the response, and the single error it reports. The HTTP
    POST and the browser's FileReader are parameters. */
module Gemini {
  import opened Wrappers
  import opened Builtins
  import opened Types

  /** A JavaScript number, passed through without arithmetic. */
  type Number = real

  // ----- Response -----------------------------------------------------------

  datatype InlineData = InlineData(mimeType: string, data: string)

  /** A response part; a missing field is `None`. */
  datatype Part = Part(text: Option<string>, inlineData: Option<InlineData>)

  datatype Content = Content(parts: Option<seq<Part>>)

  datatype Candidate = Candidate(content: Option<Content>, finishReason: string, index: int)

  datatype Response = Response(candidates: Option<seq<Candidate>>, modelVersion: string)

  /** The three ways a well-formed HTTP response can fail to carry an image.
      Each has its own message (below), but that message reaches only the
      diagnostic log: the caller always sees GenericFailure. */
  datatype DecodeError = NoCandidates | NoContentParts | NoImageData

  function Message(e: DecodeError): string
  {
    match e
    case NoCandidates => "No candidates returned from Gemini API"
    case NoContentParts => "No content parts returned from Gemini API"
    case NoImageData => "No image data found in the API response"
  }

  /** The only message a caller ever sees on failure. */
  const GenericFailure := "Failed to generate image with Gemini. Please check your API key and try again."

  /** A `data:` URL carrying base64 data of the given MIME type. */
  function DataUrl(mimeType: string, data: string): (r: string)
    ensures |r| == |mimeType| + |data| + 13
    ensures r[..5] == "data:" && r[5..5 + |mimeType|] == mimeType
    ensures r[5 + |mimeType|..|r| - |data|] == ";base64," && r[|r| - |data|..] == data
  {
    "data:" + mimeType + ";base64," + data
  }

  /** The predicate passed to `parts.find`: the part has an `inlineData` object. */
  predicate HasInlineData(p: Part)
  {
    p.inlineData.Some?
  }

  /** `parts` of a response whose first candidate has content with at least one part. */
  predicate HasFirstParts(resp: Response)
  {
    resp.candidates.Some? && |resp.candidates.value| > 0 &&
    resp.candidates.value[0].content.Some? &&
    resp.candidates.value[0].content.value.parts.Some? &&
    |resp.candidates.value[0].content.value.parts.value| > 0
  }

  function FirstParts(resp: Response): seq<Part>
    requires HasFirstParts(resp)
  {
    resp.candidates.value[0].content.value.parts.value
  }

  /** Part `i` is the first part of `parts` that carries inline data. */
  predicate FirstImagePartAt(parts: seq<Part>, i: nat)
  {
    i < |parts| && HasInlineData(parts[i]) && forall j :: 0 <= j < i ==> !HasInlineData(parts[j])
  }

  /** Reads the image out of a response as a `data:` URL, or says which check failed. */
  function ExtractImage(resp: Response): (r: Result<string, DecodeError>)
    ensures r == Err(NoCandidates) <==> resp.candidates.None? || |resp.candidates.value| == 0
    ensures r == Err(NoContentParts) <==>
      resp.candidates.Some? && |resp.candidates.value| > 0 && !HasFirstParts(resp)
    ensures r.Ok? <==>
      HasFirstParts(resp) &&
      exists i: nat :: FirstImagePartAt(FirstParts(resp), i) && FirstParts(resp)[i].inlineData.value.data != ""
    ensures r.Ok? ==> exists m, d :: d != "" && r.value == DataUrl(m, d)
  {
    var candidates := resp.candidates;
    if candidates.None? || |candidates.value| == 0 then Err(NoCandidates)
    else
      var candidate := candidates.value[0];
      if candidate.content.None? || candidate.content.value.parts.None? || |candidate.content.value.parts.value| == 0 then
        Err(NoContentParts)
      else
        var parts := candidate.content.value.parts.value;
        match FindIndex(parts, HasInlineData)
        case None => Err(NoImageData)
        case Some(i) =>
          var inline := parts[i].inlineData.value;
          if inline.data == "" then Err(NoImageData)
          else
            assert parts == FirstParts(resp) && FirstImagePartAt(parts, i);
            Ok(DataUrl(inline.mimeType, inline.data))
  }

  /** A successful extraction is exactly the data URL of the first part with inline data. */
  lemma ExtractSuccess(resp: Response, i: nat)
    requires HasFirstParts(resp) && FirstImagePartAt(FirstParts(resp), i)
    requires FirstParts(resp)[i].inlineData.value.data != ""
    ensures ExtractImage(resp) == Ok(DataUrl(FirstParts(resp)[i].inlineData.value.mimeType, FirstParts(resp)[i].inlineData.value.data))
  {
    assert HasInlineData(FirstParts(resp)[i]);
  }

  /** Text parts before the image part are skipped, however many there are. */
  lemma ExtractSkipsTextParts(c: Candidate, rest: seq<Candidate>, texts: seq<Part>, image: Part, after: seq<Part>, version: string)
    requires forall j :: 0 <= j < |texts| ==> !HasInlineData(texts[j])
    requires HasInlineData(image) && image.inlineData.value.data != ""
    requires c.content == Some(Content(Some(texts + [image] + after)))
    ensures ExtractImage(Response(Some([c] + rest), version)) == Ok(DataUrl(image.inlineData.value.mimeType, image.inlineData.value.data))
  {
    var resp := Response(Some([c] + rest), version);
    var parts := texts + [image] + after;
    assert FirstParts(resp) == parts;
    assert parts[|texts|] == image;
    assert forall j :: 0 <= j < |texts| ==> parts[j] == texts[j];
    ExtractSuccess(resp, |texts|);
  }

  /** If the first part with inline data has empty data, the call fails,
      whatever parts (with data or not) follow it. */
  lemma ExtractEmptyFirstData(c: Candidate, rest: seq<Candidate>, texts: seq<Part>, image: Part, after: seq<Part>, version: string)
    requires forall j :: 0 <= j < |texts| ==> !HasInlineData(texts[j])
    requires HasInlineData(image) && image.inlineData.value.data == ""
    requires c.content == Some(Content(Some(texts + [image] + after)))
    ensures ExtractImage(Response(Some([c] + rest), version)) == Err(NoImageData)
  {
    var parts := texts + [image] + after;
    assert parts[|texts|] == image;
    assert forall j :: 0 <= j < |texts| ==> parts[j] == texts[j];
    assert FirstImagePartAt(parts, |texts|);
  }

  /** Only the first candidate is read: the others never affect the result. */
  lemma ExtractOnlyFirstCandidate(c: Candidate, rest1: seq<Candidate>, rest2: seq<Candidate>, v1: string, v2: string)
    ensures ExtractImage(Response(Some([c] + rest1), v1)) == ExtractImage(Response(Some([c] + rest2), v2))
  {
    assert ([c] + rest1)[0] == c && ([c] + rest2)[0] == c;
  }

  // ----- Request ------------------------------------------------------------

  /** The optional tuning fields a caller may set. */
  datatype ConfigInput = ConfigInput(temperature: Option<Number>, topP: Option<Number>, topK: Option<Number>, maxOutputTokens: Option<Number>)

  /** The default argument `config = {}`. */
  const NoConfig := ConfigInput(None, None, None, None)

  const DefaultTemperature: Number := 0.6
  const DefaultTopP: Number := 0.99
  const DefaultTopK: Number := 40.0
  const DefaultMaxOutputTokens: Number := 8192.0

  datatype GenerationConfig = GenerationConfig(
    temperature: Number, topP: Number, topK: Number, maxOutputTokens: Number,
    responseMimeType: string, responseModalities: seq<string>)

  /** `data` is `None` when the FileReader result held no comma (the field is undefined). */
  datatype RequestPart = TextPart(text: string) | InlineDataPart(mime_type: string, data: Option<string>)

  datatype RequestContent = RequestContent(role: string, parts: seq<RequestPart>)

  datatype SafetySetting = SafetySetting(category: string, threshold: string)

  datatype Request = Request(contents: seq<RequestContent>, safetySettings: seq<SafetySetting>, generationConfig: GenerationConfig)

  /** The instruction appended to every prompt. */
  const FacialFidelitySuffix := " CRITICAL: Maintain photorealistic facial features, ethnic features, and skin tone from the original photo. Do not alter or stylize faces."

  function EnhancedPrompt(prompt: string): (r: string)
    ensures |r| == |prompt| + |FacialFidelitySuffix|
    ensures r[..|prompt|] == prompt && r[|prompt|..] == FacialFidelitySuffix
  {
    prompt + FacialFidelitySuffix
  }

  /** Different prompts give different enhanced prompts. */
  lemma EnhancedPromptInjective(p: string, q: string)
    requires EnhancedPrompt(p) == EnhancedPrompt(q)
    ensures p == q
  {
    assert |p| == |q|;
    assert p == EnhancedPrompt(p)[..|p|];
  }

  /** `dataUrl.split(',')[1]`: the text after the first comma, up to the next
      comma; undefined when there is no comma. */
  function StripBase64Prefix(dataUrl: string): (r: Option<string>)
    ensures r.None? <==> ',' !in dataUrl
    ensures r.Some? ==> ',' !in r.value
  {
    var pieces := Split(dataUrl, ',');
    if |pieces| >= 2 then Some(pieces[1]) else None
  }

  /** A FileReader data URL gives back its base64 payload. */
  lemma StripDataUrl(mimeType: string, data: string)
    requires ',' !in mimeType && ',' !in data
    ensures StripBase64Prefix(DataUrl(mimeType, data)) == Some(data)
  {
    var head := "data:" + mimeType + ";base64";
    assert DataUrl(mimeType, data) == head + [','] + data;
    assert ',' !in head by {
      forall i | 0 <= i < |head| ensures head[i] != ',' {
        if i >= 5 && i < 5 + |mimeType| { assert head[i] == mimeType[i - 5]; }
      }
    }
    SplitAfterSeparator(head, data, ',');
    SplitWithoutSeparator(data, ',');
  }

  /** The `??` defaults: unset fields take their default, set fields pass through. */
  function ResolveConfig(config: ConfigInput): (r: GenerationConfig)
    ensures config.temperature.Some? ==> r.temperature == config.temperature.value
    ensures config.temperature.None? ==> r.temperature == DefaultTemperature
    ensures config.topP.Some? ==> r.topP == config.topP.value
    ensures config.topP.None? ==> r.topP == DefaultTopP
    ensures config.topK.Some? ==> r.topK == config.topK.value
    ensures config.topK.None? ==> r.topK == DefaultTopK
    ensures config.maxOutputTokens.Some? ==> r.maxOutputTokens == config.maxOutputTokens.value
    ensures config.maxOutputTokens.None? ==> r.maxOutputTokens == DefaultMaxOutputTokens
    ensures r.responseMimeType == "text/plain" && r.responseModalities == ["image", "text"]
  {
    GenerationConfig(
      OrDefault(config.temperature, DefaultTemperature),
      OrDefault(config.topP, DefaultTopP),
      OrDefault(config.topK, DefaultTopK),
      OrDefault(config.maxOutputTokens, DefaultMaxOutputTokens),
      "text/plain", ["image", "text"])
  }

  /** `x ?? d`. */
  function OrDefault(x: Option<Number>, d: Number): (r: Number)
    ensures x.Some? ==> r == x.value
    ensures x.None? ==> r == d
  {
    match x
    case Some(v) => v
    case None => d
  }

  /** The default configuration sends the documented defaults. */
  lemma DefaultConfigValues()
    ensures ResolveConfig(NoConfig) == GenerationConfig(0.6, 0.99, 40.0, 8192.0, "text/plain", ["image", "text"])
  {
  }

  const SafetyCategories := [
    "HARM_CATEGORY_HATE_SPEECH",
    "HARM_CATEGORY_SEXUALLY_EXPLICIT",
    "HARM_CATEGORY_DANGEROUS_CONTENT",
    "HARM_CATEGORY_HARASSMENT",
    "HARM_CATEGORY_CIVIC_INTEGRITY"
  ]

  /** Every category, with blocking switched off. */
  function SafetySettings(): (r: seq<SafetySetting>)
    ensures |r| == |SafetyCategories|
    ensures forall i :: 0 <= i < |r| ==> r[i] == SafetySetting(SafetyCategories[i], "BLOCK_NONE")
  {
    seq(|SafetyCategories|, i requires 0 <= i < |SafetyCategories| => SafetySetting(SafetyCategories[i], "BLOCK_NONE"))
  }

  /** The JSON body sent to the model, from the prompt, the file's MIME type,
      the FileReader data URL and the tuning fields. */
  function BuildRequest(prompt: string, mimeType: string, dataUrl: string, config: ConfigInput): (r: Request)
    ensures |r.contents| == 1 && r.contents[0].role == "user"
    ensures r.contents[0].parts == [TextPart(EnhancedPrompt(prompt)), InlineDataPart(mimeType, StripBase64Prefix(dataUrl))]
    ensures r.generationConfig == ResolveConfig(config)
    ensures r.safetySettings == SafetySettings()
    ensures |r.safetySettings| == 5
    ensures forall i :: 0 <= i < |r.safetySettings| ==> r.safetySettings[i].threshold == "BLOCK_NONE"
  {
    Request(
      [RequestContent("user", [TextPart(EnhancedPrompt(prompt)), InlineDataPart(mimeType, StripBase64Prefix(dataUrl))])],
      SafetySettings(),
      ResolveConfig(config))
  }

  /** The request carries the uploaded image's payload and the caller's prompt unchanged. */
  lemma RequestCarriesImage(prompt: string, file: File, payload: string, config: ConfigInput)
    requires ',' !in file.mimeType && ',' !in payload
    ensures BuildRequest(prompt, file.mimeType, DataUrl(file.mimeType, payload), config).contents[0].parts[1] == InlineDataPart(file.mimeType, Some(payload))
  {
    StripDataUrl(file.mimeType, payload);
  }

  // ----- The whole call -----------------------------------------------------

  /** `generateImageWithGemini(prompt, imageFile, apiKey, config)`. `read` is the
      FileReader outcome for the file (a data URL or an error); `post` is the
      HTTP call, given the API key and the body (an error stands for a
      network failure or a non-2xx status). Every failure becomes GenericFailure. */
  function GenerateImage(
    prompt: string, imageFile: File, apiKey: string, config: ConfigInput,
    read: Result<string, string>, post: (string, Request) -> Result<Response, string>): (r: Result<string, string>)
    ensures r.Err? ==> r.error == GenericFailure
    ensures r.Ok? <==>
      read.Ok? &&
      post(apiKey, BuildRequest(prompt, imageFile.mimeType, read.value, config)).Ok? &&
      ExtractImage(post(apiKey, BuildRequest(prompt, imageFile.mimeType, read.value, config)).value).Ok?
    ensures r.Ok? ==>
      Ok(r.value) == ExtractImage(post(apiKey, BuildRequest(prompt, imageFile.mimeType, read.value, config)).value)
  {
    match read
    case Err(_) => Err(GenericFailure)
    case Ok(dataUrl) =>
      match post(apiKey, BuildRequest(prompt, imageFile.mimeType, dataUrl, config))
      case Err(_) => Err(GenericFailure)
      case Ok(resp) =>
        match ExtractImage(resp)
        case Err(_) => Err(GenericFailure)
        case Ok(url) => Ok(url)
  }

  /** A response without candidates reaches the caller as the generic message. */
  lemma NoCandidatesIsGenericFailure(
    prompt: string, imageFile: File, apiKey: string, config: ConfigInput,
    dataUrl: string, post: (string, Request) -> Result<Response, string>)
    requires post(apiKey, BuildRequest(prompt, imageFile.mimeType, dataUrl, config)).Ok?
    requires post(apiKey, BuildRequest(prompt, imageFile.mimeType, dataUrl, config)).value.candidates in {None, Some([])}
    ensures GenerateImage(prompt, imageFile, apiKey, config, Ok(dataUrl), post) == Err(GenericFailure)
  {
  }
}
