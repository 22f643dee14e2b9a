/** The Together AI adapter: an OpenAI-style chat request, text and usage read from the
    completion, image by URL (downloaded by a second request), and no speech. */
module TogetherProvider {
  import opened Basics
  import opened Json
  import opened Http
  import opened ProviderInterface
  import opened Chat

  const DefaultModel := "deepseek-ai/DeepSeek-R1"
  const DefaultMaxTokens := 2000

  /** The text request: a system turn, the history exactly as given, and the input as the
      closing user turn. */
  function TextRequest(systemPrompt: string, history: seq<Turn>, input: string, options: AIOptions): (q: ChatRequest)
    ensures options.model.None? || options.model.value == "" ==> q.model == DefaultModel
    ensures options.model.Some? && options.model.value != "" ==> q.model == options.model.value
    ensures options.maxTokens.None? || options.maxTokens.value == 0 ==> q.maxTokens == DefaultMaxTokens
    ensures options.maxTokens.Some? && options.maxTokens.value != 0 ==> q.maxTokens == options.maxTokens.value
    ensures q.system.None?
    ensures |q.messages| == |history| + 2
    ensures q.messages[0] == Turn(SystemRole, systemPrompt)
    ensures q.messages[1..|q.messages| - 1] == history
    ensures q.messages[|q.messages| - 1] == Turn(UserRole, input)
  {
    ChatRequest(StringOr(options.model, DefaultModel), NumberOr(options.maxTokens, DefaultMaxTokens), None,
      Framed(Some(Turn(SystemRole, systemPrompt)), history, input))
  }

  const ImageUrlPath: seq<Step> := [Key("data"), Index(0), Key("url")]

  /** A failed text call echoes the error body, or `{}` when it does not parse. */
  function TextError(r: Reply): string {
    "Together AI error: " + StatusText(r.status) + " - " + Stringify(BodyOrEmpty(r.body))
  }

  function ImageError(r: Reply): string {
    "Together AI image error: " + StatusText(r.status)
  }

  const NoImageUrl := "No image URL returned"
  const AudioUnsupported := "Audio generation not supported by Together AI"

  /** `generateText` given the reply to its request: text from the first choice (`""` when
      missing) and the three usage counts, each read on its own. */
  function ReadText(f: Fetch): (r: TextResult)
    ensures WellFormedText(r)
    ensures r.success <==> f.Replied? && Ok(f.reply.status) && f.reply.body.Parsed? && !f.reply.body.value.Null?
    ensures r.success ==>
      r.text == Some(StringOrDefault(Read(f.reply.body.value, ContentPath), "")) &&
      r.usage == Some(CompletionUsage(f.reply.body.value))
    ensures f.NetworkError? ==> r.error == Some(MessageOf(f.thrown))
    ensures f.Replied? && !Ok(f.reply.status) ==>
      r.error == Some("Together AI error: " + StatusText(f.reply.status) + " - " + Stringify(BodyOrEmpty(f.reply.body)))
    ensures f.Replied? && Ok(f.reply.status) && f.reply.body.Unparseable? ==> r.error == Some(f.reply.body.message)
    ensures f.Replied? && Ok(f.reply.status) && f.reply.body == Parsed(Null) ==> r.error == Some(NullRead("choices"))
  {
    CatchText(Exchange(f, TextError, "choices",
      data => Returned(TextResult(true, Some(StringOrDefault(Read(data, ContentPath), "")), None,
                                  Some(CompletionUsage(data))))))
  }

  /** `generateImage` given the reply and the download of the returned URL as base64 (the
      second `fetch` and the buffer conversion, which may throw). */
  function ReadImage(f: Fetch, download: string -> Call<string>): (r: ImageResult)
    ensures WellFormedImage(r)
    ensures r.success <==>
      Delivered(f) && TruthyString(Read(f.reply.body.value, ImageUrlPath)).Some? &&
      download(TruthyString(Read(f.reply.body.value, ImageUrlPath)).value).Returned?
    ensures Delivered(f) ==>
      var url := TruthyString(Read(f.reply.body.value, ImageUrlPath));
      (url.Some? && download(url.value).Returned? ==> r == ImageResult(true, Some(download(url.value).value), None)) &&
      (url.Some? && download(url.value).Threw? ==> r == ImageFailure(MessageOf(download(url.value).thrown)))
    ensures f.NetworkError? ==> r.error == Some(MessageOf(f.thrown))
    ensures f.Replied? && !Ok(f.reply.status) ==> r.error == Some("Together AI image error: " + StatusText(f.reply.status))
    ensures f.Replied? && Ok(f.reply.status) && f.reply.body.Unparseable? ==> r.error == Some(f.reply.body.message)
    ensures f.Replied? && Ok(f.reply.status) && f.reply.body == Parsed(Null) ==> r.error == Some(NullRead("data"))
    ensures f.Replied? && Ok(f.reply.status) && f.reply.body.Parsed? && !f.reply.body.value.Null? ==>
      (!Truthy(Read(f.reply.body.value, ImageUrlPath)) ==> r.error == Some(NoImageUrl))
  {
    CatchImage(Exchange(f, ImageError, "data", data => ImageFromData(data, download)))
  }

  /** The reading of a parsed image reply: the download of the returned URL, or a failure when
      there is none. */
  function ImageFromData(data: Json, download: string -> Call<string>): (c: Call<ImageResult>)
    ensures c.Returned? ==> WellFormedImage(c.value)
    ensures c.Returned? && c.value.success ==>
      TruthyString(Read(data, ImageUrlPath)).Some? &&
      download(TruthyString(Read(data, ImageUrlPath)).value) == Returned(c.value.image.value)
    ensures !Truthy(Read(data, ImageUrlPath)) ==> c == Returned(ImageFailure(NoImageUrl))
    ensures TruthyString(Read(data, ImageUrlPath)).Some? && download(TruthyString(Read(data, ImageUrlPath)).value).Returned? ==>
      c == Returned(ImageResult(true, Some(download(TruthyString(Read(data, ImageUrlPath)).value).value), None))
    ensures TruthyString(Read(data, ImageUrlPath)).Some? && download(TruthyString(Read(data, ImageUrlPath)).value).Threw? ==>
      c == Threw(download(TruthyString(Read(data, ImageUrlPath)).value).thrown)
  {
    match TruthyString(Read(data, ImageUrlPath))
    case Some(url) =>
      (match download(url)
       case Returned(image) => Returned(ImageResult(true, Some(image), None))
       case Threw(e) => Threw(e))
    case None => Returned(ImageFailure(NoImageUrl))
  }

  /** `generateAudio`: always the same failure, whatever the text and options. */
  function GenerateAudio(text: string, options: AIOptions): (r: AudioResult)
    ensures WellFormedAudio(r) && !r.success
    ensures r.error == Some("Audio generation not supported by Together AI")
  {
    AudioFailure(AudioUnsupported)
  }

  /** `getImageModels()` */
  function ImageModels(config: ProviderConfig): (r: seq<string>)
    ensures config.models.image.Some? ==> r == config.models.image.value
    ensures config.models.image.None? ==> r == []
  {
    ListOrEmpty(config.models.image)
  }

  /** `getAudioModels()`: always empty, whatever the descriptor says. */
  function AudioModels(config: ProviderConfig): (r: seq<string>)
    ensures r == []
  {
    []
  }

  /** `isAvailable()`: the model listing answers with a status in 200-299; a thrown request is
      false. */
  function IsAvailable(f: Fetch): (ok: bool)
    ensures ok <==> f.Replied? && 200 <= f.reply.status <= 299
  {
    ReplyOk(f)
  }

  /** The request carries the conversation back out unchanged: system prompt, every history
      turn with its role, and the input can all be read off the message list. */
  lemma TextRequestRecoversConversation(systemPrompt: string, history: seq<Turn>, input: string, options: AIOptions,
                                        systemPrompt': string, history': seq<Turn>, input': string)
    requires TextRequest(systemPrompt, history, input, options).messages ==
             TextRequest(systemPrompt', history', input', options).messages
    ensures systemPrompt == systemPrompt' && history == history' && input == input'
  {
    var m := TextRequest(systemPrompt, history, input, options).messages;
    assert m[0].content == systemPrompt && m[0].content == systemPrompt';
    assert m[|m| - 1].content == input && m[|m| - 1].content == input';
  }

  /** The image result depends on the download only through what it makes of the reply's URL:
      downloads that agree there give the same result, and when the reply carries no URL every
      download gives the same result. */
  lemma ReadImageOnlyDownloadsUrl(f: Fetch, download1: string -> Call<string>, download2: string -> Call<string>)
    requires Delivered(f) && TruthyString(Read(f.reply.body.value, ImageUrlPath)).Some? ==>
      download1(TruthyString(Read(f.reply.body.value, ImageUrlPath)).value) ==
      download2(TruthyString(Read(f.reply.body.value, ImageUrlPath)).value)
    ensures ReadImage(f, download1) == ReadImage(f, download2)
  {
  }

  /** A failed status whose body does not parse echoes an empty object after the status. */
  lemma UnparseableErrorEchoesEmptyObject(status: nat, statusText: string, message: string)
    requires !Ok(status)
    ensures ReadText(Replied(Reply(status, statusText, Unparseable(message)))).error ==
      Some("Together AI error: " + StatusText(status) + " - {}")
  {
    var f := Replied(Reply(status, statusText, Unparseable(message)));
    var head := "Together AI error: " + StatusText(status);
    assert Stringify(BodyOrEmpty(f.reply.body)) == "{}";
    assert head + " - " + "{}" == head + " - {}";
  }
}
