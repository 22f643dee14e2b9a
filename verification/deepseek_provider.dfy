/** The DeepSeek adapter: an OpenAI-style chat request, text and usage read from the
    completion, and no image or speech. */
module DeepSeekProvider {
  import opened Basics
  import Strings
  import opened Json
  import opened Http
  import opened ProviderInterface
  import opened Chat

  const DefaultModel := "deepseek-chat"
  const DefaultMaxTokens := 2000

  /** The text request: a system turn, the history exactly as given, and the input as the
      closing user turn. */
  function TextRequest(systemPrompt: string, history: seq<Turn>, input: string, options: AIOptions): (q: ChatRequest)
    ensures options.model.None? || options.model.value == "" ==> q.model == DefaultModel
    ensures options.model.Some? && options.model.value != "" ==> q.model == options.model.value
    ensures options.maxTokens.None? || options.maxTokens.value == 0 ==> q.maxTokens == DefaultMaxTokens
    ensures options.maxTokens.Some? && options.maxTokens.value != 0 ==> q.maxTokens == options.maxTokens.value
    ensures q.system.None?
    ensures |q.messages| == |history| + 2
    ensures q.messages[0] == Turn(SystemRole, systemPrompt)
    ensures q.messages[1..|q.messages| - 1] == history
    ensures q.messages[|q.messages| - 1] == Turn(UserRole, input)
  {
    ChatRequest(StringOr(options.model, DefaultModel), NumberOr(options.maxTokens, DefaultMaxTokens), None,
      Framed(Some(Turn(SystemRole, systemPrompt)), history, input))
  }

  function TextError(r: Reply): string {
    "DeepSeek API error: " + StatusText(r.status)
  }

  const ImageUnsupported := "Image generation not supported by DeepSeek"
  const AudioUnsupported := "Audio generation not supported by DeepSeek"

  /** `generateText` given the reply to its request. */
  function ReadText(f: Fetch): (r: TextResult)
    ensures WellFormedText(r)
    ensures r.success <==> f.Replied? && Ok(f.reply.status) && f.reply.body.Parsed? && !f.reply.body.value.Null?
    ensures r.success ==>
      r.text == Some(StringOrDefault(Read(f.reply.body.value, ContentPath), "")) &&
      r.usage == Some(CompletionUsage(f.reply.body.value))
    ensures f.NetworkError? ==> r.error == Some(MessageOf(f.thrown))
    ensures f.Replied? && !Ok(f.reply.status) ==> r.error == Some("DeepSeek API error: " + StatusText(f.reply.status))
    ensures f.Replied? && Ok(f.reply.status) && f.reply.body.Unparseable? ==> r.error == Some(f.reply.body.message)
    ensures f.Replied? && Ok(f.reply.status) && f.reply.body == Parsed(Null) ==> r.error == Some(NullRead("choices"))
  {
    CatchText(Exchange(f, TextError, "choices",
      data => Returned(TextResult(true, Some(StringOrDefault(Read(data, ContentPath), "")), None,
                                  Some(CompletionUsage(data))))))
  }

  /** `generateImage`: always the same failure. */
  function GenerateImage(prompt: string, options: AIOptions): (r: ImageResult)
    ensures WellFormedImage(r) && !r.success
    ensures r.error == Some("Image generation not supported by DeepSeek")
  {
    ImageFailure(ImageUnsupported)
  }

  /** `generateAudio`: always the same failure. */
  function GenerateAudio(text: string, options: AIOptions): (r: AudioResult)
    ensures WellFormedAudio(r) && !r.success
    ensures r.error == Some("Audio generation not supported by DeepSeek")
  {
    AudioFailure(AudioUnsupported)
  }

  /** `getImageModels()` and `getAudioModels()`: always empty. */
  function ImageModels(config: ProviderConfig): (r: seq<string>)
    ensures r == []
  {
    []
  }

  function AudioModels(config: ProviderConfig): (r: seq<string>)
    ensures r == []
  {
    []
  }

  /** `isAvailable()`: the model listing answers with a status in 200-299; a thrown request is
      false. */
  function IsAvailable(f: Fetch): (ok: bool)
    ensures ok <==> f.Replied? && 200 <= f.reply.status <= 299
  {
    ReplyOk(f)
  }

  /** The error message of a failed status names that status. */
  lemma TextErrorNamesStatus(f1: Fetch, f2: Fetch)
    requires f1.Replied? && !Ok(f1.reply.status)
    requires f2.Replied? && !Ok(f2.reply.status)
    requires ReadText(f1).error == ReadText(f2).error
    ensures f1.reply.status == f2.reply.status
  {
    var p := "DeepSeek API error: ";
    assert p + StatusText(f1.reply.status) == p + StatusText(f2.reply.status);
    assert StatusText(f1.reply.status) == (p + StatusText(f1.reply.status))[|p|..];
    assert StatusText(f2.reply.status) == (p + StatusText(f2.reply.status))[|p|..];
    Strings.NatToStringInjective(f1.reply.status, f2.reply.status);
  }
}
