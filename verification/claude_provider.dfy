/** The Claude adapter: the system prompt travels in its own field, the history is folded into
    user and assistant turns, usage totals are the sum of input and output tokens, image and
    speech are unsupported, and a 400 answer to the probe still counts as available. */
module ClaudeProvider {
  import opened Basics
  import opened Json
  import opened Http
  import opened ProviderInterface
  import opened Chat

  const DefaultModel := "claude-3-5-sonnet-20241022"
  const DefaultMaxTokens := 2000

  /** Claude's name for the non-user side of the conversation. */
  const AssistantRole := "assistant"

  /** The text request: no system turn in the message list, the system prompt in the `system`
      field, the history as user and assistant turns, and the input last. */
  function TextRequest(systemPrompt: string, history: seq<Turn>, input: string, options: AIOptions): (q: ChatRequest)
    ensures options.model.None? || options.model.value == "" ==> q.model == DefaultModel
    ensures options.model.Some? && options.model.value != "" ==> q.model == options.model.value
    ensures options.maxTokens.None? || options.maxTokens.value == 0 ==> q.maxTokens == DefaultMaxTokens
    ensures options.maxTokens.Some? && options.maxTokens.value != 0 ==> q.maxTokens == options.maxTokens.value
    ensures q.system == Some(systemPrompt)
    ensures |q.messages| == |history| + 1
    ensures q.messages[|q.messages| - 1] == Turn(UserRole, input)
    ensures forall i | 0 <= i < |q.messages| :: q.messages[i].role == UserRole || q.messages[i].role == AssistantRole
    ensures forall i | 0 <= i < |history| ::
      q.messages[i].content == history[i].content && (q.messages[i].role == UserRole <==> history[i].role == UserRole)
  {
    var messages := Framed(None, RenameRoles(history, AssistantRole), input);
    forall i | 0 <= i < |history|
      ensures messages[i] == RenameRole(history[i], AssistantRole)
    {
      assert messages[i] == messages[..|messages| - 1][i];
    }
    ChatRequest(StringOr(options.model, DefaultModel), NumberOr(options.maxTokens, DefaultMaxTokens), Some(systemPrompt), messages)
  }

  const TextPath: seq<Step> := [Key("content"), Index(0), Key("text")]
  const InputTokensPath: seq<Step> := [Key("usage"), Key("input_tokens")]
  const OutputTokensPath: seq<Step> := [Key("usage"), Key("output_tokens")]

  /** Claude's usage: input and output tokens each read on their own from the `usage` object,
      the total their sum. */
  function ClaudeUsage(data: Json): (u: Usage)
    ensures u.totalTokens == u.promptTokens + u.completionTokens
    ensures Read(data, [Key("usage")]).None? || Read(data, [Key("usage")]) == Some(Null) ==> u == Usage(0, 0, 0)
    ensures data.Obj? && Lookup(data.members, "usage").Some? && !Lookup(data.members, "usage").value.Null? ==>
      var usage := Lookup(data.members, "usage").value;
      u.promptTokens == NumberOrZero(Prop(usage, Key("input_tokens"))) &&
      u.completionTokens == NumberOrZero(Prop(usage, Key("output_tokens")))
  {
    UsageRead(data, "input_tokens");
    UsageRead(data, "output_tokens");
    Usage(NumberOrZero(Read(data, InputTokensPath)),
          NumberOrZero(Read(data, OutputTokensPath)),
          NumberOrZero(Read(data, InputTokensPath)) + NumberOrZero(Read(data, OutputTokensPath)))
  }

  /** A failed text call echoes the error body, or `{}` when it does not parse. */
  function TextError(r: Reply): string {
    "Claude API error: " + StatusText(r.status) + " - " + Stringify(BodyOrEmpty(r.body))
  }

  const ImageUnsupported := "Image generation not supported by Claude"
  const AudioUnsupported := "Audio generation not supported by Claude"

  /** `generateText` given the reply to its request. */
  function ReadText(f: Fetch): (r: TextResult)
    ensures WellFormedText(r)
    ensures r.success <==> f.Replied? && Ok(f.reply.status) && f.reply.body.Parsed? && !f.reply.body.value.Null?
    ensures r.success ==>
      r.text == Some(StringOrDefault(Read(f.reply.body.value, TextPath), "")) &&
      r.usage == Some(ClaudeUsage(f.reply.body.value))
    ensures f.NetworkError? ==> r.error == Some(MessageOf(f.thrown))
    ensures f.Replied? && !Ok(f.reply.status) ==>
      r.error == Some("Claude API error: " + StatusText(f.reply.status) + " - " + Stringify(BodyOrEmpty(f.reply.body)))
    ensures f.Replied? && Ok(f.reply.status) && f.reply.body.Unparseable? ==> r.error == Some(f.reply.body.message)
    ensures f.Replied? && Ok(f.reply.status) && f.reply.body == Parsed(Null) ==> r.error == Some(NullRead("content"))
  {
    CatchText(Exchange(f, TextError, "content",
      data => Returned(TextResult(true, Some(StringOrDefault(Read(data, TextPath), "")), None, Some(ClaudeUsage(data))))))
  }

  /** `generateImage`: always the same failure. */
  function GenerateImage(prompt: string, options: AIOptions): (r: ImageResult)
    ensures WellFormedImage(r) && !r.success
    ensures r.error == Some("Image generation not supported by Claude")
  {
    ImageFailure(ImageUnsupported)
  }

  /** `generateAudio`: always the same failure. */
  function GenerateAudio(text: string, options: AIOptions): (r: AudioResult)
    ensures WellFormedAudio(r) && !r.success
    ensures r.error == Some("Audio generation not supported by Claude")
  {
    AudioFailure(AudioUnsupported)
  }

  /** `getImageModels()` and `getAudioModels()`: always empty. */
  function ImageModels(config: ProviderConfig): (r: seq<string>)
    ensures r == []
  {
    []
  }

  function AudioModels(config: ProviderConfig): (r: seq<string>)
    ensures r == []
  {
    []
  }

  /** `isAvailable()`: a one-token request answered with a status in 200-299, or rejected with
      exactly 400 (the key was accepted); a thrown request is false. */
  function IsAvailable(f: Fetch): (ok: bool)
    ensures ok <==> f.Replied? && (200 <= f.reply.status <= 299 || f.reply.status == 400)
  {
    match f
    case NetworkError(_) => false
    case Replied(reply) => Ok(reply.status) || reply.status == 400
  }

  /** A reply with no usage object reports zero tokens throughout. */
  lemma ClaudeUsageMissing(data: Json)
    requires Read(data, [Key("usage")]).None?
    ensures ClaudeUsage(data) == Usage(0, 0, 0)
  {
  }

  /** For a reply with a `usage` object the total is computed, not read: a `total_tokens`
      member, if any, is ignored, and the total is the sum of the two counts read. */
  lemma ClaudeUsageTotalIsSum(data: Json, usage: Json)
    requires data.Obj? && Lookup(data.members, "usage") == Some(usage) && !usage.Null?
    ensures ClaudeUsage(data).totalTokens ==
      NumberOrZero(Prop(usage, Key("input_tokens"))) + NumberOrZero(Prop(usage, Key("output_tokens")))
  {
  }
}
