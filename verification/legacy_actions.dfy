/** The older server actions, hard-wired to DeepSeek: the key is read once from the
    environment, text and image calls throw when it is missing, speech always fails, and a
    missing text reads as "...". */
module LegacyActions {
  import opened Basics
  import opened Json
  import opened Http
  import opened ProviderInterface
  import opened Chat
  import opened AiFactory
  import DeepSeekProvider

  const KeyVariable := "DEEPSEEK_API_KEY"
  const Model := "deepseek-chat"
  const MaxTokens := 1000

  /** What a missing text reads as. */
  const Placeholder := "..."

  const MissingKey := "DEEPSEEK_API_KEY not configured"
  const SpeechMissingKey := "API key not configured"
  const SpeechUnavailable := "TTS unavailable with DeepSeek (use text simulation)"
  const NoImageData := "No image data"

  /** `process.env.DEEPSEEK_API_KEY || ""`, read when the module loads. */
  function ApiKey(env: Env): (k: string)
    ensures HasValue(env, KeyVariable) ==> k == env[KeyVariable]
    ensures !HasValue(env, KeyVariable) ==> k == ""
  {
    StringOr(EnvValue(env, KeyVariable), "")
  }

  /** The legacy text request: fixed model and token limit, streaming off. */
  datatype LegacyRequest = LegacyRequest(chat: ChatRequest, stream: bool)

  /** The text request: a system turn, the history as user and assistant turns, and the input
      last, always with model "deepseek-chat", 1000 tokens and no streaming. */
  function TextRequest(systemPrompt: string, history: seq<Turn>, input: string): (q: LegacyRequest)
    ensures q.chat.model == "deepseek-chat" && q.chat.maxTokens == 1000 && !q.stream && q.chat.system.None?
    ensures |q.chat.messages| == |history| + 2
    ensures q.chat.messages[0] == Turn(SystemRole, systemPrompt)
    ensures q.chat.messages[|q.chat.messages| - 1] == Turn(UserRole, input)
    ensures forall i | 0 <= i < |history| ::
      q.chat.messages[i + 1].content == history[i].content &&
      (q.chat.messages[i + 1].role == UserRole <==> history[i].role == UserRole) &&
      (q.chat.messages[i + 1].role == UserRole || q.chat.messages[i + 1].role == "assistant")
  {
    var messages := Framed(Some(Turn(SystemRole, systemPrompt)), RenameRoles(history, "assistant"), input);
    forall i | 0 <= i < |history|
      ensures messages[i + 1] == RenameRole(history[i], "assistant")
    {
      assert messages[i + 1] == messages[1..|messages| - 1][i];
    }
    LegacyRequest(ChatRequest(Model, MaxTokens, None, messages), false)
  }

  function TextError(r: Reply): string {
    "API Error: " + StatusText(r.status) + " - " + r.statusText
  }

  function ImageError(r: Reply): string {
    "Image generation failed: " + StatusText(r.status)
  }

  /** `generateText` given the environment it loaded with and the reply to its request.
      Without a key the call throws instead of returning an envelope. */
  function GenerateText(env: Env, f: Fetch): (r: Call<TextResult>)
    ensures ApiKey(env) == "" ==> r == Threw(ErrorValue("DEEPSEEK_API_KEY not configured"))
    ensures ApiKey(env) != "" ==> r.Returned? && WellFormedText(r.value) && r.value.usage.None?
    ensures r.Returned? ==>
      (r.value.success <==> f.Replied? && Ok(f.reply.status) && f.reply.body.Parsed? && !f.reply.body.value.Null?)
    ensures r.Returned? && r.value.success ==>
      r.value.text == Some(StringOrDefault(Read(f.reply.body.value, ContentPath), "...")) && r.value.text.value != ""
    ensures r.Returned? && f.NetworkError? ==> r.value.error == Some(MessageOf(f.thrown))
    ensures r.Returned? && f.Replied? && !Ok(f.reply.status) ==>
      r.value.error == Some("API Error: " + StatusText(f.reply.status) + " - " + f.reply.statusText)
    ensures r.Returned? && f.Replied? && Ok(f.reply.status) && f.reply.body.Unparseable? ==>
      r.value.error == Some(f.reply.body.message)
    ensures r.Returned? && f.Replied? && Ok(f.reply.status) && f.reply.body == Parsed(Null) ==>
      r.value.error == Some(NullRead("choices"))
  {
    if ApiKey(env) == "" then Threw(ErrorValue(MissingKey))
    else
      Returned(CatchText(Exchange(f, TextError, "choices",
        data => Returned(TextResult(true, Some(StringOrDefault(Read(data, ContentPath), Placeholder)), None, None)))))
  }

  /** `generateSpeech`: never a success; which failure depends only on the key. */
  function GenerateSpeech(env: Env, text: string): (r: AudioResult)
    ensures WellFormedAudio(r) && !r.success
    ensures ApiKey(env) == "" ==> r.error == Some("API key not configured")
    ensures ApiKey(env) != "" ==> r.error == Some("TTS unavailable with DeepSeek (use text simulation)")
  {
    if ApiKey(env) == "" then AudioFailure(SpeechMissingKey) else AudioFailure(SpeechUnavailable)
  }

  /** `generateImage` given the environment and the reply: the message content itself (a URL,
      not image data) is the image when it is non-empty. */
  function GenerateImage(env: Env, f: Fetch): (r: Call<ImageResult>)
    ensures ApiKey(env) == "" ==> r == Threw(ErrorValue("DEEPSEEK_API_KEY not configured"))
    ensures ApiKey(env) != "" ==> r.Returned? && WellFormedImage(r.value)
    ensures r.Returned? ==>
      (r.value.success <==>
        f.Replied? && Ok(f.reply.status) && f.reply.body.Parsed? && !f.reply.body.value.Null? &&
        TruthyString(Read(f.reply.body.value, ContentPath)).Some?)
    ensures r.Returned? && r.value.success ==> r.value.image == TruthyString(Read(f.reply.body.value, ContentPath))
    ensures r.Returned? && f.Replied? && !Ok(f.reply.status) ==>
      r.value.error == Some("Image generation failed: " + StatusText(f.reply.status))
    ensures r.Returned? && f.Replied? && Ok(f.reply.status) && f.reply.body.Parsed? && !f.reply.body.value.Null? ==>
      (!Truthy(Read(f.reply.body.value, ContentPath)) ==> r.value.error == Some("No image data"))
    ensures r.Returned? && f.NetworkError? ==> r.value.error == Some(MessageOf(f.thrown))
    ensures r.Returned? && f.Replied? && Ok(f.reply.status) && f.reply.body.Unparseable? ==>
      r.value.error == Some(f.reply.body.message)
    ensures r.Returned? && f.Replied? && Ok(f.reply.status) && f.reply.body == Parsed(Null) ==>
      r.value.error == Some(NullRead("choices"))
  {
    if ApiKey(env) == "" then Threw(ErrorValue(MissingKey))
    else
      Returned(CatchImage(Exchange(f, ImageError, "choices",
        data =>
          match TruthyString(Read(data, ContentPath))
          case Some(url) => Returned(ImageResult(true, Some(url), None))
          case None => Returned(ImageFailure(NoImageData)))))
  }

  /** For the same reply, the legacy text call and the DeepSeek adapter succeed together and
      fail alike on a network, parse or null-body error; they return the same text whenever the
      reply carries a non-empty string, and differ on a missing one ("..." against ""). */
  lemma LegacyTextAgreesWithAdapter(env: Env, f: Fetch)
    requires ApiKey(env) != ""
    ensures GenerateText(env, f).Returned?
    ensures GenerateText(env, f).value.success == DeepSeekProvider.ReadText(f).success
    ensures Delivered(f) && TruthyString(Read(f.reply.body.value, ContentPath)).Some? ==>
      GenerateText(env, f).value.text == DeepSeekProvider.ReadText(f).text
    ensures Delivered(f) && !Truthy(Read(f.reply.body.value, ContentPath)) ==>
      GenerateText(env, f).value.text == Some(Placeholder) && DeepSeekProvider.ReadText(f).text == Some("")
    ensures f.NetworkError? || (f.Replied? && Ok(f.reply.status) && !Delivered(f)) ==>
      GenerateText(env, f).value.error == DeepSeekProvider.ReadText(f).error
  {
  }

  /** The legacy image call returns as its image exactly the text the legacy text call returns
      for the same reply, whenever that text is a non-empty string of the reply; neither call
      succeeds on a reply that is not delivered. */
  lemma LegacyImageIsTextContent(env: Env, f: Fetch)
    requires ApiKey(env) != ""
    ensures Delivered(f) && TruthyString(Read(f.reply.body.value, ContentPath)).Some? ==>
      GenerateImage(env, f).value.success && GenerateImage(env, f).value.image == GenerateText(env, f).value.text
    ensures !Delivered(f) ==> !GenerateImage(env, f).value.success && !GenerateText(env, f).value.success
  {
  }
}
