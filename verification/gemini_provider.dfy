/** The Gemini adapter: the `contents` list it sends for text, how it reads text, image and
    speech out of the replies, its model lists and its health probe. */
module GeminiProvider {
  import opened Basics
  import Strings
  import opened Json
  import opened Http
  import opened ProviderInterface
  import opened Chat

  const DefaultModel := "gemini-2.5-flash-preview-09-2025"
  const DefaultMaxTokens := 2000

  /** Gemini's name for the non-user side of the conversation. */
  const ModelRole := "model"

  /** The text request: the system prompt as a leading user turn, the history with every
      non-user role renamed "model", and the input as the closing user turn. */
  function TextRequest(systemPrompt: string, history: seq<Turn>, input: string, options: AIOptions): (q: ChatRequest)
    ensures options.model.None? || options.model.value == "" ==> q.model == DefaultModel
    ensures options.model.Some? && options.model.value != "" ==> q.model == options.model.value
    ensures options.maxTokens.None? || options.maxTokens.value == 0 ==> q.maxTokens == DefaultMaxTokens
    ensures options.maxTokens.Some? && options.maxTokens.value != 0 ==> q.maxTokens == options.maxTokens.value
    ensures q.system.None?
    ensures |q.messages| == |history| + 2
    ensures q.messages[0] == Turn(UserRole, systemPrompt)
    ensures q.messages[|q.messages| - 1] == Turn(UserRole, input)
    ensures forall i | 0 <= i < |history| ::
      q.messages[i + 1].content == history[i].content &&
      (q.messages[i + 1].role == UserRole <==> history[i].role == UserRole) &&
      (q.messages[i + 1].role == UserRole || q.messages[i + 1].role == ModelRole)
  {
    var messages := Framed(Some(Turn(UserRole, systemPrompt)), RenameRoles(history, ModelRole), input);
    forall i | 0 <= i < |history|
      ensures messages[i + 1] == RenameRole(history[i], ModelRole)
    {
      assert messages[i + 1] == messages[1..|messages| - 1][i];
    }
    ChatRequest(StringOr(options.model, DefaultModel), NumberOr(options.maxTokens, DefaultMaxTokens), None, messages)
  }

  const TextPath: seq<Step> := [Key("candidates"), Index(0), Key("content"), Key("parts"), Index(0), Key("text")]
  const ImagePath: seq<Step> := [Key("predictions"), Index(0), Key("bytesBase64Encoded")]
  const AudioPath: seq<Step> :=
    [Key("candidates"), Index(0), Key("content"), Key("parts"), Index(0), Key("inlineData"), Key("data")]

  function TextError(r: Reply): string {
    "Gemini API error: " + StatusText(r.status)
  }

  function ImageError(r: Reply): string {
    "Gemini image generation error: " + StatusText(r.status)
  }

  function AudioError(r: Reply): string {
    "Gemini TTS error: " + StatusText(r.status)
  }

  const NoImage := "No image data returned"
  const NoAudio := "No audio data returned"

  /** `generateText` given the reply to its request. Any reply in 200-299 that parses to a
      non-null value is a success, with `""` when the text is missing. */
  function ReadText(f: Fetch): (r: TextResult)
    ensures WellFormedText(r) && r.usage.None?
    ensures r.success <==> f.Replied? && Ok(f.reply.status) && f.reply.body.Parsed? && !f.reply.body.value.Null?
    ensures r.success ==> r.text == Some(StringOrDefault(Read(f.reply.body.value, TextPath), ""))
    ensures f.NetworkError? ==> r.error == Some(MessageOf(f.thrown))
    ensures f.Replied? && !Ok(f.reply.status) ==> r.error == Some("Gemini API error: " + StatusText(f.reply.status))
    ensures f.Replied? && Ok(f.reply.status) && f.reply.body.Unparseable? ==> r.error == Some(f.reply.body.message)
    ensures f.Replied? && Ok(f.reply.status) && f.reply.body == Parsed(Null) ==> r.error == Some(NullRead("candidates"))
  {
    CatchText(Exchange(f, TextError, "candidates",
      data => Returned(TextResult(true, Some(StringOrDefault(Read(data, TextPath), "")), None, None))))
  }

  /** `generateImage` given the reply: success exactly when the prediction carries (non-empty)
      image data. */
  function ReadImage(f: Fetch): (r: ImageResult)
    ensures WellFormedImage(r)
    ensures r.success <==>
      f.Replied? && Ok(f.reply.status) && f.reply.body.Parsed? && !f.reply.body.value.Null? &&
      TruthyString(Read(f.reply.body.value, ImagePath)).Some?
    ensures r.success ==> r.image == TruthyString(Read(f.reply.body.value, ImagePath))
    ensures f.NetworkError? ==> r.error == Some(MessageOf(f.thrown))
    ensures f.Replied? && !Ok(f.reply.status) ==> r.error == Some("Gemini image generation error: " + StatusText(f.reply.status))
    ensures f.Replied? && Ok(f.reply.status) && f.reply.body.Unparseable? ==> r.error == Some(f.reply.body.message)
    ensures f.Replied? && Ok(f.reply.status) && f.reply.body == Parsed(Null) ==> r.error == Some(NullRead("predictions"))
    ensures f.Replied? && Ok(f.reply.status) && f.reply.body.Parsed? && !f.reply.body.value.Null? ==>
      (!Truthy(Read(f.reply.body.value, ImagePath)) ==> r.error == Some(NoImage))
  {
    CatchImage(Exchange(f, ImageError, "predictions",
      data =>
        match TruthyString(Read(data, ImagePath))
        case Some(image) => Returned(ImageResult(true, Some(image), None))
        case None => Returned(ImageFailure(NoImage))))
  }

  /** `generateAudio` given the reply and the conversion of the PCM payload to base64 WAV
      (`pcmToWav` and the buffer conversions, which may throw). */
  function ReadAudio(f: Fetch, toWav: string -> Call<string>): (r: AudioResult)
    ensures WellFormedAudio(r)
    ensures r.success <==>
      Delivered(f) && TruthyString(Read(f.reply.body.value, AudioPath)).Some? &&
      toWav(TruthyString(Read(f.reply.body.value, AudioPath)).value).Returned?
    ensures Delivered(f) ==>
      var pcm := TruthyString(Read(f.reply.body.value, AudioPath));
      (pcm.Some? && toWav(pcm.value).Returned? ==> r == AudioResult(true, Some(toWav(pcm.value).value), None)) &&
      (pcm.Some? && toWav(pcm.value).Threw? ==> r == AudioFailure(MessageOf(toWav(pcm.value).thrown)))
    ensures f.NetworkError? ==> r.error == Some(MessageOf(f.thrown))
    ensures f.Replied? && !Ok(f.reply.status) ==> r.error == Some("Gemini TTS error: " + StatusText(f.reply.status))
    ensures f.Replied? && Ok(f.reply.status) && f.reply.body.Unparseable? ==> r.error == Some(f.reply.body.message)
    ensures f.Replied? && Ok(f.reply.status) && f.reply.body == Parsed(Null) ==> r.error == Some(NullRead("candidates"))
    ensures f.Replied? && Ok(f.reply.status) && f.reply.body.Parsed? && !f.reply.body.value.Null? ==>
      (!Truthy(Read(f.reply.body.value, AudioPath)) ==> r.error == Some(NoAudio))
  {
    CatchAudio(Exchange(f, AudioError, "candidates", data => AudioFromData(data, toWav)))
  }

  /** The reading of a parsed speech reply: the WAV conversion of the PCM payload, or a
      failure when there is none. */
  function AudioFromData(data: Json, toWav: string -> Call<string>): (c: Call<AudioResult>)
    ensures c.Returned? ==> WellFormedAudio(c.value)
    ensures c.Returned? && c.value.success ==>
      TruthyString(Read(data, AudioPath)).Some? &&
      toWav(TruthyString(Read(data, AudioPath)).value) == Returned(c.value.audio.value)
    ensures !Truthy(Read(data, AudioPath)) ==> c == Returned(AudioFailure(NoAudio))
    ensures TruthyString(Read(data, AudioPath)).Some? && toWav(TruthyString(Read(data, AudioPath)).value).Returned? ==>
      c == Returned(AudioResult(true, Some(toWav(TruthyString(Read(data, AudioPath)).value).value), None))
    ensures TruthyString(Read(data, AudioPath)).Some? && toWav(TruthyString(Read(data, AudioPath)).value).Threw? ==>
      c == Threw(toWav(TruthyString(Read(data, AudioPath)).value).thrown)
  {
    match TruthyString(Read(data, AudioPath))
    case Some(pcm) =>
      (match toWav(pcm)
       case Returned(wav) => Returned(AudioResult(true, Some(wav), None))
       case Threw(e) => Threw(e))
    case None => Returned(AudioFailure(NoAudio))
  }

  /** `getImageModels()` */
  function ImageModels(config: ProviderConfig): (r: seq<string>)
    ensures config.models.image.Some? ==> r == config.models.image.value
    ensures config.models.image.None? ==> r == []
  {
    ListOrEmpty(config.models.image)
  }

  /** `getAudioModels()` */
  function AudioModels(config: ProviderConfig): (r: seq<string>)
    ensures config.models.audio.Some? ==> r == config.models.audio.value
    ensures config.models.audio.None? ==> r == []
  {
    ListOrEmpty(config.models.audio)
  }

  /** `isAvailable()`: the model listing answers with a status in 200-299; a thrown request is
      false. */
  function IsAvailable(f: Fetch): (ok: bool)
    ensures ok <==> f.Replied? && 200 <= f.reply.status <= 299
  {
    ReplyOk(f)
  }

  /** A missing text is still a success, with the empty text. */
  lemma MissingTextIsEmptySuccess(status: nat, data: Json)
    requires Ok(status) && !data.Null?
    requires Read(data, TextPath).None?
    ensures ReadText(Replied(Reply(status, "", Parsed(data)))) == TextResult(true, Some(""), None, None)
  {
  }

  /** The error message of a failed status names that status: two failed replies with the same
      message had the same status. */
  lemma TextErrorNamesStatus(f1: Fetch, f2: Fetch)
    requires f1.Replied? && !Ok(f1.reply.status)
    requires f2.Replied? && !Ok(f2.reply.status)
    requires ReadText(f1).error == ReadText(f2).error
    ensures f1.reply.status == f2.reply.status
  {
    var p := "Gemini API error: ";
    assert p + StatusText(f1.reply.status) == p + StatusText(f2.reply.status);
    assert StatusText(f1.reply.status) == (p + StatusText(f1.reply.status))[|p|..];
    assert StatusText(f2.reply.status) == (p + StatusText(f2.reply.status))[|p|..];
    Strings.NatToStringInjective(f1.reply.status, f2.reply.status);
  }

  /** The speech result depends on the conversion only through what it makes of the reply's PCM
      payload: conversions that agree there give the same result, and when the reply carries no
      payload every conversion gives the same result. */
  lemma ReadAudioOnlyConvertsPayload(f: Fetch, toWav1: string -> Call<string>, toWav2: string -> Call<string>)
    requires Delivered(f) && TruthyString(Read(f.reply.body.value, AudioPath)).Some? ==>
      toWav1(TruthyString(Read(f.reply.body.value, AudioPath)).value) ==
      toWav2(TruthyString(Read(f.reply.body.value, AudioPath)).value)
    ensures ReadAudio(f, toWav1) == ReadAudio(f, toWav2)
  {
  }
}
