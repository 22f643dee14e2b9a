/** The data contract every adapter produces or consumes: generation options, conversation
    turns, the three result envelopes, and the provider descriptor the registry holds. */
module ProviderInterface {
  import opened Basics

  /** One conversation turn; the role is free text ("user", "assistant", "system", ...). */
  datatype Turn = Turn(role: string, content: string)

  /** `AIOptions`: an optional model override and token limit. The temperature, the
      `systemPrompt` field and the open extension bag are not modelled. */
  datatype AIOptions = AIOptions(model: Option<string>, maxTokens: Option<int>)

  /** The gateway calls the adapters without options. */
  const NoOptions := AIOptions(None, None)

  /** Token accounting: exactly three counts. */
  datatype Usage = Usage(promptTokens: int, completionTokens: int, totalTokens: int)

  datatype TextResult = TextResult(success: bool, text: Option<string>, error: Option<string>, usage: Option<Usage>)

  datatype ImageResult = ImageResult(success: bool, image: Option<string>, error: Option<string>)

  datatype AudioResult = AudioResult(success: bool, audio: Option<string>, error: Option<string>)

  function TextFailure(message: string): TextResult {
    TextResult(false, None, Some(message), None)
  }

  function ImageFailure(message: string): ImageResult {
    ImageResult(false, None, Some(message))
  }

  function AudioFailure(message: string): AudioResult {
    AudioResult(false, None, Some(message))
  }

  /** The `catch (error)` block every generate method ends with: a thrown value becomes a
      failure envelope carrying `error.message`, or "Unknown error" for a non-Error value. */
  function CatchText(c: Call<TextResult>): (r: TextResult)
    ensures c.Returned? ==> r == c.value
    ensures c.Threw? ==> !r.success && r.error == Some(MessageOf(c.thrown)) && WellFormedText(r)
  {
    match c
    case Returned(v) => v
    case Threw(e) => TextFailure(MessageOf(e))
  }

  function CatchImage(c: Call<ImageResult>): (r: ImageResult)
    ensures c.Returned? ==> r == c.value
    ensures c.Threw? ==> !r.success && r.error == Some(MessageOf(c.thrown)) && WellFormedImage(r)
  {
    match c
    case Returned(v) => v
    case Threw(e) => ImageFailure(MessageOf(e))
  }

  function CatchAudio(c: Call<AudioResult>): (r: AudioResult)
    ensures c.Returned? ==> r == c.value
    ensures c.Threw? ==> !r.success && r.error == Some(MessageOf(c.thrown)) && WellFormedAudio(r)
  {
    match c
    case Returned(v) => v
    case Threw(e) => AudioFailure(MessageOf(e))
  }

  /** Exactly one of payload (on success) and error (on failure) is present; usage only on success. */
  predicate WellFormedText(r: TextResult) {
    if r.success then r.text.Some? && r.error.None? else r.error.Some? && r.text.None? && r.usage.None?
  }

  predicate WellFormedImage(r: ImageResult) {
    if r.success then r.image.Some? && r.error.None? else r.error.Some? && r.image.None?
  }

  predicate WellFormedAudio(r: AudioResult) {
    if r.success then r.audio.Some? && r.error.None? else r.error.Some? && r.audio.None?
  }

  /** `"native" | "gateway"` */
  datatype ProviderKind = Native | Gateway

  /** Model lists per capability: text is always a list, image and audio may be `null`. */
  datatype ModelLists = ModelLists(text: seq<string>, image: Option<seq<string>>, audio: Option<seq<string>>)

  /** Advisory metadata (requests and tokens per minute); nothing reads it. */
  datatype RateLimits = RateLimits(rpm: nat, tpm: nat)

  datatype ProviderConfig = ProviderConfig(
    name: string,
    kind: ProviderKind,
    baseUrl: string,
    envKey: string,
    models: ModelLists,
    rateLimits: Option<RateLimits>)

  /** The adapter classes the factory can instantiate. */
  datatype Backend = OpenRouter | Gemini | DeepSeek | Claude | Together

  /** An adapter instance: its class, the credential and the descriptor it was built with. */
  datatype Adapter = Adapter(backend: Backend, apiKey: string, config: ProviderConfig)

  /** `getName()`, identical in every adapter shown. */
  function GetName(a: Adapter): string {
    a.config.name
  }

  /** `getType()`, identical in every adapter shown. */
  function GetType(a: Adapter): ProviderKind {
    a.config.kind
  }

  /** `getTextModels()`, identical in every adapter shown. */
  function GetTextModels(a: Adapter): seq<string> {
    a.config.models.text
  }

  /** `this.config.models.<list> || []`: a `null` list reads as empty, a list as itself. */
  function ListOrEmpty(list: Option<seq<string>>): (r: seq<string>)
    ensures list.None? ==> r == []
    ensures list.Some? ==> r == list.value
  {
    list.GetOr([])
  }
}
