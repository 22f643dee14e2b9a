/** The server actions the UI calls: each picks an adapter for its capability and returns that
    adapter's envelope, or a fixed failure when none is available; the streaming action
    forwards an adapter's own stream or synthesizes one by splitting the full text on white
    space. What an adapter does when called is a parameter (`run`, `native`), since the
    OpenRouter adapter the default configuration selects is not part of this model. */
module AiActions {
  import opened Basics
  import opened Strings
  import opened ProviderInterface
  import opened AiFactory
  import opened ProviderSelection

  const NoTextProvider := "No AI text provider available. Please configure API keys."
  const NoImageProvider := "No AI image provider available. Please configure API keys."
  const NoAudioProvider := "No AI audio provider available. Please configure API keys."
  const NoTextProviderFragment := "[ERROR] No AI text provider available. Please configure API keys."
  const ErrorTag := "[ERROR] "
  const UnknownErrorFragment := "[ERROR] Unknown error"

  /** An action's result and the factory cache it leaves behind. */
  datatype Served<T> = Served(result: T, cache: Cache)

  /** `generateText(systemPrompt, history, input)`; `run` is the chosen adapter's
      `generateText` on those arguments, which may throw. */
  function GenerateText(registry: Registry, env: Env, cache: Cache, probe: Adapter -> ProbeOutcome, run: Adapter -> Call<TextResult>): (s: Served<TextResult>)
    ensures s.cache == GetTextProvider(registry, env, cache, probe).cache
    ensures GetTextProvider(registry, env, cache, probe).found.None? ==>
      s.result == TextResult(false, None, Some("No AI text provider available. Please configure API keys."), None)
    ensures GetTextProvider(registry, env, cache, probe).found.Some? ==>
      var p := GetTextProvider(registry, env, cache, probe).found.value;
      (run(p).Returned? ==> s.result == run(p).value) &&
      (run(p).Threw? ==> s.result == TextFailure(MessageOf(run(p).thrown)))
  {
    var chosen := GetTextProvider(registry, env, cache, probe);
    match chosen.found
    case None => Served(TextFailure(NoTextProvider), chosen.cache)
    case Some(p) => Served(CatchText(run(p)), chosen.cache)
  }

  /** `generateImage(prompt)` */
  function GenerateImage(registry: Registry, env: Env, cache: Cache, probe: Adapter -> ProbeOutcome, run: Adapter -> Call<ImageResult>): (s: Served<ImageResult>)
    ensures s.cache == GetImageProvider(registry, env, cache, probe).cache
    ensures GetImageProvider(registry, env, cache, probe).found.None? ==>
      s.result == ImageResult(false, None, Some("No AI image provider available. Please configure API keys."))
    ensures GetImageProvider(registry, env, cache, probe).found.Some? ==>
      var p := GetImageProvider(registry, env, cache, probe).found.value;
      (run(p).Returned? ==> s.result == run(p).value) &&
      (run(p).Threw? ==> s.result == ImageFailure(MessageOf(run(p).thrown)))
  {
    var chosen := GetImageProvider(registry, env, cache, probe);
    match chosen.found
    case None => Served(ImageFailure(NoImageProvider), chosen.cache)
    case Some(p) => Served(CatchImage(run(p)), chosen.cache)
  }

  /** `generateSpeech(text)` */
  function GenerateSpeech(registry: Registry, env: Env, cache: Cache, probe: Adapter -> ProbeOutcome, run: Adapter -> Call<AudioResult>): (s: Served<AudioResult>)
    ensures s.cache == GetAudioProvider(registry, env, cache, probe).cache
    ensures GetAudioProvider(registry, env, cache, probe).found.None? ==>
      s.result == AudioResult(false, None, Some("No AI audio provider available. Please configure API keys."))
    ensures GetAudioProvider(registry, env, cache, probe).found.Some? ==>
      var p := GetAudioProvider(registry, env, cache, probe).found.value;
      (run(p).Returned? ==> s.result == run(p).value) &&
      (run(p).Threw? ==> s.result == AudioFailure(MessageOf(run(p).thrown)))
  {
    var chosen := GetAudioProvider(registry, env, cache, probe);
    match chosen.found
    case None => Served(AudioFailure(NoAudioProvider), chosen.cache)
    case Some(p) => Served(CatchAudio(run(p)), chosen.cache)
  }

  /** An adapter's own `generateTextStream`: the fragments it yields, and what it throws after
      them, if anything. */
  datatype NativeStream = NativeStream(fragments: seq<string>, failure: Option<Thrown>)

  /** The fallback stream built from a full `generateText` result: the pieces of
      `text.split(/(\s+)/)` for a success with non-empty text, otherwise the one fragment
      `result.error || "[ERROR] Unknown error"`. */
  function Synthesized(result: TextResult): (fragments: seq<string>)
    ensures result.success && result.text.Some? && result.text.value != "" ==>
      Concat(fragments) == result.text.value && IsWsSplit(IsJsWhiteSpace, fragments)
    ensures !(result.success && result.text.Some? && result.text.value != "") ==>
      |fragments| == 1 &&
      (result.error.Some? && result.error.value != "" ==> fragments[0] == result.error.value) &&
      (result.error.None? || result.error.value == "" ==> fragments[0] == "[ERROR] Unknown error")
  {
    if result.success && result.text.Some? && result.text.value != "" then
      SplitWsShape(IsJsWhiteSpace, result.text.value);
      SplitWs(IsJsWhiteSpace, result.text.value)
    else [StringOr(result.error, UnknownErrorFragment)]
  }

  /** A thrown value as the closing fragment. */
  function ErrorFragment(e: Thrown): (f: string)
    ensures f == "[ERROR] " + MessageOf(e)
  {
    ErrorTag + MessageOf(e)
  }

  /** `generateTextStream(systemPrompt, history, input)`: the fragments in the order they are
      yielded. `native` says whether the chosen adapter has its own stream and what it yields;
      `run` is its `generateText`. */
  function GenerateTextStream(registry: Registry, env: Env, cache: Cache, probe: Adapter -> ProbeOutcome,
                              native: Adapter -> Option<NativeStream>, run: Adapter -> Call<TextResult>): (s: Served<seq<string>>)
    ensures s.cache == GetTextProvider(registry, env, cache, probe).cache
    ensures GetTextProvider(registry, env, cache, probe).found.None? ==>
      s.result == ["[ERROR] No AI text provider available. Please configure API keys."]
    ensures GetTextProvider(registry, env, cache, probe).found.Some? && native(GetTextProvider(registry, env, cache, probe).found.value).Some? ==>
      var stream := native(GetTextProvider(registry, env, cache, probe).found.value).value;
      (stream.failure.None? ==> s.result == stream.fragments) &&
      (stream.failure.Some? ==> s.result == stream.fragments + [ErrorFragment(stream.failure.value)])
    ensures GetTextProvider(registry, env, cache, probe).found.Some? && native(GetTextProvider(registry, env, cache, probe).found.value).None? ==>
      var outcome := run(GetTextProvider(registry, env, cache, probe).found.value);
      (outcome.Threw? ==> s.result == [ErrorFragment(outcome.thrown)]) &&
      (outcome.Returned? ==> s.result == Synthesized(outcome.value))
  {
    var chosen := GetTextProvider(registry, env, cache, probe);
    match chosen.found
    case None => Served([NoTextProviderFragment], chosen.cache)
    case Some(p) =>
      match native(p)
      case Some(stream) =>
        Served(stream.fragments + (if stream.failure.Some? then [ErrorFragment(stream.failure.value)] else []), chosen.cache)
      case None =>
        match run(p)
        case Threw(e) => Served([ErrorFragment(e)], chosen.cache)
        case Returned(result) => Served(Synthesized(result), chosen.cache)
  }

  /** When no provider is available, the actions answer without calling any adapter: the
      result is the same whatever the adapters would have done. */
  lemma NoProviderCallsNothing(registry: Registry, env: Env, cache: Cache, probe: Adapter -> ProbeOutcome,
                               run1: Adapter -> Call<TextResult>, run2: Adapter -> Call<TextResult>,
                               native1: Adapter -> Option<NativeStream>, native2: Adapter -> Option<NativeStream>)
    requires GetTextProvider(registry, env, cache, probe).found.None?
    ensures GenerateText(registry, env, cache, probe, run1) == GenerateText(registry, env, cache, probe, run2)
    ensures GenerateTextStream(registry, env, cache, probe, native1, run1) == GenerateTextStream(registry, env, cache, probe, native2, run2)
  {
  }

  /** The streamed and the direct text agree: for an adapter without its own stream whose
      `generateText` succeeds with non-empty text, concatenating the streamed fragments gives
      exactly the text `generateText` returns. */
  lemma StreamMatchesText(registry: Registry, env: Env, cache: Cache, probe: Adapter -> ProbeOutcome,
                          native: Adapter -> Option<NativeStream>, run: Adapter -> Call<TextResult>)
    requires GetTextProvider(registry, env, cache, probe).found.Some?
    requires native(GetTextProvider(registry, env, cache, probe).found.value).None?
    requires run(GetTextProvider(registry, env, cache, probe).found.value).Returned?
    requires GenerateText(registry, env, cache, probe, run).result.success
    requires GenerateText(registry, env, cache, probe, run).result.text.Some? && GenerateText(registry, env, cache, probe, run).result.text.value != ""
    ensures Concat(GenerateTextStream(registry, env, cache, probe, native, run).result) == GenerateText(registry, env, cache, probe, run).result.text.value
    ensures GenerateTextStream(registry, env, cache, probe, native, run).cache == GenerateText(registry, env, cache, probe, run).cache
  {
  }

  /** A success with empty text is streamed as an error: the one fragment "[ERROR] Unknown
      error", although the direct call reports success. */
  lemma EmptySuccessStreamsError(registry: Registry, env: Env, cache: Cache, probe: Adapter -> ProbeOutcome,
                                 native: Adapter -> Option<NativeStream>, run: Adapter -> Call<TextResult>)
    requires GetTextProvider(registry, env, cache, probe).found.Some?
    requires native(GetTextProvider(registry, env, cache, probe).found.value).None?
    requires run(GetTextProvider(registry, env, cache, probe).found.value) == Returned(TextResult(true, Some(""), None, None))
    ensures GenerateText(registry, env, cache, probe, run).result.success
    ensures GenerateTextStream(registry, env, cache, probe, native, run).result == ["[ERROR] Unknown error"]
  {
  }

  /** A word of lower-case ASCII letters holds no white space. */
  lemma LowerCaseWord(s: string)
    requires forall i | 0 <= i < |s| :: 'a' <= s[i] <= 'z'
    ensures NoWs(IsJsWhiteSpace, s)
  {
  }

  /** The three pieces of "hello world" alternate as `split(/(\s+)/)` promises. */
  lemma HelloWorldPieces()
    ensures IsWsSplit(IsJsWhiteSpace, ["hello", " ", "world"])
    ensures Concat(["hello", " ", "world"]) == "hello world"
  {
    LowerCaseWord("hello");
    LowerCaseWord("world");
    assert AllWs(IsJsWhiteSpace, " ");
    ConcatCons2("hello", " ", ["world"]);
  }

  /** `"hello world".split(/(\s+)/)` is `["hello", " ", "world"]`, and that is what the
      synthesized stream yields for that text. */
  lemma HelloWorldSplit()
    ensures SplitWs(IsJsWhiteSpace, "hello world") == ["hello", " ", "world"]
    ensures Synthesized(TextResult(true, Some("hello world"), None, None)) == ["hello", " ", "world"]
  {
    HelloWorldPieces();
    SplitWsUnique(IsJsWhiteSpace, "hello world", ["hello", " ", "world"]);
  }
}
