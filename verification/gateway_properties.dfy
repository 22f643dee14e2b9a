/** Properties that cut across the factory, the selection and the adapters: what an empty or
    Gemini-only environment gets, that selection does not look at capabilities, how the health
    probes of the four adapters compare, and how a fallback list with spaces is read. */
module GatewayProperties {
  import opened Basics
  import Strings
  import opened Http
  import opened ProviderInterface
  import opened AiFactory
  import opened ProviderSelection
  import opened AiActions
  import GeminiProvider
  import TogetherProvider
  import ClaudeProvider
  import DeepSeekProvider

  /** With no variables set nothing can be built, whatever the registry holds, so every
      capability finds no adapter, nothing is cached, and the text actions answer with their
      fixed failures. */
  lemma EmptyEnvironmentHasNoProvider(registry: Registry, probe: Adapter -> ProbeOutcome, t: Capability,
                                      run: Adapter -> Call<TextResult>, native: Adapter -> Option<NativeStream>)
    ensures GetAIProvider(registry, map[], map[], probe, t).found.None?
    ensures GetAIProvider(registry, map[], map[], probe, t).cache == map[]
    ensures GenerateText(registry, map[], map[], probe, run).result == TextFailure(NoTextProvider)
    ensures GenerateTextStream(registry, map[], map[], probe, native, run).result == [NoTextProviderFragment]
  {
    var env: Env := map[];
    assert forall n :: !Constructible(registry, env, n);
    forall t': Capability
      ensures GetAIProvider(registry, env, map[], probe, t').found.None?
      ensures GetAIProvider(registry, env, map[], probe, t').cache == map[]
    {
      GetAIProviderFirstUsable(registry, env, map[], probe, t');
      var r := GetAIProvider(registry, env, map[], probe, t');
      assert forall n | n in r.cache :: Constructible(registry, env, n);
      assert r.cache.Keys == {};
    }
  }

  /** The shipped registry in an environment holding only a Gemini key: OpenRouter, the
      default, cannot be built and Gemini can. */
  lemma GeminiKeyOnly(key: string)
    requires key != ""
    ensures Build(AiProviders(), map["GEMINI_API_KEY" := key], DefaultProvider).None?
    ensures Build(AiProviders(), map["GEMINI_API_KEY" := key], SmartDefault) == Some(Adapter(Gemini, key, GeminiConfig()))
  {
  }

  /** A Gemini key alone serves image and audio, through the smart default after the
      unconfigured primary, but not text: text has no smart default. */
  lemma GeminiOnlyServesMedia(key: string, probe: Adapter -> ProbeOutcome)
    requires key != ""
    requires probe(Adapter(Gemini, key, GeminiConfig())) == Resolved(true)
    ensures GetAIProvider(AiProviders(), map["GEMINI_API_KEY" := key], map[], probe, Text).found.None?
    ensures GetAIProvider(AiProviders(), map["GEMINI_API_KEY" := key], map[], probe, Image).found ==
      Some(Adapter(Gemini, key, GeminiConfig()))
    ensures GetAIProvider(AiProviders(), map["GEMINI_API_KEY" := key], map[], probe, Image).tried == ["openrouter", "gemini"]
    ensures GetAIProvider(AiProviders(), map["GEMINI_API_KEY" := key], map[], probe, Audio).found ==
      Some(Adapter(Gemini, key, GeminiConfig()))
  {
    var env := map["GEMINI_API_KEY" := key];
    GeminiKeyOnly(key);
    assert FallbackNames(env) == [];
    assert PrimaryName(env, Text) == DefaultProvider;
    assert PrimaryName(env, Image) == DefaultProvider;
    assert PrimaryName(env, Audio) == DefaultProvider;
    TextHasNoSmartDefault(AiProviders(), env, probe);
    MediaFallsToSmartDefault(AiProviders(), env, probe, Image, Adapter(Gemini, key, GeminiConfig()));
    MediaFallsToSmartDefault(AiProviders(), env, probe, Audio, Adapter(Gemini, key, GeminiConfig()));
  }

  /** The shipped registry with a DeepSeek key: DeepSeek can be built. */
  lemma DeepSeekKey(env: Env, key: string)
    requires "DEEPSEEK_API_KEY" in env && env["DEEPSEEK_API_KEY"] == key && key != ""
    ensures Build(AiProviders(), env, "deepseek") == Some(Adapter(DeepSeek, key, DeepSeekConfig()))
  {
  }

  /** Selection does not look at capabilities: with the global override naming DeepSeek, an
      image request is given the DeepSeek adapter, whose image generation always fails. */
  lemma SelectionIgnoresCapability(key: string, probe: Adapter -> ProbeOutcome, prompt: string)
    requires key != ""
    requires probe(Adapter(DeepSeek, key, DeepSeekConfig())) == Resolved(true)
    ensures GetImageProvider(AiProviders(), map["NEXT_AI_PROVIDER" := "deepseek", "DEEPSEEK_API_KEY" := key], map[], probe).found ==
      Some(Adapter(DeepSeek, key, DeepSeekConfig()))
    ensures !DeepSeekProvider.GenerateImage(prompt, NoOptions).success
  {
    var registry, env := AiProviders(), map["NEXT_AI_PROVIDER" := "deepseek", "DEEPSEEK_API_KEY" := key];
    DeepSeekKey(env, key);
    assert PrimaryName(env, Image) == "deepseek";
    UsablePrimaryChosen(registry, env, map[], probe, Image);
  }

  /** The four health probes: Gemini, Together and DeepSeek accept exactly a status in
      200-299; Claude also accepts 400, and that is the only difference. */
  lemma HealthProbesCompared(f: Fetch)
    ensures GeminiProvider.IsAvailable(f) == TogetherProvider.IsAvailable(f) == DeepSeekProvider.IsAvailable(f)
    ensures GeminiProvider.IsAvailable(f) ==> ClaudeProvider.IsAvailable(f)
    ensures ClaudeProvider.IsAvailable(f) && !GeminiProvider.IsAvailable(f) <==> f.Replied? && f.reply.status == 400
  {
  }

  /** `.catch(() => false)`: a candidate that is built but whose probe rejects does not end
      the search; it is skipped like an unavailable one, and the search goes on with the next
      name from the cache the attempt left. */
  lemma ProbeRejectionSkipsCandidate(create: Factory, cache: Cache, probe: Adapter -> ProbeOutcome, name: string, rest: seq<string>)
    requires create(cache, name).provider.Some? && probe(create(cache, name).provider.value).Rejected?
    ensures TryInOrder(create, cache, probe, [name] + rest) ==
      var r := TryInOrder(create, create(cache, name).cache, probe, rest);
      Attempted(r.found, r.cache, [name] + r.tried)
  {
    TryInOrderCons(create, cache, probe, name, rest);
  }

  /** A fallback list with white space after the comma, such as `"claude, deepseek"`, is
      read as the two names without the white space. */
  lemma FallbackListWithSpaces(a: string, pad: string, b: string)
    requires a != [] && ',' !in a && !Strings.IsJsWhiteSpace(a[0]) && !Strings.IsJsWhiteSpace(a[|a| - 1])
    requires b != [] && ',' !in b && !Strings.IsJsWhiteSpace(b[0]) && !Strings.IsJsWhiteSpace(b[|b| - 1])
    requires Strings.AllWs(Strings.IsJsWhiteSpace, pad)
    ensures FallbackNames(map[FallbackKey := a + "," + pad + b]) == [a, b]
  {
    var rest := pad + b;
    var list := a + "," + pad + b;
    assert Strings.SplitOn(list, ',') == [a, rest] by {
      assert !Strings.IsJsWhiteSpace(',');
      assert ',' !in rest;
      assert list == a + [','] + rest;
      Strings.SplitOnce(a, ',', rest);
    }
    FallbackNamesOfTwo(list, a, rest);
    Strings.TrimClean(Strings.IsJsWhiteSpace, a);
    Strings.TrimLeading(Strings.IsJsWhiteSpace, pad, b);
  }
}
