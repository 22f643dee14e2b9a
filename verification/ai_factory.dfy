/** The provider registry and the factory that turns a registry name into an adapter,
    remembering every adapter it builds in a name-to-adapter cache. The process environment is
    an explicit map and the cache an explicit state passed in and returned. */
module AiFactory {
  import opened Basics
  import opened ProviderInterface

  /** `process.env`: variable name to value. */
  type Env = map<string, string>

  /** `providerCache`: registry name to the adapter built for it. */
  type Cache = map<string, Adapter>

  /** `process.env[key]`: the value, or `undefined`. */
  function EnvValue(env: Env, key: string): (r: Option<string>)
    ensures r.Some? <==> key in env
    ensures r.Some? ==> r.value == env[key]
  {
    if key in env then Some(env[key]) else None
  }

  /** A variable is configured when it is set to a non-empty value (`if (!value)` treats `""`
      as missing). */
  predicate HasValue(env: Env, key: string) {
    key in env && env[key] != ""
  }

  function OpenRouterConfig(): ProviderConfig {
    ProviderConfig(
      "OpenRouter", Gateway, "https://openrouter.ai/api/v1", "OPENROUTER_API_KEY",
      ModelLists(
        ["deepseek/deepseek-chat", "anthropic/claude-3.5-sonnet", "google/gemini-2.5-flash",
         "x-ai/grok-2", "mistralai/mistral-large", "meta-llama/llama-3.3-70b-instruct"],
        Some(["openrouter/auto"]), None),
      Some(RateLimits(20, 250000)))
  }

  function DeepSeekConfig(): ProviderConfig {
    ProviderConfig(
      "DeepSeek", Native, "https://api.deepseek.com/v1", "DEEPSEEK_API_KEY",
      ModelLists(["deepseek-chat", "deepseek-reasoner"], None, None),
      Some(RateLimits(60, 1000000)))
  }

  function ClaudeConfig(): ProviderConfig {
    ProviderConfig(
      "Anthropic Claude", Native, "https://api.anthropic.com/v1", "ANTHROPIC_API_KEY",
      ModelLists(["claude-3-5-sonnet-20241022", "claude-3-opus-20240229"], None, None),
      Some(RateLimits(50, 400000)))
  }

  function GrokConfig(): ProviderConfig {
    ProviderConfig(
      "Grok (xAI)", Native, "https://api.x.ai/v1", "GROK_API_KEY",
      ModelLists(["grok-2-1212", "grok-2-vision-1212"], None, None),
      Some(RateLimits(60, 600000)))
  }

  function GeminiConfig(): ProviderConfig {
    ProviderConfig(
      "Google Gemini", Native, "https://generativelanguage.googleapis.com/v1beta", "GEMINI_API_KEY",
      ModelLists(["gemini-2.5-flash-preview-09-2025", "gemini-2.5-pro"],
                 Some(["imagen-4.0-generate-001"]), Some(["gemini-2.5-flash-preview-tts"])),
      Some(RateLimits(15, 1000000)))
  }

  function TogetherConfig(): ProviderConfig {
    ProviderConfig(
      "Together AI", Gateway, "https://api.together.xyz/v1", "TOGETHER_API_KEY",
      ModelLists(["deepseek-ai/DeepSeek-R1", "meta-llama/Meta-Llama-3.1-70B-Instruct-Turbo", "Qwen/QwQ-32B-Preview"],
                 Some(["black-forest-labs/FLUX.1-schnell"]), None),
      Some(RateLimits(60, 600000)))
  }

  /** A provider registry: registry name to descriptor. The factory and the provider search
      read it as a parameter; `AiProviders()` is the table the module ships. */
  type Registry = map<string, ProviderConfig>

  /** `AI_PROVIDERS` */
  function AiProviders(): Registry {
    map[
      "openrouter" := OpenRouterConfig(),
      "deepseek" := DeepSeekConfig(),
      "claude" := ClaudeConfig(),
      "grok" := GrokConfig(),
      "gemini" := GeminiConfig(),
      "together" := TogetherConfig()]
  }

  /** `DEFAULT_PROVIDER` */
  const DefaultProvider := "openrouter"

  /** The `switch` in `createProvider`: the adapter class for a name, if there is one. */
  function Implementation(name: string): Option<Backend> {
    if name == "openrouter" then Some(OpenRouter)
    else if name == "gemini" then Some(Gemini)
    else if name == "deepseek" then Some(DeepSeek)
    else if name == "claude" then Some(Claude)
    else if name == "together" then Some(Together)
    else None
  }

  /** The names the `switch` has a case for. */
  const Implemented: set<string> := {"openrouter", "gemini", "deepseek", "claude", "together"}

  /** A name the factory can build an adapter for in this environment: registered, credential
      configured, and implemented. */
  predicate Constructible(registry: Registry, env: Env, name: string) {
    name in registry && HasValue(env, registry[name].envKey) && name in Implemented
  }

  /** The cache-free reference: the adapter a name stands for in this environment, if any. */
  function Build(registry: Registry, env: Env, name: string): (r: Option<Adapter>)
    ensures r.Some? <==> Constructible(registry, env, name)
    ensures r.Some? ==> r.value.config == registry[name] && r.value.apiKey == env[registry[name].envKey]
    ensures r.Some? ==> r.value.backend == Implementation(name).value
  {
    if Constructible(registry, env, name) then
      var config := registry[name];
      Some(Adapter(Implementation(name).value, env[config.envKey], config))
    else None
  }

  /** What `createProvider` returns, and the cache after the call. */
  datatype Created = Created(provider: Option<Adapter>, cache: Cache)

  /** `createProvider(providerName)`, step by step: cache hit, unknown name, missing
      credential, missing implementation, and otherwise build and remember. */
  function CreateProvider(registry: Registry, env: Env, cache: Cache, name: string): (c: Created)
    ensures name in cache ==> c == Created(Some(cache[name]), cache)
    ensures name !in cache ==> c.provider == Build(registry, env, name)
    ensures c.provider.None? ==> c.cache == cache
    ensures name !in cache && c.provider.Some? ==> c.cache == cache[name := c.provider.value]
  {
    if name in cache then Created(Some(cache[name]), cache)
    else if name !in registry then Created(None, cache)
    else
      var config := registry[name];
      var apiKey := EnvValue(env, config.envKey);
      if apiKey.None? || apiKey.value == "" then Created(None, cache)
      else match Implementation(name)
        case None => Created(None, cache)
        case Some(backend) =>
          var provider := Adapter(backend, apiKey.value, config);
          Created(Some(provider), cache[name := provider])
  }

  /** Every cached adapter is the one its name stands for in this environment. */
  predicate CacheConsistent(registry: Registry, env: Env, cache: Cache) {
    forall n | n in cache :: Build(registry, env, n) == Some(cache[n])
  }

  /** Every entry of the first cache is still in the second, unchanged. */
  predicate Extends(bigger: Cache, smaller: Cache) {
    forall n | n in smaller :: n in bigger && bigger[n] == smaller[n]
  }

  /** The shipped registry: every entry has a text list, only Gemini has an audio list, and
      DeepSeek, Claude and Grok have no image list. */
  lemma RegistryShape()
    ensures forall n | n in AiProviders() :: AiProviders()[n].models.text != []
    ensures forall n | n in AiProviders() :: AiProviders()[n].models.audio.Some? <==> n == "gemini"
    ensures AiProviders()["deepseek"].models.image.None?
    ensures AiProviders()["claude"].models.image.None?
    ensures AiProviders()["grok"].models.image.None?
    ensures AiProviders().Keys == Implemented + {"grok"}
    ensures DefaultProvider in Implemented
  {
    var r := AiProviders();
    assert r.Keys == {"openrouter", "deepseek", "claude", "grok", "gemini", "together"};
    forall n | n in r
      ensures r[n].models.text != []
      ensures r[n].models.audio.Some? <==> n == "gemini"
    {
    }
  }

  /** `grok` is registered but has no implementation: it is never built, whatever the
      environment holds, and asking for it leaves the cache unchanged. */
  lemma GrokNeverBuilt(env: Env, cache: Cache)
    requires "grok" !in cache
    ensures "grok" in AiProviders()
    ensures CreateProvider(AiProviders(), env, cache, "grok") == Created(None, cache)
  {
  }

  /** A cache hit returns the remembered adapter without looking at the environment again:
      the credential may since have been removed or changed. */
  lemma CacheHitIgnoresEnv(registry: Registry, env1: Env, env2: Env, cache: Cache, name: string)
    requires name in cache
    ensures CreateProvider(registry, env1, cache, name) == CreateProvider(registry, env2, cache, name)
  {
  }

  /** In a consistent cache, going through the cache or building afresh gives the same adapter;
      the call keeps the cache consistent and only ever adds to it. */
  lemma CreateProviderTransparent(registry: Registry, env: Env, cache: Cache, name: string)
    requires CacheConsistent(registry, env, cache)
    ensures CreateProvider(registry, env, cache, name).provider == Build(registry, env, name)
    ensures CacheConsistent(registry, env, CreateProvider(registry, env, cache, name).cache)
    ensures Extends(CreateProvider(registry, env, cache, name).cache, cache)
    ensures CreateProvider(registry, env, cache, name).cache.Keys ==
      cache.Keys + (if Constructible(registry, env, name) then {name} else {})
  {
    var c := CreateProvider(registry, env, cache, name);
    if name in cache {
      assert Build(registry, env, name) == Some(cache[name]);
      assert Constructible(registry, env, name);
    }
  }

  /** Asking twice for the same name gives the same adapter, and the second call finds
      everything it needs in the cache. */
  lemma CreateProviderIdempotent(registry: Registry, env: Env, cache: Cache, name: string)
    ensures var c := CreateProvider(registry, env, cache, name);
      CreateProvider(registry, env, c.cache, name) == Created(c.provider, c.cache)
  {
  }

  /** `createProvider` as a value the provider search calls: the cache and a name in, the
      adapter (or none) and the cache afterwards out. */
  type Factory = (Cache, string) -> Created

  function FactoryOf(registry: Registry, env: Env): Factory {
    (cache: Cache, name: string) => CreateProvider(registry, env, cache, name)
  }

  /** A factory that only ever adds to the cache. */
  ghost predicate Grows(create: Factory) {
    forall c: Cache, n: string :: Extends(create(c, n).cache, c)
  }

  /** A factory that, on caches satisfying `inv`, returns what `build` says and keeps `inv`. */
  ghost predicate Transparent(create: Factory, build: string -> Option<Adapter>, inv: Cache -> bool) {
    forall c: Cache, n: string | inv(c) :: create(c, n).provider == build(n) && inv(create(c, n).cache)
  }

  lemma FactoryGrows(registry: Registry, env: Env)
    ensures Grows(FactoryOf(registry, env))
  {
    forall c: Cache, n: string
      ensures Extends(FactoryOf(registry, env)(c, n).cache, c)
    {
      var r := CreateProvider(registry, env, c, n);
    }
  }

  /** `Build` for one registry and environment, as a value. */
  function BuildIn(registry: Registry, env: Env): string -> Option<Adapter> {
    name => Build(registry, env, name)
  }

  /** `CacheConsistent` for one registry and environment, as a value. */
  function ConsistentIn(registry: Registry, env: Env): Cache -> bool {
    cache => CacheConsistent(registry, env, cache)
  }

  /** Against consistent caches, `createProvider` is the cache-free reference `Build`. */
  lemma FactoryTransparent(registry: Registry, env: Env)
    ensures Transparent(FactoryOf(registry, env), BuildIn(registry, env), ConsistentIn(registry, env))
  {
    forall c: Cache, n: string | CacheConsistent(registry, env, c)
      ensures FactoryOf(registry, env)(c, n).provider == Build(registry, env, n)
      ensures CacheConsistent(registry, env, FactoryOf(registry, env)(c, n).cache)
    {
      CreateProviderTransparent(registry, env, c, n);
    }
  }
}
