/** `getAIProvider`: the first-match search for an available adapter, over the primary name
    (per-capability override, then the global override, then the default), then the
    comma-separated fallback list in order, then Gemini as a default for image and audio only.
    A health probe that rejects counts as "not available". */
module ProviderSelection {
  import opened Basics
  import Strings
  import opened ProviderInterface
  import opened AiFactory

  /** `ProviderType` */
  datatype Capability = Text | Image | Audio

  /** `` `AI_${type.toUpperCase()}_PROVIDER` `` */
  function OverrideKey(t: Capability): string {
    match t
    case Text => "AI_TEXT_PROVIDER"
    case Image => "AI_IMAGE_PROVIDER"
    case Audio => "AI_AUDIO_PROVIDER"
  }

  const GlobalOverrideKey := "NEXT_AI_PROVIDER"
  const FallbackKey := "FALLBACK_PROVIDERS"
  const SmartDefault := "gemini"

  /** The primary name: the capability override if set and non-empty, else the global
      override if set and non-empty, else the default provider. */
  function PrimaryName(env: Env, t: Capability): (r: string)
    ensures HasValue(env, OverrideKey(t)) ==> r == env[OverrideKey(t)]
    ensures !HasValue(env, OverrideKey(t)) && HasValue(env, GlobalOverrideKey) ==> r == env[GlobalOverrideKey]
    ensures !HasValue(env, OverrideKey(t)) && !HasValue(env, GlobalOverrideKey) ==> r == DefaultProvider
    ensures r != ""
  {
    StringOr(EnvValue(env, OverrideKey(t)), StringOr(EnvValue(env, GlobalOverrideKey), DefaultProvider))
  }

  /** `process.env.FALLBACK_PROVIDERS?.split(",") || []`, each name trimmed before use. An
      unset variable gives no names; a set but empty one gives the single name "". */
  function FallbackNames(env: Env): (r: seq<string>)
    ensures FallbackKey !in env ==> r == []
    ensures FallbackKey in env ==> |r| == |Strings.SplitOn(env[FallbackKey], ',')| >= 1
    ensures FallbackKey in env ==> forall i | 0 <= i < |r| ::
      r[i] == Strings.Trim(Strings.IsJsWhiteSpace, Strings.SplitOn(env[FallbackKey], ',')[i])
  {
    match EnvValue(env, FallbackKey)
    case None => []
    case Some(list) =>
      var pieces := Strings.SplitOn(list, ',');
      seq(|pieces|, i requires 0 <= i < |pieces| => Strings.Trim(Strings.IsJsWhiteSpace, pieces[i]))
  }

  /** A list of two comma-separated pieces gives the two pieces, each trimmed. */
  lemma FallbackNamesOfTwo(list: string, x: string, y: string)
    requires Strings.SplitOn(list, ',') == [x, y]
    ensures FallbackNames(map[FallbackKey := list]) ==
      [Strings.Trim(Strings.IsJsWhiteSpace, x), Strings.Trim(Strings.IsJsWhiteSpace, y)]
  {
    var env := map[FallbackKey := list];
    assert EnvValue(env, FallbackKey) == Some(list);
    var r := FallbackNames(env);
    assert |r| == 2;
    assert r[0] == Strings.Trim(Strings.IsJsWhiteSpace, x);
    assert r[1] == Strings.Trim(Strings.IsJsWhiteSpace, y);
  }

  /** Names without commas and without surrounding white space, written comma-separated (with
      or without spaces around the commas is all one to `trim`), come back as the same list in
      the same order. */
  lemma {:induction false} FallbackOrder(env: Env, names: seq<string>)
    requires |names| >= 1
    requires forall i | 0 <= i < |names| :: ',' !in names[i]
    requires forall i | 0 <= i < |names| ::
      names[i] == [] || (!Strings.IsJsWhiteSpace(names[i][0]) && !Strings.IsJsWhiteSpace(names[i][|names[i]| - 1]))
    requires env == map[FallbackKey := Strings.Join(names, ",")]
    ensures FallbackNames(env) == names
  {
    Strings.SplitJoin(names, ',');
    assert Strings.SplitOn(env[FallbackKey], ',') == names;
    var r := FallbackNames(env);
    forall i | 0 <= i < |names|
      ensures r[i] == names[i]
    {
      Strings.TrimClean(Strings.IsJsWhiteSpace, names[i]);
    }
  }

  /** How `isAvailable()` settled: resolved to a value, or rejected. */
  datatype ProbeOutcome = Resolved(available: bool) | Rejected

  /** `await provider.isAvailable().catch(() => false)` */
  predicate Settle(o: ProbeOutcome) {
    o.Resolved? && o.available
  }

  /** The result of a search: the adapter found, the cache afterwards, and the names handed to
      `createProvider`, in call order. */
  datatype Attempted = Attempted(found: Option<Adapter>, cache: Cache, tried: seq<string>)

  /** One `createProvider(name)` followed, when it built something, by its health probe. */
  function Attempt(create: Factory, cache: Cache, probe: Adapter -> ProbeOutcome, name: string): (r: Attempted)
    ensures r.tried == [name]
    ensures r.cache == create(cache, name).cache
    ensures r.found.Some? <==> create(cache, name).provider.Some? && Settle(probe(create(cache, name).provider.value))
    ensures r.found.Some? ==> r.found == create(cache, name).provider
  {
    var c := create(cache, name);
    match c.provider
    case None => Attempted(None, c.cache, [name])
    case Some(p) => if Settle(probe(p)) then Attempted(Some(p), c.cache, [name]) else Attempted(None, c.cache, [name])
  }

  /** The `for ... of` loop over names: attempt each in order and stop at the first adapter that
      is built and reports itself available. */
  function TryInOrder(create: Factory, cache: Cache, probe: Adapter -> ProbeOutcome, names: seq<string>): (r: Attempted)
    ensures r.found.Some? ==> Settle(probe(r.found.value))
    ensures r.found.None? ==> r.tried == names
    ensures r.found.Some? ==> 1 <= |r.tried| <= |names| && r.tried == names[..|r.tried|]
    decreases |names|
  {
    if names == [] then Attempted(None, cache, [])
    else
      var a := Attempt(create, cache, probe, names[0]);
      if a.found.Some? then a
      else
        var rest := TryInOrder(create, a.cache, probe, names[1..]);
        assert names == [names[0]] + names[1..];
        Attempted(rest.found, rest.cache, [names[0]] + rest.tried)
  }

  /** With a factory that only adds to the cache, so does the search. */
  lemma {:induction false} TryInOrderGrows(create: Factory, cache: Cache, probe: Adapter -> ProbeOutcome, names: seq<string>)
    requires Grows(create)
    ensures Extends(TryInOrder(create, cache, probe, names).cache, cache)
    decreases |names|
  {
    if names != [] {
      var a := Attempt(create, cache, probe, names[0]);
      assert Extends(a.cache, cache);
      if a.found.None? {
        TryInOrderGrows(create, a.cache, probe, names[1..]);
      }
    }
  }

  /** `getAIProvider(type)`, stage by stage: primary, fallbacks, then the Gemini default for
      image and audio. */
  function GetAIProvider(registry: Registry, env: Env, cache: Cache, probe: Adapter -> ProbeOutcome, t: Capability): (r: Attempted)
    ensures r.found.Some? ==> Settle(probe(r.found.value))
    ensures |r.tried| >= 1 && r.tried[0] == PrimaryName(env, t)
  {
    var create := FactoryOf(registry, env);
    var primary := Attempt(create, cache, probe, PrimaryName(env, t));
    if primary.found.Some? then primary
    else
      var fallback := TryInOrder(create, primary.cache, probe, FallbackNames(env));
      if fallback.found.Some? then Attempted(fallback.found, fallback.cache, primary.tried + fallback.tried)
      else if t == Image || t == Audio then
        var gemini := Attempt(create, fallback.cache, probe, SmartDefault);
        Attempted(gemini.found, gemini.cache, primary.tried + fallback.tried + gemini.tried)
      else Attempted(None, fallback.cache, primary.tried + fallback.tried)
  }

  /** `getTextProvider()` */
  function GetTextProvider(registry: Registry, env: Env, cache: Cache, probe: Adapter -> ProbeOutcome): (r: Attempted)
    ensures r.found.Some? ==> Settle(probe(r.found.value))
    ensures |r.tried| >= 1 && r.tried[0] == PrimaryName(env, Text)
  {
    GetAIProvider(registry, env, cache, probe, Text)
  }

  /** `getImageProvider()` */
  function GetImageProvider(registry: Registry, env: Env, cache: Cache, probe: Adapter -> ProbeOutcome): (r: Attempted)
    ensures r.found.Some? ==> Settle(probe(r.found.value))
    ensures |r.tried| >= 1 && r.tried[0] == PrimaryName(env, Image)
  {
    GetAIProvider(registry, env, cache, probe, Image)
  }

  /** `getAudioProvider()` */
  function GetAudioProvider(registry: Registry, env: Env, cache: Cache, probe: Adapter -> ProbeOutcome): (r: Attempted)
    ensures r.found.Some? ==> Settle(probe(r.found.value))
    ensures |r.tried| >= 1 && r.tried[0] == PrimaryName(env, Audio)
  {
    GetAIProvider(registry, env, cache, probe, Audio)
  }

  /** The names `getAIProvider` may try, in order: the primary, the fallbacks, and Gemini for
      image and audio. */
  function Candidates(env: Env, t: Capability): seq<string> {
    if t == Text then [PrimaryName(env, t)] + FallbackNames(env)
    else [PrimaryName(env, t)] + FallbackNames(env) + [SmartDefault]
  }

  /** A non-empty list is its head followed by its tail, also in front of another list. */
  lemma HeadTail(xs: seq<string>, ys: seq<string>)
    requires xs != []
    ensures xs == [xs[0]] + xs[1..]
    ensures xs + ys == [xs[0]] + (xs[1..] + ys)
  {
  }

  /** A search over a non-empty list is an attempt on its head, then a search over its tail. */
  lemma TryInOrderCons(create: Factory, cache: Cache, probe: Adapter -> ProbeOutcome, name: string, rest: seq<string>)
    ensures TryInOrder(create, cache, probe, [name] + rest) ==
      var a := Attempt(create, cache, probe, name);
      if a.found.Some? then a
      else
        var r := TryInOrder(create, a.cache, probe, rest);
        Attempted(r.found, r.cache, [name] + r.tried)
  {
    var names := [name] + rest;
    assert names[0] == name && names[1..] == rest;
  }

  /** Searching a concatenation searches the first part, then, if nothing was found, the
      second part from the cache the first part left. */
  lemma {:induction false} TryInOrderAppend(create: Factory, cache: Cache, probe: Adapter -> ProbeOutcome, xs: seq<string>, ys: seq<string>)
    ensures TryInOrder(create, cache, probe, xs).found.Some? ==>
      TryInOrder(create, cache, probe, xs + ys) == TryInOrder(create, cache, probe, xs)
    ensures TryInOrder(create, cache, probe, xs).found.None? ==>
      var b := TryInOrder(create, TryInOrder(create, cache, probe, xs).cache, probe, ys);
      TryInOrder(create, cache, probe, xs + ys) == Attempted(b.found, b.cache, xs + b.tried)
    decreases |xs|
  {
    if xs == [] {
      assert xs + ys == ys;
    } else {
      var name, tail := xs[0], xs[1..];
      HeadTail(xs, ys);
      TryInOrderCons(create, cache, probe, name, tail);
      TryInOrderCons(create, cache, probe, name, tail + ys);
      var a := Attempt(create, cache, probe, name);
      if a.found.None? {
        TryInOrderAppend(create, a.cache, probe, tail, ys);
        var rest := TryInOrder(create, a.cache, probe, tail);
        if rest.found.None? {
          HeadTail(xs, TryInOrder(create, rest.cache, probe, ys).tried);
        }
      }
    }
  }

  /** A one-name search is one attempt. */
  lemma TryInOrderSingle(create: Factory, cache: Cache, probe: Adapter -> ProbeOutcome, name: string)
    ensures TryInOrder(create, cache, probe, [name]) == Attempt(create, cache, probe, name)
  {
    var a := Attempt(create, cache, probe, name);
    assert [name][1..] == [];
    assert [name] + [] == [name];
  }

  /** The staged search of `getAIProvider` is one first-match search over the candidate list. */
  lemma GetAIProviderIsSearch(registry: Registry, env: Env, cache: Cache, probe: Adapter -> ProbeOutcome, t: Capability)
    ensures GetAIProvider(registry, env, cache, probe, t) == TryInOrder(FactoryOf(registry, env), cache, probe, Candidates(env, t))
  {
    var create := FactoryOf(registry, env);
    var p := PrimaryName(env, t);
    var fs := FallbackNames(env);
    TryInOrderSingle(create, cache, probe, p);
    TryInOrderAppend(create, cache, probe, [p], fs);
    if t != Text {
      TryInOrderAppend(create, cache, probe, [p] + fs, [SmartDefault]);
      var a := TryInOrder(create, cache, probe, [p] + fs);
      TryInOrderSingle(create, a.cache, probe, SmartDefault);
    }
  }

  /** `getAIProvider` only ever adds to the factory cache. */
  lemma GetAIProviderGrows(registry: Registry, env: Env, cache: Cache, probe: Adapter -> ProbeOutcome, t: Capability)
    ensures Extends(GetAIProvider(registry, env, cache, probe, t).cache, cache)
  {
    GetAIProviderIsSearch(registry, env, cache, probe, t);
    FactoryGrows(registry, env);
    TryInOrderGrows(FactoryOf(registry, env), cache, probe, Candidates(env, t));
  }

  /** `getAIProvider` tries the candidates in order: all of them when it finds nothing, and
      the candidates up to the one it finds otherwise. */
  lemma GetAIProviderTried(registry: Registry, env: Env, cache: Cache, probe: Adapter -> ProbeOutcome, t: Capability)
    ensures GetAIProvider(registry, env, cache, probe, t).found.None? ==>
      GetAIProvider(registry, env, cache, probe, t).tried == Candidates(env, t)
    ensures GetAIProvider(registry, env, cache, probe, t).found.Some? ==>
      var n := |GetAIProvider(registry, env, cache, probe, t).tried|;
      1 <= n <= |Candidates(env, t)| && GetAIProvider(registry, env, cache, probe, t).tried == Candidates(env, t)[..n]
  {
    GetAIProviderIsSearch(registry, env, cache, probe, t);
  }

  /** A name the reference says can be built, and whose adapter's probe resolves to true. */
  predicate Usable(build: string -> Option<Adapter>, probe: Adapter -> ProbeOutcome, name: string) {
    build(name).Some? && Settle(probe(build(name).value))
  }

  /** The outcome of a first-match search over `names`: nothing is found exactly when no name
      is usable; otherwise the last name tried is usable, every name before it is not, and the
      adapter found is the one that name stands for. */
  predicate FindsFirstUsable(r: Attempted, build: string -> Option<Adapter>, probe: Adapter -> ProbeOutcome, names: seq<string>) {
    && (r.found.None? <==> forall i | 0 <= i < |names| :: !Usable(build, probe, names[i]))
    && (r.found.Some? ==>
          var k := |r.tried| - 1;
          && 0 <= k < |names|
          && Usable(build, probe, names[k])
          && r.found == build(names[k])
          && forall j | 0 <= j < k :: !Usable(build, probe, names[j]))
  }

  /** With a transparent factory, the search finds exactly the adapter of the first usable
      name, and the cache invariant is kept. */
  lemma {:induction false} TryInOrderFirstUsable(create: Factory, build: string -> Option<Adapter>, inv: Cache -> bool,
                                                 cache: Cache, probe: Adapter -> ProbeOutcome, names: seq<string>)
    requires Transparent(create, build, inv) && inv(cache)
    ensures inv(TryInOrder(create, cache, probe, names).cache)
    ensures FindsFirstUsable(TryInOrder(create, cache, probe, names), build, probe, names)
    decreases |names|
  {
    if names != [] {
      HeadTail(names, []);
      TryInOrderCons(create, cache, probe, names[0], names[1..]);
      var a := Attempt(create, cache, probe, names[0]);
      assert create(cache, names[0]).provider == build(names[0]);
      if a.found.None? {
        TryInOrderFirstUsable(create, build, inv, a.cache, probe, names[1..]);
        assert !Usable(build, probe, names[0]);
      }
    }
  }

  /** `Usable` for the factory of an environment: built from the registry and the
      environment, and reporting itself available. */
  predicate UsableIn(registry: Registry, env: Env, probe: Adapter -> ProbeOutcome, name: string) {
    Usable(BuildIn(registry, env), probe, name)
  }

  /** `getAIProvider` against a consistent cache returns the adapter of the first usable
      candidate, or nothing when no candidate is usable, and keeps the cache consistent. */
  lemma GetAIProviderFirstUsable(registry: Registry, env: Env, cache: Cache, probe: Adapter -> ProbeOutcome, t: Capability)
    requires CacheConsistent(registry, env, cache)
    ensures CacheConsistent(registry, env, GetAIProvider(registry, env, cache, probe, t).cache)
    ensures FindsFirstUsable(GetAIProvider(registry, env, cache, probe, t), BuildIn(registry, env), probe, Candidates(env, t))
  {
    GetAIProviderIsSearch(registry, env, cache, probe, t);
    FactoryTransparent(registry, env);
    TryInOrderFirstUsable(FactoryOf(registry, env), BuildIn(registry, env), ConsistentIn(registry, env),
                          cache, probe, Candidates(env, t));
  }

  /** A usable primary is chosen at once, whatever the fallbacks and the capability: nothing
      else is tried. */
  lemma UsablePrimaryChosen(registry: Registry, env: Env, cache: Cache, probe: Adapter -> ProbeOutcome, t: Capability)
    requires CacheConsistent(registry, env, cache)
    requires UsableIn(registry, env, probe, PrimaryName(env, t))
    ensures GetAIProvider(registry, env, cache, probe, t).found == Build(registry, env, PrimaryName(env, t))
    ensures GetAIProvider(registry, env, cache, probe, t).tried == [PrimaryName(env, t)]
  {
    GetAIProviderFirstUsable(registry, env, cache, probe, t);
    var r := GetAIProvider(registry, env, cache, probe, t);
    assert Candidates(env, t)[0] == PrimaryName(env, t);
    assert |r.tried| == 1;
  }

  /** Image and audio with an unbuildable primary and no fallbacks end at the smart default:
      its adapter is chosen when usable, after trying exactly the primary and Gemini. */
  lemma MediaFallsToSmartDefault(registry: Registry, env: Env, probe: Adapter -> ProbeOutcome, t: Capability, a: Adapter)
    requires t != Text && FallbackNames(env) == []
    requires Build(registry, env, PrimaryName(env, t)).None?
    requires Build(registry, env, SmartDefault) == Some(a) && Settle(probe(a))
    ensures GetAIProvider(registry, env, map[], probe, t).found == Some(a)
    ensures GetAIProvider(registry, env, map[], probe, t).tried == [PrimaryName(env, t), SmartDefault]
  {
    var cs := Candidates(env, t);
    assert cs == [PrimaryName(env, t), SmartDefault] by {
      assert [PrimaryName(env, t)] + [] == [PrimaryName(env, t)];
    }
    GetAIProviderFirstUsable(registry, env, map[], probe, t);
    GetAIProviderTried(registry, env, map[], probe, t);
    var r := GetAIProvider(registry, env, map[], probe, t);
    assert !UsableIn(registry, env, probe, cs[0]);
    assert UsableIn(registry, env, probe, cs[1]);
    assert |r.tried| == 2;
  }

  /** Text with an unbuildable primary and no fallbacks finds nothing. */
  lemma TextHasNoSmartDefault(registry: Registry, env: Env, probe: Adapter -> ProbeOutcome)
    requires FallbackNames(env) == []
    requires Build(registry, env, PrimaryName(env, Text)).None?
    ensures GetAIProvider(registry, env, map[], probe, Text).found.None?
  {
    SmartDefaultOnlyForMedia(registry, env, map[], probe, Text);
  }

  /** A first-match search whose names are all unusable but the last finds the last name's
      adapter when that name is usable, and nothing otherwise. */
  lemma FindsLast(r: Attempted, build: string -> Option<Adapter>, probe: Adapter -> ProbeOutcome, xs: seq<string>, last: string)
    requires FindsFirstUsable(r, build, probe, xs + [last])
    requires forall i | 0 <= i < |xs| :: !Usable(build, probe, xs[i])
    ensures r.found == (if Usable(build, probe, last) then build(last) else None)
  {
    var names := xs + [last];
    assert names[|xs|] == last;
    assert forall i | 0 <= i < |xs| :: names[i] == xs[i];
  }

  /** A name unusable at the head and at every position of the tail is unusable everywhere. */
  lemma NoneUsableCons(build: string -> Option<Adapter>, probe: Adapter -> ProbeOutcome, name: string, rest: seq<string>)
    requires !Usable(build, probe, name)
    requires forall i | 0 <= i < |rest| :: !Usable(build, probe, rest[i])
    ensures forall i | 0 <= i < |[name] + rest| :: !Usable(build, probe, ([name] + rest)[i])
  {
    var names := [name] + rest;
    assert forall i | 1 <= i < |names| :: names[i] == rest[i - 1];
  }

  /** The Gemini default is for image and audio only: when neither the primary nor any
      fallback is usable, text gets nothing while image and audio get Gemini exactly when it
      is usable. */
  lemma SmartDefaultOnlyForMedia(registry: Registry, env: Env, cache: Cache, probe: Adapter -> ProbeOutcome, t: Capability)
    requires CacheConsistent(registry, env, cache)
    requires !UsableIn(registry, env, probe, PrimaryName(env, t))
    requires forall i | 0 <= i < |FallbackNames(env)| :: !UsableIn(registry, env, probe, FallbackNames(env)[i])
    ensures t == Text ==> GetAIProvider(registry, env, cache, probe, t).found.None?
    ensures t != Text ==>
      GetAIProvider(registry, env, cache, probe, t).found ==
        (if UsableIn(registry, env, probe, SmartDefault) then Build(registry, env, SmartDefault) else None)
  {
    GetAIProviderFirstUsable(registry, env, cache, probe, t);
    var build := BuildIn(registry, env);
    NoneUsableCons(build, probe, PrimaryName(env, t), FallbackNames(env));
    if t != Text {
      FindsLast(GetAIProvider(registry, env, cache, probe, t), build, probe,
                [PrimaryName(env, t)] + FallbackNames(env), SmartDefault);
    }
  }
}
