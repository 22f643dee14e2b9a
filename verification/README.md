# AI generation gateway — a Dafny model

This project models the server side of a Next.js application that routes text, image and speech
generation through interchangeable AI backends. The following parts are modelled:

- **The provider registry and factory** (`app/services/ai-factory.ts`):
  - the registry of six descriptors, in which `grok` is registered but has no implementation;
  - `createProvider`, with its name-to-adapter cache;
  - `getAIProvider`'s first-match search over these candidates, in this order:
    - a single primary name: the per-capability override (`AI_TEXT_PROVIDER`, ...) when it is set and
      non-empty, else the global override (`NEXT_AI_PROVIDER`) when set and non-empty, else
      `openrouter`. Only this name is tried; when it is unavailable, the names it shadowed are
      not tried;
    - the trimmed comma-separated `FALLBACK_PROVIDERS`;
    - Gemini as a "smart default" for image and audio only.
- **The provider contract** (`app/services/ai-provider.interface.ts`): options, conversation turns, the three result envelopes, and the descriptor.
- **The four adapters shown** (Gemini, Together AI, Claude, DeepSeek). For each:
  - the request it builds from a conversation;
  - how it reads a reply (or a network failure) into an envelope;
  - its model lists;
  - its health probe.
- **The server actions** (`app/actions/ai-actions.ts`):
  - the three envelope actions;
  - the text stream: either the adapter's own stream is forwarded, or one is synthesized with `text.split(/(\s+)/)`;
  - the `[ERROR] ...` fragments.
- **The legacy actions** (`app/actions/gemini-actions.ts`): hard-wired to DeepSeek, with the key read once from the environment.

## Modelling choices

- **The process environment** is an explicit `Env` map.
- **The factory's cache** is an explicit `Cache` map, passed in and returned.
- **The registry** is a parameter of the factory, the search and the actions. `AiFactory.AiProviders()` is the table the module ships, and the lemmas about the shipped configuration use it.
- **The network** is an input. Each adapter reads a `Fetch` value: a reply with a status and a parsed or unparseable body, or a thrown network error.
- **Inside the gateway, the chosen adapter's behaviour is a parameter**:
  - `probe` is its `isAvailable()` outcome, which may reject;
  - `run` is its `generateText`/`generateImage`/`generateAudio`;
  - `native` is its own `generateTextStream`, if it has one.

  One reason is that the default `openrouter` adapter is not part of this model. The four adapters shown are modelled on their own.

The central results are:

- **The selection search.** `ProviderSelection.GetAIProviderFirstUsable` and `ProviderSelection.GetAIProviderIsSearch` show that the staged search is one first-match search over the candidate list. Against a consistent cache, it returns the adapter of the first candidate that can be built and reports itself available.
- **The cache.** `AiFactory.CreateProviderTransparent` shows that the cache is transparent: going through it gives what building afresh gives.
- **The stream.** `Strings.SplitWsShape` and `Strings.SplitWsUnique` pin down the synthesized stream: its pieces alternate between words and white space and concatenate back to the text. `AiActions.StreamMatchesText` uses this.

## Model

| member | source | states |
|---|---|---|
| AiFactory.EnvValue | app/services/ai-factory.ts:114 | reading a variable gives a value exactly when it is set, and then the value it is set to |
| AiFactory.Build | app/services/ai-factory.ts:108-141 | the cache-free reference: an adapter exists exactly when the name is registered, its credential variable is set and non-empty, and the `switch` has a case for it; it carries the registry's descriptor, the credential's value and the class the name selects |
| AiFactory.CreateProvider | app/services/ai-factory.ts:103-148 | a cache hit returns the remembered adapter and leaves the cache alone; a miss returns exactly what the reference builds; a failed build leaves the cache unchanged and a successful one adds exactly that one entry |
| AiFactory.RegistryShape | app/services/ai-factory.ts:12-99 | every shipped descriptor has a text model list, only Gemini has an audio list, DeepSeek, Claude and Grok have no image list, the registered names are the implemented ones plus `grok`, and the default name is implemented |
| AiFactory.GrokNeverBuilt | app/services/ai-factory.ts:122-141 | `grok` is registered but falls to the `default` case: it is never built, whatever the environment, and the cache is left unchanged |
| AiFactory.CacheHitIgnoresEnv | app/services/ai-factory.ts:104-106 | a cached name gives the same answer in any environment, so a credential removed after the first build is not noticed |
| AiFactory.CreateProviderTransparent | app/services/ai-factory.ts:103-148 | on a cache whose entries all agree with the reference, the factory returns the reference's adapter, keeps the cache consistent, only adds to it, and adds the name exactly when it can be built |
| AiFactory.CreateProviderIdempotent | app/services/ai-factory.ts:143-147 | asking again for the same name gives the same adapter and leaves the cache as the first call left it |
| AiFactory.FactoryGrows | app/services/ai-factory.ts:143-145 | the factory never removes or replaces a cache entry |
| AiFactory.FactoryTransparent | app/services/ai-factory.ts:103-148 | the factory as a value agrees with the reference on every consistent cache and keeps it consistent |
| ProviderSelection.PrimaryName | app/services/ai-factory.ts:152-153 | the capability override when set and non-empty, otherwise the global override when set and non-empty, otherwise `openrouter`; never empty |
| ProviderSelection.FallbackNames | app/services/ai-factory.ts:166-169 | an unset list gives no names; a set list (even `""`) gives one name per comma-separated piece, and each name is its piece with JavaScript white space trimmed from both ends |
| ProviderSelection.FallbackNamesOfTwo | app/services/ai-factory.ts:166-169 | a list of two comma-separated pieces gives the two pieces, each trimmed |
| ProviderSelection.FallbackOrder | app/services/ai-factory.ts:166-169 | names without commas or surrounding white space, joined with commas, are read back as the same names in the same order |
| ProviderSelection.Attempt | app/services/ai-factory.ts:156-163 | one attempt finds an adapter exactly when the factory builds one and its probe resolves to `true`; a rejected probe counts as unavailable |
| ProviderSelection.TryInOrder | app/services/ai-factory.ts:168-177 | a found adapter passed its probe; when nothing is found, every name was tried, and otherwise the names tried are a non-empty prefix of the list |
| ProviderSelection.TryInOrderGrows | app/services/ai-factory.ts:168-177 | with a factory that only adds to the cache, the loop only adds to it too |
| ProviderSelection.GetAIProvider | app/services/ai-factory.ts:150-193 | a returned adapter passed its probe, and the primary name is always tried first |
| ProviderSelection.GetTextProvider | app/services/ai-factory.ts:195-197 | the search for text: the adapter returned passed its probe, and the text primary is tried first |
| ProviderSelection.GetImageProvider | app/services/ai-factory.ts:199-201 | the search for image: the adapter returned passed its probe, and the image primary is tried first |
| ProviderSelection.GetAudioProvider | app/services/ai-factory.ts:203-205 | the search for audio: the adapter returned passed its probe, and the audio primary is tried first |
| ProviderSelection.TryInOrderCons | app/services/ai-factory.ts:168-177 | searching a list is an attempt on its head, then, if nothing was found, a search of its tail from the cache that attempt left |
| ProviderSelection.TryInOrderAppend | app/services/ai-factory.ts:150-193 | searching two lists one after the other is searching their concatenation, and the names tried concatenate too |
| ProviderSelection.TryInOrderSingle | app/services/ai-factory.ts:156-163 | a one-name search is one attempt |
| ProviderSelection.GetAIProviderIsSearch | app/services/ai-factory.ts:150-193 | the staged search (primary, fallbacks, Gemini for media) is one first-match search over primary, fallbacks and, for image and audio only, `gemini` |
| ProviderSelection.GetAIProviderGrows | app/services/ai-factory.ts:150-193 | a selection never removes or replaces a cache entry |
| ProviderSelection.GetAIProviderTried | app/services/ai-factory.ts:150-193 | every candidate is tried, in order, when nothing is found; otherwise the candidates up to the one found |
| ProviderSelection.TryInOrderFirstUsable | app/services/ai-factory.ts:168-177 | with a transparent factory, the loop finds nothing exactly when no name is usable, and otherwise finds the adapter of the first usable name, skipping only unusable ones |
| ProviderSelection.GetAIProviderFirstUsable | app/services/ai-factory.ts:150-193 | against a consistent cache, the selection returns nothing exactly when no candidate is usable, and otherwise the adapter of the first usable candidate; the cache stays consistent |
| ProviderSelection.UsablePrimaryChosen | app/services/ai-factory.ts:156-163 | a usable primary is chosen at once, and nothing else is tried |
| ProviderSelection.MediaFallsToSmartDefault | app/services/ai-factory.ts:180-189 | for image and audio, with an unbuildable primary and no fallbacks, a usable Gemini is chosen after trying exactly the primary and `gemini` |
| ProviderSelection.TextHasNoSmartDefault | app/services/ai-factory.ts:179-192 | for text, an unbuildable primary and no fallbacks give no adapter |
| ProviderSelection.SmartDefaultOnlyForMedia | app/services/ai-factory.ts:179-192 | when neither the primary nor any fallback is usable, text gets nothing, and image and audio get Gemini exactly when it is usable |
| AiActions.GenerateText | app/actions/ai-actions.ts:5-29 | no adapter gives the fixed "No AI text provider available" failure; otherwise the adapter's envelope is returned as is, and a throw becomes a failure carrying the error's message; the cache is the selection's |
| AiActions.GenerateImage | app/actions/ai-actions.ts:31-51 | the same for image, with the "No AI image provider available" failure |
| AiActions.GenerateSpeech | app/actions/ai-actions.ts:53-73 | the same for audio, with the "No AI audio provider available" failure |
| AiActions.Synthesized | app/actions/ai-actions.ts:94-103 | a success with non-empty text becomes pieces that alternate between words and white space and concatenate back to the text; anything else becomes one fragment, the error or "[ERROR] Unknown error" |
| AiActions.GenerateTextStream | app/actions/ai-actions.ts:75-109 | no adapter gives the one "[ERROR] No AI text provider available" fragment; an adapter's own stream is forwarded, followed by one `[ERROR] ` fragment if it throws; otherwise the stream is synthesized from the full text, or is one `[ERROR] ` fragment when the call throws |
| AiActions.NoProviderCallsNothing | app/actions/ai-actions.ts:10-17 | when no adapter is available, the text and stream results do not depend on what any adapter would have done |
| AiActions.StreamMatchesText | app/actions/ai-actions.ts:92-100 | for an adapter without its own stream whose text call succeeds with non-empty text, the streamed fragments concatenate to exactly the text the direct call returns, and the cache is the same |
| AiActions.EmptySuccessStreamsError | app/actions/ai-actions.ts:94-103 | a success with empty text is reported as a success by the direct call but streamed as the single "[ERROR] Unknown error" fragment |
| AiActions.HelloWorldSplit | app/actions/ai-actions.ts:95 | `"hello world".split(/(\s+)/)` is `["hello", " ", "world"]`, and that is the synthesized stream |
| Strings.SplitWsShape | app/actions/ai-actions.ts:95 | the pieces of `split(/(\s+)/)` alternate between runs without white space and non-empty runs of white space, and concatenate back to the input |
| Strings.SplitWsUnique | app/actions/ai-actions.ts:95 | any alternating decomposition that concatenates to the text is the split, so the split is fully characterised by the two properties above |
| Strings.Trim | app/services/ai-factory.ts:169 | the trimmed name neither starts nor ends with white space |
| Strings.TrimRemovesPadding | app/services/ai-factory.ts:169 | trimming removes only white space from the two ends: the result is a contiguous infix with white space before and after it |
| Strings.TrimClean | app/services/ai-factory.ts:169 | a name without surrounding white space is left as it is |
| Strings.TrimPadded | app/services/ai-factory.ts:169 | padding a clean name with white space on both sides and trimming gives the name back |
| Strings.TrimLeading | app/services/ai-factory.ts:169 | a clean name preceded by white space (as after `", "`) trims to the name |
| Strings.SplitOn | app/services/ai-factory.ts:166 | splitting on a character always gives at least one piece |
| Strings.SplitOnce | app/services/ai-factory.ts:166 | two pieces without the separator, joined by it, split back into the two pieces |
| Strings.SplitOnPieces | app/services/ai-factory.ts:166 | no piece contains the separator |
| Strings.JoinSplit | app/services/ai-factory.ts:166 | joining the pieces with the separator gives the original string |
| Strings.SplitJoin | app/services/ai-factory.ts:166 | a non-empty list of separator-free pieces, joined and split again, is the same list |
| Strings.NatToString | app/services/providers/gemini-provider.ts:61 | the status rendered in a message is a non-empty string of decimal digits without a leading zero |
| Strings.DigitsRoundTrip | app/services/providers/gemini-provider.ts:61 | reading the rendered digits back gives the status |
| Strings.NatToStringInjective | app/services/providers/gemini-provider.ts:61 | different statuses render differently |
| Json.Lookup | app/services/providers/gemini-provider.ts:64-65 | a member read finds nothing exactly when no member has that key, and otherwise the value of the last member with that key, as `JSON.parse` keeps the last of duplicate keys |
| Json.Read | app/services/providers/gemini-provider.ts:64-65 | `data.a?.b…` reads `data` itself for the empty path, and nothing when the first, unguarded, property of a non-null `data` is missing |
| Json.Truthy | app/services/providers/gemini-provider.ts:93-95 | `undefined` and `null` are falsy; arrays and objects are truthy even when empty |
| Json.Follow | app/services/providers/gemini-provider.ts:65 | an optional-chaining read of nothing is nothing, and the empty path reads the value itself |
| Json.FollowMissingPrefix | app/services/providers/together-provider.ts:70-72 | a read whose path prefix already finds nothing finds nothing |
| Json.ReadTwo | app/services/providers/together-provider.ts:70-72 | `data.a?.b` through an object member `a` reads `b` of that member |
| Json.TruthyString | app/services/providers/gemini-provider.ts:93-95 | a string read counts as present exactly when it is a truthy string, and then is that non-empty string |
| Json.StringOrDefault | app/services/providers/gemini-provider.ts:65 | defaulting a text read: the string when it is a truthy string, `d` when the read is falsy |
| Json.NumberOrZero | app/services/providers/together-provider.ts:70-72 | defaulting a count to 0: the number when it is a truthy number, 0 when the read is falsy |
| Json.Stringify | app/services/providers/together-provider.ts:59-60 | the echoed error body: `null` for null, a quoted string, a bracketed array, a braced object, and `{}` for the empty object |
| Http.StatusText | app/services/providers/gemini-provider.ts:60-62 | `${response.status}` is a string of decimal digits that reads back as the status |
| Http.NullRead | app/services/providers/gemini-provider.ts:64-65 | V8's message for a property read of `null` quotes the key between a fixed prefix and `')` |
| Http.NullReadNamesKey | app/services/providers/gemini-provider.ts:64-65 | two null-read messages are equal only for the same key |
| Http.BodyOrEmpty | app/services/providers/together-provider.ts:59 | an error body that parses is echoed as parsed, and one that does not is `{}` |
| Http.ReadJson | app/services/providers/gemini-provider.ts:64-65 | the body is usable exactly when it parses to something other than `null`; an unparseable body throws its SyntaxError, and a `null` body throws V8's TypeError for the first property read |
| Http.Exchange | app/services/providers/gemini-provider.ts:36-74 | a network error is rethrown; a status outside 200-299 throws the adapter's message; an unparseable or `null` body throws; only a parsed non-null body in 200-299 reaches the adapter's reading |
| Basics.MessageOf | app/actions/ai-actions.ts:26 | an `Error` gives its message and any other thrown value gives "Unknown error" |
| Basics.StringOr | app/services/providers/gemini-provider.ts:37 | defaulting a string option: an unset or empty value falls back to `d`, and any other value is kept |
| Basics.NumberOr | app/services/providers/gemini-provider.ts:55 | defaulting a number option: an unset or zero value falls back to `d`, and any other value is kept |
| ProviderInterface.CatchText | app/services/providers/gemini-provider.ts:68-74 | a returned envelope passes through, and a throw becomes a well-formed failure carrying the error's message |
| ProviderInterface.CatchImage | app/services/providers/gemini-provider.ts:100-106 | the same for image envelopes |
| ProviderInterface.CatchAudio | app/services/providers/gemini-provider.ts:145-151 | the same for audio envelopes |
| ProviderInterface.ListOrEmpty | app/services/providers/gemini-provider.ts:158-164 | a `null` model list reads as empty, and a list as itself |
| Chat.RenameRoles | app/services/providers/claude-provider.ts:39-42 | one turn per turn, in order, each keeping its content; a turn is a user turn exactly when it was one (or the other role is itself "user"), and only the two role names appear |
| Chat.RenameRolesAppend | app/services/providers/gemini-provider.ts:39-42 | each turn is renamed on its own: renaming a concatenation is renaming each part and concatenating |
| Chat.RenameRolesIdempotent | app/services/providers/claude-provider.ts:39-42 | renaming an already renamed history changes nothing |
| Chat.Framed | app/services/providers/together-provider.ts:38-42 | the message list is the optional leading turn, then the middle turns unchanged, then the input as the closing user turn |
| Chat.CompletionUsage | app/services/providers/together-provider.ts:69-73 | a reply whose `usage` is missing or `null` reports zero for all three counts; otherwise each count is the `usage` object's number under its own key, or 0 when that read is falsy, independent of the other two |
| Chat.UsageRead | app/services/providers/together-provider.ts:70-72 | `data.usage?.key` finds nothing when `usage` is missing or `null`, and otherwise reads `key` of the `usage` object |
| Chat.CompletionUsageOfUsage | app/services/providers/together-provider.ts:69-73 | for a reply with a `usage` object, each count is that object's number under its own key, independent of the other two; a missing `total_tokens` gives a total of 0 |
| Chat.CompletionUsageMissing | app/services/providers/together-provider.ts:69-73 | a reply without a `usage` object reports zero for all three counts |
| Chat.CompletionUsageTotalIsRead | app/services/providers/together-provider.ts:72 | the total is read and not computed: a reply whose usage lacks `total_tokens` reports a total of 0 whatever the other two counts are |
| GeminiProvider.TextRequest | app/services/providers/gemini-provider.ts:37-57 | the default model and token limit apply when the options are unset or falsy; the system prompt is a leading user turn; each history turn keeps its content, and every non-user role becomes `model`; the input is the closing user turn |
| GeminiProvider.ReadText | app/services/providers/gemini-provider.ts:60-74 | success exactly for a parsed non-null body in 200-299, with the text read from the first candidate or `""`; each failure carries its message: the network error's, the status message, the parse error, or the null read |
| GeminiProvider.ReadImage | app/services/providers/gemini-provider.ts:88-106 | success exactly when a parsed non-null body in 200-299 has non-empty image data in its first prediction, which is returned; each failure carries its message: the network error's, the status message, the parse error, the null read, or "No image data returned" |
| GeminiProvider.ReadAudio | app/services/providers/gemini-provider.ts:128-151 | success exactly when a parsed non-null body in 200-299 holds a non-empty PCM payload whose WAV conversion returns, and then the result carries that conversion; each failure carries its message: the network error's, the status message, the parse error, the null read, "No audio data returned", or the conversion's own error |
| GeminiProvider.AudioFromData | app/services/providers/gemini-provider.ts:132-144 | a parsed speech reply without a non-empty PCM payload gives "No audio data returned"; with one, a returning WAV conversion gives a success carrying it, and a throwing conversion is rethrown |
| GeminiProvider.ImageModels | app/services/providers/gemini-provider.ts:158-160 | the descriptor's image list, or empty when it is `null` |
| GeminiProvider.ReadAudioOnlyConvertsPayload | app/services/providers/gemini-provider.ts:132-144 | the speech result depends on the conversion only through its value on the reply's PCM payload |
| GeminiProvider.AudioModels | app/services/providers/gemini-provider.ts:162-164 | the descriptor's audio list, or empty when it is `null` |
| GeminiProvider.IsAvailable | app/services/providers/gemini-provider.ts:166-173 | available exactly when the model listing answers with a status in 200-299 |
| GeminiProvider.MissingTextIsEmptySuccess | app/services/providers/gemini-provider.ts:65-67 | a 2xx reply without text is a success with the empty text |
| GeminiProvider.TextErrorNamesStatus | app/services/providers/gemini-provider.ts:60-62 | two failed replies with the same error message had the same status |
| TogetherProvider.TextRequest | app/services/providers/together-provider.ts:36-55 | default model and token limit; a system turn, then the history exactly as given, then the input as the closing user turn |
| TogetherProvider.ReadText | app/services/providers/together-provider.ts:58-81 | success exactly for a parsed non-null body in 200-299, with the first choice's content or `""` and the three usage counts each read on its own; a failed status echoes the stringified error body, or `{}` |
| TogetherProvider.ReadImage | app/services/providers/together-provider.ts:102-124 | success exactly when a parsed non-null body in 200-299 holds a non-empty URL whose download returns, and then the result carries the download; each failure carries its message: the network error's, the status message, the parse error, the null read, "No image URL returned", or the download's own error |
| TogetherProvider.ImageFromData | app/services/providers/together-provider.ts:106-117 | a parsed image reply without a non-empty URL gives "No image URL returned"; with one, a returning download gives a success carrying it, and a throwing download is rethrown |
| TogetherProvider.GenerateAudio | app/services/providers/together-provider.ts:127-132 | always the "not supported by Together AI" failure |
| TogetherProvider.ReadImageOnlyDownloadsUrl | app/services/providers/together-provider.ts:106-117 | the image result depends on the download only through its value on the reply's URL |
| TogetherProvider.UnparseableErrorEchoesEmptyObject | app/services/providers/together-provider.ts:58-61 | a failed status whose body does not parse reports the status followed by ` - {}` |
| TogetherProvider.ImageModels | app/services/providers/together-provider.ts:138-140 | the descriptor's image list, or empty when it is `null` |
| TogetherProvider.AudioModels | app/services/providers/together-provider.ts:142-144 | always empty, whatever the descriptor says |
| TogetherProvider.IsAvailable | app/services/providers/together-provider.ts:146-155 | available exactly when the model listing answers with a status in 200-299 |
| TogetherProvider.TextRequestRecoversConversation | app/services/providers/together-provider.ts:38-42 | the message list determines the system prompt, the history and the input: two conversations with the same list are the same |
| ClaudeProvider.TextRequest | app/services/providers/claude-provider.ts:36-59 | default model and token limit; the system prompt goes in its own field; the history keeps each content, with roles folded into `user`/`assistant`; the input comes last |
| ClaudeProvider.ClaudeUsage | app/services/providers/claude-provider.ts:73-77 | a reply whose `usage` is missing or `null` reports zero tokens throughout; otherwise the prompt and completion counts are the `usage` object's `input_tokens` and `output_tokens` (0 when falsy), and the total is always their sum |
| ClaudeProvider.ReadText | app/services/providers/claude-provider.ts:62-85 | success exactly for a parsed non-null body in 200-299, with the first content block's text or `""` and Claude's usage; a failed status echoes the stringified error body |
| ClaudeProvider.GenerateImage | app/services/providers/claude-provider.ts:88-93 | always the "not supported by Claude" failure |
| ClaudeProvider.GenerateAudio | app/services/providers/claude-provider.ts:95-100 | always the "not supported by Claude" failure |
| ClaudeProvider.ImageModels | app/services/providers/claude-provider.ts:106-108 | always empty |
| ClaudeProvider.AudioModels | app/services/providers/claude-provider.ts:110-112 | always empty |
| ClaudeProvider.IsAvailable | app/services/providers/claude-provider.ts:114-133 | available exactly when the one-token request is answered with a status in 200-299 or with exactly 400 |
| ClaudeProvider.ClaudeUsageTotalIsSum | app/services/providers/claude-provider.ts:73-77 | for a reply with a `usage` object the total is the sum of the input and output counts read from it; no `total_tokens` member is consulted |
| ClaudeProvider.ClaudeUsageMissing | app/services/providers/claude-provider.ts:73-77 | a reply without usage reports zero tokens throughout |
| DeepSeekProvider.TextRequest | app/services/providers/deepseek-provider.ts:36-55 | default model and token limit; a system turn, then the history exactly as given, then the input as the closing user turn |
| DeepSeekProvider.ReadText | app/services/providers/deepseek-provider.ts:58-80 | success exactly for a parsed non-null body in 200-299, with the first choice's content or `""` and the three usage counts; a failed status gives "DeepSeek API error: <status>" |
| DeepSeekProvider.GenerateImage | app/services/providers/deepseek-provider.ts:83-88 | always the "not supported by DeepSeek" failure |
| DeepSeekProvider.GenerateAudio | app/services/providers/deepseek-provider.ts:90-95 | always the "not supported by DeepSeek" failure |
| DeepSeekProvider.ImageModels | app/services/providers/deepseek-provider.ts:101-103 | always empty |
| DeepSeekProvider.AudioModels | app/services/providers/deepseek-provider.ts:105-107 | always empty |
| DeepSeekProvider.IsAvailable | app/services/providers/deepseek-provider.ts:109-118 | available exactly when the model listing answers with a status in 200-299 |
| DeepSeekProvider.TextErrorNamesStatus | app/services/providers/deepseek-provider.ts:58-60 | two failed replies with the same error message had the same status |
| LegacyActions.ApiKey | app/actions/gemini-actions.ts:5 | the DeepSeek key when it is set and non-empty, otherwise `""` |
| LegacyActions.TextRequest | app/actions/gemini-actions.ts:22-43 | fixed model `deepseek-chat`, 1000 tokens, no streaming; a system turn, the history with roles folded into `user`/`assistant`, and the input last |
| LegacyActions.GenerateText | app/actions/gemini-actions.ts:11-61 | without a key the call throws instead of returning an envelope; with one, success exactly for a parsed non-null body in 200-299, and a missing text reads as "..." (never empty); each failure carries its message: the network error's, "API Error: status - statusText", the parse error, or the null read |
| LegacyActions.GenerateSpeech | app/actions/gemini-actions.ts:63-74 | never a success; the failure is "API key not configured" without a key and "TTS unavailable" with one |
| LegacyActions.GenerateImage | app/actions/gemini-actions.ts:76-131 | without a key the call throws; with one, success exactly when a parsed non-null body in 200-299 has a non-empty string as message content, which is returned as the image; each failure carries its message: the network error's, "Image generation failed: status", the parse error, the null read, or "No image data" |
| LegacyActions.LegacyTextAgreesWithAdapter | app/actions/gemini-actions.ts:44-60 | for the same reply the legacy text call and the DeepSeek adapter succeed together, return the same non-empty text, differ only on a missing text ("..." against `""`), and give the same network, parse and null-read errors |
| LegacyActions.LegacyImageIsTextContent | app/actions/gemini-actions.ts:108-121 | the legacy image is exactly the text the legacy text call returns for the same reply when that is a non-empty string; neither call succeeds on an undelivered reply |
| GatewayProperties.EmptyEnvironmentHasNoProvider | app/services/ai-factory.ts:150-193 | with no variables set, every capability finds no adapter and caches nothing, whatever the registry, and the text actions answer with their fixed failures |
| GatewayProperties.GeminiKeyOnly | app/services/ai-factory.ts:114-118 | with only a Gemini key, the default `openrouter` cannot be built and `gemini` can |
| GatewayProperties.GeminiOnlyServesMedia | app/services/ai-factory.ts:179-192 | a Gemini key alone serves image and audio through the smart default, after trying `openrouter`, but serves no text |
| GatewayProperties.DeepSeekKey | app/services/ai-factory.ts:108-130 | with a DeepSeek key, `deepseek` builds the DeepSeek adapter with that key and its shipped descriptor |
| GatewayProperties.SelectionIgnoresCapability | app/services/ai-factory.ts:150-163 | a global override naming DeepSeek makes an image request select DeepSeek, whose image generation always fails |
| GatewayProperties.HealthProbesCompared | app/services/providers/claude-provider.ts:129 | the Gemini, Together and DeepSeek probes agree; Claude's also accepts a 400 answer, and that is the only difference |
| GatewayProperties.ProbeRejectionSkipsCandidate | app/services/ai-factory.ts:168-176 | a built candidate whose probe rejects is skipped: the search continues with the next name from the cache its attempt left, and the candidate is recorded as tried |
| GatewayProperties.FallbackListWithSpaces | app/services/ai-factory.ts:166-169 | a list written as `"a, b"` or with any white space after the comma is read as the two names without the white space |

## Left out

- **Parts of the repository not modelled:**
  - `app/page.tsx`, `next.config.mjs` and `app/services/ai-factory (2).ts` are outside the gateway core.
  - The OpenRouter adapter is not part of this model. Inside the gateway, every adapter's behaviour is the `run`, `native` and `probe` parameters.
- **Request details:**
  - URLs, headers and the temperature are left out. They reach no result.
  - The `systemPrompt` option and the open extension bag of the options are not modelled.
  - The image and speech request bodies are left out, since they are fixed apart from the prompt.
- **Logging and timing:**
  - Console logging is left out.
  - The 20 ms pause between synthesized fragments is left out.
- **Byte handling and downloads:**
  - The PCM-to-WAV conversion, base64 encoding and the Together image download are parameters (`toWav`, `download`) that may return or throw.
  - Byte-level encoding is not modelled.
- **Number handling:**
  - JSON numbers are integers: floating point and `NaN` are not modelled.
  - Token counts and statuses are unbounded.
- Json.StringOrDefault: a truthy value that is not a string (a number, an object) at a text path is read as absent. The original code would return it as the text. This is weaker than the code for malformed replies only.
- Json.TruthyString: a truthy value that is not a string at an image, audio or URL path is read as absent, giving the "no data" failure. The original code would pass it on.
- Json.NumberOrZero: a truthy value that is not a number at a usage path reads as 0. The original code would copy it into the usage.
- Json.Stringify: JSON.stringify of an error body is modelled as compact output with object members in parse order. JavaScript writes integer-like keys (such as `"0"`) first, in ascending order, and then the others in insertion order; the model does not reorder them, so the echoed body can differ for such keys. Only the outer shape of the output is stated, and duplicate keys in a parsed body are kept rather than merged.
- **Cache and probe timing:**
  - Concurrent calls to `getAIProvider` that race on the cache are not modelled.
  - The search runs on one cache value at a time, and each probe is a fixed function of the adapter. A probe whose answer changes over time is not modelled.
- **Registry names:**
  - A name that is an inherited property of a plain JavaScript object (such as `constructor`) would find a non-descriptor in the registry.
  - The model's registry is a map with no inherited names.
- **Legacy key timing:** the legacy actions read their key when the module loads. The model passes that environment to each call.
- **Trivial getters:** `getName`, `getType` and `getTextModels` are the descriptor's fields, `ProviderInterface.GetName`, `GetType` and `GetTextModels`. They carry no property of their own.
