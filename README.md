# Post-reply image inserter: a Dafny model

This project models the core of the SillyTavern extension "Post-Reply Image
Inserter" (`index.js`). After each AI reply, the extension:

1. reads its settings record, backfilling missing keys from frozen defaults;
2. checks whether it should run at all;
3. asks a language-model service where images belong in the reply;
4. keeps the suggestions whose score reaches the threshold;
5. builds an image prompt for each kept suggestion;
6. obtains an image from an image server (ComfyUI), through an image cache and a workflow graph it builds and fills in;
7. splices one `<img>` tag per image into a working copy of the reply text;
8. writes the working copy back into the message only when the whole pass succeeds, retrying up to `retryCount` more times.

The modules follow those components:

- `Values` holds JSON-like values, and `Option`/`Outcome` for `undefined` and thrown errors.
- `Settings` holds the frozen defaults, `getSettings` as a method on the host's settings store (a class with a map field), and the typed view `Config` of a complete record.
- `Compositor` is `insertImage`. It defines the split on `[.!?]\s+` with captured separators, the `splice` at piece `index * 2` with JavaScript's start clamping, and the join.
- `Workflow` is the built-in seven-node template, the img2img rewiring and `injectPromptToWorkflow`. Each is a function on graphs, plus a `WorkflowGraph` class whose methods update the graph in place statement by statement.
- `Analyzer` is `analyzeReply`: the template substitution, the request shape for each provider, and reading the answer out of the response envelope. The service and `JSON.parse` are oracles.
- `Generator` is `generateImage`: the cache key and lookup, `loadWorkflow`, injection, submission and the view URL. The image server is an oracle and `localStorage` is a map in an `ImageCache` object.
- `Orchestrator` is `handlePostReply`. It is a method with the source's `while (retries >= 0)` loop and its inner `for` loop, proved equal to the specification function `HandleSpec`. `HandleSpec` is built from `RunAttempts` (the retry loop) and `RunPlan` (one pass over the accepted suggestions), and the lemmas are stated about those functions.

Behaviours the model keeps exactly as the code has them:

- `modifiedMes` is initialised once, before the retry loop. Images inserted by a pass that later fails are therefore still in the working text of the next pass, and they end up in the text that is written (`FailedPassInsertionsAreKept`).
- The analyzer is always called on the original `reply.mes`.
- The claude provider's answer is read from the chat-completions envelope (`choices[0].message.content`), like openai's. A messages-style envelope is rejected.
- In the img2img graph, `noise_seed` is copied from the template's seed (-1) before injection. The configured seed reaches only `seed`.
- The cache key `img_<prompt>_<style>` is ambiguous across styles (`CacheKeyCollision`).
- `insertImage` places the tag at piece `index * 2`, i.e. immediately *before* sentence `index` (after the separator that ends sentence `index - 1`).

## Model

| member | source | states |
|---|---|---|
| Settings.Backfill | index.js:45-47 | the record afterwards has exactly the old keys plus the default keys; every key already present keeps its value; every missing default key gets the default value |
| Settings.BackfillIdempotent | index.js:45-47 | backfilling a backfilled record changes nothing |
| Settings.BackfillOfCompleteRecord | index.js:45-47 | a record that already holds every default key is returned unchanged |
| Settings.SettledRecordIdempotent | index.js:42-49 | running `getSettings` a second time leaves the module record as the first run left it, whether or not the record existed before |
| Settings.SettledRecord | index.js:42-49 | the module record after `getSettings`: the defaults when absent, else the backfilled record; `SettledRecordIdempotent` states its fixed point |
| Settings.HostSettings.constructor | index.js:17-39 | the store is the host's initial store; the defaults are the frozen default record and its key order |
| Settings.HostSettings.GetSettings | index.js:42-49 | only the module's entry of the store changes. It becomes a clone of the defaults if absent, else the backfilled record. The returned record is the stored one. Shown by a `for` loop over the default keys with its invariants |
| Settings.DefaultConfigMatchesDefaults | index.js:19-39 | the typed defaults are the frozen default record, and backfilling the record of any typed view leaves it unchanged |
| Compositor.FindSeparator | index.js:329 | a position it finds is one where `[.!?]\s` starts, at or after the starting point |
| Compositor.FindSeparatorLeftmost | index.js:329 | the position found is the leftmost match, and when none is found the pattern matches nowhere after the starting point |
| Compositor.SpaceRunEnd | index.js:329 | the end of the `\s+` run lies between its start and the end of the text |
| Compositor.SpaceRunMaximal | index.js:329 | the run is all white space and ends at the first non-space character or at the end of the text, as the greedy `\s+` does |
| Compositor.Split | index.js:329 | `split(/([.!?]\s+)/)` yields an odd number of pieces |
| Compositor.SplitPieces | index.js:329 | separators (a terminator and a maximal white-space run) sit at odd positions. Sentence pieces, in which the pattern never matches and which never start with white space after the first, sit at even positions |
| Compositor.Join | index.js:331 | `join('')`: concatenation of the pieces in order; its facts are `JoinSplit` and the splice lemmas |
| Compositor.JoinSplit | index.js:329-331 | joining the split pieces gives back the original text |
| Compositor.SentenceCount | index.js:329 | a text of n sentence pieces splits into 2n-1 pieces |
| Compositor.ImageTag | index.js:330 | the `<img>` markup with the URL as `src`, the full prompt as `alt` and the fixed inline style; `RemovingTagRecoversMessage` locates it in the result |
| Compositor.SpliceStart | index.js:330 | `splice` start clamping: an in-range start is kept, a start past the end becomes the end, a negative start counts from the end and is clamped at 0 |
| Compositor.InsertionPoint | index.js:329-331 | the character offset of the tag is within the text and equals the length of the pieces spliced in front of it |
| Compositor.InsertImage | index.js:328-332 | the result is the message with the `<img>` tag inserted at the insertion point and nothing else changed |
| Compositor.RemovingTagRecoversMessage | index.js:328-332 | the tag occurs at the insertion point, and cutting it out recovers the original message exactly |
| Compositor.InsertAtZeroPrepends | index.js:330 | index 0 puts the tag in front of the whole message |
| Compositor.InsertPastEndAppends | index.js:330 | an index at or past the sentence count appends the tag at the end |
| Compositor.TagGoesBeforeSentence | index.js:329-330 | for an in-range index the text right after the tag is sentence `index`, and the text right before it is the separator ending sentence `index - 1` |
| Compositor.NegativeIndexSplitsTerminator | index.js:330 | a negative index within range counts from the end and puts the tag right before a terminator, inside a sentence-and-separator pair |
| Workflow.BaseGraph | index.js:275-283 | the template has exactly nodes 3-9, with the listed KSampler as node 6 |
| Workflow.SetInput | index.js:290-294 | the assignment `graph[id].inputs[key] = v` as a value; `SetInputLookup` states its effect |
| Workflow.SetInputLookup | index.js:291-297 | one input assignment changes only that input of that node |
| Workflow.InjectionTouchesOnlySlots | index.js:301-310 | injection succeeds exactly when nodes 3, 6 and 5 exist. It writes the prompt, steps, seed, sampler, width and height into their six slots. Every node keeps its operation, no node is added or removed, and every other input keeps its value and presence |
| Workflow.InjectionIdempotent | index.js:301-310 | injecting the same prompt and parameters twice is the same as once |
| Workflow.InjectedInput | index.js:301-310 | after injection an input holds its slot value if it is a slot, and its old value otherwise |
| Workflow.Img2Img | index.js:288-294 | the img2img rewiring of a graph, in the source's statement order; `Img2ImgFacts` states its effect |
| Workflow.BaseImage | index.js:286 | the custom image, else the avatar when role images are on, else none; `BaseImageChoice` states the priority |
| Workflow.BuiltInWorkflow | index.js:274-297 | the built-in branch of `loadWorkflow`; `OtherTemplatesGiveBaseGraph` and `Img2ImgShape` state what it returns |
| Workflow.Injected | index.js:301-310 | `injectPromptToWorkflow` as a value, failing where a slot node is missing; `InjectionTouchesOnlySlots` states its effect |
| Workflow.TemplateImg2Img | index.js:284-295 | on a graph shaped like the template, the rewiring yields nodes 3-11, `noise_seed` -1 (the template's seed), and keeps every template node but the sampler |
| Workflow.OtherTemplatesGiveBaseGraph | index.js:284-298 | every template other than img2img yields the seven-node base graph unchanged |
| Workflow.Img2ImgFacts | index.js:289-296 | the rewiring adds nodes 10 and 11. It retargets node 6 to KSamplerAdvanced with latent from 11, `noise_seed` copied from `seed`, the strength as denoise, and `add_noise`. Every other node is unchanged |
| Workflow.Img2ImgShape | index.js:284-297 | img2img fails exactly when there is no base image. Otherwise the graph is the template plus nodes 10 and 11, node 10 loads the chosen image, and node 6 is wired as above |
| Workflow.BaseImageChoice | index.js:286 | the custom image wins; the avatar is used only when role images are on; otherwise there is no image |
| Workflow.SeedsAfterInjection | index.js:302-307 | injection overwrites `seed` with the configured seed and keeps `noise_seed` |
| Workflow.Img2ImgNoiseSeedIsTemplateSeed | index.js:291-304 | in the injected img2img graph `noise_seed` is -1 whatever seed is configured, while `seed` is the configured one |
| Workflow.WorkflowGraph.Template | index.js:275-283 | a new graph object holds the template |
| Workflow.WorkflowGraph.Loaded | index.js:269-273 | a new graph object holds the loaded file's graph |
| Workflow.WorkflowGraph.SetNodeInput | index.js:291-297 | the in-place assignment `workflow[id].inputs[key] = v` |
| Workflow.WorkflowGraph.AttachBaseImage | index.js:289-296 | the in-place rewiring yields exactly the img2img graph of the old graph |
| Workflow.WorkflowGraph.Inject | index.js:301-310 | the in-place injection succeeds exactly when the functional one does, and then yields its graph |
| Workflow.LoadBuiltIn | index.js:274-298 | the built-in branch returns a fresh graph object holding the built-in workflow, or its error |
| Analyzer.IndexOf | index.js:214 | the first occurrence at or after a position, or none |
| Analyzer.ReplaceFirst | index.js:214 | `String.prototype.replace` with a string pattern; `ReplaceFirstPlacesReply` states its effect |
| Analyzer.ReplaceFirstPlacesReply | index.js:214 | without `{{reply}}` the template is sent unchanged; otherwise the reply replaces the first placeholder only |
| Analyzer.RequestSelection | index.js:215-232 | openai gets `<base>/chat/completions` with a Bearer Authorization header. claude gets `<base>/messages` with `x-api-key` and `anthropic-version: 2023-06-01`. gemini gets `<base>/models/<model>:generateContent?key=<key>` with only Content-Type. Any other provider throws `Unsupported AI provider`. Every request carries the prompt |
| Analyzer.BuildRequest | index.js:215-232 | the provider dispatch of `analyzeReply`; `RequestSelection` states each provider's request |
| Analyzer.ExtractContent | index.js:239-244 | the answer text read from the response envelope, failing where a member is missing or not a string; `EnvelopeReading` states it on each envelope |
| Analyzer.AnalyzeReply | index.js:212-246 | `analyzeReply` on a numbered attempt; `UnsupportedProviderAlwaysFails` and `AnalysisComesFromService` state its outcomes |
| Analyzer.EnvelopeReading | index.js:239-244 | openai and gemini answers are read from their own envelopes; claude reads the chat-completions envelope and rejects a messages-style one |
| Analyzer.UnsupportedProviderAlwaysFails | index.js:230-232 | an unsupported provider fails every attempt with the same error, whatever the service would answer |
| Analyzer.AnalysisComesFromService | index.js:212-246 | a successful analysis is the parse of the service's answer to the request built from the substituted template |
| Generator.CacheKey | index.js:251 | the key is `img_`, then the prompt, `_`, then the style |
| Generator.CacheKeySeparatesPrompts | index.js:251 | for a fixed style the key determines the prompt |
| Generator.CacheKeyCollision | index.js:251 | two different prompt/style pairs can share one key |
| Generator.ViewUrl | index.js:320 | the image address starts with the server URL and carries the file name at a fixed place |
| Generator.ViewUrlInjective | index.js:320 | different output files get different addresses |
| Generator.CacheHit | index.js:252 | the cache is used only when caching is on and `getItem` is truthy, that is present and non-empty |
| Generator.LoadSpec | index.js:267-298 | `loadWorkflow`: the fetched file when a path is set, the built-in workflow otherwise |
| Generator.GenerateSpec | index.js:249-264 | `generateImage` as a value; the lemmas below state its effects |
| Generator.CacheHitMakesNoCall | index.js:252 | a cache hit returns the stored URL without consulting the server and with no change |
| Generator.GenerateEffects | index.js:249-264 | a miss takes exactly one oracle step, whether or not it reaches the server. The cache changes only at the request's own key, only on success with caching on. A fresh URL is the non-empty view URL of the server's output for the injected graph |
| Generator.RepeatIsCached | index.js:252-262 | with caching on, repeating a successful request returns the same URL from the cache with no oracle step |
| Generator.CacheDisabled | index.js:252-262 | with caching off every request is a miss, taking one oracle step, and the cache is never touched |
| Generator.JobGraphSlots | index.js:254-255 | the submitted graph carries the prompt and the configured steps, seed, sampler and size. Loading and injection fail only where the source throws |
| Generator.ImageCache.constructor | index.js:252 | the cache starts with the given entries |
| Generator.ImageCache.Store | index.js:262 | `setItem` sets one key |
| Generator.LoadWorkflow | index.js:267-298 | the user's file when a path is set, the built-in template otherwise, as a fresh graph object |
| Generator.GenerateImage | index.js:249-264 | the method (cache lookup, load, in-place injection, submission, cache write) yields exactly the URL, cache and miss count of the specification `GenerateSpec` |
| Orchestrator.EffectiveScore | index.js:189 | the score, with a missing or zero score read as 1 as JavaScript's logical or does; `AcceptedExtremes` states those cases |
| Orchestrator.Accepted | index.js:189 | a suggestion is kept if and only if it is in the list and its effective score reaches `minScore` |
| Orchestrator.AcceptedConcat | index.js:189 | the filter keeps the analyzer's order |
| Orchestrator.AcceptedExtremes | index.js:189 | all-passing lists are kept whole, all-failing ones dropped, and a suggestion with a missing or zero score (`score || 1`) passes exactly when `minScore <= 1` |
| Orchestrator.FullPrompt | index.js:190 | the full prompt of a suggestion; `FullPromptShape` states its layout |
| Orchestrator.FullPromptShape | index.js:190 | the full prompt is the suggestion's prompt, then `, <style>` exactly when the style is non-empty, then `, <defaultStyles>` |
| Orchestrator.Prompts | index.js:189-190 | the full prompts of a plan, one per suggestion, in order |
| Orchestrator.Advance | index.js:190-192 | one suggestion: its full prompt is sent to the generator, and the cache and miss count become the generator's. On success the working text becomes `insertImage` of the old text at the suggestion's index with the generated URL and the full prompt as alt text; on failure it is unchanged |
| Orchestrator.RunPlan | index.js:189-193 | the inner `for` loop: `Advance` on each accepted suggestion in order until the first failure |
| Orchestrator.PlanConcat | index.js:189-193 | a pass over two consecutive parts of a plan is the pass over the first followed, when it succeeds, by the pass over the second from the state the first left |
| Orchestrator.TwoSuggestionPass | index.js:189-193 | a pass over two suggestions succeeds exactly when both generations do, and then writes `insertImage(insertImage(mes, a.index, url_a, prompt_a), b.index, url_b, prompt_b)`, the second generation seeing the first one's cache |
| Orchestrator.PlanRequestCount | index.js:189-193 | a pass asks the generator once per suggestion when it succeeds, and stops right after the first failure |
| Orchestrator.PlanRequests | index.js:189-193 | the generator is asked for the plan's full prompts in order, a prefix of them when the pass fails |
| Orchestrator.PlanWithoutCache | index.js:191 | with a generator that never writes the cache, a pass leaves the cache unchanged and takes one oracle step per prompt |
| Orchestrator.GenerationWithoutCache | index.js:252-262 | `generateImage` with caching off is such a generator |
| Orchestrator.RunAttempts | index.js:184-208 | the `while (retries >= 0)` loop: analyze, run the plan on the carried-over text, then write and stop or count down |
| Orchestrator.AttemptsBound | index.js:184-208 | the loop calls the analyzer at most `retries + 1` times. It writes nothing only after every attempt is used, and a write ends the loop after an attempt whose analysis succeeded |
| Orchestrator.AttemptsWithoutCache | index.js:184-208 | with a cache-free generator the whole loop leaves the cache unchanged |
| Orchestrator.AnalyzerDown | index.js:184-208 | if every analysis fails, every allowed attempt is made, nothing is written and the generator is never asked |
| Orchestrator.CarryOver | index.js:181-207 | a failed pass hands its working text, insertions included, to the next attempt, which analyzes the same reply again |
| Orchestrator.PartialPass | index.js:189-193 | when the first image is made and the second fails, the working text keeps the first image |
| Orchestrator.NothingAccepted | index.js:189-198 | a successful analysis that accepts nothing writes back the working text unchanged |
| Orchestrator.Widen | index.js:189 | a prompt accepted before one bound is accepted before any later one |
| Orchestrator.RequestsComeFromAccepted | index.js:184-208 | every prompt sent to the generator is the full prompt of a suggestion that an earlier analyzer call returned with a passing score |
| Orchestrator.Triggered | index.js:178 | the guard: enabled, auto-triggered, called with arguments, and not on the user's own message |
| Orchestrator.HandleSpec | index.js:176-209 | `handlePostReply` as a value: the guard, then the retry loop on the reply text; the lemmas below state its effects |
| Orchestrator.GuardBlocks | index.js:178 | when disabled, not auto-triggered, called without arguments or on the user's own message, the handler does nothing at all |
| Orchestrator.HandleAttempts | index.js:176-209 | once triggered, the analyzer is called at most `retryCount + 1` times. Nothing is written only when all were used. A write follows a successful analysis |
| Orchestrator.ServiceDownLeavesReply | index.js:184-208 | if the language-model service fails every request, the reply is never written, the generator is never asked, and exactly `retryCount + 1` attempts are made |
| Orchestrator.HandleWithoutCache | index.js:176-209 | with caching off the handler leaves the image cache as it found it |
| Orchestrator.HandleRequestsAccepted | index.js:187-191 | only full prompts of accepted suggestions reach the generator |
| Orchestrator.NothingAcceptedFirst | index.js:187-198 | a first analysis that accepts nothing writes the reply back unchanged after one attempt |
| Orchestrator.FirstPassSucceeds | index.js:184-198 | a successful first pass is the only attempt. It asks for every accepted suggestion's full prompt in order and writes the text with all their images |
| Orchestrator.FailedPassInsertionsAreKept | index.js:181-195 | an image inserted by a failed pass survives into the text written by a later successful pass |
| Orchestrator.Message.constructor | index.js:180 | a message object holding the reply text |
| Orchestrator.HandlePostReply | index.js:176-209 | the method (guard, retry loop, inner loop over accepted suggestions, one write of `reply.mes` at the end of a successful pass) yields exactly the cache, miss count, prompts, analyzer calls and written text of `HandleSpec`. The message text is unchanged when nothing is written |

## Left out

- The settings panel, its jQuery bindings and UI sync (index.js:52-157) are DOM code.
- The connection test (index.js:160-173) is left out for the same reason: it only makes network calls and shows notifications.
- `fetch`, `ProxyAgent` and HTTP status handling (index.js:216, 234-236, 257-259, 269-272) are oracles. `AiService.post` fails or answers each numbered request, and `ComfyService` fetches the workflow file and runs a graph to an output file name. The error text `AI API error: <status> - <body>` is not reproduced, because only the fact of failure matters to the retry loop.
- `pollForImage` timing with `Date.now` and `setTimeout` (index.js:313-325) is wall-clock waiting and is inside the `ComfyService.run` oracle. Only the URL built at line 320 is modelled (`ViewUrl`), and reading `outputs["9"].images[0]` is likewise inside the oracle.
- `JSON.parse` of the model's answer and `res.json()` of server replies (index.js:236, 245, 259, 272) are foreign parsers. `AiService.parse` yields the `positions` list or fails, and the fetched workflow arrives already parsed as a graph. A positions list whose entries are not objects of the expected shape is not modelled.
- `localStorage` persistence is a map in `ImageCache`. `toastr` notifications, `eventSource.emit(CHAT_CHANGED)`, the slash command, the macro and the event hook (index.js:186, 196-197, 201, 204, 342-358) are host services with no effect on the modelled state.
- `manualInsertImage` (index.js:334-340) calls the handler with `{ message }`. When the chat has a last message, that call is `HandlePostReply` with arguments whose `isUser` is false; the guard still requires `autoTrigger`.
- On an empty chat, `context.chat[context.chat.length - 1]` (index.js:100, 347) is `undefined`, the guard lets `{ message: undefined }` through, and reading `reply.mes` at index.js:181 throws outside the `try`, before any analyzer call; `manualInsertImage` catches it (index.js:338). `Args` always holds a message, so this path is not modelled. Its effect on the modelled state is the no-op of `GuardBlocks`: nothing is written and no service is called.
- Orchestrator.HandlePostReply: it takes the typed `Config` that `getSettings` returns rather than calling `getSettings` itself. The store update made by that call is `Settings.HostSettings.GetSettings`, and values of the wrong dynamic type in a user-edited record are not modelled.
- Orchestrator.HandlePostReply: the analyzer, the generator and `insertImage` reach `RunPlan`/`RunAttempts` as function parameters, which `HandleSpec` instantiates with `AnalyzeReply`, `GenerateSpec` and `InsertImage`. This keeps the loop lemmas generic; the method calls the concrete members.
- Scores, `minScore` and `imgStrength` are reals: floating point and `parseFloat` are not modelled, and neither is a non-numeric or NaN score. The strength is passed through unchanged.
- Suggestion indices are integers. A non-integer or non-numeric `index` (which `splice` would truncate or treat as 0) is not modelled. A missing `style` is the empty string, which is how both `sug.style ?` and the `style = ''` default treat it.
- `String.prototype.replace` `$`-patterns in the reply text (index.js:214) are not modelled: the first `{{reply}}` is replaced by the reply text literally.
- `Object.freeze` at index.js:19 is shallow: the nested `genParams` object of the defaults is not frozen. A record backfilled at index.js:46 shares that object with the defaults, and the settings panel writes into it (index.js:125-126), which changes the defaults themselves; `structuredClone` at index.js:43 gives an unshared copy. Records are values here, so this sharing and mutation of `genParams` is not modelled, and "frozen defaults" in this model means the top-level record only.
- The generator's miss counter `calls` numbers oracle steps, not HTTP exchanges. A miss that fails before reaching the server (no base image, index.js:287, or a loaded graph without node 3, 5 or 6, index.js:302-307) still takes a step, and a miss with `workflowPath` set makes a workflow fetch, a submission and repeated history polls (index.js:270, 257, 317) within its single step.
- Compositor.InsertImage: the split, splice and join of a local array are modelled as functions on sequences. No array outside the call is changed.
