# Hins Prompt Optimizer — a verified model of its prompt-generation layer

Hins Prompt Optimizer is a small web app. It turns a user's rough idea into a
prompt for one of three image models: Nano Banana, Jimeng (SeaDream 4.0) or
Midjourney v6. It can also translate an optimised prompt. This project models
the app's core in Dafny:

- **The two service modules** (`src/services/openai.js`, `src/services/gemini.js`):
  - the input checks, in order;
  - the choice of system-instruction template by target model, with the
    aspect-ratio line spliced in for Nano and Jimeng;
  - endpoint normalisation for OpenAI-compatible servers;
  - the request that is sent;
  - the handling of a rejected HTTP status;
  - the Gemini retry loop for an overloaded model;
  - the Midjourney parameter suffix;
  - both translation calls.
- **The React components' logic**:
  - the optimise handler's state machine and the page's initial state (`src/App.jsx`);
  - reading a stored result in either of its two shapes, and the copy and
    translate flags (`src/components/ResultDisplay.jsx`);
  - the history list (`src/components/HistorySidebar.jsx`);
  - the blank-input guard (`src/components/PromptBuilder.jsx`);
  - the single-key parameter update and the value domains
    (`src/components/MidjourneyControls.jsx`);
  - the shared constants (`src/constants.js`).

The network and the Google SDK become parameters:

- an OpenAI-compatible call takes the `HttpReply` the server gives;
- a Gemini call takes `backend: nat -> SdkReply`, the SDK's reply to each
  successive attempt.

A thrown JavaScript error is modelled by its message, as `Failure(message)`. A
returned value is `Success(value)`.

Templates are sequences of lines. `Layout.Render` lays them out the way each
service's template literal does:

- **OpenAI:** the lines joined by line breaks.
- **Gemini:** an opening line break, each line indented by six spaces, and a
  closing line of four spaces.

The two services share every template line except the first line of Nano.

Modules and files:

| file | module | models |
|---|---|---|
| `wrappers.dfy` | `Wrappers` | `Option`, `Result` |
| `text.dfy` | `Text` | JavaScript truthiness, `trim`, `endsWith`, `includes`, `join`, decimal rendering |
| `constants.dfy` | `Constants` | `src/constants.js` |
| `layout.dfy` | `Layout` | how each service lays out a template literal |
| `instructions.dfy` | `Instructions` | the system instructions and the user message |
| `midjourney_controls.dfy` | `MidjourneyControls` | `src/components/MidjourneyControls.jsx` |
| `parameter_suffix.dfy` | `ParameterSuffix` | the trim and Midjourney post-processing of both services |
| `openai_service.dfy` | `OpenAIService` | `src/services/openai.js` |
| `gemini_service.dfy` | `GeminiService` | `src/services/gemini.js` |
| `app.dfy` | `App` | `src/App.jsx` |
| `result_display.dfy` | `ResultDisplay` | `src/components/ResultDisplay.jsx` |
| `history_sidebar.dfy` | `HistorySidebar` | `src/components/HistorySidebar.jsx` |
| `prompt_builder.dfy` | `PromptBuilder` | `src/components/PromptBuilder.jsx` |

## Model

Some members are plain definitions with no row of their own, used to state
the contracts in the table: a source expression written out or a
specification predicate. Among them:

- in `Text`: `Truthy` (JavaScript truthiness of an optional string),
  `IsBlank`, `StartsWith`, `EndsWith`, `Contains` and `Join`;
- `Layout.Render`;
- in `Instructions`: `AspectLine`, `AspectLines` and `InstructionLines` (the
  `arInstruction` line and the template lines around it);
- in `ParameterSuffix`: `Flag` and `TokenOf`;
- in `MidjourneyControls`: `InDomain` and `Valid`;
- `OpenAIService.Ok` (`response.ok`);
- in `GeminiService`: `Overloaded`, `Settle`, `SettlesAt`,
  `GenerationSettled` and `GenerateConfig`;
- `ResultDisplay.TwoColumns` and `ResultDisplay.ShowsTranslateButton`;
- `App.App.Valid`.

`Text.Contains` and `GeminiService.Overloaded` are tied to an occurrence of
the searched text by the lemmas `Text.ContainsIffOccurs` and
`GeminiService.OverloadedIffMentions503`. The other members without a row are
steps of the proofs.

| member | source | states |
|---|---|---|
| Text.Trim | src/services/openai.js:95 | `trim` returns a slice of its input. Everything cut off either end is ECMAScript whitespace or a line terminator, and a non-empty result neither starts nor ends with one |
| Text.TrimIdempotent | src/services/gemini.js:91 | trimming a trimmed reply changes nothing |
| Text.BlankIffAllWhitespace | src/components/PromptBuilder.jsx:8 | `input.trim()` is empty exactly when every character of the input is whitespace |
| Text.ContainsIffOccurs | src/services/gemini.js:81 | `includes` holds exactly when the needle occurs at some position |
| Text.JoinSnoc | src/services/openai.js:99-105 | after a `push`, `join` gives the old join, a separator and the new element (just the element when the list was empty) |
| Text.JoinAppend | src/services/gemini.js:101 | joining two non-empty lists puts exactly one separator between their joins |
| Text.JoinContainsElement | src/services/gemini.js:101 | every element of a joined list occurs in the joined string |
| Text.NatToString | src/services/openai.js:91 | `${response.status}` is a non-empty string of decimal digits with no leading zero |
| Text.ParseNatToString | src/services/openai.js:91 | reading the status text back gives the status |
| Constants.ModelTypeOf | src/services/openai.js:21-55 | the identifier chain picks the type whose identifier is the string. It falls to `Other` exactly when the string is none of the three identifiers |
| Constants.ModelTypeRoundTrip | src/constants.js:1-3 | classifying the identifier of a canonical model type gives that type back |
| Constants.ModelIdsDistinct | src/constants.js:1-3 | the three model identifiers are pairwise distinct |
| Constants.AspectRatioIds | src/constants.js:11-18 | the list of ids has one entry per `ASPECT_RATIOS` entry, in order |
| Constants.AspectRatiosWellFormed | src/constants.js:11-18 | `ASPECT_RATIOS` has six entries with pairwise-distinct ids, and every label starts with its own id |
| Layout.Indented | src/services/gemini.js:14-27 | a Gemini template line is the source line after six spaces of indentation, one output line per input line |
| Layout.LaidSplice | src/services/gemini.js:13-24 | laying out a template with one line spliced in places that line, indented, between the laid-out head and close |
| Layout.RenderSplice | src/services/openai.js:22-32 | rendering with a spliced line inserts exactly one line break, the indentation and the line at the splice point of the line-free rendering |
| Layout.RenderContainsLine | src/services/openai.js:37-54 | every line of a template occurs in its rendering, for both layouts |
| Instructions.SystemInstruction | src/services/openai.js:19-66 | the system instruction is empty exactly when the model type is none of the three known ones |
| Instructions.AspectRatioLine | src/services/openai.js:21-36 | for Nano and Jimeng, a truthy `ar` adds one line break, the indentation and the aspect-ratio line at one fixed place. A falsy `ar` gives the ratio-free instruction |
| Instructions.AspectRatioChangesInstructionIffTruthy | src/services/gemini.js:12-46 | the Nano or Jimeng instruction differs from the ratio-free one exactly when `ar` is truthy |
| Instructions.AspectRatioEmbedded | src/services/openai.js:22-36 | when `ar` is truthy, its value occurs in the Nano and Jimeng instructions |
| Instructions.MidjourneyIgnoresAspectRatio | src/services/openai.js:55-65 | the Midjourney instruction is the same for every `ar` |
| Instructions.JimengStatesLengthCeiling | src/services/openai.js:42 | the Jimeng instruction always contains the under-800-characters rule, whatever the aspect ratio |
| Instructions.ProvidersShareTemplates | src/services/gemini.js:10-63 | both services hold the same template lines for every model type, except Nano's first line |
| Instructions.UserMessage | src/services/openai.js:77 | the user turn starts with `Optimize this prompt for {modelType}: "`. The prompt follows verbatim, then one closing quote, with a matching total length |
| Instructions.TranslatorInstruction | src/services/openai.js:134 | the translator instruction is the fixed translator sentence with the target language at its one variable position: it starts with the sentence's lead, ends with its tail, and holds the language between them |
| Instructions.TargetLanguage | src/services/openai.js:116 | without a target language the translator asks for `Chinese (Simplified)`. A given language is used as it is |
| MidjourneyControls.HandleChange | src/components/MidjourneyControls.jsx:4-6 | after the update, the edited key holds the new value and every other key holds its old value |
| MidjourneyControls.ParamsOrDefault | src/services/openai.js:3 | a left-out `midjourneyParams` is `{}`, with no key set. A given record is used as it is |
| MidjourneyControls.ParamsExtensional | src/components/MidjourneyControls.jsx:5 | a parameter record is determined by its four keys |
| MidjourneyControls.HandleChangeSameValue | src/components/MidjourneyControls.jsx:5 | setting a key to the value it already holds gives back an equal record |
| MidjourneyControls.SliderValueInDomain | src/components/MidjourneyControls.jsx:39-54 | every slider position from 0 to its maximum yields a canonical decimal string whose value is at most the maximum |
| MidjourneyControls.HandleChangePreservesValid | src/components/MidjourneyControls.jsx:4-6 | editing a valid record with a value its control offers keeps every key set and in its domain |
| MidjourneyControls.AspectRatioOptionsMatchConstants | src/components/MidjourneyControls.jsx:16-21 | the aspect-ratio select offers exactly the six `ASPECT_RATIOS` ids, in order, all distinct |
| MidjourneyControls.OptionsDistinctAndTruthy | src/components/MidjourneyControls.jsx:28-31 | the version select offers four distinct values, and every value a control can produce is truthy |
| ParameterSuffix.AppendParameters | src/services/openai.js:99-105 | the four guarded pushes and the join give the reply, one space, and the tokens of the truthy fields in the order ar, v, stylize, chaos, joined by single spaces |
| ParameterSuffix.Tokens | src/services/openai.js:99-103 | there are at most four tokens, and none exactly when no field is truthy |
| ParameterSuffix.FlagsDistinguishable | src/services/gemini.js:96-99 | a token starts with the flag of exactly one key |
| ParameterSuffix.ReadTokenOf | src/services/gemini.js:96-99 | reading one key's token back sets exactly that key to the value written, and a falsy key writes nothing |
| ParameterSuffix.TruthyPart | src/services/openai.js:100-103 | the truthy part of a record keeps each truthy value and drops every falsy one |
| ParameterSuffix.TokensRoundTrip | src/services/openai.js:99-105 | reading the tokens back recovers exactly the truthy fields. No value is lost, duplicated or attached to the wrong flag |
| ParameterSuffix.TokensSoundAndComplete | src/services/gemini.js:96-99 | a token with a key's flag exists exactly when that key is truthy, and then `--flag value` is among the tokens |
| ParameterSuffix.TokensOrdered | src/services/openai.js:100-103 | of any two tokens, the earlier one belongs to a key earlier in the order ar, v, stylize, chaos, so no flag appears twice |
| ParameterSuffix.KeyOfTokenFacts | src/services/openai.js:100-103 | each token is the flag and value of a truthy key, and later tokens belong to later keys |
| ParameterSuffix.NoParametersLeavesTrailingSpace | src/services/openai.js:105 | with no truthy field, the reply still gains exactly one trailing space |
| ParameterSuffix.FinishReply | src/services/gemini.js:91-104 | it trims the reply, and for the Midjourney target appends the parameter suffix |
| ParameterSuffix.Finished | src/services/openai.js:95-105 | the finished text always starts with the trimmed reply |
| ParameterSuffix.FinishedShape | src/services/openai.js:95-108 | for targets other than Midjourney the output is exactly the trimmed reply, with no whitespace at either end. For Midjourney, one space and the joined tokens follow the trimmed reply |
| OpenAIService.StripSlash | src/services/openai.js:14 | removes one trailing slash when there is one, and otherwise changes nothing |
| OpenAIService.Endpoint | src/services/openai.js:13-17 | the endpoint always ends in `/chat/completions` and starts with the base URL less one trailing slash |
| OpenAIService.NormalizeEndpoint | src/services/openai.js:13-17 | the three-step reassignment of `endpoint` computes the normalised endpoint |
| OpenAIService.EndpointShape | src/services/openai.js:13-17 | the endpoint equals the slash-stripped base exactly when that base already ends in `/chat/completions`, and otherwise it is that base with the path added once |
| OpenAIService.EndpointAcceptsBothSpellings | src/services/openai.js:13-17 | a base with or without a trailing slash, and with or without the path, gives the same endpoint |
| OpenAIService.EndpointIdempotent | src/services/openai.js:13-17 | normalising twice is the same as normalising once |
| OpenAIService.StatusError | src/services/openai.js:89-92 | the rejection message is `{kind} (`, the status digits, `): `, then the body text, with a matching total length |
| OpenAIService.StatusRecoverable | src/services/openai.js:91 | the status can be parsed back out of the rejection message at a fixed position |
| OpenAIService.GenerateRequest | src/services/openai.js:68-80 | the request names the caller's model and has `stream:false`. It has exactly two messages, system then user |
| OpenAIService.GenerateOutcome | src/services/openai.js:89-108 | a thrown error is rethrown with its message, and the call succeeds exactly on a 2xx status |
| OpenAIService.GeneratePromptOpenAI | src/services/openai.js:3-113 | an empty key, then base URL, then model name each fails with its own message before any request. Otherwise the request is sent and the outcome follows from the reply: a thrown error, an `API Error` for a non-2xx status, or the finished reply text |
| OpenAIService.GenerateRequestShape | src/services/openai.js:68-80 | the request goes to a `/chat/completions` endpoint with `Bearer {apiKey}`. The user turn carries the prompt verbatim. The system content is empty exactly for an unknown model type |
| OpenAIService.GenerateOutcomeCases | src/services/openai.js:89-106 | a non-2xx status fails with an `API Error (` message, and a success starts with the trimmed reply |
| OpenAIService.TranslateRequest | src/services/openai.js:126-138 | the request names the caller's model and has `stream:false`. It has exactly two messages, the system instruction and then the text unchanged as the user turn |
| OpenAIService.TranslateOutcome | src/services/openai.js:147-153 | a thrown error is rethrown with its message, and the translation succeeds exactly on a 2xx status |
| OpenAIService.TranslateTextOpenAI | src/services/openai.js:116-158 | it checks only the key and then the base URL. An empty model name is sent as it is. The target language defaults only when it is left out. The outcome follows from the reply |
| OpenAIService.TranslateShape | src/services/openai.js:131-153 | the translator instruction names the target language. A success is the trimmed reply, with no whitespace at either end. A non-2xx status fails with a `Translation Error (` message |
| GeminiService.RetryGenerate | src/services/gemini.js:70-89 | the loop makes between one and three attempts. Every attempt before the last met an overloaded (`503`) error, and the last one did not, unless it was the third. The outcome is the last reply, after 2000 ms for each retry |
| GeminiService.GenerateOutcome | src/services/gemini.js:91-104 | the settling reply succeeds exactly when the SDK produced text, and then it starts with that text trimmed. A thrown error keeps its message |
| GeminiService.GeminiModel | src/services/gemini.js:5 | without a model argument the service uses the literal `'gemini-2.5-flash'`, the value of `GEMINI_MODELS.FLASH`. A given model, even an empty one, is used as it is, because a default argument applies only to `undefined` |
| GeminiService.GeneratePrompt | src/services/gemini.js:5-105 | an empty key fails before any model is built or called. Otherwise it builds the model handle with the target's Gemini-layout instruction, sends the user turn, and settles as the retry loop does, with the last reply post-processed |
| GeminiService.GenerateWithRetry | src/services/gemini.js:70-104 | the retry loop followed by trim and the Midjourney suffix. A thrown error skips the post-processing |
| GeminiService.SettledSuccess | src/services/gemini.js:79-104 | a generation that settles with a success was answered by its last attempt. Its text is that reply trimmed, followed by the parameter suffix for Midjourney and by nothing for any other target |
| GeminiService.OverloadedIffMentions503 | src/services/gemini.js:81 | `err.message.includes('503')` holds exactly when `503` occurs at some position of the error's message |
| GeminiService.StopAttempt | src/services/gemini.js:71-89 | the stopping attempt is the first one without an overloaded error, or the third |
| GeminiService.AttemptsDetermined | src/services/gemini.js:71-89 | the number of attempts the loop makes is determined by the replies alone |
| GeminiService.ThreeOverloadsFail | src/services/gemini.js:81-87 | when the loop settles after three overloaded errors in a row, it has made three attempts and waited 4000 ms in total, and the outcome is the third error |
| GeminiService.PermanentErrorNotRetried | src/services/gemini.js:85-87 | an error without `503` on the first attempt is thrown after that one attempt, with no wait |
| GeminiService.SuccessAfterOverloads | src/services/gemini.js:79-91 | a success after k overloaded errors (k at most 2) ends the loop at attempt k+1, after k waits of 2000 ms, with that text |
| GeminiService.TranslateText | src/services/gemini.js:107-121 | an empty key fails first and sends nothing. Otherwise it makes one call with no retry, using the translator instruction and the defaulted model and language. That call sends `text` as its only user part, and the reply is trimmed |
| App.OrElse | src/App.jsx:22-23 | the or-fallback of the two stored-setting initialisers: a truthy stored value is used, and a missing or empty one falls back |
| App.ErrorBanner | src/App.jsx:47 | the banner is `Error: `, the message (or `Failed to generate prompt` when the message is empty), then `. Please check your API Key.` |
| App.App.constructor | src/App.jsx:11-24 | the initial state: Nano, 16:9, parameters `{16:9, 6.0, 250, 0}`, no result, no error, not optimising, dialog closed, stored key (or empty) and stored model (or flash) |
| App.App.ServiceParams | src/App.jsx:41 | Midjourney receives the whole parameter record. Every other type receives only `{ ar: aspectRatio }` |
| App.App.BeginOptimize | src/App.jsx:27-34 | without a key, the settings dialog opens and nothing else changes. With a key, the page is optimising with error and result cleared |
| App.App.FinishOptimize | src/App.jsx:44-50 | entered with error and result cleared, a success stores the returned string and a failure stores the error banner. Either way optimising ends, and the banner and the result are never both shown |
| App.App.HandleOptimize | src/App.jsx:26-51 | without a key it opens settings with no call. With a key the call receives the key, the selected model, the model-dependent parameters, the stored Gemini model and the user prompt: its model handle and its user turn are the ones `generatePrompt` builds from them. It settles as the Gemini call does with the model-dependent parameters. Success leaves the result and an empty error, and failure the banner and an empty result. The banner and the result are never both set |
| App.App.SaveSettings | src/App.jsx:126-129 | the key and the model are replaced, and nothing else changes |
| App.App.SetSettingsOpen | src/App.jsx:125 | the dialog flag is set, and nothing else changes |
| App.App.SetSelection | src/App.jsx:80-91 | the selectors set the model, ratio and parameters, and nothing else changes |
| App.InitialParamsValid | src/App.jsx:13-18 | every initial Midjourney parameter is a value its control can produce |
| App.InitialSuffix | src/App.jsx:13-18 | the initial parameters give the suffix `--ar 16:9 --v 6.0 --stylize 250 --chaos 0`. `'0'` is truthy, so chaos is kept |
| ResultDisplay.PromptText | src/components/ResultDisplay.jsx:8 | a string result is its own prompt text, and an object's prompt text is its `prompt` field |
| ResultDisplay.TranslationText | src/components/ResultDisplay.jsx:9 | a string result has no translation, and an object's translation is its `translation` field |
| ResultDisplay.LegacyReadsAsUntranslated | src/components/ResultDisplay.jsx:8-9 | a string result reads as its own prompt with no translation. An object reads as its `prompt` and its `translation` |
| ResultDisplay.TranslationOrButton | src/components/ResultDisplay.jsx:27-46 | there are two columns exactly when the translation is truthy. Exactly one of the translation and the translate button is shown, and a string result always offers the button |
| ResultDisplay.ResultPanel.constructor | src/components/ResultDisplay.jsx:4-5 | neither flag is set at first |
| ResultDisplay.ResultPanel.HandleCopy | src/components/ResultDisplay.jsx:11-13 | the prompt, never the translation, goes to the clipboard, and `copied` is set |
| ResultDisplay.ResultPanel.CopiedTimeout | src/components/ResultDisplay.jsx:14 | the timer clears `copied` only |
| ResultDisplay.ResultPanel.BeginTranslate | src/components/ResultDisplay.jsx:17-18 | `isTranslating` is set while the translation is pending, so the translate button is disabled, and `copied` is kept |
| ResultDisplay.ResultPanel.SettleTranslate | src/components/ResultDisplay.jsx:19-20 | only a resolved translation clears `isTranslating` and re-enables the button. A rejection leaves both as they were, since there is no `finally` |
| ResultDisplay.ResultPanel.TranslateDisabled | src/components/ResultDisplay.jsx:68 | the translate button is disabled exactly while `isTranslating` is set |
| HistorySidebar.Summary | src/components/HistorySidebar.jsx:49 | an entry's summary is the same prompt text the result panel reads |
| HistorySidebar.Entries | src/components/HistorySidebar.jsx:4-52 | a missing or empty history renders nothing. Otherwise there is one entry per item, in order, keyed by index, headed by the item's model, summarised by its prompt and selecting that item unchanged |
| HistorySidebar.EntryKeysIdentifyItems | src/components/HistorySidebar.jsx:31-34 | entry keys are distinct, and clicking an entry selects the item at its key |
| PromptBuilder.SubmitDisabled | src/components/PromptBuilder.jsx:30 | the button is disabled exactly when optimising or when the input is whitespace only |
| PromptBuilder.PromptForm.constructor | src/components/PromptBuilder.jsx:4 | the input starts empty |
| PromptBuilder.PromptForm.SetInput | src/components/PromptBuilder.jsx:21 | typing replaces the input |
| PromptBuilder.PromptForm.HandleSubmit | src/components/PromptBuilder.jsx:6-11 | whitespace-only input submits nothing. Any other input is submitted as typed, untrimmed |

## Left out

- Network transport is not modelled: `fetch`, the HTTP exchange, `JSON.stringify` of the body and `response.json()`.
  - An OpenAI-compatible call takes the server's reply as a parameter.
  - A failure while reading the JSON or `choices[0].message.content` is folded into `Thrown`.
- The Google SDK client and `getGenerativeModel` become a `ModelConfig` value. The SDK's reply to each attempt is a parameter.
- `setTimeout` and real delays are not modelled. The retry wait is counted in milliseconds (`waited`), and the "Copied!" reset is a separate method, `CopiedTimeout`.
- `console.error` and `console.warn` are not modelled, since they have no effect on results.
- `navigator.clipboard` is not modelled. The text the result panel writes is what `ResultPanel.HandleCopy` returns.
- `copyToClipboard` in `src/App.jsx` is not modelled as an operation. It writes the `result` field unchanged, and `HandleOptimize` and `GeminiService.SettledSuccess` state what that field holds.
- JSX markup and styling are not modelled, only the values they display and their enable conditions. `disabled={isTranslating}` is the predicate `ResultPanel.TranslateDisabled`.
- `localStorage` is not modelled. The stored key and model are parameters of the `App` constructor.
- `src/components/SettingsModal.jsx` is not part of this model. It is a dialog around `localStorage`, and only its `onSave` and `onClose` callbacks in `src/App.jsx` are modelled.
- `src/components/AspectRatioSelector.jsx` and `src/components/ModelSelector.jsx` are not modelled. They are presentational. `SetSelection` covers the `onSelect` and `onChange` callbacks that `src/App.jsx` passes to them and to `MidjourneyControls` (`src/App.jsx:80`, `86` and `91`).
- `src/components/ThemeToggle.jsx` is not modelled. `src/App.jsx` neither imports nor renders it, so its `onToggle` reaches no modelled state.
- `vite.config.js` is not modelled. It is dev-server configuration.
- History storage (append, truncate, update, delete, clear) is not modelled. No modelled file defines it; only its reading side is present.
- `onTranslate` and `onClear` are not modelled. Their implementations are outside the modelled files, and `src/App.jsx` does not connect to `ResultDisplay` or `HistorySidebar`.
- Non-string values are not modelled. This covers a `null` key, numbers or objects inside `midjourneyParams`, and an error without a string `message`.
  - Every argument is a string, with `None` for a missing optional one.
  - JavaScript would throw a `TypeError` inside `includes` on an error without a string `message`.
- An error thrown by `result.response.text()` (`src/services/gemini.js:91`) is folded into a `Failed` reply of the last attempt. In the source that call runs after the loop's `try`, so its error is never retried. In the model a `Failed` reply whose message contains `503` is retried while an attempt is left, so this corner case does not match.
- Concurrency is not modelled: React's asynchronous state updates and a second click during a pending call. `HandleOptimize` runs to completion as one step.
- Instructions.MidjourneyIgnoresAspectRatio: states that the Midjourney instruction does not depend on `ar`, not that it never contains the `ar` value. The absence claim is false for values that occur in the template text, such as `"e"`.
- Instructions.JimengStatesLengthCeiling: proves only that the 800-character rule is present in the Jimeng instruction. It does not prove that "800" is absent from the Nano and Midjourney templates, a fact about the literal text alone.
- GeminiService.RetryGenerate: counts the waits in milliseconds instead of timing them. Each attempt's reply is a parameter, and the request it answers is the single `userText` that `GeneratePrompt` builds.
