# Speech-session controllers of zaity, modelled in Dafny

This project models the logic of the zaity browser speech library:

- the middleware pipeline, a left-to-right fold of text transforms that fails on the first entry that is not a function;
- the debounce wrapper, with a single pending slot;
- the capability guards and the two engine builders;
- the message constants;
- the three session controllers: `VoiceCommand` (voice-command dispatch), `VoiceSynthesizer` (text-to-speech with a memoised voice) and `VoiceCaptions` (the older captions controller).

The modelled behaviour is what the code does, with one exception: `VoiceSynthesizer` uses the corrected voice choice described under "## Findings", and `ChooseVoiceAsWritten` records the written behaviour beside it. The host is reduced to a few parts:

- a capability record `HostEnv.Host` (is there a `window`, and which speech globals does it have);
- two engine classes, `Engine.Recognizer` and `Engine.SpeechSynth`, which record every call made on them;
- the engine events, which are methods the host calls: `OnResult`, `OnStart`, `OnError`, `OnEnd`.

Every thrown error is a constructor of `Errors.Err`. Each error-producing operation returns a `Result` or an `Outcome`.

Modules follow the source files:

- `Middlewares`: src/utils/applyMiddlewares.js
- `Debounce`: src/utils/debounce.js
- `IsBrowserEnv`, `IsSpeechRecognitionSupported`, `IsSpeechSynthesisSupported`: the three guard files
- `SpeechRecognitionBuilder`, `SpeechSynthesisBuilder`: the two builder files
- `Constants`: src/utils/constantsValues.js
- `VoiceAction`: src/features/voiceAction/index.js
- `VoiceSynthesis`: src/features/voiceSyntesis/index.js
- `Recognition`: src/features/recognition/index.js

Helper modules:

- `Wrappers`: Option, Result and Outcome.
- `Errors`: the error datatype, plus the decimal rendering of a middleware index.
- `HostEnv`: the capability record.
- `Engine`: the engine classes, the shape of a result event and the lifecycle notices.

Where the code and the design description disagree, the model follows the code:

- `VoiceSynthesizer` gets the host's one shared `window.speechSynthesis` object on every `speak`, not a fresh engine.
- `VoiceCaptions` builds its recognition object inside the factory, before any guard runs.
- `VoiceCaptions` never checks the callback type, so an unsupported target is ignored silently.
- `VoiceCaptions` builds a debounce wrapper for each result but never calls it.
- In `VoiceCaptions`, `stopListening` throws: it assigns to a `const`.
- In `VoiceCaptions`, a bad middleware throws a ReferenceError (its message uses an undefined `index`), not the indexed error.

## Model

| member | source | states |
|---|---|---|
| `Middlewares.Apply` | src/utils/applyMiddlewares.js:11-33 | Succeeds iff every entry is a function. A failure is `InvalidMiddleware(i)`, where i is the first entry that is not a function. |
| `Middlewares.EmptyIsIdentity` | src/utils/applyMiddlewares.js:28-31 | An empty list returns the text unchanged. |
| `Middlewares.ApplyIsLeftToRightFold` | src/utils/applyMiddlewares.js:18-29 | With every entry a function, the result is the head-first composition: each stage's output is the next stage's input. |
| `Middlewares.FailureIgnoresSuffix` | src/utils/applyMiddlewares.js:19-25 | If entry i is the first non-function, the call fails at i whatever follows it. No later stage affects the outcome, and no partial text is returned. |
| `Middlewares.ApplyConcat` | src/utils/applyMiddlewares.js:18-26 | For a valid prefix a, running a + b equals running b on a's output. An error index inside b is shifted by \|a\|. |
| `Middlewares.Composition` | src/utils/applyMiddlewares.js:18-26 | For valid a and b: apply(apply(t, a), b) == apply(t, a + b). |
| `Errors.NatToString` | src/utils/applyMiddlewares.js:23 | `${index}` renders the index as a non-empty string of decimal digits, which `ParseDecimal` reads back as the same number (`ParseNatToString`). |
| `Errors.Message` | src/utils/applyMiddlewares.js:23 | The indexed middleware error reads "Invalid middleware at index " + the decimal index + ", it should be a function". The three errors made with a message carry exactly that message. The guard errors (src/utils/isBrowserEnv.js:8 and the two support files at line 8) carry their fixed texts. Only the host's TypeError and ReferenceError, and InvalidLangCode, have no modelled message. |
| `Errors.MiddlewareMessageNamesIndex` | src/utils/applyMiddlewares.js:23 | The message "Invalid middleware at index i, it should be a function" determines i: distinct indices give distinct messages. |
| `Debounce.Fresh` | src/utils/debounce.js:8-9 | A new wrapper has no pending execution and has fired nothing. |
| `Debounce.Called` | src/utils/debounce.js:10-16 | A call replaces the slot: exactly one execution is pending, with this call's arguments, due after `delay`. Nothing fires. |
| `Debounce.Ticked` | src/utils/debounce.js:14-16 | Time passes. The pending execution runs exactly once if it falls due; otherwise only the clock moves. |
| `Debounce.FiresOnlyAfterDelay` | src/utils/debounce.js:13-16 | After a call, the function runs iff `delay` has passed with no further call. |
| `Debounce.FreshWrapperFiresOnce` | src/utils/debounce.js:9-16 | A wrapper called once runs its function exactly once, with that call's arguments. |
| `Debounce.BurstKeepsLast` | src/utils/debounce.js:13-16 | During the calls of a burst (gaps below `delay`), nothing fires, and only the last call's arguments stay pending. |
| `Debounce.BurstFiresOnce` | src/utils/debounce.js:13-16 | n calls spaced closer than `delay`, then a quiet `delay`, cause exactly one execution, with the last call's arguments. |
| `Debounce.Debouncer.constructor` | src/utils/debounce.js:8-9 | A new wrapper is in the `Fresh` state. |
| `Debounce.Debouncer.Call` | src/utils/debounce.js:10-17 | The state becomes `Called`. There is no result, and only this wrapper's fields change, so separate wrappers have independent slots. |
| `Debounce.Debouncer.Tick` | src/utils/debounce.js:14-16 | The state becomes `Ticked`. |
| `Constants.CommandVoiceNotFoundMessage` | src/utils/constantsValues.js:36 | The message is "Voice command '" + command + "' respective callback was not found", with the command at a fixed position. |
| `Constants.NotFoundMessageInjective` | src/utils/constantsValues.js:36 | The not-found message determines the command it names. |
| `Constants.CommandVoiceInvalidCallbackTypeError` | src/utils/constantsValues.js:44 | Ignores its argument and returns 'invalid-voice-command-callback-type'. |
| `Constants.CommandVoiceInvalidCallbackTypeErrorMessage` | src/utils/constantsValues.js:48 | Names its argument when it is truthy (non-empty), otherwise the word 'function'. |
| `Constants.CommandVoiceInvalidCallbackTypeErrorName` | src/utils/constantsValues.js:52 | A function, not a string: it returns the same name for every argument. |
| `Constants.RecognitionInvalidCallbackTypeErrorMessage` | src/utils/constantsValues.js:70 | "Invalid callback type, it should be a " + n, with no default for a falsy n. |
| `IsBrowserEnv.CheckEnvironmentSupport` | src/utils/isBrowserEnv.js:6-10 | Fails iff `window` is absent. The error is the browser-only error, with its exact message. Otherwise it passes and changes nothing. |
| `IsBrowserEnv.EnvironmentDependsOnWindowOnly` | src/utils/isBrowserEnv.js:7 | Only the presence of `window` is inspected. |
| `IsSpeechRecognitionSupported.CheckSpeechRecognitionSupport` | src/utils/IsSpeechRecognitionSupported.js:6-10 | Passes iff `window` exists and either `SpeechRecognition` or `webkitSpeechRecognition` is present. Otherwise it throws the unsupported error with its exact message, or a ReferenceError when `window` is absent. |
| `IsSpeechSynthesisSupported.CheckSpeechSynthesisSupport` | src/utils/IsSpeechSyntesisSupported.js:6-10 | Passes iff `window`, `speechSynthesis` and `SpeechSynthesisUtterance` are all present. Otherwise it throws the unsupported error with its exact message, or a ReferenceError without `window`. |
| `SpeechRecognitionBuilder.BuildSpeechRecognition` | src/utils/builders/speechRecognitionBuilder.js:10-15 | No `window` gives the browser-only error. Neither API gives the unsupported error. Only the standard API gives a TypeError at `new window.webkitSpeechRecognition()`. Success iff the prefixed constructor exists. |
| `SpeechRecognitionBuilder.EnvironmentGuardFirst` | src/utils/builders/speechRecognitionBuilder.js:11-12 | The environment guard runs first: its failure is the builder's failure, so the support check's ReferenceError is never reached. |
| `SpeechSynthesisBuilder.BuildSpeechSynthesis` | src/utils/builders/speechSynthesisBuilder.js:10-15 | The environment guard runs, then the synthesis guard. On success it returns the very object passed in as `window.speechSynthesis`. |
| `Engine.LastTranscript` | src/features/voiceAction/index.js:96 | Succeeds iff the result list and its latest entry are non-empty, with the first alternative of the latest result. Otherwise a TypeError, as reading `.transcript` of `undefined` throws (also src/features/recognition/index.js:88). |
| `VoiceAction.TypeOf` | src/features/voiceAction/index.js:75 | `typeof` of a non-function value is never the empty string. |
| `VoiceAction.FindCommand` | src/features/voiceAction/index.js:59-65 | A hit iff the exact text is a key, returning its value. A miss is VoiceCommandNotFound with the built message. An undefined table is a TypeError. |
| `VoiceAction.CheckCallbackOperationType` | src/features/voiceAction/index.js:73-77 | Passes iff the value is a function. Otherwise InvalidVoiceCommandCallbackType, with the message built from `typeof`. |
| `VoiceAction.InvalidCallbackMessageNamesType` | src/features/voiceAction/index.js:75 | The invalid-type message always names the offending `typeof` and never falls back to 'function'. |
| `VoiceAction.ResolveResult` | src/features/voiceAction/index.js:95-99 | A missing transcript is a TypeError, and a failing pipeline throws its own `InvalidMiddleware` error. A dispatch is made only for the pipeline's output on the latest transcript, and only when the table maps that text to a callback. |
| `VoiceAction.MissRaisesNotFound` | src/features/voiceAction/index.js:59-62 | A pipeline output missing from the table raises VoiceCommandNotFound naming it, and nothing is dispatched. |
| `VoiceAction.NonFunctionRaisesInvalidType` | src/features/voiceAction/index.js:73-76 | A key mapped to a non-function raises the invalid-type error, and nothing is dispatched. |
| `VoiceAction.HitDispatches` | src/features/voiceAction/index.js:98-103 | A key mapped to a callback dispatches exactly that callback, with the transformed text. |
| `VoiceAction.MapEngineError` | src/features/voiceAction/index.js:110-116 | 'not-allowed', and only it, becomes DeniedMicPermission with the denied-permission message. Any other code is passed raw. |
| `VoiceAction.VoiceCommand.constructor` | src/features/voiceAction/index.js:28-38 | Defaults: continuous true, lang 'pt-BR', delay 50, keepListening true, no middlewares. No instance yet. |
| `VoiceAction.VoiceCommand.ListenVoiceCommand` | src/features/voiceAction/index.js:89-124 | The outcome is the builder's. On success a fresh instance carries continuous, interimResults = false and lang, and has had `start()` called once. On failure the old instance stays. |
| `VoiceAction.VoiceCommand.OnResult` | src/features/voiceAction/index.js:95-104 | Throws iff `ResolveResult` fails, and then dispatches nothing. Otherwise it appends exactly one dispatch, with the configured `DEBOUNCE_DELAY`, made through a wrapper used for this result alone, so results never coalesce. |
| `VoiceAction.VoiceCommand.OnStart` | src/features/voiceAction/index.js:106-108 | Calls onStart once. |
| `VoiceAction.VoiceCommand.OnError` | src/features/voiceAction/index.js:110-116 | Calls onError once, with the mapped report. |
| `VoiceAction.VoiceCommand.OnEnd` | src/features/voiceAction/index.js:118-121 | Calls `start()` on the current instance iff keepListening, then always calls onEnd. |
| `VoiceAction.VoiceCommand.StopListening` | src/features/voiceAction/index.js:131-134 | keepListening becomes false for good, then `stop()` is called. Before any listen it throws a TypeError, with the flag already cleared. |
| `VoiceSynthesis.Find` | src/features/voiceSyntesis/index.js:81 | Returns the first voice in list order that matches, or nothing iff none matches. |
| `VoiceSynthesis.ByLang` | src/features/voiceSyntesis/index.js:77 | The predicate holds for a voice iff its lang equals the configured language code. |
| `VoiceSynthesis.ByURI` | src/features/voiceSyntesis/index.js:79 | The predicate holds for a voice iff its voiceURI equals the memo. |
| `VoiceSynthesis.FindFirst` | src/features/voiceSyntesis/index.js:81 | The voice at the first matching position is the one found. |
| `VoiceSynthesis.ChooseVoice` | src/features/voiceSyntesis/index.js:72-94 | Throws InvalidLangCode iff no voice has the configured lang. A chosen voice is always from the list. |
| `VoiceSynthesis.NoMemoPicksFirstOfLang` | src/features/voiceSyntesis/index.js:81-87 | With no truthy memo, the choice is the first voice whose lang matches. |
| `VoiceSynthesis.MemoPicksFirstWithURI` | src/features/voiceSyntesis/index.js:87 | With a truthy memo, the choice is the first voice whose voiceURI equals the memo. |
| `VoiceSynthesis.StaleMemoIsTypeError` | src/features/voiceSyntesis/index.js:87-89 | A memo that no listed voice carries makes `voice` undefined, and `voice.voiceURI` throws a TypeError. |
| `VoiceSynthesis.MemoStabilizes` | src/features/voiceSyntesis/index.js:87-91 | After the memo is updated, choosing again from the same list gives a voice with the same URI, and from then on the same voice. |
| `VoiceSynthesis.ChooseVoiceAsWritten` | src/features/voiceSyntesis/index.js:83-85 | As written, it agrees with `ChooseVoice` whenever some voice has the language. |
| `VoiceSynthesis.AsWrittenLosesInvalidLang` | src/features/voiceSyntesis/index.js:4 | With no voice of the language, the written code throws a TypeError, because CONSTANTS_SYNTHESIS is not exported. The corrected code throws InvalidLangCode. |
| `VoiceSynthesis.AsWrittenExample` | src/features/voiceSyntesis/index.js:83-85 | Concrete case: 'en-US' against a 'pt-BR'-only list. |
| `VoiceSynthesis.SetOnError` | src/features/voiceSyntesis/index.js:118-120 | The utterance gains the listener forwarding to onError. Text, lang and voice are unchanged. |
| `VoiceSynthesis.VoiceSynthesizer.constructor` | src/features/voiceSyntesis/index.js:27-38 | Defaults: lang 'pt-BR', no middlewares. No instance and no memo yet. |
| `VoiceSynthesis.VoiceSynthesizer.GetVoice` | src/features/voiceSyntesis/index.js:72-94 | Returns `ChooseVoice` under the old memo. After a success the memo equals the chosen voice's URI; after a failure it is unchanged. |
| `VoiceSynthesis.VoiceSynthesizer.PrepareText` | src/features/voiceSyntesis/index.js:102-110 | The utterance text is the pipeline's output, its lang the configured lang and its voice the chosen one. A pipeline failure stops before getVoice, leaving the memo untouched. |
| `VoiceSynthesis.VoiceSynthesizer.Speak` | src/features/voiceSyntesis/index.js:138-146 | Guard failures leave the instance unchanged. Pipeline or voice failures reject. In every failure the engine's `speak` is never called. On success exactly one utterance is spoken, after its error listener is attached, and the memo persists for later calls. |
| `VoiceSynthesis.VoiceSynthesizer.PauseSpeaking` | src/features/voiceSyntesis/index.js:125-127 | Forwards `pause()` to the current instance. With no instance yet it throws a TypeError. |
| `VoiceSynthesis.VoiceSynthesizer.ResumeSpeaking` | src/features/voiceSyntesis/index.js:133-135 | Forwards `resume()` to the current instance. With no instance yet it throws a TypeError. |
| `Recognition.CaptionsApply` | src/features/recognition/index.js:69-85 | The local pipeline's only failure is a ReferenceError, from the undefined `index`. |
| `Recognition.CaptionsApplyAgrees` | src/features/recognition/index.js:69-85 | The local copy equals `Middlewares.Apply` on success, and fails exactly when it fails. |
| `Recognition.CaptionsApplyIsFold` | src/features/recognition/index.js:69-85 | The identity on an empty list, and the left-to-right fold when every entry is a function. |
| `Recognition.ListenGuards` | src/features/recognition/index.js:61-67 | The browser-only error without `window` (checked first). The unsupported error when neither API name is present. Passes otherwise. |
| `Recognition.NewVoiceCaptions` | src/features/recognition/index.js:35-51 | `new SpeechRecognition()` runs before any guard: a ReferenceError iff the unprefixed global is missing. Otherwise a fresh object, configured from params with its defaults, not yet started. |
| `Recognition.VoiceCaptions.constructor` | src/features/recognition/index.js:36-51 | The recognition object is constructed and configured at factory time. |
| `Recognition.VoiceCaptions.Listen` | src/features/recognition/index.js:60-110 | The outcome is `ListenGuards`. On success the handlers are bound to this target and `start()` is called once. On failure nothing changes. |
| `Recognition.VoiceCaptions.OnResult` | src/features/recognition/index.js:87-98 | Throws a TypeError for a missing transcript, or a ReferenceError for a bad middleware. Otherwise it passes for every target, including one that is neither a Function nor an HTMLElement. It changes nothing, since the wrapper it builds is never invoked. |
| `Recognition.VoiceCaptions.OnStart` | src/features/recognition/index.js:100-102 | Calls onStart once. |
| `Recognition.VoiceCaptions.OnEnd` | src/features/recognition/index.js:104-107 | Restarts iff keepListening, then always calls onEnd. |
| `Recognition.VoiceCaptions.StopListening` | src/features/recognition/index.js:117-120 | Always throws a TypeError, from the assignment to a `const`. `stop()` is never reached and nothing changes. |

## Left out

- AWS transcription (src/features/transcription/index.js, the AWS transcriber and the interfaces) is not modelled: it passes straight through to the cloud SDK.
- The socket.io translation relay and the DOM query helpers under src/middlewares are not modelled: they are network and DOM I/O.
- The CLI, the dependency installer and the webpack configuration are not modelled: they are prompts, process spawning and build setup.
- The Error subclasses under src/error are not modelled as classes. Each is a constructor of `Errors.Err`, and their `name` strings appear only as constants.
- Real time is not modelled: `setTimeout`/`clearTimeout` become an abstract clock per wrapper (`Debouncer.Tick`). The `this` context that debounce forwards is not modelled.
- VoiceAction.VoiceCommand.OnResult: records each dispatch as a (callback, text, delay) entry rather than holding the per-result wrapper and its timer. That each such wrapper fires exactly once is `Debounce.FreshWrapperFiresOnce`.
- Recognition.VoiceCaptions.OnResult: its contract does not mention the wrapper objects it allocates and drops.
- The asynchronous voice list (`getVoices` waiting for `onvoiceschanged`, src/features/voiceSyntesis/index.js:53-63) is not modelled. The voice list is a parameter of `Speak`. A list that never becomes non-empty, which leaves `speak` pending forever, is not modelled.
- The speech engines are not modelled internally. Neither is an engine error raised on an utterance, beyond the attached listener flag. Neither is the `InvalidStateError` a browser raises for `start()` on a running recognizer.
- VoiceSynthesis.VoiceSynthesizer.GetVoice: follows the corrected `ChooseVoice` from the "## Findings" row, so with no voice of the language it reports InvalidLangCode where the written code throws a TypeError. The same holds for `PrepareText` and `Speak`, which call it. In both versions the engine's `speak` is never called on that path.
- VoiceAction.VoiceCommand.ListenVoiceCommand: the `onEnd`/`onStart` callbacks passed to each `listenVoiceCommand` call are not modelled as values. A call without an options object, which throws a TypeError at the destructuring, is not modelled. `notices` does not record which call's callbacks an older engine's events invoke.
- VoiceAction.VoiceCommand.OnResult: the delay is a `nat`. What `setTimeout` does with other delays (a negative delay becomes 0 ms, a delay above 2^31-1 ms becomes 1 ms, a non-number is converted) is not modelled.
- Messages of the host's own TypeError and ReferenceError are not modelled (`Errors.Message` returns `None`).
- Callbacks and elements are opaque identities. Their bodies, and the DOM `textContent` they would write, are not modelled.
- Under native ES modules, the missing CONSTANTS_SYNTHESIS export would be a load-time link error rather than a TypeError. The model follows the bundled build (webpack reads a missing named import as `undefined`).

## Findings

| source | as written | input that shows it | evidently intended | confidence | as-written member | corrected member |
|---|---|---|---|---|---|---|
| src/features/voiceSyntesis/index.js:4 | The invalid-language branch calls `CONSTANTS_SYNTHESIS.SYNTHESIS_INVALID_LANG_TYPE_ERROR_MESSAGE()`, but src/utils/constantsValues.js exports no `CONSTANTS_SYNTHESIS`, so the call throws a TypeError. | lang 'en-US', voices [{lang 'pt-BR', voiceURI 'pt'}] | `getVoice` throws InvalidLangCode | not executed; high that the export is missing, medium on how the bundle surfaces it | `VoiceSynthesis.ChooseVoiceAsWritten` | `VoiceSynthesis.ChooseVoice` |
