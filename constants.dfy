/**
 * The frozen constant objects of src/utils/constantsValues.js: plain strings and
 * arrow functions that only build strings.
 */
module Constants {

  // CONSTANTS_MIC_PERMISSION

  /** The engine error code that means the user refused the microphone. */
  const DeniedPermissionError: string := "not-allowed"
  const DeniedPermissionMessage: string := "The access permition to microfone has been denied by the user"
  const DeniedMicPermissionErrorName: string := "Denied Microphone Permission"

  // CONSTANTS_VOICE_COMMAND

  const CommandVoiceNotFoundError: string := "command-not-found"
  const NotFoundPrefix: string := "Voice command '"
  const NotFoundSuffix: string := "' respective callback was not found"

  /** COMMAND_VOICE_NOT_FOUND_MESSAGE: the unknown command quoted inside a fixed sentence. */
  function CommandVoiceNotFoundMessage(command: string): (m: string)
    ensures |m| == |NotFoundPrefix| + |command| + |NotFoundSuffix|
    ensures m[..|NotFoundPrefix|] == NotFoundPrefix
    ensures m[|NotFoundPrefix|..|NotFoundPrefix| + |command|] == command
    ensures m[|NotFoundPrefix| + |command|..] == NotFoundSuffix
  {
    NotFoundPrefix + command + NotFoundSuffix
  }

  /** The not-found message determines the command it was built from. */
  lemma NotFoundMessageInjective(a: string, b: string)
    requires CommandVoiceNotFoundMessage(a) == CommandVoiceNotFoundMessage(b)
    ensures a == b
  {
    var m := CommandVoiceNotFoundMessage(a);
    assert |a| == |b|;
    assert a == m[|NotFoundPrefix|..|NotFoundPrefix| + |a|];
  }

  const CommandVoiceNotFoundErrorName: string := "Voice command did not found"

  /** COMMAND_VOICE_INVALID_CALLBACK_TYPE_ERROR: a function that ignores its argument. */
  function CommandVoiceInvalidCallbackTypeError(callbackTypeName: string): (code: string)
    ensures code == "invalid-voice-command-callback-type"
  {
    "invalid-voice-command-callback-type"
  }

  const InvalidVoiceCallbackPrefix: string := "Invalid voice command callback type, it should be a "

  /** JavaScript truthiness of a string argument: only the empty string is falsy. */
  predicate Truthy(s: string) {
    s != ""
  }

  /**
   * COMMAND_VOICE_INVALID_CALLBACK_TYPE_ERROR_MESSAGE: names its argument, or the word
   * `function` when the argument is falsy (`callbackTypeName || 'function'`).
   */
  function CommandVoiceInvalidCallbackTypeErrorMessage(callbackTypeName: string): (m: string)
    ensures |m| > |InvalidVoiceCallbackPrefix|
    ensures m[..|InvalidVoiceCallbackPrefix|] == InvalidVoiceCallbackPrefix
    ensures Truthy(callbackTypeName) ==> m[|InvalidVoiceCallbackPrefix|..] == callbackTypeName
    ensures !Truthy(callbackTypeName) ==> m[|InvalidVoiceCallbackPrefix|..] == "function"
  {
    InvalidVoiceCallbackPrefix + (if Truthy(callbackTypeName) then callbackTypeName else "function")
  }

  /**
   * COMMAND_VOICE_INVALID_CALLBACK_TYPE_ERROR_NAME is itself an arrow function, not a
   * string; whatever it is given, it returns the same sentence.
   */
  function CommandVoiceInvalidCallbackTypeErrorName(callbackTypeName: string): (name: string)
    ensures name == "Voice command callback type is invalid"
  {
    "Voice command callback type is invalid"
  }

  // CONSTANTS_RECOGNITION

  const RecognitionInvalidCallbackTypeError: string := "invalid-callback-type"
  const InvalidRecognitionCallbackPrefix: string := "Invalid callback type, it should be a "

  /** RECOGNITION_INVALID_CALLBACK_TYPE_ERROR_MESSAGE: no default for a falsy argument. */
  function RecognitionInvalidCallbackTypeErrorMessage(callbackTypeName: string): (m: string)
    ensures |m| == |InvalidRecognitionCallbackPrefix| + |callbackTypeName|
    ensures m[..|InvalidRecognitionCallbackPrefix|] == InvalidRecognitionCallbackPrefix
    ensures m[|InvalidRecognitionCallbackPrefix|..] == callbackTypeName
  {
    InvalidRecognitionCallbackPrefix + callbackTypeName
  }

  const RecognitionInvalidCallbackTypeErrorName: string := "Invalid callback type"

  /** The names the file exports. There is no `CONSTANTS_SYNTHESIS` among them. */
  const Exports: set<string> := {"CONSTANTS_MIC_PERMISSION", "CONSTANTS_VOICE_COMMAND", "CONSTANTS_RECOGNITION"}

  /** The name src/features/voiceSyntesis/index.js imports from this file. */
  const SynthesisExportName: string := "CONSTANTS_SYNTHESIS"
}
