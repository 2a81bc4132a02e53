/** src/utils/builders/speechRecognitionBuilder.js */
module SpeechRecognitionBuilder {
  import opened Wrappers
  import opened Errors
  import opened HostEnv
  import IsBrowserEnv
  import IsSpeechRecognitionSupported

  /**
   * buildSpeechRecognition: the environment guard, then the recognition guard, then
   * `new window.webkitSpeechRecognition()`. `Pass` means that construction succeeded.
   * Constructing an absent global is a TypeError ("not a constructor").
   */
  function BuildSpeechRecognition(h: Host): (r: Outcome<Err>)
    ensures !h.hasWindow ==> r == Fail(UnsupportedEnvironment)
    ensures h.hasWindow && !h.hasSpeechRecognition && !h.hasWebkitSpeechRecognition ==> r == Fail(UnsupportedRecognition)
    ensures h.hasWindow && h.hasSpeechRecognition && !h.hasWebkitSpeechRecognition ==> r == Fail(TypeError)
    ensures r.Pass? <==> h.hasWindow && h.hasWebkitSpeechRecognition
  {
    match IsBrowserEnv.CheckEnvironmentSupport(h)
    case Fail(e) => Fail(e)
    case Pass =>
      match IsSpeechRecognitionSupported.CheckSpeechRecognitionSupport(h)
      case Fail(e) => Fail(e)
      case Pass => if h.hasWebkitSpeechRecognition then Pass else Fail(TypeError)
  }

  /**
   * The guards run in order: the environment guard's failure is the builder's failure,
   * so the recognition guard's ReferenceError for a missing `window` is never surfaced.
   */
  lemma EnvironmentGuardFirst(h: Host)
    ensures IsBrowserEnv.CheckEnvironmentSupport(h).Fail? ==> BuildSpeechRecognition(h) == IsBrowserEnv.CheckEnvironmentSupport(h)
    ensures BuildSpeechRecognition(h) != Fail(ReferenceError)
  {
  }
}
