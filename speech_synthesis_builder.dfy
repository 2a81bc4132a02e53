/** src/utils/builders/speechSynthesisBuilder.js */
module SpeechSynthesisBuilder {
  import opened Wrappers
  import opened Errors
  import opened HostEnv
  import IsBrowserEnv
  import IsSpeechSynthesisSupported

  /**
   * buildSpeechSynthesis: the environment guard, then the synthesis guard, then the host's
   * single `window.speechSynthesis` object (`shared`) is handed back as it is.
   */
  function BuildSpeechSynthesis<T>(h: Host, shared: T): (r: Result<T, Err>)
    ensures !h.hasWindow ==> r == Failure(UnsupportedEnvironment)
    ensures h.hasWindow && !(h.hasSpeechSynthesis && h.hasUtterance) ==> r == Failure(UnsupportedSynthesis)
    ensures r.Success? <==> h.hasWindow && h.hasSpeechSynthesis && h.hasUtterance
    ensures r.Success? ==> r.value == shared
  {
    match IsBrowserEnv.CheckEnvironmentSupport(h)
    case Fail(e) => Failure(e)
    case Pass =>
      match IsSpeechSynthesisSupported.CheckSpeechSynthesisSupport(h)
      case Fail(e) => Failure(e)
      case Pass => Success(shared)
  }
}
