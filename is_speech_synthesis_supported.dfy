/** src/utils/IsSpeechSyntesisSupported.js */
module IsSpeechSynthesisSupported {
  import opened Wrappers
  import opened Errors
  import opened HostEnv

  /**
   * checkSpeechSynthesisSupport: passes only when both `speechSynthesis` and
   * `SpeechSynthesisUtterance` are present; reads `window` unguarded.
   */
  function CheckSpeechSynthesisSupport(h: Host): (r: Outcome<Err>)
    ensures r.Pass? <==> h.hasWindow && h.hasSpeechSynthesis && h.hasUtterance
    ensures !h.hasWindow ==> r == Fail(ReferenceError)
    ensures h.hasWindow && r.Fail? ==> r.error == UnsupportedSynthesis
    ensures r.Fail? && h.hasWindow ==> Message(r.error) == Some("Speech Synthesis interface is not supported in this browser.")
  {
    if !h.hasWindow then Fail(ReferenceError)
    else if !(h.hasSpeechSynthesis && h.hasUtterance) then Fail(UnsupportedSynthesis)
    else Pass
  }
}
