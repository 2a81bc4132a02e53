/** src/utils/IsSpeechRecognitionSupported.js */
module IsSpeechRecognitionSupported {
  import opened Wrappers
  import opened Errors
  import opened HostEnv

  /**
   * checkSpeechRecognitionSupport: passes when either the standard or the prefixed
   * constructor is present. It evaluates `'…' in window` without checking that `window`
   * exists, so a host without `window` gets a ReferenceError.
   */
  function CheckSpeechRecognitionSupport(h: Host): (r: Outcome<Err>)
    ensures r.Pass? <==> h.hasWindow && (h.hasSpeechRecognition || h.hasWebkitSpeechRecognition)
    ensures !h.hasWindow ==> r == Fail(ReferenceError)
    ensures h.hasWindow && r.Fail? ==> r.error == UnsupportedRecognition
    ensures r.Fail? && h.hasWindow ==> Message(r.error) == Some("Speech Recognition API not supported in this browser.")
  {
    if !h.hasWindow then Fail(ReferenceError)
    else if !h.hasSpeechRecognition && !h.hasWebkitSpeechRecognition then Fail(UnsupportedRecognition)
    else Pass
  }
}
