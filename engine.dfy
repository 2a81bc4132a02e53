/**
 * The host's speech engines, reduced to what the controllers touch: the settable fields
 * and a record of the calls made on them. Also the shape of a recognition result event
 * and the lifecycle callbacks a session configuration supplies.
 */
module Engine {
  import opened Wrappers
  import opened Errors

  /** A SpeechSynthesisVoice: its language tag and its identity. */
  datatype Voice = Voice(lang: string, voiceURI: string)

  /** A SpeechSynthesisUtterance; `forwardsErrors` is the `error` listener calling `onError`. */
  datatype Utterance = Utterance(text: string, lang: string, voice: Voice, forwardsErrors: bool)

  datatype RecognizerCall = StartCall | StopCall
  datatype SynthCall = SpeakCall(utterance: Utterance) | PauseCall | ResumeCall

  /** What an `onError` callback receives: a structured error or the raw engine code. */
  datatype Reported = Structured(error: Err) | Raw(code: string)

  /** A call into one of the session's lifecycle callbacks. */
  datatype Notice = StartCallback | EndCallback | ErrorCallback(reported: Reported)

  /** A SpeechRecognition object. */
  class Recognizer {
    var continuous: bool
    var interimResults: bool
    var lang: string
    var calls: seq<RecognizerCall>

    constructor ()
      ensures !continuous && !interimResults && lang == "" && calls == []
    {
      continuous, interimResults, lang, calls := false, false, "", [];
    }

    method Start()
      modifies this`calls
      ensures calls == old(calls) + [StartCall]
    {
      calls := calls + [StartCall];
    }

    method Stop()
      modifies this`calls
      ensures calls == old(calls) + [StopCall]
    {
      calls := calls + [StopCall];
    }
  }

  /** The host's SpeechSynthesis object. */
  class SpeechSynth {
    var calls: seq<SynthCall>

    constructor ()
      ensures calls == []
    {
      calls := [];
    }

    method Speak(u: Utterance)
      modifies this
      ensures calls == old(calls) + [SpeakCall(u)]
    {
      calls := calls + [SpeakCall(u)];
    }

    method Pause()
      modifies this
      ensures calls == old(calls) + [PauseCall]
    {
      calls := calls + [PauseCall];
    }

    method Resume()
      modifies this
      ensures calls == old(calls) + [ResumeCall]
    {
      calls := calls + [ResumeCall];
    }
  }

  /**
   * `event.results[event.results.length - 1][0].transcript`: the first alternative of the
   * latest result; reading past an empty list yields `undefined`, and reading a property of
   * it is a TypeError.
   */
  function LastTranscript(results: seq<seq<string>>): (r: Result<string, Err>)
    ensures r.Success? <==> |results| > 0 && |results[|results| - 1]| > 0
    ensures r.Success? ==> r.value == results[|results| - 1][0]
    ensures r.Failure? ==> r.error == TypeError
  {
    if |results| == 0 || |results[|results| - 1]| == 0 then Failure(TypeError)
    else Success(results[|results| - 1][0])
  }
}
