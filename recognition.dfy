/**
 * src/features/recognition/index.js: the older captions controller `VoiceCaptions`, with
 * its own copies of debounce and of the middleware pipeline, modelled as the file behaves.
 */
module Recognition {
  import opened Wrappers
  import opened Errors
  import opened HostEnv
  import opened Engine
  import Middlewares
  import Debounce
  import IsBrowserEnv
  import IsSpeechRecognitionSupported

  /** `callbackOperation`: a Function, an HTMLElement, or anything else. */
  datatype Target = CallbackTarget(callback: nat) | ElementTarget(element: nat) | OtherTarget

  /** The `params` object; `None` is a property left undefined, which takes the default. */
  datatype CaptionParams = CaptionParams(
    continuous: Option<bool>,
    interimResults: Option<bool>,
    lang: Option<string>,
    debounceDelay: Option<nat>,
    keepListening: Option<bool>,
    middlewares: Option<seq<Middlewares.Stage>>)

  /**
   * The file's local applyMiddlewares. Its error branch builds its message from an
   * identifier `index` that is declared nowhere, so evaluating it throws a ReferenceError.
   */
  function CaptionsApply(transcript: string, stages: seq<Middlewares.Stage>): (r: Result<string, Err>)
    ensures r.Failure? ==> r.error == ReferenceError
    decreases |stages|
  {
    if stages == [] then Success(transcript)
    else
      var last := |stages| - 1;
      match CaptionsApply(transcript, stages[..last])
      case Failure(e) => Failure(e)
      case Success(u) =>
        match stages[last]
        case Fn(f) => Success(f(u))
        case NotAFunction => Failure(ReferenceError)
  }

  /** The local copy agrees with src/utils/applyMiddlewares.js on success, and fails exactly when it does. */
  lemma {:induction false} CaptionsApplyAgrees(transcript: string, stages: seq<Middlewares.Stage>)
    ensures CaptionsApply(transcript, stages) ==
              match Middlewares.Apply(transcript, stages)
              case Success(v) => Success(v)
              case Failure(_) => Failure(ReferenceError)
    decreases |stages|
  {
    if stages != [] {
      CaptionsApplyAgrees(transcript, stages[..|stages| - 1]);
    }
  }

  /** The identity on an empty list, the left-to-right fold when every entry is a function. */
  lemma CaptionsApplyIsFold(transcript: string, stages: seq<Middlewares.Stage>)
    requires Middlewares.AllFunctions(stages)
    ensures CaptionsApply(transcript, stages) == Success(Middlewares.Compose(transcript, stages))
  {
    CaptionsApplyAgrees(transcript, stages);
    Middlewares.ApplyIsLeftToRightFold(transcript, stages);
  }

  /** The two checks at the head of `listen`, environment first. */
  function ListenGuards(h: Host): (r: Outcome<Err>)
    ensures !h.hasWindow ==> r == Fail(UnsupportedEnvironment)
    ensures h.hasWindow && !h.hasSpeechRecognition && !h.hasWebkitSpeechRecognition ==> r == Fail(UnsupportedRecognition)
    ensures r.Pass? <==> h.hasWindow && (h.hasSpeechRecognition || h.hasWebkitSpeechRecognition)
  {
    match IsBrowserEnv.CheckEnvironmentSupport(h)
    case Fail(e) => Fail(e)
    case Pass => IsSpeechRecognitionSupported.CheckSpeechRecognitionSupport(h)
  }

  /**
   * `VoiceCaptions(params)`: `new SpeechRecognition()` runs first, before any guard, and
   * names the unprefixed global; a host without it gets a ReferenceError.
   */
  method NewVoiceCaptions(host: Host, params: CaptionParams) returns (r: Result<VoiceCaptions, Err>)
    ensures r.Failure? <==> !(host.hasWindow && host.hasSpeechRecognition)
    ensures r.Failure? ==> r.error == ReferenceError
    ensures r.Success? ==> fresh(r.value) && fresh(r.value.recognition) && r.value.Valid()
    ensures r.Success? ==> r.value.host == host && r.value.Configured(params)
    ensures r.Success? ==> r.value.recognition.calls == [] && r.value.target.None? && r.value.notices == []
  {
    if !(host.hasWindow && host.hasSpeechRecognition) {
      return Failure(ReferenceError);
    }
    var c := new VoiceCaptions(host, params);
    r := Success(c);
  }

  class VoiceCaptions {
    const host: Host
    /** The recognition object, built and configured at factory time. */
    const recognition: Recognizer
    const continuous: bool
    const interimResults: bool
    const lang: string
    const debounceDelay: nat
    /** Declared `const` in the source; `stopListening` cannot change it. */
    const keepListening: bool
    const middlewares: seq<Middlewares.Stage>
    /** The `callbackOperation` of the latest successful `listen`; `None` before handlers exist. */
    var target: Option<Target>
    /** Calls of onStart and onEnd, in order. */
    var notices: seq<Notice>

    ghost predicate Valid()
      reads this, recognition
    {
      recognition.continuous == continuous && recognition.interimResults == interimResults &&
      recognition.lang == lang
    }

    ghost predicate Configured(params: CaptionParams) {
      continuous == params.continuous.GetOr(true) && interimResults == params.interimResults.GetOr(false) &&
      lang == params.lang.GetOr("pt-BR") && debounceDelay == params.debounceDelay.GetOr(50) &&
      keepListening == params.keepListening.GetOr(true) && middlewares == params.middlewares.GetOr([])
    }

    constructor (host: Host, params: CaptionParams)
      requires host.hasWindow && host.hasSpeechRecognition
      ensures fresh(recognition) && Valid()
      ensures this.host == host && Configured(params)
      ensures recognition.calls == [] && target.None? && notices == []
    {
      this.host := host;
      var rec := new Recognizer();
      continuous := params.continuous.GetOr(true);
      interimResults := params.interimResults.GetOr(false);
      lang := params.lang.GetOr("pt-BR");
      rec.continuous := params.continuous.GetOr(true);
      rec.interimResults := params.interimResults.GetOr(false);
      rec.lang := params.lang.GetOr("pt-BR");
      recognition := rec;
      debounceDelay := params.debounceDelay.GetOr(50);
      keepListening := params.keepListening.GetOr(true);
      middlewares := params.middlewares.GetOr([]);
      target := None;
      notices := [];
    }

    /** listen: the guards, then handler wiring for this target, then `start()`. */
    method Listen(callbackOperation: Target) returns (r: Outcome<Err>)
      requires Valid()
      modifies this`target, recognition
      ensures Valid()
      ensures r == ListenGuards(host)
      ensures r.Fail? ==> target == old(target) && recognition.calls == old(recognition.calls)
      ensures r.Pass? ==> target == Some(callbackOperation) && recognition.calls == old(recognition.calls) + [StartCall]
    {
      r := ListenGuards(host);
      if r.Fail? {
        return;
      }
      target := Some(callbackOperation);
      recognition.Start();
    }

    /**
     * `onresult`: the pipeline runs, and a debounce wrapper is built for a Function or an
     * HTMLElement target, but the wrapper is never called: neither the callback nor the
     * element's text is ever reached. Any other target is ignored without an error. The
     * method changes nothing; it only reports whether the handler threw.
     */
    method OnResult(results: seq<seq<string>>) returns (r: Outcome<Err>)
      requires target.Some?
      ensures LastTranscript(results).Failure? ==> r == Fail(TypeError)
      ensures LastTranscript(results).Success? && !Middlewares.AllFunctions(middlewares) ==> r == Fail(ReferenceError)
      ensures r.Pass? <==> LastTranscript(results).Success? && Middlewares.AllFunctions(middlewares)
    {
      var transcript := LastTranscript(results);
      if transcript.Failure? {
        return Fail(transcript.error);
      }
      var result := CaptionsApply(transcript.value, middlewares);
      CaptionsApplyAgrees(transcript.value, middlewares);
      if result.Failure? {
        return Fail(result.error);
      }
      match target.value {
        case CallbackTarget(_) =>
          var wrapper := new Debounce.Debouncer<()>(debounceDelay);
        case ElementTarget(_) =>
          var wrapper := new Debounce.Debouncer<()>(debounceDelay);
        case OtherTarget =>
      }
      r := Pass;
    }

    /** `onstart`: calls onStart. */
    method OnStart()
      requires target.Some?
      modifies this`notices
      ensures notices == old(notices) + [StartCallback]
    {
      notices := notices + [StartCallback];
    }

    /** `onend`: restarts iff `keepListening`, then calls onEnd. */
    method OnEnd()
      requires Valid() && target.Some?
      modifies this`notices, recognition
      ensures Valid()
      ensures recognition.calls == old(recognition.calls) + (if keepListening then [StartCall] else [])
      ensures notices == old(notices) + [EndCallback]
    {
      if keepListening {
        recognition.Start();
      }
      notices := notices + [EndCallback];
    }

    /**
     * stopListening: `keepListening = false` assigns to a `const` and throws a TypeError;
     * `recognition.stop()` is never reached and nothing changes, so a later `onend` still
     * restarts when the session was configured to keep listening.
     */
    method StopListening() returns (r: Outcome<Err>)
      ensures r == Fail(TypeError)
    {
      r := Fail(TypeError);
    }
  }
}
