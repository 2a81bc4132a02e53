/** src/features/voiceAction/index.js: the voice-command controller `VoiceCommand`. */
module VoiceAction {
  import opened Wrappers
  import opened Errors
  import opened HostEnv
  import opened Engine
  import Constants
  import Middlewares
  import SpeechRecognitionBuilder

  /** `typeof` of a JavaScript value that is not a function. */
  datatype TypeTag = UndefinedType | ObjectType | BooleanType | NumberType | BigIntType | StringType | SymbolType

  function TypeOf(t: TypeTag): (name: string)
    ensures Constants.Truthy(name)
  {
    match t
    case UndefinedType => "undefined"
    case ObjectType => "object"
    case BooleanType => "boolean"
    case NumberType => "number"
    case BigIntType => "bigint"
    case StringType => "string"
    case SymbolType => "symbol"
  }

  /** A value of the command table: a callback (named by `callback`) or anything else. */
  datatype CommandValue = Callable(callback: nat) | NotCallable(tag: TypeTag)

  /** A callback scheduled, through its own debounce wrapper, with the recognised text. */
  datatype Dispatch = Dispatch(callback: nat, text: string)

  /** A dispatch handed to a fresh `debounce(commandCallback, DEBOUNCE_DELAY)` wrapper. */
  datatype Scheduled = Scheduled(dispatch: Dispatch, delay: nat)

  /** The `commandParams` object; `None` is a property left undefined, which takes the default. */
  datatype CommandParams = CommandParams(
    continuous: Option<bool>,
    lang: Option<string>,
    commandsMapping: Option<map<string, CommandValue>>,
    debounceDelay: Option<nat>,
    keepListening: Option<bool>,
    middlewares: Option<seq<Middlewares.Stage>>)

  /**
   * findCommand: an exact (case-sensitive) `Map.has` lookup; a miss throws
   * VoiceCommandNotFound naming the text. An undefined table is a TypeError on `.has`.
   */
  function FindCommand(commandsMapping: Option<map<string, CommandValue>>, voiceCommand: string): (r: Result<CommandValue, Err>)
    ensures commandsMapping.None? ==> r == Failure(TypeError)
    ensures commandsMapping.Some? ==> (r.Success? <==> voiceCommand in commandsMapping.value)
    ensures r.Success? ==> commandsMapping.Some? && r.value == commandsMapping.value[voiceCommand]
    ensures commandsMapping.Some? && r.Failure? ==>
              r.error == VoiceCommandNotFound(Constants.CommandVoiceNotFoundMessage(voiceCommand))
  {
    match commandsMapping
    case None => Failure(TypeError)
    case Some(m) =>
      if voiceCommand !in m then Failure(VoiceCommandNotFound(Constants.CommandVoiceNotFoundMessage(voiceCommand)))
      else Success(m[voiceCommand])
  }

  /** checkCallbackOperationType: anything but a function throws, with a message built from its `typeof`. */
  function CheckCallbackOperationType(v: CommandValue): (r: Outcome<Err>)
    ensures r.Pass? <==> v.Callable?
    ensures v.NotCallable? ==>
              r == Fail(InvalidVoiceCommandCallbackType(Constants.CommandVoiceInvalidCallbackTypeErrorMessage(TypeOf(v.tag))))
  {
    match v
    case Callable(_) => Pass
    case NotCallable(t) => Fail(InvalidVoiceCommandCallbackType(Constants.CommandVoiceInvalidCallbackTypeErrorMessage(TypeOf(t))))
  }

  /**
   * Since `typeof` never yields an empty string, the message always names the offending
   * type and never falls back to the word `function`.
   */
  lemma InvalidCallbackMessageNamesType(t: TypeTag)
    ensures var r := CheckCallbackOperationType(NotCallable(t));
            r.Fail? && r.error.InvalidVoiceCommandCallbackType? &&
            r.error.message == Constants.InvalidVoiceCallbackPrefix + TypeOf(t)
  {
    var m := Constants.CommandVoiceInvalidCallbackTypeErrorMessage(TypeOf(t));
    assert m == m[..|Constants.InvalidVoiceCallbackPrefix|] + m[|Constants.InvalidVoiceCallbackPrefix|..];
  }

  /**
   * The `onresult` handler up to the dispatch: transcript, pipeline, lookup, type check.
   * A dispatch is made only for a text the table maps to a callback, and that text is the
   * pipeline's output for the latest transcript.
   */
  function ResolveResult(results: seq<seq<string>>, middlewares: seq<Middlewares.Stage>,
                         commandsMapping: Option<map<string, CommandValue>>): (r: Result<Dispatch, Err>)
    ensures LastTranscript(results).Failure? ==> r == Failure(TypeError)
    ensures LastTranscript(results).Success? && Middlewares.Apply(LastTranscript(results).value, middlewares).Failure? ==>
              r == Failure(Middlewares.Apply(LastTranscript(results).value, middlewares).error) &&
              r.error.InvalidMiddleware?
    ensures r.Success? ==>
              LastTranscript(results).Success? &&
              Middlewares.Apply(LastTranscript(results).value, middlewares) == Success(r.value.text) &&
              commandsMapping.Some? && r.value.text in commandsMapping.value &&
              commandsMapping.value[r.value.text] == Callable(r.value.callback)
  {
    match LastTranscript(results)
    case Failure(e) => Failure(e)
    case Success(t) =>
      match Middlewares.Apply(t, middlewares)
      case Failure(e) => Failure(e)
      case Success(key) =>
        match FindCommand(commandsMapping, key)
        case Failure(e) => Failure(e)
        case Success(v) =>
          match CheckCallbackOperationType(v)
          case Fail(e) => Failure(e)
          case Pass => Success(Dispatch(v.callback, key))
  }

  /** A text absent from the table raises VoiceCommandNotFound carrying that text; nothing is dispatched. */
  lemma MissRaisesNotFound(results: seq<seq<string>>, middlewares: seq<Middlewares.Stage>,
                           mapping: map<string, CommandValue>, key: string)
    requires LastTranscript(results).Success?
    requires Middlewares.Apply(LastTranscript(results).value, middlewares) == Success(key)
    requires key !in mapping
    ensures ResolveResult(results, middlewares, Some(mapping)) ==
              Failure(VoiceCommandNotFound(Constants.CommandVoiceNotFoundMessage(key)))
  {
  }

  /** A hit on a value that is not a function raises the invalid-type error; nothing is dispatched. */
  lemma NonFunctionRaisesInvalidType(results: seq<seq<string>>, middlewares: seq<Middlewares.Stage>,
                                     mapping: map<string, CommandValue>, key: string)
    requires LastTranscript(results).Success?
    requires Middlewares.Apply(LastTranscript(results).value, middlewares) == Success(key)
    requires key in mapping && mapping[key].NotCallable?
    ensures ResolveResult(results, middlewares, Some(mapping)) ==
              Failure(InvalidVoiceCommandCallbackType(
                Constants.CommandVoiceInvalidCallbackTypeErrorMessage(TypeOf(mapping[key].tag))))
  {
  }

  /** A hit on a callback dispatches that callback once, with the transformed text. */
  lemma HitDispatches(results: seq<seq<string>>, middlewares: seq<Middlewares.Stage>,
                      mapping: map<string, CommandValue>, key: string)
    requires LastTranscript(results).Success?
    requires Middlewares.Apply(LastTranscript(results).value, middlewares) == Success(key)
    requires key in mapping && mapping[key].Callable?
    ensures ResolveResult(results, middlewares, Some(mapping)) == Success(Dispatch(mapping[key].callback, key))
  {
  }

  /** The `onerror` handler: `'not-allowed'` becomes DeniedMicPermission, any other code is passed on raw. */
  function MapEngineError(code: string): (r: Reported)
    ensures code == Constants.DeniedPermissionError <==>
              r == Structured(DeniedMicPermission(Constants.DeniedPermissionMessage))
    ensures code != Constants.DeniedPermissionError ==> r == Raw(code)
  {
    if code == Constants.DeniedPermissionError then Structured(DeniedMicPermission(Constants.DeniedPermissionMessage))
    else Raw(code)
  }

  /**
   * The closure `VoiceCommand(commandParams)` returns. Its handlers are the methods On*;
   * they act on whatever `recognitionInstance` currently holds.
   */
  class VoiceCommand {
    const host: Host
    const continuous: bool
    const lang: string
    const commandsMapping: Option<map<string, CommandValue>>
    const debounceDelay: nat
    const middlewares: seq<Middlewares.Stage>
    var keepListening: bool
    /** `recognitionInstance`; null while still undefined. */
    var instance: Recognizer?
    /** Calls of onStart, onEnd and onError, in order. */
    var notices: seq<Notice>
    /** Callbacks handed to a fresh debounce wrapper with its delay, one per successful result. */
    var dispatched: seq<Scheduled>

    /** The current engine carries the session's configuration. */
    ghost predicate Valid()
      reads this, instance
    {
      instance != null ==> instance.continuous == continuous && !instance.interimResults && instance.lang == lang
    }

    constructor (host: Host, params: CommandParams)
      ensures Valid()
      ensures this.host == host
      ensures continuous == params.continuous.GetOr(true) && lang == params.lang.GetOr("pt-BR")
      ensures commandsMapping == params.commandsMapping && debounceDelay == params.debounceDelay.GetOr(50)
      ensures keepListening == params.keepListening.GetOr(true) && middlewares == params.middlewares.GetOr([])
      ensures instance == null && notices == [] && dispatched == []
    {
      this.host := host;
      continuous := params.continuous.GetOr(true);
      lang := params.lang.GetOr("pt-BR");
      commandsMapping := params.commandsMapping;
      debounceDelay := params.debounceDelay.GetOr(50);
      keepListening := params.keepListening.GetOr(true);
      middlewares := params.middlewares.GetOr([]);
      instance := null;
      notices := [];
      dispatched := [];
    }

    /**
     * listenVoiceCommand: createInstance (guards, construction, configuration), handler
     * wiring, then one `start()`. A failed build throws and leaves the instance as it was.
     */
    method ListenVoiceCommand() returns (r: Outcome<Err>)
      requires Valid()
      modifies this`instance
      ensures Valid()
      ensures r == SpeechRecognitionBuilder.BuildSpeechRecognition(host)
      ensures r.Fail? ==> instance == old(instance)
      ensures r.Pass? ==> fresh(instance) && instance.calls == [StartCall]
    {
      r := SpeechRecognitionBuilder.BuildSpeechRecognition(host);
      if r.Fail? {
        return;
      }
      var rec := new Recognizer();
      rec.continuous := continuous;
      rec.interimResults := false;
      rec.lang := lang;
      instance := rec;
      rec.Start();
    }

    /**
     * `onresult`: on success the command's callback goes to `debounce(commandCallback,
     * DEBOUNCE_DELAY)`, a wrapper made for this result alone, so results never coalesce.
     * Any failure is thrown out of the handler and nothing is dispatched.
     */
    method OnResult(results: seq<seq<string>>) returns (r: Outcome<Err>)
      requires instance != null
      modifies this`dispatched
      ensures var res := ResolveResult(results, middlewares, commandsMapping);
              (r.Pass? <==> res.Success?) &&
              (res.Failure? ==> r == Fail(res.error) && dispatched == old(dispatched)) &&
              (res.Success? ==> dispatched == old(dispatched) + [Scheduled(res.value, debounceDelay)])
    {
      var res := ResolveResult(results, middlewares, commandsMapping);
      match res
      case Failure(e) =>
        r := Fail(e);
      case Success(d) =>
        dispatched := dispatched + [Scheduled(d, debounceDelay)];
        r := Pass;
    }

    /** `onstart`: calls onStart. */
    method OnStart()
      requires instance != null
      modifies this`notices
      ensures notices == old(notices) + [StartCallback]
    {
      notices := notices + [StartCallback];
    }

    /** `onerror`: calls onError with the mapped report. */
    method OnError(code: string)
      requires instance != null
      modifies this`notices
      ensures notices == old(notices) + [ErrorCallback(MapEngineError(code))]
    {
      notices := notices + [ErrorCallback(MapEngineError(code))];
    }

    /** `onend`: restarts the current instance iff `keepListening`, then calls onEnd. */
    method OnEnd()
      requires Valid() && instance != null
      modifies this`notices, instance
      ensures Valid()
      ensures instance.calls == old(instance.calls) + (if keepListening then [StartCall] else [])
      ensures notices == old(notices) + [EndCallback]
    {
      if keepListening {
        instance.Start();
      }
      notices := notices + [EndCallback];
    }

    /**
     * stopListening: clears `keepListening` for good, then `stop()`. Before any listen the
     * instance is undefined and the call throws, after the flag is already cleared.
     */
    method StopListening() returns (r: Outcome<Err>)
      requires Valid()
      modifies this`keepListening, instance
      ensures Valid()
      ensures !keepListening
      ensures old(instance) == null ==> r == Fail(TypeError)
      ensures old(instance) != null ==> r == Pass && instance.calls == old(instance.calls) + [StopCall]
    {
      keepListening := false;
      if instance == null {
        return Fail(TypeError);
      }
      instance.Stop();
      r := Pass;
    }
  }
}
