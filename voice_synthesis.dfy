/** src/features/voiceSyntesis/index.js: the text-to-speech controller `VoiceSynthesizer`. */
module VoiceSynthesis {
  import opened Wrappers
  import opened Errors
  import opened HostEnv
  import opened Engine
  import Constants
  import Middlewares
  import SpeechSynthesisBuilder

  /** `voices.find(...)`: the first voice in list order that satisfies `matches`. */
  function Find(voices: seq<Voice>, matches: Voice -> bool): (r: Option<Voice>)
    ensures r.None? <==> forall k :: 0 <= k < |voices| ==> !matches(voices[k])
    ensures r.Some? ==> exists k :: 0 <= k < |voices| && voices[k] == r.value && matches(r.value) &&
                                     forall j :: 0 <= j < k ==> !matches(voices[j])
    decreases |voices|
  {
    if voices == [] then None
    else if matches(voices[0]) then Some(voices[0])
    else
      var r := Find(voices[1..], matches);
      assert forall k :: 0 < k < |voices| ==> voices[k] == voices[1..][k - 1];
      r
  }

  /** findVoiceByLangFn */
  function ByLang(lang: string): (f: Voice -> bool)
    ensures forall v: Voice :: f(v) <==> v.lang == lang
  {
    (v: Voice) => v.lang == lang
  }

  /** findVoiceByURI */
  function ByURI(voiceURI: string): (f: Voice -> bool)
    ensures forall v: Voice :: f(v) <==> v.voiceURI == voiceURI
  {
    (v: Voice) => v.voiceURI == voiceURI
  }

  /** The memo steers the choice only when truthy: set, and not the empty string. */
  predicate MemoTruthy(memo: Option<string>) {
    memo.Some? && Constants.Truthy(memo.value)
  }

  /**
   * getVoice without its memo update: no voice of the language throws InvalidLangCode;
   * otherwise the memo, when truthy, is looked up by URI, else the language is. A memo
   * absent from the list leaves `voice` undefined, and reading `voice.voiceURI` is a TypeError.
   */
  function ChooseVoice(voices: seq<Voice>, lang: string, memo: Option<string>): (r: Result<Voice, Err>)
    ensures Find(voices, ByLang(lang)).None? <==> r == Failure(InvalidLangCode)
    ensures r.Success? ==> r.value in voices
  {
    if Find(voices, ByLang(lang)).None? then Failure(InvalidLangCode)
    else
      var found := if MemoTruthy(memo) then Find(voices, ByURI(memo.value)) else Find(voices, ByLang(lang));
      match found
      case None => Failure(TypeError)
      case Some(v) => Success(v)
  }

  /**
   * getVoice as the file is written: the invalid-language branch evaluates
   * `CONSTANTS_SYNTHESIS.SYNTHESIS_INVALID_LANG_TYPE_ERROR_MESSAGE()`, but constantsValues.js
   * exports no such object; the bundled import reads `undefined`, so that branch throws a TypeError.
   */
  function ChooseVoiceAsWritten(voices: seq<Voice>, lang: string, memo: Option<string>): (r: Result<Voice, Err>)
    ensures Find(voices, ByLang(lang)).Some? ==> r == ChooseVoice(voices, lang, memo)
  {
    if Find(voices, ByLang(lang)).None? then
      (if Constants.SynthesisExportName in Constants.Exports then Failure(InvalidLangCode) else Failure(TypeError))
    else ChooseVoice(voices, lang, memo)
  }

  /** The discrepancy: with no voice of the language, the as-written path yields a TypeError, not InvalidLangCode. */
  lemma AsWrittenLosesInvalidLang(voices: seq<Voice>, lang: string, memo: Option<string>)
    requires forall k :: 0 <= k < |voices| ==> voices[k].lang != lang
    ensures ChooseVoiceAsWritten(voices, lang, memo) == Failure(TypeError)
    ensures ChooseVoice(voices, lang, memo) == Failure(InvalidLangCode)
  {
    assert Constants.SynthesisExportName !in Constants.Exports;
  }

  /** A concrete case: an `en-US` request against a list holding only `pt-BR`. */
  lemma AsWrittenExample()
    ensures ChooseVoiceAsWritten([Voice("pt-BR", "pt")], "en-US", None) == Failure(TypeError)
    ensures ChooseVoice([Voice("pt-BR", "pt")], "en-US", None) == Failure(InvalidLangCode)
  {
    AsWrittenLosesInvalidLang([Voice("pt-BR", "pt")], "en-US", None);
  }

  /** Without a memo the choice is the first voice, in list order, of the language. */
  lemma NoMemoPicksFirstOfLang(voices: seq<Voice>, lang: string, memo: Option<string>, k: nat)
    requires !MemoTruthy(memo)
    requires k < |voices| && voices[k].lang == lang
    requires forall j :: 0 <= j < k ==> voices[j].lang != lang
    ensures ChooseVoice(voices, lang, memo) == Success(voices[k])
  {
    FindFirst(voices, ByLang(lang), k);
  }

  /** With a memo (and some voice of the language), the choice is the first voice carrying that URI. */
  lemma MemoPicksFirstWithURI(voices: seq<Voice>, lang: string, memo: Option<string>, k: nat)
    requires MemoTruthy(memo)
    requires exists i :: 0 <= i < |voices| && voices[i].lang == lang
    requires k < |voices| && voices[k].voiceURI == memo.value
    requires forall j :: 0 <= j < k ==> voices[j].voiceURI != memo.value
    ensures ChooseVoice(voices, lang, memo) == Success(voices[k])
  {
    var i :| 0 <= i < |voices| && voices[i].lang == lang;
    assert ByLang(lang)(voices[i]);
    FindFirst(voices, ByURI(memo.value), k);
  }

  /** A memo no voice carries makes the choice fail with a TypeError. */
  lemma StaleMemoIsTypeError(voices: seq<Voice>, lang: string, memo: Option<string>)
    requires MemoTruthy(memo)
    requires exists i :: 0 <= i < |voices| && voices[i].lang == lang
    requires forall j :: 0 <= j < |voices| ==> voices[j].voiceURI != memo.value
    ensures ChooseVoice(voices, lang, memo) == Failure(TypeError)
  {
    var i :| 0 <= i < |voices| && voices[i].lang == lang;
    assert ByLang(lang)(voices[i]);
    assert forall j :: 0 <= j < |voices| ==> !ByURI(memo.value)(voices[j]);
  }

  lemma FindFirst(voices: seq<Voice>, matches: Voice -> bool, k: nat)
    requires k < |voices| && matches(voices[k])
    requires forall j :: 0 <= j < k ==> !matches(voices[j])
    ensures Find(voices, matches) == Some(voices[k])
  {
    var r := Find(voices, matches);
    var i :| 0 <= i < |voices| && voices[i] == r.value && matches(r.value) &&
             forall j :: 0 <= j < i ==> !matches(voices[j]);
    assert i <= k;
  }

  /**
   * The memo stabilises the choice: once a voice is chosen and memoised (the update at
   * getVoice's end), choosing again against the same list yields a voice with the same URI,
   * and from then on the very same voice.
   */
  lemma MemoStabilizes(voices: seq<Voice>, lang: string, memo: Option<string>)
    requires ChooseVoice(voices, lang, memo).Success?
    ensures var v := ChooseVoice(voices, lang, memo).value;
            var w := ChooseVoice(voices, lang, Some(v.voiceURI));
            w.Success? && w.value.voiceURI == v.voiceURI &&
            ChooseVoice(voices, lang, Some(w.value.voiceURI)) == w
  {
    var v := ChooseVoice(voices, lang, memo).value;
    if MemoTruthy(Some(v.voiceURI)) {
      var k :| 0 <= k < |voices| && voices[k] == v;
      assert ByURI(v.voiceURI)(voices[k]);
    }
  }

  /** The `syntesisParams` object; `None` is a property left undefined. */
  datatype SynthesisParams = SynthesisParams(lang: Option<string>, middlewares: Option<seq<Middlewares.Stage>>)

  /** setOnError: attaches the `error` listener that forwards to onError. */
  function SetOnError(u: Utterance): (u': Utterance)
    ensures u'.forwardsErrors
    ensures u'.text == u.text && u'.lang == u.lang && u'.voice == u.voice
  {
    u.(forwardsErrors := true)
  }

  /** The closure `VoiceSynthesizer(syntesisParams)` returns. */
  class VoiceSynthesizer {
    const host: Host
    /** The host's single `window.speechSynthesis` object. */
    const shared: SpeechSynth
    const lang: string
    const middlewares: seq<Middlewares.Stage>
    /** `speechSynthesisInstance`; null while still undefined. */
    var instance: SpeechSynth?
    /** `memoizedVoiceURI`; `None` while still undefined. */
    var memo: Option<string>

    constructor (host: Host, shared: SpeechSynth, params: SynthesisParams)
      ensures this.host == host && this.shared == shared
      ensures lang == params.lang.GetOr("pt-BR") && middlewares == params.middlewares.GetOr([])
      ensures instance == null && memo == None
    {
      this.host := host;
      this.shared := shared;
      lang := params.lang.GetOr("pt-BR");
      middlewares := params.middlewares.GetOr([]);
      instance := null;
      memo := None;
    }

    /** getVoice: the choice, then the memo is set to the chosen voice's URI. */
    method GetVoice(voices: seq<Voice>) returns (r: Result<Voice, Err>)
      modifies this`memo
      ensures r == ChooseVoice(voices, lang, old(memo))
      ensures memo == if r.Success? then Some(r.value.voiceURI) else old(memo)
    {
      r := ChooseVoice(voices, lang, memo);
      if r.Success? && memo != Some(r.value.voiceURI) {
        memo := Some(r.value.voiceURI);
      }
    }

    /** prepareText: the utterance holds the pipeline's output, the configured lang and the chosen voice. */
    method PrepareText(text: string, voices: seq<Voice>) returns (r: Result<Utterance, Err>)
      modifies this`memo
      ensures var t := Middlewares.Apply(text, middlewares);
              var v := ChooseVoice(voices, lang, old(memo));
              (t.Failure? ==> r == Failure(t.error) && memo == old(memo)) &&
              (t.Success? && v.Failure? ==> r == Failure(v.error) && memo == old(memo)) &&
              (t.Success? && v.Success? ==>
                 r == Success(Utterance(t.value, lang, v.value, false)) && memo == Some(v.value.voiceURI))
    {
      var t := Middlewares.Apply(text, middlewares);
      if t.Failure? {
        return Failure(t.error);
      }
      var v := GetVoice(voices);
      if v.Failure? {
        return Failure(v.error);
      }
      r := Success(Utterance(t.value, lang, v.value, false));
    }

    /**
     * speak: createInstance, prepareText, setOnError, then the engine's `speak`. The engine
     * is handed only an utterance whose error listener is already attached, and is not
     * called at all when any step before it throws.
     */
    method Speak(text: string, voices: seq<Voice>) returns (r: Outcome<Err>)
      modifies this`instance, this`memo, shared
      ensures var b := SpeechSynthesisBuilder.BuildSpeechSynthesis(host, shared);
              var t := Middlewares.Apply(text, middlewares);
              var v := ChooseVoice(voices, lang, old(memo));
              (b.Failure? ==> r == Fail(b.error) && instance == old(instance) && memo == old(memo)) &&
              (b.Success? ==> instance == shared) &&
              (b.Success? && t.Failure? ==> r == Fail(t.error) && memo == old(memo)) &&
              (b.Success? && t.Success? && v.Failure? ==> r == Fail(v.error) && memo == old(memo)) &&
              (r.Fail? ==> shared.calls == old(shared.calls)) &&
              (b.Success? && t.Success? && v.Success? ==>
                 r == Pass && memo == Some(v.value.voiceURI) &&
                 shared.calls == old(shared.calls) + [SpeakCall(Utterance(t.value, lang, v.value, true))])
    {
      var b := SpeechSynthesisBuilder.BuildSpeechSynthesis(host, shared);
      if b.Failure? {
        return Fail(b.error);
      }
      instance := b.value;
      var u := PrepareText(text, voices);
      if u.Failure? {
        return Fail(u.error);
      }
      var ready := SetOnError(u.value);
      shared.Speak(ready);
      r := Pass;
    }

    /** pauseSpeaking: forwards to the instance; before any speak it is undefined and the call throws. */
    method PauseSpeaking() returns (r: Outcome<Err>)
      modifies instance
      ensures instance == null ==> r == Fail(TypeError)
      ensures instance != null ==> r == Pass && instance.calls == old(instance.calls) + [PauseCall]
    {
      if instance == null {
        return Fail(TypeError);
      }
      instance.Pause();
      r := Pass;
    }

    /** resumeSpeaking: forwards to the instance; before any speak it is undefined and the call throws. */
    method ResumeSpeaking() returns (r: Outcome<Err>)
      modifies instance
      ensures instance == null ==> r == Fail(TypeError)
      ensures instance != null ==> r == Pass && instance.calls == old(instance.calls) + [ResumeCall]
    {
      if instance == null {
        return Fail(TypeError);
      }
      instance.Resume();
      r := Pass;
    }
  }
}
