/**
 * The error conditions the modelled code throws or reports, as one datatype. The
 * repository's Error subclasses only fix a `name` and carry a `message`; here each is a
 * constructor. `TypeError` and `ReferenceError` are the host's own runtime errors.
 */
module Errors {
  import opened Wrappers

  datatype Err =
    | VoiceCommandNotFound(message: string)
    | InvalidVoiceCommandCallbackType(message: string)
    | DeniedMicPermission(message: string)
    | InvalidLangCode
    | InvalidMiddleware(index: nat)
    | UnsupportedEnvironment
    | UnsupportedRecognition
    | UnsupportedSynthesis
    | TypeError
    | ReferenceError

  const BrowserOnlyMessage: string := "This module is only supported on browsers."
  const RecognitionUnsupportedMessage: string := "Speech Recognition API not supported in this browser."
  const SynthesisUnsupportedMessage: string := "Speech Synthesis interface is not supported in this browser."
  const MiddlewarePrefix: string := "Invalid middleware at index "
  const MiddlewareSuffix: string := ", it should be a function"

  /** The message a thrown error carries; `None` where the host chooses it. */
  function Message(e: Err): (r: Option<string>)
    ensures r.None? <==> e.InvalidLangCode? || e.TypeError? || e.ReferenceError?
    ensures (e.VoiceCommandNotFound? || e.InvalidVoiceCommandCallbackType? || e.DeniedMicPermission?) ==>
              r == Some(e.message)
    ensures e.InvalidMiddleware? ==> r == Some(MiddlewarePrefix + NatToString(e.index) + MiddlewareSuffix)
  {
    match e
    case VoiceCommandNotFound(m) => Some(m)
    case InvalidVoiceCommandCallbackType(m) => Some(m)
    case DeniedMicPermission(m) => Some(m)
    case InvalidLangCode => None
    case InvalidMiddleware(i) => Some(MiddlewarePrefix + NatToString(i) + MiddlewareSuffix)
    case UnsupportedEnvironment => Some(BrowserOnlyMessage)
    case UnsupportedRecognition => Some(RecognitionUnsupportedMessage)
    case UnsupportedSynthesis => Some(SynthesisUnsupportedMessage)
    case TypeError => None
    case ReferenceError => None
  }

  function DigitChar(d: nat): (c: char)
    requires d < 10
    ensures '0' <= c <= '9' && c as int - '0' as int == d
  {
    ('0' as int + d) as char
  }

  predicate IsDigits(s: string) {
    forall k :: 0 <= k < |s| ==> '0' <= s[k] <= '9'
  }

  /** Decimal rendering of a natural number, as a template literal renders it. */
  function NatToString(n: nat): (s: string)
    ensures |s| > 0 && IsDigits(s)
    decreases n
  {
    if n < 10 then [DigitChar(n)] else NatToString(n / 10) + [DigitChar(n % 10)]
  }

  /** Reads a string of decimal digits back as a number. */
  function ParseDecimal(s: string): nat
    requires IsDigits(s)
    decreases |s|
  {
    if s == [] then 0
    else 10 * ParseDecimal(s[..|s| - 1]) + (s[|s| - 1] as int - '0' as int)
  }

  lemma {:induction false} ParseNatToString(n: nat)
    ensures ParseDecimal(NatToString(n)) == n
    decreases n
  {
    var s := NatToString(n);
    if n >= 10 {
      ParseNatToString(n / 10);
      assert s[..|s| - 1] == NatToString(n / 10);
    } else {
      assert s[..|s| - 1] == [];
    }
  }

  /** The message of an invalid-middleware error names the offending index: distinct indices, distinct messages. */
  lemma {:induction false} MiddlewareMessageNamesIndex(i: nat, j: nat)
    requires Message(InvalidMiddleware(i)) == Message(InvalidMiddleware(j))
    ensures i == j
  {
    var m := MiddlewarePrefix + NatToString(i) + MiddlewareSuffix;
    var m' := MiddlewarePrefix + NatToString(j) + MiddlewareSuffix;
    assert m == m';
    var lo, hi := |MiddlewarePrefix|, |m| - |MiddlewareSuffix|;
    assert m[lo..hi] == NatToString(i);
    assert m'[lo..hi] == NatToString(j);
    ParseNatToString(i);
    ParseNatToString(j);
  }
}
