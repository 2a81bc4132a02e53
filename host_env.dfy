/** What the host offers: whether `window` exists and which speech globals it carries. */
module HostEnv {

  datatype Host = Host(
    hasWindow: bool,
    hasSpeechRecognition: bool,
    hasWebkitSpeechRecognition: bool,
    hasSpeechSynthesis: bool,
    hasUtterance: bool)
}
