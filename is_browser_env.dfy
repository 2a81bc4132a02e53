/** src/utils/isBrowserEnv.js */
module IsBrowserEnv {
  import opened Wrappers
  import opened Errors
  import opened HostEnv

  /** checkEnvironmentSupport: throws the browser-only error exactly when `window` is undefined. */
  function CheckEnvironmentSupport(h: Host): (r: Outcome<Err>)
    ensures r.Fail? <==> !h.hasWindow
    ensures r.Fail? ==> r.error == UnsupportedEnvironment
    ensures r.Fail? ==> Message(r.error) == Some("This module is only supported on browsers.")
  {
    if !h.hasWindow then Fail(UnsupportedEnvironment) else Pass
  }

  /** The guard looks at `window` only: hosts that agree on it agree on the outcome. */
  lemma EnvironmentDependsOnWindowOnly(h: Host, h': Host)
    requires h.hasWindow == h'.hasWindow
    ensures CheckEnvironmentSupport(h) == CheckEnvironmentSupport(h')
  {
  }
}
