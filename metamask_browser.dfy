/**
 * detectMetaMaskBrowser and the useIsMetaMaskBrowser hook
 * (src/components/useIsMetaMaskBrowser.ts): the MetaMask in-app browser has
 * both "MetaMask" in its user agent and an injected provider whose
 * isMetaMask is exactly true.
 */
module MetaMaskBrowser {
  import opened Wrappers
  import opened Js
  import opened BrowserEnv
  import Web3Session

  /** `navigator?.userAgent || ''`. */
  function UserAgentOrEmpty(userAgent: Option<string>): string {
    if userAgent.Some? then userAgent.value else ""
  }

  /** detectMetaMaskBrowser, given the user agent and window.ethereum. */
  function DetectMetaMaskBrowser(userAgent: Option<string>, ethereum: Option<Injected>): (r: bool)
    ensures r <==> Contains(UserAgentOrEmpty(userAgent), "MetaMask") && ethereum.Some? && ethereum.value.isMetaMask.IsTrue()
  {
    var isMetaMaskUserAgent := Contains(UserAgentOrEmpty(userAgent), "MetaMask");
    var hasMetaMaskProvider := ethereum.Some? && ethereum.value.isMetaMask == Bool(true);
    isMetaMaskUserAgent && hasMetaMaskProvider
  }

  /** A missing user agent reads as "" and so never passes. */
  lemma MissingUserAgentIsNotMetaMask(ethereum: Option<Injected>)
    ensures !DetectMetaMaskBrowser(None, ethereum)
  {
    assert !OccursAt("", "MetaMask", 0);
  }

  /**
   * The flag must be the boolean true: a provider whose isMetaMask is some
   * other truthy value lets connect("metamask") proceed, but is not the
   * MetaMask browser.
   */
  lemma TruthyIsNotEnough(userAgent: Option<string>, ethereum: Injected)
    requires ethereum.isMetaMask.OtherValue? && ethereum.isMetaMask.truthy
    ensures Web3Session.Detected(ethereum, Web3Session.MetaMask)
    ensures !DetectMetaMaskBrowser(userAgent, Some(ethereum))
  {
  }

  /** useIsMetaMaskBrowser: false until its effect has run, then the detector's answer. */
  function UseIsMetaMaskBrowser(detectedIn: Option<(Option<string>, Option<Injected>)>): (r: bool)
    ensures detectedIn.None? ==> !r
    ensures detectedIn.Some? ==> (r <==> DetectMetaMaskBrowser(detectedIn.value.0, detectedIn.value.1))
  {
    if detectedIn.None? then false else DetectMetaMaskBrowser(detectedIn.value.0, detectedIn.value.1)
  }
}
