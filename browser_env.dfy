/** The browser globals the client inspects, as values given to the model. */
module BrowserEnv {
  import opened Wrappers

  /** A property of window.ethereum as JavaScript sees it: missing, a boolean, or some other value. */
  datatype JsFlag = Absent | Bool(b: bool) | OtherValue(truthy: bool) {
    /** Whether `if (flag)` takes the branch. */
    predicate Truthy() {
      (Bool? && b) || (OtherValue? && truthy)
    }

    /** Whether `flag === true` holds. */
    predicate IsTrue() {
      this == Bool(true)
    }
  }

  /** window.ethereum, the injected provider, through its identification flags. */
  datatype Injected = Injected(isMetaMask: JsFlag, isCoinbaseWallet: JsFlag, isWalletConnect: JsFlag)

  /** window.navigator, through the properties the client reads (None: undefined). */
  datatype Navigator = Navigator(platform: Option<string>, userAgent: Option<string>, maxTouchPoints: Option<int>)
}
