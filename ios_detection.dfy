/**
 * isIOSDevice and the useIsIOS hook (src/components/useIsIOS.ts): four
 * tests over the platform and user-agent strings, tried in order.
 */
module IosDetection {
  import opened Wrappers
  import opened Js
  import opened BrowserEnv

  /** What the detector reads beyond the navigator: `'ontouchend' in document` and the truthiness of window.MSStream. */
  datatype Environment = Environment(navigator: Option<Navigator>, ontouchendInDocument: bool, msStream: bool)

  /** `navigator?.platform || ''`. */
  function Platform(env: Environment): string {
    if env.navigator.Some? && env.navigator.value.platform.Some? then env.navigator.value.platform.value else ""
  }

  /** `navigator?.userAgent || ''`. */
  function UserAgent(env: Environment): string {
    if env.navigator.Some? && env.navigator.value.userAgent.Some? then env.navigator.value.userAgent.value else ""
  }

  /** `navigator.maxTouchPoints > 1` (false when the property is undefined). */
  predicate MultiTouch(env: Environment) {
    env.navigator.Some? && env.navigator.value.maxTouchPoints.Some? && env.navigator.value.maxTouchPoints.value > 1
  }

  /** Test 1: a traditional iOS platform name. */
  predicate IOSPlatform(env: Environment) {
    Platform(env) in ["iPhone", "iPad", "iPod"]
  }

  /** Test 2: iPadOS reporting MacIntel with touch support. */
  predicate TouchMac(env: Environment) {
    Platform(env) == "MacIntel" && MultiTouch(env)
  }

  /** Test 3: an iPad user agent, or a Mac one in a document with touch events. */
  predicate IPadUserAgent(env: Environment) {
    Contains(UserAgent(env), "iPad") || (Contains(UserAgent(env), "Mac") && env.ontouchendInDocument)
  }

  /** Test 4: /iPad|iPhone|iPod/ matches the user agent and there is no MSStream. */
  predicate IOSSafari(env: Environment) {
    var ua := UserAgent(env);
    (Contains(ua, "iPad") || Contains(ua, "iPhone") || Contains(ua, "iPod")) && !env.msStream
  }

  /** isIOSDevice: the early returns, in order. */
  function IsIOSDevice(env: Environment): (r: bool)
    ensures r <==> IOSPlatform(env) || TouchMac(env) || IPadUserAgent(env) || IOSSafari(env)
  {
    var platform := Platform(env);
    var userAgent := UserAgent(env);
    if platform == "iPhone" || platform == "iPad" || platform == "iPod" then true
    else if platform == "MacIntel" && MultiTouch(env) then true
    else if Contains(userAgent, "iPad") || (Contains(userAgent, "Mac") && env.ontouchendInDocument) then true
    else if (Contains(userAgent, "iPad") || Contains(userAgent, "iPhone") || Contains(userAgent, "iPod")) && !env.msStream then true
    else false
  }

  /**
   * The iPad alternative of the final regex never decides anything: an
   * iPad user agent is already accepted by the third test, whatever MSStream is.
   */
  lemma IPadInRegexIsRedundant(env: Environment)
    ensures IsIOSDevice(env) <==>
      || IOSPlatform(env) || TouchMac(env) || IPadUserAgent(env)
      || ((Contains(UserAgent(env), "iPhone") || Contains(UserAgent(env), "iPod")) && !env.msStream)
  {
  }

  /** Without a navigator, the platform and user agent read as "" and nothing is iOS. */
  lemma NoNavigatorIsNotIOS(ontouchend: bool, msStream: bool)
    ensures !IsIOSDevice(Environment(None, ontouchend, msStream))
  {
    var env := Environment(None, ontouchend, msStream);
    assert UserAgent(env) == "";
    assert !OccursAt("", "iPad", 0);
    assert !Contains("", "iPad") && !Contains("", "Mac") && !Contains("", "iPhone") && !Contains("", "iPod");
  }

  /** An iPhone user agent without MSStream is iOS on any platform. */
  lemma IPhoneUserAgentIsIOS(env: Environment)
    requires Contains(UserAgent(env), "iPhone") && !env.msStream
    ensures IsIOSDevice(env)
  {
  }

  /** useIsIOS: false until its effect has run (env None), then what isIOSDevice answered. */
  function UseIsIOS(detectedIn: Option<Environment>): (r: bool)
    ensures detectedIn.None? ==> !r
    ensures detectedIn.Some? ==> (r <==> IsIOSDevice(detectedIn.value))
  {
    if detectedIn.None? then false else IsIOSDevice(detectedIn.value)
  }
}
