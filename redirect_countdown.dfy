/**
 * RequireWalletNoti (src/components/requireWalletNoti.tsx): without a
 * connected account it counts down from 5, one interval tick per second,
 * and then replaces the route with "/"; with an account it renders its
 * children. Ticks and the zero-delay redirect timeout are steps the
 * environment takes; real time is not modelled.
 */
module RedirectCountdown {
  import opened Wrappers
  import opened Js

  /** useState(5). */
  const Start := 5

  /**
   * The timer state: the countdown, isMountedRef.current, whether the
   * interval is armed, and whether the redirect timeout is pending.
   */
  datatype Clock = Clock(countdown: int, mounted: bool, ticking: bool, redirectPending: bool)

  /**
   * One interval callback. Unmounted: clear the interval and change nothing
   * else. Otherwise the state updater: at 1 or below, clear the interval,
   * schedule the redirect and set 0; above 1, count down by one. A cleared
   * interval fires no more: the step is then the identity.
   */
  function TickStep(c: Clock): (d: Clock)
    ensures d.mounted == c.mounted
    ensures c.ticking && c.mounted && c.countdown > 1 ==> d == c.(countdown := c.countdown - 1)
    ensures c.ticking && c.mounted && c.countdown <= 1 ==>
      d == c.(countdown := 0, ticking := false, redirectPending := true)
    ensures c.ticking && !c.mounted ==> d == c.(ticking := false)
    ensures !c.ticking ==> d == c
  {
    if !c.ticking then c
    else if !c.mounted then c.(ticking := false)
    else if c.countdown <= 1 then c.(countdown := 0, ticking := false, redirectPending := true)
    else c.(countdown := c.countdown - 1)
  }

  /** k interval callbacks in a row. */
  function Ticks(c: Clock, k: nat): Clock {
    if k == 0 then c else TickStep(Ticks(c, k - 1))
  }

  /** A tick never makes the countdown negative. */
  lemma TickKeepsCountdownNatural(c: Clock)
    requires c.countdown >= 0
    ensures TickStep(c).countdown >= 0
  {
  }

  /** Only the tick that reaches 0 schedules the redirect, and that tick also stops the interval. */
  lemma OnlyZeroTickRedirects(c: Clock)
    requires !c.redirectPending && TickStep(c).redirectPending
    ensures c.ticking && c.mounted && c.countdown <= 1
    ensures TickStep(c).countdown == 0 && !TickStep(c).ticking
  {
  }

  /**
   * From a mounted, armed countdown of n >= 1 with no redirect pending, the
   * first n - 1 ticks count down without scheduling anything, and tick n
   * reaches 0, stops the interval and schedules the redirect.
   */
  lemma {:induction false} TicksCountDown(c: Clock, k: nat)
    requires c.mounted && c.ticking && !c.redirectPending && c.countdown >= 1
    requires k <= c.countdown
    ensures k < c.countdown ==> Ticks(c, k) == c.(countdown := c.countdown - k)
    ensures k == c.countdown ==> Ticks(c, k) == c.(countdown := 0, ticking := false, redirectPending := true)
  {
    if k > 0 {
      TicksCountDown(c, k - 1);
    }
  }

  /** Once the interval is cleared, further ticks change nothing. */
  lemma {:induction false} StoppedStaysStopped(c: Clock, k: nat)
    requires !c.ticking
    ensures Ticks(c, k) == c
  {
    if k > 0 {
      StoppedStaysStopped(c, k - 1);
    }
  }

  /** Starting from 5, the fifth tick is the one that schedules the redirect. */
  lemma FifthTickRedirects(c: Clock)
    requires c == Clock(Start, true, true, false)
    ensures forall k :: 0 <= k < Start ==> !Ticks(c, k).redirectPending && Ticks(c, k).countdown == Start - k
    ensures Ticks(c, Start) == Clock(0, true, false, true)
  {
    forall k | 0 <= k < Start ensures !Ticks(c, k).redirectPending && Ticks(c, k).countdown == Start - k {
      TicksCountDown(c, k);
    }
    TicksCountDown(c, Start);
  }

  /** The notice's "second"/"seconds". */
  function SecondsWord(countdown: int): (w: string)
    ensures w == "second" <==> countdown == 1
    ensures w == "seconds" <==> countdown != 1
  {
    "second" + (if countdown != 1 then "s" else "")
  }

  /** The countdown line of the notice. */
  function NoticeText(countdown: int): string {
    "Redirecting automatically in " + IntToString(countdown) + " " + SecondsWord(countdown) + "..."
  }

  datatype View = Children | Notice(text: string)

  /** One RequireWalletNoti instance with its effect. */
  class RequireWalletNoti {
    var account: Option<string>
    var countdown: int
    var mounted: bool
    var ticking: bool
    var redirectPending: bool
    /** The router.replace calls made, in order. */
    var navigations: seq<string>

    function State(): Clock
      reads this
    {
      Clock(countdown, mounted, ticking, redirectPending)
    }

    ghost predicate Valid()
      reads this
    {
      countdown >= 0 && forall k :: 0 <= k < |navigations| ==> navigations[k] == "/"
    }

    /** Mounting and the first run of the effect: an interval only without an account. */
    constructor (account: Option<string>)
      ensures Valid()
      ensures this.account == account && State() == Clock(Start, true, !Truthy(account), false)
      ensures navigations == []
    {
      this.account := account;
      countdown := Start;
      mounted := true;
      ticking := !(account.Some? && account.value != "");
      redirectPending := false;
      navigations := [];
    }

    /** The interval callback (fires only while the interval is armed). */
    method Tick()
      requires Valid() && ticking
      modifies this
      ensures Valid()
      ensures State() == TickStep(old(State()))
      ensures account == old(account) && navigations == old(navigations)
    {
      if !mounted {
        ticking := false;
        return;
      }
      if countdown <= 1 {
        ticking := false;
        redirectPending := true;
        countdown := 0;
      } else {
        countdown := countdown - 1;
      }
    }

    /** The zero-delay timeout scheduled by the last tick: redirect home if still mounted. */
    method RunRedirectTimeout()
      requires Valid() && redirectPending
      modifies this
      ensures Valid()
      ensures State() == old(State()).(redirectPending := false)
      ensures navigations == if old(mounted) then old(navigations) + ["/"] else old(navigations)
      ensures account == old(account)
    {
      redirectPending := false;
      if mounted {
        navigations := navigations + ["/"];
      }
    }

    /** The effect's cleanup on unmount: clear the interval, mark unmounted. */
    method Unmount()
      requires Valid()
      modifies this
      ensures Valid()
      ensures State() == old(State()).(mounted := false, ticking := false)
      ensures account == old(account) && navigations == old(navigations)
    {
      ticking := false;
      mounted := false;
    }

    /**
     * A new account value: the old effect is cleaned up and the effect runs
     * again. The countdown state is kept, not reset to 5.
     */
    method AccountChanged(newAccount: Option<string>)
      requires Valid()
      modifies this
      ensures Valid()
      ensures account == newAccount
      ensures State() == old(State()).(mounted := true, ticking := !Truthy(newAccount))
      ensures navigations == old(navigations)
    {
      ticking := false;
      mounted := false;
      account := newAccount;
      mounted := true;
      ticking := !(newAccount.Some? && newAccount.value != "");
    }

    /** The "Back to Home Page to Login" button: an immediate replace with "/". */
    method BackToHome()
      requires Valid()
      modifies this`navigations
      ensures Valid()
      ensures navigations == old(navigations) + ["/"]
    {
      navigations := navigations + ["/"];
    }

    /** What the component renders: the children with an account, else the notice. */
    function Render(): (v: View)
      reads this
      ensures v.Children? <==> Truthy(account)
      ensures v.Notice? ==> v.text == NoticeText(countdown)
    {
      if account.Some? && account.value != "" then Children else Notice(NoticeText(countdown))
    }
  }

  /** With an account, no interval runs and the children are shown. */
  method MountWithAccount(account: string) returns (notice: RequireWalletNoti)
    requires account != ""
    ensures fresh(notice) && notice.Valid()
    ensures !notice.ticking && notice.Render() == Children
  {
    notice := new RequireWalletNoti(Some(account));
  }

  /** Without an account, five ticks then the timeout lead to exactly one redirect to "/". */
  method CountDownToRedirect() returns (notice: RequireWalletNoti)
    ensures fresh(notice) && notice.Valid()
    ensures notice.countdown == 0 && !notice.ticking && !notice.redirectPending
    ensures notice.navigations == ["/"]
  {
    notice := new RequireWalletNoti(None);
    var start := notice.State();
    TicksCountDown(start, Start);
    notice.Tick();
    notice.Tick();
    notice.Tick();
    notice.Tick();
    assert notice.State() == Ticks(start, 4);
    notice.Tick();
    notice.RunRedirectTimeout();
  }
}
