/**
  WalkOfShameView: a 15-second countdown beside a text field; typing the
  challenge sentence exactly unlocks everything for 15 minutes.
 */
module Shame {
  import opened Wrappers
  import opened Blocking

  const ChallengeText := "I am choosing to scroll instead of growing stronger."
  const CountdownSeconds := 15

  /** The countdown's state: seconds left and whether it is running. */
  datatype Countdown = Countdown(remaining: int, active: bool)

  /** One tick of the one-second timer. */
  function Tick(c: Countdown): Countdown
  {
    if !c.active then c
    else if c.remaining > 0 then c.(remaining := c.remaining - 1)
    else c.(active := false)
  }

  function Ticks(c: Countdown, n: nat): Countdown
    decreases n
  {
    if n == 0 then c else Ticks(Tick(c), n - 1)
  }

  /** A tick never takes the count below zero, and a stopped countdown never changes. */
  lemma TickBounds(c: Countdown)
    ensures c.remaining >= 0 ==> Tick(c).remaining >= 0
    ensures Tick(c).remaining == c.remaining - 1 || Tick(c).remaining == c.remaining
    ensures !c.active ==> Tick(c) == c
    ensures c.active && c.remaining == 0 ==> !Tick(c).active
  {
  }

  /**
    From `r` seconds and running, `n` ticks leave `r - n` seconds while `n <= r`,
    after which the countdown stops at zero for good.
   */
  lemma {:induction false} TicksFrom(r: nat, n: nat)
    ensures Ticks(Countdown(r, true), n) == if n <= r then Countdown(r - n, true) else Countdown(0, false)
  {
    if n > 0 {
      if r > 0 {
        TicksFrom(r - 1, n - 1);
      } else {
        StoppedStaysStopped(n - 1);
      }
    }
  }

  lemma {:induction false} StoppedStaysStopped(n: nat)
    ensures Ticks(Countdown(0, false), n) == Countdown(0, false)
  {
    if n > 0 {
      StoppedStaysStopped(n - 1);
    }
  }

  /** A fresh countdown reaches zero after 15 ticks and stops on the 16th. */
  lemma FullCountdown()
    ensures Ticks(Countdown(CountdownSeconds, true), 15) == Countdown(0, true)
    ensures Ticks(Countdown(CountdownSeconds, true), 16) == Countdown(0, false)
  {
    TicksFrom(15, 15);
    TicksFrom(15, 16);
  }

  class WalkOfShameView {
    var inputText: string
    var timeRemaining: int
    var timerActive: bool
    var showFailAlert: bool
    var dismissed: bool
    const blocking: BlockingManager

    function Clock(): Countdown
      reads this
    {
      Countdown(timeRemaining, timerActive)
    }

    constructor (blocking: BlockingManager)
      ensures inputText == "" && Clock() == Countdown(CountdownSeconds, false)
      ensures !showFailAlert && !dismissed && this.blocking == blocking
    {
      inputText := "";
      timeRemaining := CountdownSeconds;
      timerActive := false;
      showFailAlert := false;
      dismissed := false;
      this.blocking := blocking;
    }

    /** `startTimer` (on appear): 15 seconds, running, empty input. */
    method StartTimer()
      modifies this
      ensures Clock() == Countdown(CountdownSeconds, true) && inputText == ""
      ensures showFailAlert == old(showFailAlert) && dismissed == old(dismissed)
    {
      timeRemaining := CountdownSeconds;
      timerActive := true;
      inputText := "";
    }

    /** The timer publisher's tick. */
    method OnTick()
      modifies this
      ensures Clock() == Tick(old(Clock()))
      ensures inputText == old(inputText) && showFailAlert == old(showFailAlert) && dismissed == old(dismissed)
    {
      if timerActive {
        if timeRemaining > 0 {
          timeRemaining := timeRemaining - 1;
        } else {
          timerActive := false;
        }
      }
    }

    /** The text field bound to `inputText`. */
    method Type(text: string)
      modifies this
      ensures inputText == text && Clock() == old(Clock())
      ensures showFailAlert == old(showFailAlert) && dismissed == old(dismissed)
    {
      inputText := text;
    }

    /**
      `validateInput`: the exact challenge sentence unlocks everything for
      15 minutes and dismisses; anything else raises the failure alert. The
      countdown is not consulted, so the unlock works after it has run out.
     */
    method ValidateInput(now: int, accepted: bool)
      modifies this, blocking, blocking.store, blocking.center, blocking.defaults
      ensures Clock() == old(Clock()) && inputText == old(inputText)
      ensures if old(inputText) == ChallengeText
              then dismissed && showFailAlert == old(showFailAlert) && SessionStarted(blocking, 15, None, now, accepted)
              else showFailAlert && dismissed == old(dismissed) && Untouched(blocking)
    {
      if inputText == ChallengeText {
        DefaultIsFifteenMinutes();
        blocking.UnblockTemporarily(DefaultUnblockSeconds, None, now, accepted);
        dismissed := true;
      } else {
        showFailAlert := true;
      }
    }
  }
}
