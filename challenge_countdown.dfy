/** The countdown to the next daily-challenge reset on the challenge page:
    the hours/minutes/seconds split of a number of seconds, the value the
    timer starts from, and the one-second tick. */
module ChallengeCountdown {
  import opened Base

  /** The timer's value before the mount effect runs: one whole day. */
  const DaySeconds: int := 24 * 60 * 60

  /** `Math.floor(time / 3600)`: the hours shown. */
  function Hours(time: int): int
  {
    time / 3600
  }

  /** `calcMins`: the whole minutes left after the whole hours. */
  function CalcMins(time: int): (r: int)
    ensures 0 <= r <= 59
  {
    (time - Hours(time) * 3600) / 60
  }

  /** `calcSeconds`: the seconds left after the whole minutes. The dividend
      is never negative, so JavaScript's `%` agrees with the Euclidean one. */
  function CalcSeconds(time: int): (r: int)
    ensures 0 <= r <= 59
  {
    JsRem(time - Hours(time) * 3600, 60)
  }

  /** Hours, minutes and seconds put back together give the timer's value,
      for every integer, negative ones included. */
  lemma SplitRoundTrip(time: int)
    ensures Hours(time) * 3600 + CalcMins(time) * 60 + CalcSeconds(time) == time
  {
    var rest := time - Hours(time) * 3600;
    assert 0 <= rest < 3600;
    assert rest == (rest / 60) * 60 + rest % 60;
  }

  /** A timer below one hour shows zero hours and its own minutes and
      seconds. */
  lemma SplitBelowOneHour(time: int)
    requires 0 <= time < 3600
    ensures Hours(time) == 0 && CalcMins(time) == time / 60 && CalcSeconds(time) == time % 60
  {
  }

  /** `Math.floor((endOfDay - now) / 1000)` where `endOfDay` is the next local
      midnight, `startOfDay + MsPerDay` on a day without a clock change. */
  function InitialTimer(now: int, startOfDay: int): (r: int)
    requires startOfDay <= now < startOfDay + MsPerDay
    ensures 0 <= r <= DaySeconds
    ensures r * 1000 <= startOfDay + MsPerDay - now < (r + 1) * 1000
  {
    (startOfDay + MsPerDay - now) / 1000
  }

  /** One firing of the interval as written: the zero test reads `captured`,
      the timer value of the render that installed the interval, while the
      decrement reads the current value. */
  function WrittenTick(captured: int, timer: int): (r: int)
  {
    if captured == 0 then DaySeconds else timer - 1
  }

  /** `k` firings of the interval as written. */
  function WrittenTicks(captured: int, timer: int, k: nat): int
    decreases k
  {
    if k == 0 then timer else WrittenTicks(captured, WrittenTick(captured, timer), k - 1)
  }

  /** The interval is installed by the first render, where the timer still
      holds `DaySeconds`; from then on every firing subtracts one, without end
      and below zero. */
  lemma {:induction false} WrittenTicksNeverRestart(timer: int, k: nat)
    ensures WrittenTicks(DaySeconds, timer, k) == timer - k
    decreases k
  {
    if k > 0 {
      WrittenTicksNeverRestart(timer - 1, k - 1);
    }
  }

  /** The page's countdown state. */
  class Countdown {
    /** The `timer` state. */
    var timer: int
    /** The `timer` of the render whose effect installed the interval. */
    var captured: int
    /** How many times the refetch-and-restart branch has run. */
    var refetches: nat

    constructor ()
      ensures timer == DaySeconds && captured == DaySeconds && refetches == 0
    {
      timer := DaySeconds;
      captured := DaySeconds;
      refetches := 0;
    }

    /** The mount effect: the interval closes over the current `timer`, then
        the timer is set to the seconds left until midnight. */
    method Mount(now: int, startOfDay: int)
      requires startOfDay <= now < startOfDay + MsPerDay
      modifies this
      ensures captured == old(timer)
      ensures timer == InitialTimer(now, startOfDay)
      ensures refetches == old(refetches)
    {
      captured := timer;
      timer := InitialTimer(now, startOfDay);
    }

    /** One firing of the interval. */
    method Tick()
      modifies this
      ensures captured == old(captured)
      ensures timer == WrittenTick(captured, old(timer))
      ensures refetches == old(refetches) + (if captured == 0 then 1 else 0)
    {
      if captured == 0 {
        refetches := refetches + 1;
        timer := DaySeconds;
        return;
      }
      timer := timer - 1;
    }
  }

  /** Mounted one second before midnight, the timer reads 0 after one firing
      and -1 after the second, and the challenges are never refetched. */
  method CountdownGoesNegative() returns (afterOne: int, afterTwo: int, refetches: nat)
    ensures afterOne == 0 && afterTwo == -1 && refetches == 0
  {
    var c := new Countdown();
    c.Mount(MsPerDay - 1000, 0);
    c.Tick();
    afterOne := c.timer;
    c.Tick();
    afterTwo := c.timer;
    refetches := c.refetches;
  }

  /** The intended firing: the test reads the current timer, so the countdown
      restarts from a whole day when it reaches zero. */
  function NextTimer(timer: int): (r: int)
    ensures timer == 0 ==> r == DaySeconds
    ensures timer != 0 ==> r == timer - 1
  {
    WrittenTick(timer, timer)
  }

  /** `k` intended firings. */
  function NextTimers(timer: int, k: nat): int
    decreases k
  {
    if k == 0 then timer else NextTimers(NextTimer(timer), k - 1)
  }

  /** A timer within a day stays within a day at every firing. */
  lemma NextTimerInRange(timer: int)
    requires 0 <= timer <= DaySeconds
    ensures 0 <= NextTimer(timer) <= DaySeconds
  {
  }

  /** From `t`, the intended countdown reads `t - k` for the first `t`
      firings, so it reaches 0 exactly at midnight and never before. */
  lemma {:induction false} NextTimersCountDown(timer: int, k: nat)
    requires k <= timer
    ensures NextTimers(timer, k) == timer - k
    decreases k
  {
    if k > 0 {
      NextTimersCountDown(timer - 1, k - 1);
    }
  }

  /** One firing after reaching 0 the intended countdown starts a new day. */
  lemma NextTimersRestart(timer: nat)
    ensures NextTimers(timer, timer + 1) == DaySeconds
  {
    NextTimersAfter(timer, timer, 1);
    NextTimersCountDown(timer, timer);
  }

  lemma {:induction false} NextTimersAfter(timer: int, j: nat, k: nat)
    ensures NextTimers(timer, j + k) == NextTimers(NextTimers(timer, j), k)
    decreases j
  {
    if j > 0 {
      NextTimersAfter(NextTimer(timer), j - 1, k);
    }
  }

  /** Started within a day, the intended countdown stays within a day after
      any number of firings. */
  lemma {:induction false} NextTimersInRange(timer: int, k: nat)
    requires 0 <= timer <= DaySeconds
    ensures 0 <= NextTimers(timer, k) <= DaySeconds
    decreases k
  {
    if k > 0 {
      NextTimerInRange(timer);
      NextTimersInRange(NextTimer(timer), k - 1);
    }
  }

  /** The written and the intended firing agree except at zero. */
  lemma WrittenDiffersOnlyAtZero(timer: int)
    ensures WrittenTick(DaySeconds, timer) == NextTimer(timer) <==> timer != 0
  {
  }
}
