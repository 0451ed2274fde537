/** The countdown hook: a remaining-seconds counter and the handle of the
    interval that ticks it once a second (`running` when a handle is held).
    Ticks are explicit steps; only a live interval delivers them. */
module UseTimer {

  datatype TimerState = TimerState(timeLeft: int, running: bool)

  /** `startTimer`: with an interval already held nothing happens. */
  function Start(s: TimerState): TimerState
  {
    if s.running then s else TimerState(s.timeLeft, true)
  }

  /** One firing of the interval: at one second or less the counter is set to
      0 and the interval is cleared, otherwise it drops by one. */
  function Tick(s: TimerState): (r: TimerState)
    requires s.running
    ensures r.timeLeft >= 0
    ensures s.timeLeft >= 0 ==> r.timeLeft <= s.timeLeft
    ensures !r.running <==> s.timeLeft <= 1
  {
    if s.timeLeft <= 1 then TimerState(0, false) else TimerState(s.timeLeft - 1, true)
  }

  /** `stopTimer` (and the unmount cleanup): clear the interval if one is held. */
  function Stop(s: TimerState): TimerState
  {
    if s.running then TimerState(s.timeLeft, false) else s
  }

  /** `k` seconds of wall time: the interval fires while it is live. */
  function Run(s: TimerState, k: nat): TimerState
    decreases k
  {
    if k == 0 || !s.running then s else Run(Tick(s), k - 1)
  }

  /** Starting a running timer changes nothing, so at most one interval exists. */
  lemma StartWhileRunningIsNoOp(s: TimerState)
    requires s.running
    ensures Start(s) == s
  {
  }

  /** A tick above one second decrements by exactly one and keeps the interval. */
  lemma TickDecrements(s: TimerState)
    requires s.running && s.timeLeft > 1
    ensures Tick(s) == TimerState(s.timeLeft - 1, true)
  {
  }

  /** Stopping is idempotent, keeps the counter, and leaves the timer startable again. */
  lemma StopProperties(s: TimerState)
    ensures Stop(Stop(s)) == Stop(s)
    ensures Stop(s).timeLeft == s.timeLeft
    ensures !Stop(s).running
    ensures Start(Stop(s)) == TimerState(s.timeLeft, true)
  {
  }

  /** An expired timer can be started again. */
  lemma RestartAfterExpiry(s: TimerState)
    requires s.running && s.timeLeft <= 1
    ensures Start(Tick(s)) == TimerState(0, true)
  {
  }

  /** Over any number of seconds a non-negative counter never rises and never
      drops below zero. */
  lemma {:induction false} RunNeverIncreases(s: TimerState, k: nat)
    requires s.timeLeft >= 0
    ensures 0 <= Run(s, k).timeLeft <= s.timeLeft
    decreases k
  {
    if k > 0 && s.running {
      RunNeverIncreases(Tick(s), k - 1);
    }
  }

  /** Running from `n >= 1`, the first `k < n` ticks leave `n - k` and the
      interval live; the `n`-th tick reaches 0 and stops it, and nothing fires after. */
  lemma {:induction false} Countdown(n: int, k: nat)
    requires n >= 1
    ensures Run(TimerState(n, true), k) == if k < n then TimerState(n - k, true) else TimerState(0, false)
    decreases k
  {
    if k > 0 {
      if n == 1 {
        assert Run(TimerState(1, true), k) == Run(TimerState(0, false), k - 1);
      } else {
        Countdown(n - 1, k - 1);
      }
    }
  }

  /** The hook's state as a React component holds it. */
  class Timer {
    var timeLeft: int
    var running: bool

    function State(): TimerState
      reads this
    {
      TimerState(timeLeft, running)
    }

    /** `useTimer(initialTime)`: no interval yet. */
    constructor (initialTime: int)
      ensures State() == TimerState(initialTime, false)
    {
      timeLeft := initialTime;
      running := false;
    }

    method StartTimer()
      modifies this
      ensures State() == Start(old(State()))
    {
      if running {
        return;
      }
      running := true;
    }

    /** The interval callback; it only fires while the interval is held. */
    method OnTick()
      requires running
      modifies this
      ensures State() == Tick(old(State()))
    {
      if timeLeft <= 1 {
        running := false;
        timeLeft := 0;
      } else {
        timeLeft := timeLeft - 1;
      }
    }

    method StopTimer()
      modifies this
      ensures State() == Stop(old(State()))
    {
      if running {
        running := false;
      }
    }
  }
}
