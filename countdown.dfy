/** The game clock: a countdown of whole seconds that ends the game. */
module Countdown {

  /** The number of seconds a session lasts. */
  const GameDuration: int := 60

  /** The part of the session the clock reads and writes. */
  datatype Clock = Clock(seconds: int, ended: bool)

  /** The timer text: empty until the first tick writes it. */
  datatype Readout = Blank | Seconds(value: int)

  /** One firing of the interval: nothing once the game has ended,
      otherwise one second less, and the end of the game when no time is left. */
  function TickClock(c: Clock): Clock {
    if c.ended then c
    else
      var left := c.seconds - 1;
      Clock(left, left <= 0)
  }

  /** The clock after `n` firings. */
  function Ticks(c: Clock, n: nat): Clock
    decreases n
  {
    if n == 0 then c else Ticks(TickClock(c), n - 1)
  }

  /** An ended clock stays as it is. */
  lemma {:induction false} TicksAfterEnd(c: Clock, n: nat)
    requires c.ended
    ensures Ticks(c, n) == c
  {
    if n > 0 {
      TicksAfterEnd(TickClock(c), n - 1);
    }
  }

  /** A running clock with `s` seconds left counts down one per firing and
      stops at zero, ended, after `s` firings. */
  lemma {:induction false} TicksWhileRunning(s: int, n: nat)
    requires s > 0
    ensures Ticks(Clock(s, false), n) == if n < s then Clock(s - n, false) else Clock(0, true)
  {
    if n > 0 {
      if s == 1 {
        TicksAfterEnd(Clock(0, true), n - 1);
      } else {
        TicksWhileRunning(s - 1, n - 1);
      }
    }
  }

  /** Sixty firings from the start end the game with zero seconds left. */
  lemma FullCountdown()
    ensures Ticks(Clock(GameDuration, false), GameDuration) == Clock(0, true)
  {
    TicksWhileRunning(GameDuration, GameDuration);
  }

  /** A clock that is running with time left, or has ended with no negative
      time, never shows a negative number of seconds. */
  lemma NeverNegative(c: Clock, n: nat)
    requires c.seconds >= 0 && (!c.ended ==> c.seconds > 0)
    ensures Ticks(c, n).seconds >= 0
  {
    if c.ended {
      TicksAfterEnd(c, n);
    } else {
      TicksWhileRunning(c.seconds, n);
    }
  }
}
