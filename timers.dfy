/** The two interval-driven counters of the session: the pre-game countdown
    and the round timer, one tick at a time. */
module Timers {

  /** The value the pre-game countdown starts from. */
  const COUNTDOWN_START: int := 3

  /** The length of a round, in seconds. */
  const ROUND_SECONDS: int := 90

  /** The outcome of one tick: the counter's new value, and whether the tick
      fires its transition (startGame for the countdown, end of round for the
      round timer). */
  datatype Tick = Tick(next: int, fires: bool)

  /** One pre-game tick: the value always drops by one, and the tick whose
      previous value is 1 calls startGame (and clears its own interval). */
  function PreGameStep(prev: int): Tick
  {
    Tick(prev - 1, prev == 1)
  }

  /** How many of n consecutive pre-game ticks, starting at value c, call startGame. */
  function StartCalls(c: int, n: nat): nat
    decreases n
  {
    if n == 0 then 0
    else (if PreGameStep(c).fires then 1 else 0) + StartCalls(PreGameStep(c).next, n - 1)
  }

  /** The countdown calls startGame exactly once, on tick number c, however many
      intervals keep ticking the shared value afterwards. */
  lemma {:induction false} StartCalledOnce(c: int, n: nat)
    ensures StartCalls(c, n) == if 1 <= c <= n then 1 else 0
    decreases n
  {
    if n > 0 {
      StartCalledOnce(c - 1, n - 1);
    }
  }

  /** One round tick: an interval exists only while the round has started and
      time is left; it lowers the time by one, and reaching 0 ends the round. */
  function RoundStep(started: bool, t: int): Tick
  {
    if started && t > 0 then Tick(t - 1, t == 1) else Tick(t, false)
  }

  /** The time left after n round ticks of a started round. */
  function TimeLeftAfter(t: int, n: nat): int
    decreases n
  {
    if n == 0 then t else TimeLeftAfter(RoundStep(true, t).next, n - 1)
  }

  /** How many of n round ticks of a started round end the round. */
  function RoundEnds(t: int, n: nat): nat
    decreases n
  {
    if n == 0 then 0
    else (if RoundStep(true, t).fires then 1 else 0) + RoundEnds(RoundStep(true, t).next, n - 1)
  }

  /** The round timer counts down to 0 and stays there, never below, and the
      round ends exactly once: on tick number t. */
  lemma {:induction false} RoundRunsDown(t: nat, n: nat)
    ensures TimeLeftAfter(t, n) == if n <= t then t - n else 0
    ensures RoundEnds(t, n) == if 1 <= t <= n then 1 else 0
  {
    if n > 0 {
      if t > 0 {
        RoundRunsDown(t - 1, n - 1);
      } else {
        RoundRunsDown(0, n - 1);
      }
    }
  }
}
