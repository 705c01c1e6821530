/**
 * The interval gate that paces the capture manager's game logic: each physics
 * step adds its time delta to an accumulator; once the accumulator reaches the
 * check interval it is reset to zero (the excess is dropped, not carried) and
 * the logic runs once.
 */
module IntervalGate {

  /** Outcome of one physics step: the new accumulator and whether the logic ran. */
  datatype Tick = Tick(timer: real, fired: bool)

  /** Outcome of a run of steps: the final accumulator and how many times the logic ran. */
  datatype Timeline = Timeline(timer: real, firings: nat)

  /**
   * One physics step of the gate: it fires exactly when the accumulated time
   * reaches the interval, and then restarts from zero; otherwise it keeps the
   * accumulated time, which is then still short of the interval.
   */
  function TimerStep(timer: real, delta: real, interval: real): (r: Tick)
    ensures r.fired <==> timer + delta >= interval
    ensures r.fired ==> r.timer == 0.0
    ensures !r.fired ==> r.timer == timer + delta < interval
  {
    var t := timer + delta;
    if t >= interval then Tick(0.0, true) else Tick(t, false)
  }

  /** Feeds the physics-step deltas one after the other through the gate. */
  function Run(timer: real, deltas: seq<real>, interval: real): Timeline
    decreases |deltas|
  {
    if deltas == [] then Timeline(timer, 0)
    else
      var tick := TimerStep(timer, deltas[0], interval);
      var rest := Run(tick.timer, deltas[1..], interval);
      Timeline(rest.timer, rest.firings + (if tick.fired then 1 else 0))
  }

  function Sum(deltas: seq<real>): real {
    if deltas == [] then 0.0 else deltas[0] + Sum(deltas[1..])
  }

  /**
   * Time thrown away by a run: at each step that fires, the amount by which
   * the accumulated time overshot the interval, since the accumulator then
   * restarts from zero instead of keeping that excess.
   */
  function Dropped(timer: real, deltas: seq<real>, interval: real): (d: real)
    ensures d >= 0.0
    decreases |deltas|
  {
    if deltas == [] then 0.0
    else
      var tick := TimerStep(timer, deltas[0], interval);
      (if tick.fired then timer + deltas[0] - interval else 0.0) + Dropped(tick.timer, deltas[1..], interval)
  }

  /**
   * Firings never outnumber steps over any run. Within a single
   * step the at-most-once guarantee is structural (`PhysicsProcess` returns one
   * `Option` and calls the logic at most once); this lifts it to whole runs.
   */
  lemma {:induction false} AtMostOncePerStep(timer: real, deltas: seq<real>, interval: real)
    ensures Run(timer, deltas, interval).firings <= |deltas|
    decreases deltas
  {
    if deltas != [] {
      AtMostOncePerStep(TimerStep(timer, deltas[0], interval).timer, deltas[1..], interval);
    }
  }

  /** `n` intervals laid end to end. */
  function Times(n: nat, x: real): real {
    if n == 0 then 0.0 else Times(n - 1, x) + x
  }

  lemma {:induction false} TimesIsProduct(n: nat, x: real)
    ensures Times(n, x) == n as real * x
  {
    if n > 0 {
      TimesIsProduct(n - 1, x);
      assert n as real * x == (n - 1) as real * x + x;
    }
  }

  /**
   * Exact time accounting over a run: the intervals spent on firings, the time
   * left in the accumulator and the overshoot dropped at each firing add up to
   * the starting accumulator plus all elapsed time.
   */
  lemma {:induction false} TimeAccounting(timer: real, deltas: seq<real>, interval: real)
    ensures Times(Run(timer, deltas, interval).firings, interval) + Run(timer, deltas, interval).timer
            + Dropped(timer, deltas, interval) == timer + Sum(deltas)
    decreases deltas
  {
    if deltas != [] {
      var tick := TimerStep(timer, deltas[0], interval);
      TimeAccounting(tick.timer, deltas[1..], interval);
    }
  }

  /**
   * No catch-up, as an exact account: the intervals spent on firings, the time
   * left in the accumulator and the overshoot dropped at each firing equal the
   * starting accumulator plus all deltas; so firings times the interval, plus
   * the time left in the accumulator, never exceed the starting accumulator
   * plus all deltas.
   */
  lemma FiringsBoundedByElapsedTime(timer: real, deltas: seq<real>, interval: real)
    ensures Run(timer, deltas, interval).firings as real * interval + Run(timer, deltas, interval).timer
            + Dropped(timer, deltas, interval) == timer + Sum(deltas)
    ensures Run(timer, deltas, interval).firings as real * interval + Run(timer, deltas, interval).timer
         <= timer + Sum(deltas)
  {
    TimeAccounting(timer, deltas, interval);
    TimesIsProduct(Run(timer, deltas, interval).firings, interval);
  }

  /** With a non-negative start and non-negative deltas the accumulator never goes negative. */
  lemma {:induction false} TimerNonNegative(timer: real, deltas: seq<real>, interval: real)
    requires timer >= 0.0
    requires forall i :: 0 <= i < |deltas| ==> deltas[i] >= 0.0
    ensures Run(timer, deltas, interval).timer >= 0.0
    decreases deltas
  {
    if deltas != [] {
      TimerNonNegative(TimerStep(timer, deltas[0], interval).timer, deltas[1..], interval);
    }
  }

  /**
   * Firings never outrun elapsed time: with a non-negative start and
   * non-negative deltas, as physics steps have, the intervals spent on
   * firings never exceed the starting accumulator plus all deltas.
   */
  lemma FiringsNeverOutrunTime(timer: real, deltas: seq<real>, interval: real)
    requires timer >= 0.0
    requires forall i :: 0 <= i < |deltas| ==> deltas[i] >= 0.0
    ensures Run(timer, deltas, interval).firings as real * interval <= timer + Sum(deltas)
  {
    FiringsBoundedByElapsedTime(timer, deltas, interval);
    TimerNonNegative(timer, deltas, interval);
  }

  /** With non-negative deltas the accumulator stays in [0, interval) between steps. */
  lemma {:induction false} TimerStaysBelowInterval(timer: real, deltas: seq<real>, interval: real)
    requires 0.0 <= timer < interval
    requires forall i :: 0 <= i < |deltas| ==> deltas[i] >= 0.0
    ensures 0.0 <= Run(timer, deltas, interval).timer < interval
    decreases deltas
  {
    if deltas != [] {
      TimerStaysBelowInterval(TimerStep(timer, deltas[0], interval).timer, deltas[1..], interval);
    }
  }

  /**
   * A single step of at least one interval fires only once, leaves nothing in
   * the accumulator, and drops everything beyond one interval.
   */
  lemma LongStepFiresOnce(timer: real, delta: real, interval: real)
    requires timer >= 0.0 && interval > 0.0 && delta >= interval
    ensures Run(timer, [delta], interval) == Timeline(0.0, 1)
    ensures Dropped(timer, [delta], interval) == timer + delta - interval
  {
  }
}
