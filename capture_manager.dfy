/**
 * The capture manager node: a timer field advanced on every physics step and,
 * when the check interval is reached, one run of the game logic, which
 * recounts the territory score and performs the (still empty) capture pass.
 *
 * The engine plumbing is turned into parameters and results: the active-stone
 * list and the zone radius that the node reads from its autoloads are inputs,
 * and the score pair it writes back and signals is the result.
 */
module Game {
  import opened Territory
  import opened IntervalGate

  datatype Option<T> = None | Some(value: T)

  /** Default of the exported check interval, in seconds. */
  const DefaultCheckInterval: real := 0.2

  class CaptureManager {
    /** Seconds between two runs of the game logic (editable, exported). */
    var checkInterval: real
    /** Time accumulated since the logic last ran. */
    var timer: real

    constructor ()
      ensures checkInterval == DefaultCheckInterval && timer == 0.0
    {
      checkInterval := DefaultCheckInterval;
      timer := 0.0;
    }

    /**
     * One physics step. The logic runs, and a score pair is published, exactly
     * when the accumulated time reaches the interval; the timer then restarts
     * from zero and any excess is dropped.
     */
    method PhysicsProcess(delta: real, stones: seq<Stone>, zoneRadius: real) returns (published: Option<Score>)
      modifies this
      ensures checkInterval == old(checkInterval)
      ensures Tick(timer, published.Some?) == TimerStep(old(timer), delta, checkInterval)
      ensures published.Some? ==> published.value == TerritoryScore(stones, zoneRadius)
    {
      timer := timer + delta;
      if timer >= checkInterval {
        timer := 0.0;
        var score := RunGameLogic(stones, zoneRadius);
        published := Some(score);
      } else {
        published := None;
      }
    }

    /** One run of the game logic: a territory recount, then the capture pass. */
    method RunGameLogic(stones: seq<Stone>, zoneRadius: real) returns (score: Score)
      ensures score == TerritoryScore(stones, zoneRadius)
    {
      score := UpdateTerritoryScore(stones, zoneRadius);
      DetectAndProcessCaptures();
    }

    /**
     * Recounts the territory from scratch: fresh counters, the second one
     * starting at the komi, one point per valid stone inside the zone for each
     * of its groups. Changes no state, so equal inputs give equal scores.
     */
    method UpdateTerritoryScore(stones: seq<Stone>, zoneRadius: real) returns (score: Score)
      ensures score == TerritoryScore(stones, zoneRadius)
    {
      var radiusSq := zoneRadius * zoneRadius;
      var p1Current: real := 0.0;
      var p2Current: real := Komi;
      for i := 0 to |stones|
        invariant p1Current == Tally(stones[..i], zoneRadius, P1) as real
        invariant p2Current == Komi + Tally(stones[..i], zoneRadius, P2) as real
      {
        var stone := stones[i];
        TallyAppend(stones[..i], [stone], zoneRadius, P1);
        TallyAppend(stones[..i], [stone], zoneRadius, P2);
        assert stones[..i + 1] == stones[..i] + [stone];
        if !stone.valid {
          continue;
        }
        if stone.x * stone.x + stone.y * stone.y <= radiusSq {
          if stone.inP1 {
            p1Current := p1Current + 1.0;
          }
          if stone.inP2 {
            p2Current := p2Current + 1.0;
          }
        }
      }
      assert stones[..|stones|] == stones;
      score := Score(p1Current, p2Current);
    }

    /**
     * The capture pass: an empty placeholder. Its frame grants no writes, so it
     * changes no state; the postcondition records that for callers.
     */
    method DetectAndProcessCaptures()
      ensures unchanged(this)
    {
    }
  }
}
