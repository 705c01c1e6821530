# Orbital Go capture manager, modelled in Dafny

This project models the capture manager node of the Orbital Go game
(`game/CaptureManager.cs`). The node does two things:

- On every physics step it adds the step's time delta to a timer. When the
  timer reaches the check interval (0.2 s by default), it resets the timer to
  zero and runs the game logic once. Any time beyond the interval is dropped.
- The game logic recounts the territory score from scratch. Every valid
  active stone whose squared distance from the origin is at most the squared
  zone radius adds one point to the counter of each group it belongs to,
  "P1" and "P2". The P2 counter starts at a komi of 0.5. The logic then
  runs the capture pass, which is an empty placeholder in this code.

Files:

- `territory.dfy`, module `Territory`: stones, the score pair, the counting
  rule as specification functions (`Tally`, `TerritoryScore`) and lemmas about
  it. These cover order independence, per-stone contribution, the inclusive
  zone boundary, independent group tests, invalid and outside stones, and the
  komi.
- `interval_gate.dfy`, module `IntervalGate`: one step of the timer gate as a
  function (`TimerStep`), a run of steps (`Run`), the time a run drops at
  its firings (`Dropped`), and lemmas over runs.
- `capture_manager.dfy`, module `Game`: the `CaptureManager` class with its
  `checkInterval` and `timer` fields. `PhysicsProcess` updates the timer in
  place. `UpdateTerritoryScore` is the counting loop, proved equal to
  `TerritoryScore`. `DetectAndProcessCaptures` is a no-op.

The engine lookups become parameters and results. The active-stone list
(`get_active_stones` on the stone manager) and the zone radius (`zone_radius`
on the global autoload) are inputs of `PhysicsProcess`. The score pair that
the node writes to `p1_score`/`p2_score` and sends with `score_updated` is its
result (`Some(score)` on a step where the logic ran, `None` otherwise).

The capture pass is not implemented yet. `RunGameLogic` carries a note that
DFS loop detection is to come (`game/CaptureManager.cs:35-36`), and
`DetectAndProcessCaptures` holds only a comment that marks it as the
placeholder for graph-based loop detection (`game/CaptureManager.cs:69-70`).
The model therefore treats the capture pass as a step that does nothing. It
does not invent the loop search.

## Model

| member | source | states |
|---|---|---|
| `Territory.Tally` | game/CaptureManager.cs:50-58 | a group's count never exceeds the number of stones in the list |
| `Territory.TerritoryScore` | game/CaptureManager.cs:47-59 | P1's score is between 0 and the number of stones; P2's score is between the komi 0.5 and 0.5 plus the number of stones, even when no stone is in the zone |
| `Territory.TallyAppend` | game/CaptureManager.cs:50-59 | the count over a concatenated list is the sum of the counts of its parts |
| `Territory.Contribution` | game/CaptureManager.cs:52-58 | a stone at any position in the list adds exactly one to a group's count if it is valid, in the zone and in the group, and adds nothing otherwise |
| `Territory.TallyPermutation` | game/CaptureManager.cs:50-59 | any permutation of the stone list gives the same count |
| `Territory.ScoreReorder` | game/CaptureManager.cs:47-59 | reordering the active-stone list does not change the published score pair |
| `Territory.ScoreAppendStone` | game/CaptureManager.cs:54-57 | one more stone raises the P1 score by one exactly when it is valid, in the zone and in P1; it raises the P2 score by one under the same test for P2; the two tests are independent |
| `Territory.BothGroupsCountTwice` | game/CaptureManager.cs:56-57 | a valid in-zone stone in both groups raises both scores by one |
| `Territory.BoundaryIsInside` | game/CaptureManager.cs:45-56 | the zone test `InZone` is the inclusive squared-distance comparison of lines 45 and 54, so a valid P1 stone at distance exactly the zone radius is counted |
| `Territory.InvalidStoneIgnored` | game/CaptureManager.cs:52 | an invalid stone changes neither score, wherever it lies and wherever it sits in the list |
| `Territory.OutsideStoneIgnored` | game/CaptureManager.cs:54 | a stone whose squared distance exceeds the squared radius changes neither score, whatever its groups |
| `Territory.EmptyZoneScore` | game/CaptureManager.cs:47-57 | P1 scores exactly 0 if and only if no stone counts for P1, and P2 scores exactly the komi 0.5 if and only if no stone counts for P2; each holds whatever the other team has in the zone |
| `Territory.TallyZeroIff` | game/CaptureManager.cs:50-58 | a team's count is zero if and only if no stone in the list is valid, in the zone and in that team's group |
| `Territory.ExampleZoneScores` | game/CaptureManager.cs:44-57 | radius 3 with a P1 stone at (1, 0) and a P2 stone at (5, 0) gives the pair (1, 0.5) |
| `IntervalGate.TimerStep` | game/CaptureManager.cs:22-27 | one step: when timer + delta reaches the interval the timer becomes 0 and the step fires; otherwise the timer becomes timer + delta, still below the interval, and nothing fires |
| `IntervalGate.Dropped` | game/CaptureManager.cs:23-25 | the time discarded by resetting the timer to 0 at each firing, instead of keeping the excess, is never negative |
| `IntervalGate.AtMostOncePerStep` | game/CaptureManager.cs:20-28 | over any run of physics steps, the number of firings never exceeds the number of steps, however large the deltas; within one step this holds because `PhysicsProcess` returns a single `Option` |
| `IntervalGate.TimeAccounting` | game/CaptureManager.cs:22-25 | over any run, the intervals spent on firings (laid end to end), plus the time left in the timer, plus the overshoot dropped at each firing, equal the starting timer plus all deltas |
| `IntervalGate.FiringsBoundedByElapsedTime` | game/CaptureManager.cs:22-25 | elapsed time is accounted for exactly: firings times the interval, plus the time left in the timer, plus the overshoot `Dropped` at each firing, equals the starting timer plus all deltas; so firings times the interval, plus the time left in the timer, never exceed the starting timer plus all deltas, for any deltas |
| `IntervalGate.TimerNonNegative` | game/CaptureManager.cs:22-25 | with a non-negative start and non-negative deltas, the timer is never negative after a run |
| `IntervalGate.FiringsNeverOutrunTime` | game/CaptureManager.cs:22-25 | firings never outrun elapsed time: with a non-negative start and non-negative deltas, firings times the interval never exceed the starting timer plus all deltas |
| `IntervalGate.TimerStaysBelowInterval` | game/CaptureManager.cs:22-25 | with non-negative deltas, a timer that starts in [0, interval) stays in [0, interval) after every step |
| `IntervalGate.LongStepFiresOnce` | game/CaptureManager.cs:22-26 | a single step of at least one interval fires exactly once, leaves the timer at 0, and drops everything beyond one interval |
| `Game.CaptureManager.constructor` | game/CaptureManager.cs:10-11 | a new manager has check interval 0.2 and timer 0 |
| `Game.CaptureManager.PhysicsProcess` | game/CaptureManager.cs:20-28 | the interval is unchanged; the new timer and whether the logic ran are exactly one `TimerStep` of the old timer: when old timer + delta >= interval the timer becomes 0 and the recount of the given stones is published, otherwise the timer becomes old timer + delta and nothing is published |
| `Game.CaptureManager.RunGameLogic` | game/CaptureManager.cs:30-38 | one run of the logic returns the territory recount of the given stones; it has no write frame, so the manager's fields are untouched |
| `Game.CaptureManager.UpdateTerritoryScore` | game/CaptureManager.cs:40-65 | the counting loop with fresh counters (P2 starting at the komi) returns exactly `TerritoryScore` of the stones and radius; it reads no state, so two calls on the same inputs give the same pair |
| `Game.CaptureManager.DetectAndProcessCaptures` | game/CaptureManager.cs:67-71 | the capture pass leaves every field of the manager unchanged |

## Left out

- Floating point: positions, the radius, the scores and the timer are `float` in the game. The model uses exact reals. It therefore does not capture rounding in `LengthSquared`, in `zoneRadius * zoneRadius` or in the `(float)delta` cast. It also does not capture that `0.2f` is not exactly 0.2, or that a float counter stops growing past 2^24 stones.
- `_Ready` and its autoload lookups (`GetNode`) are engine plumbing. So are `Call("get_active_stones")`, `Get("zone_radius")`, `Set("p1_score"/"p2_score")` and `EmitSignal("score_updated")`. They become the parameters and the result of `PhysicsProcess`.
- The validity check `IsInstanceValid` and group membership `IsInGroup` are engine queries. They become the fields `valid`, `inP1` and `inP2` of each stone.
- `game/PhysicsTest.cs` is a mouse-driven physics point query that prints to the console, with no game logic. It is not part of this model.
- The loop-capture pass is not modelled beyond a no-op, because the code contains none: `DetectAndProcessCaptures` is an empty placeholder.
- The recount covers only the stones in the active-stone list, as the code does, and the komi always goes to P2.
