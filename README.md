# BaseballPitchingAgent — a verified model of the reflex pitching agent

This project models the `Agent` class of `agents.py`. It is a simple-reflex
pitcher. On each pitch it perceives a crosswind reading (speed and direction)
and classifies the speed into one of four tiers: extreme, high, moderate or
low. It then draws an aim magnitude from that tier's inclusive range and aims
against the wind. After that it works out where the pitch lands once the wind
drift `(speed / 10) * 3` is applied. The pitch is a strike iff it lands
strictly within 8.5 inches of the plate centre. Finally it updates an at-bat
count of strikes, balls and outs: three strikes give an out, four balls give
a walk, and the inning is over at three outs.

Everything is in one Dafny module, `Agents` (`agents.dfy`):

- The pure pieces are functions: `Rule` (`getRule`), `ActionRange` (the
  `getAction` table), `Aim` (the sign rule), `PitchLocation`, `IsStrike` and
  `Outcome`, `ResetCount` and `RecordPitch` (the count arithmetic), and
  `InningOver`.
- The agent is a class, `Agent`, with the source's own fields.
  `horizontalOffset`, `pitchCount`, `currentStrikes`, `currentBalls`, `outs`
  and `state` are updated in place by `UpdateState`, `MapStateToAction`,
  `ThrowPitch`, `UpdateAtBat` and `ResetAtBat`. Each method's postcondition
  ties the new state to the pure functions above.
- The random draw `randint(lo, hi)` is the parameter `delta`. Its
  precondition requires it to lie in the tier's inclusive range. This keeps
  the model deterministic and still covers every outcome the draw allows.
- The environment is a value `WindReading(speed, direction)`. The direction is
  a two-valued datatype. The source tests `== 'left'` for the aim and
  `== 'right'` for the drift. With only two directions, "not left" is
  `Right` and "not right" is `Left`.
- The pitch location is computed on exact `real`s. `StrikeIffScaled` relates
  it to an integer reference in tenths of an inch:
  strike iff `|10*offset ± 3*speed| < 85`. Python computes the location in
  binary floating point. For the integer speeds the environment produces
  (0..70, see `EnvironmentReading`), float and exact arithmetic give the same
  verdict. The only exact sums that can equal ±8.5 come from speeds ending in
  5. For those speeds the drift (1.5, 4.5, …, 19.5) and the sum are exact
  binary floats. Every other sum is at least 0.1 away from the boundary,
  which is far more than the rounding error. `BoundaryOnlyAtHalfSpeeds`
  proves the first half of this argument; the rounding bound itself is
  argued here in prose, not in Dafny.
- The driver loop at the bottom of `agents.py` appears only through the
  counts. `PlayInning` records pitches while the inning is not over, and
  `InningNeverPassesThreeOuts` shows it never takes outs past three.

`resetAtBat` (agents.py:101-104) clears the balls as well as the strikes
on a strikeout, so `ThreeStrikesMakeAnOut` states that the balls are 0
afterwards.

## Model

| member | source | states |
|---|---|---|
| `Agents.Rule` | agents.py:42-51 | the tier returned is the one whose half-open speed interval holds the speed ([60,∞) extreme, [40,60) high, [20,40) moderate, below 20 low) |
| `Agents.TierExactlyOne` | agents.py:44-51 | the tiers are exhaustive and exclusive: every integer speed lies in the interval of the tier `Rule` picks and in no other |
| `Agents.ActionRange` | agents.py:53-59 | the per-tier inclusive draw ranges are extreme [12,24], high [6,12], moderate [0,9] and low [0,6]; each is non-empty and non-negative |
| `Agents.Aim` | agents.py:65 | the offset has the magnitude of the draw; for a non-negative draw it is ≥ 0 when the wind blows left and ≤ 0 otherwise; it is 0 only for a zero draw |
| `Agents.ChosenOffsetInRange` | agents.py:53-65 | an allowed draw gives an offset whose absolute value lies in the tier's range and whose sign compensates the wind |
| `Agents.WindEffect` | agents.py:74 | the drift is exactly three tenths of the speed (ten times it is `3*speed`), and non-negative for non-negative speeds |
| `Agents.PitchLocation` | agents.py:75-76 | ten times the location is the integer `10*offset + 3*speed` for right wind and `10*offset - 3*speed` otherwise; for non-negative speeds right wind moves the pitch right of the aim and left wind moves it left |
| `Agents.IsStrike` | agents.py:89-90 | `abs(location) < 8.5` holds iff the location lies strictly between -8.5 and 8.5 |
| `Agents.Outcome` | agents.py:77-82 | the pitch is a strike iff the location lies strictly between -8.5 and 8.5, so ±8.5 is a ball |
| `Agents.StrikeIffScaled` | agents.py:74-90 | with the drift applied, the strike verdict equals the integer test `|10*offset ± 3*speed| < 85`, plus right wind and minus otherwise; an exact sum of ±85 tenths is a ball |
| `Agents.BoundaryOnlyAtHalfSpeeds` | agents.py:74-77 | a drifted location lands exactly on ±8.5 only for a speed ending in 5, which for the environment's speeds means 5, 15, …, 65 |
| `Agents.CompensatedMiss` | agents.py:65-77 | because aim and drift act in opposite directions, the pitch misses the centre by `|delta - 3*speed/10|` whatever the direction |
| `Agents.LowWindAlwaysStrikes` | agents.py:58-90 | for a low-tier wind speed of 0..19, every allowed draw (0..6) gives a strike |
| `Agents.ResetCount` | agents.py:101-104 | both counters restart at 0; outs go up by one iff the at-bat ended at three strikes and are unchanged otherwise |
| `Agents.RecordPitch` | agents.py:92-104 | from a valid count (strikes 0..2, balls 0..3): the new count is valid; outs go up by exactly one iff the pitch is the third strike and are unchanged otherwise, including on a walk; a third strike or fourth ball clears both counters; any other pitch only bumps its own counter |
| `Agents.RecordAllKeepsValid` | agents.py:92-104 | over any sequence of `updateAtBat` calls the count stays valid and outs never decrease (nor grow by more than the number of pitches) |
| `Agents.OutsNeedThreeStrikes` | agents.py:92-104 | over any sequence of pitches, three times the outs gained plus the strikes still pending is at most the strikes initially pending plus the strikes thrown |
| `Agents.ThreeStrikesMakeAnOut` | agents.py:98-104 | three strikes in a row from any valid count give exactly one more out, zero balls and the starting number of strikes |
| `Agents.FourBallsMakeAWalk` | agents.py:98-104 | four balls in a row from any valid count give no out, zero strikes and the starting number of balls |
| `Agents.InningOver` | agents.py:106-107 | the inning is never over below three outs; while outs stay between 0 and 3, the `== 3` test coincides with "at least three outs" |
| `Agents.PlayInning` | agents.py:121-122 | pitching while the inning is not over either stops with the inning over or has recorded every pitch; what it computes when it stops early is stated by `PlayInningRecordsAPrefix` |
| `Agents.PlayInningRecordsAPrefix` | agents.py:121-122 | the driving loop's count is exactly the count after recording some prefix of the pitches, one `updateAtBat` at a time, and it leaves pitches unthrown only when the inning is over |
| `Agents.InningNeverPassesThreeOuts` | agents.py:121-122 | pitching only while `inningIsOver` (outs == 3) is false keeps the count valid and outs between their start and 3; if it stops below three outs, every pitch was recorded |
| `Agents.Agent.constructor` | agents.py:20-27 | a new agent has zero offset, pitch count, strikes, balls and outs, and no state |
| `Agents.Agent.UpdateState` | agents.py:35-36 | the state becomes the current wind reading and nothing else changes |
| `Agents.Agent.MapStateToAction` | agents.py:41-65 | needs a state (without one the original fails); sets only the offset, to the compensating aim for the drawn magnitude, whose absolute value lies in the tier's range |
| `Agents.Agent.ResetAtBat` | agents.py:101-104 | the counters become `ResetCount` of the old counters; offset, state and pitch count are untouched |
| `Agents.Agent.UpdateAtBat` | agents.py:92-99 | the counters become `RecordPitch` of the old counters; the valid-count invariant is kept and outs never decrease, rising by at most one, whatever the starting count |
| `Agents.Agent.ThrowPitch` | agents.py:69-87 | the state is the reading; the offset is the compensating aim; the counters record the outcome of the drifted location; the pitch count goes up by exactly one; the agent invariant is kept |
| `Agents.MapStateToActionInRange` | agentsTest.py:6-12 | an agent whose state is set to a 30 mph wind blowing right aims with an absolute offset in 0..18 and never to the right |

## Left out

- Console output (every `print` in `agents.py`): it has no effect on state.
- Random generation: the `Environment` class (agents.py:109-117) is not modelled as a class. Its readings are the value `WindReading`; the predicate `EnvironmentReading` documents the range it samples (speed 0..70) and is used only by `BoundaryOnlyAtHalfSpeeds`. Every other theorem holds for all integer speeds (`LowWindAlwaysStrikes` for all non-negative ones). `randint` becomes the parameter `delta`.
- The `getAction` dictionary evaluates all four `randint` calls before it looks up the tier. Only the tier's draw affects the agent. The other three draws only advance the random generator, which is not modelled.
- The module-level driver loop (agents.py:119-123) is not modelled as code. Its stopping rule appears only at the count level, in `PlayInning`.
- Python 2 semantics: the model assumes Python 3, where `environment.windSpeed / 10` (agents.py:74) is true division. Under Python 2 it would be floor division, and some verdicts would change: at speed 29 blowing right with a draw of 0, the location is 8.7 (a ball) under true division and 6 (a strike) under floor division.
- Floating point: locations are exact reals. The argument above shows this gives the same strike verdict for the environment's integer speeds. That argument is not proved in Dafny.
- agentsTest.py imports `SimpleReflexAgent`, which `agents.py` does not define. Its one assertion is modelled as the client method `MapStateToActionInRange`, using `Agent`.
- A memory-based strategy and a strike-total counter do not exist in `agents.py`, so they are not modelled.
- `Agents.Agent.InningIsOver` has no contract of its own. It applies `InningOver` to the agent's counters, and its behaviour under the driver is stated by `InningNeverPassesThreeOuts`.
