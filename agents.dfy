/**
 * A simple-reflex pitching agent (agents.py).
 *
 * The agent perceives a crosswind reading, classifies the wind speed into a
 * severity tier, aims a compensating horizontal offset drawn from the tier's
 * range, resolves where the pitch lands after a linear wind drift, and keeps
 * an at-bat count of strikes, balls and outs.
 *
 * The random draw of the original (`randint`) is a parameter `delta` that the
 * caller must pick from the tier's inclusive range; every allowed outcome of
 * the draw is therefore covered.
 */
module Agents {

  // ---------------------------------------------------------------------------
  // Percepts and decisions
  // ---------------------------------------------------------------------------

  /** The direction the crosswind blows towards. */
  datatype Direction = Left | Right

  /** One wind reading of the environment: the agent's state `[speed, direction]`. */
  datatype WindReading = WindReading(speed: int, direction: Direction)

  /** The environment samples speeds uniformly from 0..70. */
  predicate EnvironmentReading(w: WindReading) {
    0 <= w.speed <= 70
  }

  /** The four wind-severity tiers (the "rules" of the reflex agent). */
  datatype Tier = Extreme | High | Moderate | Low

  /** An inclusive integer range, as taken by `randint(lo, hi)`. */
  datatype Range = Range(lo: int, hi: int)

  predicate Contains(r: Range, x: int) {
    r.lo <= x <= r.hi
  }

  function Abs(x: int): int {
    if x < 0 then -x else x
  }

  function AbsReal(x: real): real {
    if x < 0.0 then -x else x
  }

  /**
   * Reference definition of the tiers as half-open speed intervals:
   * [60, oo), [40, 60), [20, 40) and (-oo, 20).
   */
  predicate InTier(speed: int, t: Tier) {
    match t
    case Extreme => 60 <= speed
    case High => 40 <= speed < 60
    case Moderate => 20 <= speed < 40
    case Low => speed < 20
  }

  /** `getRule`: ascending thresholds on the wind speed. */
  function Rule(speed: int): (t: Tier)
    ensures InTier(speed, t)
  {
    if speed >= 60 then Extreme
    else if speed >= 40 then High
    else if speed >= 20 then Moderate
    else Low
  }

  /** The tiers partition the integers: every speed lies in exactly one of them. */
  lemma TierExactlyOne(speed: int)
    ensures InTier(speed, Rule(speed))
    ensures forall t :: InTier(speed, t) ==> t == Rule(speed)
  {
  }

  /** `getAction`'s table: the inclusive range the magnitude is drawn from. */
  function ActionRange(t: Tier): (r: Range)
    ensures 0 <= r.lo < r.hi
    ensures t == Extreme ==> r == Range(12, 24)
    ensures t == High ==> r == Range(6, 12)
    ensures t == Moderate ==> r == Range(0, 9)
    ensures t == Low ==> r == Range(0, 6)
  {
    match t
    case Extreme => Range(12, 24)
    case High => Range(6, 12)
    case Moderate => Range(0, 9)
    case Low => Range(0, 6)
  }

  /**
   * The compensating sign rule: wind to the left makes the agent aim
   * `delta` inches to the right, any other wind `delta` inches to the left.
   */
  function Aim(direction: Direction, delta: int): (offset: int)
    ensures Abs(offset) == Abs(delta)
    ensures delta >= 0 && direction == Left ==> offset >= 0
    ensures delta >= 0 && direction == Right ==> offset <= 0
    ensures offset == 0 <==> delta == 0
  {
    if direction == Left then delta else -1 * delta
  }

  /** An allowed draw yields an offset whose size lies in the tier's range and whose sign compensates the wind. */
  lemma ChosenOffsetInRange(w: WindReading, delta: int)
    requires Contains(ActionRange(Rule(w.speed)), delta)
    ensures Contains(ActionRange(Rule(w.speed)), Abs(Aim(w.direction, delta)))
    ensures w.direction == Left ==> Aim(w.direction, delta) >= 0
    ensures w.direction == Right ==> Aim(w.direction, delta) <= 0
  {
  }

  // ---------------------------------------------------------------------------
  // Pitch resolution
  // ---------------------------------------------------------------------------

  datatype Pitch = Strike | Ball

  /** The wind drift `(speed / 10) * 3`, in inches, as an exact real. */
  function WindEffect(speed: int): (drift: real)
    ensures 10.0 * drift == (3 * speed) as real
    ensures speed >= 0 ==> drift >= 0.0
  {
    (speed as real / 10.0) * 3.0
  }

  /** Where the pitch crosses the plate: right wind pushes it right, any other wind left. */
  function PitchLocation(offset: int, w: WindReading): (location: real)
    ensures 10.0 * location == (10 * offset + DriftTenths(w)) as real
    ensures w.speed >= 0 && w.direction == Right ==> location >= offset as real
    ensures w.speed >= 0 && w.direction == Left ==> location <= offset as real
  {
    if w.direction == Right then offset as real + WindEffect(w.speed)
    else offset as real - WindEffect(w.speed)
  }

  /** `isStrike`: the pitch is a strike iff it lands strictly within 8.5 inches of the centre. */
  predicate IsStrike(location: real)
    ensures IsStrike(location) <==> -8.5 < location < 8.5
  {
    AbsReal(location) < 8.5
  }

  /**
   * The label `throwPitch` gives the pitch from `isStrike`'s verdict. It is
   * kept apart from `IsStrike` because the source has both: a boolean test in
   * `isStrike` and the label `"strike"`/`"ball"` that `updateAtBat` consumes.
   */
  function Outcome(location: real): (p: Pitch)
    ensures p == Strike <==> -8.5 < location < 8.5
  {
    if IsStrike(location) then Strike else Ball
  }

  /** The drift in tenths of an inch: an integer for every integer speed. */
  function DriftTenths(w: WindReading): int {
    if w.direction == Right then 3 * w.speed else -3 * w.speed
  }

  /**
   * Integer reference for the strike judgment: scaled by ten, a pitch is a
   * strike iff |10 * offset +- 3 * speed| < 85. In particular a location of
   * exactly +-8.5 inches is a ball.
   */
  lemma StrikeIffScaled(offset: int, w: WindReading)
    ensures IsStrike(PitchLocation(offset, w)) <==> Abs(10 * offset + DriftTenths(w)) < 85
    ensures Abs(10 * offset + DriftTenths(w)) == 85 ==> Outcome(PitchLocation(offset, w)) == Ball
  {
  }

  /**
   * A resolved location can sit exactly on the +-8.5 boundary only when the
   * speed ends in 5; among the environment's speeds these are 5, 15, ..., 65,
   * whose drifts 1.5, 4.5, ..., 19.5 are exact binary fractions.
   */
  lemma BoundaryOnlyAtHalfSpeeds(offset: int, w: WindReading)
    requires Abs(10 * offset + DriftTenths(w)) == 85
    ensures w.speed % 10 == 5
    ensures EnvironmentReading(w) ==> w.speed in {5, 15, 25, 35, 45, 55, 65}
  {
    // 3 * speed is 5 more than a multiple of ten
    var k := if w.direction == Right then
               (if 10 * offset + 3 * w.speed == 85 then 8 - offset else -9 - offset)
             else
               (if 10 * offset - 3 * w.speed == 85 then offset - 9 else offset + 8);
    assert 3 * w.speed == 10 * k + 5;
    var q, r := w.speed / 10, w.speed % 10;
    assert w.speed == 10 * q + r && 0 <= r < 10;
    assert 3 * r == 10 * (k - 3 * q) + 5;
    assert r == 5;
  }

  /**
   * Because the aim always opposes the wind, the pitch misses the centre by
   * exactly the difference between the drawn magnitude and the drift.
   */
  lemma CompensatedMiss(w: WindReading, delta: int)
    ensures AbsReal(PitchLocation(Aim(w.direction, delta), w)) == AbsReal(delta as real - WindEffect(w.speed))
  {
  }

  /** In low wind (speeds 0..19) every allowed draw gives a strike: the drift never exceeds 5.7 inches. */
  lemma LowWindAlwaysStrikes(w: WindReading, delta: int)
    requires 0 <= w.speed
    requires Rule(w.speed) == Low
    requires Contains(ActionRange(Low), delta)
    ensures Outcome(PitchLocation(Aim(w.direction, delta), w)) == Strike
  {
  }

  // ---------------------------------------------------------------------------
  // The at-bat count
  // ---------------------------------------------------------------------------

  /** The at-bat counters of one agent. */
  datatype Count = Count(strikes: int, balls: int, outs: int)

  /** The invariant kept between pitches: at most two strikes and three balls pending, outs non-negative. */
  predicate ValidCount(c: Count) {
    0 <= c.strikes <= 2 && 0 <= c.balls <= 3 && 0 <= c.outs
  }

  /** `resetAtBat`: an out is credited iff the at-bat ended on the third strike; both counters restart. */
  function ResetCount(c: Count): (r: Count)
    ensures r.strikes == 0 && r.balls == 0
    ensures r.outs == c.outs + 1 <==> c.strikes == 3
    ensures r.outs == c.outs <==> c.strikes != 3
  {
    Count(0, 0, if c.strikes == 3 then c.outs + 1 else c.outs)
  }

  /** `updateAtBat`: record the pitch, and end the at-bat on the third strike or fourth ball. */
  function RecordPitch(c: Count, p: Pitch): (r: Count)
    ensures ValidCount(c) ==> ValidCount(r)
    ensures ValidCount(c) ==> (r.outs == c.outs + 1 <==> p == Strike && c.strikes == 2)
    ensures ValidCount(c) ==> (r.outs == c.outs <==> !(p == Strike && c.strikes == 2))
    ensures (p == Strike && c.strikes == 2) || (p == Ball && c.balls == 3) ==> r.strikes == 0 && r.balls == 0
    ensures ValidCount(c) && p == Strike && c.strikes < 2 ==> r == c.(strikes := c.strikes + 1)
    ensures ValidCount(c) && p == Ball && c.balls < 3 ==> r == c.(balls := c.balls + 1)
  {
    var n := if p == Strike then c.(strikes := c.strikes + 1) else c.(balls := c.balls + 1);
    if n.strikes == 3 || n.balls == 4 then ResetCount(n) else n
  }

  /** The count after a sequence of pitches, recorded one call at a time. */
  function RecordAll(c: Count, ps: seq<Pitch>): Count
    decreases |ps|
  {
    if ps == [] then c else RecordAll(RecordPitch(c, ps[0]), ps[1..])
  }

  /** Number of strikes in a sequence of pitches. */
  function StrikesIn(ps: seq<Pitch>): nat
    decreases |ps|
  {
    if ps == [] then 0 else (if ps[0] == Strike then 1 else 0) + StrikesIn(ps[1..])
  }

  /** Any sequence of pitches keeps the count invariant, and outs never go back. */
  lemma {:induction false} RecordAllKeepsValid(c: Count, ps: seq<Pitch>)
    requires ValidCount(c)
    ensures ValidCount(RecordAll(c, ps))
    ensures c.outs <= RecordAll(c, ps).outs <= c.outs + |ps|
    decreases |ps|
  {
    if ps != [] {
      RecordAllKeepsValid(RecordPitch(c, ps[0]), ps[1..]);
    }
  }

  /**
   * Every out costs three strikes: the strikes pending at the start plus the
   * strikes thrown pay for three per out credited and for those still pending.
   */
  lemma {:induction false} OutsNeedThreeStrikes(c: Count, ps: seq<Pitch>)
    requires ValidCount(c)
    ensures 3 * (RecordAll(c, ps).outs - c.outs) + RecordAll(c, ps).strikes <= c.strikes + StrikesIn(ps)
    decreases |ps|
  {
    if ps != [] {
      var c' := RecordPitch(c, ps[0]);
      OutsNeedThreeStrikes(c', ps[1..]);
    }
  }

  /** Three strikes in a row from any valid count: exactly one out, balls cleared, strikes back where they were. */
  lemma ThreeStrikesMakeAnOut(c: Count)
    requires ValidCount(c)
    ensures RecordAll(c, [Strike, Strike, Strike]) == Count(c.strikes, 0, c.outs + 1)
  {
  }

  /** Four balls in a row from any valid count: a walk, no out, strikes cleared, balls back where they were. */
  lemma FourBallsMakeAWalk(c: Count)
    requires ValidCount(c)
    ensures RecordAll(c, [Ball, Ball, Ball, Ball]) == Count(0, c.balls, c.outs)
  {
  }

  /**
   * `inningIsOver` on a count value: the inning ends at three outs. The class
   * predicate `Agent.InningIsOver` is this test on the agent's own fields; the
   * count-level form is what `PlayInning` needs.
   */
  predicate InningOver(c: Count)
    ensures 0 <= c.outs <= 3 ==> (InningOver(c) <==> c.outs >= 3)
    ensures c.outs < 3 ==> !InningOver(c)
  {
    c.outs == 3
  }

  /** The driving loop: pitch until the inning is over or the pitches run out. */
  function PlayInning(c: Count, ps: seq<Pitch>): (r: Count)
    ensures InningOver(r) || r == RecordAll(c, ps)
    decreases |ps|
  {
    if ps == [] || InningOver(c) then c else PlayInning(RecordPitch(c, ps[0]), ps[1..])
  }

  /**
   * The driving loop records the pitches it throws: its result is the count
   * after some prefix of the pitches, and it leaves pitches unthrown only
   * once the inning is over.
   */
  lemma {:induction false} PlayInningRecordsAPrefix(c: Count, ps: seq<Pitch>)
    ensures exists k :: 0 <= k <= |ps| && PlayInning(c, ps) == RecordAll(c, ps[..k])
                        && (k < |ps| ==> InningOver(PlayInning(c, ps)))
    decreases |ps|
  {
    if ps == [] || InningOver(c) {
      assert ps[..0] == [];
      assert PlayInning(c, ps) == RecordAll(c, ps[..0]);
    } else {
      var c' := RecordPitch(c, ps[0]);
      PlayInningRecordsAPrefix(c', ps[1..]);
      var k :| 0 <= k <= |ps[1..]| && PlayInning(c', ps[1..]) == RecordAll(c', ps[1..][..k])
               && (k < |ps[1..]| ==> InningOver(PlayInning(c', ps[1..])));
      assert ps[..k + 1][0] == ps[0] && ps[..k + 1][1..] == ps[1..][..k];
      assert PlayInning(c, ps) == RecordAll(c, ps[..k + 1]);
    }
  }

  /**
   * Pitching only while the inning is not over never takes outs past three,
   * and a stop before the pitches run out happens exactly at three outs.
   */
  lemma {:induction false} InningNeverPassesThreeOuts(c: Count, ps: seq<Pitch>)
    requires ValidCount(c) && c.outs <= 3
    ensures ValidCount(PlayInning(c, ps))
    ensures c.outs <= PlayInning(c, ps).outs <= 3
    ensures PlayInning(c, ps).outs < 3 ==> PlayInning(c, ps) == RecordAll(c, ps)
    decreases |ps|
  {
    if ps != [] && !InningOver(c) {
      InningNeverPassesThreeOuts(RecordPitch(c, ps[0]), ps[1..]);
    }
  }

  // ---------------------------------------------------------------------------
  // The agent
  // ---------------------------------------------------------------------------

  datatype Option<T> = None | Some(value: T)

  class Agent {
    /** Aim offset in inches from the plate centre: negative is left, positive right. */
    var horizontalOffset: int
    /** Pitches thrown so far. */
    var pitchCount: int
    var currentStrikes: int
    var currentBalls: int
    /** Outs this agent has recorded. */
    var outs: int
    /** The last wind reading perceived; none before the first. */
    var state: Option<WindReading>

    function Counters(): Count
      reads this
    {
      Count(currentStrikes, currentBalls, outs)
    }

    /** The invariant kept between pitches. */
    ghost predicate Valid()
      reads this
    {
      ValidCount(Counters()) && 0 <= pitchCount
    }

    constructor ()
      ensures Valid()
      ensures horizontalOffset == 0 && pitchCount == 0
      ensures Counters() == Count(0, 0, 0)
      ensures state == None
    {
      horizontalOffset := 0;
      pitchCount := 0;
      currentStrikes := 0;
      currentBalls := 0;
      outs := 0;
      state := None;
    }

    /** `updateState`: remember the current wind reading. */
    method UpdateState(environment: WindReading)
      modifies this`state
      ensures state == Some(environment)
    {
      state := Some(environment);
    }

    /**
     * `mapStateToAction`: classify the remembered wind and aim by the drawn
     * magnitude `delta`, against the wind. Without a state the original fails.
     */
    method MapStateToAction(delta: int)
      requires state.Some?
      requires Contains(ActionRange(Rule(state.value.speed)), delta)
      modifies this`horizontalOffset
      ensures horizontalOffset == Aim(state.value.direction, delta)
      ensures Contains(ActionRange(Rule(state.value.speed)), Abs(horizontalOffset))
      ensures state.value.direction == Left ==> horizontalOffset >= 0
      ensures state.value.direction == Right ==> horizontalOffset <= 0
    {
      var windDirection := state.value.direction;
      horizontalOffset := Aim(windDirection, delta);
    }

    /** `resetAtBat`: credit an out after a third strike, then clear the count. */
    method ResetAtBat()
      modifies this`outs, this`currentStrikes, this`currentBalls
      ensures Counters() == ResetCount(old(Counters()))
    {
      outs := if currentStrikes == 3 then outs + 1 else outs;
      currentStrikes := 0;
      currentBalls := 0;
    }

    /** `updateAtBat`: add the pitch to the count and end the at-bat when it is complete. */
    method UpdateAtBat(pitch: Pitch)
      modifies this`outs, this`currentStrikes, this`currentBalls
      ensures Counters() == RecordPitch(old(Counters()), pitch)
      ensures old(ValidCount(Counters())) ==> ValidCount(Counters())
      ensures old(outs) <= outs <= old(outs) + 1
    {
      if pitch == Strike {
        currentStrikes := currentStrikes + 1;
      } else {
        currentBalls := currentBalls + 1;
      }
      if currentStrikes == 3 || currentBalls == 4 {
        ResetAtBat();
      }
    }

    /** `throwPitch`: perceive, aim, resolve the pitch against the drift, update the count. */
    method ThrowPitch(environment: WindReading, delta: int)
      requires Contains(ActionRange(Rule(environment.speed)), delta)
      modifies this
      ensures state == Some(environment)
      ensures horizontalOffset == Aim(environment.direction, delta)
      ensures Counters() == RecordPitch(old(Counters()), Outcome(PitchLocation(horizontalOffset, environment)))
      ensures pitchCount == old(pitchCount) + 1
      ensures old(Valid()) ==> Valid()
    {
      UpdateState(environment);
      MapStateToAction(delta);
      var pitchLocationHorizontal := PitchLocation(horizontalOffset, environment);
      var pitch := Outcome(pitchLocationHorizontal);
      UpdateAtBat(pitch);
      pitchCount := pitchCount + 1;
    }

    /** `inningIsOver`: the count-level test `InningOver` applied to this agent's counters. */
    predicate InningIsOver()
      reads this
    {
      InningOver(Counters())
    }
  }

  /**
   * The unit test's scenario: a fresh agent whose state is set to a 30 mph
   * wind blowing right aims between 0 and 18 inches, to the left.
   */
  method MapStateToActionInRange(delta: int) returns (offset: int)
    requires Contains(ActionRange(Moderate), delta)
    ensures 0 <= Abs(offset) < 19
    ensures offset <= 0
  {
    var agent := new Agent();
    agent.state := Some(WindReading(30, Right));
    agent.MapStateToAction(delta);
    offset := agent.horizontalOffset;
  }
}
