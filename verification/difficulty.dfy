/**
 The difficulty controller (`Game._updateDifficulty` / `_updateGameParameters`) and the
 per-frame speed increase of `Game.update`.

 Everything is derived from the distance travelled: `level = floor(distance / 200)`,
 and four capped linear functions of the level give the target speed, the obstacle and
 coin chances and the coin value.
 */
module Difficulty {
  import opened Common

  const InitialRunSpeed: real := 0.08
  const MaxRunSpeed: real := 0.8
  /** `runSpeedIncrease`, added every frame while below `maxRunSpeed`. */
  const RunSpeedIncrease: real := 0.00008
  /** `runSpeedIncrease * 3`, added while below the level's target speed. */
  const ApproachIncrease: real := 0.00024
  const DistancePerLevel: real := 200.0

  const BaseObstacleChance: real := 0.7
  const MaxObstacleChance: real := 0.8
  const BaseCoinChance: real := 0.85
  const MaxCoinChance: real := 0.95
  const BaseCoinValue: int := 10

  function Level(distance: real): (level: nat)
    requires distance >= 0.0
    ensures level as real * DistancePerLevel <= distance < (level + 1) as real * DistancePerLevel
  {
    (distance / DistancePerLevel).Floor
  }

  lemma {:induction false} LevelMonotone(d1: real, d2: real)
    requires 0.0 <= d1 <= d2
    ensures Level(d1) <= Level(d2)
  {
    assert d1 / DistancePerLevel <= d2 / DistancePerLevel;
  }

  function TargetSpeed(level: nat): (s: real)
    ensures InitialRunSpeed <= s <= MaxRunSpeed
    ensures level == 0 ==> s == InitialRunSpeed
    ensures level < 29 ==> s == InitialRunSpeed + 0.025 * level as real
    ensures level >= 29 ==> s == MaxRunSpeed
  {
    Min(InitialRunSpeed + level as real * 0.025, MaxRunSpeed)
  }

  function ObstacleChance(level: nat): (p: real)
    ensures BaseObstacleChance <= p <= MaxObstacleChance
    ensures level == 0 ==> p == BaseObstacleChance
    ensures level >= 2 ==> p == MaxObstacleChance
    ensures level == 1 ==> p == 0.75
  {
    Min(BaseObstacleChance + level as real * 0.05, MaxObstacleChance)
  }

  function CoinChance(level: nat): (p: real)
    ensures BaseCoinChance <= p <= MaxCoinChance
    ensures level == 0 ==> p == BaseCoinChance
    ensures level >= 5 ==> p == MaxCoinChance
    ensures level < 5 ==> p == BaseCoinChance + 0.02 * level as real
  {
    Min(BaseCoinChance + level as real * 0.02, MaxCoinChance)
  }

  /**
   `Math.floor(baseCoinValue * (1 + level * 0.15))`: the base value plus one and a half
   per level, rounded down.
   */
  function CoinValue(level: nat): (v: int)
    ensures v >= BaseCoinValue
    ensures level == 0 ==> v == BaseCoinValue
    ensures v == BaseCoinValue + (3 * level) / 2
  {
    CoinValueFloor(level);
    (BaseCoinValue as real * (1.0 + level as real * 0.15)).Floor
  }

  /** `10 * (1 + 0.15 * level)` is `10 + q + r / 2` with `3 * level == 2 * q + r`, so its floor is `10 + q`. */
  lemma {:induction false} CoinValueFloor(level: nat)
    ensures (BaseCoinValue as real * (1.0 + level as real * 0.15)).Floor == BaseCoinValue + (3 * level) / 2
  {
    var q, r := (3 * level) / 2, (3 * level) % 2;
    assert 3 * level == 2 * q + r && 0 <= r <= 1;
    var x := BaseCoinValue as real * (1.0 + level as real * 0.15);
    assert x == (BaseCoinValue + q) as real + r as real / 2.0;
  }

  /** The three levels of difficulty a later level never lowers. */
  lemma {:induction false} ParametersMonotone(l1: nat, l2: nat)
    requires l1 <= l2
    ensures TargetSpeed(l1) <= TargetSpeed(l2)
    ensures ObstacleChance(l1) <= ObstacleChance(l2)
    ensures CoinChance(l1) <= CoinChance(l2)
    ensures CoinValue(l1) <= CoinValue(l2)
  {
  }

  /** The speed increase at the top of `Game.update`. */
  function Accelerate(speed: real): (s: real)
    ensures s >= speed
    ensures speed < MaxRunSpeed <==> s > speed
  {
    if speed < MaxRunSpeed then speed + RunSpeedIncrease else speed
  }

  /** The approach towards the level's target speed in `_updateGameParameters`. */
  function Approach(speed: real, level: nat): (s: real)
    ensures s >= speed
    ensures speed < TargetSpeed(level) <==> s > speed
  {
    if speed < TargetSpeed(level) then speed + ApproachIncrease else speed
  }

  /** The speeds a run can reach: the cap is overshot by less than one approach step. */
  ghost predicate SpeedInRange(speed: real)
  {
    InitialRunSpeed <= speed < MaxRunSpeed + ApproachIncrease
  }

  /**
   One frame's two speed increments, with the distance advanced between them, keep the
   speed in range and never slow the runner down.
   */
  lemma {:induction false} SpeedStepStaysInRange(speed: real, distance: real)
    requires SpeedInRange(speed) && distance >= 0.0
    ensures var s1 := Accelerate(speed);
            var s2 := Approach(s1, Level(distance + s1));
            SpeedInRange(s2) && speed <= s2
  {
  }

  /** Once at or above the cap, the speed never changes again. */
  lemma {:induction false} SpeedFrozenAtCap(speed: real, level: nat)
    requires speed >= MaxRunSpeed
    ensures Approach(Accelerate(speed), level) == speed
  {
  }
}
