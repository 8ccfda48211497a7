/**
 The game loop: one frame of `Game.update` and the restart of `Game.reset`, over the
 pieces modelled in the other modules.

 Wall-clock time enters as the seconds since the game started, random draws as a
 stream, and the bounding boxes of runner, obstacles and coins as parameters. The
 animation mixer, the camera, the runner's sideways lerp, the score display and the
 audio manager's reaction to speed are not part of the state.
 */
module Driver {
  import opened Common
  import opened Pools
  import opened Catalog
  import opened Difficulty
  import opened SegmentLength
  import opened Collectibles
  import opened Track
  import opened Collision
  import opened Player

  /** The simulation state of `Game`. */
  datatype Game = Game(
    track: Track,
    runner: Runner,
    z: real,                  // player.position.z
    speed: real,              // runSpeed
    distance: real,           // distanceTraveled
    len: nat,                 // currentSegmentLength
    obstacleChance: real,
    coinChance: real,
    coinValue: int,
    score: int,
    gameOver: bool)

  /**
   What every frame keeps outside the track: a valid runner, the speed in its range, the
   difficulty parameters those of the current level, the segment length in [10, 50] and
   a non-negative score.
   */
  ghost predicate FrameValid(g: Game)
  {
    && RunnerValid(g.runner)
    && SpeedInRange(g.speed)
    && g.distance >= 0.0
    && BaseLength <= g.len <= MaxLength
    && g.obstacleChance == ObstacleChance(Level(g.distance))
    && g.coinChance == CoinChance(Level(g.distance))
    && g.coinValue == CoinValue(Level(g.distance))
    && g.score >= 0
  }

  /** Every pool conserved, ten segments on the track, and a valid frame. */
  ghost predicate GameValid(g: Game)
  {
    TrackValid(g.track) && |g.track.segments.active| == TargetSegments && FrameValid(g)
  }

  /** `runSpeed / initialRunSpeed`. */
  function SpeedRatio(speed: real): real
  {
    speed / InitialRunSpeed
  }

  /**
   The first part of a frame: accelerate, resize segments for the new speed, run forward
   by the speed, update the difficulty for the distance covered, and apply the jump
   physics. The track and the score are untouched.
   */
  function Move(g: Game): (r: Game)
    requires FrameValid(g)
    ensures FrameValid(r)
    ensures r.track == g.track && r.score == g.score && r.gameOver == g.gameOver
    ensures g.distance < r.distance && r.distance - g.distance == g.z - r.z
    ensures r.len == DynamicLength(SpeedRatio(Accelerate(g.speed)))
    ensures g.speed <= r.speed
    ensures g.obstacleChance <= r.obstacleChance && g.coinChance <= r.coinChance
    ensures g.coinValue <= r.coinValue
  {
    var s1 := Accelerate(g.speed);
    var d := g.distance + s1;
    var level := Level(d);
    SpeedStepStaysInRange(g.speed, g.distance);
    LevelMonotone(g.distance, d);
    ParametersMonotone(Level(g.distance), level);
    g.(runner := JumpStep(g.runner),
       speed := Approach(s1, level),
       len := DynamicLength(SpeedRatio(s1)) as nat,
       z := g.z - s1,
       distance := d,
       obstacleChance := ObstacleChance(level),
       coinChance := CoinChance(level),
       coinValue := CoinValue(level))
  }

  /** `_updateGround` with the frame's segment length, distance and chances. */
  function Ground(g: Game, elapsed: real, rs: seq<real>): (r: (Game, seq<real>))
    requires GameValid(g) && UnitDraws(rs) && |rs| >= MaxRefillDraws
    ensures GameValid(r.0) && Consumed(rs, r.1, MaxRefillDraws)
    ensures r.0 == g.(track := r.0.track)
  {
    var env := Env(g.len, elapsed, g.distance, g.obstacleChance, g.coinChance);
    var (track, rest) := UpdateGround(g.track, g.z, env, rs);
    (g.(track := track), rest)
  }

  /**
   `_checkCollisions` on the frame's state: the first obstacle touched ends the game
   with the score unchanged; otherwise every touched coin is collected.
   */
  function Collide(g: Game, player: Box, obstacleBox: Entity -> Box, coinBox: Entity -> Box): (r: Game)
    requires GameValid(g) && !g.gameOver
    ensures GameValid(r) && g.score <= r.score
    ensures r == g.(track := r.track, score := r.score, gameOver := r.gameOver)
    ensures r.track == g.track.(coins := r.track.coins)
    ensures FirstHit(g.track.obstacles.active, Touches(player, obstacleBox)) >= 0 ==>
              r.gameOver && r.score == g.score && r.track == g.track
    ensures FirstHit(g.track.obstacles.active, Touches(player, obstacleBox)) == -1 ==>
              !r.gameOver && forall e :: e in r.track.coins.active ==> !Touches(player, coinBox)(e)
  {
    var out := CheckCollisions(g.score, false, g.track.obstacles.active, g.track.coins,
                               player, obstacleBox, coinBox, g.coinValue);
    UntouchedCoins(g.track.coins.active, player, coinBox);
    g.(track := g.track.(coins := out.coins), score := out.score, gameOver := out.gameOver)
  }

  /**
   One frame of `Game.update`: move, recycle and refill the track, then check
   collisions. A finished game does not change.
   */
  function Tick(g: Game, elapsed: real, rs: seq<real>,
                player: Box, obstacleBox: Entity -> Box, coinBox: Entity -> Box): (r: (Game, seq<real>))
    requires GameValid(g) && UnitDraws(rs) && |rs| >= MaxRefillDraws
    ensures GameValid(r.0)
    ensures g.gameOver ==> r == (g, rs)
    ensures !g.gameOver ==> Consumed(rs, r.1, MaxRefillDraws)
    ensures !g.gameOver ==> g.distance < r.0.distance && r.0.distance - g.distance == g.z - r.0.z
    ensures g.speed <= r.0.speed && g.score <= r.0.score
    ensures g.obstacleChance <= r.0.obstacleChance && g.coinChance <= r.0.coinChance
    ensures g.coinValue <= r.0.coinValue
    ensures g.gameOver ==> r.0.gameOver
    ensures !g.gameOver && FirstHit(r.0.track.obstacles.active, Touches(player, obstacleBox)) >= 0 ==>
              r.0.gameOver && r.0.score == g.score
    ensures !g.gameOver && FirstHit(r.0.track.obstacles.active, Touches(player, obstacleBox)) == -1 ==>
              !r.0.gameOver && forall e :: e in r.0.track.coins.active ==> !Touches(player, coinBox)(e)
  {
    if g.gameOver then (g, rs)
    else
      var g1 := Move(g);
      var (g2, rest) := Ground(g1, elapsed, rs);
      (Collide(g2, player, obstacleBox, coinBox), rest)
  }

  /** The coins a collision check leaves active touch nothing. */
  lemma {:induction false} UntouchedCoins(coins: seq<Entity>, player: Box, coinBox: Entity -> Box)
    ensures forall e :: e in Select(coins, Touches(player, coinBox), false) ==> !Touches(player, coinBox)(e)
  {
    SelectSplits(coins, Touches(player, coinBox));
  }

  /** `n` frames with the same inputs. */
  function Run(g: Game, n: nat, elapsed: real, rs: seq<real>,
               player: Box, obstacleBox: Entity -> Box, coinBox: Entity -> Box): (r: Game)
    requires GameValid(g) && UnitDraws(rs) && |rs| >= n * MaxRefillDraws
    ensures GameValid(r) && g.score <= r.score && g.speed <= r.speed
    decreases n
  {
    if n == 0 then g
    else
      var (g1, rs1) := Tick(g, elapsed, rs, player, obstacleBox, coinBox);
      TickLeavesDraws(g, n, elapsed, rs, player, obstacleBox, coinBox);
      Run(g1, n - 1, elapsed, rs1, player, obstacleBox, coinBox)
  }

  /** A frame uses at most one refill's worth of draws, so `n` refills' worth leave `n - 1`. */
  lemma {:induction false} TickLeavesDraws(g: Game, n: nat, elapsed: real, rs: seq<real>,
                        player: Box, obstacleBox: Entity -> Box, coinBox: Entity -> Box)
    requires GameValid(g) && UnitDraws(rs) && n > 0 && |rs| >= n * MaxRefillDraws
    ensures var rs1 := Tick(g, elapsed, rs, player, obstacleBox, coinBox).1;
            UnitDraws(rs1) && |rs1| >= (n - 1) * MaxRefillDraws
  {
    var rs1 := Tick(g, elapsed, rs, player, obstacleBox, coinBox).1;
    if !g.gameOver {
      ConsumedUnit(rs, rs1, MaxRefillDraws);
    }
  }

  /** A game that is over stays over, with its score frozen, however many frames pass. */
  lemma {:induction false} GameOverIsFinal(g: Game, n: nat, elapsed: real, rs: seq<real>,
                                           player: Box, obstacleBox: Entity -> Box, coinBox: Entity -> Box)
    requires GameValid(g) && UnitDraws(rs) && |rs| >= n * MaxRefillDraws && g.gameOver
    ensures Run(g, n, elapsed, rs, player, obstacleBox, coinBox) == g
    decreases n
  {
    if n > 0 {
      GameOverIsFinal(g, n - 1, elapsed, rs, player, obstacleBox, coinBox);
    }
  }

  /** Release every active entity of a bank in list order (`[...active].forEach(deactivate)`). */
  function ReleaseAll(b: Bank, cap: nat): (r: Bank)
    requires Conserved(b, cap)
    ensures Conserved(r, cap) && r.active == []
    ensures r.pool == b.pool + Ids(b.active)
  {
    var all := (e: Entity) => true;
    ConservedFacts(b, cap);
    ReleaseEachPartitions(b, all);
    ReleaseEachConserves(b, all, cap);
    SelectAll(b.active, all);
    ReleaseEach(b, b.active, all)
  }

  lemma {:induction false} SelectAll(es: seq<Entity>, hit: Entity -> bool)
    requires forall e :: e in es ==> hit(e)
    ensures Select(es, hit, true) == es && Select(es, hit, false) == []
  {
    if es != [] {
      SelectAll(es[1..], hit);
      assert es == [es[0]] + es[1..];
    }
  }

  /**
   The track part of `Game.reset`: release every obstacle and coin, return the frontier
   to z = 0 and lay a fresh path of base-length segments. The distance is back to 0, so
   the whole path lies in the safety window and carries no obstacle.
   */
  function FreshTrack(t: Track, elapsed: real, rs: seq<real>): (r: (Track, seq<real>))
    requires TrackValid(t) && UnitDraws(rs) && |rs| >= MaxRefillDraws
    ensures TrackValid(r.0) && Consumed(rs, r.1, MaxRefillDraws)
    ensures |r.0.segments.active| == TargetSegments
    ensures r.0.obstacles.active == []
    ensures r.0.frontier == -(TargetSegments * BaseLength) as real
    ensures forall i :: 0 <= i < TargetSegments ==>
              r.0.segments.active[i].pos == SegmentPos(-(i * BaseLength) as real)
  {
    var obstacles := ReleaseAll(t.obstacles, ObstacleCapacity);
    var coins := ReleaseAll(t.coins, CoinCapacity);
    var t0 := Track(t.segments, obstacles, coins, 0.0);
    var env := Env(BaseLength as nat, elapsed, 0.0, BaseObstacleChance, BaseCoinChance);
    assert InSafetyWindow(elapsed, 0.0);
    InitialPath(t0, env, rs)
  }

  /**
   `Game.reset`: a fresh track, and the initial speed, distance, difficulty, score,
   segment length and runner. `elapsed` is the time since the new start when the path
   is laid.
   */
  function Reset(g: Game, elapsed: real, rs: seq<real>): (r: (Game, seq<real>))
    requires TrackValid(g.track) && UnitDraws(rs) && |rs| >= MaxRefillDraws
    ensures GameValid(r.0) && Consumed(rs, r.1, MaxRefillDraws)
    ensures !r.0.gameOver && r.0.score == 0 && r.0.distance == 0.0 && r.0.z == 0.0
    ensures r.0.speed == InitialRunSpeed && r.0.len == BaseLength && r.0.runner == Start
    ensures r.0.track.obstacles.active == []
    ensures r.0.track.frontier == -(TargetSegments * BaseLength) as real
    ensures forall i :: 0 <= i < TargetSegments ==>
              r.0.track.segments.active[i].pos == SegmentPos(-(i * BaseLength) as real)
  {
    var (track, rest) := FreshTrack(g.track, elapsed, rs);
    StartFrameValid(track);
    (Started(track), rest)
  }

  /** The state `Game.reset` leaves around a given track. */
  function Started(t: Track): Game
  {
    Game(t, Start, 0.0, InitialRunSpeed, 0.0, BaseLength as nat,
         BaseObstacleChance, BaseCoinChance, BaseCoinValue, 0, false)
  }

  /** The initial speed, distance and difficulty make a valid frame. */
  lemma {:induction false} StartFrameValid(t: Track)
    ensures FrameValid(Started(t))
  {
    assert Level(0.0) == 0;
  }
}
