/**
 The runner's intents (`Game._moveLeft`, `_moveRight`, `_jump`) and the jump physics of
 `Game.update`. The smooth x-lerp towards the lane is presentation and not modelled;
 the lane index is the state.
 */
module Player {
  import opened Common

  const GroundY: real := 0.5
  const JumpStrength: real := 0.5
  const Gravity: real := -0.02
  /** `currentLane` after construction and reset: the middle lane. */
  const StartLane: nat := 1

  datatype Runner = Runner(lane: nat, y: real, vy: real, jumping: bool)

  /** The runner a new or reset game starts with. */
  const Start: Runner := Runner(StartLane, GroundY, 0.0, false)

  /** In a lane, never below the ground, and resting exactly on it when not jumping. */
  predicate RunnerValid(p: Runner)
  {
    && p.lane < LaneCount
    && p.y >= GroundY
    && (!p.jumping ==> p.y == GroundY && p.vy == 0.0)
  }

  /** `_moveLeft`: one lane left unless already in the leftmost lane. */
  function MoveLeft(p: Runner): (r: Runner)
    requires RunnerValid(p)
    ensures RunnerValid(r) && r.y == p.y && r.vy == p.vy && r.jumping == p.jumping
    ensures p.lane > 0 ==> r.lane + 1 == p.lane
    ensures p.lane == 0 ==> r == p
  {
    if p.lane > 0 then p.(lane := p.lane - 1) else p
  }

  /** `_moveRight`: one lane right unless already in the rightmost lane. */
  function MoveRight(p: Runner): (r: Runner)
    requires RunnerValid(p)
    ensures RunnerValid(r) && r.y == p.y && r.vy == p.vy && r.jumping == p.jumping
    ensures p.lane < LaneCount - 1 ==> r.lane == p.lane + 1
    ensures p.lane == LaneCount - 1 ==> r == p
  {
    if p.lane < LaneCount - 1 then p.(lane := p.lane + 1) else p
  }

  /** A move left away from the edge is undone by a move right, and vice versa. */
  lemma {:induction false} MovesInverse(p: Runner)
    requires RunnerValid(p)
    ensures p.lane > 0 ==> MoveRight(MoveLeft(p)) == p
    ensures p.lane < LaneCount - 1 ==> MoveLeft(MoveRight(p)) == p
  {
  }

  /** `_jump`: take off with `jumpStrength` only from the ground. */
  function Jump(p: Runner): (r: Runner)
    requires RunnerValid(p)
    ensures RunnerValid(r) && r.lane == p.lane && r.y == p.y
    ensures p.jumping ==> r == p
    ensures !p.jumping ==> r.jumping && r.vy == JumpStrength
  {
    if !p.jumping then p.(jumping := true, vy := JumpStrength) else p
  }

  /** The jump block of `Game.update`: rise by the velocity, apply gravity, land at 0.5. */
  function JumpStep(p: Runner): (r: Runner)
    requires RunnerValid(p)
    ensures RunnerValid(r) && r.lane == p.lane
    ensures !p.jumping ==> r == p
    ensures p.jumping && p.y + p.vy > GroundY ==> r == Runner(p.lane, p.y + p.vy, p.vy + Gravity, true)
    ensures p.jumping && p.y + p.vy <= GroundY ==> r == Runner(p.lane, GroundY, 0.0, false)
  {
    if p.jumping then
      var y := p.y + p.vy;
      var vy := p.vy + Gravity;
      if y <= GroundY then Runner(p.lane, GroundY, 0.0, false)
      else Runner(p.lane, y, vy, true)
    else p
  }

  /** `n` frames of jump physics. */
  function Fly(p: Runner, n: nat): (r: Runner)
    requires RunnerValid(p)
    ensures RunnerValid(r) && r.lane == p.lane
    decreases n
  {
    if n == 0 then p else Fly(JumpStep(p), n - 1)
  }

  /** Height above the ground after `n` frames of a jump: the sum of the velocities so far. */
  function Rise(n: nat): real
  {
    var k := n as real;
    0.5 * k - 0.01 * k * (k - 1.0)
  }

  /** Each frame adds the current velocity `0.5 - 0.02 m` to the height. */
  lemma {:induction false} RiseStep(m: nat)
    ensures Rise(m + 1) == Rise(m) + (JumpStrength + Gravity * m as real)
  {
    var k := m as real;
    assert (m + 1) as real == k + 1.0;
    assert (k + 1.0) * k == k * k + k;
    assert k * (k - 1.0) == k * k - k;
  }

  /** The runner stays above the ground for the first 50 frames. */
  lemma {:induction false} RisePositive(n: nat)
    requires 0 < n <= 50
    ensures Rise(n) > 0.0
  {
    var k := n as real;
    var c := 0.51 - 0.01 * k;
    assert Rise(n) == k * c;
    assert k >= 1.0 && c > 0.0;
    assert k * c >= 1.0 * c by {
      assert (k - 1.0) * c >= 0.0;
    }
  }

  /** Frame by frame, a jump from the ground follows the parabola `Rise`. */
  lemma {:induction false} FlightProfile(lane: nat, n: nat)
    requires lane < LaneCount && n <= 50
    ensures Fly(Jump(Runner(lane, GroundY, 0.0, false)), n)
         == Runner(lane, GroundY + Rise(n), JumpStrength + Gravity * n as real, true)
  {
    if n > 0 {
      var p0 := Jump(Runner(lane, GroundY, 0.0, false));
      var m := n - 1;
      FlightProfile(lane, m);
      FlyLast(p0, n);
      RiseStep(m);
      RisePositive(n);
      assert (JumpStrength + Gravity * m as real) + Gravity == JumpStrength + Gravity * n as real;
    }
  }

  /** The last of `n` frames is one more step. */
  lemma {:induction false} FlyLast(p: Runner, n: nat)
    requires RunnerValid(p) && n > 0
    ensures Fly(p, n) == JumpStep(Fly(p, n - 1))
    decreases n
  {
    if n > 1 {
      FlyLast(JumpStep(p), n - 1);
    }
  }

  /** Every jump lasts exactly 51 frames and ends on the ground in the same lane. */
  lemma {:induction false} JumpLands(lane: nat)
    requires lane < LaneCount
    ensures Fly(Jump(Runner(lane, GroundY, 0.0, false)), 50).jumping
    ensures Fly(Jump(Runner(lane, GroundY, 0.0, false)), 51) == Runner(lane, GroundY, 0.0, false)
  {
    var p0 := Jump(Runner(lane, GroundY, 0.0, false));
    FlightProfile(lane, 50);
    FlyLast(p0, 51);
    RiseStep(50);
    assert Rise(51) == 0.0;
  }
}
