/**
 The spawn planner: what `Game._tryPlaceCollectibles` puts on a newly placed track
 segment, and the obstacle and coin patterns it delegates to.

 Each `Math.random()` call is the next element of a draw stream `rs` (reals in [0, 1));
 every placement returns the stream that is left, so the draws are consumed in the same
 order as in the source.
 */
module Collectibles {
  import opened Common
  import opened Pools
  import opened Catalog
  import Difficulty

  const SafetyPeriod: real := 3.0
  const SafetyDistance: real := 15.0
  /** Coin probability inside the safety window. */
  const SafetyCoinChance: real := 0.7
  const EarlyDistance: real := 100.0
  const EarlyObstacleChance: real := 0.8
  const BonusChance: real := 0.3

  /** A placement's result: the bank after it and the draws left over. */
  datatype Placed = Placed(bank: Bank, rest: seq<real>)

  /** What a segment receives after the one decision draw. */
  datatype Choice = Empty | Obstacles | Coins

  /** Obstacles stay blocked until BOTH 3 s have elapsed AND 15 units were run. */
  predicate InSafetyWindow(elapsed: real, distance: real)
  {
    elapsed < SafetyPeriod || distance < SafetyDistance
  }

  /** `adjustedObstacleChance` past the safety window. */
  function AdjustedObstacleChance(elapsed: real, distance: real, activeObstacles: nat, obstacleChance: real): (p: real)
    requires 0.0 <= obstacleChance <= 1.0
    ensures obstacleChance <= p <= 1.0
    ensures elapsed >= SafetyPeriod && activeObstacles == 0 ==> p == 1.0
    ensures distance < EarlyDistance ==> p >= EarlyObstacleChance
    ensures !(elapsed >= SafetyPeriod && activeObstacles == 0) && distance < EarlyDistance ==>
              p == Max(obstacleChance, EarlyObstacleChance)
    ensures distance >= EarlyDistance && activeObstacles > 0 ==> p == obstacleChance
  {
    if elapsed >= SafetyPeriod && activeObstacles == 0 then 1.0
    else if distance < EarlyDistance then Max(obstacleChance, EarlyObstacleChance)
    else obstacleChance
  }

  /** The three-way split on the single decision draw. */
  function Choose(draw: real, elapsed: real, distance: real, activeObstacles: nat,
                  obstacleChance: real, coinChance: real): (c: Choice)
    requires 0.0 <= draw < 1.0 && 0.0 <= obstacleChance <= 1.0
    ensures InSafetyWindow(elapsed, distance) ==> c != Obstacles
    ensures InSafetyWindow(elapsed, distance) ==> (c == Coins <==> draw < SafetyCoinChance)
    ensures !InSafetyWindow(elapsed, distance) && activeObstacles == 0 ==> c == Obstacles
    ensures !InSafetyWindow(elapsed, distance) ==>
              var p := AdjustedObstacleChance(elapsed, distance, activeObstacles, obstacleChance);
              (c == Obstacles <==> draw < p) && (c == Coins <==> p <= draw < p + coinChance)
  {
    if InSafetyWindow(elapsed, distance) then
      if draw < SafetyCoinChance then Coins else Empty
    else
      var p := AdjustedObstacleChance(elapsed, distance, activeObstacles, obstacleChance);
      if draw < p then Obstacles
      else if draw < p + coinChance then Coins
      else Empty
  }

  // ---------------------------------------------------------------- obstacles

  datatype ObstaclePattern = SinglePattern | DoublePattern | GapPattern

  /** `['single', 'double', 'gap'][index]`, with the difficulty gates applied. */
  function ObstaclePatternFor(index: nat, level: nat): (p: ObstaclePattern)
    requires index < 3
    ensures p == DoublePattern <==> index == 1 && level >= 2
    ensures p == GapPattern <==> index == 2 && level >= 3
  {
    if index == 1 && level >= 2 then DoublePattern
    else if index == 2 && level >= 3 then GapPattern
    else SinglePattern
  }

  predicate IsLaneX(x: real)
  {
    x == LaneX(0) || x == LaneX(1) || x == LaneX(2)
  }

  /** Obstacles are dropped into the first 80% of the segment's length. */
  predicate OnSegment(e: Entity, segZ: real, len: nat)
  {
    segZ - 0.8 * len as real <= e.pos.z <= segZ
  }

  /** The bank grew by entities placed in a lane on the segment; nothing else changed. */
  predicate ObstaclesAdded(b: Bank, r: Bank, segZ: real, len: nat)
  {
    && |b.active| <= |r.active|
    && r.active[..|b.active|] == b.active
    && forall e :: e in r.active[|b.active|..] ==> IsLaneX(e.pos.x) && OnSegment(e, segZ, len)
  }

  /** After obstacles were added, every active obstacle was active before or lies on the segment. */
  lemma {:induction false} AddedFrom(b: Bank, r: Bank, segZ: real, len: nat)
    requires ObstaclesAdded(b, r, segZ, len)
    ensures forall e :: e in r.active ==> e in b.active || OnSegment(e, segZ, len)
  {
    assert r.active == r.active[..|b.active|] + r.active[|b.active|..];
  }

  /** `segment.position.z - Math.random() * currentSegmentLength * 0.8` */
  function ObstacleZ(segZ: real, len: nat, d: real): (z: real)
    requires 0.0 <= d < 1.0
    ensures segZ - 0.8 * len as real <= z <= segZ
  {
    MulUnit(d, len as real);
    segZ - d * len as real * 0.8
  }

  /** `_placeSingleObstacle`: one obstacle in a random lane, height by its type. */
  function PlaceSingle(b: Bank, segZ: real, len: nat, rs: seq<real>): (r: Placed)
    requires Conserved(b, ObstacleCapacity) && UnitDraws(rs) && |rs| >= 2
    ensures Conserved(r.bank, ObstacleCapacity) && Consumed(rs, r.rest, 2)
    ensures ObstaclesAdded(b, r.bank, segZ, len)
    ensures |b.pool| == 0 ==> r.bank == b && r.rest == rs
    ensures |b.pool| > 0 ==> |r.bank.active| == |b.active| + 1
    ensures forall e :: e in r.bank.active[|b.active|..] ==> e.pos.y == SingleHeight(ObstacleKindOf(e.id))
  {
    if |b.pool| == 0 then Placed(b, rs)
    else
      var id := b.pool[|b.pool| - 1];
      var lane := PickIndex(rs[0], LaneCount);
      var pos := Pos(LaneX(lane), SingleHeight(ObstacleKindOf(id)), ObstacleZ(segZ, len, rs[1]));
      SpawnConserves(b, pos, ObstacleCapacity);
      var b' := Spawn(b, pos);
      assert b'.active[|b.active|..] == [Entity(id, pos)];
      Placed(b', rs[2..])
  }

  /** The lanes left free once `taken` is occupied, in increasing order. */
  function OtherLanes(taken: nat): (lanes: seq<nat>)
    requires taken < LaneCount
    ensures |lanes| == 2 && lanes[0] < lanes[1] < LaneCount
    ensures taken !in lanes
  {
    if taken == 0 then [1, 2] else if taken == 1 then [0, 2] else [0, 1]
  }

  /** Two obstacles popped from the pool, the first placed at `p1` and the second at `p2`. */
  function PlaceTwo(b: Bank, p1: Pos, p2: Pos, segZ: real, len: nat): (r: Bank)
    requires |b.pool| >= 2
    requires IsLaneX(p1.x) && segZ - 0.8 * len as real <= p1.z <= segZ
    requires IsLaneX(p2.x) && segZ - 0.8 * len as real <= p2.z <= segZ
    ensures PlacedAt(b, r, [p1, p2])
    ensures ObstaclesAdded(b, r, segZ, len)
    ensures |r.active| == |b.active| + 2
    ensures r.active[|b.active|].pos == p1 && r.active[|b.active| + 1].pos == p2
  {
    PopPlaceAt(b, [p1, p2]);
    TwoAdded(b, PopPlace(b, [p1, p2]), p1, p2, segZ, len);
    PopPlace(b, [p1, p2])
  }

  lemma {:induction false} TwoAdded(b: Bank, r: Bank, p1: Pos, p2: Pos, segZ: real, len: nat)
    requires PlacedAt(b, r, [p1, p2])
    requires IsLaneX(p1.x) && segZ - 0.8 * len as real <= p1.z <= segZ
    requires IsLaneX(p2.x) && segZ - 0.8 * len as real <= p2.z <= segZ
    ensures ObstaclesAdded(b, r, segZ, len)
    ensures |r.active| == |b.active| + 2
    ensures r.active[|b.active|].pos == p1 && r.active[|b.active| + 1].pos == p2
  {
    var n := |b.active|;
    assert r.active[n].pos == [p1, p2][0] && r.active[n + 1].pos == [p1, p2][1];
    assert r.active[n..] == [r.active[n], r.active[n + 1]];
    forall e | e in r.active[n..]
      ensures IsLaneX(e.pos.x) && OnSegment(e, segZ, len)
    {
      assert e.pos == p1 || e.pos == p2;
    }
  }

  /** `_placeDoubleObstacle`: two obstacles in two distinct random lanes. */
  function PlaceDouble(b: Bank, segZ: real, len: nat, rs: seq<real>): (r: Placed)
    requires Conserved(b, ObstacleCapacity) && UnitDraws(rs) && |rs| >= 4
    ensures Conserved(r.bank, ObstacleCapacity) && Consumed(rs, r.rest, 4)
    ensures ObstaclesAdded(b, r.bank, segZ, len)
    ensures |b.pool| < 2 ==> r == PlaceSingle(b, segZ, len, rs)
    ensures |b.pool| >= 2 ==>
              && |r.bank.active| == |b.active| + 2
              && r.bank.active[|b.active|].pos.x != r.bank.active[|b.active| + 1].pos.x
              && r.bank.active[|b.active|].pos.y == 1.0 == r.bank.active[|b.active| + 1].pos.y
  {
    if |b.pool| < 2 then PlaceSingle(b, segZ, len, rs)
    else
      var first := PickIndex(rs[0], LaneCount);
      var p1 := Pos(LaneX(first), 1.0, ObstacleZ(segZ, len, rs[1]));
      var second := OtherLanes(first)[PickIndex(rs[2], 2)];
      var p2 := Pos(LaneX(second), 1.0, ObstacleZ(segZ, len, rs[3]));
      var b' := PlaceTwo(b, p1, p2, segZ, len);
      PopPlaceConserves(b, [p1, p2], ObstacleCapacity);
      LaneXInjective(first, second);
      Placed(b', rs[4..])
  }

  /** `_placeGapObstacle`: obstacles in exactly the two lanes other than a random gap lane. */
  function PlaceGap(b: Bank, segZ: real, len: nat, rs: seq<real>): (r: Placed)
    requires Conserved(b, ObstacleCapacity) && UnitDraws(rs) && |rs| >= 3
    ensures Conserved(r.bank, ObstacleCapacity) && Consumed(rs, r.rest, 3)
    ensures ObstaclesAdded(b, r.bank, segZ, len)
    ensures |b.pool| < 2 ==> r == PlaceSingle(b, segZ, len, rs)
    ensures |b.pool| >= 2 ==>
              var gap := PickIndex(rs[0], LaneCount);
              && |r.bank.active| == |b.active| + 2
              && r.bank.active[|b.active|].pos.x != LaneX(gap)
              && r.bank.active[|b.active| + 1].pos.x != LaneX(gap)
              && r.bank.active[|b.active|].pos.x != r.bank.active[|b.active| + 1].pos.x
  {
    if |b.pool| < 2 then PlaceSingle(b, segZ, len, rs)
    else
      var gap := PickIndex(rs[0], LaneCount);
      // The source loops over lanes 0..2 skipping the gap; its pool check always passes
      // because two obstacles are available.
      var lanes := OtherLanes(gap);
      var p1 := Pos(LaneX(lanes[0]), 1.0, ObstacleZ(segZ, len, rs[1]));
      var p2 := Pos(LaneX(lanes[1]), 1.0, ObstacleZ(segZ, len, rs[2]));
      var b' := PlaceTwo(b, p1, p2, segZ, len);
      PopPlaceConserves(b, [p1, p2], ObstacleCapacity);
      LaneXInjective(lanes[0], gap);
      LaneXInjective(lanes[1], gap);
      LaneXInjective(lanes[0], lanes[1]);
      Placed(b', rs[3..])
  }

  /** `_placeObstacles`: nothing on an empty pool, else a pattern gated by the level. */
  function PlaceObstacles(b: Bank, segZ: real, len: nat, level: nat, rs: seq<real>): (r: Placed)
    requires Conserved(b, ObstacleCapacity) && UnitDraws(rs) && |rs| >= 5
    ensures Conserved(r.bank, ObstacleCapacity) && Consumed(rs, r.rest, 5)
    ensures ObstaclesAdded(b, r.bank, segZ, len)
    ensures |b.pool| == 0 ==> r.bank == b
    ensures |b.pool| > 0 ==> |b.active| + 1 <= |r.bank.active| <= |b.active| + 2
    ensures |r.bank.active| == |b.active| + 2 ==> level >= 2 && |b.pool| >= 2
  {
    if |b.pool| == 0 then Placed(b, rs)
    else
      var rs1 := rs[1..];
      ConsumedUnit(rs, rs1, 1);
      var r := match ObstaclePatternFor(PickIndex(rs[0], 3), level)
        case SinglePattern => PlaceSingle(b, segZ, len, rs1)
        case DoublePattern => PlaceDouble(b, segZ, len, rs1)
        case GapPattern => PlaceGap(b, segZ, len, rs1);
      ConsumedTrans(rs, rs1, r.rest, 1, 4);
      r
  }

  // ---------------------------------------------------------------- coins

  /** The effective coin patterns; the source's `circle` pattern has no case and falls back to a line. */
  datatype CoinPattern = Line | ZigZag | WallGrid | Bonus

  /** `Object.values(coinPatterns)[index]` with the difficulty gates and the bonus draw applied. */
  function CoinPatternFor(index: nat, level: nat, bonusDraw: real): (p: CoinPattern)
    requires index < 5
    ensures p == ZigZag <==> index == 1 && level >= 1
    ensures p == WallGrid <==> index == 3 && level >= 2
    ensures p == Bonus <==> index == 4 && level >= 3 && bonusDraw < BonusChance
  {
    if index == 1 && level >= 1 then ZigZag
    else if index == 3 && level >= 2 then WallGrid
    else if index == 4 && level >= 3 && bonusDraw < BonusChance then Bonus
    else Line
  }

  function MinNat(a: nat, b: nat): (m: nat)
    ensures m <= a && m <= b && (m == a || m == b)
  {
    if a <= b then a else b
  }

  /** The bank grew by `k` entities and nothing already active changed. */
  predicate Grew(b: Bank, r: Bank, k: nat)
  {
    |r.active| == |b.active| + k && r.active[..|b.active|] == b.active
  }

  function LineRow(lane: nat, startZ: real, k: nat): (ps: seq<Pos>)
    requires lane < LaneCount
    ensures |ps| == k
  {
    seq(k, i => Pos(LaneX(lane), 1.2, startZ - 3.0 * i as real))
  }

  /** `_placeLineCoinPattern`: up to five coins in one lane, three units apart. */
  function PlaceLine(b: Bank, segZ: real, len: nat, rs: seq<real>): (r: Placed)
    requires Conserved(b, CoinCapacity) && UnitDraws(rs) && |rs| >= 1
    ensures Conserved(r.bank, CoinCapacity) && Consumed(rs, r.rest, 1)
    ensures Grew(b, r.bank, MinNat(5, |b.pool|))
    ensures forall i, j :: |b.active| <= i < j < |r.bank.active| ==>
              r.bank.active[i].pos.x == r.bank.active[j].pos.x
              && r.bank.active[i].pos.y == r.bank.active[j].pos.y == 1.2
              && r.bank.active[j].pos.z == r.bank.active[i].pos.z - 3.0 * (j - i) as real
  {
    var k := MinNat(5, |b.pool|);
    if k == 0 then Placed(b, rs)
    else
      var lane := PickIndex(rs[0], LaneCount);
      var ps := LineRow(lane, segZ - len as real * 0.2, k);
      PopPlaceConserves(b, ps, CoinCapacity);
      LinePlaced(b, ps, lane, segZ - len as real * 0.2);
      Placed(PopPlace(b, ps), rs[1..])
  }

  /** Coins popped onto a `LineRow` share a lane and a height and lie three units apart. */
  lemma {:induction false} LinePlaced(b: Bank, ps: seq<Pos>, lane: nat, startZ: real)
    requires lane < LaneCount && ps == LineRow(lane, startZ, |ps|) && |ps| <= |b.pool|
    ensures Grew(b, PopPlace(b, ps), |ps|)
    ensures var r := PopPlace(b, ps).active;
            forall i, j :: |b.active| <= i < j < |r| ==>
              r[i].pos.x == r[j].pos.x && r[i].pos.y == r[j].pos.y == 1.2 && r[j].pos.z == r[i].pos.z - 3.0 * (j - i) as real
  {
    PopPlaceAt(b, ps);
    LineRowSpacing(b, PopPlace(b, ps), ps);
  }

  lemma {:induction false} LineRowSpacing(b: Bank, r: Bank, ps: seq<Pos>)
    requires PlacedAt(b, r, ps)
    requires forall i :: 0 <= i < |ps| ==> ps[i].x == ps[0].x && ps[i].y == 1.2 && ps[i].z == ps[0].z - 3.0 * i as real
    ensures forall i, j :: |b.active| <= i < j < |r.active| ==>
              r.active[i].pos.x == r.active[j].pos.x && r.active[i].pos.y == r.active[j].pos.y == 1.2
              && r.active[j].pos.z == r.active[i].pos.z - 3.0 * (j - i) as real
  {
    forall i, j | |b.active| <= i < j < |r.active|
      ensures r.active[i].pos.x == r.active[j].pos.x && r.active[i].pos.y == r.active[j].pos.y == 1.2
              && r.active[j].pos.z == r.active[i].pos.z - 3.0 * (j - i) as real
    {
      var i', j' := i - |b.active|, j - |b.active|;
      assert r.active[i].pos == ps[i'] && r.active[j].pos == ps[j'];
      assert (j - i) as real == j' as real - i' as real;
    }
  }

  /** The zig-zag loop: coin `i` is four units after coin `i - 1`; the lane advances after every odd coin. */
  function ZigZagRow(lane: nat, startZ: real, i: nat, k: nat): (ps: seq<Pos>)
    requires lane < LaneCount && i <= k
    ensures |ps| == k - i
    decreases k - i
  {
    if i == k then []
    else
      var next := if i % 2 == 1 then (lane + 1) % LaneCount else lane;
      [Pos(LaneX(lane), 1.2, startZ - 4.0 * i as real)] + ZigZagRow(next, startZ, i + 1, k)
  }

  /** The lane of zig-zag coin `i` when the first coin is in lane `first`. */
  function ZigZagLane(first: nat, i: nat): (lane: nat)
    requires first < LaneCount
    ensures lane < LaneCount
  {
    (first + i / 2) % LaneCount
  }

  /** One step of the loop's lane update agrees with the closed form. */
  lemma {:induction false} ZigZagLaneStep(first: nat, i: nat)
    requires first < LaneCount
    ensures (if i % 2 == 1 then (ZigZagLane(first, i) + 1) % LaneCount else ZigZagLane(first, i))
            == ZigZagLane(first, i + 1)
  {
    if i % 2 == 1 {
      assert (i + 1) / 2 == i / 2 + 1;
    } else {
      assert (i + 1) / 2 == i / 2;
    }
  }

  /** Closed form of the zig-zag loop: coin `i` sits in lane `(first + i / 2) mod 3`. */
  lemma {:induction false} ZigZagLanes(first: nat, startZ: real, i: nat, k: nat)
    requires first < LaneCount && i <= k
    ensures forall j :: i <= j < k ==>
              ZigZagRow(ZigZagLane(first, i), startZ, i, k)[j - i].x == LaneX(ZigZagLane(first, j))
    decreases k - i
  {
    if i < k {
      var lane := ZigZagLane(first, i);
      ZigZagLaneStep(first, i);
      ZigZagLanes(first, startZ, i + 1, k);
      var ps := ZigZagRow(lane, startZ, i, k);
      var tail := ZigZagRow(ZigZagLane(first, i + 1), startZ, i + 1, k);
      assert ps == [Pos(LaneX(lane), 1.2, startZ - 4.0 * i as real)] + tail;
      forall j | i <= j < k
        ensures ps[j - i].x == LaneX(ZigZagLane(first, j))
      {
        if j == i {
          assert ps[0].x == LaneX(lane);
        } else {
          assert ps[j - i] == tail[j - (i + 1)];
        }
      }
    }
  }

  /** Coins placed along a zig-zag row follow the closed-form lane sequence. */
  lemma {:induction false} ZigZagPlaced(b: Bank, r: Bank, first: nat, startZ: real, k: nat)
    requires first < LaneCount && PlacedAt(b, r, ZigZagRow(first, startZ, 0, k))
    ensures forall i :: 0 <= i < k ==> r.active[|b.active| + i].pos.x == LaneX(ZigZagLane(first, i))
  {
    assert ZigZagLane(first, 0) == first;
    ZigZagLanes(first, startZ, 0, k);
  }

  /** `_placeZigZagCoinPattern`: up to six coins, switching lane after every second coin. */
  function PlaceZigZag(b: Bank, segZ: real, len: nat, rs: seq<real>): (r: Placed)
    requires Conserved(b, CoinCapacity) && UnitDraws(rs) && |rs| >= 1
    ensures Conserved(r.bank, CoinCapacity) && Consumed(rs, r.rest, 1)
    ensures Grew(b, r.bank, MinNat(6, |b.pool|))
    ensures |b.pool| > 0 ==>
              forall i :: 0 <= i < MinNat(6, |b.pool|) ==>
                r.bank.active[|b.active| + i].pos.x == LaneX(ZigZagLane(PickIndex(rs[0], LaneCount), i))
  {
    var k := MinNat(6, |b.pool|);
    if k == 0 then Placed(b, rs)
    else
      var first := PickIndex(rs[0], LaneCount);
      var startZ := segZ - len as real * 0.1;
      var ps := ZigZagRow(first, startZ, 0, k);
      PopPlaceConserves(b, ps, CoinCapacity);
      PopPlaceAt(b, ps);
      var b' := PopPlace(b, ps);
      assert PlacedAt(b, b', ZigZagRow(first, startZ, 0, k));
      ZigZagPlaced(b, b', first, startZ, k);
      Placed(b', rs[1..])
  }

  /** The 3x3 grid, filled row by row: coin `i` is in lane `i mod 3` of row `i / 3`. */
  function WallRows(startZ: real, k: nat): (ps: seq<Pos>)
    requires k <= 9
    ensures |ps| == k
  {
    seq(k, i requires 0 <= i < k => Pos(LaneX(i % 3), 1.2 + 0.8 * (i / 3) as real, startZ - 2.0 * (i / 3) as real))
  }

  /** No two coins of a wall share a spot. */
  lemma {:induction false} WallRowsDistinct(b: Bank, r: Bank, startZ: real, k: nat)
    requires k <= 9 && PlacedAt(b, r, WallRows(startZ, k))
    ensures forall i, j :: |b.active| <= i < j < |r.active| ==> r.active[i].pos != r.active[j].pos
  {
    var ps := WallRows(startZ, k);
    forall i, j | |b.active| <= i < j < |r.active|
      ensures r.active[i].pos != r.active[j].pos
    {
      var i', j' := i - |b.active|, j - |b.active|;
      assert r.active[i].pos == ps[i'] && r.active[j].pos == ps[j'];
      if i' / 3 == j' / 3 {
        assert i' % 3 != j' % 3;
        LaneXInjective(i' % 3, j' % 3);
      }
    }
  }

  /** `_placeWallCoinPattern`: up to nine coins in a lane-by-height grid; no draw. */
  function PlaceWall(b: Bank, segZ: real, len: nat, rs: seq<real>): (r: Placed)
    requires Conserved(b, CoinCapacity)
    ensures Conserved(r.bank, CoinCapacity) && r.rest == rs
    ensures Grew(b, r.bank, MinNat(9, |b.pool|))
    ensures forall i, j :: |b.active| <= i < j < |r.bank.active| ==>
              r.bank.active[i].pos != r.bank.active[j].pos
  {
    var k := MinNat(9, |b.pool|);
    if k == 0 then Placed(b, rs)
    else
      var startZ := segZ - len as real * 0.3;
      var ps := WallRows(startZ, k);
      PopPlaceConserves(b, ps, CoinCapacity);
      PopPlaceAt(b, ps);
      var b' := PopPlace(b, ps);
      assert PlacedAt(b, b', WallRows(startZ, k));
      WallRowsDistinct(b, b', startZ, k);
      Placed(b', rs)
  }

  /** `coinPool.filter(c => c.userData.isBonus && !c.visible)`: pooled coins are never visible. */
  function BonusIds(pool: seq<nat>): (ids: seq<nat>)
    ensures multiset(ids) <= multiset(pool)
    ensures forall id :: id in ids <==> id in pool && IsBonusCoin(id)
  {
    if pool == [] then []
    else
      assert pool == [pool[0]] + pool[1..];
      if IsBonusCoin(pool[0]) then [pool[0]] + BonusIds(pool[1..]) else BonusIds(pool[1..])
  }

  function BonusRow(startZ: real, k: nat): (ps: seq<Pos>)
    requires k <= LaneCount
    ensures |ps| == k
  {
    seq(k, i requires 0 <= i < k => Pos(LaneX(i), 1.5, startZ))
  }

  /** The first `k` bonus ids of a pool are bonus coins, all in the pool. */
  lemma {:induction false} BonusPrefix(pool: seq<nat>, k: nat)
    requires k <= |BonusIds(pool)|
    ensures multiset(BonusIds(pool)[..k]) <= multiset(pool)
    ensures forall i :: 0 <= i < k ==> IsBonusCoin(BonusIds(pool)[i])
  {
    var bonus := BonusIds(pool);
    assert bonus == bonus[..k] + bonus[k..];
    assert forall i :: 0 <= i < k ==> bonus[i] in bonus;
  }

  /** Bonus coins spliced onto a `BonusRow` take one lane each, in order. */
  lemma {:induction false} BonusRowPlaced(b: Bank, ids: seq<nat>, startZ: real)
    requires |ids| <= LaneCount && forall i :: 0 <= i < |ids| ==> IsBonusCoin(ids[i])
    ensures var r := SpliceEach(b, ids, BonusRow(startZ, |ids|));
            && Grew(b, r, |ids|)
            && forall i :: |b.active| <= i < |r.active| ==>
                 IsBonusCoin(r.active[i].id) && r.active[i].pos.x == LaneX(i - |b.active|)
  {
    var ps := BonusRow(startZ, |ids|);
    var r := SpliceEach(b, ids, ps);
    assert r.active == b.active + Zip(ids, ps);
    forall i | |b.active| <= i < |r.active|
      ensures IsBonusCoin(r.active[i].id) && r.active[i].pos.x == LaneX(i - |b.active|)
    {
      assert r.active[i] == Entity(ids[i - |b.active|], ps[i - |b.active|]);
    }
  }

  /**
   `_placeBonusCoinPattern`: up to three bonus coins, spliced out of the middle of the
   pool, one per lane; a plain line when the pool holds no bonus coin.
   */
  function PlaceBonus(b: Bank, segZ: real, len: nat, rs: seq<real>): (r: Placed)
    requires Conserved(b, CoinCapacity) && UnitDraws(rs) && |rs| >= 1
    ensures Conserved(r.bank, CoinCapacity) && Consumed(rs, r.rest, 1)
    ensures |BonusIds(b.pool)| == 0 ==> r == PlaceLine(b, segZ, len, rs)
    ensures |BonusIds(b.pool)| > 0 ==>
              && Grew(b, r.bank, MinNat(3, |BonusIds(b.pool)|))
              && r.rest == rs
              && forall i :: |b.active| <= i < |r.bank.active| ==>
                   IsBonusCoin(r.bank.active[i].id) && r.bank.active[i].pos.x == LaneX(i - |b.active|)
  {
    var bonus := BonusIds(b.pool);
    var k := MinNat(3, |bonus|);
    if k == 0 then PlaceLine(b, segZ, len, rs)
    else
      BonusPrefix(b.pool, k);
      Placed(SpliceBonus(b, bonus[..k], segZ - len as real * 0.4), rs)
  }

  /** Splice the given bonus coins out of the pool onto one row, one lane each. */
  function SpliceBonus(b: Bank, ids: seq<nat>, startZ: real): (r: Bank)
    requires Conserved(b, CoinCapacity) && |ids| <= LaneCount
    requires multiset(ids) <= multiset(b.pool)
    requires forall i :: 0 <= i < |ids| ==> IsBonusCoin(ids[i])
    ensures Conserved(r, CoinCapacity) && Grew(b, r, |ids|)
    ensures forall i :: |b.active| <= i < |r.active| ==>
              IsBonusCoin(r.active[i].id) && r.active[i].pos.x == LaneX(i - |b.active|)
  {
    var ps := BonusRow(startZ, |ids|);
    SpliceEachConserves(b, ids, ps, CoinCapacity);
    BonusRowPlaced(b, ids, startZ);
    SpliceEach(b, ids, ps)
  }

  /** `_placeCoins`: one pattern draw, the gates, then the pattern. */
  function PlaceCoins(b: Bank, segZ: real, len: nat, level: nat, rs: seq<real>): (r: Placed)
    requires Conserved(b, CoinCapacity) && UnitDraws(rs) && |rs| >= 3
    ensures Conserved(r.bank, CoinCapacity) && Consumed(rs, r.rest, 3)
    ensures Placement(b, r.bank)
  {
    var index := PickIndex(rs[0], 5);
    var gateDrawn := index == 4 && level >= 3;
    var rs1 := if gateDrawn then rs[2..] else rs[1..];
    assert Consumed(rs, rs1, 2);
    ConsumedUnit(rs, rs1, 2);
    var r := match CoinPatternFor(index, level, rs[1])
      case Line =>
        (GrewSome(b, PlaceLine(b, segZ, len, rs1).bank, MinNat(5, |b.pool|));
         PlaceLine(b, segZ, len, rs1))
      case ZigZag =>
        (GrewSome(b, PlaceZigZag(b, segZ, len, rs1).bank, MinNat(6, |b.pool|));
         PlaceZigZag(b, segZ, len, rs1))
      case WallGrid =>
        (GrewSome(b, PlaceWall(b, segZ, len, rs1).bank, MinNat(9, |b.pool|));
         PlaceWall(b, segZ, len, rs1))
      case Bonus =>
        (BonusSome(b, segZ, len, rs1);
         PlaceBonus(b, segZ, len, rs1));
    ConsumedTrans(rs, rs1, r.rest, 2, 1);
    r
  }

  /** What every coin pattern does to the coin bank: add up to nine coins, and some whenever the pool has any. */
  predicate Placement(b: Bank, r: Bank)
  {
    && |b.active| <= |r.active| <= |b.active| + 9
    && r.active[..|b.active|] == b.active
    && (|b.pool| > 0 <==> |r.active| > |b.active|)
  }

  lemma {:induction false} GrewSome(b: Bank, r: Bank, k: nat)
    requires Grew(b, r, k) && k <= 9 && (|b.pool| > 0 <==> k > 0)
    ensures Placement(b, r)
  {
  }

  lemma {:induction false} BonusSome(b: Bank, segZ: real, len: nat, rs: seq<real>)
    requires Conserved(b, CoinCapacity) && UnitDraws(rs) && |rs| >= 1
    ensures Placement(b, PlaceBonus(b, segZ, len, rs).bank)
  {
    var bonus := BonusIds(b.pool);
    var r := PlaceBonus(b, segZ, len, rs).bank;
    if |bonus| == 0 {
      assert Grew(b, r, MinNat(5, |b.pool|));
      GrewSome(b, r, MinNat(5, |b.pool|));
    } else {
      assert Grew(b, r, MinNat(3, |bonus|));
      assert bonus[0] in b.pool by {
        assert bonus[0] in bonus;
      }
      GrewSome(b, r, MinNat(3, |bonus|));
    }
  }


  // ---------------------------------------------------------------- the planner

  /** The objects strictly inside a segment's span (`segZ - length < z < segZ`). */
  function InSpan(segZ: real, len: nat): Entity -> bool
  {
    (e: Entity) => segZ - len as real < e.pos.z < segZ
  }

  /** `_deactivateObjectsOnSegment` for one kind of entity. */
  function ClearSpan(b: Bank, segZ: real, len: nat, cap: nat): (r: Bank)
    requires Conserved(b, cap)
    ensures Conserved(r, cap)
    ensures forall e :: e in r.active <==> e in b.active && !InSpan(segZ, len)(e)
    ensures b.active == [] ==> r == b
  {
    ReleaseEachConserves(b, InSpan(segZ, len), cap);
    ReleaseEach(b, b.active, InSpan(segZ, len))
  }

  datatype Spawned = Spawned(obstacles: Bank, coins: Bank, rest: seq<real>)

  /**
   `_tryPlaceCollectibles`: clear the segment's span, then draw once and place
   obstacles, coins or nothing.
   */
  function TryPlaceCollectibles(obstacles: Bank, coins: Bank, segZ: real, len: nat,
                                elapsed: real, distance: real,
                                obstacleChance: real, coinChance: real,
                                rs: seq<real>): (r: Spawned)
    requires Conserved(obstacles, ObstacleCapacity) && Conserved(coins, CoinCapacity)
    requires UnitDraws(rs) && |rs| >= 6
    requires distance >= 0.0 && 0.0 <= obstacleChance <= 1.0
    ensures Conserved(r.obstacles, ObstacleCapacity) && Conserved(r.coins, CoinCapacity)
    ensures Consumed(rs, r.rest, 6)
    ensures var cleared := ClearSpan(obstacles, segZ, len, ObstacleCapacity);
            InSafetyWindow(elapsed, distance) ==> r.obstacles == cleared
    ensures var cleared := ClearSpan(obstacles, segZ, len, ObstacleCapacity);
            !InSafetyWindow(elapsed, distance) && cleared.active == [] ==>
              |r.obstacles.active| > 0
    ensures var cleared := ClearSpan(obstacles, segZ, len, ObstacleCapacity);
            var cc := ClearSpan(coins, segZ, len, CoinCapacity);
            var c := Choose(rs[0], elapsed, distance, |cleared.active|, obstacleChance, coinChance);
            && (c == Empty ==> r.obstacles == cleared && r.coins == cc)
            && (c == Coins ==> r.obstacles == cleared && Placement(cc, r.coins))
            && (c == Obstacles ==> r.coins == cc && ObstaclesAdded(cleared, r.obstacles, segZ, len)
                                   && (|cleared.pool| > 0 ==> |r.obstacles.active| > |cleared.active|))
    ensures forall e :: e in r.obstacles.active ==> e in obstacles.active || OnSegment(e, segZ, len)
  {
    var obs := ClearSpan(obstacles, segZ, len, ObstacleCapacity);
    var cns := ClearSpan(coins, segZ, len, CoinCapacity);
    var level := Difficulty.Level(distance);
    var rs1 := rs[1..];
    ConsumedUnit(rs, rs1, 1);
    ConservedFacts(obs, ObstacleCapacity);
    match Choose(rs[0], elapsed, distance, |obs.active|, obstacleChance, coinChance)
    case Empty => Spawned(obs, cns, rs1)
    case Obstacles =>
      var p := PlaceObstacles(obs, segZ, len, level, rs1);
      ConsumedTrans(rs, rs1, p.rest, 1, 5);
      AddedFrom(obs, p.bank, segZ, len);
      Spawned(p.bank, cns, p.rest)
    case Coins =>
      var p := PlaceCoins(cns, segZ, len, level, rs1);
      ConsumedTrans(rs, rs1, p.rest, 1, 3);
      Spawned(obs, p.bank, p.rest)
  }
}
