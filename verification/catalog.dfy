/**
 The fixed entity catalogue the game builds at start-up (`_createInitialScene`,
 `_createObstaclePool`, `_createCoinPool`): pool capacities and the per-entity data that
 never changes after creation (obstacle type, coin bonus flag and coin value).
 */
module Catalog {

  const SegmentCapacity: nat := 30
  const ObstacleCapacity: nat := 30
  const CoinCapacity: nat := 50

  /** The obstacle types the pool is built with (no triple-lane type is ever created). */
  datatype ObstacleKind = Single | LowBarrier | Wall

  /** Obstacles 0-14 are single, 15-24 low barriers, 25-29 walls. */
  function ObstacleKindOf(id: nat): (k: ObstacleKind)
    ensures k == Single <==> id < 15
    ensures k == Wall <==> 25 <= id
  {
    if id < 15 then Single else if id < 25 then LowBarrier else Wall
  }

  /** The height a single-pattern placement gives each type. */
  function SingleHeight(kind: ObstacleKind): (y: real)
    ensures 0.5 <= y <= 1.5
    ensures y == 0.5 <==> kind == LowBarrier
    ensures y == 1.5 <==> kind == Wall
  {
    match kind
    case LowBarrier => 0.5
    case Wall => 1.5
    case Single => 1.0
  }

  const BonusFromIndex: nat := 40

  /** The last 20% of the coins (`i >= numCoins * 0.8`) are bonus coins. */
  predicate IsBonusCoin(id: nat)
  {
    id >= BonusFromIndex
  }

  /** The value stored on each coin at creation: three times the base for bonus coins. */
  function CoinValueOf(id: nat): (v: nat)
    ensures v == 10 || v == 30
    ensures v == 30 <==> IsBonusCoin(id)
  {
    if IsBonusCoin(id) then 30 else 10
  }
}
