/**
 Collision and scoring (`Game._checkCollisions`) and the score tiers of
 `_updateScoreLevel`.

 Bounding boxes (`Box3.setFromObject`) are inputs: one box for the runner and a box
 function for obstacles and for coins. Every active entity is visible, so the source's
 `visible` tests always pass.
 */
module Collision {
  import opened Pools
  import opened Catalog

  /** An axis-aligned box with corners `lo <= hi`. */
  datatype Box = Box(lo: Pos, hi: Pos)

  /** `Box3.intersectsBox`: the closed intervals overlap on all three axes; touching counts. */
  predicate Intersects(a: Box, b: Box)
  {
    && a.lo.x <= b.hi.x && b.lo.x <= a.hi.x
    && a.lo.y <= b.hi.y && b.lo.y <= a.hi.y
    && a.lo.z <= b.hi.z && b.lo.z <= a.hi.z
  }

  /** The entities whose box the runner's box touches. */
  function Touches(player: Box, box: Entity -> Box): Entity -> bool
  {
    (e: Entity) => Intersects(player, box(e))
  }

  /** The obstacle loop: the index of the first obstacle touched, or -1 when none is. */
  function FirstHit(es: seq<Entity>, hit: Entity -> bool): (i: int)
    ensures -1 <= i < |es|
    ensures i >= 0 ==> hit(es[i]) && forall j :: 0 <= j < i ==> !hit(es[j])
    ensures i == -1 <==> forall j :: 0 <= j < |es| ==> !hit(es[j])
  {
    if es == [] then -1
    else if hit(es[0]) then 0
    else
      var j := FirstHit(es[1..], hit);
      assert forall k :: 1 <= k < |es| ==> es[k] == es[1..][k - 1];
      if j == -1 then -1 else j + 1
  }

  /**
   `coin.userData.value || this.coinValue`: the stored value unless it is falsy. The
   stored value is never 0, so the level-dependent fallback never applies.
   */
  function CoinScore(id: nat, coinValue: int): (v: int)
    ensures v == CoinValueOf(id)
  {
    if CoinValueOf(id) != 0 then CoinValueOf(id) else coinValue
  }

  /** Total stored value of a list of coins. */
  function ValueSum(es: seq<Entity>): (v: nat)
    ensures 10 * |es| <= v <= 30 * |es|
  {
    if es == [] then 0 else CoinValueOf(es[0].id) + ValueSum(es[1..])
  }

  /**
   The coin loop over a snapshot of the active coins: every touched coin is released
   and its score added, in list order. It releases exactly what the generic release
   fold releases, and scores the touched coins' stored values.
   */
  function Collect(score: int, b: Bank, snapshot: seq<Entity>, touched: Entity -> bool, coinValue: int): (r: (int, Bank))
    ensures r.1 == ReleaseEach(b, snapshot, touched)
    ensures r.0 == score + ValueSum(Select(snapshot, touched, true))
    decreases |snapshot|
  {
    if snapshot == [] then (score, b)
    else
      var c := snapshot[0];
      if touched(c) then
        var r := Collect(score + CoinScore(c.id, coinValue), Deactivate(b, c), snapshot[1..], touched, coinValue);
        assert ([c] + Select(snapshot[1..], touched, true))[1..] == Select(snapshot[1..], touched, true);
        r
      else
        Collect(score, b, snapshot[1..], touched, coinValue)
  }

  datatype Outcome = Outcome(score: int, gameOver: bool, coins: Bank)

  /**
   `_checkCollisions`: the first touched obstacle ends the game before any coin is
   looked at; otherwise every touched coin is collected once and scores its value.
   */
  function CheckCollisions(score: int, gameOver: bool, obstacles: seq<Entity>, coins: Bank,
                           player: Box, obstacleBox: Entity -> Box, coinBox: Entity -> Box,
                           coinValue: int): (r: Outcome)
    requires Conserved(coins, CoinCapacity)
    ensures Conserved(r.coins, CoinCapacity)
    ensures r.score >= score
    ensures FirstHit(obstacles, Touches(player, obstacleBox)) >= 0 ==> r == Outcome(score, true, coins)
    ensures FirstHit(obstacles, Touches(player, obstacleBox)) == -1 ==>
              var got := Select(coins.active, Touches(player, coinBox), true);
              && r.gameOver == gameOver
              && r.coins == Bank(coins.pool + Ids(got), Select(coins.active, Touches(player, coinBox), false))
              && r.score == score + ValueSum(got)
  {
    if FirstHit(obstacles, Touches(player, obstacleBox)) >= 0 then Outcome(score, true, coins)
    else
      ConservedFacts(coins, CoinCapacity);
      ReleaseEachPartitions(coins, Touches(player, coinBox));
      ReleaseEachConserves(coins, Touches(player, coinBox), CoinCapacity);
      var (s, b) := Collect(score, coins, coins.active, Touches(player, coinBox), coinValue);
      Outcome(s, gameOver, b)
  }

  lemma {:induction false} SelectNone(es: seq<Entity>, hit: Entity -> bool)
    requires forall e :: e in es ==> !hit(e)
    ensures Select(es, hit, true) == [] && Select(es, hit, false) == es
  {
    if es != [] {
      SelectNone(es[1..], hit);
      assert es == [es[0]] + es[1..];
    }
  }

  /**
   A collected coin never scores again: checking a second time with the same boxes
   finds no touched coin, adds nothing and leaves the coins alone.
   */
  lemma {:induction false} CollisionIdempotent(score: int, gameOver: bool, obstacles: seq<Entity>, coins: Bank,
                            player: Box, obstacleBox: Entity -> Box, coinBox: Entity -> Box,
                            coinValue: int)
    requires Conserved(coins, CoinCapacity)
    requires FirstHit(obstacles, Touches(player, obstacleBox)) == -1
    ensures var r := CheckCollisions(score, gameOver, obstacles, coins, player, obstacleBox, coinBox, coinValue);
            CheckCollisions(r.score, r.gameOver, obstacles, r.coins, player, obstacleBox, coinBox, coinValue) == r
  {
    var r := CheckCollisions(score, gameOver, obstacles, coins, player, obstacleBox, coinBox, coinValue);
    SelectNone(r.coins.active, Touches(player, coinBox));
    assert Ids([]) == [];
    assert r.coins.pool + [] == r.coins.pool;
  }

  // ---------------------------------------------------------------- score tiers

  /** The base colour classes of `_updateScoreLevel`, lowest first. */
  datatype Tier = Low | Medium | High | Ultra | Legendary

  const TierThresholds: seq<int> := [500, 1500, 3000, 5000]

  function TierRank(t: Tier): nat
  {
    match t
    case Low => 0
    case Medium => 1
    case High => 2
    case Ultra => 3
    case Legendary => 4
  }

  /** How many of the thresholds a score has reached. */
  function Reached(thresholds: seq<int>, score: int): (n: nat)
    ensures n <= |thresholds|
  {
    if thresholds == [] then 0
    else (if thresholds[0] <= score then 1 else 0) + Reached(thresholds[1..], score)
  }

  /** `_updateScoreLevel`: the tier is the number of thresholds the score has reached. */
  function ScoreTier(score: int): (t: Tier)
    ensures TierRank(t) == Reached(TierThresholds, score)
  {
    assert [5000][1..] == [] && [3000, 5000][1..] == [5000] && [1500, 3000, 5000][1..] == [3000, 5000];
    assert TierThresholds[1..] == [1500, 3000, 5000];
    var r4 := Reached([5000], score);
    var r3 := Reached([3000, 5000], score);
    var r2 := Reached([1500, 3000, 5000], score);
    assert r4 == if 5000 <= score then 1 else 0;
    assert r3 == (if 3000 <= score then 1 else 0) + r4;
    assert r2 == (if 1500 <= score then 1 else 0) + r3;
    if score < 500 then Low
    else if score < 1500 then Medium
    else if score < 3000 then High
    else if score < 5000 then Ultra
    else Legendary
  }

  lemma {:induction false} ReachedMonotone(thresholds: seq<int>, s1: int, s2: int)
    requires s1 <= s2
    ensures Reached(thresholds, s1) <= Reached(thresholds, s2)
  {
    if thresholds != [] {
      ReachedMonotone(thresholds[1..], s1, s2);
    }
  }

  /** A higher score never shows a lower tier. */
  lemma {:induction false} ScoreTierMonotone(s1: int, s2: int)
    requires s1 <= s2
    ensures TierRank(ScoreTier(s1)) <= TierRank(ScoreTier(s2))
  {
    ReachedMonotone(TierThresholds, s1, s2);
  }
}
