/**
 The endless track: recycling segments behind the runner and generating new ones at the
 frontier (`Game._updateGround`, `_generateNextSegment`, `_generateInitialPath`).

 Segments, obstacles and coins are three pooled banks. A segment is an entity whose
 position is its `mesh.position`; the frontier is `nextPathPosition.z`.
 */
module Track {
  import opened Common
  import opened Pools
  import opened Catalog
  import opened Collectibles

  /** `targetSegments`: the number of segments kept on the track. */
  const TargetSegments: nat := 10
  /** Draws one generated segment may consume (`_tryPlaceCollectibles` uses at most six). */
  const DrawsPerSegment: nat := 6
  /** Draws a full refill may consume. */
  const MaxRefillDraws: nat := 60

  /** Draws a refill starting from `n` active segments may consume. */
  function RefillDraws(n: nat): (d: nat)
    ensures d <= MaxRefillDraws
  {
    if n >= TargetSegments then 0 else DrawsPerSegment * (TargetSegments - n)
  }

  datatype Track = Track(segments: Bank, obstacles: Bank, coins: Bank, frontier: real)

  /** The inputs placement reads from the game: segment length, time, distance and chances. */
  datatype Env = Env(len: nat, elapsed: real, distance: real, obstacleChance: real, coinChance: real)

  predicate EnvOk(env: Env)
  {
    env.distance >= 0.0 && 0.0 <= env.obstacleChance <= 1.0
  }

  /** Every pooled entity is accounted for, in each of the three banks. */
  predicate TrackValid(t: Track)
  {
    && Conserved(t.segments, SegmentCapacity)
    && Conserved(t.obstacles, ObstacleCapacity)
    && Conserved(t.coins, CoinCapacity)
  }

  /** The segment a generation step lays: flat, at the frontier. */
  function SegmentPos(z: real): Pos
  {
    Pos(0.0, 0.0, z)
  }

  /**
   `_generateNextSegment`: take a pooled segment, place it at the frontier, advance the
   frontier by one length and fill the new segment. A no-op on an empty pool.
   */
  function GenerateNextSegment(t: Track, env: Env, rs: seq<real>): (r: (Track, seq<real>))
    requires TrackValid(t) && EnvOk(env) && UnitDraws(rs) && |rs| >= DrawsPerSegment
    ensures TrackValid(r.0) && Consumed(rs, r.1, DrawsPerSegment)
    ensures |t.segments.pool| == 0 ==> r == (t, rs)
    ensures |t.segments.pool| > 0 ==> Laid(t, r.0, env.len, 1)
    ensures InSafetyWindow(env.elapsed, env.distance) ==>
              forall e :: e in r.0.obstacles.active ==> e in t.obstacles.active
    ensures InSafetyWindow(env.elapsed, env.distance) && t.obstacles.active == [] ==>
              r.0.obstacles == t.obstacles
    ensures forall e :: e in r.0.obstacles.active ==>
              e in t.obstacles.active || OnSegment(e, t.frontier, env.len)
  {
    if |t.segments.pool| == 0 then (t, rs)
    else
      var segments := Spawn(t.segments, SegmentPos(t.frontier));
      SpawnConserves(t.segments, SegmentPos(t.frontier), SegmentCapacity);
      var s := TryPlaceCollectibles(t.obstacles, t.coins, t.frontier, env.len, env.elapsed,
                                    env.distance, env.obstacleChance, env.coinChance, rs);
      var r := Track(segments, s.obstacles, s.coins, t.frontier - env.len as real);
      LaidOne(t, r, env.len);
      (r, s.rest)
  }

  /** One segment at the old frontier, with the frontier one length further on, is a lay of one. */
  lemma {:induction false} LaidOne(t: Track, r: Track, len: nat)
    requires Grew(t.segments, r.segments, 1)
    requires r.segments.active[|t.segments.active|].pos == SegmentPos(t.frontier)
    requires r.frontier == t.frontier - len as real
    ensures Laid(t, r, len, 1)
  {
    assert (0 * len) as real == 0.0;
  }

  /**
   `r` extends `t`'s path by `k` segments laid back to back from `t`'s frontier, one
   length apart, and its frontier is `k` lengths further on.
   */
  predicate Laid(t: Track, r: Track, len: nat, k: nat)
  {
    && Grew(t.segments, r.segments, k)
    && r.frontier == t.frontier - (k * len) as real
    && forall i :: 0 <= i < k ==>
         r.segments.active[|t.segments.active| + i].pos == SegmentPos(t.frontier - (i * len) as real)
  }

  /**
   The refill loop of `_updateGround`: generate while fewer than ten segments are active
   and the pool is not empty.
   */
  function Refill(t: Track, env: Env, rs: seq<real>): (r: (Track, seq<real>))
    requires TrackValid(t) && EnvOk(env) && UnitDraws(rs)
    requires |rs| >= RefillDraws(|t.segments.active|)
    ensures TrackValid(r.0) && Consumed(rs, r.1, RefillDraws(|t.segments.active|))
    decreases TargetSegments - |t.segments.active|
  {
    if |t.segments.active| >= TargetSegments then (t, rs)
    else
      ConservedSize(t.segments, SegmentCapacity);
      var (t1, rs1) := GenerateNextSegment(t, env, rs);
      assert UnitDraws(rs1) && |rs1| >= RefillDraws(|t1.segments.active|) by {
        ConsumedUnit(rs, rs1, DrawsPerSegment);
      }
      var r := Refill(t1, env, rs1);
      assert Consumed(rs, r.1, RefillDraws(|t.segments.active|)) by {
        ConsumedTrans(rs, rs1, r.1, DrawsPerSegment, RefillDraws(|t1.segments.active|));
      }
      r
  }

  /**
   The pool never runs dry during a refill: thirty segments exist and at most ten are
   kept, so the path ends up exactly ten segments long, laid back to back from the
   old frontier. A longer path is left alone.
   */
  lemma {:induction false} RefillLays(t: Track, env: Env, rs: seq<real>)
    requires TrackValid(t) && EnvOk(env) && UnitDraws(rs)
    requires |rs| >= RefillDraws(|t.segments.active|)
    ensures |t.segments.active| >= TargetSegments ==> Refill(t, env, rs) == (t, rs)
    ensures |t.segments.active| <= TargetSegments ==>
              Laid(t, Refill(t, env, rs).0, env.len, TargetSegments - |t.segments.active|)
    decreases TargetSegments - |t.segments.active|
  {
    if |t.segments.active| >= TargetSegments {
      assert (0 * env.len) as real == 0.0;
    } else {
      ConservedSize(t.segments, SegmentCapacity);
      var (t1, rs1) := GenerateNextSegment(t, env, rs);
      ConsumedUnit(rs, rs1, DrawsPerSegment);
      RefillLays(t1, env, rs1);
      RefillShift(t, t1, Refill(t1, env, rs1).0, env.len, TargetSegments - |t.segments.active|);
    }
  }

  /** During the safety window a refill places no obstacle: it can only clear them. */
  lemma {:induction false} RefillInWindow(t: Track, env: Env, rs: seq<real>)
    requires TrackValid(t) && EnvOk(env) && UnitDraws(rs)
    requires |rs| >= RefillDraws(|t.segments.active|)
    ensures InSafetyWindow(env.elapsed, env.distance) ==>
              forall e :: e in Refill(t, env, rs).0.obstacles.active ==> e in t.obstacles.active
    ensures InSafetyWindow(env.elapsed, env.distance) && t.obstacles.active == [] ==>
              Refill(t, env, rs).0.obstacles == t.obstacles
    decreases TargetSegments - |t.segments.active|
  {
    if |t.segments.active| < TargetSegments {
      ConservedSize(t.segments, SegmentCapacity);
      var (t1, rs1) := GenerateNextSegment(t, env, rs);
      ConsumedUnit(rs, rs1, DrawsPerSegment);
      RefillInWindow(t1, env, rs1);
    }
  }

  /**
   A refill only adds obstacles on the stretch it lays: every obstacle active afterwards
   was active before or lies between the new and the old frontier.
   */
  lemma {:induction false} RefillObstacles(t: Track, env: Env, rs: seq<real>)
    requires TrackValid(t) && EnvOk(env) && UnitDraws(rs)
    requires |rs| >= RefillDraws(|t.segments.active|)
    ensures var r := Refill(t, env, rs).0;
            && r.frontier <= t.frontier
            && forall e :: e in r.obstacles.active ==>
                 e in t.obstacles.active || r.frontier <= e.pos.z <= t.frontier
    decreases TargetSegments - |t.segments.active|
  {
    if |t.segments.active| < TargetSegments {
      ConservedSize(t.segments, SegmentCapacity);
      var (t1, rs1) := GenerateNextSegment(t, env, rs);
      ConsumedUnit(rs, rs1, DrawsPerSegment);
      RefillObstacles(t1, env, rs1);
      assert t1.frontier == t.frontier - env.len as real;
    }
  }

  /** Laying one segment and then `k - 1` more lays `k`. */
  lemma {:induction false} RefillShift(t: Track, t1: Track, r: Track, len: nat, k: nat)
    requires k > 0 && Laid(t, t1, len, 1) && Laid(t1, r, len, k - 1)
    ensures Laid(t, r, len, k)
  {
    var n := |t.segments.active|;
    assert r.segments.active[..n] == r.segments.active[..n + 1][..n];
    assert ((k - 1) * len) as real + len as real == (k * len) as real;
    forall i | 0 <= i < k
      ensures r.segments.active[n + i].pos == SegmentPos(t.frontier - (i * len) as real)
    {
      if i == 0 {
        assert r.segments.active[n] == r.segments.active[..n + 1][n];
        assert t1.segments.active[n].pos == SegmentPos(t.frontier - (0 * len) as real);
      } else {
        assert n + i == (n + 1) + (i - 1);
        assert ((i - 1) * len) as real + len as real == (i * len) as real;
      }
    }
  }

  /** `segment.z - playerZ > currentSegmentLength * 3`: the segment is far behind the runner. */
  function FarBehind(playerZ: real, len: nat): Entity -> bool
  {
    (e: Entity) => e.pos.z - playerZ > 3.0 * len as real
  }

  /** The part of `[e]` that `hit` keeps. */
  function Kept(e: Entity, hit: Entity -> bool): seq<Entity>
  {
    if hit(e) then [] else [e]
  }

  /**
   One iteration of the recycling loop at index `k`: a segment far behind the runner has
   the objects on it released and returns to the pool.
   */
  function RecycleAt(t: Track, playerZ: real, len: nat, k: nat): (r: Track)
    requires TrackValid(t) && k < |t.segments.active|
    ensures TrackValid(r) && r.frontier == t.frontier
    ensures var a := t.segments.active;
            r.segments.active == a[..k] + Kept(a[k], FarBehind(playerZ, len)) + a[k + 1..]
    ensures var seg := t.segments.active[k];
            FarBehind(playerZ, len)(seg) ==>
              && r.obstacles == ClearSpan(t.obstacles, seg.pos.z, len, ObstacleCapacity)
              && r.coins == ClearSpan(t.coins, seg.pos.z, len, CoinCapacity)
    ensures !FarBehind(playerZ, len)(t.segments.active[k]) ==> r == t
  {
    var seg := t.segments.active[k];
    if FarBehind(playerZ, len)(seg) then
      RemoveAtConserves(t.segments, k, SegmentCapacity);
      Track(RemoveAt(t.segments, k),
            ClearSpan(t.obstacles, seg.pos.z, len, ObstacleCapacity),
            ClearSpan(t.coins, seg.pos.z, len, CoinCapacity),
            t.frontier)
    else
      assert t.segments.active == t.segments.active[..k] + [seg] + t.segments.active[k + 1..];
      t
  }

  /**
   The recycling loop of `_updateGround`, over indices `i - 1` down to `0`: the segments
   that are not far behind stay, in order.
   */
  function Recycle(t: Track, playerZ: real, len: nat, i: nat): (r: Track)
    requires TrackValid(t) && i <= |t.segments.active|
    ensures TrackValid(r) && r.frontier == t.frontier
    ensures r.segments.active
         == Select(t.segments.active[..i], FarBehind(playerZ, len), false) + t.segments.active[i..]
    ensures forall e :: e in r.obstacles.active <==>
              e in t.obstacles.active && !Swept(t.segments.active[..i], playerZ, len, e)
    ensures forall e :: e in r.coins.active <==>
              e in t.coins.active && !Swept(t.segments.active[..i], playerZ, len, e)
    decreases i
  {
    if i == 0 then t
    else
      var t1 := RecycleAt(t, playerZ, len, i - 1);
      var r := Recycle(t1, playerZ, len, i - 1);
      RecycleShift(t.segments.active, t1.segments.active, r.segments.active, FarBehind(playerZ, len), i);
      assert t1.segments.active[..i - 1] == t.segments.active[..i - 1];
      SweptSnoc(t.segments.active, i, playerZ, len);
      r
  }

  /** Some segment of `segs` that is far behind the runner has `e` strictly inside its span. */
  predicate Swept(segs: seq<Entity>, playerZ: real, len: nat, e: Entity)
    decreases |segs|
  {
    && |segs| > 0
    && (|| (FarBehind(playerZ, len)(segs[|segs| - 1]) && InSpan(segs[|segs| - 1].pos.z, len)(e))
        || Swept(segs[..|segs| - 1], playerZ, len, e))
  }

  lemma {:induction false} SweptSnoc(a: seq<Entity>, i: nat, playerZ: real, len: nat)
    requires 0 < i <= |a|
    ensures forall e :: Swept(a[..i], playerZ, len, e) <==>
              || (FarBehind(playerZ, len)(a[i - 1]) && InSpan(a[i - 1].pos.z, len)(e))
              || Swept(a[..i - 1], playerZ, len, e)
  {
    assert a[..i][..i - 1] == a[..i - 1];
  }

  lemma {:induction false} RecycleShift(a: seq<Entity>, a1: seq<Entity>, ra: seq<Entity>, far: Entity -> bool, i: nat)
    requires 0 < i <= |a|
    requires a1 == a[..i - 1] + Kept(a[i - 1], far) + a[i..]
    requires ra == Select(a1[..i - 1], far, false) + a1[i - 1..]
    ensures ra == Select(a[..i], far, false) + a[i..]
  {
    var p, x, s := a[..i - 1], a[i - 1], a[i..];
    var kx := Kept(x, far);
    SelectPrefixSnoc(a, i, far);
    Assoc(p, kx, s);
    SplitAt(a1, p, kx + s);
    Assoc(Select(p, far, false), kx, s);
  }

  lemma {:induction false} Assoc(p: seq<Entity>, q: seq<Entity>, s: seq<Entity>)
    ensures (p + q) + s == p + (q + s)
  {
  }

  lemma {:induction false} SelectPrefixSnoc(a: seq<Entity>, i: nat, far: Entity -> bool)
    requires 0 < i <= |a|
    ensures Select(a[..i], far, false) == Select(a[..i - 1], far, false) + Kept(a[i - 1], far)
  {
    assert a[..i] == a[..i - 1] + [a[i - 1]];
    SelectSnoc(a[..i - 1], a[i - 1], far, false);
  }

  lemma {:induction false} SplitAt(a: seq<Entity>, p: seq<Entity>, s: seq<Entity>)
    requires a == p + s
    ensures a[..|p|] == p && a[|p|..] == s
  {
  }

  /**
   `_updateGround`: recycle every segment more than three lengths behind the runner,
   then refill to ten segments.
   */
  function UpdateGround(t: Track, playerZ: real, env: Env, rs: seq<real>): (r: (Track, seq<real>))
    requires TrackValid(t) && EnvOk(env) && UnitDraws(rs) && |rs| >= MaxRefillDraws
    requires |t.segments.active| <= TargetSegments
    ensures TrackValid(r.0) && Consumed(rs, r.1, MaxRefillDraws)
    ensures |r.0.segments.active| == TargetSegments
    ensures var kept := Select(t.segments.active, FarBehind(playerZ, env.len), false);
            r.0.segments.active[..|kept|] == kept
  {
    var t1 := Recycle(t, playerZ, env.len, |t.segments.active|);
    assert t.segments.active[..|t.segments.active|] == t.segments.active;
    RefillLays(t1, env, rs);
    Refill(t1, env, rs)
  }

  /**
   The ground update releases the obstacles on recycled segments: an obstacle active
   afterwards was active before and inside no recycled segment's span, or it was placed
   on the stretch the refill laid.
   */
  lemma {:induction false} UpdateGroundReleases(t: Track, playerZ: real, env: Env, rs: seq<real>)
    requires TrackValid(t) && EnvOk(env) && UnitDraws(rs) && |rs| >= MaxRefillDraws
    requires |t.segments.active| <= TargetSegments
    ensures var r := UpdateGround(t, playerZ, env, rs).0;
            forall e :: e in r.obstacles.active ==>
              || (e in t.obstacles.active && !Swept(t.segments.active, playerZ, env.len, e))
              || r.frontier <= e.pos.z <= t.frontier
  {
    var t1 := Recycle(t, playerZ, env.len, |t.segments.active|);
    assert t.segments.active[..|t.segments.active|] == t.segments.active;
    RefillObstacles(t1, env, rs);
    SweptStayGone(t, t1, Refill(t1, env, rs).0, playerZ, env.len);
  }

  /** Recycling then refilling: a surviving obstacle escaped every recycled span or was laid anew. */
  lemma {:induction false} SweptStayGone(t: Track, t1: Track, r: Track, playerZ: real, len: nat)
    requires t1.frontier == t.frontier
    requires forall e :: e in t1.obstacles.active <==>
               e in t.obstacles.active && !Swept(t.segments.active, playerZ, len, e)
    requires forall e :: e in r.obstacles.active ==>
               e in t1.obstacles.active || r.frontier <= e.pos.z <= t1.frontier
    ensures forall e :: e in r.obstacles.active ==>
              || (e in t.obstacles.active && !Swept(t.segments.active, playerZ, len, e))
              || r.frontier <= e.pos.z <= t.frontier
  {
  }

  /** Every active segment back to the pool, in path order; the other kinds untouched. */
  function ReturnSegments(t: Track): (r: Track)
    requires TrackValid(t)
    ensures TrackValid(r) && r.segments.active == []
    ensures r.segments.pool == t.segments.pool + Ids(t.segments.active)
    ensures r.obstacles == t.obstacles && r.coins == t.coins && r.frontier == t.frontier
  {
    assert Ids([]) == [];
    t.(segments := Bank(t.segments.pool + Ids(t.segments.active), []))
  }

  /** A refill of an empty path lays ten segments back from the frontier. */
  lemma {:induction false} RefillFromEmpty(t: Track, env: Env, rs: seq<real>)
    requires TrackValid(t) && EnvOk(env) && UnitDraws(rs) && |rs| >= MaxRefillDraws
    requires t.segments.active == []
    ensures var r := Refill(t, env, rs).0;
            && |r.segments.active| == TargetSegments
            && r.frontier == t.frontier - (TargetSegments * env.len) as real
            && forall i :: 0 <= i < TargetSegments ==>
                 r.segments.active[i].pos == SegmentPos(t.frontier - (i * env.len) as real)
  {
    var r := Refill(t, env, rs).0;
    RefillLays(t, env, rs);
    LaidFromEmpty(t, r, env.len);
  }

  /** Segments laid onto an empty path are the whole path. */
  lemma {:induction false} LaidFromEmpty(t: Track, r: Track, len: nat)
    requires t.segments.active == [] && Laid(t, r, len, TargetSegments)
    ensures |r.segments.active| == TargetSegments
    ensures r.frontier == t.frontier - (TargetSegments * len) as real
    ensures forall i :: 0 <= i < TargetSegments ==>
              r.segments.active[i].pos == SegmentPos(t.frontier - (i * len) as real)
  {
    forall i | 0 <= i < TargetSegments
      ensures r.segments.active[i].pos == SegmentPos(t.frontier - (i * len) as real)
    {
      assert r.segments.active[|t.segments.active| + i] == r.segments.active[i];
    }
  }

  /**
   `_generateInitialPath`: every active segment returns to the pool in path order, then
   ten segments are laid from the frontier. The source's loop runs `min(10, pool)` times
   with a pool check; since the path starts empty this is the refill loop.
   */
  function InitialPath(t: Track, env: Env, rs: seq<real>): (r: (Track, seq<real>))
    requires TrackValid(t) && EnvOk(env) && UnitDraws(rs) && |rs| >= MaxRefillDraws
    ensures TrackValid(r.0) && Consumed(rs, r.1, MaxRefillDraws)
    ensures |r.0.segments.active| == TargetSegments
    ensures r.0.frontier == t.frontier - (TargetSegments * env.len) as real
    ensures forall i :: 0 <= i < TargetSegments ==>
              r.0.segments.active[i].pos == SegmentPos(t.frontier - (i * env.len) as real)
    ensures InSafetyWindow(env.elapsed, env.distance) ==>
              forall e :: e in r.0.obstacles.active ==> e in t.obstacles.active
    ensures InSafetyWindow(env.elapsed, env.distance) && t.obstacles.active == [] ==>
              r.0.obstacles == t.obstacles
  {
    var t0 := ReturnSegments(t);
    RefillFromEmpty(t0, env, rs);
    RefillInWindow(t0, env, rs);
    Refill(t0, env, rs)
  }
}
