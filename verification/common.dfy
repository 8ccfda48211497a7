/**
 Small numeric helpers shared by the simulation and the music sequencer.

 Reals stand in for the JavaScript doubles of the game; `Math.round` is modelled as
 `Floor(x + 0.5)` and `Math.random()` draws are passed in as reals in [0, 1).
 */
module Common {

  datatype Option<T> = None | Some(value: T)

  function Min(a: real, b: real): (r: real)
    ensures r <= a && r <= b
    ensures r == a || r == b
  {
    if a <= b then a else b
  }

  function Max(a: real, b: real): (r: real)
    ensures r >= a && r >= b
    ensures r == a || r == b
  {
    if a >= b then a else b
  }

  /** `Math.min(Math.max(x, lo), hi)` */
  function Clamp(x: real, lo: real, hi: real): (r: real)
    requires lo <= hi
    ensures lo <= r <= hi
    ensures lo <= x <= hi ==> r == x
    ensures x < lo ==> r == lo
    ensures x > hi ==> r == hi
  {
    Min(Max(x, lo), hi)
  }

  lemma {:induction false} ClampMonotone(x: real, y: real, lo: real, hi: real)
    requires lo <= hi && x <= y
    ensures Clamp(x, lo, hi) <= Clamp(y, lo, hi)
  {
  }

  /** JavaScript `Math.round` on the idealised reals: the nearest integer, halves upwards. */
  function Round(x: real): (r: int)
    ensures x - 0.5 < r as real <= x + 0.5
  {
    (x + 0.5).Floor
  }

  lemma {:induction false} RoundMonotone(x: real, y: real)
    requires x <= y
    ensures Round(x) <= Round(y)
  {
  }

  /** True of a stream of `Math.random()` results. */
  predicate UnitDraws(rs: seq<real>)
  {
    forall i :: 0 <= i < |rs| ==> 0.0 <= rs[i] < 1.0
  }

  /** `Math.floor(Math.random() * n)`: a uniformly chosen index below `n`. */
  function PickIndex(d: real, n: nat): (i: nat)
    requires 0.0 <= d < 1.0 && n > 0
    ensures i < n
    ensures i as real <= d * n as real < i as real + 1.0
  {
    var m := n as real;
    assert 0.0 <= d * m < m by {
      MulNonNegative(d, m);
      MulPositive(1.0 - d, m);
      assert d * m == m - (1.0 - d) * m;
    }
    (d * m).Floor
  }

  lemma {:induction false} MulNonNegative(a: real, b: real)
    requires 0.0 <= a && 0.0 <= b
    ensures 0.0 <= a * b
  {
  }

  lemma {:induction false} MulPositive(a: real, b: real)
    requires 0.0 < a && 0.0 < b
    ensures 0.0 < a * b
  {
  }

  /** A fraction of a non-negative quantity lies between zero and the quantity. */
  lemma {:induction false} MulUnit(d: real, x: real)
    requires 0.0 <= d <= 1.0 && 0.0 <= x
    ensures 0.0 <= d * x <= x
  {
    if d < 1.0 {
      assert (1.0 - d) * x >= 0.0;
    }
  }

  /** X coordinates of the three lanes (`this.lanes`). */
  const LaneCount: nat := 3

  function LaneX(lane: nat): real
    requires lane < LaneCount
  {
    if lane == 0 then -3.0 else if lane == 1 then 0.0 else 3.0
  }

  lemma {:induction false} LaneXInjective(a: nat, b: nat)
    requires a < LaneCount && b < LaneCount
    ensures LaneX(a) == LaneX(b) <==> a == b
  {
  }

  /** `rest` is what is left of the draw stream `rs` after at most `n` draws. */
  predicate Consumed(rs: seq<real>, rest: seq<real>, n: nat)
  {
    |rs| - n <= |rest| <= |rs| && rest == rs[|rs| - |rest|..]
  }

  lemma {:induction false} ConsumedUnit(rs: seq<real>, rest: seq<real>, n: nat)
    requires UnitDraws(rs) && Consumed(rs, rest, n)
    ensures UnitDraws(rest)
  {
    var k := |rs| - |rest|;
    forall i | 0 <= i < |rest|
      ensures 0.0 <= rest[i] < 1.0
    {
      assert rest[i] == rs[k + i];
    }
  }

  lemma {:induction false} ConsumedTrans(rs: seq<real>, mid: seq<real>, rest: seq<real>, m: nat, n: nat)
    requires Consumed(rs, mid, m) && Consumed(mid, rest, n)
    ensures Consumed(rs, rest, m + n)
  {
    var k := |rs| - |mid|;
    var j := |mid| - |rest|;
    assert rest == rs[k..][j..];
    assert rs[k..][j..] == rs[k + j..];
  }
}
