/**
 The object pools of the game: a fixed number of pre-built entities per kind (segments,
 obstacles, coins), each either waiting in the pool or in the active list.

 An entity is identified by its index at creation (0 .. capacity-1). The pool holds the
 ids of the inactive entities, in the order the source's array holds them; the active
 list holds the placed entities with their positions. The source's `visible` flag is
 true exactly for the active entities, so it is represented by membership in `active`.
 */
module Pools {

  datatype Pos = Pos(x: real, y: real, z: real)

  datatype Entity = Entity(id: nat, pos: Pos)

  datatype Bank = Bank(pool: seq<nat>, active: seq<Entity>)

  function Ids(es: seq<Entity>): (ids: seq<nat>)
    ensures |ids| == |es|
    ensures forall i :: 0 <= i < |es| ==> ids[i] == es[i].id
  {
    seq(|es|, i requires 0 <= i < |es| => es[i].id)
  }

  lemma {:induction false} IdsAppend(a: seq<Entity>, b: seq<Entity>)
    ensures Ids(a + b) == Ids(a) + Ids(b)
  {
  }

  /** The ids an entity kind is created with: 0, 1, ..., cap - 1. */
  function AllIds(cap: nat): (ids: seq<nat>)
    ensures |ids| == cap
    ensures forall i :: 0 <= i < cap ==> ids[i] == i
  {
    seq(cap, i => i)
  }

  lemma {:induction false} AllIdsCount(cap: nat, x: nat)
    ensures multiset(AllIds(cap))[x] == if x < cap then 1 else 0
  {
    if cap > 0 {
      assert AllIds(cap) == AllIds(cap - 1) + [cap - 1];
      AllIdsCount(cap - 1, x);
    }
  }

  /**
   Pool conservation: every entity of the kind is in exactly one of the two lists, so
   `pool.length + active.length == capacity` and no entity is in both.
   */
  predicate Conserved(b: Bank, cap: nat)
  {
    multiset(b.pool) + multiset(Ids(b.active)) == multiset(AllIds(cap))
  }

  /** No id occurs twice. */
  ghost predicate Unique(ids: seq<nat>)
  {
    forall x :: multiset(ids)[x] <= 1
  }

  /** The consequences of conservation the rest of the model relies on. */
  lemma {:induction false} ConservedFacts(b: Bank, cap: nat)
    requires Conserved(b, cap)
    ensures |b.pool| + |b.active| == cap
    ensures forall x :: x in b.pool ==> x !in Ids(b.active)
    ensures forall x :: x in b.pool ==> x < cap
    ensures forall x :: x in Ids(b.active) ==> x < cap
    ensures Unique(b.pool) && Unique(Ids(b.active))
  {
    assert |multiset(b.pool) + multiset(Ids(b.active))| == |multiset(AllIds(cap))|;
    forall x: nat
      ensures multiset(b.pool)[x] + multiset(Ids(b.active))[x] == if x < cap then 1 else 0
    {
      AllIdsCount(cap, x);
      assert (multiset(b.pool) + multiset(Ids(b.active)))[x] == multiset(AllIds(cap))[x];
    }
    forall x | x in b.pool
      ensures x !in Ids(b.active) && x < cap
    {
      assert multiset(b.pool)[x] >= 1;
    }
    forall x | x in Ids(b.active)
      ensures x < cap
    {
      assert multiset(Ids(b.active))[x] >= 1;
    }
  }

  /** The counting half of conservation on its own. */
  lemma {:induction false} ConservedSize(b: Bank, cap: nat)
    requires Conserved(b, cap)
    ensures |b.pool| + |b.active| == cap
  {
    assert |multiset(b.pool) + multiset(Ids(b.active))| == |multiset(AllIds(cap))|;
  }

  /** A kind right after creation: everything pooled, in creation order. */
  function Fresh(cap: nat): (b: Bank)
    ensures Conserved(b, cap)
    ensures |b.pool| == cap && b.active == []
  {
    Bank(AllIds(cap), [])
  }

  /** Pops the last pooled entity and places it at `pos` (a spawn). */
  function Spawn(b: Bank, pos: Pos): (r: Bank)
    requires |b.pool| > 0
    ensures |r.pool| == |b.pool| - 1 && |r.active| == |b.active| + 1
    ensures r.active[..|b.active|] == b.active
    ensures r.active[|b.active|].pos == pos
    ensures r.active[|b.active|].id in b.pool
    ensures r.pool + [r.active[|b.active|].id] == b.pool
  {
    Bank(b.pool[..|b.pool| - 1], b.active + [Entity(b.pool[|b.pool| - 1], pos)])
  }

  lemma {:induction false} SpawnConserves(b: Bank, pos: Pos, cap: nat)
    requires |b.pool| > 0 && Conserved(b, cap)
    ensures Conserved(Spawn(b, pos), cap)
  {
    var n := |b.pool|;
    assert b.pool == b.pool[..n - 1] + [b.pool[n - 1]];
    IdsAppend(b.active, [Entity(b.pool[n - 1], pos)]);
  }

  /** The active list without the entity with this id (`activeX.filter(o => o !== x)`). */
  function RemoveId(es: seq<Entity>, id: nat): (r: seq<Entity>)
    ensures forall e :: e in r <==> e in es && e.id != id
    ensures |r| <= |es|
  {
    if es == [] then []
    else if es[0].id == id then RemoveId(es[1..], id)
    else [es[0]] + RemoveId(es[1..], id)
  }

  lemma {:induction false} IdsCons(e: Entity, rest: seq<Entity>)
    ensures Ids([e] + rest) == [e.id] + Ids(rest)
  {
  }

  lemma {:induction false} RemoveIdCount(es: seq<Entity>, id: nat, x: nat)
    ensures multiset(Ids(RemoveId(es, id)))[x] == if x == id then 0 else multiset(Ids(es))[x]
  {
    if es != [] {
      var rest := es[1..];
      RemoveIdCount(rest, id, x);
      assert es == [es[0]] + rest;
      IdsCons(es[0], rest);
      if es[0].id != id {
        IdsCons(es[0], RemoveId(rest, id));
      }
    }
  }

  lemma {:induction false} RemoveIdCounts(es: seq<Entity>, id: nat)
    ensures multiset(Ids(RemoveId(es, id))) == multiset(Ids(es))[id := 0]
  {
    forall x: nat
      ensures multiset(Ids(RemoveId(es, id)))[x] == multiset(Ids(es))[id := 0][x]
    {
      RemoveIdCount(es, id, x);
    }
  }

  lemma {:induction false} RemoveIdAbsent(es: seq<Entity>, id: nat)
    requires id !in Ids(es)
    ensures RemoveId(es, id) == es
  {
    if es != [] {
      assert es[0].id == Ids(es)[0];
      assert Ids(es[1..]) == Ids(es)[1..];
      RemoveIdAbsent(es[1..], id);
    }
  }

  lemma {:induction false} RemoveIdAppend(a: seq<Entity>, b: seq<Entity>, id: nat)
    ensures RemoveId(a + b, id) == RemoveId(a, id) + RemoveId(b, id)
  {
    if a != [] {
      assert (a + b)[0] == a[0];
      assert (a + b)[1..] == a[1..] + b;
      RemoveIdAppend(a[1..], b, id);
    } else {
      assert a + b == b;
    }
  }

  /**
   `_deactivateObstacle` / `_deactivateCoin`: hide the entity, drop it from the active
   list and push it back onto the pool.
   */
  function Deactivate(b: Bank, e: Entity): (r: Bank)
    ensures r.pool == b.pool + [e.id]
    ensures forall x :: x in r.active <==> x in b.active && x.id != e.id
  {
    Bank(b.pool + [e.id], RemoveId(b.active, e.id))
  }

  /** Releasing an active entity keeps the pool conserved. */
  lemma {:induction false} DeactivateConserves(b: Bank, e: Entity, cap: nat)
    requires Conserved(b, cap) && e.id in Ids(b.active)
    ensures Conserved(Deactivate(b, e), cap)
    ensures |Deactivate(b, e).active| == |b.active| - 1
  {
    ConservedFacts(b, cap);
    RemoveIdCounts(b.active, e.id);
    var m := multiset(Ids(b.active));
    assert m[e.id] == 1;
    assert m[e.id := 0] + multiset{e.id} == m;
    assert |multiset(Ids(RemoveId(b.active, e.id)))| == |m| - 1;
  }

  /** The entities of `es` on which `hit` is `keep`, in order. */
  function Select(es: seq<Entity>, hit: Entity -> bool, keep: bool): (r: seq<Entity>)
    ensures forall e :: e in r <==> e in es && hit(e) == keep
    ensures |r| <= |es|
  {
    if es == [] then []
    else if hit(es[0]) == keep then [es[0]] + Select(es[1..], hit, keep)
    else Select(es[1..], hit, keep)
  }

  lemma {:induction false} SelectSplits(es: seq<Entity>, hit: Entity -> bool)
    ensures multiset(Ids(Select(es, hit, true))) + multiset(Ids(Select(es, hit, false)))
         == multiset(Ids(es))
    ensures |Select(es, hit, true)| + |Select(es, hit, false)| == |es|
  {
    if es != [] {
      SelectSplits(es[1..], hit);
      assert es == [es[0]] + es[1..];
      IdsAppend([es[0]], es[1..]);
      IdsAppend([es[0]], Select(es[1..], hit, hit(es[0])));
    }
  }

  /**
   The source's release loops (`[...active].forEach(x => { if (hit(x)) deactivate(x) })`):
   walk a snapshot of the active list and release every entity `hit` selects.
   */
  function ReleaseEach(b: Bank, snapshot: seq<Entity>, hit: Entity -> bool): Bank
    decreases |snapshot|
  {
    if snapshot == [] then b
    else ReleaseEach(if hit(snapshot[0]) then Deactivate(b, snapshot[0]) else b, snapshot[1..], hit)
  }

  lemma {:induction false} UniqueMiddle(kept: seq<Entity>, e: Entity, rest: seq<Entity>)
    requires Unique(Ids(kept + [e] + rest))
    ensures e.id !in Ids(kept) && e.id !in Ids(rest)
    ensures Unique(Ids(kept + rest))
  {
    IdsAppend(kept + [e], rest);
    IdsAppend(kept, [e]);
    IdsAppend(kept, rest);
    var m := multiset(Ids(kept + [e] + rest));
    assert m == multiset(Ids(kept)) + multiset{e.id} + multiset(Ids(rest));
    assert m[e.id] <= 1;
    forall x
      ensures multiset(Ids(kept + rest))[x] <= 1
    {
      assert multiset(Ids(kept + rest))[x] <= m[x];
    }
  }

  lemma {:induction false} RemoveMiddle(kept: seq<Entity>, e: Entity, rest: seq<Entity>)
    requires e.id !in Ids(kept) && e.id !in Ids(rest)
    ensures RemoveId(kept + [e] + rest, e.id) == kept + rest
  {
    RemoveIdAbsent(kept, e.id);
    RemoveIdAbsent(rest, e.id);
    assert RemoveId([e], e.id) == [] by {
      assert [e][1..] == [];
    }
    RemoveIdAppend(kept, [e], e.id);
    assert RemoveId(kept + [e], e.id) == kept;
    RemoveIdAppend(kept + [e], rest, e.id);
  }

  /** One turn of the release loop that releases the entity in front of the snapshot. */
  lemma {:induction false} ReleaseHitStep(b: Bank, kept: seq<Entity>, snapshot: seq<Entity>)
    requires snapshot != [] && b.active == kept + snapshot
    requires Unique(Ids(kept + snapshot))
    ensures Deactivate(b, snapshot[0]).active == kept + snapshot[1..]
    ensures Unique(Ids(kept + snapshot[1..]))
  {
    var e := snapshot[0];
    var rest := snapshot[1..];
    assert snapshot == [e] + rest;
    assert kept + snapshot == kept + [e] + rest;
    UniqueMiddle(kept, e, rest);
    RemoveMiddle(kept, e, rest);
  }

  /** A released entity joins the back of the pool ahead of the ones released after it. */
  lemma {:induction false} ReleaseHitOrder(pool: seq<nat>, snapshot: seq<Entity>, hit: Entity -> bool)
    requires snapshot != [] && hit(snapshot[0])
    ensures (pool + [snapshot[0].id]) + Ids(Select(snapshot[1..], hit, true))
         == pool + Ids(Select(snapshot, hit, true))
    ensures Select(snapshot[1..], hit, false) == Select(snapshot, hit, false)
  {
    var e := snapshot[0];
    var sel := Select(snapshot[1..], hit, true);
    assert Select(snapshot, hit, true) == [e] + sel;
    IdsCons(e, sel);
    assert (pool + [e.id]) + Ids(sel) == pool + ([e.id] + Ids(sel));
  }

  /** One turn of the release loop that keeps the entity in front of the snapshot. */
  lemma {:induction false} KeepStep(b: Bank, kept: seq<Entity>, snapshot: seq<Entity>, hit: Entity -> bool)
    requires snapshot != [] && !hit(snapshot[0]) && b.active == kept + snapshot
    ensures b.active == (kept + [snapshot[0]]) + snapshot[1..]
    ensures Select(snapshot[1..], hit, true) == Select(snapshot, hit, true)
    ensures (kept + [snapshot[0]]) + Select(snapshot[1..], hit, false) == kept + Select(snapshot, hit, false)
  {
    var e := snapshot[0];
    var rest := snapshot[1..];
    assert snapshot == [e] + rest;
    assert Select(snapshot, hit, false) == [e] + Select(rest, hit, false);
  }

  lemma {:induction false} ReleaseEachGeneral(b: Bank, kept: seq<Entity>, snapshot: seq<Entity>, hit: Entity -> bool)
    requires b.active == kept + snapshot
    requires Unique(Ids(kept + snapshot))
    ensures ReleaseEach(b, snapshot, hit)
         == Bank(b.pool + Ids(Select(snapshot, hit, true)), kept + Select(snapshot, hit, false))
    decreases |snapshot|
  {
    if snapshot != [] {
      var e := snapshot[0];
      if hit(e) {
        ReleaseHitStep(b, kept, snapshot);
        ReleaseHitOrder(b.pool, snapshot, hit);
        ReleaseEachGeneral(Deactivate(b, e), kept, snapshot[1..], hit);
      } else {
        KeepStep(b, kept, snapshot, hit);
        ReleaseEachGeneral(b, kept + [e], snapshot[1..], hit);
      }
    }
  }

  /**
   The release loop over the whole active list is a partition: the released entities
   go to the back of the pool in their active-list order, the rest stay active in order.
   */
  lemma {:induction false} ReleaseEachPartitions(b: Bank, hit: Entity -> bool)
    requires Unique(Ids(b.active))
    ensures ReleaseEach(b, b.active, hit)
         == Bank(b.pool + Ids(Select(b.active, hit, true)), Select(b.active, hit, false))
  {
    assert b.active == [] + b.active;
    ReleaseEachGeneral(b, [], b.active, hit);
  }

  /** Releasing by any criterion keeps the pool conserved and releases exactly the hits. */
  lemma {:induction false} ReleaseEachConserves(b: Bank, hit: Entity -> bool, cap: nat)
    requires Conserved(b, cap)
    ensures Conserved(ReleaseEach(b, b.active, hit), cap)
    ensures ReleaseEach(b, b.active, hit).active == Select(b.active, hit, false)
    ensures |ReleaseEach(b, b.active, hit).pool| == |b.pool| + |Select(b.active, hit, true)|
  {
    ConservedFacts(b, cap);
    ReleaseEachPartitions(b, hit);
    SelectSplits(b.active, hit);
  }

  /** Filtering a sequence extended at the back extends the filtered sequence the same way. */
  lemma {:induction false} SelectSnoc(es: seq<Entity>, e: Entity, hit: Entity -> bool, keep: bool)
    ensures Select(es + [e], hit, keep)
         == Select(es, hit, keep) + (if hit(e) == keep then [e] else [])
  {
    if es == [] {
      assert [e][1..] == [];
    } else {
      assert (es + [e])[0] == es[0];
      assert (es + [e])[1..] == es[1..] + [e];
      SelectSnoc(es[1..], e, hit, keep);
    }
  }

  /** `list.splice(k, 1)` followed by `pool.push(x)`: return the entity at index `k` to the pool. */
  function RemoveAt(b: Bank, k: nat): (r: Bank)
    requires k < |b.active|
    ensures r.pool == b.pool + [b.active[k].id]
    ensures r.active == b.active[..k] + b.active[k + 1..]
  {
    Bank(b.pool + [b.active[k].id], b.active[..k] + b.active[k + 1..])
  }

  lemma {:induction false} RemoveAtConserves(b: Bank, k: nat, cap: nat)
    requires k < |b.active| && Conserved(b, cap)
    ensures Conserved(RemoveAt(b, k), cap)
  {
    var a := b.active;
    assert a == a[..k] + [a[k]] + a[k + 1..];
    IdsAppend(a[..k] + [a[k]], a[k + 1..]);
    IdsAppend(a[..k], [a[k]]);
    IdsAppend(a[..k], a[k + 1..]);
  }

  /** `array.indexOf(x)`: the first position of `x`, or -1. */
  function IndexOf(s: seq<nat>, x: nat): (i: int)
    ensures -1 <= i < |s|
    ensures i >= 0 ==> s[i] == x && x !in s[..i]
    ensures i == -1 <==> x !in s
  {
    if s == [] then -1
    else if s[0] == x then 0
    else var j := IndexOf(s[1..], x); if j == -1 then -1 else j + 1
  }

  /**
   The bonus pattern's placement: splice the coin out of the middle of the pool when it
   is there (`pool.splice(pool.indexOf(coin), 1)`) and activate it at `pos`.
   */
  function SpliceOut(b: Bank, id: nat, pos: Pos): (r: Bank)
    ensures id in b.pool ==> multiset(r.pool) == multiset(b.pool) - multiset{id}
    ensures id !in b.pool ==> r.pool == b.pool
    ensures r.active == b.active + [Entity(id, pos)]
  {
    var i := IndexOf(b.pool, id);
    var pool := if i > -1 then b.pool[..i] + b.pool[i + 1..] else b.pool;
    assert i > -1 ==> b.pool == b.pool[..i] + [id] + b.pool[i + 1..];
    Bank(pool, b.active + [Entity(id, pos)])
  }

  lemma {:induction false} SpliceOutConserves(b: Bank, id: nat, pos: Pos, cap: nat)
    requires Conserved(b, cap) && id in b.pool
    ensures Conserved(SpliceOut(b, id, pos), cap)
  {
    IdsAppend(b.active, [Entity(id, pos)]);
  }

  /** The entities the pops of `PopPlace` produce: the pool's last id goes to the first position. */
  function Popped(pool: seq<nat>, ps: seq<Pos>): (es: seq<Entity>)
    requires |ps| <= |pool|
    ensures |es| == |ps|
    ensures forall i :: 0 <= i < |ps| ==> es[i] == Entity(pool[|pool| - 1 - i], ps[i])
  {
    seq(|ps|, i requires 0 <= i < |ps| => Entity(pool[|pool| - 1 - i], ps[i]))
  }

  lemma {:induction false} PoppedCons(pool: seq<nat>, ps: seq<Pos>)
    requires 0 < |ps| <= |pool|
    ensures Popped(pool, ps)
         == [Entity(pool[|pool| - 1], ps[0])] + Popped(pool[..|pool| - 1], ps[1..])
  {
  }

  /**
   Pops one pooled entity per position, in order (`for (...) { x = pool.pop(); ... active.push(x) }`).
   */
  function PopPlace(b: Bank, ps: seq<Pos>): (r: Bank)
    requires |ps| <= |b.pool|
    ensures r.active == b.active + Popped(b.pool, ps)
    ensures r.pool == b.pool[..|b.pool| - |ps|]
    decreases |ps|
  {
    if ps == [] then b
    else
      var r := PopPlace(Spawn(b, ps[0]), ps[1..]);
      PopActiveStep(b.active, b.pool, ps);
      PopPoolStep(b.pool, |ps|);
      r
  }

  /** Placing the first position and then the rest places them all. */
  lemma {:induction false} PopActiveStep(active: seq<Entity>, pool: seq<nat>, ps: seq<Pos>)
    requires 0 < |ps| <= |pool|
    ensures (active + [Entity(pool[|pool| - 1], ps[0])]) + Popped(pool[..|pool| - 1], ps[1..])
         == active + Popped(pool, ps)
  {
    PoppedCons(pool, ps);
  }

  lemma {:induction false} PopPoolStep(pool: seq<nat>, k: nat)
    requires 0 < k <= |pool|
    ensures pool[..|pool| - 1][..|pool| - 1 - (k - 1)] == pool[..|pool| - k]
  {
  }

  /** `r` is `b` with one new entity at each of `ps`, in order, and the old ones untouched. */
  predicate PlacedAt(b: Bank, r: Bank, ps: seq<Pos>)
  {
    && |r.active| == |b.active| + |ps|
    && r.active[..|b.active|] == b.active
    && forall i :: 0 <= i < |ps| ==> r.active[|b.active| + i].pos == ps[i]
  }

  lemma {:induction false} PopPlaceAt(b: Bank, ps: seq<Pos>)
    requires |ps| <= |b.pool|
    ensures PlacedAt(b, PopPlace(b, ps), ps)
  {
    var r := PopPlace(b, ps);
    assert r.active == b.active + Popped(b.pool, ps);
    forall i | 0 <= i < |ps|
      ensures r.active[|b.active| + i].pos == ps[i]
    {
      assert r.active[|b.active| + i] == Popped(b.pool, ps)[i];
    }
  }

  lemma {:induction false} PopPlaceConserves(b: Bank, ps: seq<Pos>, cap: nat)
    requires |ps| <= |b.pool| && Conserved(b, cap)
    ensures Conserved(PopPlace(b, ps), cap)
    decreases |ps|
  {
    if ps != [] {
      SpawnConserves(b, ps[0], cap);
      PopPlaceConserves(Spawn(b, ps[0]), ps[1..], cap);
    }
  }

  function Zip(ids: seq<nat>, ps: seq<Pos>): (es: seq<Entity>)
    requires |ids| == |ps|
    ensures |es| == |ids|
    ensures forall i :: 0 <= i < |ids| ==> es[i] == Entity(ids[i], ps[i])
  {
    seq(|ids|, i requires 0 <= i < |ids| => Entity(ids[i], ps[i]))
  }

  /** Splices each id out of the pool and activates it at the matching position. */
  function SpliceEach(b: Bank, ids: seq<nat>, ps: seq<Pos>): (r: Bank)
    requires |ids| == |ps|
    ensures r.active == b.active + Zip(ids, ps)
    decreases |ids|
  {
    if ids == [] then b
    else
      assert Zip(ids, ps) == [Entity(ids[0], ps[0])] + Zip(ids[1..], ps[1..]);
      SpliceEach(SpliceOut(b, ids[0], ps[0]), ids[1..], ps[1..])
  }

  lemma {:induction false} SpliceEachConserves(b: Bank, ids: seq<nat>, ps: seq<Pos>, cap: nat)
    requires |ids| == |ps| && Conserved(b, cap)
    requires multiset(ids) <= multiset(b.pool)
    ensures Conserved(SpliceEach(b, ids, ps), cap)
    ensures multiset(SpliceEach(b, ids, ps).pool) == multiset(b.pool) - multiset(ids)
    decreases |ids|
  {
    if ids != [] {
      assert ids == [ids[0]] + ids[1..];
      assert ids[0] in multiset(ids);
      assert ids[0] in b.pool;
      SpliceOutConserves(b, ids[0], ps[0], cap);
      var b1 := SpliceOut(b, ids[0], ps[0]);
      assert multiset(ids[1..]) <= multiset(b1.pool);
      SpliceEachConserves(b1, ids[1..], ps[1..], cap);
    }
  }
}
