/**
 * src/collision_system.py: the projectile pool, which recycles bullets
 * through three lists, and the collision optimizer, which wraps the
 * quadtree with a filtering insert and broad and narrow collision phases.
 */
module CollisionSystem {
  import opened Geometry
  import opened QuadTrees
  import opened Bullets
  import opened Seqs

  /** The bullets update keeps active: still `ativo` and not off screen. */
  function Kept(s: seq<Bullet>): (r: seq<Bullet>)
    reads s
    ensures forall b :: b in r ==> b in s && b.ativo && !OffScreen(b.rect)
    ensures forall b :: b in s && b.ativo && !OffScreen(b.rect) ==> b in r
  {
    if s == [] then []
    else if !s[0].ativo || OffScreen(s[0].rect) then Kept(s[1..])
    else [s[0]] + Kept(s[1..])
  }

  /** The bullets update hands back: no longer `ativo`, or off screen. */
  function Reclaimed(s: seq<Bullet>): (r: seq<Bullet>)
    reads s
    ensures forall b :: b in r ==> b in s && (!b.ativo || OffScreen(b.rect))
    ensures forall b :: b in s && (!b.ativo || OffScreen(b.rect)) ==> b in r
  {
    if s == [] then []
    else if !s[0].ativo || OffScreen(s[0].rect) then [s[0]] + Reclaimed(s[1..])
    else Reclaimed(s[1..])
  }

  /** Removing the reclaimed bullets from a list without duplicates leaves exactly the kept ones, in order. */
  lemma {:induction false} KeptIsExcluding(s: seq<Bullet>)
    requires Distinct(s)
    ensures Excluding(s, SetOf(Reclaimed(s))) == Kept(s)
    ensures Distinct(Reclaimed(s))
  {
    if s != [] {
      assert Distinct(s[1..]);
      KeptIsExcluding(s[1..]);
      var R := SetOf(Reclaimed(s));
      var R' := SetOf(Reclaimed(s[1..]));
      assert s[0] !in s[1..];
      ExcludingSame(s[1..], R, R');
    }
  }


  /** Every bullet of the pool is in exactly one of the two lists, each list without duplicates. */
  predicate Partition(pool: seq<Bullet>, active: seq<Bullet>, inactive: seq<Bullet>)
  {
    Distinct(pool) && Distinct(active) && Distinct(inactive) &&
    (forall b :: b in active ==> b !in inactive) &&
    (forall b :: b in pool ==> b in active || b in inactive) &&
    (forall b :: b in active ==> b in pool) && (forall b :: b in inactive ==> b in pool)
  }

  /** A new bullet joins the pool and the active list. */
  lemma PartitionAddFresh(pool: seq<Bullet>, active: seq<Bullet>, inactive: seq<Bullet>, b: Bullet)
    requires Partition(pool, active, inactive) && b !in pool
    ensures Partition(pool + [b], active + [b], inactive)
  {
    DistinctSnoc(pool, b);
    DistinctSnoc(active, b);
  }

  /** The last inactive bullet moves to the end of the active list. */
  lemma PartitionTake(pool: seq<Bullet>, active: seq<Bullet>, inactive: seq<Bullet>)
    requires Partition(pool, active, inactive) && inactive != []
    ensures Partition(pool, active + [inactive[|inactive| - 1]], inactive[..|inactive| - 1])
  {
    var n := |inactive| - 1;
    var b := inactive[n];
    DistinctPrefix(inactive, n);
    assert inactive == inactive[..n] + [b];
    assert b !in inactive[..n];
    DistinctSnoc(active, b);
  }

  /** An active bullet leaves the active list and goes to the end of the inactive list. */
  lemma PartitionRelease(pool: seq<Bullet>, active: seq<Bullet>, inactive: seq<Bullet>, b: Bullet)
    requires Partition(pool, active, inactive) && b in active
    ensures Partition(pool, Excluding(active, {b}), inactive + [b])
  {
    ExcludingDistinct(active, {b});
    DistinctSnoc(inactive, b);
  }

  /** get_stats; the usage percentage divides by len(pool), so an empty pool raises. */
  datatype PoolStats = PoolStats(totalBullets: int, activeBullets: int, inactiveBullets: int, poolUsage: real)

  class ProjectilePool {
    var size: int
    var pool: seq<Bullet>
    var active: seq<Bullet>
    var inactive: seq<Bullet>

    predicate Valid()
      reads this
    {
      Partition(pool, active, inactive)
    }

    /** The pool pre-creates `size` inactive bullets (none for a negative size, as range does). */
    constructor (size: int)
      ensures Valid() && this.size == size
      ensures |pool| == (if size < 0 then 0 else size)
      ensures inactive == pool && active == []
      ensures forall b :: b in pool ==> fresh(b) && !b.ativo
    {
      this.size := size;
      pool := [];
      active := [];
      inactive := [];
      new;
      var i := 0;
      while i < size
        invariant 0 <= i && (size >= 0 ==> i <= size) && (size < 0 ==> i == 0)
        invariant |pool| == i && inactive == pool && active == [] && this.size == size
        invariant Valid()
        invariant forall b :: b in pool ==> fresh(b) && !b.ativo
      {
        var b := new Bullet(0.0, 0.0, 0.0, 0.0, false, 25, 1.0, 0.0, "normal");
        b.ativo := false;
        pool := pool + [b];
        inactive := inactive + [b];
        i := i + 1;
      }
    }

    /**
     * get_bullet: reuse the most recently returned bullet, or create one when
     * none is inactive; the result carries the requested attributes, is
     * active and is last in the active list.
     */
    method GetBullet(x: real, y: real, dx: real, dy: real, dano: int, velocidade: real,
                     deInimigo: bool, tipoTiro: string) returns (b: Bullet)
      requires Valid()
      modifies this, if inactive == [] then {} else {inactive[|inactive| - 1]}
      ensures Valid() && size == old(size)
      ensures b.ativo && b.dano == dano && b.velocidade == velocidade
      ensures b.deInimigo == deInimigo && b.tipoTiro == tipoTiro
      ensures b.posX == x && b.posY == y && b.velX == dx * VELOCIDADE_TIRO && b.velY == dy * VELOCIDADE_TIRO
      ensures b.delay == 0.0 && b.lifetime == 0.0 && b.trail == [] && b.Valid()
      ensures active == old(active) + [b]
      ensures old(inactive) == [] ==> fresh(b) && pool == old(pool) + [b] && inactive == []
      ensures old(inactive) != [] ==>
        b == old(inactive)[|old(inactive)| - 1] &&
        inactive == old(inactive)[..|old(inactive)| - 1] && pool == old(pool)
      ensures forall c :: c in inactive ==> unchanged(c)
    {
      if inactive == [] {
        b := new Bullet(x, y, dx, dy, deInimigo, 25, 1.0, 0.0, tipoTiro);
        PartitionAddFresh(pool, active, inactive, b);
        pool := pool + [b];
      } else {
        PartitionTake(pool, active, inactive);
        b := inactive[|inactive| - 1];
        inactive := inactive[..|inactive| - 1];
        b.Reset(x, y, dx, dy, 1.0, 25, false, "normal");
      }
      b.Configure(dano, velocidade, deInimigo, tipoTiro);
      active := active + [b];
    }

    /**
     * return_bullet: an active bullet leaves the active list, is deactivated,
     * killed and appended to the inactive list; any other bullet is ignored.
     */
    method ReturnBullet(b: Bullet)
      requires Valid()
      modifies this, b`ativo, b`alive
      ensures Valid() && pool == old(pool) && size == old(size)
      ensures old(b in active) ==>
        active == RemoveFirst(old(active), b) && active == Excluding(old(active), {b}) &&
        inactive == old(inactive) + [b] && !b.ativo && !b.alive
      ensures !old(b in active) ==> active == old(active) && inactive == old(inactive) && unchanged(b)
    {
      if b in active {
        RemoveFirstDistinct(active, b);
        PartitionRelease(pool, active, inactive, b);
        active := RemoveFirst(active, b);
        b.ativo := false;
        b.Kill();
        inactive := inactive + [b];
      }
    }

    /** The scan of update: the active bullets no longer `ativo` or off screen, in list order. */
    method CollectReclaimed() returns (toReturn: seq<Bullet>)
      ensures toReturn == Reclaimed(active)
    {
      toReturn := [];
      var i := 0;
      while i < |active|
        invariant 0 <= i <= |active|
        invariant toReturn == Reclaimed(active[..i])
      {
        ReclaimedSnoc(active[..i], active[i]);
        assert active[..i + 1] == active[..i] + [active[i]];
        if !active[i].ativo || active[i].ForaDaTela() {
          toReturn := toReturn + [active[i]];
        }
        i := i + 1;
      }
      assert active[..i] == active;
    }

    /** One step of ReturnEach: the j-th bullet of the list goes back to the pool. */
    method ReturnStep(toReturn: seq<Bullet>, j: int, b: Bullet, ghost active0: seq<Bullet>, ghost inactive0: seq<Bullet>)
      requires Valid() && Distinct(toReturn) && 0 <= j < |toReturn| && b == toReturn[j]
      requires forall b :: b in toReturn ==> b in active0
      requires active == Excluding(active0, SetOf(toReturn[..j]))
      requires inactive == inactive0 + toReturn[..j]
      modifies this, b`ativo, b`alive
      ensures Valid() && pool == old(pool) && size == old(size)
      ensures active == Excluding(active0, SetOf(toReturn[..j + 1]))
      ensures inactive == inactive0 + toReturn[..j + 1]
      ensures !b.ativo && !b.alive
      ensures toReturn[..j + 1] == toReturn[..j] + [b] && b !in toReturn[..j]
    {
      PrefixStep(toReturn, j);
      ExcludingTwice(active0, SetOf(toReturn[..j]), {b});
      assert inactive0 + toReturn[..j + 1] == (inactive0 + toReturn[..j]) + [b];
      ReturnBullet(b);
    }

    /** return_bullet on each bullet of a list of distinct active bullets, in order. */
    method ReturnEach(toReturn: seq<Bullet>)
      requires Valid() && Distinct(toReturn)
      requires forall b :: b in toReturn ==> b in active
      modifies this, toReturn`ativo, toReturn`alive
      ensures Valid() && pool == old(pool) && size == old(size)
      ensures active == Excluding(old(active), SetOf(toReturn))
      ensures inactive == old(inactive) + toReturn
      ensures forall b :: b in toReturn ==> !b.ativo && !b.alive
    {
      ExcludingAbsent(active, {});
      assert SetOf(toReturn[..0]) == {};
      var j := 0;
      while j < |toReturn|
        invariant 0 <= j <= |toReturn|
        invariant Valid() && pool == old(pool) && size == old(size)
        invariant active == Excluding(old(active), SetOf(toReturn[..j]))
        invariant inactive == old(inactive) + toReturn[..j]
        invariant forall c :: c in toReturn[..j] ==> !c.ativo && !c.alive
      {
        ReturnStep(toReturn, j, toReturn[j], old(active), old(inactive));
        j := j + 1;
      }
      assert toReturn[..j] == toReturn;
    }

    /**
     * update: hand back exactly the active bullets that are no longer
     * `ativo` or are off screen, in list order; the rest stay active in order.
     */
    method Update(dt: real)
      requires Valid()
      modifies this, active`ativo, active`alive
      ensures Valid() && pool == old(pool) && size == old(size)
      ensures active == old(Kept(active))
      ensures inactive == old(inactive) + old(Reclaimed(active))
      ensures forall b :: b in old(Reclaimed(active)) ==> !b.ativo && !b.alive
    {
      var toReturn := CollectReclaimed();
      KeptIsExcluding(active);
      assert forall k :: 0 <= k < |toReturn| ==> toReturn[k] in active;
      ReturnEach(toReturn);
    }

    /** get_active_bullets: a copy of the active list. */
    function GetActiveBullets(): (r: seq<Bullet>)
      reads this
      ensures |r| == |active| && forall k :: 0 <= k < |r| ==> r[k] == active[k]
    {
      active
    }

    /** clear_all: every active bullet goes back to the pool, in order; the pool itself is unchanged. */
    method ClearAll()
      requires Valid()
      modifies this, active`ativo, active`alive
      ensures Valid() && pool == old(pool) && size == old(size)
      ensures active == [] && inactive == old(inactive) + old(active)
      ensures forall b :: b in old(active) ==> !b.ativo && !b.alive
    {
      ExcludingAll(active);
      ReturnEach(active);
    }

    /** get_stats: the three list lengths and the percentage of the pool in use; None where Python raises ZeroDivisionError. */
    function GetStats(): (r: Option<PoolStats>)
      reads this
      ensures r.None? <==> |pool| == 0
      ensures r.Some? ==> r.value.totalBullets == |pool| && r.value.activeBullets == |active| &&
                          r.value.inactiveBullets == |inactive|
      ensures r.Some? ==> r.value.poolUsage * (|pool| as real) == (|active| as real) * 100.0
      ensures r.Some? && Valid() ==> 0.0 <= r.value.poolUsage <= 100.0
    {
      if |pool| == 0 then None
      else
        assert Valid() ==> |active| <= |pool| by {
          if Valid() { PoolSizes(this); }
        }
        Some(PoolStats(|pool|, |active|, |inactive|, (|active| as real) / (|pool| as real) * 100.0))
    }
  }


  lemma ReclaimedSnoc(s: seq<Bullet>, b: Bullet)
    ensures Reclaimed(s + [b]) == Reclaimed(s) + (if !b.ativo || OffScreen(b.rect) then [b] else [])
  {
    if s == [] {
      assert [b][1..] == [];
    } else {
      assert (s + [b])[1..] == s[1..] + [b];
      ReclaimedSnoc(s[1..], b);
    }
  }

  /** The pool's size is the sum of the two lists' sizes. */
  lemma PoolSizes(p: ProjectilePool)
    requires p.Valid()
    ensures |p.pool| == |p.active| + |p.inactive|
  {
    DistinctCard(p.pool);
    DistinctCard(p.active);
    DistinctCard(p.inactive);
    var P := set x | x in p.pool;
    var A := set x | x in p.active;
    var I := set x | x in p.inactive;
    assert P == A + I;
    assert A * I == {};
  }

  /** Returning a bullet twice leaves the pool as returning it once. */
  method ReturnTwice(p: ProjectilePool, b: Bullet)
    requires p.Valid() && b in p.active
    modifies p, b
    ensures p.Valid() && p.active == Excluding(old(p.active), {b}) && p.inactive == old(p.inactive) + [b]
  {
    p.ReturnBullet(b);
    p.ReturnBullet(b);
  }

  /** Reuse is last-in first-out: the next bullet handed out is the one most recently returned. */
  method ReuseIsLifo(p: ProjectilePool, b: Bullet) returns (c: Bullet)
    requires p.Valid() && b in p.active
    modifies p, b, p.inactive
    ensures c == b && p.pool == old(p.pool)
  {
    p.ReturnBullet(b);
    c := p.GetBullet(0.0, 0.0, 1.0, 0.0, 25, 400.0, false, "normal");
  }

  /** An object handed to add_objects: a sprite with a rect, or something without one. */
  datatype GameObject = WithRect(sprite: Sprite) | WithoutRect

  /** The sprites add_objects inserts, in order: those with a rect whose `ativo`, when present, is true. */
  function Insertable(objects: seq<GameObject>): (r: seq<Sprite>)
    ensures |r| <= |objects|
  {
    if objects == [] then []
    else
      var last := objects[|objects| - 1];
      Insertable(objects[..|objects| - 1]) +
        (if last.WithRect? && last.sprite.ativo != Some(false) then [last.sprite] else [])
  }

  /** A sprite is inserted iff it comes with a rect and its `ativo`, when present, is true. */
  lemma {:induction false} InsertableMembers(objects: seq<GameObject>)
    ensures forall s :: s in Insertable(objects) <==> WithRect(s) in objects && s.ativo != Some(false)
  {
    if objects != [] {
      var last := objects[|objects| - 1];
      assert objects == objects[..|objects| - 1] + [last];
      InsertableMembers(objects[..|objects| - 1]);
    }
  }

  lemma InsertableStep(objects: seq<GameObject>, i: int)
    requires 0 <= i < |objects|
    ensures Insertable(objects[..i + 1]) == Insertable(objects[..i]) +
      (if objects[i].WithRect? && objects[i].sprite.ativo != Some(false) then [objects[i].sprite] else [])
  {
    assert objects[..i + 1][..i] == objects[..i];
  }


  /** One iteration of add_objects: objects[i] is inserted when it is insertable. */
  method AddObject(t: QuadTree, r: QuadTree, objects: seq<GameObject>, i: int) returns (r': QuadTree)
    requires 0 <= i < |objects| && Valid(r) && SameConfig(r, t)
    requires multiset(AllObjects(r)) == multiset(AllObjects(t)) + multiset(Insertable(objects[..i]))
    ensures Valid(r') && SameConfig(r', t)
    ensures multiset(AllObjects(r')) == multiset(AllObjects(t)) + multiset(Insertable(objects[..i + 1]))
  {
    InsertableStep(objects, i);
    var o := objects[i];
    r' := r;
    if o.WithRect? && o.sprite.ativo != Some(false) {
      r' := Insert(r, o.sprite);
      MultisetSnoc(multiset(AllObjects(t)), Insertable(objects[..i]), o.sprite);
    }
  }

  /** The loop of add_objects, on the tree as a value. */
  method InsertEach(t: QuadTree, objects: seq<GameObject>) returns (r: QuadTree)
    requires Valid(t)
    ensures Valid(r) && SameConfig(r, t)
    ensures multiset(AllObjects(r)) == multiset(AllObjects(t)) + multiset(Insertable(objects))
  {
    r := t;
    var i := 0;
    while i < |objects|
      invariant 0 <= i <= |objects|
      invariant Valid(r) && SameConfig(r, t)
      invariant multiset(AllObjects(r)) == multiset(AllObjects(t)) + multiset(Insertable(objects[..i]))
    {
      r := AddObject(t, r, objects, i);
      i := i + 1;
    }
    assert objects[..i] == objects;
  }

  /** The broad phase keeps a candidate for sprite1 when it is in group2, is `ativo`, and is another sprite. */
  predicate Eligible(s1: Sprite, s2: Sprite, group2: set<nat>)
  {
    s2.id in group2 && s2.ativo == Some(true) && s1.id != s2.id
  }

  /** The pairs (s1, c) for the eligible candidates c, in candidate order. */
  function PairsWith(s1: Sprite, cands: seq<Sprite>, group2: set<nat>): (r: seq<(Sprite, Sprite)>)
    ensures forall p :: p in r <==> p.0 == s1 && p.1 in cands && Eligible(s1, p.1, group2)
  {
    if cands == [] then []
    else
      var c := cands[|cands| - 1];
      assert cands == cands[..|cands| - 1] + [c];
      PairsWith(s1, cands[..|cands| - 1], group2) + (if Eligible(s1, c, group2) then [(s1, c)] else [])
  }

  /** The inner loop of broad_phase_collision: the eligible candidates of one sprite. */
  method PairsFor(s1: Sprite, nearby: seq<Sprite>, group2: set<nat>) returns (pairs: seq<(Sprite, Sprite)>)
    ensures pairs == PairsWith(s1, nearby, group2)
  {
    pairs := [];
    var j := 0;
    while j < |nearby|
      invariant 0 <= j <= |nearby|
      invariant pairs == PairsWith(s1, nearby[..j], group2)
    {
      assert nearby[..j + 1][..j] == nearby[..j];
      var s2 := nearby[j];
      if s2.id in group2 && s2.ativo == Some(true) && s1.id != s2.id {
        pairs := pairs + [(s1, s2)];
      }
      j := j + 1;
    }
    assert nearby[..j] == nearby;
  }

  /**
   * The pairs broad_phase_collision reports: for each `ativo` sprite of
   * group1 in order, its eligible quadtree candidates in retrieval order.
   */
  function BroadPairs(t: QuadTree, group1: seq<Sprite>, group2: set<nat>): (r: seq<(Sprite, Sprite)>)
    requires Valid(t)
    ensures forall p :: p in r <==>
      p.0 in group1 && p.0.ativo == Some(true) && p.1 in Retrieve(t, p.0.rect) && Eligible(p.0, p.1, group2)
  {
    if group1 == [] then []
    else
      var s1 := group1[|group1| - 1];
      assert group1 == group1[..|group1| - 1] + [s1];
      BroadPairs(t, group1[..|group1| - 1], group2) +
        (if s1.ativo == Some(true) then PairsWith(s1, Retrieve(t, s1.rect), group2) else [])
  }

  /** The pairs narrow_phase_collision keeps: those whose rects collide, in order. */
  function Colliding(cands: seq<(Sprite, Sprite)>): (r: seq<(Sprite, Sprite)>)
    ensures forall p :: p in r <==> p in cands && Overlaps(p.0.rect, p.1.rect)
    ensures |r| <= |cands|
  {
    if cands == [] then []
    else
      var p := cands[|cands| - 1];
      assert cands == cands[..|cands| - 1] + [p];
      Colliding(cands[..|cands| - 1]) + (if Overlaps(p.0.rect, p.1.rect) then [p] else [])
  }

  /** Every overlapping stored sprite of positive size is a candidate of a query of positive size. */
  lemma RetrieveComplete(t: QuadTree, q: Rect)
    requires Valid(t)
    ensures forall o :: o in AllObjects(t) && q.Positive() && o.rect.Positive() && Overlaps(o.rect, q) ==>
      o in Retrieve(t, q)
  {
    forall o | o in AllObjects(t) && q.Positive() && o.rect.Positive() && Overlaps(o.rect, q) {
      NoFalseNegatives(t, q, o);
    }
  }

  /** Every candidate the tree returns is a stored sprite. */
  lemma RetrieveStored(t: QuadTree, q: Rect)
    requires Valid(t)
    ensures forall o :: o in Retrieve(t, q) ==> o in AllObjects(t)
  {
    forall o | o in Retrieve(t, q) ensures o in AllObjects(t) {
      assert o in multiset(Retrieve(t, q));
    }
  }

  lemma OverlapsSymmetric(a: Rect, b: Rect)
    ensures Overlaps(a, b) == Overlaps(b, a)
  {
  }

  /**
   * The two phases together find exactly the collisions: a pair survives
   * both phases iff its first sprite is an `ativo` member of group1, its
   * second is an eligible stored sprite, and their rects collide (given
   * rects of positive size, which boundless rects of the game always have).
   */
  lemma {:induction false} PhasesFindExactlyCollisions(t: QuadTree, group1: seq<Sprite>, group2: set<nat>,
                                                       s1: Sprite, s2: Sprite)
    requires Valid(t) && s1.rect.Positive() && s2.rect.Positive()
    ensures (s1, s2) in Colliding(BroadPairs(t, group1, group2)) <==>
      s1 in group1 && s1.ativo == Some(true) && s2 in AllObjects(t) && Eligible(s1, s2, group2) &&
      Overlaps(s1.rect, s2.rect)
  {
    RetrieveStored(t, s1.rect);
    RetrieveComplete(t, s1.rect);
    OverlapsSymmetric(s1.rect, s2.rect);
  }

  /** CollisionOptimizer: a quadtree over the game area together with the last pairs it found. */
  class CollisionOptimizer {
    var quadtree: QuadTree
    var collisionPairs: seq<(Sprite, Sprite)>

    predicate Valid()
      reads this
    {
      QuadTrees.Valid(quadtree)
    }

    /** A root leaf over the bounds, at level 0, with no pairs. */
    constructor (bounds: Rect, maxObjects: int, maxLevels: int)
      ensures Valid() && quadtree == Leaf(bounds, maxObjects, maxLevels, 0) && collisionPairs == []
    {
      quadtree := Leaf(bounds, maxObjects, maxLevels, 0);
      collisionPairs := [];
    }

    /** clear: the tree loses every sprite and child, and the pair list empties. */
    method Clear()
      modifies this
      ensures Valid() && quadtree == QuadTrees.Clear(old(quadtree)) && collisionPairs == []
    {
      quadtree := QuadTrees.Clear(quadtree);
      collisionPairs := [];
    }

    /** add_objects: inserts exactly the insertable objects, one by one, into the tree. */
    method AddObjects(objects: seq<GameObject>)
      requires Valid()
      modifies this
      ensures Valid() && SameConfig(quadtree, old(quadtree)) && collisionPairs == old(collisionPairs)
      ensures multiset(AllObjects(quadtree)) == multiset(AllObjects(old(quadtree))) + multiset(Insertable(objects))
    {
      quadtree := InsertEach(quadtree, objects);
    }

    /**
     * get_collision_candidates: the tree's candidates for a query rect; they
     * are stored sprites, and every stored sprite colliding with the query is
     * among them (for rects of positive size).
     */
    function GetCollisionCandidates(q: Rect): (r: seq<Sprite>)
      reads this
      requires Valid()
      ensures forall o :: o in r ==> o in AllObjects(quadtree)
      ensures forall o :: o in AllObjects(quadtree) && q.Positive() && o.rect.Positive() && Overlaps(o.rect, q) ==>
        o in r
    {
      RetrieveStored(quadtree, q);
      RetrieveComplete(quadtree, q);
      Retrieve(quadtree, q)
    }

    /** broad_phase_collision: the pairs of BroadPairs over the current tree. */
    method BroadPhase(group1: seq<Sprite>, group2: set<nat>) returns (pairs: seq<(Sprite, Sprite)>)
      requires Valid()
      ensures pairs == BroadPairs(quadtree, group1, group2)
    {
      pairs := [];
      var i := 0;
      while i < |group1|
        invariant 0 <= i <= |group1|
        invariant pairs == BroadPairs(quadtree, group1[..i], group2)
      {
        var s1 := group1[i];
        assert group1[..i + 1][..i] == group1[..i];
        if s1.ativo == Some(true) {
          var nearby := GetCollisionCandidates(s1.rect);
          var found := PairsFor(s1, nearby, group2);
          pairs := pairs + found;
        }
        i := i + 1;
      }
      assert group1[..i] == group1;
    }

    /** narrow_phase_collision: the candidate pairs whose rects collide. */
    method NarrowPhase(cands: seq<(Sprite, Sprite)>) returns (actual: seq<(Sprite, Sprite)>)
      ensures actual == Colliding(cands)
    {
      actual := [];
      var i := 0;
      while i < |cands|
        invariant 0 <= i <= |cands|
        invariant actual == Colliding(cands[..i])
      {
        assert cands[..i + 1][..i] == cands[..i];
        var (s1, s2) := cands[i];
        if Overlaps(s1.rect, s2.rect) {
          actual := actual + [(s1, s2)];
        }
        i := i + 1;
      }
      assert cands[..i] == cands;
    }
  }
}
