/** The player's bullets: a pool of bullet objects that are reused once they
    are inactive, a spawn timer that fires a left and a right bullet, and the
    collision test against an enemy. */
module BulletPool {
  import opened Batching

  const SPAWN_TIME: real := 250.0
  const BULLET_SPEED: real := 0.75
  /** How far left of the player's right edge the right bullet starts. */
  const RIGHT_INSET: real := 8.0

  /** A circle collider: centre and radius. */
  datatype Circle = Circle(x: real, y: real, radius: real)

  /** The collider of a rectangle: the circle of half its smaller side, whose
      centre is that radius away from the top left corner on both axes. */
  function ColliderOf(r: Rect): (c: Circle)
    ensures c.x - c.radius == r.x && c.y - c.radius == r.y
    ensures 2.0 * c.radius <= r.width && 2.0 * c.radius <= r.height
    ensures 2.0 * c.radius == r.width || 2.0 * c.radius == r.height
  {
    var radius := if r.height < r.width then r.height / 2.0 else r.width / 2.0;
    Circle(r.x + radius, r.y + radius, radius)
  }

  /** Two circles intersect when their centres are closer than the sum of their
      radii, compared on squares. */
  predicate Intersects(a: Circle, b: Circle)
    ensures Intersects(a, b) ==> 0.0 < a.radius + b.radius
  {
    var dx := a.x - b.x;
    var dy := a.y - b.y;
    var r := a.radius + b.radius;
    0.0 < r && dx * dx + dy * dy < r * r
  }

  /** The collider of a rectangle with non-negative sides is the largest
      circle that fits in its top left square: it stays inside the rectangle. */
  lemma ColliderInside(r: Rect)
    requires 0.0 <= r.width && 0.0 <= r.height
    ensures var c := ColliderOf(r);
      && 2.0 * c.radius == (if r.height < r.width then r.height else r.width)
      && r.x <= c.x - c.radius && c.x + c.radius <= r.x + r.width
      && r.y <= c.y - c.radius && c.y + c.radius <= r.y + r.height
  {
  }

  /** The squared test is the distance test: for the centre distance `d`,
      the circles intersect exactly when `d` is below the sum of the radii. */
  lemma IntersectsAsDistance(a: Circle, b: Circle, d: real)
    requires 0.0 <= d && d * d == (a.x - b.x) * (a.x - b.x) + (a.y - b.y) * (a.y - b.y)
    ensures Intersects(a, b) <==> d < a.radius + b.radius
  {
    var r := a.radius + b.radius;
    if 0.0 < r {
      if d < r {
        SquareStrict(d, r);
      } else {
        SquareMonotone(r, d);
      }
    }
  }

  lemma SquareStrict(x: real, y: real)
    requires 0.0 <= x < y
    ensures x * x < y * y
  {
    PositiveProduct(y - x, y + x);
    assert (y - x) * (y + x) == y * y - x * x;
  }

  lemma SquareMonotone(x: real, y: real)
    requires 0.0 <= x <= y
    ensures x * x <= y * y
  {
  }

  lemma PositiveProduct(x: real, y: real)
    requires 0.0 < x && 0.0 < y
    ensures 0.0 < x * y
  {
  }

  /** Intersection does not depend on which circle asks. */
  lemma IntersectsSymmetric(a: Circle, b: Circle)
    ensures Intersects(a, b) <==> Intersects(b, a)
  {
    assert (a.x - b.x) * (a.x - b.x) == (b.x - a.x) * (b.x - a.x);
    assert (a.y - b.y) * (a.y - b.y) == (b.y - a.y) * (b.y - a.y);
  }

  /** The comparison is strict: circles that only touch do not intersect, and
      a circle of positive radius intersects itself. */
  lemma TouchingIsNotIntersecting(x: real, y: real, radius: real)
    requires 0.0 < radius
    ensures !Intersects(Circle(x, y, radius), Circle(x + 2.0 * radius, y, radius))
    ensures Intersects(Circle(x, y, radius), Circle(x, y, radius))
  {
  }

  /** The sprite bullets are drawn with: its texture, size and sheet cell. */
  datatype Sprite = Sprite(texture: Texture, drawRect: Rect, sourceRect: Rect)

  /** A bullet as a value. */
  datatype BulletView = BulletView(active: bool, drawRect: Rect, collider: Circle)

  /** A bullet just made: active, at the sprite's rectangle, with an empty
      collider at the origin. */
  function NewBullet(sprite: Sprite): BulletView
  {
    BulletView(true, sprite.drawRect, Circle(0.0, 0.0, 0.0))
  }

  function SpawnedLeft(b: BulletView, player: Rect): (r: BulletView)
    ensures r.active && r.collider == b.collider
    ensures r.drawRect.x == player.x && r.drawRect.y == player.y
    ensures r.drawRect.width == b.drawRect.width && r.drawRect.height == b.drawRect.height
  {
    b.(active := true, drawRect := b.drawRect.(x := player.x, y := player.y))
  }

  function SpawnedRight(b: BulletView, player: Rect): (r: BulletView)
    ensures r.active && r.collider == b.collider
    ensures r.drawRect.x + RIGHT_INSET == player.x + player.width && r.drawRect.y == player.y
    ensures r.drawRect.width == b.drawRect.width && r.drawRect.height == b.drawRect.height
  {
    b.(active := true, drawRect := b.drawRect.(x := player.x + player.width - RIGHT_INSET, y := player.y))
  }

  /** One update of a bullet: it moves up by BULLET_SPEED per millisecond, its
      collider follows, and it turns inactive once entirely above the top. */
  function Moved(b: BulletView, dt: real): (r: BulletView)
    ensures r.drawRect.y == b.drawRect.y - BULLET_SPEED * dt && r.collider == ColliderOf(r.drawRect)
    ensures r.drawRect.x == b.drawRect.x && r.drawRect.width == b.drawRect.width
    ensures r.active <==> b.active && r.drawRect.y + r.drawRect.height >= 0.0
  {
    var rect := b.drawRect.(y := b.drawRect.y - BULLET_SPEED * dt);
    b.(drawRect := rect, collider := ColliderOf(rect), active := if rect.y + rect.height < 0.0 then false else b.active)
  }

  /** The index of the first inactive bullet, if any. */
  function FirstInactive(vs: seq<BulletView>): (r: Option<nat>)
    ensures r.Some? ==> r.value < |vs| && !vs[r.value].active
    ensures r.Some? ==> forall j | 0 <= j < r.value :: vs[j].active
    ensures r.None? ==> forall j | 0 <= j < |vs| :: vs[j].active
  {
    if vs == [] then None
    else if !vs[0].active then Some(0)
    else match FirstInactive(vs[1..])
      case None => None
      case Some(i) => Some(i + 1)
  }

  /** A bullet that is active and touches the enemy. */
  predicate Hits(b: BulletView, enemy: Circle)
  {
    b.active && Intersects(b.collider, enemy)
  }

  /** The index of the first bullet that hits the enemy, if any. */
  function FirstHit(vs: seq<BulletView>, enemy: Circle): (r: Option<nat>)
    ensures r.Some? ==> r.value < |vs| && Hits(vs[r.value], enemy)
    ensures r.Some? ==> forall j | 0 <= j < r.value :: !Hits(vs[j], enemy)
    ensures r.None? ==> forall j | 0 <= j < |vs| :: !Hits(vs[j], enemy)
  {
    if vs == [] then None
    else if Hits(vs[0], enemy) then Some(0)
    else match FirstHit(vs[1..], enemy)
      case None => None
      case Some(i) => Some(i + 1)
  }

  /** The pool after a bullet is taken from it, and the index of that bullet. */
  datatype Acquired = Acquired(views: seq<BulletView>, index: nat)

  /** Taking a bullet: the first inactive one, or else a new one put at the end.
      Existing bullets are left as they are and the pool grows only when every
      bullet is active. */
  function Acquire(vs: seq<BulletView>, sprite: Sprite): (r: Acquired)
    ensures r.index < |r.views| && vs <= r.views
    ensures |r.views| == |vs| + (if forall j | 0 <= j < |vs| :: vs[j].active then 1 else 0)
    ensures forall j | 0 <= j < r.index :: vs[j].active
    ensures r.index < |vs| ==> !vs[r.index].active
    ensures r.index == |vs| ==> r.views[r.index] == NewBullet(sprite)
  {
    match FirstInactive(vs)
    case Some(i) => Acquired(vs, i)
    case None => Acquired(vs + [NewBullet(sprite)], |vs|)
  }

  /** The pool after a bullet hits the enemy: the first bullet that hits it is
      deactivated. */
  function Deactivated(vs: seq<BulletView>, enemy: Circle): (r: seq<BulletView>)
    ensures |r| == |vs|
    ensures forall j | 0 <= j < |vs| ::
      && r[j].drawRect == vs[j].drawRect && r[j].collider == vs[j].collider
      && (r[j].active ==> vs[j].active)
    ensures r == vs <==> forall j | 0 <= j < |vs| :: !Hits(vs[j], enemy)
  {
    match FirstHit(vs, enemy)
    case Some(i) => vs[i := vs[i].(active := false)]
    case None => vs
  }

  /** A hit changes exactly one bullet, the first that hits the enemy, and only
      its active flag; without a hit nothing changes. */
  lemma DeactivatedOnlyFirst(vs: seq<BulletView>, enemy: Circle)
    ensures var r := Deactivated(vs, enemy);
      && |r| == |vs|
      && ((forall j | 0 <= j < |vs| :: !Hits(vs[j], enemy)) ==> r == vs)
      && forall j | 0 <= j < |vs| && r[j] != vs[j] ::
           && Hits(vs[j], enemy) && !r[j].active && r[j] == vs[j].(active := false)
           && forall k | 0 <= k < j :: !Hits(vs[k], enemy)
  {
  }

  /** A hit deactivates one bullet that hit the enemy. */
  lemma DeactivatedSome(vs: seq<BulletView>, enemy: Circle, j: nat)
    requires j < |vs| && Hits(vs[j], enemy)
    ensures var r := Deactivated(vs, enemy);
      exists i | 0 <= i <= j :: Hits(vs[i], enemy) && r[i] == vs[i].(active := false)
  {
    var i := FirstHit(vs, enemy).value;
    assert Hits(vs[i], enemy) && Deactivated(vs, enemy)[i] == vs[i].(active := false);
  }

  /** One bullet taken from the pool and spawned at the player's left or right
      edge. */
  function SpawnOne(vs: seq<BulletView>, sprite: Sprite, player: Rect, right: bool): (r: seq<BulletView>)
    ensures var a := Acquire(vs, sprite);
      && |r| == |a.views|
      && r[a.index] == (if right then SpawnedRight(a.views[a.index], player) else SpawnedLeft(a.views[a.index], player))
      && forall j | 0 <= j < |r| && j != a.index :: r[j] == a.views[j]
  {
    var a := Acquire(vs, sprite);
    var b := a.views[a.index];
    a.views[a.index := if right then SpawnedRight(b, player) else SpawnedLeft(b, player)]
  }

  /** A left bullet and then a right bullet, each taken from the pool. */
  function SpawnPair(vs: seq<BulletView>, player: Rect, sprite: Sprite): (r: seq<BulletView>)
    ensures |vs| <= |r| <= |vs| + 2
    ensures forall j | 0 <= j < |vs| && vs[j].active :: r[j] == vs[j]
  {
    SpawnOne(SpawnOne(vs, sprite, player, false), sprite, player, true)
  }

  /** The left and the right bullet of a pair are two different bullets,
      both active, and the right one does not disturb the left one. */
  lemma SpawnPairShape(vs: seq<BulletView>, player: Rect, sprite: Sprite)
    ensures var left := Acquire(vs, sprite).index;
      var withLeft := SpawnOne(vs, sprite, player, false);
      var right := Acquire(withLeft, sprite).index;
      && left != right
      && SpawnPair(vs, player, sprite)[left] == withLeft[left]
      && withLeft[left].active && SpawnPair(vs, player, sprite)[right].active
  {
    var withLeft := SpawnOne(vs, sprite, player, false);
    assert withLeft[Acquire(vs, sprite).index].active;
  }

  /** Every active bullet moves; inactive ones stay as they are. */
  function MovedAll(vs: seq<BulletView>, dt: real): (r: seq<BulletView>)
    ensures |r| == |vs|
  {
    seq(|vs|, i requires 0 <= i < |vs| => if vs[i].active then Moved(vs[i], dt) else vs[i])
  }

  /** The pool after one update of `dt` milliseconds, when the spawn timer
      fired or not. */
  function Updated(vs: seq<BulletView>, spawn: bool, dt: real, player: Rect, sprite: Sprite): (r: seq<BulletView>)
    ensures |vs| <= |r|
    ensures forall j | 0 <= j < |vs| && vs[j].active :: r[j] == Moved(vs[j], dt)
    ensures !spawn ==> forall j | 0 <= j < |vs| && !vs[j].active :: r[j] == vs[j]
  {
    MovedAll(if spawn then SpawnPair(vs, player, sprite) else vs, dt)
  }

  /** One update grows the pool by at most two bullets, and only when the timer
      fires. */
  lemma UpdatedGrowth(vs: seq<BulletView>, spawn: bool, dt: real, player: Rect, sprite: Sprite)
    ensures var r := Updated(vs, spawn, dt, player, sprite);
      && |vs| <= |r| <= |vs| + 2
      && (!spawn ==> |r| == |vs|)
  {
  }

  /** The views of a list of bullets. */
  ghost function ViewsOf(bs: seq<Bullet>): (vs: seq<BulletView>)
    reads bs
    ensures |vs| == |bs| && forall i | 0 <= i < |bs| :: vs[i] == bs[i].View()
  {
    if bs == [] then [] else ViewsOf(bs[..|bs| - 1]) + [bs[|bs| - 1].View()]
  }

  /** When only bullet `k` of a list without repeats changed, only view `k`
      of the list changed. */
  twostate lemma {:induction false} ViewsOfOneChanged(bs: seq<Bullet>, new k: nat)
    requires k < |bs| && Distinct(bs)
    requires forall j | 0 <= j < |bs| && j != k :: unchanged(bs[j])
    ensures ViewsOf(bs) == old(ViewsOf(bs))[k := bs[k].View()]
  {
    var now, before := ViewsOf(bs), old(ViewsOf(bs));
    assert forall j | 0 <= j < |bs| && j != k :: now[j] == before[j];
  }

  class Bullet {
    var drawRect: Rect
    const sourceRect: Rect
    const texture: Texture
    var active: bool
    var collider: Circle

    ghost function View(): BulletView
      reads this
    {
      BulletView(active, drawRect, collider)
    }

    constructor(sprite: Sprite)
      ensures View() == NewBullet(sprite)
      ensures sourceRect == sprite.sourceRect && texture == sprite.texture
    {
      drawRect := sprite.drawRect;
      sourceRect := sprite.sourceRect;
      texture := sprite.texture;
      active := true;
      collider := Circle(0.0, 0.0, 0.0);
    }

    /** Activates the bullet at the player's top left corner. */
    method SpawnL(player: Rect)
      modifies this
      ensures View() == SpawnedLeft(old(View()), player)
    {
      active := true;
      drawRect := drawRect.(x := player.x);
      drawRect := drawRect.(y := player.y);
    }

    /** Activates the bullet at the player's top right corner. */
    method SpawnR(player: Rect)
      modifies this
      ensures View() == SpawnedRight(old(View()), player)
    {
      active := true;
      drawRect := drawRect.(x := player.x + player.width - RIGHT_INSET);
      drawRect := drawRect.(y := player.y);
    }

    /** Moves the bullet up and deactivates it once it has left the screen. */
    method Update(dt: real)
      modifies this
      ensures View() == Moved(old(View()), dt)
    {
      drawRect := drawRect.(y := drawRect.y - BULLET_SPEED * dt);
      collider := ColliderOf(drawRect);
      if drawRect.y + drawRect.height < 0.0 {
        active := false;
      }
    }
  }

  class BulletManager {
    var pool: seq<Bullet>
    var timeToSpawn: real
    /** The sprite a new bullet takes its rectangle, cell and texture from. */
    const laser: Sprite

    ghost function Views(): seq<BulletView>
      reads this, pool
    {
      ViewsOf(pool)
    }

    /** No bullet sits in the pool twice. */
    ghost predicate Valid()
      reads this
    {
      Distinct(pool)
    }

    constructor(laser: Sprite)
      ensures Valid() && pool == [] && timeToSpawn == 0.0 && this.laser == laser
    {
      pool := [];
      timeToSpawn := 0.0;
      this.laser := laser;
    }

    /** The index of the first inactive bullet, if any. */
    method FindInactive() returns (found: Option<nat>)
      ensures found == FirstInactive(Views())
    {
      for i := 0 to |pool|
        invariant forall j | 0 <= j < i :: pool[j].active
      {
        if !pool[i].active {
          found := Some(i);
          ghost var first := FirstInactive(Views());
          assert first.Some? && first.value <= i;
          return;
        }
      }
      found := None;
    }

    /** Hands out a bullet: the first inactive one, or a new one pushed onto
        the pool when all are active. */
    method Create() returns (bullet: Bullet)
      requires Valid()
      modifies this`pool
      ensures Valid()
      ensures var r := Acquire(old(Views()), laser);
        && Views() == r.views && r.index < |pool| && bullet == pool[r.index]
      ensures old(pool) <= pool && |pool| <= |old(pool)| + 1
      ensures bullet in old(pool) || fresh(bullet)
      ensures forall i | |old(pool)| <= i < |pool| :: fresh(pool[i])
      ensures timeToSpawn == old(timeToSpawn)
    {
      var found := FindInactive();
      if found.Some? {
        bullet := pool[found.value];
      } else {
        bullet := Grow();
      }
    }

    /** Pushes a new bullet onto the pool. */
    method Grow() returns (bullet: Bullet)
      requires Valid()
      modifies this`pool
      ensures Valid() && fresh(bullet) && pool == old(pool) + [bullet]
      ensures Views() == old(Views()) + [NewBullet(laser)]
    {
      bullet := new Bullet(laser);
      pool := pool + [bullet];
      assert pool[..|pool| - 1] == old(pool);
    }

    /** Deactivates the first active bullet that touches the enemy, and tells
        whether there was one. */
    method IntersectsEnemy(enemy: Circle) returns (hit: bool)
      requires Valid()
      modifies pool
      ensures hit <==> exists j | 0 <= j < |pool| :: Hits(old(pool[j].View()), enemy)
      ensures Views() == Deactivated(old(Views()), enemy)
    {
      for i := 0 to |pool|
        invariant forall j | 0 <= j < i :: !Hits(pool[j].View(), enemy)
      {
        var bullet := pool[i];
        if bullet.active && Intersects(bullet.collider, enemy) {
          bullet.active := false;
          return true;
        }
      }
      return false;
    }

    /** Gathers `dt` milliseconds; once more than SPAWN_TIME have gathered, the
        timer restarts and a left and a right bullet are spawned at `player`.
        Then every active bullet moves. */
    method Update(dt: real, player: Rect)
      requires Valid()
      modifies this, pool
      ensures Valid()
      ensures var spawn := old(timeToSpawn) + dt > SPAWN_TIME;
        && timeToSpawn == (if spawn then 0.0 else old(timeToSpawn) + dt)
        && Views() == Updated(old(Views()), spawn, dt, player, laser)
      ensures old(pool) <= pool && |pool| <= |old(pool)| + 2
    {
      var spawn := Tick(dt);
      Refresh(spawn, dt, player);
    }

    /** Spawns a left and a right bullet when `spawn` holds, then moves every
        active bullet. */
    method Refresh(spawn: bool, dt: real, player: Rect)
      requires Valid()
      modifies this`pool, pool
      ensures Valid()
      ensures Views() == Updated(old(Views()), spawn, dt, player, laser)
      ensures old(pool) <= pool && |pool| <= |old(pool)| + 2
    {
      if spawn {
        SpawnBoth(player);
      }
      MoveBullets(dt);
    }

    /** Gathers `dt` milliseconds on the spawn timer and restarts it once more
        than SPAWN_TIME have gathered, telling whether it did. */
    method Tick(dt: real) returns (spawn: bool)
      modifies this`timeToSpawn
      ensures spawn <==> old(timeToSpawn) + dt > SPAWN_TIME
      ensures timeToSpawn == if spawn then 0.0 else old(timeToSpawn) + dt
    {
      timeToSpawn := timeToSpawn + dt;
      spawn := timeToSpawn > SPAWN_TIME;
      if spawn {
        timeToSpawn := 0.0;
      }
    }

    /** Spawns a left and then a right bullet. */
    method SpawnBoth(player: Rect)
      requires Valid()
      modifies this`pool, pool
      ensures Valid() && timeToSpawn == old(timeToSpawn)
      ensures Views() == SpawnPair(old(Views()), player, laser)
      ensures old(pool) <= pool && |pool| <= |old(pool)| + 2
      ensures forall i | |old(pool)| <= i < |pool| :: fresh(pool[i])
    {
      Spawn(player, false);
      assert forall i | 0 <= i < |pool| :: (i < |old(pool)| && pool[i] == old(pool)[i]) || fresh(pool[i]);
      Spawn(player, true);
    }

    /** Takes a bullet from the pool and spawns it at the player's left or
        right edge. */
    method Spawn(player: Rect, right: bool)
      requires Valid()
      modifies this`pool, pool
      ensures Valid() && timeToSpawn == old(timeToSpawn)
      ensures Views() == SpawnOne(old(Views()), laser, player, right)
      ensures old(pool) <= pool && |pool| <= |old(pool)| + 1
      ensures forall i | |old(pool)| <= i < |pool| :: fresh(pool[i])
    {
      var bullet := Create();
      ghost var index := Acquire(old(Views()), laser).index;
      label created:
      if right {
        bullet.SpawnR(player);
      } else {
        bullet.SpawnL(player);
      }
      ViewsOfOneChanged@created(pool, index);
    }

    /** Moves every active bullet. */
    method MoveBullets(dt: real)
      requires Valid()
      modifies pool
      ensures Views() == MovedAll(old(Views()), dt)
    {
      for i := 0 to |pool|
        invariant forall j | 0 <= j < i ::
          pool[j].View() == (if old(pool[j].View()).active then Moved(old(pool[j].View()), dt) else old(pool[j].View()))
        invariant forall j | i <= j < |pool| :: pool[j].View() == old(pool[j].View())
      {
        if pool[i].active {
          pool[i].Update(dt);
        }
      }
    }
  }
}
