/**
 * Player and alien bullets (src/games/galactic-assault/Bullets.ts): two pools of bullets that
 * fly in straight lines and are recycled once they leave the screen by more than a margin.
 */
module Bullets {
  import opened Types
  import opened Pool

  const PLAYER_BULLET_SPEED: real := -500.0
  const BULLET_OFF_SCREEN_MARGIN: real := 20.0
  const PLAYER_POOL_SIZE: nat := 50
  const ALIEN_POOL_SIZE: nat := 100

  datatype Bullet = Bullet(x: real, y: real, vx: real, vy: real, width: real, height: real, color: string)

  /** The item every pool slot starts with. */
  function CreateBullet(): Bullet {
    Bullet(0.0, 0.0, 0.0, 0.0, 3.0, 10.0, "#00ffcc")
  }

  /** A bullet as the player fires it: thin, tall and cyan. */
  function PlayerShot(x: real, y: real, vx: real, vy: real): Bullet {
    Bullet(x, y, vx, vy, 3.0, 10.0, "#00ffcc")
  }

  /** A bullet as an alien fires it: wider, shorter and red. */
  function AlienShot(x: real, y: real, vx: real, vy: real): Bullet {
    Bullet(x, y, vx, vy, 4.0, 8.0, "#ff4444")
  }

  /** The bullet after flying for `dt` seconds at its velocity. */
  function Moved(b: Bullet, dt: real): (m: Bullet)
    ensures m.vx == b.vx && m.vy == b.vy && m.width == b.width && m.height == b.height && m.color == b.color
    ensures dt == 0.0 ==> m == b
  {
    b.(x := b.x + b.vx * dt, y := b.y + b.vy * dt)
  }

  function MoveBy(dt: real): Bullet -> Bullet {
    b => Moved(b, dt)
  }

  /** Beyond the margin above or below the canvas. */
  predicate OffScreen(b: Bullet): (o: bool)
    ensures !o <==> -BULLET_OFF_SCREEN_MARGIN <= b.y <= CANVAS_H + BULLET_OFF_SCREEN_MARGIN
  {
    b.y < -BULLET_OFF_SCREEN_MARGIN || b.y > CANVAS_H + BULLET_OFF_SCREEN_MARGIN
  }

  /** Two short flights are one long one: motion depends only on the total time. */
  lemma MovedComposes(b: Bullet, dt1: real, dt2: real)
    ensures Moved(Moved(b, dt1), dt2) == Moved(b, dt1 + dt2)
  {
    var once := Moved(b, dt1);
    assert b.vx * dt1 + b.vx * dt2 == b.vx * (dt1 + dt2);
    assert b.vy * dt1 + b.vy * dt2 == b.vy * (dt1 + dt2);
    assert Moved(once, dt2).x == b.x + b.vx * (dt1 + dt2);
    assert Moved(once, dt2).y == b.y + b.vy * (dt1 + dt2);
  }

  /**
   * The flags and items of a bullet pool after one update: every active bullet moves, and
   * exactly the moved bullets that are still within the margins stay active.
   */
  function Advance(flags: seq<bool>, items: seq<Bullet>, dt: real): (r: (seq<bool>, seq<Bullet>))
    requires |flags| == |items|
    ensures |r.0| == |flags| && |r.1| == |items|
    ensures forall j :: 0 <= j < |flags| ==>
      (r.0[j] <==> flags[j] && -BULLET_OFF_SCREEN_MARGIN <= r.1[j].y <= CANVAS_H + BULLET_OFF_SCREEN_MARGIN)
    ensures forall j :: 0 <= j < |flags| && flags[j] ==>
      && r.1[j].x == items[j].x + items[j].vx * dt && r.1[j].y == items[j].y + items[j].vy * dt
      && r.1[j].vx == items[j].vx && r.1[j].vy == items[j].vy
      && r.1[j].width == items[j].width && r.1[j].height == items[j].height && r.1[j].color == items[j].color
    ensures forall j :: 0 <= j < |flags| && !flags[j] ==> r.1[j] == items[j]
  {
    var moved := seq(|items|, j requires 0 <= j < |items| => if flags[j] then Moved(items[j], dt) else items[j]);
    (seq(|flags|, j requires 0 <= j < |flags| => flags[j] && !OffScreen(moved[j])), moved)
  }

  /** An update never activates a slot, so it never raises the number of bullets in flight. */
  lemma AdvanceNeverAddsBullets(flags: seq<bool>, items: seq<Bullet>, dt: real)
    requires |flags| == |items|
    ensures CountTrue(Advance(flags, items, dt).0) <= CountTrue(flags)
  {
    var after := Advance(flags, items, dt).0;
    var dropped := seq(|flags|, j requires 0 <= j < |flags| => flags[j] && !after[j]);
    CountTrueSplit(flags, after, dropped);
  }

  /** Moves one pool's active bullets and recycles those that left the screen. */
  method AdvancePool(pool: ObjectPool<Bullet>, dt: real)
    requires pool.Valid()
    modifies pool, pool.flags, pool.items
    ensures pool.Valid()
    ensures (pool.flags[..], pool.items[..]) == Advance(old(pool.flags[..]), old(pool.items[..]), dt)
  {
    var _ := pool.ForEachActive(Lift<(), Bullet>(MoveBy(dt)), ());
    VisitRewrites(MoveBy(dt), (), old(pool.items[..]), pool.flags[..], 0);
    pool.ReleaseIf(OffScreen);
    var r := Advance(old(pool.flags[..]), old(pool.items[..]), dt);
    assert pool.flags[..] == r.0;
    assert pool.items[..] == r.1;
  }

  class BulletManager {
    const playerBullets: ObjectPool<Bullet>
    const alienBullets: ObjectPool<Bullet>

    ghost function Repr(): set<object> {
      playerBullets.Repr() + alienBullets.Repr()
    }

    /** Two valid, separate pools of 50 player and 100 alien bullets. */
    ghost predicate Valid()
      reads playerBullets, playerBullets.flags, alienBullets, alienBullets.flags
    {
      && playerBullets.Valid() && alienBullets.Valid()
      && playerBullets != alienBullets && playerBullets.flags != alienBullets.flags
      && playerBullets.items != alienBullets.items
      && playerBullets.items.Length == PLAYER_POOL_SIZE
      && alienBullets.items.Length == ALIEN_POOL_SIZE
    }

    constructor ()
      ensures Valid() && fresh(Repr())
      ensures forall j :: 0 <= j < PLAYER_POOL_SIZE ==> !playerBullets.flags[j] && playerBullets.items[j] == CreateBullet()
      ensures forall j :: 0 <= j < ALIEN_POOL_SIZE ==> !alienBullets.flags[j] && alienBullets.items[j] == CreateBullet()
    {
      playerBullets := new ObjectPool<Bullet>(PLAYER_POOL_SIZE, () => CreateBullet());
      alienBullets := new ObjectPool<Bullet>(ALIEN_POOL_SIZE, () => CreateBullet());
    }

    /** Fires a player bullet into the lowest free slot; nothing happens when all 50 fly. */
    method SpawnPlayerBullet(x: real, y: real, vx: real := 0.0, vy: real := PLAYER_BULLET_SPEED)
      requires Valid()
      modifies playerBullets, playerBullets.flags, playerBullets.items
      ensures Valid()
      ensures (playerBullets.flags[..], playerBullets.items[..])
        == Place(old(playerBullets.flags[..]), old(playerBullets.items[..]), PlayerShot(x, y, vx, vy))
    {
      var slot := playerBullets.Acquire();
      if slot.Some? {
        playerBullets.Write(slot.value, PlayerShot(x, y, vx, vy));
      }
    }

    /** Fires an alien bullet into the lowest free slot; nothing happens when all 100 fly. */
    method SpawnAlienBullet(x: real, y: real, vx: real, vy: real)
      requires Valid()
      modifies alienBullets, alienBullets.flags, alienBullets.items
      ensures Valid()
      ensures (alienBullets.flags[..], alienBullets.items[..])
        == Place(old(alienBullets.flags[..]), old(alienBullets.items[..]), AlienShot(x, y, vx, vy))
    {
      var slot := alienBullets.Acquire();
      if slot.Some? {
        alienBullets.Write(slot.value, AlienShot(x, y, vx, vy));
      }
    }

    /** Moves both pools' bullets and recycles those that left the screen. */
    method Update(dt: real)
      requires Valid()
      modifies playerBullets, playerBullets.flags, playerBullets.items, alienBullets, alienBullets.flags, alienBullets.items
      ensures Valid()
      ensures (playerBullets.flags[..], playerBullets.items[..])
        == Advance(old(playerBullets.flags[..]), old(playerBullets.items[..]), dt)
      ensures (alienBullets.flags[..], alienBullets.items[..])
        == Advance(old(alienBullets.flags[..]), old(alienBullets.items[..]), dt)
    {
      AdvancePool(playerBullets, dt);
      AdvancePool(alienBullets, dt);
    }

    /** Recycles every bullet of both pools. */
    method Reset()
      requires Valid()
      modifies playerBullets, playerBullets.flags, playerBullets.items, alienBullets, alienBullets.flags, alienBullets.items
      ensures Valid()
      ensures forall j :: 0 <= j < PLAYER_POOL_SIZE ==> !playerBullets.flags[j]
      ensures forall j :: 0 <= j < ALIEN_POOL_SIZE ==> !alienBullets.flags[j]
      ensures playerBullets.activeCount == 0 && alienBullets.activeCount == 0
      ensures playerBullets.items[..] == old(playerBullets.items[..])
      ensures alienBullets.items[..] == old(alienBullets.items[..])
    {
      playerBullets.ReleaseAll();
      alienBullets.ReleaseAll();
    }
  }

  /** A player bullet fired from a fresh manager takes slot 0 with the default upward speed,
      and a bullet fired inside the top margin is recycled once the next update carries it past. */
  method FireAndRecycle(x: real) returns (first: Bullet, activeAfterUpdate: bool)
    ensures first == PlayerShot(x, -15.0, 0.0, PLAYER_BULLET_SPEED)
    ensures !activeAfterUpdate
  {
    var m := new BulletManager();
    ghost var before := m.playerBullets.flags[..];
    FirstFreeIs(before, 0);
    m.SpawnPlayerBullet(x, -15.0);
    first := m.playerBullets.items[0];
    m.Update(1.0 / 60.0);
    activeAfterUpdate := m.playerBullets.flags[0];
  }
}
