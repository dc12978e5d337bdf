/**
 * Falling power-up pickups (src/games/galactic-assault/PowerUp.ts): a pool of ten items that a
 * destroyed alien may drop, that sink and bob, and that are recycled below the screen.
 * The three `Math.random()` draws of `spawn` are the arguments `rChance`, `rKind`, `rPhase`.
 */
module PowerUps {
  import opened Types
  import opened Maths
  import opened Pool
  import opened Players

  const POWER_UP_POOL_SIZE: nat := 10
  const POWERUP_SPAWN_CHANCE: real := 0.25
  const POWERUP_FALL_SPEED: real := 80.0
  const POWERUP_SIZE: real := 14.0
  const PI: real := 3.141592653589793
  /** Items below this line are recycled. */
  const FALL_LIMIT: real := CANVAS_H + 20.0

  const KINDS: seq<PowerUpType> := [Rapid, Shield, Spread]

  datatype PowerUpItem = PowerUpItem(x: real, y: real, kind: PowerUpType, vy: real, size: real, bobPhase: real)

  function CreatePowerUp(): PowerUpItem {
    PowerUpItem(0.0, 0.0, Rapid, 0.0, POWERUP_SIZE, 0.0)
  }

  /** The kind a draw selects: each of the three kinds covers a third of [0, 1). */
  function KindFor(rKind: real): (k: PowerUpType)
    requires 0.0 <= rKind < 1.0
    ensures rKind < 1.0 / 3.0 ==> k == Rapid
    ensures 1.0 / 3.0 <= rKind < 2.0 / 3.0 ==> k == Shield
    ensures 2.0 / 3.0 <= rKind ==> k == Spread
  {
    var i := PickIndex(rKind, |KINDS|);
    assert i == (rKind * 3.0).Floor;
    KINDS[i]
  }

  /** The item a successful drop writes: it falls at 80 px/s from the alien's position with a
      random starting bob phase in [0, 2π). */
  function Dropped(x: real, y: real, rKind: real, rPhase: real): (p: PowerUpItem)
    requires 0.0 <= rKind < 1.0 && 0.0 <= rPhase < 1.0
    ensures p.x == x && p.y == y && p.kind == KindFor(rKind)
    ensures p.vy == POWERUP_FALL_SPEED && p.size == POWERUP_SIZE
    ensures 0.0 <= p.bobPhase < PI * 2.0
  {
    var turn := PI * 2.0;
    FractionBelow(turn, rPhase);
    PowerUpItem(x, y, KindFor(rKind), POWERUP_FALL_SPEED, POWERUP_SIZE, rPhase * turn)
  }

  /** An item after `dt` seconds: it sinks at its speed and its bob phase turns four times as fast. */
  function Fallen(p: PowerUpItem, dt: real): (q: PowerUpItem)
    ensures q.x == p.x && q.kind == p.kind && q.vy == p.vy && q.size == p.size
    ensures dt == 0.0 ==> q == p
    ensures p.vy > 0.0 && dt > 0.0 ==> q.y > p.y
  {
    p.(y := p.y + p.vy * dt, bobPhase := p.bobPhase + dt * 4.0)
  }

  function FallBy(dt: real): PowerUpItem -> PowerUpItem {
    p => Fallen(p, dt)
  }

  predicate BelowScreen(p: PowerUpItem): (b: bool)
    ensures b <==> p.y - CANVAS_H > 20.0
  {
    p.y > FALL_LIMIT
  }

  /**
   * The flags and items of the pool after one update: every active item falls, and exactly the
   * fallen items that are not below the limit stay active.
   */
  function Fall(flags: seq<bool>, items: seq<PowerUpItem>, dt: real): (r: (seq<bool>, seq<PowerUpItem>))
    requires |flags| == |items|
    ensures |r.0| == |flags| && |r.1| == |items|
    ensures forall j :: 0 <= j < |flags| ==> (r.0[j] <==> flags[j] && r.1[j].y <= FALL_LIMIT)
    ensures forall j :: 0 <= j < |flags| && flags[j] ==>
      && r.1[j].y == items[j].y + items[j].vy * dt && r.1[j].bobPhase == items[j].bobPhase + dt * 4.0
      && r.1[j].x == items[j].x && r.1[j].kind == items[j].kind
      && r.1[j].vy == items[j].vy && r.1[j].size == items[j].size
    ensures forall j :: 0 <= j < |flags| && !flags[j] ==> r.1[j] == items[j]
  {
    var moved := seq(|items|, j requires 0 <= j < |items| => if flags[j] then Fallen(items[j], dt) else items[j]);
    (seq(|flags|, j requires 0 <= j < |flags| => flags[j] && !BelowScreen(moved[j])), moved)
  }

  /** The pool after a kill at (x, y) rolls for a drop: at most a 0.25 draw places the dropped
      item into the lowest free slot, any higher draw leaves the pool as it was. */
  function Drop(flags: seq<bool>, items: seq<PowerUpItem>, x: real, y: real, rChance: real, rKind: real,
                rPhase: real): (r: (seq<bool>, seq<PowerUpItem>))
    requires |flags| == |items| && 0.0 <= rKind < 1.0 && 0.0 <= rPhase < 1.0
    ensures rChance > POWERUP_SPAWN_CHANCE ==> r == (flags, items)
    ensures rChance <= POWERUP_SPAWN_CHANCE ==> r == Place(flags, items, Dropped(x, y, rKind, rPhase))
    ensures |r.0| == |flags| && |r.1| == |items|
  {
    if rChance > POWERUP_SPAWN_CHANCE then (flags, items) else Place(flags, items, Dropped(x, y, rKind, rPhase))
  }

  class PowerUpManager {
    const pool: ObjectPool<PowerUpItem>

    ghost function Repr(): set<object> {
      pool.Repr()
    }

    ghost predicate Valid()
      reads pool, pool.flags
    {
      pool.Valid() && pool.items.Length == POWER_UP_POOL_SIZE
    }

    constructor ()
      ensures Valid() && fresh(Repr())
      ensures forall j :: 0 <= j < POWER_UP_POOL_SIZE ==> !pool.flags[j] && pool.items[j] == CreatePowerUp()
    {
      pool := new ObjectPool<PowerUpItem>(POWER_UP_POOL_SIZE, () => CreatePowerUp());
    }

    /** Drops a power-up at (x, y) one time in four (when `rChance` is at most 0.25) into the
        lowest free slot; nothing happens otherwise or when all ten slots are taken. */
    method Spawn(x: real, y: real, rChance: real, rKind: real, rPhase: real)
      requires Valid()
      requires 0.0 <= rChance < 1.0 && 0.0 <= rKind < 1.0 && 0.0 <= rPhase < 1.0
      modifies pool, pool.items, pool.flags
      ensures Valid()
      ensures (pool.flags[..], pool.items[..]) == Drop(old(pool.flags[..]), old(pool.items[..]), x, y, rChance, rKind, rPhase)
    {
      if rChance > POWERUP_SPAWN_CHANCE {
        return;
      }
      var slot := pool.Acquire();
      if slot.None? {
        return;
      }
      var kind := KINDS[PickIndex(rKind, |KINDS|)];
      var bob := rPhase * PI * 2.0;
      pool.Write(slot.value, PowerUpItem(x, y, kind, POWERUP_FALL_SPEED, POWERUP_SIZE, bob));
    }

    /** Lets every active item fall and recycles those below the screen. */
    method Update(dt: real)
      requires Valid()
      modifies pool, pool.items, pool.flags
      ensures Valid()
      ensures (pool.flags[..], pool.items[..]) == Fall(old(pool.flags[..]), old(pool.items[..]), dt)
    {
      var _ := pool.ForEachActive(Lift<(), PowerUpItem>(FallBy(dt)), ());
      VisitRewrites(FallBy(dt), (), old(pool.items[..]), pool.flags[..], 0);
      pool.ReleaseIf(BelowScreen);
      var r := Fall(old(pool.flags[..]), old(pool.items[..]), dt);
      assert pool.flags[..] == r.0;
      assert pool.items[..] == r.1;
    }

    /** Recycles every item. */
    method Reset()
      requires Valid()
      modifies pool, pool.items, pool.flags
      ensures Valid()
      ensures forall j :: 0 <= j < POWER_UP_POOL_SIZE ==> !pool.flags[j]
      ensures pool.activeCount == 0
      ensures pool.items[..] == old(pool.items[..])
    {
      pool.ReleaseAll();
    }
  }
}
