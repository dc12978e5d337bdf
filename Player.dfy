/**
 * The player's ship (src/games/galactic-assault/Player.ts): steering inside the canvas, the
 * shooting cooldown, the invulnerability window after a hit, and the three power-ups.
 * Width, height and speed are never reassigned, so they are constants here.
 */
module Players {
  import opened Wrappers
  import opened Types
  import opened Maths
  import opened Input

  datatype PowerUpType = Rapid | Shield | Spread

  const PLAYER_START_LIVES: int := 3
  const DEFAULT_SHOOT_RATE: real := 0.3
  const RAPID_FIRE_MULTIPLIER: real := 0.4
  const POWER_UP_DURATION: real := 10.0
  const SHIELD_HITS: int := 3
  const INVULN_DURATION: real := 2.0

  /** Whether either key of a pair is held. */
  predicate Held(keys: set<string>, a: string, b: string) {
    a in keys || b in keys
  }

  /** Where the ship ends up after one frame of steering from `x`, before clamping. */
  function Steer(x: real, keys: set<string>, step: real): (r: real)
    ensures r == x || r == x - step || r == x + step
    ensures keys == {} ==> r == x
  {
    var afterLeft := if Held(keys, "ArrowLeft", "KeyA") then x - step else x;
    if Held(keys, "ArrowRight", "KeyD") then afterLeft + step else afterLeft
  }

  /** Holding left and right together cancels out; holding one moves by exactly one step. */
  lemma SteerDirections(x: real, keys: set<string>, step: real)
    ensures Held(keys, "ArrowLeft", "KeyA") == Held(keys, "ArrowRight", "KeyD") ==> Steer(x, keys, step) == x
    ensures Held(keys, "ArrowLeft", "KeyA") && !Held(keys, "ArrowRight", "KeyD") ==> Steer(x, keys, step) == x - step
    ensures !Held(keys, "ArrowLeft", "KeyA") && Held(keys, "ArrowRight", "KeyD") ==> Steer(x, keys, step) == x + step
  {
  }

  /** A countdown that only runs while it is positive. */
  function Countdown(t: real, dt: real): (r: real)
    ensures t <= 0.0 ==> r == t
    ensures t > 0.0 && dt >= 0.0 ==> r <= t
    ensures t > 0.0 ==> r == t - dt
  {
    if t > 0.0 then t - dt else t
  }

  /** Seconds between shots with the power-up `p`: rapid fire shortens the interval. */
  function FireInterval(p: Option<PowerUpType>, rate: real): (r: real)
    ensures p == Some(Rapid) && rate > 0.0 ==> 0.0 < r < rate
    ensures p != Some(Rapid) ==> r == rate
  {
    if p == Some(Rapid) then rate * RAPID_FIRE_MULTIPLIER else rate
  }

  /** What `clearPowerUp` leaves of a power-up: a shield outlives its timer. */
  function Cleared(p: Option<PowerUpType>): (r: Option<PowerUpType>)
    ensures p == Some(Shield) <==> r == Some(Shield)
    ensures r == None || r == p
  {
    if p != Some(Shield) then None else p
  }

  /** The part of the player's state that a hit can change. */
  datatype Vitals = Vitals(lives: int, invulnTime: real, powerUp: Option<PowerUpType>, shieldHits: int)

  /**
   * The rules of `takeDamage`: a hit is ignored while invulnerable, absorbed by a shield with
   * hits left (the shield drops when its last hit is used), and otherwise costs a life and
   * grants two seconds of invulnerability. The flag says whether a life was lost.
   */
  function Damage(v: Vitals): (r: (Vitals, bool))
    ensures r.1 <==> v.invulnTime <= 0.0 && !(v.powerUp == Some(Shield) && v.shieldHits > 0)
    ensures v.invulnTime > 0.0 ==> r.0 == v
    ensures v.invulnTime <= 0.0 && v.powerUp == Some(Shield) && v.shieldHits > 0 ==>
      && r.0.lives == v.lives && r.0.invulnTime == v.invulnTime
      && r.0.shieldHits == v.shieldHits - 1
      && r.0.powerUp == (if v.shieldHits == 1 then None else v.powerUp)
    ensures r.1 ==> r.0 == v.(lives := v.lives - 1, invulnTime := INVULN_DURATION)
    ensures r.0.lives >= v.lives - 1
  {
    if v.invulnTime > 0.0 then (v, false)
    else if v.powerUp == Some(Shield) && v.shieldHits > 0 then
      var hits := v.shieldHits - 1;
      (v.(shieldHits := hits, powerUp := if hits <= 0 then None else v.powerUp), false)
    else (v.(lives := v.lives - 1, invulnTime := INVULN_DURATION), true)
  }

  /** The vitals after `n` hits in a row with no time passing in between. */
  function Hits(v: Vitals, n: nat): Vitals
    decreases n
  {
    if n == 0 then v else Damage(Hits(v, n - 1)).0
  }

  /** Whether any of `n` hits in a row cost a life. */
  predicate HitsLost(v: Vitals, n: nat)
    decreases n
  {
    n > 0 && (HitsLost(v, n - 1) || Damage(Hits(v, n - 1)).1)
  }

  /** Hits while invulnerable change nothing. */
  lemma {:induction false} HitsWhileInvulnerable(v: Vitals, n: nat)
    requires v.invulnTime > 0.0
    ensures Hits(v, n) == v && !HitsLost(v, n)
    decreases n
  {
    if n > 0 {
      HitsWhileInvulnerable(v, n - 1);
    }
  }

  /**
   * However many hits land within one frame, at most one life is lost: the first hit that
   * costs a life also makes the ship invulnerable. A life is lost exactly when one of the hits
   * cost it.
   */
  lemma {:induction false} HitsCostAtMostOneLife(v: Vitals, n: nat)
    ensures HitsLost(v, n) ==> Hits(v, n).lives == v.lives - 1 && Hits(v, n).invulnTime == INVULN_DURATION
    ensures !HitsLost(v, n) ==> Hits(v, n).lives == v.lives
    decreases n
  {
    if n > 0 {
      HitsCostAtMostOneLife(v, n - 1);
    }
  }

  /** `a` hits followed by `b` hits are `a + b` hits. */
  lemma {:induction false} HitsAdd(v: Vitals, a: nat, b: nat)
    ensures Hits(Hits(v, a), b) == Hits(v, a + b)
    ensures HitsLost(v, a + b) <==> HitsLost(v, a) || HitsLost(Hits(v, a), b)
    decreases b
  {
    if b > 0 {
      HitsAdd(v, a, b - 1);
    }
  }

  /** A charged shield with `k` hits left absorbs exactly `k` hits, dropping with the last one,
      and the next hit costs a life. */
  lemma ShieldAbsorbs(v: Vitals, k: nat)
    requires k > 0 && v.invulnTime <= 0.0 && v.powerUp == Some(Shield) && v.shieldHits == k
    ensures Hits(v, k) == v.(powerUp := None, shieldHits := 0) && !HitsLost(v, k)
    ensures Damage(Hits(v, k)).1
  {
    ShieldCountsDown(v, k, k - 1);
  }

  /** After `m < k` hits a shield of `k` hits has `k - m` left and nothing else changed. */
  lemma {:induction false} ShieldCountsDown(v: Vitals, k: nat, m: nat)
    requires v.invulnTime <= 0.0 && v.powerUp == Some(Shield) && v.shieldHits == k && m < k
    ensures Hits(v, m) == v.(shieldHits := k - m) && !HitsLost(v, m)
    decreases m
  {
    if m > 0 {
      ShieldCountsDown(v, k, m - 1);
    }
  }

  /** The part of the player's state that collecting a power-up changes. */
  datatype Loadout = Loadout(powerUp: Option<PowerUpType>, powerUpTimer: real, shieldHits: int)

  /** Collecting `kind` replaces the current power-up for ten seconds; a shield is charged with
      three hits, any other kind leaves the shield count alone. */
  function Picked(l: Loadout, kind: PowerUpType): (r: Loadout)
    ensures r.powerUp == Some(kind) && r.powerUpTimer == POWER_UP_DURATION
    ensures r.shieldHits == if kind == Shield then SHIELD_HITS else l.shieldHits
  {
    Loadout(Some(kind), POWER_UP_DURATION, if kind == Shield then SHIELD_HITS else l.shieldHits)
  }

  /** The loadout after collecting `kinds` in order. */
  function PickedAll(l: Loadout, kinds: seq<PowerUpType>): Loadout
    decreases |kinds|
  {
    if |kinds| == 0 then l else Picked(PickedAll(l, kinds[..|kinds| - 1]), kinds[|kinds| - 1])
  }

  /** After several pick-ups the last one wins with a full timer, and the shield count is three
      when any of them was a shield and untouched otherwise. */
  lemma {:induction false} LastPickUpWins(l: Loadout, kinds: seq<PowerUpType>)
    ensures |kinds| == 0 ==> PickedAll(l, kinds) == l
    ensures |kinds| > 0 ==>
      PickedAll(l, kinds).powerUp == Some(kinds[|kinds| - 1]) && PickedAll(l, kinds).powerUpTimer == POWER_UP_DURATION
    ensures PickedAll(l, kinds).shieldHits == if Shield in kinds then SHIELD_HITS else l.shieldHits
    decreases |kinds|
  {
    if |kinds| > 0 {
      var init := kinds[..|kinds| - 1];
      LastPickUpWins(l, init);
      assert kinds == init + [kinds[|kinds| - 1]];
      assert Shield in kinds <==> Shield in init || kinds[|kinds| - 1] == Shield;
    }
  }

  class Player {
    var x: real
    var y: real
    const width: real
    const height: real
    const speed: real
    var lives: int
    var shootCooldown: real
    var shootRate: real
    var invulnTime: real
    var powerUp: Option<PowerUpType>
    var powerUpTimer: real
    var shieldHits: int

    /** The ship stays inside the canvas and an active shield has hits left. */
    predicate Valid()
      reads this
    {
      && width == 32.0 && height == 24.0 && speed == 300.0
      && width / 2.0 <= x <= CANVAS_W - width / 2.0
      && 0 <= shieldHits <= SHIELD_HITS
      && (powerUp == Some(Shield) ==> shieldHits > 0)
    }

    constructor ()
      ensures Valid()
      ensures x == CANVAS_W / 2.0 && y == CANVAS_H - 50.0
      ensures lives == PLAYER_START_LIVES && shootCooldown == 0.0 && shootRate == DEFAULT_SHOOT_RATE
      ensures invulnTime == 0.0 && powerUp == None && powerUpTimer == 0.0 && shieldHits == 0
    {
      width, height, speed := 32.0, 24.0, 300.0;
      x, y := CANVAS_W / 2.0, CANVAS_H - 50.0;
      lives, shootCooldown, shootRate := PLAYER_START_LIVES, 0.0, DEFAULT_SHOOT_RATE;
      invulnTime, powerUp, powerUpTimer, shieldHits := 0.0, None, 0.0, 0;
    }

    /** Puts the ship back at the start with full lives and no power-up. */
    method Reset()
      requires Valid()
      modifies this
      ensures Valid()
      ensures x == CANVAS_W / 2.0 && y == CANVAS_H - 50.0
      ensures lives == PLAYER_START_LIVES && shootCooldown == 0.0 && shootRate == DEFAULT_SHOOT_RATE
      ensures invulnTime == 0.0 && powerUp == None && powerUpTimer == 0.0 && shieldHits == 0
    {
      x, y := CANVAS_W / 2.0, CANVAS_H - 50.0;
      lives, shootCooldown, shootRate := PLAYER_START_LIVES, 0.0, DEFAULT_SHOOT_RATE;
      invulnTime, powerUp, powerUpTimer, shieldHits := 0.0, None, 0.0, 0;
    }

    /** One frame: steer by the held keys and stay inside the canvas, run the cooldown and
        invulnerability countdowns, and expire the power-up when its timer runs out. */
    method Update(dt: real, input: InputManager)
      requires Valid()
      modifies this
      ensures Valid()
      ensures x == Clamp(Steer(old(x), input.keysDown, speed * dt), width / 2.0, CANVAS_W - width / 2.0)
      ensures shootCooldown == Countdown(old(shootCooldown), dt)
      ensures invulnTime == Countdown(old(invulnTime), dt)
      ensures if old(powerUpTimer) > 0.0 && old(powerUpTimer) - dt <= 0.0 then
          powerUpTimer == 0.0 && powerUp == Cleared(old(powerUp))
        else
          powerUpTimer == Countdown(old(powerUpTimer), dt) && powerUp == old(powerUp)
      ensures y == old(y) && lives == old(lives) && shootRate == old(shootRate) && shieldHits == old(shieldHits)
    {
      Steering(dt, input);
      Countdowns(dt);
    }

    /** The steering part of `update`: move by the held keys, then clamp to the canvas. */
    method Steering(dt: real, input: InputManager)
      requires Valid()
      modifies this
      ensures Valid()
      ensures x == Clamp(Steer(old(x), input.keysDown, speed * dt), width / 2.0, CANVAS_W - width / 2.0)
      ensures y == old(y) && lives == old(lives) && shootRate == old(shootRate) && shieldHits == old(shieldHits)
      ensures shootCooldown == old(shootCooldown) && invulnTime == old(invulnTime)
      ensures powerUp == old(powerUp) && powerUpTimer == old(powerUpTimer)
    {
      if input.IsDown("ArrowLeft") || input.IsDown("KeyA") {
        x := x - speed * dt;
      }
      if input.IsDown("ArrowRight") || input.IsDown("KeyD") {
        x := x + speed * dt;
      }
      x := Clamp(x, width / 2.0, CANVAS_W - width / 2.0);
    }

    /** The timer part of `update`: the cooldown, the invulnerability window and the power-up
        timer run down, and the power-up is cleared when its timer runs out. */
    method Countdowns(dt: real)
      requires Valid()
      modifies this
      ensures Valid()
      ensures shootCooldown == Countdown(old(shootCooldown), dt)
      ensures invulnTime == Countdown(old(invulnTime), dt)
      ensures if old(powerUpTimer) > 0.0 && old(powerUpTimer) - dt <= 0.0 then
          powerUpTimer == 0.0 && powerUp == Cleared(old(powerUp))
        else
          powerUpTimer == Countdown(old(powerUpTimer), dt) && powerUp == old(powerUp)
      ensures x == old(x) && y == old(y) && lives == old(lives) && shootRate == old(shootRate)
      ensures shieldHits == old(shieldHits)
    {
      if shootCooldown > 0.0 {
        shootCooldown := shootCooldown - dt;
      }
      if invulnTime > 0.0 {
        invulnTime := invulnTime - dt;
      }
      if powerUpTimer > 0.0 {
        powerUpTimer := powerUpTimer - dt;
        if powerUpTimer <= 0.0 {
          ClearPowerUp();
        }
      }
    }

    /** The ship may fire once the cooldown has run out. */
    predicate CanShoot()
      reads this
    {
      shootCooldown <= 0.0
    }

    /** Starts the cooldown after a shot. */
    method OnShoot()
      requires Valid()
      modifies this
      ensures Valid()
      ensures shootCooldown == FireInterval(old(powerUp), old(shootRate))
      ensures old(shootRate) > 0.0 ==> !CanShoot()
      ensures x == old(x) && y == old(y) && lives == old(lives) && shootRate == old(shootRate)
      ensures invulnTime == old(invulnTime) && powerUp == old(powerUp)
      ensures powerUpTimer == old(powerUpTimer) && shieldHits == old(shieldHits)
    {
      var rate := if powerUp == Some(Rapid) then shootRate * RAPID_FIRE_MULTIPLIER else shootRate;
      shootCooldown := rate;
    }

    /** Collecting a power-up replaces the current one for ten seconds; a shield is charged
        with three hits. */
    method ApplyPowerUp(kind: PowerUpType)
      requires Valid()
      modifies this
      ensures Valid()
      ensures Gear() == Picked(old(Gear()), kind)
      ensures x == old(x) && y == old(y) && lives == old(lives) && shootRate == old(shootRate)
      ensures shootCooldown == old(shootCooldown) && invulnTime == old(invulnTime)
    {
      powerUp := Some(kind);
      powerUpTimer := POWER_UP_DURATION;
      if kind == Shield {
        shieldHits := SHIELD_HITS;
      }
    }

    /** Ends a timed power-up; a shield stays until its hits are used up. */
    method ClearPowerUp()
      requires Valid()
      modifies this
      ensures Valid()
      ensures powerUp == Cleared(old(powerUp)) && powerUpTimer == 0.0
      ensures x == old(x) && y == old(y) && lives == old(lives) && shootRate == old(shootRate)
      ensures shootCooldown == old(shootCooldown) && invulnTime == old(invulnTime)
      ensures shieldHits == old(shieldHits)
    {
      if powerUp != Some(Shield) {
        powerUp := None;
      }
      powerUpTimer := 0.0;
    }

    /** The power-up state of the ship. */
    function Gear(): Loadout
      reads this
    {
      Loadout(powerUp, powerUpTimer, shieldHits)
    }

    /** The vitals of the ship. */
    function Health(): Vitals
      reads this
    {
      Vitals(lives, invulnTime, powerUp, shieldHits)
    }

    /** A hit, by the rules of `Damage`; the result says whether a life was lost. */
    method TakeDamage() returns (lost: bool)
      requires Valid()
      modifies this
      ensures Valid()
      ensures (Health(), lost) == Damage(old(Health()))
      ensures x == old(x) && y == old(y) && shootRate == old(shootRate) && shootCooldown == old(shootCooldown)
      ensures powerUpTimer == old(powerUpTimer)
    {
      if invulnTime > 0.0 {
        return false;
      }
      if powerUp == Some(Shield) && shieldHits > 0 {
        shieldHits := shieldHits - 1;
        if shieldHits <= 0 {
          powerUp := None;
        }
        return false;
      }
      lives := lives - 1;
      invulnTime := INVULN_DURATION;
      return true;
    }
  }

  /** A fresh shield absorbs exactly three hits; the fourth costs a life and the ship is then
      invulnerable, so a fifth hit straight after is ignored. */
  method ShieldAbsorbsThreeHits() returns (hits: seq<bool>, lives: int)
    ensures hits == [false, false, false, true, false]
    ensures lives == PLAYER_START_LIVES - 1
  {
    var p := new Player();
    p.ApplyPowerUp(Shield);
    var h1 := p.TakeDamage();
    var h2 := p.TakeDamage();
    var h3 := p.TakeDamage();
    assert p.powerUp == None;
    var h4 := p.TakeDamage();
    var h5 := p.TakeDamage();
    hits, lives := [h1, h2, h3, h4, h5], p.lives;
  }
}
