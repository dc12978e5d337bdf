/**
 * The round controller (src/games/galactic-assault/index.ts): the ready / playing / dying /
 * gameover / victory state machine and the collision pass that reconciles the bullet pools,
 * the formation, the player and the power-up pool once per tick.
 *
 * Every `Math.random()` drawn during one tick comes from a stream `rand`: draws 0, 1 and 2 go to
 * the formation (shooter, diver, dive speed) and the `j`-th alien destroyed in the tick uses
 * draws `3 + 3 * j` to `5 + 3 * j` for its power-up roll. Sound, particles, stars and screen
 * shake have no effect on the game state and are not modelled.
 */
module Game {
  import opened Wrappers
  import opened Types
  import opened Collision
  import opened Maths
  import opened Pool
  import opened Input
  import opened Bullets
  import opened PowerUps
  import opened Players
  import opened Formation
  import opened Bounds

  datatype GameState = Ready | Playing | Dying | Gameover | Victory

  /** Seconds on the title screen before play starts without a key press. */
  const READY_DELAY: real := 3.0
  /** Seconds the end screens ignore Space. */
  const RETRY_DELAY: real := 1.0
  /** Seconds the explosion of the ship lasts. */
  const DYING_DURATION: real := 1.5
  /** The fan of the spread power-up: two side shots and a centre shot. */
  const SPREAD_SIDE_VX: real := 80.0
  const SPREAD_SIDE_VY: real := -480.0
  const SPREAD_CENTRE_VY: real := -500.0

  /** A stream of `Math.random()` results, each in [0, 1). */
  ghost predicate Draws(rand: nat -> real) {
    forall n: nat :: 0.0 <= rand(n) < 1.0
  }

  // ---------------------------------------------------------------- shooting

  /** The player pool after the ship fires from (x, y): with the spread power-up three bullets
      fan out (left, centre, right), otherwise one bullet flies straight up; each takes the
      lowest free slot, and a shot that finds none is dropped. */
  function Salvo(flags: seq<bool>, items: seq<Bullet>, x: real, y: real, spread: bool): (r: (seq<bool>, seq<Bullet>))
    requires |flags| == |items|
    ensures |r.0| == |flags| && |r.1| == |items|
    ensures var shots := if spread then 3 else 1;
      CountTrue(r.0) == if CountTrue(flags) + shots <= |flags| then CountTrue(flags) + shots else |flags|
  {
    if spread then
      var p1 := Place(flags, items, PlayerShot(x, y, -SPREAD_SIDE_VX, SPREAD_SIDE_VY));
      PlacedCount(flags, items, PlayerShot(x, y, -SPREAD_SIDE_VX, SPREAD_SIDE_VY));
      var p2 := Place(p1.0, p1.1, PlayerShot(x, y, 0.0, SPREAD_CENTRE_VY));
      PlacedCount(p1.0, p1.1, PlayerShot(x, y, 0.0, SPREAD_CENTRE_VY));
      PlacedCount(p2.0, p2.1, PlayerShot(x, y, SPREAD_SIDE_VX, SPREAD_SIDE_VY));
      Place(p2.0, p2.1, PlayerShot(x, y, SPREAD_SIDE_VX, SPREAD_SIDE_VY))
    else
      PlacedCount(flags, items, PlayerShot(x, y, 0.0, PLAYER_BULLET_SPEED));
      Place(flags, items, PlayerShot(x, y, 0.0, PLAYER_BULLET_SPEED))
  }

  /** Placing one item activates one more slot unless the pool is full. */
  lemma PlacedCount<T>(flags: seq<bool>, items: seq<T>, x: T)
    requires |flags| == |items|
    ensures var r := Place(flags, items, x);
      |r.0| == |flags| && |r.1| == |items| &&
      CountTrue(r.0) == if CountTrue(flags) < |flags| then CountTrue(flags) + 1 else |flags|
  {
    PlaceEffect(flags, items, x);
  }

  // ------------------------------------------------- player bullets vs aliens

  /** An alive alien whose rectangle overlaps `r`. */
  predicate Struck(a: Alien, r: Rect) {
    a.alive && RectOverlap(r, AlienBounds(a))
  }

  /** The first alien in storage order that `r` strikes, if any. */
  function FirstHit(s: seq<Alien>, r: Rect): (k: Option<nat>)
    ensures k.Some? ==> k.value < |s| && Struck(s[k.value], r)
    ensures k.Some? ==> forall j :: 0 <= j < k.value ==> !Struck(s[j], r)
    ensures k.None? <==> forall j :: 0 <= j < |s| ==> !Struck(s[j], r)
  {
    if |s| == 0 then None
    else if Struck(s[0], r) then Some(0)
    else match FirstHit(s[1..], r)
      case None => None
      case Some(j) => Some(j + 1)
  }

  /** A destroyed alien: dead and no longer diving. */
  function Killed(a: Alien): Alien {
    a.(alive := false, diving := false)
  }

  /** What the player-bullet pass has built up so far: the aliens, the player pool's flags, the
      score and high score, the aliens destroyed so far, and the power-up pool. */
  datatype Sweep = Sweep(aliens: seq<Alien>, shots: seq<bool>, score: int, highScore: int, kills: nat,
                         drops: seq<bool>, loot: seq<PowerUpItem>)

  /** The pool, the score and the aliens after the active player bullet in slot `i`, `b`, is
      checked: it destroys the first alive alien it overlaps and is recycled, the score rises by
      that alien's points, the high score follows, and the alien may drop a power-up; a bullet
      that overlaps no alive alien changes nothing. */
  function SweepStep(st: Sweep, i: nat, b: Bullet, rand: nat -> real): (r: Sweep)
    requires i < |st.shots| && st.shots[i] && |st.drops| == |st.loot| && Draws(rand)
    ensures |r.aliens| == |st.aliens| && |r.shots| == |st.shots| && |r.drops| == |r.loot| == |st.drops|
  {
    match FirstHit(st.aliens, BulletBounds(b))
    case None => st
    case Some(k) =>
      var a := st.aliens[k];
      var score := st.score + PointsFor(a.kind);
      var j := st.kills;
      var pu := Drop(st.drops, st.loot, a.x, a.y, rand(3 + 3 * j), rand(4 + 3 * j), rand(5 + 3 * j));
      Sweep(st.aliens[k := Killed(a)], st.shots[i := false], score,
            if score > st.highScore then score else st.highScore, j + 1, pu.0, pu.1)
  }

  /** A bullet that misses changes nothing; one that hits kills its first target, recycles
      itself and scores that alien's points. Either way the alive count and the active count
      fall by the one kill or none, the score rises by 10 to 30 per kill, the high score keeps
      up with the score, and the formation keeps its places. */
  lemma SweepStepEffect(st: Sweep, i: nat, b: Bullet, rand: nat -> real)
    requires i < |st.shots| && st.shots[i] && |st.drops| == |st.loot| && Draws(rand)
    ensures var r := SweepStep(st, i, b, rand);
      && (FirstHit(st.aliens, BulletBounds(b)).None? ==> r == st)
      && (FirstHit(st.aliens, BulletBounds(b)).Some? ==>
            var k := FirstHit(st.aliens, BulletBounds(b)).value;
            && r.aliens == st.aliens[k := Killed(st.aliens[k])]
            && r.shots == st.shots[i := false]
            && r.score == st.score + PointsFor(st.aliens[k].kind)
            && r.kills == st.kills + 1)
      && r.kills <= st.kills + 1
      && AliveCount(r.aliens) == AliveCount(st.aliens) - (r.kills - st.kills)
      && CountTrue(r.shots) == CountTrue(st.shots) - (r.kills - st.kills)
      && 10 * (r.kills - st.kills) <= r.score - st.score <= 30 * (r.kills - st.kills)
      && r.highScore >= st.highScore && (r.highScore == st.highScore || r.highScore == r.score)
      && (r.kills > st.kills ==> r.highScore >= r.score)
      && (st.score <= st.highScore ==> r.score <= r.highScore)
      && (WellPlaced(st.aliens) ==> WellPlaced(r.aliens))
  {
    match FirstHit(st.aliens, BulletBounds(b))
    case None =>
    case Some(k) =>
      KilledCount(st.aliens, k);
      KilledKeepsPlaces(st.aliens, k);
      CountTrueUpdate(st.shots, i, false);
  }

  /** A step activates no bullet and touches no slot but its own. */
  lemma SweepStepShots(st: Sweep, i: nat, b: Bullet, rand: nat -> real)
    requires i < |st.shots| && st.shots[i] && |st.drops| == |st.loot| && Draws(rand)
    ensures var r := SweepStep(st, i, b, rand);
      forall j :: 0 <= j < |r.shots| ==> (r.shots[j] ==> st.shots[j]) && (j != i ==> r.shots[j] == st.shots[j])
  {
  }

  /** A pass state that shows the effects of a bullet on its first target, alien `k`, is the
      step `SweepStep` takes. */
  lemma KillMatches(st: Sweep, i: nat, b: Bullet, rand: nat -> real, k: nat, r: Sweep)
    requires i < |st.shots| && st.shots[i] && |st.drops| == |st.loot| && Draws(rand)
    requires FirstHit(st.aliens, BulletBounds(b)) == Some(k)
    requires r.aliens == st.aliens[k := Killed(st.aliens[k])] && r.shots == st.shots[i := false]
    requires r.score == st.score + PointsFor(st.aliens[k].kind) && r.kills == st.kills + 1
    requires r.highScore == if r.score > st.highScore then r.score else st.highScore
    requires (r.drops, r.loot) == Drop(st.drops, st.loot, st.aliens[k].x, st.aliens[k].y, rand(3 + 3 * st.kills),
                                       rand(4 + 3 * st.kills), rand(5 + 3 * st.kills))
    ensures r == SweepStep(st, i, b, rand)
  {
  }

  /** Killing an alive alien lowers the alive count by one. */
  lemma KilledCount(s: seq<Alien>, k: nat)
    requires k < |s| && s[k].alive
    ensures AliveCount(s[k := Killed(s[k])]) == AliveCount(s) - 1
  {
    var t := s[k := Killed(s[k])];
    assert AliveFlags(t) == AliveFlags(s)[k := false];
    CountTrueUpdate(AliveFlags(s), k, false);
  }

  /** Killing an alien keeps every alien in its cell. */
  lemma KilledKeepsPlaces(s: seq<Alien>, k: nat)
    requires k < |s|
    ensures WellPlaced(s) ==> WellPlaced(s[k := Killed(s[k])])
  {
    var t := s[k := Killed(s[k])];
    if WellPlaced(s) {
      forall j | 0 <= j < |t|
        ensures InGrid(t[j], j) && Settled(t[j])
      {
        if j == k {
          assert InGrid(s[k], k);
        } else {
          assert t[j] == s[j];
        }
      }
    }
  }

  /** The player-bullet pass over slots `i..`: every active bullet, in slot order, is checked
      by `SweepStep`. */
  function Swept(st: Sweep, bullets: seq<Bullet>, i: nat, rand: nat -> real): (r: Sweep)
    requires |bullets| == |st.shots| && i <= |bullets| && |st.drops| == |st.loot| && Draws(rand)
    ensures |r.aliens| == |st.aliens| && |r.shots| == |st.shots| && |r.drops| == |r.loot| == |st.drops|
    decreases |bullets| - i
  {
    if i == |bullets| then st
    else if st.shots[i] then Swept(SweepStep(st, i, bullets[i], rand), bullets, i + 1, rand)
    else Swept(st, bullets, i + 1, rand)
  }

  /**
   * Over slots `i..`, every active bullet destroys at most one alien. Each alien destroyed
   * recycles a distinct bullet and lowers the alive count by one, and is worth 10 to 30 points;
   * no bullet is activated and the slots before `i` are left alone; the high score keeps up
   * with the score; the formation keeps its places.
   */
  lemma SweptEffect(st: Sweep, bullets: seq<Bullet>, i: nat, rand: nat -> real)
    requires |bullets| == |st.shots| && i <= |bullets| && |st.drops| == |st.loot| && Draws(rand)
    ensures var r := Swept(st, bullets, i, rand);
      && r.kills >= st.kills
      && AliveCount(r.aliens) == AliveCount(st.aliens) - (r.kills - st.kills)
      && CountTrue(r.shots) == CountTrue(st.shots) - (r.kills - st.kills)
      && (forall j :: 0 <= j < |r.shots| ==> (r.shots[j] ==> st.shots[j]) && (j < i ==> r.shots[j] == st.shots[j]))
      && 10 * (r.kills - st.kills) <= r.score - st.score <= 30 * (r.kills - st.kills)
      && r.highScore >= st.highScore && (st.score <= st.highScore ==> r.score <= r.highScore)
      && (WellPlaced(st.aliens) ==> WellPlaced(r.aliens))
  {
    SweptCounts(st, bullets, i, rand);
    SweptShots(st, bullets, i, rand);
    SweptScores(st, bullets, i, rand);
    SweptPlaces(st, bullets, i, rand);
  }

  /** One bullet's check kills at most one alien, and a kill lowers the alive count and the
      active count by one. */
  lemma SweepStepCounts(st: Sweep, i: nat, b: Bullet, rand: nat -> real)
    requires i < |st.shots| && st.shots[i] && |st.drops| == |st.loot| && Draws(rand)
    ensures var r := SweepStep(st, i, b, rand);
      && st.kills <= r.kills
      && AliveCount(r.aliens) == AliveCount(st.aliens) - (r.kills - st.kills)
      && CountTrue(r.shots) == CountTrue(st.shots) - (r.kills - st.kills)
  {
    SweepStepEffect(st, i, b, rand);
  }

  /** Over slots `i..`, each kill lowers the alive count and the active count by one. */
  lemma {:induction false} SweptCounts(st: Sweep, bullets: seq<Bullet>, i: nat, rand: nat -> real)
    requires |bullets| == |st.shots| && i <= |bullets| && |st.drops| == |st.loot| && Draws(rand)
    ensures var r := Swept(st, bullets, i, rand);
      && r.kills >= st.kills
      && AliveCount(r.aliens) == AliveCount(st.aliens) - (r.kills - st.kills)
      && CountTrue(r.shots) == CountTrue(st.shots) - (r.kills - st.kills)
    decreases |bullets| - i
  {
    if i == |bullets| {
    } else if st.shots[i] {
      var next := SweepStep(st, i, bullets[i], rand);
      SweepStepCounts(st, i, bullets[i], rand);
      SweptCounts(next, bullets, i + 1, rand);
    } else {
      SweptCounts(st, bullets, i + 1, rand);
    }
  }

  /** Over slots `i..`, no bullet is activated and the slots before `i` are left alone. */
  lemma {:induction false} SweptShots(st: Sweep, bullets: seq<Bullet>, i: nat, rand: nat -> real)
    requires |bullets| == |st.shots| && i <= |bullets| && |st.drops| == |st.loot| && Draws(rand)
    ensures var r := Swept(st, bullets, i, rand);
      forall j :: 0 <= j < |r.shots| ==> (r.shots[j] ==> st.shots[j]) && (j < i ==> r.shots[j] == st.shots[j])
    decreases |bullets| - i
  {
    if i == |bullets| {
    } else if st.shots[i] {
      var next := SweepStep(st, i, bullets[i], rand);
      SweepStepShots(st, i, bullets[i], rand);
      SweptShots(next, bullets, i + 1, rand);
    } else {
      SweptShots(st, bullets, i + 1, rand);
    }
  }

  /** One bullet's check scores 10 to 30 points for its kill, if any, and the high score keeps
      up with the score. */
  lemma SweepStepScores(st: Sweep, i: nat, b: Bullet, rand: nat -> real)
    requires i < |st.shots| && st.shots[i] && |st.drops| == |st.loot| && Draws(rand)
    ensures var r := SweepStep(st, i, b, rand);
      && st.kills <= r.kills
      && 10 * (r.kills - st.kills) <= r.score - st.score <= 30 * (r.kills - st.kills)
      && r.highScore >= st.highScore && (st.score <= st.highScore ==> r.score <= r.highScore)
  {
    SweepStepEffect(st, i, b, rand);
  }

  /** Over slots `i..`, each kill is worth 10 to 30 points and the high score keeps up with the
      score. */
  lemma {:induction false} SweptScores(st: Sweep, bullets: seq<Bullet>, i: nat, rand: nat -> real)
    requires |bullets| == |st.shots| && i <= |bullets| && |st.drops| == |st.loot| && Draws(rand)
    ensures var r := Swept(st, bullets, i, rand);
      && r.kills >= st.kills
      && 10 * (r.kills - st.kills) <= r.score - st.score <= 30 * (r.kills - st.kills)
      && r.highScore >= st.highScore && (st.score <= st.highScore ==> r.score <= r.highScore)
    decreases |bullets| - i
  {
    if i == |bullets| {
    } else if st.shots[i] {
      var next := SweepStep(st, i, bullets[i], rand);
      SweepStepScores(st, i, bullets[i], rand);
      SweptScores(next, bullets, i + 1, rand);
    } else {
      SweptScores(st, bullets, i + 1, rand);
    }
  }

  /** Over slots `i..`, the formation keeps its places. */
  lemma {:induction false} SweptPlaces(st: Sweep, bullets: seq<Bullet>, i: nat, rand: nat -> real)
    requires |bullets| == |st.shots| && i <= |bullets| && |st.drops| == |st.loot| && Draws(rand)
    ensures WellPlaced(st.aliens) ==> WellPlaced(Swept(st, bullets, i, rand).aliens)
    decreases |bullets| - i
  {
    if i == |bullets| {
    } else if st.shots[i] {
      SweepStepEffect(st, i, bullets[i], rand);
      SweptPlaces(SweepStep(st, i, bullets[i], rand), bullets, i + 1, rand);
    } else {
      SweptPlaces(st, bullets, i + 1, rand);
    }
  }

  // ---------------------------------------------------- alien bullets vs ship

  /** The box an alien bullet hits the ship with: twice the bullet's size, centred on it. */
  function HitBox(b: Bullet): (r: Rect)
    ensures r == CenteredBounds(b.x, b.y, 2.0 * b.width, 2.0 * b.height)
  {
    Rect(b.x - b.width, b.y - b.height, b.width * 2.0, b.height * 2.0)
  }

  /** Which alien bullets hit the ship's rectangle `ship`. */
  function ShotHits(ship: Rect): Bullet -> bool {
    b => RectOverlap(HitBox(b), ship)
  }

  // ----------------------------------------------------- diving aliens vs ship

  /** An alive diving alien that overlaps the ship's rectangle. */
  predicate Rams(a: Alien, ship: Rect) {
    a.alive && a.diving && RectOverlap(AlienBounds(a), ship)
  }

  /** Slot-wise: the aliens that ram the ship. */
  function Rammers(s: seq<Alien>, ship: Rect): (m: seq<bool>)
    ensures |m| == |s| && forall k :: 0 <= k < |s| ==> m[k] == Rams(s[k], ship)
  {
    seq(|s|, k requires 0 <= k < |s| => Rams(s[k], ship))
  }

  /** The aliens after the ramming pass: every alien that rams the ship dies (it keeps its dive
      flag), the others are untouched. */
  function Crashed(s: seq<Alien>, ship: Rect): (r: seq<Alien>)
    ensures |r| == |s|
  {
    seq(|s|, k requires 0 <= k < |s| => if Rams(s[k], ship) then s[k].(alive := false) else s[k])
  }

  /** The aliens once the ramming pass has checked the slots before `k`. */
  function CrashedUpTo(s: seq<Alien>, ship: Rect, k: nat): (r: seq<Alien>)
    requires k <= |s|
    ensures |r| == |s|
  {
    seq(|s|, j requires 0 <= j < |s| => if j < k && Rams(s[j], ship) then s[j].(alive := false) else s[j])
  }

  /** Checking one more slot updates that slot alone. */
  lemma CrashedUpToStep(s: seq<Alien>, ship: Rect, k: nat)
    requires k < |s|
    ensures CrashedUpTo(s, ship, k)[k] == s[k]
    ensures Rams(s[k], ship) ==> CrashedUpTo(s, ship, k + 1) == CrashedUpTo(s, ship, k)[k := s[k].(alive := false)]
    ensures !Rams(s[k], ship) ==> CrashedUpTo(s, ship, k + 1) == CrashedUpTo(s, ship, k)
  {
  }

  /** Checking every slot is the whole ramming pass. */
  lemma CrashedUpToAll(s: seq<Alien>, ship: Rect)
    ensures CrashedUpTo(s, ship, |s|) == Crashed(s, ship)
  {
  }

  /** The ramming pass lowers the alive count by the number of rammers. */
  lemma CrashedCount(s: seq<Alien>, ship: Rect)
    ensures AliveCount(Crashed(s, ship)) == AliveCount(s) - CountTrue(Rammers(s, ship))
  {
    var r := Crashed(s, ship);
    var a, b, c := AliveFlags(s), AliveFlags(r), Rammers(s, ship);
    forall k | 0 <= k < |s| ensures a[k] == (b[k] || c[k]) && !(b[k] && c[k]) {
      assert r[k] == if Rams(s[k], ship) then s[k].(alive := false) else s[k];
    }
    CountTrueSplit(a, b, c);
  }

  /** Exactly the rammers change, each of them dies, and the formation keeps its places. */
  lemma CrashedEffect(s: seq<Alien>, ship: Rect)
    ensures forall k :: 0 <= k < |s| ==> (Crashed(s, ship)[k] == s[k] <==> !Rams(s[k], ship))
    ensures forall k :: 0 <= k < |s| && Rams(s[k], ship) ==> !Crashed(s, ship)[k].alive
    ensures WellPlaced(s) ==> WellPlaced(Crashed(s, ship))
  {
    var r := Crashed(s, ship);
    forall k | 0 <= k < |s|
      ensures (r[k] == s[k] <==> !Rams(s[k], ship)) && (Rams(s[k], ship) ==> !r[k].alive)
      ensures InGrid(s[k], k) && Settled(s[k]) ==> InGrid(r[k], k) && Settled(r[k])
    {
      assert r[k] == if Rams(s[k], ship) then s[k].(alive := false) else s[k];
    }
  }

  // ------------------------------------------------------- power-ups vs ship

  /** Which power-ups the ship's rectangle `ship` collects. */
  function Grabs(ship: Rect): PowerUpItem -> bool {
    p => RectOverlap(PowerUpBounds(p), ship)
  }

  /** The kinds of the marked items, in slot order. */
  function MarkedKinds(m: seq<bool>, items: seq<PowerUpItem>): (r: seq<PowerUpType>)
    requires |m| == |items|
    ensures |r| == CountTrue(m)
    ensures forall t :: t in r <==> exists j :: 0 <= j < |m| && m[j] && items[j].kind == t
  {
    if |m| == 0 then []
    else
      var n := |m| - 1;
      var init := MarkedKinds(m[..n], items[..n]);
      assert forall j :: 0 <= j < n ==> m[..n][j] == m[j] && items[..n][j] == items[j];
      if m[n] then init + [items[n].kind] else init
  }

  /** The alien sequence with alien `k` replaced by `a`, which stays in cell `k`, keeps the
      formation's places. */
  lemma ReplaceKeepsPlaces(s: seq<Alien>, k: nat, a: Alien)
    requires WellPlaced(s) && k < |s| && InGrid(a, k) && Settled(a)
    ensures WellPlaced(s[k := a])
  {
    var t := s[k := a];
    forall j | 0 <= j < |t|
      ensures InGrid(t[j], j) && Settled(t[j])
    {
      if j != k {
        assert t[j] == s[j];
      }
    }
  }

  /** Extending a prefix of flags by one slot adds that slot's flag to the count. */
  lemma CountTruePrefix(s: seq<bool>, i: nat)
    requires i < |s|
    ensures CountTrue(s[..i + 1]) == CountTrue(s[..i]) + (if s[i] then 1 else 0)
  {
    assert s[..i + 1][..i] == s[..i];
  }

  /** The flags of a pool whose slots before `i` have been checked against `pred`: a checked
      slot stays active only if its item does not satisfy `pred`. */
  function Released<T>(flags: seq<bool>, items: seq<T>, pred: T -> bool, i: nat): (r: seq<bool>)
    requires |flags| == |items| && i <= |flags|
    ensures |r| == |flags|
    ensures forall j :: 0 <= j < |r| ==> r[j] == if j < i then flags[j] && !pred(items[j]) else flags[j]
  {
    seq(|flags|, j requires 0 <= j < |flags| => if j < i then flags[j] && !pred(items[j]) else flags[j])
  }

  /** Checking one more slot updates that slot alone. */
  lemma ReleasedStep<T>(flags: seq<bool>, items: seq<T>, pred: T -> bool, i: nat)
    requires |flags| == |items| && i < |flags|
    ensures Released(flags, items, pred, i + 1) == Released(flags, items, pred, i)[i := flags[i] && !pred(items[i])]
  {
  }

  /** Collecting the power-up of slot `i` when it is marked extends the loadout built from the
      slots before it to the loadout built from the slots up to it. */
  lemma CollectStep(g0: Loadout, m: seq<bool>, items: seq<PowerUpItem>, i: nat, gear: Loadout)
    requires |m| == |items| && i < |m|
    requires gear == PickedAll(g0, MarkedKinds(m[..i], items[..i]))
    ensures (if m[i] then Picked(gear, items[i].kind) else gear) == PickedAll(g0, MarkedKinds(m[..i + 1], items[..i + 1]))
  {
    var kinds := MarkedKinds(m[..i], items[..i]);
    assert m[..i + 1][..i] == m[..i];
    assert items[..i + 1][..i] == items[..i];
    if m[i] {
      assert (kinds + [items[i].kind])[..|kinds|] == kinds;
    } else {
      assert kinds + [] == kinds;
    }
  }

  // ------------------------------------------------------------- hits on the ship

  /** The hits the ship's rectangle takes in a frame: every active alien bullet and every alive
      diving alien that overlaps it. */
  function Blows(flags: seq<bool>, items: seq<Bullet>, s: seq<Alien>, ship: Rect): nat
    requires |flags| == |items|
  {
    CountTrue(Matching(flags, items, ShotHits(ship))) + CountTrue(Rammers(s, ship))
  }

  /** What hits on the ship change: its vitals, the round's state and the explosion timer. */
  datatype Plight = Plight(vitals: Vitals, state: GameState, dyingTimer: real)

  /** One hit on the ship, as `handlePlayerHit` handles it: the vitals take the hit by the
      rules of `Damage`, and a hit that costs a life makes the ship explode for 1.5 seconds. */
  function Blow(p: Plight): (q: Plight)
    ensures q.vitals == Damage(p.vitals).0
    ensures q.vitals.lives >= p.vitals.lives - 1
    ensures q.vitals.lives < p.vitals.lives ==> q.state == Dying && q.dyingTimer == DYING_DURATION
    ensures q.vitals.lives == p.vitals.lives ==> q.state == p.state && q.dyingTimer == p.dyingTimer
  {
    var (v, lost) := Damage(p.vitals);
    Plight(v, if lost then Dying else p.state, if lost then DYING_DURATION else p.dyingTimer)
  }

  /** `n` hits in a row on the ship with no time passing between them. */
  function Battered(p: Plight, n: nat): Plight
    decreases n
  {
    if n == 0 then p else Blow(Battered(p, n - 1))
  }

  /** A round of hits is `Hits` on the vitals, and it makes the ship explode exactly when one
      of the hits costs a life; otherwise the round's state and timer are untouched. */
  lemma {:induction false} BatteredHits(p: Plight, n: nat)
    ensures Battered(p, n).vitals == Hits(p.vitals, n)
    ensures HitsLost(p.vitals, n) ==> Battered(p, n).state == Dying && Battered(p, n).dyingTimer == DYING_DURATION
    ensures !HitsLost(p.vitals, n) ==> Battered(p, n).state == p.state && Battered(p, n).dyingTimer == p.dyingTimer
    decreases n
  {
    if n > 0 {
      BatteredHits(p, n - 1);
    }
  }

  /** The hits a shield can still absorb: its count while it is up, none otherwise. */
  function Guard(v: Vitals): (g: int)
    ensures g >= 0
    ensures g > 0 <==> v.powerUp == Some(Shield) && v.shieldHits > 0
  {
    if v.powerUp == Some(Shield) && v.shieldHits > 0 then v.shieldHits else 0
  }

  /**
   * `n` hits in a row in closed form: none has an effect while the ship is invulnerable;
   * otherwise a charged shield absorbs them one by one and drops with its last hit, and the
   * first hit past the shield costs a life and starts the explosion, after which the ship is
   * invulnerable and the remaining hits are lost.
   */
  function AfterHits(p: Plight, n: nat): (q: Plight)
    ensures q.vitals.lives >= p.vitals.lives - 1
    ensures p.vitals.invulnTime > 0.0 ==> q == p
  {
    var v := p.vitals;
    var g := Guard(v);
    if n == 0 || v.invulnTime > 0.0 then p
    else if n <= g then p.(vitals := v.(shieldHits := g - n, powerUp := if n == g then None else v.powerUp))
    else
      Plight(v.(lives := v.lives - 1, invulnTime := INVULN_DURATION, shieldHits := if g > 0 then 0 else v.shieldHits,
                powerUp := if g > 0 then None else v.powerUp),
             Dying, DYING_DURATION)
  }

  /** One more hit is one more step of `Blow`. */
  lemma AfterHitsStep(p: Plight, n: nat)
    ensures AfterHits(p, n + 1) == Blow(AfterHits(p, n))
  {
  }

  /** The closed form is the hits taken one after another. */
  lemma {:induction false} AfterHitsAreBattered(p: Plight, n: nat)
    ensures AfterHits(p, n) == Battered(p, n)
    decreases n
  {
    if n > 0 {
      AfterHitsAreBattered(p, n - 1);
      AfterHitsStep(p, n - 1);
    }
  }

  /** `a` hits followed by `b` hits are `a + b` hits: the passes of a frame can be counted
      together. */
  lemma AfterHitsAdd(p: Plight, a: nat, b: nat)
    ensures AfterHits(AfterHits(p, a), b) == AfterHits(p, a + b)
  {
  }

  /** However many hits land in a frame, at most one life is lost, and one is lost exactly when
      the ship explodes from a state other than exploding. */
  lemma BatteredCostsAtMostOneLife(p: Plight, n: nat)
    requires p.state != Dying
    ensures Battered(p, n).vitals.lives >= p.vitals.lives - 1
    ensures Battered(p, n).state == Dying <==> Battered(p, n).vitals.lives == p.vitals.lives - 1
  {
    BatteredHits(p, n);
    HitsCostAtMostOneLife(p.vitals, n);
  }

  // --------------------------------------------------------------- the game

  class GalacticAssault {
    const input: InputManager
    const player: Player
    const bullets: BulletManager
    const aliens: AlienFormation
    const powerUps: PowerUpManager
    var score: int
    var highScore: int
    var state: GameState
    var stateTimer: real
    var dyingTimer: real
    /** How many times Escape has asked to leave the game (`onExit?.()`); registering the
        callback (`setOnExit`) is not modelled. */
    var exits: nat

    /** Every part is valid and the two pool owners are separate. */
    ghost predicate Wired()
      reads this, player, aliens, bullets.playerBullets, bullets.playerBullets.flags, bullets.alienBullets
      reads bullets.alienBullets.flags, powerUps.pool, powerUps.pool.flags
    {
      && player.Valid() && bullets.Valid() && aliens.Valid() && powerUps.Valid()
      && powerUps.pool.flags != bullets.playerBullets.flags && powerUps.pool.flags != bullets.alienBullets.flags
    }

    /** The parts are wired and the high score is never below the score, which is never
        negative. */
    ghost predicate Valid()
      reads this, player, aliens, bullets.playerBullets, bullets.playerBullets.flags, bullets.alienBullets
      reads bullets.alienBullets.flags, powerUps.pool, powerUps.pool.flags
    {
      Wired() && 0 <= score <= highScore
    }

    /** The parts the player-bullet pass works on: the formation, the player pool and the
        power-ups are valid, the two pools are separate, and the score is in order. */
    ghost predicate Scoring()
      reads this, aliens, bullets.playerBullets, bullets.playerBullets.flags, powerUps.pool, powerUps.pool.flags
    {
      && aliens.Valid() && bullets.playerBullets.Valid() && powerUps.Valid()
      && powerUps.pool.flags != bullets.playerBullets.flags
      && 0 <= score <= highScore
    }

    /** The ship's vitals with the round's state and the explosion timer. */
    function Fate(): Plight
      reads this, player
    {
      Plight(player.Health(), state, dyingTimer)
    }

    constructor ()
      ensures Valid()
      ensures score == 0 && highScore == 0 && state == Ready && stateTimer == 0.0 && dyingTimer == 0.0
      ensures exits == 0 && aliens.aliens == []
    {
      input := new InputManager();
      player := new Player();
      bullets := new BulletManager();
      aliens := new AlienFormation();
      powerUps := new PowerUpManager();
      score, highScore, state, stateTimer, dyingTimer, exits := 0, 0, Ready, 0.0, 0.0, 0;
    }

    /** The state `resetGame` leaves: the ship at the start with three lives and no power-up,
        no bullet or power-up in flight, a full formation at home, and no score. */
    ghost predicate NewRound()
      reads this, player, aliens, bullets.playerBullets.flags, bullets.alienBullets.flags, powerUps.pool.flags
    {
      && player.x == CANVAS_W / 2.0 && player.y == CANVAS_H - 50.0
      && player.lives == PLAYER_START_LIVES && player.shootCooldown == 0.0 && player.shootRate == DEFAULT_SHOOT_RATE
      && player.invulnTime == 0.0 && player.powerUp == None && player.powerUpTimer == 0.0 && player.shieldHits == 0
      && CountTrue(bullets.playerBullets.flags[..]) == 0 && CountTrue(bullets.alienBullets.flags[..]) == 0
      && CountTrue(powerUps.pool.flags[..]) == 0
      && |aliens.aliens| == ROWS * COLS
      && (forall k :: 0 <= k < |aliens.aliens| ==> aliens.aliens[k] == HomeAlien(k / COLS, k % COLS))
      && aliens.swayOffset == 0.0 && aliens.swayDir == 1 && aliens.shootTimer == 0.0 && aliens.diveTimer == 1.5
      && score == 0
    }

    /** Starts a new round: resets the player, both bullet pools, the formation and the
        power-ups, and clears the score. */
    method ResetGame()
      requires Wired() && highScore >= 0
      modifies this, player, aliens, bullets.playerBullets, bullets.playerBullets.flags, bullets.playerBullets.items, bullets.alienBullets, bullets.alienBullets.flags, bullets.alienBullets.items, powerUps.pool, powerUps.pool.items, powerUps.pool.flags
      ensures Valid() && NewRound()
      ensures highScore == old(highScore) && state == old(state) && stateTimer == old(stateTimer)
      ensures dyingTimer == old(dyingTimer) && exits == old(exits)
      ensures bullets.playerBullets.items[..] == old(bullets.playerBullets.items[..])
      ensures bullets.alienBullets.items[..] == old(bullets.alienBullets.items[..])
      ensures powerUps.pool.items[..] == old(powerUps.pool.items[..])
      ensures aliens.formationLeft == old(aliens.formationLeft) && aliens.formationRight == old(aliens.formationRight)
    {
      player.Reset();
      bullets.Reset();
      aliens.Init();
      powerUps.Reset();
      score := 0;
      CountTrueExtremes(bullets.playerBullets.flags[..]);
      CountTrueExtremes(bullets.alienBullets.flags[..]);
      CountTrueExtremes(powerUps.pool.flags[..]);
    }

    /** Loads the saved high score (given here as `saved`), starts a new round and shows the
        title screen. */
    method Init(saved: nat)
      requires Wired()
      modifies this, player, aliens, bullets.playerBullets, bullets.playerBullets.flags, bullets.playerBullets.items, bullets.alienBullets, bullets.alienBullets.flags, bullets.alienBullets.items, powerUps.pool, powerUps.pool.items, powerUps.pool.flags
      ensures Valid() && NewRound()
      ensures highScore == saved && state == Ready && stateTimer == 0.0
      ensures dyingTimer == old(dyingTimer) && exits == old(exits)
      ensures bullets.playerBullets.items[..] == old(bullets.playerBullets.items[..])
      ensures bullets.alienBullets.items[..] == old(bullets.alienBullets.items[..])
      ensures powerUps.pool.items[..] == old(powerUps.pool.items[..])
      ensures aliens.formationLeft == old(aliens.formationLeft) && aliens.formationRight == old(aliens.formationRight)
    {
      highScore := saved;
      ResetGame();
      state := Ready;
      stateTimer := 0.0;
    }

    /** Raises the high score to the score if the score is higher. */
    method SaveHighScore()
      modifies this
      ensures highScore == if old(score) > old(highScore) then old(score) else old(highScore)
      ensures score == old(score) && state == old(state) && stateTimer == old(stateTimer)
      ensures dyingTimer == old(dyingTimer) && exits == old(exits)
    {
      if score > highScore {
        highScore := score;
      }
    }

    /** A hit on the ship, by the rules of `Damage`; a hit that costs a life starts the
        explosion. */
    method HandlePlayerHit()
      requires player.Valid()
      modifies this, player
      ensures player.Valid()
      ensures Fate() == Blow(old(Fate()))
      ensures player.x == old(player.x) && player.y == old(player.y) && player.shootRate == old(player.shootRate)
      ensures player.shootCooldown == old(player.shootCooldown) && player.powerUpTimer == old(player.powerUpTimer)
      ensures score == old(score) && highScore == old(highScore) && stateTimer == old(stateTimer) && exits == old(exits)
    {
      var lost := player.TakeDamage();
      if lost {
        state := Dying;
        dyingTimer := DYING_DURATION;
      }
    }

    /** The pass state built from the current fields, with `kills` aliens destroyed so far. */
    ghost function Tally(kills: nat): Sweep
      reads this, aliens, bullets.playerBullets.flags, powerUps.pool.flags, powerUps.pool.items
    {
      Sweep(aliens.aliens, bullets.playerBullets.flags[..], score, highScore, kills, powerUps.pool.flags[..],
            powerUps.pool.items[..])
    }

    /** Player bullets against aliens: each active bullet, in slot order, destroys the first
        alive alien it overlaps, as `Swept` describes; the result counts the aliens destroyed. */
    method ShootDown(rand: nat -> real) returns (kills: nat)
      requires Valid() && Draws(rand)
      modifies this, aliens, bullets.playerBullets, bullets.playerBullets.flags, powerUps.pool, powerUps.pool.items, powerUps.pool.flags
      ensures Valid()
      ensures Tally(kills) == Swept(old(Tally(0)), bullets.playerBullets.items[..], 0, rand)
      ensures state == old(state) && stateTimer == old(stateTimer) && dyingTimer == old(dyingTimer) && exits == old(exits)
      ensures aliens.swayOffset == old(aliens.swayOffset) && aliens.swayDir == old(aliens.swayDir)
      ensures aliens.shootTimer == old(aliens.shootTimer) && aliens.diveTimer == old(aliens.diveTimer)
      ensures aliens.formationLeft == old(aliens.formationLeft) && aliens.formationRight == old(aliens.formationRight)
    {
      kills := 0;
      var pool := bullets.playerBullets;
      var i := 0;
      while i < pool.flags.Length
        invariant 0 <= i <= pool.flags.Length
        invariant Scoring()
        invariant Swept(Tally(kills), pool.items[..], i, rand) == Swept(old(Tally(0)), pool.items[..], 0, rand)
        invariant state == old(state) && stateTimer == old(stateTimer) && dyingTimer == old(dyingTimer) && exits == old(exits)
        invariant aliens.swayOffset == old(aliens.swayOffset) && aliens.swayDir == old(aliens.swayDir)
        invariant aliens.shootTimer == old(aliens.shootTimer) && aliens.diveTimer == old(aliens.diveTimer)
        invariant aliens.formationLeft == old(aliens.formationLeft) && aliens.formationRight == old(aliens.formationRight)
      {
        if pool.flags[i] {
          var hit := BulletVsAliens(i, kills, rand);
          if hit {
            kills := kills + 1;
          }
        }
        i := i + 1;
      }
    }

    /** The check of the active player bullet in slot `i`, the `kills`-th alien to fall in this
        tick: one step of `Swept`. */
    method BulletVsAliens(i: nat, kills: nat, rand: nat -> real) returns (hit: bool)
      requires Scoring() && Draws(rand)
      requires i < bullets.playerBullets.flags.Length && bullets.playerBullets.flags[i]
      modifies this, aliens, bullets.playerBullets, bullets.playerBullets.flags, powerUps.pool, powerUps.pool.items, powerUps.pool.flags
      ensures Scoring()
      ensures Tally(if hit then kills + 1 else kills)
        == SweepStep(old(Tally(kills)), i, bullets.playerBullets.items[i], rand)
      ensures state == old(state) && stateTimer == old(stateTimer) && dyingTimer == old(dyingTimer) && exits == old(exits)
      ensures aliens.swayOffset == old(aliens.swayOffset) && aliens.swayDir == old(aliens.swayDir)
      ensures aliens.shootTimer == old(aliens.shootTimer) && aliens.diveTimer == old(aliens.diveTimer)
      ensures aliens.formationLeft == old(aliens.formationLeft) && aliens.formationRight == old(aliens.formationRight)
    {
      var b := bullets.playerBullets.items[i];
      var bulletRect := Rect(b.x - b.width / 2.0, b.y - b.height / 2.0, b.width, b.height);
      var target := FindTarget(aliens.aliens, bulletRect);
      if target.None? {
        return false;
      }
      var k := target.value;
      ghost var before := Sweep(aliens.aliens, bullets.playerBullets.flags[..], score, highScore, kills,
                                powerUps.pool.flags[..], powerUps.pool.items[..]);
      assert BulletBounds(b) == bulletRect;
      Destroy(i, k, kills, rand);
      KillMatches(before, i, b, rand, k, Tally(kills + 1));
      return true;
    }

    /** Bullet `i` destroys alien `k`, the `kills`-th to fall in this tick: the bullet is
        recycled, the alien dies, its points are scored, the high score follows, and the alien
        rolls for a power-up drop. */
    method Destroy(i: nat, k: nat, kills: nat, rand: nat -> real)
      requires Scoring() && Draws(rand)
      requires i < bullets.playerBullets.flags.Length && bullets.playerBullets.flags[i]
      requires k < |aliens.aliens|
      modifies this, aliens, bullets.playerBullets, bullets.playerBullets.flags, powerUps.pool, powerUps.pool.items, powerUps.pool.flags
      ensures Scoring()
      ensures var a := old(aliens.aliens[k]);
        && aliens.aliens == old(aliens.aliens)[k := Killed(a)]
        && bullets.playerBullets.flags[..] == old(bullets.playerBullets.flags[..])[i := false]
        && score == old(score) + PointsFor(a.kind)
        && highScore == (if score > old(highScore) then score else old(highScore))
        && (powerUps.pool.flags[..], powerUps.pool.items[..])
           == Drop(old(powerUps.pool.flags[..]), old(powerUps.pool.items[..]), a.x, a.y,
                   rand(3 + 3 * kills), rand(4 + 3 * kills), rand(5 + 3 * kills))
      ensures state == old(state) && stateTimer == old(stateTimer) && dyingTimer == old(dyingTimer) && exits == old(exits)
      ensures aliens.swayOffset == old(aliens.swayOffset) && aliens.swayDir == old(aliens.swayDir)
      ensures aliens.shootTimer == old(aliens.shootTimer) && aliens.diveTimer == old(aliens.diveTimer)
      ensures aliens.formationLeft == old(aliens.formationLeft) && aliens.formationRight == old(aliens.formationRight)
    {
      var a := aliens.aliens[k];
      bullets.playerBullets.Release(i);
      KilledKeepsPlaces(aliens.aliens, k);
      aliens.aliens := aliens.aliens[k := a.(alive := false, diving := false)];
      score := score + AlienFormation.GetPointsForAlien(a);
      if score > highScore {
        highScore := score;
      }
      powerUps.Spawn(a.x, a.y, rand(3 + 3 * kills), rand(4 + 3 * kills), rand(5 + 3 * kills));
    }

    /** Alien bullets against the ship's rectangle `ship`: every active bullet whose hit box
        overlaps it is recycled and hits the ship. The result counts the hits. */
    method ShotsAtShip(ship: Rect) returns (n: nat)
      requires player.Valid() && bullets.alienBullets.Valid()
      modifies this, player, bullets.alienBullets, bullets.alienBullets.flags
      ensures player.Valid() && bullets.alienBullets.Valid()
      ensures bullets.alienBullets.flags[..]
        == Released(old(bullets.alienBullets.flags[..]), bullets.alienBullets.items[..], ShotHits(ship), bullets.alienBullets.flags.Length)
      ensures n == CountTrue(Matching(old(bullets.alienBullets.flags[..]), bullets.alienBullets.items[..], ShotHits(ship)))
      ensures Fate() == AfterHits(old(Fate()), n)
      ensures player.x == old(player.x) && player.y == old(player.y) && player.shootRate == old(player.shootRate)
      ensures player.shootCooldown == old(player.shootCooldown) && player.powerUpTimer == old(player.powerUpTimer)
      ensures score == old(score) && highScore == old(highScore) && stateTimer == old(stateTimer) && exits == old(exits)
    {
      var pool := bullets.alienBullets;
      ghost var f0 := pool.flags[..];
      ghost var items := pool.items[..];
      ghost var p0 := Fate();
      ghost var m := Matching(f0, items, ShotHits(ship));
      n := 0;
      var i := 0;
      while i < pool.flags.Length
        invariant 0 <= i <= pool.flags.Length
        invariant player.Valid() && bullets.alienBullets.Valid()
        invariant pool.flags[..] == Released(f0, items, ShotHits(ship), i)
        invariant n == CountTrue(m[..i])
        invariant Fate() == AfterHits(p0, n)
        invariant player.x == old(player.x) && player.y == old(player.y) && player.shootRate == old(player.shootRate)
        invariant player.shootCooldown == old(player.shootCooldown) && player.powerUpTimer == old(player.powerUpTimer)
        invariant score == old(score) && highScore == old(highScore) && stateTimer == old(stateTimer) && exits == old(exits)
      {
        CountTruePrefix(m, i);
        ReleasedStep(f0, items, ShotHits(ship), i);
        var hit := ShotAt(i, ship, p0, n);
        if hit {
          n := n + 1;
        }
        i := i + 1;
      }
      assert m[..i] == m;
    }

    /** The alien bullet in slot `i`, if active and overlapping `ship`, is recycled and hits
        the ship, which has taken `n` hits since it was `p0`; the result says whether it did. */
    method ShotAt(i: nat, ship: Rect, ghost p0: Plight, ghost n: nat) returns (hit: bool)
      requires player.Valid() && bullets.alienBullets.Valid() && i < bullets.alienBullets.flags.Length
      requires Fate() == AfterHits(p0, n)
      modifies this, player, bullets.alienBullets, bullets.alienBullets.flags
      ensures player.Valid() && bullets.alienBullets.Valid()
      ensures var pool := bullets.alienBullets;
        && hit == (old(pool.flags[i]) && ShotHits(ship)(pool.items[i]))
        && pool.flags[..] == old(pool.flags[..])[i := old(pool.flags[i]) && !hit]
      ensures Fate() == AfterHits(p0, if hit then n + 1 else n)
      ensures player.x == old(player.x) && player.y == old(player.y) && player.shootRate == old(player.shootRate)
      ensures player.shootCooldown == old(player.shootCooldown) && player.powerUpTimer == old(player.powerUpTimer)
      ensures score == old(score) && highScore == old(highScore) && stateTimer == old(stateTimer) && exits == old(exits)
    {
      var pool := bullets.alienBullets;
      hit := false;
      if pool.flags[i] {
        var b := pool.items[i];
        var bulletRect := Rect(b.x - b.width, b.y - b.height, b.width * 2.0, b.height * 2.0);
        if RectOverlap(bulletRect, ship) {
          pool.Release(i);
          AfterHitsStep(p0, n);
          HandlePlayerHit();
          hit := true;
        }
      }
    }

    /** Diving aliens against the ship's rectangle `ship`: every alive diving alien that
        overlaps it dies and hits the ship. The result counts the hits. */
    method RamShip(ship: Rect) returns (n: nat)
      requires player.Valid() && aliens.Valid()
      modifies this, player, aliens
      ensures player.Valid() && aliens.Valid()
      ensures aliens.aliens == Crashed(old(aliens.aliens), ship)
      ensures n == CountTrue(Rammers(old(aliens.aliens), ship))
      ensures Fate() == AfterHits(old(Fate()), n)
      ensures player.x == old(player.x) && player.y == old(player.y) && player.shootRate == old(player.shootRate)
      ensures player.shootCooldown == old(player.shootCooldown) && player.powerUpTimer == old(player.powerUpTimer)
      ensures score == old(score) && highScore == old(highScore) && stateTimer == old(stateTimer) && exits == old(exits)
      ensures aliens.swayOffset == old(aliens.swayOffset) && aliens.swayDir == old(aliens.swayDir)
      ensures aliens.shootTimer == old(aliens.shootTimer) && aliens.diveTimer == old(aliens.diveTimer)
      ensures aliens.formationLeft == old(aliens.formationLeft) && aliens.formationRight == old(aliens.formationRight)
    {
      var s := aliens.aliens;
      CrashedEffect(s, ship);
      var t;
      t, n := Rammed(s, ship);
      aliens.aliens := t;
    }

    /** The ramming pass over the aliens `s`, in storage order: the result is the aliens
        afterwards and the number of hits on the ship. */
    method Rammed(s: seq<Alien>, ship: Rect) returns (t: seq<Alien>, n: nat)
      requires player.Valid()
      modifies this, player
      ensures player.Valid()
      ensures t == Crashed(s, ship) && n == CountTrue(Rammers(s, ship))
      ensures Fate() == AfterHits(old(Fate()), n)
      ensures player.x == old(player.x) && player.y == old(player.y) && player.shootRate == old(player.shootRate)
      ensures player.shootCooldown == old(player.shootCooldown) && player.powerUpTimer == old(player.powerUpTimer)
      ensures score == old(score) && highScore == old(highScore) && stateTimer == old(stateTimer) && exits == old(exits)
    {
      t := s;
      ghost var p0 := Fate();
      ghost var m := Rammers(s, ship);
      n := 0;
      var k := 0;
      while k < |s|
        invariant 0 <= k <= |s|
        invariant player.Valid()
        invariant t == CrashedUpTo(s, ship, k) && n == CountTrue(m[..k])
        invariant Fate() == AfterHits(p0, n)
        invariant player.x == old(player.x) && player.y == old(player.y) && player.shootRate == old(player.shootRate)
        invariant player.shootCooldown == old(player.shootCooldown) && player.powerUpTimer == old(player.powerUpTimer)
        invariant score == old(score) && highScore == old(highScore) && stateTimer == old(stateTimer) && exits == old(exits)
      {
        t, n := RamStep(s, ship, k, t, n, p0);
        k := k + 1;
      }
      assert m[..k] == m;
      CrashedUpToAll(s, ship);
    }

    /** One slot of the ramming pass: the alien in slot `k` of `s` is checked against `ship`,
        taking the pass from the slots before `k` to the slots up to it. */
    method RamStep(s: seq<Alien>, ship: Rect, k: nat, t: seq<Alien>, n: nat, ghost p0: Plight) returns (t': seq<Alien>, n': nat)
      requires player.Valid() && k < |s|
      requires t == CrashedUpTo(s, ship, k) && n == CountTrue(Rammers(s, ship)[..k])
      requires Fate() == AfterHits(p0, n)
      modifies this, player
      ensures player.Valid()
      ensures t' == CrashedUpTo(s, ship, k + 1) && n' == CountTrue(Rammers(s, ship)[..k + 1])
      ensures Fate() == AfterHits(p0, n')
      ensures player.x == old(player.x) && player.y == old(player.y) && player.shootRate == old(player.shootRate)
      ensures player.shootCooldown == old(player.shootCooldown) && player.powerUpTimer == old(player.powerUpTimer)
      ensures score == old(score) && highScore == old(highScore) && stateTimer == old(stateTimer) && exits == old(exits)
    {
      CountTruePrefix(Rammers(s, ship), k);
      CrashedUpToStep(s, ship, k);
      var a := s[k];
      var hit := RamAt(a, ship, p0, n);
      t', n' := t, n;
      if hit {
        t', n' := t[k := a.(alive := false)], n + 1;
      }
    }

    /** The alien `a`, if alive, diving and overlapping `ship`, hits the ship, which has taken
        `n` hits since it was `p0`; the result says whether it did (the caller then marks it
        dead). */
    method RamAt(a: Alien, ship: Rect, ghost p0: Plight, ghost n: nat) returns (hit: bool)
      requires player.Valid() && Fate() == AfterHits(p0, n)
      modifies this, player
      ensures player.Valid()
      ensures hit == Rams(a, ship)
      ensures Fate() == AfterHits(p0, if hit then n + 1 else n)
      ensures player.x == old(player.x) && player.y == old(player.y) && player.shootRate == old(player.shootRate)
      ensures player.shootCooldown == old(player.shootCooldown) && player.powerUpTimer == old(player.powerUpTimer)
      ensures score == old(score) && highScore == old(highScore) && stateTimer == old(stateTimer) && exits == old(exits)
    {
      hit := false;
      if a.alive && a.diving {
        var alienRect := Rect(a.x - a.width / 2.0, a.y - a.height / 2.0, a.width, a.height);
        if RectOverlap(alienRect, ship) {
          AfterHitsStep(p0, n);
          HandlePlayerHit();
          hit := true;
        }
      }
    }

    /** Power-ups against the ship's rectangle `ship`: every active power-up whose square
        overlaps it is recycled and applied to the ship, in slot order. */
    method Collect(ship: Rect)
      requires Valid()
      modifies player, powerUps.pool, powerUps.pool.flags
      ensures Valid()
      ensures powerUps.pool.flags[..] == Released(old(powerUps.pool.flags[..]), powerUps.pool.items[..], Grabs(ship), powerUps.pool.flags.Length)
      ensures player.Gear()
        == PickedAll(old(player.Gear()), MarkedKinds(Matching(old(powerUps.pool.flags[..]), powerUps.pool.items[..], Grabs(ship)),
                                                        powerUps.pool.items[..]))
      ensures player.x == old(player.x) && player.y == old(player.y) && player.shootRate == old(player.shootRate)
      ensures player.shootCooldown == old(player.shootCooldown) && player.lives == old(player.lives)
      ensures player.invulnTime == old(player.invulnTime)
    {
      var pool := powerUps.pool;
      ghost var f0 := pool.flags[..];
      ghost var g0 := player.Gear();
      ghost var items := pool.items[..];
      ghost var m := Matching(f0, items, Grabs(ship));
      var i := 0;
      while i < pool.flags.Length
        invariant 0 <= i <= pool.flags.Length
        invariant player.Valid() && powerUps.Valid()
        invariant pool.flags[..] == Released(f0, items, Grabs(ship), i)
        invariant player.Gear() == PickedAll(g0, MarkedKinds(m[..i], items[..i]))
        invariant player.x == old(player.x) && player.y == old(player.y) && player.shootRate == old(player.shootRate)
        invariant player.shootCooldown == old(player.shootCooldown) && player.lives == old(player.lives)
        invariant player.invulnTime == old(player.invulnTime)
      {
        ReleasedStep(f0, items, Grabs(ship), i);
        CollectStep(g0, m, items, i, player.Gear());
        CollectAt(i, ship);
        i := i + 1;
      }
      assert m[..i] == m && items[..i] == items;
    }

    /** The power-up in slot `i`, if active and overlapping `ship`, is recycled and applied to
        the ship. */
    method CollectAt(i: nat, ship: Rect)
      requires player.Valid() && powerUps.Valid() && i < powerUps.pool.flags.Length
      modifies player, powerUps.pool, powerUps.pool.flags
      ensures player.Valid() && powerUps.Valid()
      ensures var pool := powerUps.pool;
        var got := old(pool.flags[i]) && Grabs(ship)(pool.items[i]);
        && pool.flags[..] == old(pool.flags[..])[i := old(pool.flags[i]) && !got]
        && player.Gear() == if got then Picked(old(player.Gear()), pool.items[i].kind) else old(player.Gear())
      ensures player.x == old(player.x) && player.y == old(player.y) && player.shootRate == old(player.shootRate)
      ensures player.shootCooldown == old(player.shootCooldown) && player.lives == old(player.lives)
      ensures player.invulnTime == old(player.invulnTime)
    {
      var pool := powerUps.pool;
      if pool.flags[i] {
        var p := pool.items[i];
        var pRect := Rect(p.x - p.size, p.y - p.size, p.size * 2.0, p.size * 2.0);
        if RectOverlap(pRect, ship) {
          pool.Release(i);
          player.ApplyPowerUp(p.kind);
        }
      }
    }

    /** Alien bullets and then diving aliens against the ship's rectangle `ship`; the result
        counts the hits, which land one after another. */
    method HitShip(ship: Rect) returns (n: nat)
      requires Valid()
      modifies this, player, aliens, bullets.alienBullets, bullets.alienBullets.flags
      ensures Valid()
      ensures n == old(BlowsNow(ship))
      ensures aliens.aliens == Crashed(old(aliens.aliens), ship)
      ensures bullets.alienBullets.flags[..]
        == Released(old(bullets.alienBullets.flags[..]), bullets.alienBullets.items[..], ShotHits(ship), bullets.alienBullets.flags.Length)
      ensures Fate() == AfterHits(old(Fate()), n)
      ensures player.x == old(player.x) && player.y == old(player.y) && player.shootRate == old(player.shootRate)
      ensures player.shootCooldown == old(player.shootCooldown) && player.powerUpTimer == old(player.powerUpTimer)
      ensures score == old(score) && highScore == old(highScore) && stateTimer == old(stateTimer) && exits == old(exits)
      ensures aliens.swayOffset == old(aliens.swayOffset) && aliens.swayDir == old(aliens.swayDir)
      ensures aliens.shootTimer == old(aliens.shootTimer) && aliens.diveTimer == old(aliens.diveTimer)
      ensures aliens.formationLeft == old(aliens.formationLeft) && aliens.formationRight == old(aliens.formationRight)
    {
      ghost var p0 := Fate();
      ghost var b := BlowsNow(ship);
      var shots := ShotsAtShip(ship);
      var rams := RamShip(ship);
      AfterHitsAdd(p0, shots, rams);
      n := shots + rams;
      assert n == b;
    }

    /** The ship's rectangle: its size, centred on its position. */
    ghost function ShipBounds(): Rect
      reads player
    {
      CenteredBounds(player.x, player.y, player.width, player.height)
    }

    /**
     * The four collision passes of a frame against the ship's rectangle, taken once at the
     * start: player bullets destroy aliens (`Swept`), then the remaining passes of
     * `ShipCollisions` run against the ship, seeing the aliens destroyed and the power-ups
     * dropped by the first.
     */
    method CheckCollisions(rand: nat -> real) returns (ghost ship: Rect, ghost sw: Sweep, ghost hurt: Plight)
      requires Valid() && Draws(rand)
      modifies this, player, aliens, bullets.playerBullets, bullets.playerBullets.flags, bullets.alienBullets, bullets.alienBullets.flags, powerUps.pool, powerUps.pool.items, powerUps.pool.flags
      ensures Valid()
      ensures ship == old(ShipBounds())
      ensures sw == Swept(old(Tally(0)), bullets.playerBullets.items[..], 0, rand)
      ensures hurt == AfterHits(old(Fate()), Blows(old(bullets.alienBullets.flags[..]), bullets.alienBullets.items[..], sw.aliens, ship))
      ensures bullets.playerBullets.flags[..] == sw.shots && score == sw.score && highScore == sw.highScore
      ensures aliens.aliens == Crashed(sw.aliens, ship)
      ensures bullets.alienBullets.flags[..]
        == Released(old(bullets.alienBullets.flags[..]), bullets.alienBullets.items[..], ShotHits(ship), bullets.alienBullets.flags.Length)
      ensures powerUps.pool.items[..] == sw.loot
      ensures powerUps.pool.flags[..] == Released(sw.drops, sw.loot, Grabs(ship), powerUps.pool.flags.Length)
      ensures player.Gear() == PickedAll(Loadout(hurt.vitals.powerUp, old(player.powerUpTimer), hurt.vitals.shieldHits),
                                         MarkedKinds(Matching(sw.drops, sw.loot, Grabs(ship)), sw.loot))
      ensures player.lives == hurt.vitals.lives && player.invulnTime == hurt.vitals.invulnTime
      ensures state == hurt.state && dyingTimer == hurt.dyingTimer
      ensures player.x == old(player.x) && player.y == old(player.y) && player.shootRate == old(player.shootRate)
      ensures player.shootCooldown == old(player.shootCooldown)
      ensures stateTimer == old(stateTimer) && exits == old(exits)
      ensures aliens.swayOffset == old(aliens.swayOffset) && aliens.swayDir == old(aliens.swayDir)
      ensures aliens.shootTimer == old(aliens.shootTimer) && aliens.diveTimer == old(aliens.diveTimer)
      ensures aliens.formationLeft == old(aliens.formationLeft) && aliens.formationRight == old(aliens.formationRight)
    {
      var pw := player.width;
      var ph := player.height;
      var r := Rect(player.x - pw / 2.0, player.y - ph / 2.0, pw, ph);
      ship := r;
      var kills := ShootDown(rand);
      sw := Tally(kills);
      hurt := Hurt(r);
      ShipCollisions(r);
    }

    /** The hits the ship's rectangle `ship` would take now. */
    ghost function BlowsNow(ship: Rect): nat
      reads aliens, bullets.alienBullets, bullets.alienBullets.flags, bullets.alienBullets.items
      requires bullets.alienBullets.Valid()
    {
      Blows(bullets.alienBullets.flags[..], bullets.alienBullets.items[..], aliens.aliens, ship)
    }

    /** The ship's plight after the frame's hits on `ship`, one after another. */
    ghost function Hurt(ship: Rect): Plight
      reads this, player, aliens, bullets.alienBullets, bullets.alienBullets.flags, bullets.alienBullets.items
      requires bullets.alienBullets.Valid()
    {
      AfterHits(Fate(), BlowsNow(ship))
    }

    /**
     * The passes against the ship's rectangle `ship`: alien bullets and then diving aliens hit
     * the ship, and last the ship collects the power-ups in flight. Every hit counts against
     * the ship in turn, as `Hits` describes, so at most one life is lost.
     */
    method ShipCollisions(ship: Rect)
      requires Valid()
      modifies this, player, aliens, bullets.alienBullets, bullets.alienBullets.flags, powerUps.pool, powerUps.pool.flags
      ensures Valid()
      ensures aliens.aliens == Crashed(old(aliens.aliens), ship)
      ensures bullets.alienBullets.flags[..]
        == Released(old(bullets.alienBullets.flags[..]), bullets.alienBullets.items[..], ShotHits(ship), bullets.alienBullets.flags.Length)
      ensures powerUps.pool.flags[..] == Released(old(powerUps.pool.flags[..]), powerUps.pool.items[..], Grabs(ship), powerUps.pool.flags.Length)
      ensures player.Gear()
        == PickedAll(old(player.Gear()).(powerUp := old(Hurt(ship)).vitals.powerUp, shieldHits := old(Hurt(ship)).vitals.shieldHits),
                     MarkedKinds(Matching(old(powerUps.pool.flags[..]), powerUps.pool.items[..], Grabs(ship)), powerUps.pool.items[..]))
      ensures player.lives == old(Hurt(ship)).vitals.lives && player.invulnTime == old(Hurt(ship)).vitals.invulnTime
      ensures state == old(Hurt(ship)).state && dyingTimer == old(Hurt(ship)).dyingTimer
      ensures player.x == old(player.x) && player.y == old(player.y) && player.shootRate == old(player.shootRate)
      ensures player.shootCooldown == old(player.shootCooldown)
      ensures score == old(score) && highScore == old(highScore) && stateTimer == old(stateTimer) && exits == old(exits)
      ensures aliens.swayOffset == old(aliens.swayOffset) && aliens.swayDir == old(aliens.swayDir)
      ensures aliens.shootTimer == old(aliens.shootTimer) && aliens.diveTimer == old(aliens.diveTimer)
      ensures aliens.formationLeft == old(aliens.formationLeft) && aliens.formationRight == old(aliens.formationRight)
    {
      var n := HitShip(ship);
      Collect(ship);
    }

    /** Space or the up arrow is held and the cooldown has run out. */
    predicate Firing()
      reads input, player
    {
      (input.IsDown("Space") || input.IsDown("ArrowUp")) && player.CanShoot()
    }

    /**
     * The shooting part of a playing frame: when the ship is firing, the cooldown restarts and
     * a salvo leaves the ship's nose (three bullets with the spread power-up, one otherwise);
     * otherwise nothing changes.
     */
    method Shoot()
      requires Valid()
      modifies player, bullets.playerBullets, bullets.playerBullets.flags, bullets.playerBullets.items
      ensures Valid()
      ensures old(Firing()) ==>
        && (bullets.playerBullets.flags[..], bullets.playerBullets.items[..])
           == Salvo(old(bullets.playerBullets.flags[..]), old(bullets.playerBullets.items[..]),
                    old(player.x), old(player.y) - player.height / 2.0, old(player.powerUp) == Some(Spread))
        && player.shootCooldown == FireInterval(old(player.powerUp), old(player.shootRate))
      ensures !old(Firing()) ==>
        && bullets.playerBullets.flags[..] == old(bullets.playerBullets.flags[..])
        && bullets.playerBullets.items[..] == old(bullets.playerBullets.items[..])
        && player.shootCooldown == old(player.shootCooldown)
      ensures player.x == old(player.x) && player.y == old(player.y) && player.lives == old(player.lives)
      ensures player.shootRate == old(player.shootRate) && player.invulnTime == old(player.invulnTime)
      ensures player.powerUp == old(player.powerUp) && player.powerUpTimer == old(player.powerUpTimer)
      ensures player.shieldHits == old(player.shieldHits)
    {
      if (input.IsDown("Space") || input.IsDown("ArrowUp")) && player.CanShoot() {
        player.OnShoot();
        FireSalvo(bullets, player.x, player.y - player.height / 2.0, player.powerUp == Some(Spread));
      }
    }

    /** Spawns the bullets of `Salvo` one after another into the player pool of `bm`. */
    static method FireSalvo(bm: BulletManager, x: real, y: real, spread: bool)
      requires bm.Valid()
      modifies bm.playerBullets, bm.playerBullets.flags, bm.playerBullets.items
      ensures bm.Valid()
      ensures (bm.playerBullets.flags[..], bm.playerBullets.items[..])
        == Salvo(old(bm.playerBullets.flags[..]), old(bm.playerBullets.items[..]), x, y, spread)
    {
      if spread {
        bm.SpawnPlayerBullet(x, y, -SPREAD_SIDE_VX, SPREAD_SIDE_VY);
        bm.SpawnPlayerBullet(x, y, 0.0, SPREAD_CENTRE_VY);
        bm.SpawnPlayerBullet(x, y, SPREAD_SIDE_VX, SPREAD_SIDE_VY);
      } else {
        bm.SpawnPlayerBullet(x, y);
      }
    }

    /**
     * One playing frame: the ship steers, counts down and may fire; the bullets and power-ups
     * move and the formation sways, dives and shoots; then the collisions are resolved, and
     * when no alien is left alive the round is won. Whatever hits the ship, at most one life is
     * lost, and one is lost exactly when the ship starts to explode.
     */
    method UpdatePlaying(dt: real, tx: Transcendentals, rand: nat -> real)
      requires Valid() && state == Playing && Wellformed(tx) && Draws(rand)
      modifies this, player, aliens, bullets.playerBullets, bullets.playerBullets.flags, bullets.playerBullets.items
      modifies bullets.alienBullets, bullets.alienBullets.flags, bullets.alienBullets.items
      modifies powerUps.pool, powerUps.pool.items, powerUps.pool.flags
      ensures Valid()
      ensures state == Playing || state == Dying || state == Victory
      ensures state == Victory <==> AliveCount(aliens.aliens) == 0
      ensures player.lives >= old(player.lives) - 1
      ensures state != Victory ==> (state == Dying <==> player.lives == old(player.lives) - 1)
      ensures state == Dying ==> dyingTimer == DYING_DURATION
      ensures stateTimer == if state == Victory then 0.0 else old(stateTimer)
      ensures score >= old(score) && highScore >= old(highScore) && exits == old(exits)
    {
      MoveAll(dt, tx, rand);
      Resolve(rand);
    }

    /** The moving part of a playing frame: the ship, its shot, the bullets, the formation and
        the power-ups each take their step; the round's own fields and the lives stay. */
    method MoveAll(dt: real, tx: Transcendentals, rand: nat -> real)
      requires Valid() && Wellformed(tx) && Draws(rand)
      modifies player, aliens, bullets.playerBullets, bullets.playerBullets.flags, bullets.playerBullets.items
      modifies bullets.alienBullets, bullets.alienBullets.flags, bullets.alienBullets.items
      modifies powerUps.pool, powerUps.pool.items, powerUps.pool.flags
      ensures Valid()
      ensures player.lives == old(player.lives)
    {
      MoveShip(dt);
      bullets.Update(dt);
      StepFormation(dt, tx, rand);
      powerUps.Update(dt);
    }

    /** The ship's part of a playing frame: it steers and counts down, then fires if it can. */
    method MoveShip(dt: real)
      requires Valid()
      modifies player, bullets.playerBullets, bullets.playerBullets.flags, bullets.playerBullets.items
      ensures Valid()
      ensures player.lives == old(player.lives)
    {
      player.Update(dt, input);
      Shoot();
    }

    /** The formation's part of a playing frame, with the first three draws of the tick for
        the shooter, the diver and the dive speed. */
    method StepFormation(dt: real, tx: Transcendentals, rand: nat -> real)
      requires Valid() && Wellformed(tx) && Draws(rand)
      modifies aliens, bullets.alienBullets, bullets.alienBullets.flags, bullets.alienBullets.items
      ensures Valid()
    {
      aliens.Update(dt, bullets, player.x, tx, rand(0), rand(1), rand(2));
    }

    /** The resolving part of a playing frame: the collisions by `CheckCollisions`, then the
        victory check, which also saves the high score. */
    method Resolve(rand: nat -> real)
      requires Valid() && state == Playing && Draws(rand)
      modifies this, player, aliens, bullets.playerBullets, bullets.playerBullets.flags, bullets.alienBullets, bullets.alienBullets.flags, powerUps.pool, powerUps.pool.items, powerUps.pool.flags
      ensures Valid()
      ensures state == Playing || state == Dying || state == Victory
      ensures state == Victory <==> AliveCount(aliens.aliens) == 0
      ensures player.lives >= old(player.lives) - 1
      ensures state != Victory ==> (state == Dying <==> player.lives == old(player.lives) - 1)
      ensures state == Dying ==> dyingTimer == DYING_DURATION
      ensures stateTimer == if state == Victory then 0.0 else old(stateTimer)
      ensures score >= old(score) && highScore >= old(highScore) && exits == old(exits)
    {
      ghost var p0 := Fate();
      ghost var f0 := bullets.alienBullets.flags[..];
      ghost var st0 := Tally(0);
      var ship, sw, hurt := CheckCollisions(rand);
      SweptScores(st0, bullets.playerBullets.items[..], 0, rand);
      ghost var n := Blows(f0, bullets.alienBullets.items[..], sw.aliens, ship);
      AfterHitsAreBattered(p0, n);
      BatteredCostsAtMostOneLife(p0, n);
      if aliens.AliveCountOf() == 0 {
        state := Victory;
        stateTimer := 0.0;
        SaveHighScore();
      }
    }

    /**
     * One tick of the round. Escape, just pressed, invokes the exit callback and ends the frame
     * with nothing else changed. Otherwise the state decides: the title screen starts play on
     * Space or after three seconds; play runs `UpdatePlaying`; the explosion runs down and then
     * ends the game when no life is left, or resumes play; the end screens start a new round on
     * Space once a second has passed. The frame's key edges are then forgotten.
     */
    method Update(dt: real, tx: Transcendentals, rand: nat -> real)
      requires Valid() && Wellformed(tx) && Draws(rand)
      modifies this, input, player, aliens, bullets.playerBullets, bullets.playerBullets.flags, bullets.playerBullets.items
      modifies bullets.alienBullets, bullets.alienBullets.flags, bullets.alienBullets.items
      modifies powerUps.pool, powerUps.pool.items, powerUps.pool.flags
      ensures Valid()
      ensures input.keysJustPressed == {} && input.keysJustReleased == {} && input.keysDown == old(input.keysDown)
      ensures old(input.JustPressed("Escape")) ==>
        && exits == old(exits) + 1 && state == old(state) && stateTimer == old(stateTimer)
        && dyingTimer == old(dyingTimer) && score == old(score) && highScore == old(highScore)
        && unchanged(player, aliens, bullets.playerBullets, bullets.playerBullets.flags, bullets.playerBullets.items)
        && unchanged(bullets.alienBullets, bullets.alienBullets.flags, bullets.alienBullets.items)
        && unchanged(powerUps.pool, powerUps.pool.items, powerUps.pool.flags)
      ensures !old(input.JustPressed("Escape")) ==> Ticked(dt, old(input.JustPressed("Space")))
    {
      if input.JustPressed("Escape") {
        exits := exits + 1;
        input.EndFrame();
        return;
      }
      Dispatch(dt, tx, rand);
      input.EndFrame();
    }

    /**
     * What a tick with the state's own step does, `space` telling whether Space was just
     * pressed: the title screen starts play on Space or once three seconds have passed; play
     * keeps to the facts `UpdatePlaying` promises; the explosion runs down and then ends the
     * game, saving the high score, when no life is left, or resumes play; the end screens start
     * a new round on Space once a second has passed. The exit callback is not invoked.
     */
    twostate predicate Ticked(dt: real, space: bool)
      reads this, player, aliens, bullets.playerBullets, bullets.playerBullets.flags, bullets.playerBullets.items
      reads bullets.alienBullets, bullets.alienBullets.flags, bullets.alienBullets.items
      reads powerUps.pool, powerUps.pool.items, powerUps.pool.flags
    {
      && exits == old(exits)
      && (old(state) == Ready ==>
            && stateTimer == old(stateTimer) + dt
            && state == (if space || stateTimer > READY_DELAY then Playing else Ready)
            && dyingTimer == old(dyingTimer) && score == old(score) && highScore == old(highScore)
            && unchanged(player, aliens) && PoolsKept())
      && (old(state) == Playing ==>
            && (state == Playing || state == Dying || state == Victory)
            && (state == Victory <==> AliveCount(aliens.aliens) == 0)
            && player.lives >= old(player.lives) - 1
            && (state != Victory ==> (state == Dying <==> player.lives == old(player.lives) - 1))
            && (state == Dying ==> dyingTimer == DYING_DURATION)
            && stateTimer == (if state == Victory then 0.0 else old(stateTimer))
            && score >= old(score) && highScore >= old(highScore))
      && (old(state) == Dying ==>
            && dyingTimer == old(dyingTimer) - dt
            && state == (if dyingTimer > 0.0 then Dying else if player.lives <= 0 then Gameover else Playing)
            && stateTimer == (if state == Gameover then 0.0 else old(stateTimer))
            && highScore == (if state == Gameover && old(score) > old(highScore) then old(score) else old(highScore))
            && score == old(score) && unchanged(player, aliens) && PoolsKept())
      && (old(state) == Gameover || old(state) == Victory ==>
            if space && old(stateTimer) + dt > RETRY_DELAY then
              NewRound() && state == Ready && stateTimer == 0.0 && highScore == old(highScore)
            else
              && state == old(state) && stateTimer == old(stateTimer) + dt
              && score == old(score) && highScore == old(highScore) && unchanged(player, aliens) && PoolsKept())
    }

    /** Neither bullet pool nor the power-up pool changed, flags or items. */
    twostate predicate PoolsKept()
      reads this, bullets.playerBullets, bullets.playerBullets.flags, bullets.playerBullets.items
      reads bullets.alienBullets, bullets.alienBullets.flags, bullets.alienBullets.items
      reads powerUps.pool, powerUps.pool.items, powerUps.pool.flags
    {
      && unchanged(bullets.playerBullets, bullets.playerBullets.flags, bullets.playerBullets.items)
      && unchanged(bullets.alienBullets, bullets.alienBullets.flags, bullets.alienBullets.items)
      && unchanged(powerUps.pool, powerUps.pool.items, powerUps.pool.flags)
    }

    /** The state's own step of a tick, as `Ticked` describes it. */
    method Dispatch(dt: real, tx: Transcendentals, rand: nat -> real)
      requires Valid() && Wellformed(tx) && Draws(rand)
      modifies this, player, aliens, bullets.playerBullets, bullets.playerBullets.flags, bullets.playerBullets.items
      modifies bullets.alienBullets, bullets.alienBullets.flags, bullets.alienBullets.items
      modifies powerUps.pool, powerUps.pool.items, powerUps.pool.flags
      ensures Valid()
      ensures Ticked(dt, input.JustPressed("Space"))
    {
      match state {
        case Ready => ReadyTick(dt);
        case Playing => UpdatePlaying(dt, tx, rand);
        case Dying => DyingTick(dt);
        case Gameover => EndTick(dt);
        case Victory => EndTick(dt);
      }
    }

    /** The title screen's tick: play starts on Space or once three seconds have passed. */
    method ReadyTick(dt: real)
      modifies this
      ensures stateTimer == old(stateTimer) + dt
      ensures state == if input.JustPressed("Space") || stateTimer > READY_DELAY then Playing else old(state)
      ensures dyingTimer == old(dyingTimer) && score == old(score) && highScore == old(highScore) && exits == old(exits)
    {
      stateTimer := stateTimer + dt;
      if input.JustPressed("Space") || stateTimer > READY_DELAY {
        state := Playing;
      }
    }

    /** The explosion's tick: once its timer has run out the game is over when no life is left,
        saving the high score, and play resumes otherwise. */
    method DyingTick(dt: real)
      requires state == Dying
      modifies this
      ensures dyingTimer == old(dyingTimer) - dt
      ensures state == if dyingTimer > 0.0 then Dying else if player.lives <= 0 then Gameover else Playing
      ensures stateTimer == if state == Gameover then 0.0 else old(stateTimer)
      ensures highScore == if state == Gameover && old(score) > old(highScore) then old(score) else old(highScore)
      ensures score == old(score) && exits == old(exits)
    {
      dyingTimer := dyingTimer - dt;
      if dyingTimer <= 0.0 {
        if player.lives <= 0 {
          state := Gameover;
          stateTimer := 0.0;
          SaveHighScore();
        } else {
          state := Playing;
        }
      }
    }

    /** An end screen's tick: Space, once a second has passed, starts a new round on the title
        screen. */
    method EndTick(dt: real)
      requires Valid()
      modifies this, player, aliens, bullets.playerBullets, bullets.playerBullets.flags, bullets.playerBullets.items, bullets.alienBullets, bullets.alienBullets.flags, bullets.alienBullets.items, powerUps.pool, powerUps.pool.items, powerUps.pool.flags
      ensures Valid()
      ensures if input.JustPressed("Space") && old(stateTimer) + dt > RETRY_DELAY then
          NewRound() && state == Ready && stateTimer == 0.0 && highScore == old(highScore)
        else
          && state == old(state) && stateTimer == old(stateTimer) + dt
          && score == old(score) && highScore == old(highScore) && unchanged(player, aliens) && PoolsKept()
      ensures exits == old(exits)
    {
      stateTimer := stateTimer + dt;
      if input.JustPressed("Space") && stateTimer > RETRY_DELAY {
        ResetGame();
        state := Ready;
        stateTimer := 0.0;
      }
    }

    /** The first alive alien, in storage order, whose rectangle overlaps `r`. */
    static method FindTarget(s: seq<Alien>, r: Rect) returns (hit: Option<nat>)
      ensures hit == FirstHit(s, r)
    {
      var k := 0;
      while k < |s|
        invariant 0 <= k <= |s|
        invariant forall j :: 0 <= j < k ==> !Struck(s[j], r)
      {
        var a := s[k];
        if a.alive {
          var alienRect := Rect(a.x - a.width / 2.0, a.y - a.height / 2.0, a.width, a.height);
          if RectOverlap(r, alienRect) {
            return Some(k);
          }
        }
        k := k + 1;
      }
      return None;
    }
  }
}
