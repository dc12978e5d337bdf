/**
 * The alien formation (src/games/galactic-assault/AlienFormation.ts): an 8 x 5 grid that sways
 * between 20 px margins, fires from the lowest alien of a column on a timer, and on another timer
 * sends one alien on a two-phase dive (down with a sine weave, then back to its home slot).
 * The aliens are a sequence of records the methods reassign; `Math.sin`/`Math.sqrt` come from a
 * `Transcendentals` value and each `Math.random()` draw is an argument.
 */
module Formation {
  import opened Types
  import opened Maths
  import opened Pool
  import opened Bullets

  const COLS: int := 8
  const ROWS: int := 5
  const ALIEN_W: real := 28.0
  const ALIEN_H: real := 22.0
  const SPACING_X: real := 44.0
  const SPACING_Y: real := 36.0
  const FORMATION_TOP: real := 60.0
  const ALIEN_POINTS: seq<int> := [30, 20, 10]
  /** The x of column 0, which centres the grid: (800 - 7 * 44) / 2. */
  const START_X: real := (CANVAS_W - (COLS - 1) as real * SPACING_X) / 2.0
  const SWAY_MARGIN: real := 20.0
  const DIVE_BOTTOM: real := 620.0
  const DIVE_REENTRY_Y: real := -30.0
  const RETURN_SPEED: real := 200.0
  const SNAP_DISTANCE: real := 5.0
  const WEAVE_RATE: real := 3.0
  const WEAVE_AMPLITUDE: real := 120.0
  const AIM_Y: real := 500.0
  const SHOT_SPEED: real := 200.0
  const DIVE_SPEED_MIN: real := 180.0
  const DIVE_SPEED_MAX: real := 280.0
  const DIVE_BIAS: real := 0.01

  datatype Alien = Alien(
    x: real, y: real, width: real, height: real, alive: bool, kind: int,
    gridCol: int, gridRow: int, diving: bool, diveX: real, diveY: real,
    diveAngle: real, diveSpeed: real, divePhase: int, homeX: real, homeY: real, hitFlash: real)

  /** The alien `init` places at `row`, `col`: alive, at home, with the colour class of its row. */
  function HomeAlien(row: int, col: int): Alien {
    var homeX := START_X + col as real * SPACING_X;
    var homeY := FORMATION_TOP + row as real * SPACING_Y;
    Alien(homeX, homeY, ALIEN_W, ALIEN_H, true, if row < 2 then row else 2,
          col, row, false, 0.0, 0.0, 0.0, 0.0, 0, homeX, homeY, 0.0)
  }

  /** The fixed facts about the alien stored at index `k`: its grid cell in row-major order,
      its home position, its colour class and its size. */
  predicate InGrid(a: Alien, k: int) {
    && 0 <= a.gridRow < ROWS
    && a.gridRow == k / COLS && a.gridCol == k % COLS
    && a.homeX == START_X + a.gridCol as real * SPACING_X
    && a.homeY == FORMATION_TOP + a.gridRow as real * SPACING_Y
    && a.kind == (if a.gridRow < 2 then a.gridRow else 2)
    && a.width == ALIEN_W && a.height == ALIEN_H
  }

  /** An alive alien that holds its place in the formation. */
  predicate InFormation(a: Alien) {
    a.alive && !a.diving
  }

  /** An alien in formation sits on its home row. */
  predicate Settled(a: Alien) {
    InFormation(a) ==> a.y == a.homeY
  }

  predicate WellPlaced(s: seq<Alien>) {
    forall k :: 0 <= k < |s| ==> InGrid(s[k], k) && Settled(s[k])
  }

  lemma GridIndex(row: int, col: int)
    requires 0 <= row && 0 <= col < COLS
    ensures (row * COLS + col) / COLS == row && (row * COLS + col) % COLS == col
  {
  }

  /** The home alien of every cell is in its cell, settled, alive and in formation. */
  lemma HomeAlienInGrid(k: int)
    requires 0 <= k < ROWS * COLS
    ensures var a := HomeAlien(k / COLS, k % COLS);
      && InGrid(a, k) && Settled(a) && InFormation(a) && a.x == a.homeX && a.y == a.homeY
      && a.kind == Min2(a.gridRow, 2)
  {
  }

  /** An alien in formation is well above the line shots are aimed at. */
  lemma SettledAboveAim(a: Alien, k: int)
    requires InGrid(a, k) && Settled(a) && InFormation(a)
    ensures a.y < AIM_Y
  {
  }

  /** The points for a colour class: 30, 20 or 10, and 10 for anything else. */
  function PointsFor(kind: int): (p: int)
    ensures kind == 0 ==> p == 30
    ensures kind == 1 ==> p == 20
    ensures kind != 0 && kind != 1 ==> p == 10
  {
    if 0 <= kind < |ALIEN_POINTS| then ALIEN_POINTS[kind] else 10
  }

  function AliveFlags(s: seq<Alien>): (f: seq<bool>)
    ensures |f| == |s| && forall k :: 0 <= k < |s| ==> f[k] == s[k].alive
  {
    seq(|s|, k requires 0 <= k < |s| => s[k].alive)
  }

  /** The number of alive aliens; zero exactly when every alien is dead. */
  function AliveCount(s: seq<Alien>): (n: nat)
    ensures n <= |s|
    ensures n == 0 <==> forall k :: 0 <= k < |s| ==> !s[k].alive
    ensures n == |s| <==> forall k :: 0 <= k < |s| ==> s[k].alive
  {
    var f := AliveFlags(s);
    assert forall k :: 0 <= k < |s| ==> f[k] == s[k].alive;
    CountTrueExtremes(f);
    CountTrue(f)
  }

  /** The leftmost edge over the aliens in formation, starting from the canvas width. */
  function FormationLeft(s: seq<Alien>): (m: real)
    ensures m <= CANVAS_W
    ensures forall k :: 0 <= k < |s| && InFormation(s[k]) ==> m <= s[k].homeX - s[k].width / 2.0
    ensures m == CANVAS_W || exists k :: 0 <= k < |s| && InFormation(s[k]) && m == s[k].homeX - s[k].width / 2.0
    decreases |s|
  {
    if |s| == 0 then CANVAS_W
    else
      var init := s[..|s| - 1];
      var m := FormationLeft(init);
      var a := s[|s| - 1];
      assert forall k :: 0 <= k < |init| ==> init[k] == s[k];
      if InFormation(a) && a.homeX - a.width / 2.0 < m then a.homeX - a.width / 2.0 else m
  }

  /** The rightmost edge over the aliens in formation, starting from zero. */
  function FormationRight(s: seq<Alien>): (m: real)
    ensures m >= 0.0
    ensures forall k :: 0 <= k < |s| && InFormation(s[k]) ==> m >= s[k].homeX + s[k].width / 2.0
    ensures m == 0.0 || exists k :: 0 <= k < |s| && InFormation(s[k]) && m == s[k].homeX + s[k].width / 2.0
    decreases |s|
  {
    if |s| == 0 then 0.0
    else
      var init := s[..|s| - 1];
      var m := FormationRight(init);
      var a := s[|s| - 1];
      assert forall k :: 0 <= k < |init| ==> init[k] == s[k];
      if InFormation(a) && a.homeX + a.width / 2.0 > m then a.homeX + a.width / 2.0 else m
  }

  /** The sway bounces off a 20 px margin: right edge past it turns left, else left edge past it
      turns right, else the direction is kept. */
  function NextSwayDir(dir: int, left: real, right: real): (d: int)
    ensures right > CANVAS_W - SWAY_MARGIN ==> d == -1
    ensures right <= CANVAS_W - SWAY_MARGIN && left < SWAY_MARGIN ==> d == 1
    ensures right <= CANVAS_W - SWAY_MARGIN && left >= SWAY_MARGIN ==> d == dir
  {
    if right > CANVAS_W - SWAY_MARGIN then -1 else if left < SWAY_MARGIN then 1 else dir
  }

  /** One frame of a dive. Phase 0 weaves down at the dive speed and wraps to the top (phase 1)
      once below 620; any other phase heads home at 200 px/s and snaps into place within 5 px. */
  function DiveStep(a: Alien, dt: real, swayOffset: real, tx: Transcendentals): (r: Alien)
    requires a.diving
    ensures r.alive == a.alive && r.kind == a.kind && r.gridCol == a.gridCol && r.gridRow == a.gridRow
    ensures r.homeX == a.homeX && r.homeY == a.homeY && r.width == a.width && r.height == a.height
    ensures r.hitFlash == a.hitFlash && r.diveSpeed == a.diveSpeed
    ensures a.divePhase == 0 ==> r.diving == a.diving && r.diveAngle == a.diveAngle + dt * WEAVE_RATE
    ensures a.divePhase == 0 && a.diveY + a.diveSpeed * dt > DIVE_BOTTOM ==>
      r.divePhase == 1 && r.y == DIVE_REENTRY_Y && r.diveY == DIVE_REENTRY_Y && r.diveX == r.x
    ensures a.divePhase == 0 && a.diveY + a.diveSpeed * dt <= DIVE_BOTTOM ==>
      r.divePhase == 0 && r.y == a.diveY + a.diveSpeed * dt && r.diveY == r.y && r.diveX == r.x
    ensures a.divePhase != 0 ==> r.divePhase == a.divePhase && r.diveX == a.diveX && r.diveY == a.diveY
    ensures a.divePhase != 0 && !r.diving ==> r.x == a.homeX + swayOffset && r.y == a.homeY
    ensures a.divePhase != 0 ==> (r.diving <==> ReturnDistance(a, swayOffset, tx) >= SNAP_DISTANCE)
  {
    if a.divePhase == 0 then
      var angle := a.diveAngle + dt * WEAVE_RATE;
      var diveX := a.diveX + tx.sin(angle) * WEAVE_AMPLITUDE * dt;
      var diveY := a.diveY + a.diveSpeed * dt;
      if diveY > DIVE_BOTTOM then
        a.(diveAngle := angle, x := diveX, diveX := diveX, y := DIVE_REENTRY_Y, diveY := DIVE_REENTRY_Y, divePhase := 1)
      else
        a.(diveAngle := angle, x := diveX, diveX := diveX, y := diveY, diveY := diveY)
    else
      var dx := a.homeX + swayOffset - a.x;
      var dy := a.homeY - a.y;
      var dist := ReturnDistance(a, swayOffset, tx);
      if dist < SNAP_DISTANCE then
        a.(diving := false, x := a.homeX + swayOffset, y := a.homeY)
      else
        a.(x := a.x + (dx / dist) * RETURN_SPEED * dt, y := a.y + (dy / dist) * RETURN_SPEED * dt)
  }

  /** How far a returning alien is from its slot, as `Math.sqrt` reports it. */
  function ReturnDistance(a: Alien, swayOffset: real, tx: Transcendentals): real {
    var dx := a.homeX + swayOffset - a.x;
    var dy := a.homeY - a.y;
    tx.sqrt(dx * dx + dy * dy)
  }

  /** A returning alien snaps home exactly when it is less than 5 px from its slot. */
  lemma {:induction false} ReturnSnapsWithinFivePixels(a: Alien, dt: real, swayOffset: real, tx: Transcendentals)
    requires Wellformed(tx) && a.diving && a.divePhase != 0
    ensures var dx := a.homeX + swayOffset - a.x;
      var dy := a.homeY - a.y;
      !DiveStep(a, dt, swayOffset, tx).diving <==> dx * dx + dy * dy < SNAP_DISTANCE * SNAP_DISTANCE
  {
    var dx := a.homeX + swayOffset - a.x;
    var dy := a.homeY - a.y;
    var sq := dx * dx + dy * dy;
    SquaresNonNegative(dx, dy);
    var dist := ReturnDistance(a, swayOffset, tx);
    SqrtOf(tx.sqrt, sq);
    SquareOrder(dist, sq, SNAP_DISTANCE);
  }

  /** For a non-negative root `d` of `sq`, being below `c` is the same as `sq` being below `c * c`. */
  lemma SquareOrder(d: real, sq: real, c: real)
    requires d >= 0.0 && d * d == sq && c > 0.0
    ensures d < c <==> sq < c * c
  {
    if d < c {
      SquareBelow(d, c);
    }
  }

  lemma SquareBelow(d: real, c: real)
    requires 0.0 <= d < c
    ensures d * d < c * c
  {
    var e := c - d;
    assert c * c == d * d + 2.0 * d * e + e * e;
    assert d * e >= 0.0;
    assert e * e > 0.0;
  }

  /** One frame for one alien: a dead alien is untouched; an alien in formation follows the sway
      on its row; a diving one takes a dive step; a positive hit flash runs down. */
  function StepAlien(a: Alien, dt: real, swayOffset: real, tx: Transcendentals): (r: Alien)
    ensures !a.alive ==> r == a
    ensures InFormation(a) ==> r == a.(x := a.homeX + swayOffset, hitFlash := r.hitFlash)
    ensures a.alive && a.diving ==> r == DiveStep(a, dt, swayOffset, tx).(hitFlash := r.hitFlash)
    ensures a.alive ==> r.hitFlash == if a.hitFlash > 0.0 then a.hitFlash - dt else a.hitFlash
    ensures forall k :: InGrid(a, k) ==> InGrid(r, k)
    ensures Settled(a) ==> Settled(r)
    ensures r.alive == a.alive
  {
    if !a.alive then a
    else
      var moved := if a.diving then DiveStep(a, dt, swayOffset, tx) else a.(x := a.homeX + swayOffset);
      if moved.hitFlash > 0.0 then moved.(hitFlash := moved.hitFlash - dt) else moved
  }

  /** Every alien after one frame of the position pass. */
  function Stepped(s: seq<Alien>, dt: real, swayOffset: real, tx: Transcendentals): (r: seq<Alien>)
    ensures |r| == |s| && forall k :: 0 <= k < |s| ==> r[k] == StepAlien(s[k], dt, swayOffset, tx)
    ensures WellPlaced(s) ==> WellPlaced(r)
    ensures AliveCount(r) == AliveCount(s)
  {
    var r := seq(|s|, k requires 0 <= k < |s| => StepAlien(s[k], dt, swayOffset, tx));
    assert AliveFlags(r) == AliveFlags(s);
    r
  }

  /**
   * The state of `getBottomRowAliens`' loop: the columns in the order the Map first saw them, and
   * the alien kept for each column.
   */
  datatype Bottoms = Bottoms(cols: seq<int>, byCol: map<int, Alien>)

  /** One loop step: an alien in formation enters its column if the column is new or it sits on a
      lower row than the kept alien. A Map `set` on an existing key keeps its position. */
  function Admit(st: Bottoms, a: Alien): Bottoms {
    if !InFormation(a) then st
    else if a.gridCol !in st.byCol then Bottoms(st.cols + [a.gridCol], st.byCol[a.gridCol := a])
    else if a.gridRow > st.byCol[a.gridCol].gridRow then Bottoms(st.cols, st.byCol[a.gridCol := a])
    else st
  }

  /** The loop's state after the aliens `s`: each column appears once and is a key, every kept
      alien is an alien of `s` in formation in that column, and no alien in formation of that
      column sits lower. */
  function CollectBottoms(s: seq<Alien>): (st: Bottoms)
    ensures forall i :: 0 <= i < |st.cols| ==> st.cols[i] in st.byCol
    ensures forall c :: c in st.byCol ==> c in st.cols
    ensures forall i, j :: 0 <= i < j < |st.cols| ==> st.cols[i] != st.cols[j]
    ensures forall c :: c in st.byCol ==> st.byCol[c].gridCol == c && InFormation(st.byCol[c]) && st.byCol[c] in s
    ensures forall k :: 0 <= k < |s| && InFormation(s[k]) ==>
      s[k].gridCol in st.byCol && s[k].gridRow <= st.byCol[s[k].gridCol].gridRow
    decreases |s|
  {
    if |s| == 0 then Bottoms([], map[])
    else
      var init := s[..|s| - 1];
      assert s == init + [s[|s| - 1]];
      AdmitStep(init, s[|s| - 1], CollectBottoms(init));
      Admit(CollectBottoms(init), s[|s| - 1])
  }

  /** One loop step keeps what the loop state promises. */
  lemma AdmitStep(init: seq<Alien>, a: Alien, st: Bottoms)
    requires Collected(init, st)
    ensures Collected(init + [a], Admit(st, a))
  {
    var s := init + [a];
    assert forall k :: 0 <= k < |init| ==> init[k] == s[k];
    assert forall b :: b in init ==> b in s;
    if InFormation(a) && a.gridCol !in st.byCol {
      NewColumn(init, a, st);
    }
  }

  /** The step that opens a new column. */
  lemma NewColumn(init: seq<Alien>, a: Alien, st: Bottoms)
    requires Collected(init, st) && InFormation(a) && a.gridCol !in st.byCol
    ensures Collected(init + [a], Bottoms(st.cols + [a.gridCol], st.byCol[a.gridCol := a]))
  {
    var s := init + [a];
    var r := Bottoms(st.cols + [a.gridCol], st.byCol[a.gridCol := a]);
    assert forall k :: 0 <= k < |init| ==> init[k] == s[k];
    assert forall b :: b in init ==> b in s;
    assert forall i :: 0 <= i < |st.cols| ==> r.cols[i] == st.cols[i];
  }

  /** The kept aliens of a loop state, column by column in first-seen order. */
  function Kept(st: Bottoms): seq<Alien>
    requires forall i :: 0 <= i < |st.cols| ==> st.cols[i] in st.byCol
  {
    seq(|st.cols|, i requires 0 <= i < |st.cols| => st.byCol[st.cols[i]])
  }

  /** What the loop state promises about its columns and kept aliens (the contract of
      `CollectBottoms`). */
  ghost predicate Collected(s: seq<Alien>, st: Bottoms) {
    && (forall i :: 0 <= i < |st.cols| ==> st.cols[i] in st.byCol)
    && (forall c :: c in st.byCol ==> c in st.cols)
    && (forall i, j :: 0 <= i < j < |st.cols| ==> st.cols[i] != st.cols[j])
    && (forall c :: c in st.byCol ==> st.byCol[c].gridCol == c && InFormation(st.byCol[c]) && st.byCol[c] in s)
    && (forall k :: 0 <= k < |s| && InFormation(s[k]) ==>
         s[k].gridCol in st.byCol && s[k].gridRow <= st.byCol[s[k].gridCol].gridRow)
  }

  /** The kept aliens are aliens of `s` in formation, each as low as any alien of its column. */
  lemma KeptAreLowest(s: seq<Alien>, st: Bottoms)
    requires Collected(s, st)
    ensures var r := Kept(st);
      && (forall i :: 0 <= i < |r| ==> InFormation(r[i]) && r[i] in s)
      && (forall i, k :: 0 <= i < |r| && 0 <= k < |s| && InFormation(s[k]) && s[k].gridCol == r[i].gridCol ==>
            s[k].gridRow <= r[i].gridRow)
  {
    var r := Kept(st);
    forall i | 0 <= i < |r|
      ensures InFormation(r[i]) && r[i] in s
    {
      var c := st.cols[i];
      assert c in st.byCol;
      assert r[i] == st.byCol[c];
    }
    forall i, k | 0 <= i < |r| && 0 <= k < |s| && InFormation(s[k]) && s[k].gridCol == r[i].gridCol
      ensures s[k].gridRow <= r[i].gridRow
    {
      assert r[i] == st.byCol[st.cols[i]];
    }
  }

  /** Each kept alien belongs to a different column. */
  lemma KeptDistinctColumns(s: seq<Alien>, st: Bottoms)
    requires Collected(s, st)
    ensures var r := Kept(st);
      forall i, j :: 0 <= i < j < |r| ==> r[i].gridCol != r[j].gridCol
  {
    var r := Kept(st);
    forall i, j | 0 <= i < j < |r|
      ensures r[i].gridCol != r[j].gridCol
    {
      assert r[i].gridCol == st.cols[i] && r[j].gridCol == st.cols[j];
    }
  }

  /** Every column with an alien in formation has its kept alien in the result. */
  lemma KeptCoversColumns(s: seq<Alien>, st: Bottoms)
    requires Collected(s, st)
    ensures var r := Kept(st);
      forall k :: 0 <= k < |s| && InFormation(s[k]) ==> exists i :: 0 <= i < |r| && r[i].gridCol == s[k].gridCol
  {
    var r := Kept(st);
    forall k | 0 <= k < |s| && InFormation(s[k])
      ensures exists i :: 0 <= i < |r| && r[i].gridCol == s[k].gridCol
    {
      var i := IndexOf(st.cols, s[k].gridCol);
      assert r[i] == st.byCol[s[k].gridCol];
    }
  }

  /** The result is empty exactly when no alien is in formation. */
  lemma KeptEmptyIff(s: seq<Alien>, st: Bottoms)
    requires Collected(s, st)
    ensures |Kept(st)| == 0 <==> forall k :: 0 <= k < |s| ==> !InFormation(s[k])
  {
    var r := Kept(st);
    if |r| > 0 {
      KeptAreLowest(s, st);
      assert r[0] in s;
      var k :| 0 <= k < |s| && s[k] == r[0];
      assert InFormation(s[k]);
    }
    if k :| 0 <= k < |s| && InFormation(s[k]) {
      KeptCoversColumns(s, st);
    }
  }

  /** `r` is the bottom row of `s`: for each column holding an alien in formation, exactly one
      entry, the lowest such alien of that column, and nothing else. */
  ghost predicate IsBottomRow(s: seq<Alien>, r: seq<Alien>) {
    && (forall i :: 0 <= i < |r| ==> InFormation(r[i]) && r[i] in s)
    && (forall i, k :: 0 <= i < |r| && 0 <= k < |s| && InFormation(s[k]) && s[k].gridCol == r[i].gridCol ==>
          s[k].gridRow <= r[i].gridRow)
    && (forall k :: 0 <= k < |s| && InFormation(s[k]) ==> exists i :: 0 <= i < |r| && r[i].gridCol == s[k].gridCol)
    && (forall i, j :: 0 <= i < j < |r| ==> r[i].gridCol != r[j].gridCol)
    && (|r| == 0 <==> forall k :: 0 <= k < |s| ==> !InFormation(s[k]))
  }

  /** The kept aliens of the loop state are the bottom row. */
  lemma KeptIsBottomRow(s: seq<Alien>, st: Bottoms)
    requires Collected(s, st)
    ensures IsBottomRow(s, Kept(st))
  {
    KeptAreLowest(s, st);
    KeptDistinctColumns(s, st);
    KeptCoversColumns(s, st);
    KeptEmptyIff(s, st);
  }

  /** What `getBottomRowAliens` returns: the bottom row, its columns in the order the loop first
      met them. */
  function BottomRow(s: seq<Alien>): (r: seq<Alien>)
    ensures IsBottomRow(s, r)
  {
    var st := CollectBottoms(s);
    CollectedBottoms(s);
    KeptIsBottomRow(s, st);
    Kept(st)
  }

  lemma CollectedBottoms(s: seq<Alien>)
    ensures Collected(s, CollectBottoms(s))
  {
  }

  function IndexOf(xs: seq<int>, x: int): (i: nat)
    requires x in xs
    ensures i < |xs| && xs[i] == x
  {
    if xs[0] == x then 0 else 1 + IndexOf(xs[1..], x)
  }

  /** The indices of the aliens in formation from `i` on, ascending: the dive candidates. */
  function CandidatesFrom(s: seq<Alien>, i: nat): (r: seq<nat>)
    requires i <= |s|
    ensures forall j :: 0 <= j < |r| ==> i <= r[j] < |s| && InFormation(s[r[j]])
    ensures forall k :: i <= k < |s| && InFormation(s[k]) ==> k in r
    ensures forall j, l :: 0 <= j < l < |r| ==> r[j] < r[l]
    decreases |s| - i
  {
    if i == |s| then []
    else if InFormation(s[i]) then [i] + CandidatesFrom(s, i + 1)
    else CandidatesFrom(s, i + 1)
  }

  /** An alien starting a dive from where it is, at a drawn speed in [180, 280), aimed at the
      player by an angle bias of 0.01 per pixel. */
  function Launched(a: Alien, playerX: real, rSpeed: real): (r: Alien)
    requires 0.0 <= rSpeed < 1.0
    ensures r.diving && r.divePhase == 0 && r.diveX == a.x && r.diveY == a.y
    ensures DIVE_SPEED_MIN <= r.diveSpeed < DIVE_SPEED_MAX
    ensures r.diveAngle == (playerX - a.x) * DIVE_BIAS
    ensures r == a.(diving := true, divePhase := 0, diveX := a.x, diveY := a.y,
      diveSpeed := r.diveSpeed, diveAngle := r.diveAngle)
  {
    a.(diving := true, divePhase := 0, diveX := a.x, diveY := a.y,
       diveSpeed := RandomRange(DIVE_SPEED_MIN, DIVE_SPEED_MAX, rSpeed), diveAngle := (playerX - a.x) * DIVE_BIAS)
  }

  /** Launching one alien keeps every alien in its cell and changes no alive flag. */
  lemma LaunchKeepsPlaces(s: seq<Alien>, k: int, playerX: real, rSpeed: real)
    requires 0 <= k < |s| && 0.0 <= rSpeed < 1.0
    ensures var r := s[k := Launched(s[k], playerX, rSpeed)];
      && (WellPlaced(s) ==> WellPlaced(r))
      && AliveCount(r) == AliveCount(s)
  {
    var r := s[k := Launched(s[k], playerX, rSpeed)];
    if WellPlaced(s) {
      forall j | 0 <= j < |r|
        ensures InGrid(r[j], j) && Settled(r[j])
      {
        if j == k {
          assert InGrid(s[k], k);
        } else {
          assert r[j] == s[j];
        }
      }
    }
    SameAliveCount(s, r);
  }

  /** Two rows of aliens with the same alive flags have the same alive count. */
  lemma SameAliveCount(s: seq<Alien>, t: seq<Alien>)
    requires |s| == |t| && forall k :: 0 <= k < |s| ==> s[k].alive == t[k].alive
    ensures AliveCount(s) == AliveCount(t)
  {
    assert AliveFlags(s) == AliveFlags(t);
  }

  /** The aliens after `startDive`: with no alien in formation nothing changes; otherwise exactly
      one alien, picked by `rPick` among those in formation, is launched and all others stay. */
  function DiveStarted(s: seq<Alien>, playerX: real, rPick: real, rSpeed: real): (r: seq<Alien>)
    requires 0.0 <= rPick < 1.0 && 0.0 <= rSpeed < 1.0
    ensures |r| == |s|
    ensures (forall k :: 0 <= k < |s| ==> !InFormation(s[k])) ==> r == s
    ensures (exists k :: 0 <= k < |s| && InFormation(s[k])) ==>
      exists k :: 0 <= k < |s| && InFormation(s[k]) && r == s[k := Launched(s[k], playerX, rSpeed)]
    ensures WellPlaced(s) ==> WellPlaced(r)
    ensures AliveCount(r) == AliveCount(s)
  {
    var c := CandidatesFrom(s, 0);
    if |c| == 0 then s
    else
      var k := c[PickIndex(rPick, |c|)];
      LaunchKeepsPlaces(s, k, playerX, rSpeed);
      s[k := Launched(s[k], playerX, rSpeed)]
  }

  /** The shot a shooter fires: from its lower edge, at 200 px/s, towards a point 500 px down
      the canvas under the player. */
  function AimedShot(shooter: Alien, playerX: real, tx: Transcendentals): (b: Bullet)
    requires Wellformed(tx) && shooter.y < AIM_Y
    ensures b == AlienShot(shooter.x, shooter.y + shooter.height / 2.0, b.vx, b.vy)
  {
    var dx := playerX - shooter.x;
    var dy := AIM_Y - shooter.y;
    SumSquaresPositive(dx, dy);
    var len := tx.sqrt(dx * dx + dy * dy);
    AlienShot(shooter.x, shooter.y + shooter.height / 2.0, (dx / len) * SHOT_SPEED, (dy / len) * SHOT_SPEED)
  }

  /** Each alien of the bottom row of well-placed aliens is above the aiming line. */
  lemma BottomRowAboveAim(s: seq<Alien>, i: int)
    requires WellPlaced(s) && 0 <= i < |BottomRow(s)|
    ensures BottomRow(s)[i].y < AIM_Y
  {
    var b := BottomRow(s);
    assert b[i] in s;
    var k :| 0 <= k < |s| && s[k] == b[i];
    SettledAboveAim(s[k], k);
  }

  /** The alien pool after `alienShoot`: a bottom-row alien picked by `rPick` fires an aimed
      shot into the lowest free slot, if there is a bottom row. */
  function Volley(flags: seq<bool>, items: seq<Bullet>, s: seq<Alien>, playerX: real, rPick: real,
                  tx: Transcendentals): (seq<bool>, seq<Bullet>)
    requires |flags| == |items| && WellPlaced(s) && Wellformed(tx) && 0.0 <= rPick < 1.0
  {
    var bottom := BottomRow(s);
    if |bottom| == 0 then (flags, items)
    else
      var i := PickIndex(rPick, |bottom|);
      BottomRowAboveAim(s, i);
      Place(flags, items, AimedShot(bottom[i], playerX, tx))
  }

  /** With no alien in formation a volley changes nothing; otherwise the shot comes from the
      lowest alien in formation of some column and adds one bullet unless the pool is full. */
  lemma VolleyEffect(flags: seq<bool>, items: seq<Bullet>, s: seq<Alien>, playerX: real, rPick: real,
                     tx: Transcendentals)
    requires |flags| == |items| && WellPlaced(s) && Wellformed(tx) && 0.0 <= rPick < 1.0
    ensures var r := Volley(flags, items, s, playerX, rPick, tx);
      && ((forall k :: 0 <= k < |s| ==> !InFormation(s[k])) ==> r == (flags, items))
      && ((exists k :: 0 <= k < |s| && InFormation(s[k])) ==>
            exists shooter :: shooter in BottomRow(s) && shooter.y < AIM_Y &&
              r == Place(flags, items, AimedShot(shooter, playerX, tx)))
      && |r.0| == |flags| && |r.1| == |items|
      && CountTrue(r.0) == if (exists k :: 0 <= k < |s| && InFormation(s[k])) && CountTrue(flags) < |flags|
                           then CountTrue(flags) + 1 else CountTrue(flags)
  {
    var bottom := BottomRow(s);
    var idle := forall k :: 0 <= k < |s| ==> !InFormation(s[k]);
    assert |bottom| == 0 <==> idle;
    if !idle {
      var i := PickIndex(rPick, |bottom|);
      BottomRowAboveAim(s, i);
      VolleyShot(flags, items, s, playerX, rPick, tx, bottom[i]);
    }
  }

  /** When there is a bottom row, the volley is its picked alien's aimed shot, placed in the
      pool: one more bullet unless the pool is full. */
  lemma VolleyShot(flags: seq<bool>, items: seq<Bullet>, s: seq<Alien>, playerX: real, rPick: real,
                   tx: Transcendentals, shooter: Alien)
    requires |flags| == |items| && WellPlaced(s) && Wellformed(tx) && 0.0 <= rPick < 1.0
    requires |BottomRow(s)| > 0 && shooter == BottomRow(s)[PickIndex(rPick, |BottomRow(s)|)]
    requires shooter.y < AIM_Y
    ensures var r := Volley(flags, items, s, playerX, rPick, tx);
      && shooter in BottomRow(s)
      && r == Place(flags, items, AimedShot(shooter, playerX, tx))
      && |r.0| == |flags| && |r.1| == |items|
      && CountTrue(r.0) == if CountTrue(flags) < |flags| then CountTrue(flags) + 1 else CountTrue(flags)
  {
    PlaceEffect(flags, items, AimedShot(shooter, playerX, tx));
  }

  function Min2(a: int, b: int): int {
    if a < b then a else b
  }

  class AlienFormation {
    var aliens: seq<Alien>
    var swayOffset: real
    const swaySpeed: real
    var swayDir: int
    var shootTimer: real
    const shootInterval: real
    var diveTimer: real
    const diveInterval: real
    var formationLeft: real
    var formationRight: real

    /** Every stored alien is in its grid cell and, while in formation, on its home row; the
        sway direction is one of the two. */
    predicate Valid()
      reads this
    {
      && |aliens| <= ROWS * COLS
      && WellPlaced(aliens)
      && (swayDir == 1 || swayDir == -1)
      && swaySpeed == 40.0 && shootInterval == 1.5 && diveInterval == 3.0
    }

    constructor ()
      ensures Valid()
      ensures aliens == [] && swayOffset == 0.0 && swayDir == 1 && shootTimer == 0.0 && diveTimer == 0.0
      ensures formationLeft == 0.0 && formationRight == 0.0
    {
      aliens, swayOffset, swaySpeed, swayDir := [], 0.0, 40.0, 1;
      shootTimer, shootInterval, diveTimer, diveInterval := 0.0, 1.5, 0.0, 3.0;
      formationLeft, formationRight := 0.0, 0.0;
    }

    /** Rebuilds the full grid, row by row: 40 aliens, all alive and at home. */
    method Init()
      requires Valid()
      modifies this
      ensures Valid()
      ensures |aliens| == ROWS * COLS
      ensures forall k :: 0 <= k < |aliens| ==> aliens[k] == HomeAlien(k / COLS, k % COLS)
      ensures forall k :: 0 <= k < |aliens| ==>
        var a := aliens[k];
        && a.gridRow == k / COLS && a.gridCol == k % COLS && a.alive && !a.diving
        && a.x == a.homeX == START_X + a.gridCol as real * SPACING_X
        && a.y == a.homeY == FORMATION_TOP + a.gridRow as real * SPACING_Y
        && a.kind == Min2(a.gridRow, 2)
      ensures swayOffset == 0.0 && swayDir == 1 && shootTimer == 0.0 && diveTimer == 1.5
      ensures formationLeft == old(formationLeft) && formationRight == old(formationRight)
    {
      var grid: seq<Alien> := [];
      var row := 0;
      while row < ROWS
        invariant 0 <= row <= ROWS
        invariant |grid| == row * COLS
        invariant forall k :: 0 <= k < |grid| ==> grid[k] == HomeAlien(k / COLS, k % COLS)
        invariant formationLeft == old(formationLeft) && formationRight == old(formationRight)
      {
        var col := 0;
        while col < COLS
          invariant 0 <= col <= COLS
          invariant |grid| == row * COLS + col
          invariant forall k :: 0 <= k < |grid| ==> grid[k] == HomeAlien(k / COLS, k % COLS)
          invariant formationLeft == old(formationLeft) && formationRight == old(formationRight)
        {
          GridIndex(row, col);
          grid := grid + [HomeAlien(row, col)];
          col := col + 1;
        }
        row := row + 1;
      }
      aliens := grid;
      swayOffset, swayDir, shootTimer, diveTimer := 0.0, 1, 0.0, 1.5;
      forall k | 0 <= k < |aliens|
        ensures InGrid(aliens[k], k) && Settled(aliens[k])
        ensures var a := aliens[k];
          && a.gridRow == k / COLS && a.gridCol == k % COLS && a.alive && !a.diving
          && a.x == a.homeX == START_X + a.gridCol as real * SPACING_X
          && a.y == a.homeY == FORMATION_TOP + a.gridRow as real * SPACING_Y
          && a.kind == Min2(a.gridRow, 2)
      {
        HomeAlienInGrid(k);
      }
    }

    /** The number of alive aliens. */
    function AliveCountOf(): (n: nat)
      reads this
      ensures n == AliveCount(aliens)
      ensures n == 0 <==> forall k :: 0 <= k < |aliens| ==> !aliens[k].alive
    {
      AliveCount(aliens)
    }

    /** The points an alien is worth, by its colour class. */
    static function GetPointsForAlien(a: Alien): (p: int)
      ensures p == PointsFor(a.kind)
      ensures p in {10, 20, 30}
    {
      PointsFor(a.kind)
    }

    /** Recomputes the formation's left and right edges from the aliens in formation. */
    method ComputeFormationBounds()
      modifies this
      ensures formationLeft == FormationLeft(aliens) && formationRight == FormationRight(aliens)
      ensures aliens == old(aliens) && swayOffset == old(swayOffset) && swayDir == old(swayDir)
      ensures shootTimer == old(shootTimer) && diveTimer == old(diveTimer)
    {
      var minX := CANVAS_W;
      var maxX := 0.0;
      var i := 0;
      while i < |aliens|
        invariant 0 <= i <= |aliens|
        invariant minX == FormationLeft(aliens[..i]) && maxX == FormationRight(aliens[..i])
      {
        var a := aliens[i];
        assert aliens[..i + 1][..i] == aliens[..i];
        if a.alive && !a.diving {
          minX := if a.homeX - a.width / 2.0 < minX then a.homeX - a.width / 2.0 else minX;
          maxX := if a.homeX + a.width / 2.0 > maxX then a.homeX + a.width / 2.0 else maxX;
        }
        i := i + 1;
      }
      assert aliens[..|aliens|] == aliens;
      formationLeft := minX;
      formationRight := maxX;
    }

    /** The Map pass of `getBottomRowAliens`. */
    method GetBottomRowAliens() returns (bottom: seq<Alien>)
      ensures bottom == BottomRow(aliens)
    {
      var st := Bottoms([], map[]);
      var i := 0;
      while i < |aliens|
        invariant 0 <= i <= |aliens|
        invariant st == CollectBottoms(aliens[..i])
      {
        var a := aliens[i];
        assert aliens[..i + 1][..i] == aliens[..i];
        if a.alive && !a.diving {
          if a.gridCol !in st.byCol || a.gridRow > st.byCol[a.gridCol].gridRow {
            var cols := if a.gridCol in st.byCol then st.cols else st.cols + [a.gridCol];
            st := Bottoms(cols, st.byCol[a.gridCol := a]);
          }
        }
        i := i + 1;
      }
      assert aliens[..|aliens|] == aliens;
      bottom := seq(|st.cols|, j requires 0 <= j < |st.cols| => st.byCol[st.cols[j]]);
    }

    /** The position pass of `update`: every alien takes its step of the frame. */
    method StepAliens(dt: real, tx: Transcendentals)
      requires Valid()
      modifies this
      ensures Valid()
      ensures aliens == Stepped(old(aliens), dt, swayOffset, tx)
      ensures swayOffset == old(swayOffset) && swayDir == old(swayDir)
      ensures shootTimer == old(shootTimer) && diveTimer == old(diveTimer)
      ensures formationLeft == old(formationLeft) && formationRight == old(formationRight)
    {
      var moved := aliens;
      var i := 0;
      while i < |moved|
        invariant 0 <= i <= |moved| == |aliens|
        invariant forall k :: 0 <= k < i ==> moved[k] == StepAlien(aliens[k], dt, swayOffset, tx)
        invariant forall k :: i <= k < |moved| ==> moved[k] == aliens[k]
      {
        var a := moved[i];
        if a.alive {
          if a.diving {
            a := DiveStep(a, dt, swayOffset, tx);
          } else {
            a := a.(x := a.homeX + swayOffset);
          }
          if a.hitFlash > 0.0 {
            a := a.(hitFlash := a.hitFlash - dt);
          }
        }
        moved := moved[i := a];
        i := i + 1;
      }
      aliens := moved;
    }

    /** Fires one aimed shot from a random bottom-row alien, if any alien is in formation. */
    method AlienShoot(bullets: BulletManager, playerX: real, rPick: real, tx: Transcendentals)
      requires Valid() && bullets.Valid() && Wellformed(tx) && 0.0 <= rPick < 1.0
      modifies bullets.alienBullets, bullets.alienBullets.flags, bullets.alienBullets.items
      ensures bullets.Valid()
      ensures (bullets.alienBullets.flags[..], bullets.alienBullets.items[..])
        == Volley(old(bullets.alienBullets.flags[..]), old(bullets.alienBullets.items[..]), aliens, playerX, rPick, tx)
    {
      var bottom := GetBottomRowAliens();
      if |bottom| == 0 {
        return;
      }
      var i := PickIndex(rPick, |bottom|);
      BottomRowAboveAim(aliens, i);
      var shooter := bottom[i];
      var shot := AimedShot(shooter, playerX, tx);
      bullets.SpawnAlienBullet(shot.x, shot.y, shot.vx, shot.vy);
    }

    /** Sends one random alien in formation on a dive, if there is one. */
    method StartDive(playerX: real, rPick: real, rSpeed: real)
      requires Valid() && 0.0 <= rPick < 1.0 && 0.0 <= rSpeed < 1.0
      modifies this
      ensures Valid()
      ensures aliens == DiveStarted(old(aliens), playerX, rPick, rSpeed)
      ensures swayOffset == old(swayOffset) && swayDir == old(swayDir)
      ensures shootTimer == old(shootTimer) && diveTimer == old(diveTimer)
      ensures formationLeft == old(formationLeft) && formationRight == old(formationRight)
    {
      var candidates := CandidatesFrom(aliens, 0);
      if |candidates| == 0 {
        return;
      }
      var k := candidates[PickIndex(rPick, |candidates|)];
      LaunchKeepsPlaces(aliens, k, playerX, rSpeed);
      aliens := aliens[k := Launched(aliens[k], playerX, rSpeed)];
    }

    /** The sway part of `update`: the offset advances, the bounds are recomputed and the
        direction bounces off the margin. */
    method Sway(dt: real)
      requires Valid()
      modifies this
      ensures Valid()
      ensures swayOffset == old(swayOffset) + swaySpeed * old(swayDir) as real * dt
      ensures formationLeft == FormationLeft(aliens) && formationRight == FormationRight(aliens)
      ensures swayDir == NextSwayDir(old(swayDir), formationLeft + swayOffset, formationRight + swayOffset)
      ensures aliens == old(aliens) && shootTimer == old(shootTimer) && diveTimer == old(diveTimer)
    {
      swayOffset := swayOffset + swaySpeed * swayDir as real * dt;
      ComputeFormationBounds();
      var leftEdge := formationLeft + swayOffset;
      var rightEdge := formationRight + swayOffset;
      if rightEdge > CANVAS_W - SWAY_MARGIN {
        swayDir := -1;
      } else if leftEdge < SWAY_MARGIN {
        swayDir := 1;
      }
    }

    /** The shooting part of `update`: once the shoot timer runs out it rewinds to the
        interval and the formation fires a volley. */
    method ShootTick(dt: real, bullets: BulletManager, playerX: real, rShoot: real, tx: Transcendentals)
      requires Valid() && bullets.Valid() && Wellformed(tx) && 0.0 <= rShoot < 1.0
      modifies this, bullets.alienBullets, bullets.alienBullets.flags, bullets.alienBullets.items
      ensures Valid() && bullets.Valid()
      ensures var fire := old(shootTimer) - dt <= 0.0;
        && shootTimer == (if fire then shootInterval else old(shootTimer) - dt)
        && (bullets.alienBullets.flags[..], bullets.alienBullets.items[..]) ==
           (if fire then Volley(old(bullets.alienBullets.flags[..]), old(bullets.alienBullets.items[..]),
                                aliens, playerX, rShoot, tx)
            else (old(bullets.alienBullets.flags[..]), old(bullets.alienBullets.items[..])))
      ensures aliens == old(aliens) && swayOffset == old(swayOffset) && swayDir == old(swayDir)
      ensures diveTimer == old(diveTimer)
      ensures formationLeft == old(formationLeft) && formationRight == old(formationRight)
    {
      shootTimer := shootTimer - dt;
      if shootTimer <= 0.0 {
        shootTimer := shootInterval;
        AlienShoot(bullets, playerX, rShoot, tx);
      }
    }

    /** The dive part of `update`: once the dive timer runs out it rewinds to the interval and
        one alien in formation starts a dive. */
    method DiveTick(dt: real, playerX: real, rPick: real, rSpeed: real)
      requires Valid() && 0.0 <= rPick < 1.0 && 0.0 <= rSpeed < 1.0
      modifies this
      ensures Valid()
      ensures var dive := old(diveTimer) - dt <= 0.0;
        && diveTimer == (if dive then diveInterval else old(diveTimer) - dt)
        && aliens == (if dive then DiveStarted(old(aliens), playerX, rPick, rSpeed) else old(aliens))
      ensures swayOffset == old(swayOffset) && swayDir == old(swayDir) && shootTimer == old(shootTimer)
      ensures formationLeft == old(formationLeft) && formationRight == old(formationRight)
    {
      diveTimer := diveTimer - dt;
      if diveTimer <= 0.0 {
        diveTimer := diveInterval;
        StartDive(playerX, rPick, rSpeed);
      }
    }

    /**
     * One frame of the formation: the sway advances and may bounce off the margin, every alien
     * steps, and the shoot and dive timers each fire their action and rewind once they run out.
     * `rShoot` picks the shooter, `rPick` the diver and `rSpeed` its speed.
     */
    method Update(dt: real, bullets: BulletManager, playerX: real, tx: Transcendentals,
                  rShoot: real, rPick: real, rSpeed: real)
      requires Valid() && bullets.Valid() && Wellformed(tx)
      requires 0.0 <= rShoot < 1.0 && 0.0 <= rPick < 1.0 && 0.0 <= rSpeed < 1.0
      modifies this, bullets.alienBullets, bullets.alienBullets.flags, bullets.alienBullets.items
      ensures Valid() && bullets.Valid()
      ensures swayOffset == old(swayOffset) + swaySpeed * old(swayDir) as real * dt
      ensures formationLeft == FormationLeft(old(aliens)) && formationRight == FormationRight(old(aliens))
      ensures swayDir == NextSwayDir(old(swayDir), formationLeft + swayOffset, formationRight + swayOffset)
      ensures var moved := Stepped(old(aliens), dt, swayOffset, tx);
        var fire := old(shootTimer) - dt <= 0.0;
        var dive := old(diveTimer) - dt <= 0.0;
        && shootTimer == (if fire then shootInterval else old(shootTimer) - dt)
        && diveTimer == (if dive then diveInterval else old(diveTimer) - dt)
        && (bullets.alienBullets.flags[..], bullets.alienBullets.items[..]) ==
           (if fire then Volley(old(bullets.alienBullets.flags[..]), old(bullets.alienBullets.items[..]),
                                moved, playerX, rShoot, tx)
            else (old(bullets.alienBullets.flags[..]), old(bullets.alienBullets.items[..])))
        && aliens == (if dive then DiveStarted(moved, playerX, rPick, rSpeed) else moved)
    {
      Sway(dt);
      StepAliens(dt, tx);
      ShootTick(dt, bullets, playerX, rShoot, tx);
      DiveTick(dt, playerX, rPick, rSpeed);
    }
  }
}
