/** Goombas and Koopas (js/enemy.js): walking, falling, the shell states and
    the death countdown, as a pure state machine (`EnemyState`, `Step`,
    `HitFromAbove`, `HitFromSide`) and the `Enemy` class that updates its own
    fields in place. */
module Enemies {
  import opened Wrappers
  import opened Physics
  import opened Tiles
  import opened Sweep

  const EnemyWidth: real := 32.0
  /** Height of a walking enemy, and of a Koopa once it leaves its shell. */
  const WalkHeight: real := 32.0
  /** Height of a Koopa shell. */
  const ShellHeight: real := 16.0
  /** Ticks a squashed enemy stays visible. */
  const DeathTicks: int := 10
  /** An idle shell opens once its timer exceeds this many ticks. */
  const ShellTicks: int := 300
  /** Speed of a kicked shell, and of a Koopa leaving its shell. */
  const KickSpeed: real := 5.0
  const ExitSpeed: real := 2.0

  datatype EnemyKind = Goomba | Koopa

  /** The simulation state of one enemy. `active == false` is the tombstone. */
  datatype EnemyState = EnemyState(
    kind: EnemyKind, x: real, y: real, height: real,
    velocityX: real, velocityY: real,
    active: bool, dead: bool, deathTimer: int,
    inShell: bool, shellTimer: int, kicked: bool)
  {
    function Bounds(): Rect { Rect(x, y, EnemyWidth, height) }

    function AsKin(): Kin { Kin(x, y, EnemyWidth, height, velocityX, velocityY, false) }
  }

  /** A freshly placed enemy: walking left, a Goomba a little slower. */
  function Spawn(x: real, y: real, kind: EnemyKind): EnemyState {
    EnemyState(kind, x, y, WalkHeight, if kind == Goomba then -1.5 else -2.0, 0.0,
               true, false, 0, false, 0, false)
  }

  // ---------------------------------------------------------------------------
  // One update, stage by stage

  /** Gravity scaled by `dt`, then one step of motion at the current velocity. */
  function Integrate(e: EnemyState, dt: real): EnemyState {
    var vy := ApplyGravity(e.AsKin().AsBody(), dt).velocityY.GetOr(e.velocityY);
    e.(velocityY := vy, x := e.x + e.velocityX, y := e.y + vy)
  }

  /** The tile sweep with turn-around at walls; also yields the ground flag. */
  function Collide(e: EnemyState, g: Grid): (EnemyState, bool)
    requires WellFormed(g)
  {
    var r := SweepTiles(e.AsKin(), g, TurnAround);
    (e.(x := r.x, y := r.y, velocityX := r.velocityX, velocityY := r.velocityY), r.onGround)
  }

  /** The tile column probed ahead of the feet in the direction of travel. */
  function AheadColumn(e: EnemyState): int {
    TileOf(e.x + (if e.velocityX > 0.0 then EnemyWidth + 5.0 else -5.0))
  }

  /** The tile row just below the feet. */
  function FeetRow(e: EnemyState): int {
    TileOf(e.y + e.height + 1.0)
  }

  /** A grounded enemy turns around when the cell ahead and below is off the
      grid or not solid. */
  function LedgeTurn(e: EnemyState, onGround: bool, g: Grid): EnemyState
    requires WellFormed(g)
  {
    var ax, ay := AheadColumn(e), FeetRow(e);
    if onGround && (ax < 0 || ax >= g.width || !SolidAt(GetTile(g, ax, ay)))
    then e.(velocityX := e.velocityX * -1.0)
    else e
  }

  /** Point the horizontal velocity back into the level at either world edge. */
  function KeepInBounds(e: EnemyState, g: Grid): EnemyState {
    var e1 := if e.x < 0.0 then e.(velocityX := Abs(e.velocityX)) else e;
    if e1.x + EnemyWidth > PixelWidth(g) then e1.(velocityX := -Abs(e1.velocityX)) else e1
  }

  /** An idle shell counts up and opens after `ShellTicks`; `exitRight` is the
      coin flip that picks the new walking direction. */
  function ShellTick(e: EnemyState, exitRight: bool): EnemyState {
    if e.inShell && !e.kicked then
      var t := e.shellTimer + 1;
      if t > ShellTicks then
        e.(shellTimer := t, inShell := false, height := WalkHeight,
           velocityX := if exitRight then ExitSpeed else -ExitSpeed)
      else e.(shellTimer := t)
    else e
  }

  /** The countdown of a squashed enemy; it is removed once the timer runs out. */
  function CountDown(e: EnemyState): EnemyState {
    e.(deathTimer := e.deathTimer - 1, active := !(e.deathTimer - 1 <= 0))
  }

  /** One `update` of an enemy. */
  function Step(e: EnemyState, g: Grid, dt: real, exitRight: bool): EnemyState
    requires WellFormed(g)
  {
    if !e.active then e
    else if e.dead then CountDown(e)
    else
      var c := Collide(Integrate(e, dt), g);
      ShellTick(KeepInBounds(LedgeTurn(c.0, c.1, g), g), exitRight)
  }

  /** `hitFromAbove`: the new state and the points it is worth. */
  function StompOutcome(e: EnemyState): (EnemyState, int) {
    if e.kind == Koopa && !e.inShell then
      (e.(inShell := true, height := ShellHeight, velocityX := 0.0, shellTimer := 0), 100)
    else if e.kind == Koopa && e.inShell && !e.kicked then
      (e.(kicked := true, velocityX := KickSpeed), 0)
    else
      (e.(dead := true, deathTimer := DeathTicks, velocityY := -5.0, velocityX := 0.0), 100)
  }

  /** `hitFromSide`: the new state and the signal for the caller (200 bonus for
      a kicked shell, -1 for "the player takes damage", 0 for nothing). */
  function SideOutcome(e: EnemyState): (EnemyState, int) {
    if e.kind == Koopa && e.inShell && e.kicked then (e.(active := false), 200)
    else if !e.inShell then (e, -1)
    else (e, 0)
  }

  /** `n` updates in a row, the `i`-th with coin flip `flips(i)`. */
  function Steps(e: EnemyState, g: Grid, dt: real, flips: nat -> bool, n: nat): EnemyState
    requires WellFormed(g)
  {
    if n == 0 then e else Step(Steps(e, g, dt, flips, n - 1), g, dt, flips(n - 1))
  }

  // ---------------------------------------------------------------------------
  // Properties

  /** A fresh enemy walks left, a Goomba at 1.5 and anything else at 2 pixels a tick. */
  lemma SpawnWalksLeft(x: real, y: real, kind: EnemyKind)
    ensures var e := Spawn(x, y, kind);
      e.active && !e.dead && !e.inShell && !e.kicked && e.height == WalkHeight &&
      e.velocityX == (if kind == Goomba then -1.5 else -2.0) && e.velocityY == 0.0
  {
  }

  /** An inactive enemy is left exactly as it is. */
  lemma InactiveStaysPut(e: EnemyState, g: Grid, dt: real, exitRight: bool)
    requires WellFormed(g) && !e.active
    ensures Step(e, g, dt, exitRight) == e
  {
  }

  /** A squashed enemy only counts down; it goes inactive once the timer reaches 0. */
  lemma DeadOnlyCountsDown(e: EnemyState, g: Grid, dt: real, exitRight: bool)
    requires WellFormed(g) && e.active && e.dead
    ensures var r := Step(e, g, dt, exitRight);
      r.deathTimer == e.deathTimer - 1 && (r.active <==> e.deathTimer - 1 > 0) &&
      r == e.(deathTimer := r.deathTimer, active := r.active)
  {
  }

  /** A squashed enemy with timer `t` is still active for its first `t - 1`
      updates, goes inactive on the `t`-th and never changes afterwards. */
  lemma {:induction false} DeathCountdown(e: EnemyState, g: Grid, dt: real, flips: nat -> bool, n: nat)
    requires WellFormed(g) && e.active && e.dead && e.deathTimer >= 1
    ensures var r := Steps(e, g, dt, flips, n);
      r.dead && (n <= e.deathTimer ==> r.deathTimer == e.deathTimer - n) &&
      (r.active <==> n < e.deathTimer) &&
      r == e.(deathTimer := r.deathTimer, active := r.active)
  {
    if n > 0 {
      DeathCountdown(e, g, dt, flips, n - 1);
      var p := Steps(e, g, dt, flips, n - 1);
      assert Steps(e, g, dt, flips, n) == Step(p, g, dt, flips(n - 1));
      if n <= e.deathTimer {
        assert p.active;
        DeadOnlyCountsDown(p, g, dt, flips(n - 1));
      } else if n - 1 > e.deathTimer {
        assert !p.active;
      } else {
        assert !p.active;
      }
    }
  }

  /** A stomp freshly killing an enemy (`deathTimer == 10`) removes it on the
      10th update after and not before. */
  lemma FreshDeathLastsTenTicks(e: EnemyState, g: Grid, dt: real, flips: nat -> bool)
    requires WellFormed(g) && e.active && (e.kind == Goomba || (e.inShell && e.kicked))
    ensures var d := StompOutcome(e).0;
      Steps(d, g, dt, flips, 9).active && !Steps(d, g, dt, flips, DeathTicks).active
  {
    var d := StompOutcome(e).0;
    DeathCountdown(d, g, dt, flips, 9);
    DeathCountdown(d, g, dt, flips, DeathTicks);
  }

  /** The sweep and the ledge and bounds steps touch only position and velocity:
      the state flags and timers of a live enemy change only in the shell step. */
  lemma StepKeepsFlags(e: EnemyState, g: Grid, dt: real, exitRight: bool)
    requires WellFormed(g) && e.active && !e.dead
    ensures var r := Step(e, g, dt, exitRight);
      r.kind == e.kind && r.active && !r.dead && r.deathTimer == e.deathTimer &&
      r.kicked == e.kicked &&
      (if e.inShell && !e.kicked then r.shellTimer == e.shellTimer + 1
       else r.shellTimer == e.shellTimer && r.inShell == e.inShell && r.height == e.height)
  {
  }

  /** An idle shell counts its timer up by one per update and opens once it
      exceeds `ShellTicks`, standing up to full height and walking off at
      `ExitSpeed` in the direction of the coin flip. */
  lemma ShellOpens(e: EnemyState, g: Grid, dt: real, exitRight: bool)
    requires WellFormed(g) && e.active && !e.dead && e.inShell && !e.kicked
    ensures var r := Step(e, g, dt, exitRight);
      r.shellTimer == e.shellTimer + 1 &&
      (r.inShell <==> e.shellTimer + 1 <= ShellTicks) &&
      (!r.inShell ==> r.height == WalkHeight && r.velocityX == (if exitRight then ExitSpeed else -ExitSpeed)) &&
      (r.inShell ==> r.height == e.height)
  {
  }

  /** An idle shell stands still. */
  predicate ShellsStill(e: EnemyState) {
    e.inShell && !e.kicked ==> e.velocityX == 0.0
  }

  /** The idle-shell rule is kept by an update, since the sweep only ever zeroes
      the horizontal velocity and the ledge and bounds steps keep a zero one. */
  lemma StepKeepsShellsStill(e: EnemyState, g: Grid, dt: real, exitRight: bool)
    requires WellFormed(g) && ShellsStill(e)
    ensures ShellsStill(Step(e, g, dt, exitRight))
  {
    if e.active && !e.dead {
      var i := Integrate(e, dt);
      GroundedMeansStill(i.AsKin(), g, TurnAround);
    }
  }

  /** ... and by both kinds of hit. */
  lemma HitsKeepShellsStill(e: EnemyState)
    requires ShellsStill(e)
    ensures ShellsStill(StompOutcome(e).0) && ShellsStill(SideOutcome(e).0)
  {
  }

  /** The speed of a live enemy is kept by an update, or dropped to 0 by a wall,
      unless a shell opens. */
  lemma StepKeepsSpeed(e: EnemyState, g: Grid, dt: real, exitRight: bool)
    requires WellFormed(g) && e.active && !e.dead
    requires !(e.inShell && !e.kicked && e.shellTimer + 1 > ShellTicks)
    ensures var r := Step(e, g, dt, exitRight);
      Abs(r.velocityX) == Abs(e.velocityX) || r.velocityX == 0.0
  {
    var i := Integrate(e, dt);
    GroundedMeansStill(i.AsKin(), g, TurnAround);
  }

  /** The bounds step keeps the speed and points the enemy back into the level:
      left past the right edge, right past the left edge (when the level is at
      least as wide as the enemy there). */
  lemma KeepInBoundsHeading(e: EnemyState, g: Grid)
    ensures var r := KeepInBounds(e, g);
      r == e.(velocityX := r.velocityX) && Abs(r.velocityX) == Abs(e.velocityX) &&
      (e.x + EnemyWidth > PixelWidth(g) ==> r.velocityX <= 0.0) &&
      (e.x < 0.0 && e.x + EnemyWidth <= PixelWidth(g) ==> r.velocityX >= 0.0) &&
      (0.0 <= e.x && e.x + EnemyWidth <= PixelWidth(g) ==> r == e)
  {
  }

  /** A ledge reversal happens exactly when the enemy was grounded this tick and
      the look-ahead cell is off the grid or not solid. */
  lemma LedgeTurnExactly(e: EnemyState, onGround: bool, g: Grid)
    requires WellFormed(g)
    ensures var r := LedgeTurn(e, onGround, g);
      var ax, ay := AheadColumn(e), FeetRow(e);
      var turns := onGround && (ax < 0 || ax >= g.width || !SolidAt(GetTile(g, ax, ay)));
      r == e.(velocityX := r.velocityX) &&
      (turns ==> r.velocityX == -e.velocityX) &&
      (!turns ==> r == e)
  {
  }

  /** The stomp table: what each state becomes and what it is worth. */
  lemma StompTable(e: EnemyState)
    ensures var (r, points) := StompOutcome(e);
      (e.kind == Koopa && !e.inShell ==>
         points == 100 && r.inShell && r.height == ShellHeight && r.velocityX == 0.0 && r.shellTimer == 0 && r.dead == e.dead) &&
      (e.kind == Koopa && e.inShell && !e.kicked ==>
         points == 0 && r.kicked && r.velocityX == KickSpeed && r.inShell && r.dead == e.dead) &&
      (e.kind == Goomba || (e.inShell && e.kicked) ==>
         points == 100 && r.dead && r.deathTimer == DeathTicks && r.velocityY == -5.0 && r.velocityX == 0.0) &&
      (points == 0 <==> e.kind == Koopa && e.inShell && !e.kicked) &&
      r.kind == e.kind && r.active == e.active
  {
  }

  /** The side-hit table: a kicked shell is knocked out for 200, anything not in
      a shell hurts the player (-1), an idle shell does nothing (0). */
  lemma SideTable(e: EnemyState)
    ensures var (r, signal) := SideOutcome(e);
      (signal == 200 <==> e.kind == Koopa && e.inShell && e.kicked) &&
      (signal == 200 ==> r == e.(active := false)) &&
      (signal == -1 <==> !e.inShell) &&
      (signal != 200 ==> r == e) &&
      signal in {-1, 0, 200}
  {
  }

  /** Stomping a fresh Koopa twice: 100 points into the shell, then a kick worth 0
      sending it right at `KickSpeed`; a third stomp kills it for 100. */
  lemma KoopaStompedThrice(x: real, y: real)
    ensures var k0 := Spawn(x, y, Koopa);
      var (k1, p1) := StompOutcome(k0);
      var (k2, p2) := StompOutcome(k1);
      var (k3, p3) := StompOutcome(k2);
      p1 == 100 && k1.inShell && k1.velocityX == 0.0 && k1.height == ShellHeight &&
      p2 == 0 && k2.kicked && k2.velocityX == KickSpeed &&
      p3 == 100 && k3.dead && k3.deathTimer == DeathTicks
  {
  }

  // ---------------------------------------------------------------------------
  // The enemy object

  class Enemy {
    var x: real
    var y: real
    const kind: EnemyKind
    const width: real
    var height: real
    var velocityX: real
    var velocityY: real
    var active: bool
    var dead: bool
    var deathTimer: int
    var inShell: bool
    var shellTimer: int
    var kicked: bool

    function Model(): EnemyState
      reads this
    {
      EnemyState(kind, x, y, height, velocityX, velocityY, active, dead, deathTimer,
                 inShell, shellTimer, kicked)
    }

    predicate Valid()
      reads this
    {
      width == EnemyWidth
    }

    constructor (x0: real, y0: real, kind0: EnemyKind)
      ensures Valid() && Model() == Spawn(x0, y0, kind0)
      ensures velocityX == (if kind0 == Goomba then -1.5 else -2.0)
      ensures active && !dead && !inShell && !kicked
    {
      x, y, kind := x0, y0, kind0;
      width, height := 32.0, 32.0;
      velocityX := if kind0 == Goomba then -1.5 else -2.0;
      velocityY := 0.0;
      active, dead, deathTimer := true, false, 0;
      inShell, shellTimer, kicked := false, 0, false;
    }

    function GetBounds(): (r: Rect)
      reads this
      requires Valid()
      ensures r == Model().Bounds()
    {
      Rect(x, y, width, height)
    }

    function Motion(onGround: bool): Kin
      reads this
    {
      Kin(x, y, width, height, velocityX, velocityY, onGround)
    }

    /** One tick: the whole new state is `Step` of the old one. */
    method Update(g: Grid, dt: real, exitRight: bool)
      requires Valid() && WellFormed(g)
      modifies this
      ensures Valid() && Model() == Step(old(Model()), g, dt, exitRight)
    {
      if !active {
        return;
      }
      if dead {
        deathTimer := deathTimer - 1;
        if deathTimer <= 0 {
          active := false;
        }
        return;
      }

      var fallen := ApplyGravity(Body(x, y, width, height, Some(velocityX), Some(velocityY)), dt);
      velocityY := fallen.velocityY.GetOr(velocityY);
      x := x + velocityX;
      y := y + velocityY;
      ghost var e1 := Model();
      assert e1 == Integrate(old(Model()), dt);

      var onGround := CollideWithTiles(g);
      ghost var c := Collide(e1, g);
      assert Model() == c.0 && onGround == c.1;
      AfterSweep(g, onGround, exitRight);
    }

    /** The ledge check, the world-edge clamp of the velocity and the shell timer. */
    method AfterSweep(g: Grid, onGround: bool, exitRight: bool)
      requires Valid() && WellFormed(g)
      modifies this
      ensures Valid() && Model() == ShellTick(KeepInBounds(LedgeTurn(old(Model()), onGround, g), g), exitRight)
    {
      TurnAtLedge(g, onGround);
      StayInBounds(g);
      TickShell(exitRight);
    }

    /** A grounded enemy turns around before a gap or the end of the grid. */
    method TurnAtLedge(g: Grid, onGround: bool)
      requires Valid() && WellFormed(g)
      modifies this
      ensures Valid() && Model() == LedgeTurn(old(Model()), onGround, g)
    {
      if onGround {
        var checkAheadX := TileOf(x + (if velocityX > 0.0 then width + 5.0 else -5.0));
        var checkAheadY := TileOf(y + height + 1.0);
        if checkAheadX < 0 || checkAheadX >= g.width || !SolidAt(GetTile(g, checkAheadX, checkAheadY)) {
          velocityX := velocityX * -1.0;
        }
      }
    }

    /** Keep the enemy heading into the level at the world edges. */
    method StayInBounds(g: Grid)
      requires Valid()
      modifies this
      ensures Valid() && Model() == KeepInBounds(old(Model()), g)
    {
      if x < 0.0 {
        velocityX := Abs(velocityX);
      }
      if x + width > PixelWidth(g) {
        velocityX := -Abs(velocityX);
      }
    }

    /** Count an idle shell's timer and open it when the time is up. */
    method TickShell(exitRight: bool)
      requires Valid()
      modifies this
      ensures Valid() && Model() == ShellTick(old(Model()), exitRight)
    {
      if inShell && !kicked {
        shellTimer := shellTimer + 1;
        if shellTimer > ShellTicks {
          inShell := false;
          height := 32.0;
          velocityX := if exitRight then 2.0 else -2.0;
        }
      }
    }

    /** The 4x4 sweep of the cells around the enemy's tile. */
    method CollideWithTiles(g: Grid) returns (onGround: bool)
      requires Valid() && WellFormed(g)
      modifies this
      ensures Valid() && (Model(), onGround) == Collide(old(Model()), g)
    {
      var enemyTileX := TileOf(x);
      var enemyTileY := TileOf(y);
      onGround := false;
      ghost var e1 := Model();
      ghost var k0 := Motion(false);
      assert k0 == e1.AsKin();

      ghost var i: nat := 0;
      for dy := -1 to 3
        invariant i == 4 * (dy + 1)
        invariant Motion(onGround) == SweepCells(k0, g, enemyTileX, enemyTileY, TurnAround, i)
        invariant Model() == e1.(x := x, y := y, velocityX := velocityX, velocityY := velocityY)
        invariant Valid()
      {
        for dx := -1 to 3
          invariant i == 4 * (dy + 1) + (dx + 1)
          invariant Motion(onGround) == SweepCells(k0, g, enemyTileX, enemyTileY, TurnAround, i)
          invariant Model() == e1.(x := x, y := y, velocityX := velocityX, velocityY := velocityY)
          invariant Valid()
        {
          WindowOrder(dx, dy);
          onGround := ProbeCell(g, enemyTileX, enemyTileY, enemyTileX + dx, enemyTileY + dy, onGround, k0, i);
          i := i + 1;
        }
      }
    }

    /** Cell `i` of the sweep around tile (`tileX`, `tileY`): after the first `i`
        cells, it brings the enemy to the state after `i + 1` cells. */
    method ProbeCell(g: Grid, tileX: int, tileY: int, checkX: int, checkY: int, onGround0: bool,
                     ghost k0: Kin, ghost i: nat) returns (onGround: bool)
      requires Valid() && WellFormed(g)
      requires checkX == tileX + OffsetX(i) && checkY == tileY + OffsetY(i)
      requires Motion(onGround0) == SweepCells(k0, g, tileX, tileY, TurnAround, i)
      modifies this
      ensures Valid() && Motion(onGround) == SweepCells(k0, g, tileX, tileY, TurnAround, i + 1)
      ensures Model() == old(Model()).(x := x, y := y, velocityX := velocityX, velocityY := velocityY)
    {
      ghost var k := SweepCells(k0, g, tileX, tileY, TurnAround, i);
      SweepNext(k0, g, tileX, tileY, TurnAround, i, checkX, checkY);
      var nx, ny, vx, vy;
      onGround, nx, ny, vx, vy := React(g, checkX, checkY, onGround0, k);
      x, y, velocityX, velocityY := nx, ny, vx, vy;
    }

    /** The reaction to cell (`checkX`, `checkY`), before it is written back. */
    method React(g: Grid, checkX: int, checkY: int, onGround0: bool, ghost k: Kin)
      returns (onGround: bool, nx: real, ny: real, vx: real, vy: real)
      requires Valid() && WellFormed(g) && k == Motion(onGround0)
      ensures Kin(nx, ny, width, height, vx, vy, onGround) == Probe(k, g, checkX, checkY, TurnAround)
    {
      nx, ny, vx, vy := x, y, velocityX, velocityY;
      onGround := onGround0;
      if checkX >= 0 && checkX < g.width && checkY >= 0 && checkY < g.height {
        var tile := GetTile(g, checkX, checkY);
        if SolidAt(tile) {
          var tileRect := CellRect(checkX, checkY);
          var enemyRect := Rect(nx, ny, width, height);
          if CheckCollision(enemyRect, tileRect) {
            var side := GetCollisionSide(enemyRect, tileRect);
            if side == Bottom {
              onGround := true;
              vy := 0.0;
            } else if side == Top {
              vy := 0.0;
            } else {
              vx := vx * -1.0;
            }
            var moved := ResolveCollision(Body(nx, ny, width, height, Some(vx), Some(vy)), tileRect);
            nx, ny := moved.x, moved.y;
            vx, vy := moved.velocityX.GetOr(vx), moved.velocityY.GetOr(vy);
          }
        }
      }
    }

    /** Stomped by the player or hit by a fireball. */
    method HitFromAbove() returns (points: int)
      modifies this
      ensures (Model(), points) == StompOutcome(old(Model()))
    {
      if kind == Koopa && !inShell {
        inShell := true;
        height := 16.0;
        velocityX := 0.0;
        shellTimer := 0;
        return 100;
      } else if kind == Koopa && inShell && !kicked {
        kicked := true;
        velocityX := 5.0;
        return 0;
      } else {
        dead := true;
        deathTimer := 10;
        velocityY := -5.0;
        velocityX := 0.0;
        return 100;
      }
    }

    /** Touched by the player from the side. */
    method HitFromSide() returns (signal: int)
      modifies this
      ensures (Model(), signal) == SideOutcome(old(Model()))
    {
      if kind == Koopa && inShell && kicked {
        active := false;
        return 200;
      } else if !inShell {
        return -1;
      }
      return 0;
    }
  }
}
