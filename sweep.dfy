/** The per-tick tile sweep shared by enemies (js/enemy.js) and the player
    (js/player.js): a 4x4 window of cells around the body's tile, visited row by
    row, each solid cell the body overlaps classified and resolved. */
module Sweep {
  import opened Wrappers
  import opened Physics
  import opened Tiles

  /** What a wall contact does to the horizontal velocity before resolution:
      enemies turn around, the player stops. */
  datatype WallRule = TurnAround | Halt

  /** The kinematic part of a body during the sweep, with its ground flag. */
  datatype Kin = Kin(x: real, y: real, width: real, height: real,
                     velocityX: real, velocityY: real, onGround: bool)
  {
    function Box(): Rect { Rect(x, y, width, height) }

    function AsBody(): Body { Body(x, y, width, height, Some(velocityX), Some(velocityY)) }
  }

  /** `resolveCollision(this, tileRect)` on a body that carries both velocities. */
  function Resolve(k: Kin, tile: Rect): (r: Kin)
    ensures !CheckCollision(r.Box(), tile)
    ensures r.width == k.width && r.height == k.height && r.onGround == k.onGround
  {
    var b := ResolveCollision(k.AsBody(), tile);
    k.(x := b.x, y := b.y,
       velocityX := b.velocityX.GetOr(k.velocityX),
       velocityY := b.velocityY.GetOr(k.velocityY))
  }

  /** The reaction to touching a solid tile: a `Bottom` contact grounds the body,
      a `Top` one stops it vertically, a wall contact applies the wall rule; then
      the body is snapped out of the tile. */
  function Contact(k: Kin, tile: Rect, rule: WallRule): Kin {
    var k1 := match GetCollisionSide(k.Box(), tile)
      case Bottom => k.(onGround := true, velocityY := 0.0)
      case Top => k.(velocityY := 0.0)
      case _ => k.(velocityX := if rule == TurnAround then k.velocityX * -1.0 else 0.0);
    Resolve(k1, tile)
  }

  /** One cell of the window: only an on-grid solid tile the body overlaps reacts. */
  function Probe(k: Kin, g: Grid, cx: int, cy: int, rule: WallRule): Kin
    requires WellFormed(g)
  {
    if 0 <= cx < g.width && 0 <= cy < g.height && SolidAt(GetTile(g, cx, cy))
       && CheckCollision(k.Box(), CellRect(cx, cy))
    then Contact(k, CellRect(cx, cy), rule)
    else k
  }

  /** The overlap test the sweep makes by hand on each cell is the physics
      module's tile test for tiles of `TileSize`. */
  lemma ProbeIsTileTest(k: Kin, g: Grid, cx: int, cy: int, rule: WallRule)
    requires WellFormed(g)
    ensures Probe(k, g, cx, cy, rule) ==
      if 0 <= cx < g.width && 0 <= cy < g.height && SolidAt(GetTile(g, cx, cy))
         && CheckTileCollision(k.Box(), cx, cy, TileSize as real)
      then Contact(k, CellRect(cx, cy), rule)
      else k
  {
  }

  /** Column and row offsets of the `i`-th visited cell: `dy` outer, `dx` inner,
      both from -1 to 2. */
  function OffsetX(i: int): int { i % 4 - 1 }

  function OffsetY(i: int): int { i / 4 - 1 }

  /** The first `n` cells of the window around cell (`tx`, `ty`). */
  function SweepCells(k: Kin, g: Grid, tx: int, ty: int, rule: WallRule, n: nat): Kin
    requires WellFormed(g)
  {
    if n == 0 then k
    else Probe(SweepCells(k, g, tx, ty, rule, n - 1), g, tx + OffsetX(n - 1), ty + OffsetY(n - 1), rule)
  }

  /** Visiting the cell at the `n`-th offset extends the first `n` cells by one. */
  lemma SweepNext(k: Kin, g: Grid, tx: int, ty: int, rule: WallRule, n: nat, cx: int, cy: int)
    requires WellFormed(g) && cx == tx + OffsetX(n) && cy == ty + OffsetY(n)
    ensures SweepCells(k, g, tx, ty, rule, n + 1) == Probe(SweepCells(k, g, tx, ty, rule, n), g, cx, cy, rule)
  {
  }

  /** The tile of a pixel coordinate. */
  function TileOf(v: real): int { (v / TileSize as real).Floor }

  /** The whole sweep: the ground flag starts cleared and the window is centred
      on the tile of the body's position before the sweep. */
  function SweepTiles(k: Kin, g: Grid, rule: WallRule): Kin
    requires WellFormed(g)
  {
    SweepCells(k.(onGround := false), g, TileOf(k.x), TileOf(k.y), rule, 16)
  }

  // ---------------------------------------------------------------------------
  // Properties

  /** A wall contact always ends at rest horizontally: the enemy's turn-around
      is overwritten by the resolution, so both wall rules react alike. */
  lemma ContactRulesAgree(k: Kin, tile: Rect)
    ensures Contact(k, tile, TurnAround) == Contact(k, tile, Halt)
    ensures GetCollisionSide(k.Box(), tile) in {Left, Right} ==>
              Contact(k, tile, TurnAround).velocityX == 0.0
  {
  }

  /** The two wall rules give the same sweep. */
  lemma {:induction false} SweepRulesAgree(k: Kin, g: Grid, tx: int, ty: int, n: nat)
    requires WellFormed(g)
    ensures SweepCells(k, g, tx, ty, TurnAround, n) == SweepCells(k, g, tx, ty, Halt, n)
  {
    if n > 0 {
      SweepRulesAgree(k, g, tx, ty, n - 1);
      ContactRulesAgree(SweepCells(k, g, tx, ty, Halt, n - 1), CellRect(tx + OffsetX(n - 1), ty + OffsetY(n - 1)));
    }
  }

  /** The shape invariant of the sweep, relating a state to the one it came from. */
  predicate Tamed(k: Kin, r: Kin) {
    r.width == k.width && r.height == k.height &&
    (r.velocityX == k.velocityX || r.velocityX == 0.0) &&
    (r.velocityY == k.velocityY || r.velocityY == 0.0) &&
    (r.onGround ==> r.velocityY == 0.0 || (k.onGround && r.velocityY == k.velocityY))
  }

  /** One contact keeps the size, only zeroes velocity components, and grounds
      the body only with a zero vertical velocity. */
  lemma ContactShape(k: Kin, tile: Rect, rule: WallRule)
    ensures Tamed(k, Contact(k, tile, rule))
  {
    ContactRulesAgree(k, tile);
  }

  lemma TamedTransitive(k: Kin, p: Kin, r: Kin)
    requires Tamed(k, p) && Tamed(p, r)
    ensures Tamed(k, r)
  {
  }

  lemma ProbeShape(k: Kin, g: Grid, cx: int, cy: int, rule: WallRule)
    requires WellFormed(g)
    ensures Tamed(k, Probe(k, g, cx, cy, rule))
  {
    if 0 <= cx < g.width && 0 <= cy < g.height && SolidAt(GetTile(g, cx, cy))
       && CheckCollision(k.Box(), CellRect(cx, cy)) {
      ContactShape(k, CellRect(cx, cy), rule);
    }
  }

  lemma CellShape(k: Kin, g: Grid, tx: int, ty: int, rule: WallRule, n: nat)
    requires WellFormed(g) && n > 0
    ensures Tamed(SweepCells(k, g, tx, ty, rule, n - 1), SweepCells(k, g, tx, ty, rule, n))
  {
    var p := SweepCells(k, g, tx, ty, rule, n - 1);
    var cx, cy := tx + OffsetX(n - 1), ty + OffsetY(n - 1);
    assert SweepCells(k, g, tx, ty, rule, n) == Probe(p, g, cx, cy, rule);
    ProbeShape(p, g, cx, cy, rule);
  }

  /** The sweep keeps the body's size, only ever zeroes a velocity component,
      and grounds the body only together with a zero vertical velocity. */
  lemma {:induction false} SweepShape(k: Kin, g: Grid, tx: int, ty: int, rule: WallRule, n: nat)
    requires WellFormed(g)
    ensures Tamed(k, SweepCells(k, g, tx, ty, rule, n))
  {
    if n > 0 {
      SweepShape(k, g, tx, ty, rule, n - 1);
      CellShape(k, g, tx, ty, rule, n);
      TamedTransitive(k, SweepCells(k, g, tx, ty, rule, n - 1), SweepCells(k, g, tx, ty, rule, n));
    }
  }

  /** A completed sweep that grounds the body leaves it at rest vertically. */
  lemma GroundedMeansStill(k: Kin, g: Grid, rule: WallRule)
    requires WellFormed(g)
    ensures var r := SweepTiles(k, g, rule);
      Tamed(k.(onGround := false), r) && (r.onGround ==> r.velocityY == 0.0)
  {
    SweepShape(k.(onGround := false), g, TileOf(k.x), TileOf(k.y), rule, 16);
  }

  /** The visited cells are exactly the 4x4 window: the `i`-th one is at offset
      (`i % 4 - 1`, `i / 4 - 1`), the inner loop running over columns. */
  lemma WindowOrder(dx: int, dy: int)
    requires -1 <= dx <= 2 && -1 <= dy <= 2
    ensures OffsetX(4 * (dy + 1) + (dx + 1)) == dx && OffsetY(4 * (dy + 1) + (dx + 1)) == dy
  {
  }

  /** The window is wide enough: every tile that a body at most two tiles wide
      and tall overlaps lies within it. */
  lemma WindowCovers(b: Rect, cx: int, cy: int)
    requires 0.0 < b.width <= 2.0 * TileSize as real && 0.0 < b.height <= 2.0 * TileSize as real
    requires CheckCollision(b, CellRect(cx, cy))
    ensures TileOf(b.x) - 1 <= cx <= TileOf(b.x) + 2
    ensures TileOf(b.y) - 1 <= cy <= TileOf(b.y) + 2
  {
    var fx, fy := TileOf(b.x), TileOf(b.y);
    assert fx as real <= b.x / 32.0 < fx as real + 1.0;
    assert fy as real <= b.y / 32.0 < fy as real + 1.0;
    assert b.x < cx as real * 32.0 + 32.0;
    assert b.x + b.width > cx as real * 32.0;
    assert b.y < cy as real * 32.0 + 32.0;
    assert b.y + b.height > cy as real * 32.0;
  }
}
