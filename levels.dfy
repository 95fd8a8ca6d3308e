/** A level (js/level.js): its tile grid, the enemies, coins and power-ups
    placed on it, the per-tick update of the enemies and the drifting
    mushrooms, and the pickup tests against the player's box. */
module Levels {
  import opened Wrappers
  import opened Physics
  import opened Tiles
  import opened Sweep
  import opened Enemies

  /** Side of the square box every coin and power-up is tested with. */
  const PickupSize: real := 16.0
  /** Horizontal drift of a mushroom per tick. */
  const MushroomSpeed: real := 1.0
  /** A landed mushroom rests this far above the top of the tile under it. */
  const MushroomLift: real := 16.0

  // ---------------------------------------------------------------------------
  // Level descriptions, as `generateLevel` returns them

  datatype EnemySpec = EnemySpec(x: real, y: real, kind: EnemyKind)

  /** A coin placement; the `type` may be missing. */
  datatype CollectibleSpec = CollectibleSpec(x: real, y: real, kind: Option<string>)

  /** A power-up placement; the `type` may be missing. */
  datatype PowerUpSpec = PowerUpSpec(x: real, y: real, kind: Option<PowerKind>)

  /** The description a level is built from. Every field but the grid may be
      missing, as in the source's object literal. */
  datatype LevelData = LevelData(
    width: int, height: int, tiles: seq<seq<Tile>>,
    startX: Option<real>, startY: Option<real>, endX: Option<real>,
    enemies: Option<seq<EnemySpec>>,
    collectibles: Option<seq<CollectibleSpec>>,
    powerUps: Option<seq<PowerUpSpec>>)
  {
    function Grid(): Tiles.Grid { Tiles.Grid(width, height, tiles) }
  }

  // ---------------------------------------------------------------------------
  // The items of a built level

  datatype Collectible = Collectible(x: real, y: real, kind: string, collected: bool)

  datatype PowerUp = PowerUp(x: real, y: real, kind: PowerKind, collected: bool,
                             velocityY: real, active: bool)

  /** The state of a level: its fixed geometry and its mutable entities. */
  datatype LevelState = LevelState(
    grid: Grid, startX: real, startY: real, endX: real,
    enemies: seq<EnemyState>, collectibles: seq<Collectible>, powerUps: seq<PowerUp>)

  /** JavaScript's `v || d` on a number: a missing value and `0` both fall back. */
  function Or(v: Option<real>, d: real): (r: real)
    ensures r == d || (v.Some? && r == v.value)
    ensures v.Some? && v.value != 0.0 ==> r == v.value
  {
    if v.Some? && v.value != 0.0 then v.value else d
  }

  /** A missing list is an empty one. */
  function Listed<T>(v: Option<seq<T>>): seq<T> {
    v.GetOr([])
  }

  function NewCollectible(c: CollectibleSpec): Collectible {
    Collectible(c.x, c.y, if c.kind.None? || c.kind.value == "" then "coin" else c.kind.value, false)
  }

  function NewPowerUp(p: PowerUpSpec): PowerUp {
    PowerUp(p.x, p.y, p.kind.GetOr(Mushroom), false, 0.0, true)
  }

  function NewEnemy(e: EnemySpec): EnemyState {
    Spawn(e.x, e.y, e.kind)
  }

  /** The level the constructor builds from a description. */
  function Build(d: LevelData): LevelState {
    var es, cs, ps := Listed(d.enemies), Listed(d.collectibles), Listed(d.powerUps);
    LevelState(d.Grid(), Or(d.startX, 50.0), Or(d.startY, 100.0),
               Or(d.endX, (d.width * TileSize) as real - 50.0),
               seq(|es|, i requires 0 <= i < |es| => NewEnemy(es[i])),
               seq(|cs|, i requires 0 <= i < |cs| => NewCollectible(cs[i])),
               seq(|ps|, i requires 0 <= i < |ps| => NewPowerUp(ps[i])))
  }

  // ---------------------------------------------------------------------------
  // One tick of the level

  /** An enemy is updated, with a time step of 1, only while it is active. */
  function Advance(e: EnemyState, g: Grid, exitRight: bool): EnemyState
    requires WellFormed(g)
  {
    if e.active then Step(e, g, 1.0, exitRight) else e
  }

  /** One tick of a power-up. Only an active, uncollected mushroom moves: it
      falls under gravity with a time step of 1 and drifts right; when the
      cell under its new top-left corner is solid it snaps onto that cell; it
      goes inactive once it is off either side of the level. */
  function Drift(p: PowerUp, g: Grid): PowerUp
    requires WellFormed(g)
  {
    if p.collected || !p.active || p.kind != Mushroom then p
    else
      var vy := ApplyGravity(Body(p.x, p.y, PickupSize, PickupSize, None, Some(p.velocityY)), 1.0)
                  .velocityY.GetOr(p.velocityY);
      var y := p.y + vy;
      var x := p.x + MushroomSpeed;
      var tx, ty := TileOf(x), TileOf(y);
      var landed := 0 <= ty < g.height && SolidAt(GetTile(g, tx, ty));
      p.(x := x,
         y := if landed then (ty * TileSize) as real - MushroomLift else y,
         velocityY := if landed then 0.0 else vy,
         active := !(x < 0.0 || x > PixelWidth(g)))
  }

  /** Every enemy of the list advanced, the `i`-th with shell-exit direction `exits(i)`. */
  function AdvanceAll(es: seq<EnemyState>, g: Grid, exits: nat -> bool): seq<EnemyState>
    requires WellFormed(g)
  {
    seq(|es|, i requires 0 <= i < |es| => Advance(es[i], g, exits(i)))
  }

  function DriftAll(ps: seq<PowerUp>, g: Grid): seq<PowerUp>
    requires WellFormed(g)
  {
    seq(|ps|, i requires 0 <= i < |ps| => Drift(ps[i], g))
  }

  /** `Level.update`: the enemies, then the power-ups, each in list order. */
  function LevelTick(s: LevelState, exits: nat -> bool): LevelState
    requires WellFormed(s.grid)
  {
    s.(enemies := AdvanceAll(s.enemies, s.grid, exits), powerUps := DriftAll(s.powerUps, s.grid))
  }

  // ---------------------------------------------------------------------------
  // Pickups

  /** The box an item is tested with, whatever it looks like. */
  function PickupBox(x: real, y: real): Rect {
    Rect(x, y, PickupSize, PickupSize)
  }

  /** `Level.checkCollision`, a second copy of the overlap test. */
  function LevelCollision(r1: Rect, r2: Rect): (r: bool)
    ensures r == CheckCollision(r1, r2)
  {
    r1.x < r2.x + r2.width && r1.x + r1.width > r2.x &&
    r1.y < r2.y + r2.height && r1.y + r1.height > r2.y
  }

  /** The index of the last `true` in `bs`, if any. */
  function Last(bs: seq<bool>): (r: Option<nat>)
    ensures r.Some? ==> r.value < |bs|
  {
    if |bs| == 0 then None
    else if bs[|bs| - 1] then Some(|bs| - 1)
    else Last(bs[..|bs| - 1])
  }

  predicate Takes(c: Collectible, b: Rect) {
    !c.collected && LevelCollision(b, PickupBox(c.x, c.y))
  }

  predicate Grabs(p: PowerUp, b: Rect) {
    !p.collected && p.active && LevelCollision(b, PickupBox(p.x, p.y))
  }

  function CoinHits(cs: seq<Collectible>, b: Rect): seq<bool> {
    seq(|cs|, i requires 0 <= i < |cs| => Takes(cs[i], b))
  }

  function PowerUpHits(ps: seq<PowerUp>, b: Rect): seq<bool> {
    seq(|ps|, i requires 0 <= i < |ps| => Grabs(ps[i], b))
  }

  /** Every coin the player's box `b` touches is marked collected. */
  function Collect(cs: seq<Collectible>, b: Rect): seq<Collectible> {
    seq(|cs|, i requires 0 <= i < |cs| => if Takes(cs[i], b) then cs[i].(collected := true) else cs[i])
  }

  /** Every power-up the player's box `b` touches is marked collected. */
  function Gather(ps: seq<PowerUp>, b: Rect): seq<PowerUp> {
    seq(|ps|, i requires 0 <= i < |ps| => if Grabs(ps[i], b) then ps[i].(collected := true) else ps[i])
  }

  // ---------------------------------------------------------------------------
  // Properties

  /** A missing or empty list builds nothing; otherwise one entity per entry,
      in order, each fresh: enemies walking, coins and power-ups uncollected,
      power-ups active and at rest, types defaulting to coin and mushroom. */
  lemma BuildPlacesEach(d: LevelData)
    ensures var s := Build(d);
      |s.enemies| == |Listed(d.enemies)| && |s.collectibles| == |Listed(d.collectibles)| &&
      |s.powerUps| == |Listed(d.powerUps)| &&
      (forall i :: 0 <= i < |s.enemies| ==>
         var e := Listed(d.enemies)[i];
         s.enemies[i] == Spawn(e.x, e.y, e.kind) && s.enemies[i].active && !s.enemies[i].dead) &&
      (forall i :: 0 <= i < |s.collectibles| ==>
         var c := Listed(d.collectibles)[i];
         s.collectibles[i].x == c.x && s.collectibles[i].y == c.y && !s.collectibles[i].collected &&
         (c.kind == None ==> s.collectibles[i].kind == "coin")) &&
      (forall i :: 0 <= i < |s.powerUps| ==>
         var p := Listed(d.powerUps)[i];
         s.powerUps[i] == PowerUp(p.x, p.y, if p.kind == None then Mushroom else p.kind.value, false, 0.0, true))
  {
  }

  /** The start and end fall back to 50, 100 and 50 pixels short of the right
      edge when missing or zero, and keep any other given value. */
  lemma BuildDefaults(d: LevelData)
    ensures var s := Build(d);
      s.grid == Grid(d.width, d.height, d.tiles) &&
      (d.startX.None? || d.startX == Some(0.0) ==> s.startX == 50.0) &&
      (d.startY.None? || d.startY == Some(0.0) ==> s.startY == 100.0) &&
      (d.endX.None? || d.endX == Some(0.0) ==> s.endX == (d.width * TileSize) as real - 50.0) &&
      (d.startX.Some? && d.startX.value != 0.0 ==> s.startX == d.startX.value) &&
      (d.startY.Some? && d.startY.value != 0.0 ==> s.startY == d.startY.value) &&
      (d.endX.Some? && d.endX.value != 0.0 ==> s.endX == d.endX.value)
  {
  }

  /** `Last` finds nothing exactly when no entry holds, and otherwise the
      last entry that holds. */
  lemma {:induction false} LastExactly(bs: seq<bool>)
    ensures Last(bs).None? <==> forall i :: 0 <= i < |bs| ==> !bs[i]
    ensures Last(bs).Some? ==> bs[Last(bs).value] && forall i :: Last(bs).value < i < |bs| ==> !bs[i]
  {
    if |bs| > 0 && !bs[|bs| - 1] {
      var front := bs[..|bs| - 1];
      LastExactly(front);
      assert forall i :: 0 <= i < |front| ==> front[i] == bs[i];
    }
  }

  /** Extending the scanned prefix by one entry. */
  lemma LastExtend(bs: seq<bool>, i: nat)
    requires i < |bs|
    ensures Last(bs[..i + 1]) == if bs[i] then Some(i) else Last(bs[..i])
  {
    assert bs[..i + 1][..i] == bs[..i];
  }

  /** The coin pickup marks exactly the touched uncollected coins, leaves every
      other coin as it was, and changes nothing but the flag. */
  lemma CollectExactly(cs: seq<Collectible>, b: Rect)
    ensures var r := Collect(cs, b);
      |r| == |cs| &&
      forall i :: 0 <= i < |cs| ==>
        r[i] == cs[i].(collected := r[i].collected) &&
        (r[i].collected <==> cs[i].collected || CheckCollision(b, PickupBox(cs[i].x, cs[i].y)))
  {
  }

  /** The power-up pickup takes only active, uncollected power-ups the box
      touches, and changes nothing but their flag. */
  lemma GatherExactly(ps: seq<PowerUp>, b: Rect)
    ensures var r := Gather(ps, b);
      |r| == |ps| &&
      forall i :: 0 <= i < |ps| ==>
        r[i] == ps[i].(collected := r[i].collected) &&
        (r[i].collected != ps[i].collected <==> Grabs(ps[i], b)) &&
        (Grabs(ps[i], b) <==> !ps[i].collected && ps[i].active && CheckCollision(b, PickupBox(ps[i].x, ps[i].y)))
  {
  }

  /** The one `update` the level gives an enemy matches `Enemy.update`'s own
      treatment of an inactive enemy, which changes nothing. */
  lemma AdvanceIsStep(e: EnemyState, g: Grid, exitRight: bool)
    requires WellFormed(g)
    ensures Advance(e, g, exitRight) == Step(e, g, 1.0, exitRight)
  {
    if !e.active {
      InactiveStaysPut(e, g, 1.0, exitRight);
    }
  }

  /** Only an active, uncollected mushroom moves; it moves one pixel right,
      comes to rest on a solid cell with its bottom edge flush with the
      cell's top, otherwise falls; it is deactivated off the level's sides
      and never reactivated, and landing does not deactivate it. */
  lemma DriftTable(p: PowerUp, g: Grid)
    requires WellFormed(g)
    ensures var r := Drift(p, g);
      r.kind == p.kind && r.collected == p.collected &&
      (p.collected || !p.active || p.kind == FireFlower ==> r == p) &&
      (!p.collected && p.active && p.kind == Mushroom ==>
         var ty := TileOf(p.y + p.velocityY + Gravity);
         r.x == p.x + 1.0 &&
         (r.active <==> 0.0 <= r.x <= PixelWidth(g)) &&
         (SolidAt(GetTile(g, TileOf(r.x), ty)) ==>
            r.velocityY == 0.0 && r.y + MushroomLift == (ty * TileSize) as real) &&
         (!SolidAt(GetTile(g, TileOf(r.x), ty)) ==>
            r.velocityY == p.velocityY + Gravity && r.y == p.y + r.velocityY)) &&
      (!p.active ==> !r.active)
  {
  }

  /** The level tick keeps every list's length and each entity's kind, and
      moves only active enemies and live mushrooms. */
  lemma LevelTickKeeps(s: LevelState, exits: nat -> bool)
    requires WellFormed(s.grid)
    ensures var r := LevelTick(s, exits);
      r.grid == s.grid && r.endX == s.endX && r.collectibles == s.collectibles &&
      |r.enemies| == |s.enemies| && |r.powerUps| == |s.powerUps| &&
      (forall i :: 0 <= i < |s.enemies| ==>
         r.enemies[i].kind == s.enemies[i].kind &&
         (!s.enemies[i].active ==> r.enemies[i] == s.enemies[i]) &&
         (r.enemies[i].active ==> s.enemies[i].active)) &&
      (forall i :: 0 <= i < |s.powerUps| ==>
         (s.powerUps[i].kind == FireFlower ==> r.powerUps[i] == s.powerUps[i]))
  {
    var r := LevelTick(s, exits);
    forall i | 0 <= i < |s.enemies|
      ensures r.enemies[i].kind == s.enemies[i].kind && (r.enemies[i].active ==> s.enemies[i].active)
      ensures !s.enemies[i].active ==> r.enemies[i] == s.enemies[i]
    {
      assert r.enemies[i] == Advance(s.enemies[i], s.grid, exits(i));
      if s.enemies[i].active && s.enemies[i].dead {
        DeadOnlyCountsDown(s.enemies[i], s.grid, 1.0, exits(i));
      } else if s.enemies[i].active {
        StepKeepsFlags(s.enemies[i], s.grid, 1.0, exits(i));
      }
    }
  }

  // ---------------------------------------------------------------------------
  // The level object

  /** The states of a sequence of enemy objects. */
  function EnemyModels(s: seq<Enemy>): (r: seq<EnemyState>)
    reads s
  {
    seq(|s|, i reads s requires 0 <= i < |s| => s[i].Model())
  }

  class Level {
    const grid: Grid
    const startX: real
    const startY: real
    const endX: real
    const enemies: seq<Enemy>
    var collectibles: seq<Collectible>
    var powerUps: seq<PowerUp>

    function Model(): LevelState
      reads this, enemies
    {
      LevelState(grid, startX, startY, endX, EnemyModels(enemies), collectibles, powerUps)
    }

    predicate Valid()
      reads this, enemies
    {
      WellFormed(grid) && Distinct(enemies) && forall e :: e in enemies ==> e.Valid()
    }

    /** The constructor together with `parseLevelData`. */
    constructor (d: LevelData)
      requires WellFormed(d.Grid())
      ensures Valid() && Model() == Build(d)
      ensures forall e :: e in enemies ==> fresh(e)
    {
      grid := d.Grid();
      startX := Or(d.startX, 50.0);
      startY := Or(d.startY, 100.0);
      endX := Or(d.endX, (d.width * TileSize) as real - 50.0);
      var es: seq<Enemy> := [];
      var specs := Listed(d.enemies);
      for i := 0 to |specs|
        invariant |es| == i && Distinct(es)
        invariant forall e :: e in es ==> fresh(e) && e.Valid()
        invariant forall k :: 0 <= k < i ==> es[k].Model() == NewEnemy(specs[k])
      {
        var e := new Enemy(specs[i].x, specs[i].y, specs[i].kind);
        es := es + [e];
      }
      enemies := es;
      var cs: seq<Collectible> := [];
      var coins := Listed(d.collectibles);
      for i := 0 to |coins|
        invariant cs == seq(i, k requires 0 <= k < i => NewCollectible(coins[k]))
      {
        cs := cs + [NewCollectible(coins[i])];
      }
      collectibles := cs;
      var ps: seq<PowerUp> := [];
      var items := Listed(d.powerUps);
      for i := 0 to |items|
        invariant ps == seq(i, k requires 0 <= k < i => NewPowerUp(items[k]))
      {
        ps := ps + [NewPowerUp(items[i])];
      }
      powerUps := ps;
    }

    /** `update`: every active enemy steps with a time step of 1, then every
        live mushroom drifts. */
    method Update(exits: nat -> bool)
      requires Valid()
      modifies this, enemies
      ensures Valid() && Model() == LevelTick(old(Model()), exits)
    {
      UpdateEnemies(exits);
      DriftPowerUps();
    }

    method UpdateEnemies(exits: nat -> bool)
      requires Valid()
      modifies enemies
      ensures Valid()
      ensures EnemyModels(enemies) == AdvanceAll(old(EnemyModels(enemies)), grid, exits)
    {
      ghost var before := EnemyModels(enemies);
      for i := 0 to |enemies|
        invariant Valid()
        invariant forall k :: 0 <= k < i ==> enemies[k].Model() == Advance(before[k], grid, exits(k))
        invariant forall k :: i <= k < |enemies| ==> enemies[k].Model() == before[k]
      {
        var e := enemies[i];
        assert forall k :: 0 <= k < |enemies| && k != i ==> enemies[k] != e;
        if e.active {
          e.Update(grid, 1.0, exits(i));
        }
      }
    }

    method DriftPowerUps()
      requires Valid()
      modifies this
      ensures powerUps == DriftAll(old(powerUps), grid) && collectibles == old(collectibles)
    {
      ghost var before := powerUps;
      for i := 0 to |powerUps|
        invariant |powerUps| == |before|
        invariant forall k :: 0 <= k < i ==> powerUps[k] == Drift(before[k], grid)
        invariant forall k :: i <= k < |powerUps| ==> powerUps[k] == before[k]
        invariant collectibles == old(collectibles)
      {
        powerUps := powerUps[i := Drift(powerUps[i], grid)];
      }
      assert powerUps == DriftAll(before, grid);
    }

    /** Marks every touched coin and returns the last one marked, if any. */
    method CheckCollectibleCollision(playerBounds: Rect) returns (collected: Option<Collectible>)
      modifies this
      ensures collectibles == Collect(old(collectibles), playerBounds)
      ensures collected == match Last(CoinHits(old(collectibles), playerBounds))
                           case None => None
                           case Some(j) => Some(collectibles[j])
      ensures powerUps == old(powerUps)
    {
      ghost var before := collectibles;
      ghost var hits := CoinHits(before, playerBounds);
      collected := None;
      for i := 0 to |collectibles|
        invariant |collectibles| == |before|
        invariant forall k :: 0 <= k < i ==> collectibles[k] == Collect(before, playerBounds)[k]
        invariant forall k :: i <= k < |collectibles| ==> collectibles[k] == before[k]
        invariant collected == match Last(hits[..i])
                               case None => None
                               case Some(j) => Some(Collect(before, playerBounds)[j])
        invariant powerUps == old(powerUps)
      {
        LastExtend(hits, i);
        var c := collectibles[i];
        if !c.collected {
          if LevelCollision(playerBounds, PickupBox(c.x, c.y)) {
            collectibles := collectibles[i := c.(collected := true)];
            collected := Some(collectibles[i]);
          }
        }
      }
      assert hits[..|before|] == hits;
      assert collectibles == Collect(before, playerBounds);
    }

    /** Marks every touched live power-up and returns the last one marked, if any. */
    method CheckPowerUpCollision(playerBounds: Rect) returns (collected: Option<PowerUp>)
      modifies this
      ensures powerUps == Gather(old(powerUps), playerBounds)
      ensures collected == match Last(PowerUpHits(old(powerUps), playerBounds))
                           case None => None
                           case Some(j) => Some(powerUps[j])
      ensures collectibles == old(collectibles)
    {
      ghost var before := powerUps;
      ghost var hits := PowerUpHits(before, playerBounds);
      collected := None;
      for i := 0 to |powerUps|
        invariant |powerUps| == |before|
        invariant forall k :: 0 <= k < i ==> powerUps[k] == Gather(before, playerBounds)[k]
        invariant forall k :: i <= k < |powerUps| ==> powerUps[k] == before[k]
        invariant collected == match Last(hits[..i])
                               case None => None
                               case Some(j) => Some(Gather(before, playerBounds)[j])
        invariant collectibles == old(collectibles)
      {
        LastExtend(hits, i);
        var p := powerUps[i];
        if !p.collected && p.active {
          if LevelCollision(playerBounds, PickupBox(p.x, p.y)) {
            powerUps := powerUps[i := p.(collected := true)];
            collected := Some(powerUps[i]);
          }
        }
      }
      assert hits[..|before|] == hits;
      assert powerUps == Gather(before, playerBounds);
    }
  }
}
