/** `generateLevel` (js/level.js): the two hand-made levels and the procedural
    layout of every other level number, whose random draws are an input
    stream `rand` of values in [0, 1), consumed in the source's call order. */
module Layouts {
  import opened Wrappers
  import opened Physics
  import opened Tiles
  import opened Enemies
  import opened Levels

  const LevelWidth: int := 50
  const LevelHeight: int := 20
  /** The top row of the three ground rows. */
  const GroundRow: int := LevelHeight - 3
  /** Procedural levels have this many platforms, one per six-column slot
      starting at column `SlotStart`. */
  const Platforms: int := 8
  const SlotStart: int := 5
  const SlotWidth: int := 6

  /** The pixel coordinate of a cell index. */
  function Px(cells: int): real { (cells * TileSize) as real }

  // ---------------------------------------------------------------------------
  // The random draws of a procedural level

  /** `Math.floor(Math.random() * n)` on the `k`-th draw. */
  function Draw(rand: nat -> real, k: nat, n: nat): int {
    (rand(k) * n as real).Floor
  }

  /** The draws of platform `i` are numbers `3i`, `3i + 1` and `3i + 2`. */
  function PlatformLift(rand: nat -> real, i: nat): int { 3 + Draw(rand, 3 * i, 4) }

  function PlatformLength(rand: nat -> real, i: nat): int { 3 + Draw(rand, 3 * i + 1, 3) }

  predicate PlatformQuestion(rand: nat -> real, i: nat) { rand(3 * i + 2) > 0.5 }

  /** A procedural level has `8 + levelNum` enemies, none if that is negative. */
  function EnemyCount(levelNum: int): nat { if 8 + levelNum > 0 then 8 + levelNum else 0 }

  /** The draw deciding the kind of enemy `i`, after the 24 platform draws. */
  function EnemyDraw(i: nat): nat { 3 * Platforms + i }

  /** The draw deciding the height of coin `i`, after the enemy draws. */
  function CoinDraw(levelNum: int, i: nat): nat { 3 * Platforms + EnemyCount(levelNum) + i }

  // ---------------------------------------------------------------------------
  // The layout, cell by cell

  /** Cell (`x`, `y`) of the `i`-th platform, `j` columns into its slot: a
      brick run `PlatformLift` rows above the ground, and possibly a question
      block over its second column. */
  function PlatformTile(rand: nat -> real, i: nat, j: int, y: int): Tile {
    if j == 1 && PlatformQuestion(rand, i) && y == GroundRow - PlatformLift(rand, i) - 1 then Question
    else if 0 <= j < PlatformLength(rand, i) && y == GroundRow - PlatformLift(rand, i) then Brick
    else Empty
  }

  /** The sky of a procedural level with its first `count` platforms placed. */
  function Sprinkled(rand: nat -> real, count: int, x: int, y: int): Tile {
    if SlotStart <= x && (x - SlotStart) / SlotWidth < count
    then PlatformTile(rand, (x - SlotStart) / SlotWidth, (x - SlotStart) % SlotWidth, y)
    else Empty
  }

  /** Level 1: brick runs at rows 14 and 12 with a question block in each of
      the first two. */
  function LevelOneSky(x: int, y: int): Tile {
    if (x == 12 && y == GroundRow - 3) || (x == 22 && y == GroundRow - 5) then Question
    else if (y == GroundRow - 3 && (10 <= x < 15 || 30 <= x < 35)) || (y == GroundRow - 5 && 20 <= x < 25)
    then Brick
    else Empty
  }

  /** Level 2: four brick runs at rows 13, 11 and 10, three of them holding a
      question block. */
  function LevelTwoSky(x: int, y: int): Tile {
    if (x == 10 && y == GroundRow - 4) || (x == 20 && y == GroundRow - 6) || (x == 40 && y == GroundRow - 7)
    then Question
    else if (y == GroundRow - 4 && (8 <= x < 12 || 28 <= x < 32)) || (y == GroundRow - 6 && 18 <= x < 24) ||
            (y == GroundRow - 7 && 38 <= x < 42)
    then Brick
    else Empty
  }

  /** The tile at column `x`, row `y` of level `levelNum`: three ground rows
      at the bottom and the level's platforms above. */
  function Picture(levelNum: int, rand: nat -> real, x: int, y: int): Tile {
    if y >= GroundRow then Ground
    else if levelNum == 1 then LevelOneSky(x, y)
    else if levelNum == 2 then LevelTwoSky(x, y)
    else Sprinkled(rand, Platforms, x, y)
  }

  function PictureGrid(levelNum: int, rand: nat -> real): seq<seq<Tile>> {
    seq(LevelHeight, y => seq(LevelWidth, x => Picture(levelNum, rand, x, y)))
  }

  function EnemiesOf(levelNum: int, rand: nat -> real): seq<EnemySpec> {
    if levelNum == 1 then
      [EnemySpec(200.0, Px(GroundRow - 1), Goomba), EnemySpec(400.0, Px(GroundRow - 1), Goomba),
       EnemySpec(600.0, Px(GroundRow - 1), Goomba), EnemySpec(800.0, Px(GroundRow - 6), Koopa)]
    else if levelNum == 2 then
      [EnemySpec(250.0, Px(GroundRow - 1), Goomba), EnemySpec(450.0, Px(GroundRow - 1), Goomba),
       EnemySpec(500.0, Px(GroundRow - 7), Koopa), EnemySpec(700.0, Px(GroundRow - 1), Goomba),
       EnemySpec(900.0, Px(GroundRow - 1), Koopa)]
    else
      seq(EnemyCount(levelNum), i requires 0 <= i => Foe(rand, i))
  }

  /** Enemy `i` of a procedural level: on the ground, 150 pixels after the
      previous one, a Koopa when its draw exceeds 0.6. */
  function Foe(rand: nat -> real, i: nat): EnemySpec {
    EnemySpec((200 + i * 150) as real, Px(GroundRow - 1), if rand(EnemyDraw(i)) > 0.6 then Koopa else Goomba)
  }

  function Coin(x: real, row: int): CollectibleSpec {
    CollectibleSpec(x, Px(row), Some("coin"))
  }

  function CoinsOf(levelNum: int, rand: nat -> real): seq<CollectibleSpec> {
    if levelNum == 1 then
      [Coin(350.0, GroundRow - 4), Coin(450.0, GroundRow - 6), Coin(550.0, GroundRow - 4)]
    else if levelNum == 2 then
      [Coin(300.0, GroundRow - 5), Coin(400.0, GroundRow - 7), Coin(500.0, GroundRow - 5),
       Coin(600.0, GroundRow - 5), Coin(800.0, GroundRow - 8)]
    else
      seq(10, i requires 0 <= i => Coin((300 + i * 120) as real, GroundRow - 4 - Draw(rand, CoinDraw(levelNum, i), 3)))
  }

  function PowerUpsOf(levelNum: int): seq<PowerUpSpec> {
    if levelNum == 1 then
      [PowerUpSpec(Px(12), Px(GroundRow - 4), Some(Mushroom)), PowerUpSpec(Px(22), Px(GroundRow - 6), Some(FireFlower))]
    else if levelNum == 2 then
      [PowerUpSpec(Px(10), Px(GroundRow - 5), Some(Mushroom)), PowerUpSpec(Px(20), Px(GroundRow - 7), Some(FireFlower))]
    else
      [PowerUpSpec(Px(15), Px(GroundRow - 4), Some(Mushroom))]
  }

  /** The description of level `levelNum`. */
  function Generated(levelNum: int, rand: nat -> real): LevelData {
    LevelData(LevelWidth, LevelHeight, PictureGrid(levelNum, rand),
              Some(50.0), Some(Px(GroundRow - 1)), Some(Px(LevelWidth - 2)),
              Some(EnemiesOf(levelNum, rand)), Some(CoinsOf(levelNum, rand)), Some(PowerUpsOf(levelNum)))
  }

  /** Every draw is a `Math.random()` value. */
  ghost predicate Uniform(rand: nat -> real) {
    forall k: nat :: 0.0 <= rand(k) < 1.0
  }

  // ---------------------------------------------------------------------------
  // Properties

  /** A generated grid is 50 by 20, its bottom three rows are ground, and the
      player starts at (50, 512) and finishes at x = 1536. */
  lemma GeneratedShape(levelNum: int, rand: nat -> real)
    ensures var d := Generated(levelNum, rand);
      WellFormed(d.Grid()) && d.width == 50 && d.height == 20 &&
      (forall x, y :: 0 <= x < 50 && 17 <= y < 20 ==> d.tiles[y][x] == Ground) &&
      d.startX == Some(50.0) && d.startY == Some(512.0) && d.endX == Some(1536.0)
  {
  }

  /** A draw of `Math.floor(Math.random() * n)` lies in [0, n). */
  lemma DrawRange(rand: nat -> real, k: nat, n: nat)
    requires 0.0 <= rand(k) < 1.0 && n > 0
    ensures 0 <= Draw(rand, k, n) < n
  {
    var u, m := rand(k), n as real;
    assert 0.0 <= u * m by {
      assert 0.0 <= u && 0.0 <= m;
    }
    assert u * m < m by {
      assert (1.0 - u) * m > 0.0;
    }
    assert Draw(rand, k, n) == (u * m).Floor;
  }

  /** A procedural platform lies 3 to 6 rows above the ground and is 3 to 5
      tiles long. */
  lemma PlatformRange(rand: nat -> real, i: nat)
    requires Uniform(rand)
    ensures 3 <= PlatformLift(rand, i) <= 6 && 3 <= PlatformLength(rand, i) <= 5
  {
    DrawRange(rand, 3 * i, 4);
    DrawRange(rand, 3 * i + 1, 3);
  }

  /** Column `x` lies in slot `i` at offset `j`. */
  lemma SlotOf(x: int, i: nat, j: int)
    requires 0 <= j < SlotWidth && x == SlotStart + SlotWidth * i + j
    ensures (x - SlotStart) / SlotWidth == i && (x - SlotStart) % SlotWidth == j
  {
  }

  /** Everything above the ground of any level is in rows 10 to 14: there is
      always head room over the ground and two clear rows at the top. */
  lemma SkyFitsRows(levelNum: int, rand: nat -> real, x: int, y: int)
    requires Uniform(rand) && 0 <= y < GroundRow
    requires Picture(levelNum, rand, x, y) != Empty
    ensures 10 <= y <= 14
  {
    if levelNum != 1 && levelNum != 2 {
      PlatformRange(rand, (x - SlotStart) / SlotWidth);
    }
  }

  /** The player's 32×32 box at the start lies in empty cells and stands on
      the ground: it begins neither inside a block nor in the air. */
  lemma StartStandsClear(levelNum: int, rand: nat -> real, cx: int, cy: int)
    requires Uniform(rand)
    requires CheckCollision(Rect(50.0, Px(GroundRow - 1), 32.0, 32.0), CellRect(cx, cy))
    ensures cy == GroundRow - 1 && (cx == 1 || cx == 2)
    ensures Picture(levelNum, rand, cx, cy) == Empty
    ensures Picture(levelNum, rand, cx, GroundRow) == Ground
  {
  }

  /** The number of enemies and coins each level places. */
  lemma PopulationCounts(levelNum: int, rand: nat -> real)
    ensures |EnemiesOf(levelNum, rand)| == (if levelNum == 1 then 4 else if levelNum == 2 then 5 else EnemyCount(levelNum))
    ensures |CoinsOf(levelNum, rand)| == (if levelNum == 1 then 3 else if levelNum == 2 then 5 else 10)
    ensures |PowerUpsOf(levelNum)| == (if levelNum == 1 || levelNum == 2 then 2 else 1)
  {
  }

  // ---------------------------------------------------------------------------
  // The generator

  /** A grid of `LevelHeight` rows of `LevelWidth` tiles. */
  predicate Sized(t: seq<seq<Tile>>) {
    |t| == LevelHeight && forall y :: 0 <= y < LevelHeight ==> |t[y]| == LevelWidth
  }

  /** The all-empty grid, built row by row. */
  method Blank() returns (t: seq<seq<Tile>>)
    ensures Sized(t) && forall y, x :: 0 <= y < LevelHeight && 0 <= x < LevelWidth ==> t[y][x] == Empty
  {
    t := [];
    for y := 0 to LevelHeight
      invariant |t| == y
      invariant forall r :: 0 <= r < y ==> |t[r]| == LevelWidth
      invariant forall r, x :: 0 <= r < y && 0 <= x < LevelWidth ==> t[r][x] == Empty
    {
      var row: seq<Tile> := [];
      for x := 0 to LevelWidth
        invariant |row| == x && forall c :: 0 <= c < x ==> row[c] == Empty
      {
        row := row + [Empty];
      }
      t := t + [row];
    }
  }

  /** The three ground rows laid column by column. */
  method LayGround(t0: seq<seq<Tile>>) returns (t: seq<seq<Tile>>)
    requires Sized(t0)
    ensures Sized(t)
    ensures forall y, x :: 0 <= y < LevelHeight && 0 <= x < LevelWidth ==>
      t[y][x] == if y >= GroundRow then Ground else t0[y][x]
  {
    t := t0;
    for x := 0 to LevelWidth
      invariant Sized(t)
      invariant forall y, c :: 0 <= y < LevelHeight && 0 <= c < LevelWidth ==>
        t[y][c] == if y >= GroundRow && c < x then Ground else t0[y][c]
    {
      t := t[GroundRow := t[GroundRow][x := Ground]];
      t := t[GroundRow + 1 := t[GroundRow + 1][x := Ground]];
      t := t[GroundRow + 2 := t[GroundRow + 2][x := Ground]];
    }
  }

  /** Columns `lo` to `hi - 1` of row `row` set to `v`. */
  method PaintRun(t0: seq<seq<Tile>>, row: int, lo: int, hi: int, v: Tile) returns (t: seq<seq<Tile>>)
    requires Sized(t0) && 0 <= row < LevelHeight && 0 <= lo <= hi <= LevelWidth
    ensures Sized(t)
    ensures forall y, x :: 0 <= y < LevelHeight && 0 <= x < LevelWidth ==>
      t[y][x] == if y == row && lo <= x < hi then v else t0[y][x]
  {
    t := t0;
    for x := lo to hi
      invariant Sized(t)
      invariant forall y, c :: 0 <= y < LevelHeight && 0 <= c < LevelWidth ==>
        t[y][c] == if y == row && lo <= c < x then v else t0[y][c]
    {
      t := t[row := t[row][x := v]];
    }
  }

  /** One cell set to `v`. */
  function Put(t: seq<seq<Tile>>, x: int, y: int, v: Tile): (r: seq<seq<Tile>>)
    requires Sized(t) && 0 <= x < LevelWidth && 0 <= y < LevelHeight
    ensures Sized(r)
    ensures forall b, a :: 0 <= b < LevelHeight && 0 <= a < LevelWidth ==>
      r[b][a] == if b == y && a == x then v else t[b][a]
  {
    t[y := t[y][x := v]]
  }

  /** The sky of a procedural level after `count` platforms. */
  predicate Holds(t: seq<seq<Tile>>, rand: nat -> real, count: int)
    requires Sized(t)
  {
    forall y, x :: 0 <= y < LevelHeight && 0 <= x < LevelWidth ==>
      t[y][x] == if y >= GroundRow then Ground else Sprinkled(rand, count, x, y)
  }

  /** The bricks of platform `i`, clipped at the right edge, then its
      question block if the draw asks for one. */
  method RaisePlatform(t0: seq<seq<Tile>>, rand: nat -> real, i: nat) returns (t: seq<seq<Tile>>)
    requires Uniform(rand) && i < Platforms && Sized(t0) && Holds(t0, rand, i)
    ensures Sized(t) && Holds(t, rand, i + 1)
  {
    var x := SlotStart + i * SlotWidth;
    var lift := 3 + (rand(3 * i) * 4.0).Floor;
    var len := 3 + (rand(3 * i + 1) * 3.0).Floor;
    PlatformRange(rand, i);
    assert lift == PlatformLift(rand, i) && len == PlatformLength(rand, i);
    var row := GroundRow - lift;
    t := t0;
    for j := 0 to len
      invariant Sized(t)
      invariant forall y, c :: 0 <= y < LevelHeight && 0 <= c < LevelWidth ==>
        t[y][c] == if y == row && x <= c < x + j then Brick else t0[y][c]
    {
      if x + j < LevelWidth {
        t := Put(t, x + j, row, Brick);
      }
    }
    if rand(3 * i + 2) > 0.5 && x + 1 < LevelWidth {
      t := Put(t, x + 1, row - 1, Question);
    }
    forall y, c | 0 <= y < LevelHeight && 0 <= c < LevelWidth
      ensures t[y][c] == if y >= GroundRow then Ground else Sprinkled(rand, i + 1, c, y)
    {
      if x <= c < x + SlotWidth {
        SlotOf(c, i, c - x);
      } else if SlotStart <= c {
        SlotOrder(c, i);
      }
    }
  }

  /** A column outside slot `i` belongs to an earlier slot exactly when it
      lies left of it. */
  lemma SlotOrder(c: int, i: nat)
    requires SlotStart <= c && !(SlotStart + i * SlotWidth <= c < SlotStart + i * SlotWidth + SlotWidth)
    ensures ((c - SlotStart) / SlotWidth < i <==> c < SlotStart + i * SlotWidth)
    ensures ((c - SlotStart) / SlotWidth < i + 1 <==> c < SlotStart + i * SlotWidth)
  {
  }

  /** A grid that shows the picture cell by cell is the picture. */
  lemma ShowsPicture(t: seq<seq<Tile>>, levelNum: int, rand: nat -> real)
    requires Sized(t)
    requires forall y, x :: 0 <= y < LevelHeight && 0 <= x < LevelWidth ==> t[y][x] == Picture(levelNum, rand, x, y)
    ensures t == PictureGrid(levelNum, rand)
  {
    var p := PictureGrid(levelNum, rand);
    forall y | 0 <= y < LevelHeight
      ensures t[y] == p[y]
    {
    }
  }

  /** `generateLevel(levelNum)`, with the random draws taken from `rand`. */
  method GenerateLevel(levelNum: int, rand: nat -> real) returns (d: LevelData)
    requires Uniform(rand)
    ensures d == Generated(levelNum, rand)
  {
    var tiles := Blank();
    tiles := LayGround(tiles);
    if levelNum == 1 {
      tiles := PaintRun(tiles, GroundRow - 3, 10, 15, Brick);
      tiles := PaintRun(tiles, GroundRow - 5, 20, 25, Brick);
      tiles := PaintRun(tiles, GroundRow - 3, 30, 35, Brick);
      tiles := Put(tiles, 12, GroundRow - 3, Question);
      tiles := Put(tiles, 22, GroundRow - 5, Question);
      ShowsPicture(tiles, levelNum, rand);
      d := LevelData(LevelWidth, LevelHeight, tiles, Some(50.0), Some(Px(GroundRow - 1)), Some(Px(LevelWidth - 2)),
                     Some(EnemiesOf(1, rand)), Some(CoinsOf(1, rand)), Some(PowerUpsOf(1)));
    } else if levelNum == 2 {
      tiles := PaintRun(tiles, GroundRow - 4, 8, 12, Brick);
      tiles := PaintRun(tiles, GroundRow - 6, 18, 24, Brick);
      tiles := PaintRun(tiles, GroundRow - 4, 28, 32, Brick);
      tiles := PaintRun(tiles, GroundRow - 7, 38, 42, Brick);
      tiles := Put(tiles, 10, GroundRow - 4, Question);
      tiles := Put(tiles, 20, GroundRow - 6, Question);
      tiles := Put(tiles, 40, GroundRow - 7, Question);
      ShowsPicture(tiles, levelNum, rand);
      d := LevelData(LevelWidth, LevelHeight, tiles, Some(50.0), Some(Px(GroundRow - 1)), Some(Px(LevelWidth - 2)),
                     Some(EnemiesOf(2, rand)), Some(CoinsOf(2, rand)), Some(PowerUpsOf(2)));
    } else {
      for i := 0 to Platforms
        invariant Sized(tiles) && Holds(tiles, rand, i)
      {
        tiles := RaisePlatform(tiles, rand, i);
      }
      ShowsPicture(tiles, levelNum, rand);
      var enemies := PlaceEnemies(levelNum, rand);
      var coins := PlaceCoins(levelNum, rand);
      d := LevelData(LevelWidth, LevelHeight, tiles, Some(50.0), Some(Px(GroundRow - 1)), Some(Px(LevelWidth - 2)),
                     Some(enemies), Some(coins), Some([PowerUpSpec(Px(15), Px(GroundRow - 4), Some(Mushroom))]));
    }
  }

  /** The enemies of a procedural level, one per 150 pixels from x = 200. */
  method PlaceEnemies(levelNum: int, rand: nat -> real) returns (es: seq<EnemySpec>)
    requires levelNum != 1 && levelNum != 2
    ensures es == EnemiesOf(levelNum, rand)
  {
    es := [];
    var i := 0;
    while i < 8 + levelNum
      invariant 0 <= i && (i <= 8 + levelNum || i == 0)
      invariant |es| == i && forall k :: 0 <= k < i ==> es[k] == Foe(rand, k)
    {
      es := es + [EnemySpec((200 + i * 150) as real, Px(GroundRow - 1),
                            if rand(3 * Platforms + i) > 0.6 then Koopa else Goomba)];
      i := i + 1;
    }
    assert |es| == EnemyCount(levelNum);
  }

  /** The ten coins of a procedural level, one per 120 pixels from x = 300. */
  method PlaceCoins(levelNum: int, rand: nat -> real) returns (cs: seq<CollectibleSpec>)
    requires levelNum != 1 && levelNum != 2
    ensures cs == CoinsOf(levelNum, rand)
  {
    cs := [];
    for i := 0 to 10
      invariant cs == seq(i, k requires 0 <= k => Coin((300 + k * 120) as real, GroundRow - 4 - Draw(rand, CoinDraw(levelNum, k), 3)))
    {
      var k := 3 * Platforms + EnemyCount(levelNum) + i;
      cs := cs + [CollectibleSpec((300 + i * 120) as real,
                                  ((GroundRow - 4 - (rand(k) * 3.0).Floor) * TileSize) as real, Some("coin"))];
    }
  }
}
