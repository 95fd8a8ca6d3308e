/** The session (js/game.js): the menu / playing / paused / game-over state
    machine, score, lives and coins, the camera, the rules between the player,
    the enemies, the pickups and the fireballs in `update`, and the
    fixed-step accumulator of `gameLoop`. */
module Games {
  import opened Wrappers
  import opened Physics
  import opened Tiles
  import opened Sweep
  import opened Enemies
  import opened Players
  import opened Levels
  import opened Layouts

  const ScreenWidth: real := 800.0
  const StartLives: int := 3
  const CoinPoints: int := 100
  const PowerUpPoints: int := 500
  /** Vertical velocity of the player bouncing off a stomped enemy. */
  const StompBounce: real := -8.0
  /** Vertical velocity of a fireball bouncing off the ground. */
  const BounceSpeed: real := -5.0
  const MaxBounces: int := 3
  /** The fixed step of one `update`, in the frame units the accumulator is
      measured in (one unit per 16.67 ms), not in seconds: a frame of one unit
      runs 60 updates. */
  const FixedDeltaTime: real := 1.0 / 60.0
  /** Milliseconds per frame unit of the measured delta, and its cap. */
  const FrameMillis: real := 16.67
  const MaxDelta: real := 2.0

  datatype GameState = Menu | Playing | Paused | Over

  /** The session fields of the game object. */
  datatype Session = Session(state: GameState, score: int, lives: int, coins: int,
                             currentLevel: int, highScore: int, cameraX: real)

  /** Everything one `update` reads and writes. */
  datatype World = World(s: Session, p: PlayerState, lv: LevelState)

  /** The random draws of one tick: the shell-exit direction of each enemy, by
      index, and the stream a newly generated level draws from. */
  datatype Dice = Dice(exits: nat -> bool, rand: nat -> real)

  predicate Sound(w: World) {
    WellFormed(w.lv.grid)
  }

  // ---------------------------------------------------------------------------
  // Session transitions

  /** `gameOver`: the game ends and the best score is kept. */
  function AfterGameOver(s: Session): Session {
    s.(state := Over, highScore := if s.score > s.highScore then s.score else s.highScore)
  }

  /** `playerDie`: one life less; the game ends at none left, otherwise the
      player respawns and the camera returns to the level start. */
  function AfterDeath(w: World): World {
    var s := w.s.(lives := w.s.lives - 1);
    if s.lives <= 0 then w.(s := AfterGameOver(s))
    else World(s.(cameraX := 0.0), Respawn(w.p), w.lv)
  }

  /** `loadLevel(n)`: a fresh level and a fresh player at its start. */
  function AfterLoad(s: Session, n: int, rand: nat -> real): World {
    var d := Generated(n, rand);
    World(s.(cameraX := 0.0), Start(d.startX.value, d.startY.value), Build(d))
  }

  function AfterNextLevel(w: World, rand: nat -> real): World {
    AfterLoad(w.s.(currentLevel := w.s.currentLevel + 1), w.s.currentLevel + 1, rand)
  }

  /** `startGame` and `restartGame`: a new game at level 1. */
  function AfterStart(s: Session, rand: nat -> real): World {
    AfterLoad(s.(state := Playing, score := 0, lives := StartLives, coins := 0, currentLevel := 1), 1, rand)
  }

  function AfterToggle(s: Session): Session {
    if s.state == Playing then s.(state := Paused)
    else if s.state == Paused then s.(state := Playing)
    else s
  }

  // ---------------------------------------------------------------------------
  // The stages of `update`

  /** The camera centred on the player, kept within the level. */
  function CameraFor(px: real, g: Grid): (r: real)
    ensures PixelWidth(g) >= ScreenWidth ==> 0.0 <= r <= PixelWidth(g) - ScreenWidth
    ensures PixelWidth(g) < ScreenWidth ==> r == PixelWidth(g) - ScreenWidth
    ensures ScreenWidth / 2.0 <= px <= PixelWidth(g) - ScreenWidth / 2.0 ==> r == px - ScreenWidth / 2.0
  {
    Min(Max(0.0, px - ScreenWidth / 2.0), PixelWidth(g) - ScreenWidth)
  }

  function Follow(w: World): World {
    w.(s := w.s.(cameraX := CameraFor(w.p.x, w.lv.grid)))
  }

  /** Any number of coins taken in one tick count as one coin and 100 points. */
  function PickCoins(w: World): (r: World)
    ensures r.p == w.p && r.lv == w.lv.(collectibles := r.lv.collectibles)
  {
    var b := w.p.Bounds();
    var w1 := w.(lv := w.lv.(collectibles := Collect(w.lv.collectibles, b)));
    if Last(CoinHits(w.lv.collectibles, b)).Some?
    then w1.(s := w1.s.(coins := w1.s.coins + 1, score := w1.s.score + CoinPoints))
    else w1
  }

  /** The last power-up taken is offered to the player; 500 points if accepted. */
  function PickPowerUp(w: World): (r: World)
    ensures r.lv == w.lv.(powerUps := r.lv.powerUps)
  {
    var b := w.p.Bounds();
    var ps := Gather(w.lv.powerUps, b);
    var w1 := w.(lv := w.lv.(powerUps := ps));
    match Last(PowerUpHits(w.lv.powerUps, b))
    case None => w1
    case Some(j) =>
      var (p, ok) := Empower(w1.p, ps[j].kind);
      w1.(p := p, s := if ok then w1.s.(score := w1.s.score + PowerUpPoints) else w1.s)
  }

  /** The player against enemy `i`: a stomp needs a `Top` contact while
      falling; otherwise, unless invulnerable, the enemy's side reaction
      decides between damage (and maybe death) and points. */
  function Touch(w: World, i: nat): (r: World)
    requires i < |w.lv.enemies|
    ensures r.lv == w.lv.(enemies := r.lv.enemies) && |r.lv.enemies| == |w.lv.enemies|
  {
    var e := w.lv.enemies[i];
    var pb, eb := w.p.Bounds(), e.Bounds();
    if !e.active || e.dead || !CheckCollision(pb, eb) then w
    else if GetCollisionSide(pb, eb) == Top && w.p.velocityY > 0.0 then Stomped(w, i)
    else if !w.p.invulnerable then
      var (e1, signal) := SideOutcome(e);
      var w1 := w.(lv := w.lv.(enemies := w.lv.enemies[i := e1]));
      if signal == -1 then
        var (p, dies) := Damage(w1.p);
        if dies then AfterDeath(w1.(p := p)) else w1.(p := p)
      else if signal > 0 then w1.(s := w1.s.(score := w1.s.score + signal))
      else w1
    else w
  }

  /** The stomp branch of `Touch`: the enemy's `hitFromAbove`, and for a
      hit that scores, its points and the player's bounce. */
  function Stomped(w: World, i: nat): (r: World)
    requires i < |w.lv.enemies|
    ensures r.lv == w.lv.(enemies := r.lv.enemies) && |r.lv.enemies| == |w.lv.enemies|
  {
    var (e1, points) := StompOutcome(w.lv.enemies[i]);
    var w1 := w.(lv := w.lv.(enemies := w.lv.enemies[i := e1]));
    if points > 0 then w1.(s := w1.s.(score := w1.s.score + points), p := w1.p.(velocityY := StompBounce))
    else w1
  }

  /** The first `n` enemies in turn. */
  function Touches(w: World, n: nat): (r: World)
    requires n <= |w.lv.enemies|
    ensures r.lv == w.lv.(enemies := r.lv.enemies) && |r.lv.enemies| == |w.lv.enemies|
  {
    if n == 0 then w else Touch(Touches(w, n - 1), n - 1)
  }

  /** Fireball `j` against enemy `i`: a hit counts as a stomp and puts the
      fireball out, which does not stop it hitting the enemies after. */
  function Burn(w: World, j: nat, i: nat): (r: World)
    requires j < |w.p.fireballs| && i < |w.lv.enemies|
    ensures r.lv == w.lv.(enemies := r.lv.enemies) && |r.lv.enemies| == |w.lv.enemies|
    ensures r.p == w.p.(fireballs := r.p.fireballs) && |r.p.fireballs| == |w.p.fireballs|
    ensures r.s == w.s.(score := r.s.score)
  {
    var f, e := w.p.fireballs[j], w.lv.enemies[i];
    if !e.active || e.dead || !CheckCollision(f.Bounds(), e.Bounds()) then w
    else
      var (e1, points) := StompOutcome(e);
      World(if points > 0 then w.s.(score := w.s.score + points) else w.s,
            w.p.(fireballs := w.p.fireballs[j := f.(active := false)]),
            w.lv.(enemies := w.lv.enemies[i := e1]))
  }

  /** Fireball `j` against the first `n` enemies. */
  function BurnRow(w: World, j: nat, n: nat): (r: World)
    requires j < |w.p.fireballs| && n <= |w.lv.enemies|
    ensures r.lv == w.lv.(enemies := r.lv.enemies) && |r.lv.enemies| == |w.lv.enemies|
    ensures r.p == w.p.(fireballs := r.p.fireballs) && |r.p.fireballs| == |w.p.fireballs|
    ensures r.s == w.s.(score := r.s.score)
  {
    if n == 0 then w else Burn(BurnRow(w, j, n - 1), j, n - 1)
  }

  /** The first `m` fireballs in turn, each one only if it is active when its
      turn comes. */
  function Burns(w: World, m: nat): (r: World)
    requires m <= |w.p.fireballs|
    ensures r.lv == w.lv.(enemies := r.lv.enemies) && |r.lv.enemies| == |w.lv.enemies|
    ensures r.p == w.p.(fireballs := r.p.fireballs) && |r.p.fireballs| == |w.p.fireballs|
    ensures r.s == w.s.(score := r.s.score)
  {
    if m == 0 then w
    else
      var v := Burns(w, m - 1);
      if !v.p.fireballs[m - 1].active then v else BurnRow(v, m - 1, |v.lv.enemies|)
  }

  /** A fireball whose top-left cell is a solid on-grid tile goes out; a
      falling one bounces off a solid tile under its bottom edge, at most
      three times. Inactive fireballs are treated alike. */
  function ScorchOne(f: FireballState, g: Grid): FireballState
    requires WellFormed(g)
  {
    var tx, ty := TileOf(f.x), TileOf(f.y);
    var f1 := if InBounds(g, tx, ty) && SolidAt(GetTile(g, tx, ty)) then f.(active := false) else f;
    if f1.velocityY > 0.0 && f1.bounceCount < MaxBounces then
      var groundY := TileOf(f1.y + FireballSize);
      if groundY < g.height && SolidAt(GetTile(g, tx, groundY))
      then f1.(velocityY := BounceSpeed, bounceCount := f1.bounceCount + 1)
      else f1
    else f1
  }

  function Scorch(w: World): World
    requires Sound(w)
  {
    var fs := w.p.fireballs;
    w.(p := w.p.(fireballs := seq(|fs|, j requires 0 <= j < |fs| => ScorchOne(fs[j], w.lv.grid))))
  }

  /** The player's and the level's own updates. */
  function Stepped(w: World, keys: Keys, dt: real, exits: nat -> bool): (r: World)
    requires Sound(w)
    ensures r.s == w.s && r.lv.grid == w.lv.grid
  {
    w.(p := Tick(w.p, keys, w.lv.grid, dt), lv := LevelTick(w.lv, exits))
  }

  /** The camera and the pickups. */
  function Picked(w: World): (r: World)
    ensures r.lv.grid == w.lv.grid
  {
    PickPowerUp(PickCoins(Follow(w)))
  }

  /** The first half of a playing `update`. */
  function Moved(w: World, keys: Keys, dt: real, exits: nat -> bool): (r: World)
    requires Sound(w)
    ensures r.lv.grid == w.lv.grid
  {
    Picked(Stepped(w, keys, dt, exits))
  }

  /** The fights of a playing `update`: the enemy contacts and the fireballs. */
  function Fought(w: World): (r: World)
    requires Sound(w)
    ensures r.lv.grid == w.lv.grid
  {
    Scorch(Burns(Touches(w, |w.lv.enemies|), |Touches(w, |w.lv.enemies|).p.fireballs|))
  }

  /** The fall check, then the end-of-level check. */
  function Judged(w: World, rand: nat -> real): World {
    var w1 := if w.p.y > PixelHeight(w.lv.grid) then AfterDeath(w) else w;
    if w1.p.x >= w1.lv.endX then AfterNextLevel(w1, rand) else w1
  }

  /** `update`: nothing unless playing; otherwise the player, the level, the
      camera, the pickups, the enemy contacts, the fireballs, the fall check
      and the end-of-level check, in this order. */
  function GameTick(w: World, keys: Keys, dt: real, dice: Dice): World
    requires Sound(w)
  {
    if w.s.state != Playing then w
    else Judged(Fought(Moved(w, keys, dt, dice.exits)), dice.rand)
  }

  /** Each world of `ws` is one fixed step after the one before it, step `i`
      drawing `dice(i)`. */
  ghost predicate Chained(ws: seq<World>, keys: Keys, dice: nat -> Dice) {
    forall i :: 0 <= i < |ws| - 1 ==>
      Sound(ws[i]) && ws[i + 1] == GameTick(ws[i], keys, FixedDeltaTime, dice(i))
  }

  /** Extending a chain by the step after its last world keeps it a chain. */
  lemma ChainedSnoc(ws: seq<World>, keys: Keys, dice: nat -> Dice, u: World)
    requires ws != [] && Chained(ws, keys, dice) && Sound(ws[|ws| - 1])
    requires u == GameTick(ws[|ws| - 1], keys, FixedDeltaTime, dice(|ws| - 1))
    ensures Chained(ws + [u], keys, dice) && (ws + [u])[0] == ws[0] && Sound(u)
  {
    TickSound(ws[|ws| - 1], keys, FixedDeltaTime, dice(|ws| - 1));
    var us := ws + [u];
    forall i | 0 <= i < |us| - 1
      ensures Sound(us[i]) && us[i + 1] == GameTick(us[i], keys, FixedDeltaTime, dice(i))
    {
      assert us[i] == ws[i];
    }
  }

  /** There is a run of `k` fixed steps from every sound world. */
  lemma {:induction false} ChainFrom(w: World, keys: Keys, dice: nat -> Dice, k: nat) returns (ws: seq<World>)
    requires Sound(w)
    ensures |ws| == k + 1 && ws[0] == w && Sound(ws[k]) && Chained(ws, keys, dice)
  {
    if k == 0 {
      ws := [w];
    } else {
      var t := ChainFrom(w, keys, dice, k - 1);
      var u := GameTick(t[k - 1], keys, FixedDeltaTime, dice(k - 1));
      ChainedSnoc(t, keys, dice, u);
      ws := t + [u];
    }
  }

  /** A run of fixed steps is determined by its first world: two chains that
      start alike agree at every index both reach. */
  lemma ChainedAgree(ws: seq<World>, vs: seq<World>, keys: Keys, dice: nat -> Dice, i: nat)
    requires Chained(ws, keys, dice) && Chained(vs, keys, dice)
    requires ws != [] && vs != [] && ws[0] == vs[0] && i < |ws| && i < |vs|
    ensures ws[i] == vs[i]
  {
    forall j | 0 <= j < i && ws[j] == vs[j]
      ensures ws[j + 1] == vs[j + 1]
    {
      assert ws[j + 1] == GameTick(ws[j], keys, FixedDeltaTime, dice(j));
      assert vs[j + 1] == GameTick(vs[j], keys, FixedDeltaTime, dice(j));
    }
    AgreeFrom(ws, vs, i);
  }

  /** Two sequences that start alike, and in which agreement at one index
      carries over to the next, agree up to index `i`. */
  lemma {:induction false} AgreeFrom<T>(ws: seq<T>, vs: seq<T>, i: nat)
    requires i < |ws| && i < |vs| && ws[0] == vs[0]
    requires forall j :: 0 <= j < i && ws[j] == vs[j] ==> ws[j + 1] == vs[j + 1]
    ensures ws[i] == vs[i]
  {
    if i > 0 {
      AgreeFrom(ws, vs, i - 1);
    }
  }

  // ---------------------------------------------------------------------------
  // Properties

  /** A loaded level has a well-formed grid. */
  lemma LoadSound(s: Session, n: int, rand: nat -> real)
    ensures Sound(AfterLoad(s, n, rand))
  {
    GeneratedShape(n, rand);
  }

  /** Every stage keeps the grid well formed, so a tick does too. */
  lemma TickSound(w: World, keys: Keys, dt: real, dice: Dice)
    requires Sound(w)
    ensures Sound(GameTick(w, keys, dt, dice))
  {
    if w.s.state == Playing {
      var w5 := Fought(Moved(w, keys, dt, dice.exits));
      var w6 := if w5.p.y > PixelHeight(w5.lv.grid) then AfterDeath(w5) else w5;
      LoadSound(w6.s.(currentLevel := w6.s.currentLevel + 1), w6.s.currentLevel + 1, dice.rand);
    }
  }

  /** How the session may change within a tick: the score, the coins, the
      best score and the level number only grow, lives only shrink, and the
      state either stays or becomes game over. */
  predicate Advances(a: Session, b: Session) {
    (b.state == a.state || b.state == Over) &&
    b.score >= a.score && b.coins >= a.coins && b.highScore >= a.highScore &&
    b.currentLevel >= a.currentLevel && b.lives <= a.lives
  }

  lemma AdvancesTransitive(a: Session, b: Session, c: Session)
    requires Advances(a, b) && Advances(b, c)
    ensures Advances(a, c)
  {
  }

  /** `playerDie` takes exactly one life. With none left the game is over,
      the best score takes the score if higher, and nothing else changes;
      otherwise the player is respawned at the start and the camera reset. */
  lemma DeathTable(w: World)
    ensures var r := AfterDeath(w);
      r.s.lives == w.s.lives - 1 && r.lv == w.lv && Advances(w.s, r.s) && r.s.score == w.s.score &&
      (w.s.lives - 1 <= 0 ==>
         r.p == w.p && r.s.state == Over && r.s.cameraX == w.s.cameraX &&
         r.s.highScore == (if w.s.score > w.s.highScore then w.s.score else w.s.highScore) &&
         r.s.highScore >= r.s.score) &&
      (w.s.lives - 1 > 0 ==>
         r.p == Respawn(w.p) && r.s.state == w.s.state && r.s.cameraX == 0.0 &&
         r.s.highScore == w.s.highScore)
  {
  }

  /** The player against one enemy: a dead or inactive enemy, or one not
      touched, changes nothing; a stomp (a `Top` contact while falling) scores
      100 and bounces the player unless it only kicks an idle shell; a side
      contact while vulnerable removes a kicked shell for 200, hurts the
      player on a walking enemy and leaves an idle shell alone; an
      invulnerable player passes through. */
  lemma TouchOutcomes(w: World, i: nat)
    requires i < |w.lv.enemies|
    ensures var e, r := w.lv.enemies[i], Touch(w, i);
      var pb, eb := w.p.Bounds(), e.Bounds();
      var stomp := GetCollisionSide(pb, eb) == Top && w.p.velocityY > 0.0;
      (!e.active || e.dead || !CheckCollision(pb, eb) ==> r == w) &&
      (e.active && !e.dead && CheckCollision(pb, eb) ==>
         (stomp && !(e.kind == Koopa && e.inShell && !e.kicked) ==>
            r.s == w.s.(score := w.s.score + 100) && r.p == w.p.(velocityY := StompBounce) &&
            r.lv.enemies == w.lv.enemies[i := StompOutcome(e).0]) &&
         (stomp && e.kind == Koopa && e.inShell && !e.kicked ==>
            r.s == w.s && r.p == w.p && r.lv.enemies[i].kicked && r.lv.enemies[i].velocityX == KickSpeed) &&
         (!stomp && w.p.invulnerable ==> r == w) &&
         (!stomp && !w.p.invulnerable && e.kind == Koopa && e.inShell && e.kicked ==>
            r.s == w.s.(score := w.s.score + 200) && r.p == w.p &&
            r.lv.enemies == w.lv.enemies[i := e.(active := false)]) &&
         (!stomp && !w.p.invulnerable && e.inShell && !e.kicked ==> r == w) &&
         (!stomp && !w.p.invulnerable && !e.inShell ==>
            r.lv == w.lv &&
            (if Damage(w.p).1 then r == AfterDeath(w) else r == w.(p := Damage(w.p).0))))
  {
    var e := w.lv.enemies[i];
    StompTable(e);
    SideTable(e);
    assert w.lv.enemies[i := e] == w.lv.enemies;
    DamageTable(w.p);
  }

  lemma TouchAdvances(w: World, i: nat)
    requires i < |w.lv.enemies|
    ensures Advances(w.s, Touch(w, i).s)
  {
    StompTable(w.lv.enemies[i]);
  }

  lemma {:induction false} TouchesAdvance(w: World, n: nat)
    requires n <= |w.lv.enemies|
    ensures Advances(w.s, Touches(w, n).s)
  {
    if n > 0 {
      TouchesAdvance(w, n - 1);
      var v := Touches(w, n - 1);
      TouchAdvances(v, n - 1);
      AdvancesTransitive(w.s, v.s, Touch(v, n - 1).s);
    }
  }

  /** Whether fireball `j` hits enemy `i`. */
  predicate Scores(w: World, j: nat, i: nat)
    requires j < |w.p.fireballs| && i < |w.lv.enemies|
  {
    var e := w.lv.enemies[i];
    e.active && !e.dead && CheckCollision(w.p.fireballs[j].Bounds(), e.Bounds())
  }

  /** The points fireball `j` earns against the first `n` enemies: the
      `hitFromAbove` points of every live enemy it overlaps. */
  function HitPoints(w: World, j: nat, n: nat): (r: int)
    requires j < |w.p.fireballs| && n <= |w.lv.enemies|
    ensures 0 <= r <= 100 * n
  {
    if n == 0 then 0
    else HitPoints(w, j, n - 1) + (if Scores(w, j, n - 1) then StompOutcome(w.lv.enemies[n - 1]).1 else 0)
  }

  /** One fireball against the first `n` enemies: every live enemy it
      overlaps is hit, even after the first hit has put the fireball out;
      the fireball goes out exactly when one was hit, nothing else about
      it changes, and the score rises by exactly the points of the hits. */
  lemma {:induction false} BurnRowExactly(w: World, j: nat, n: nat)
    requires j < |w.p.fireballs| && n <= |w.lv.enemies|
    ensures var r := BurnRow(w, j, n);
      (forall i :: 0 <= i < |w.lv.enemies| ==>
         r.lv.enemies[i] == if i < n && Scores(w, j, i) then StompOutcome(w.lv.enemies[i]).0 else w.lv.enemies[i]) &&
      r.p.fireballs == w.p.fireballs[j := w.p.fireballs[j].(active := r.p.fireballs[j].active)] &&
      (r.p.fireballs[j].active <==> w.p.fireballs[j].active && forall i :: 0 <= i < n ==> !Scores(w, j, i)) &&
      r.s.score == w.s.score + HitPoints(w, j, n)
  {
    if n > 0 {
      BurnRowExactly(w, j, n - 1);
      var v := BurnRow(w, j, n - 1);
      assert v.lv.enemies[n - 1] == w.lv.enemies[n - 1];
      assert v.p.fireballs[j].Bounds() == w.p.fireballs[j].Bounds();
      assert Scores(v, j, n - 1) == Scores(w, j, n - 1);
      StompTable(w.lv.enemies[n - 1]);
    }
  }

  lemma {:induction false} BurnsAdvance(w: World, m: nat)
    requires m <= |w.p.fireballs|
    ensures Burns(w, m).s.score >= w.s.score
  {
    if m > 0 {
      BurnsAdvance(w, m - 1);
      var v := Burns(w, m - 1);
      if v.p.fireballs[m - 1].active {
        BurnRowExactly(v, m - 1, |v.lv.enemies|);
      }
    }
  }

  /** Any number of coins taken in one tick give one coin and 100 points;
      none taken, no change; the coins taken are the touched uncollected ones. */
  lemma CoinTable(w: World)
    ensures var r, b := PickCoins(w), w.p.Bounds();
      var taken := exists i :: 0 <= i < |w.lv.collectibles| && Takes(w.lv.collectibles[i], b);
      r.lv.collectibles == Collect(w.lv.collectibles, b) &&
      (taken ==> r.s == w.s.(coins := w.s.coins + 1, score := w.s.score + CoinPoints)) &&
      (!taken ==> r.s == w.s)
  {
    var b := w.p.Bounds();
    var hits := CoinHits(w.lv.collectibles, b);
    LastExactly(hits);
    assert forall i :: 0 <= i < |hits| ==> hits[i] == Takes(w.lv.collectibles[i], b);
  }

  /** The power-up step scores 500 exactly when a live power-up was touched
      and the player accepted the last such one. */
  lemma PowerUpTable(w: World)
    ensures var r, b := PickPowerUp(w), w.p.Bounds();
      var hit := Last(PowerUpHits(w.lv.powerUps, b));
      r.lv.powerUps == Gather(w.lv.powerUps, b) &&
      (hit.None? <==> forall i :: 0 <= i < |w.lv.powerUps| ==> !Grabs(w.lv.powerUps[i], b)) &&
      (hit.None? ==> r.s == w.s && r.p == w.p) &&
      (hit.Some? ==>
         Grabs(w.lv.powerUps[hit.value], b) &&
         var (p, ok) := Empower(w.p, w.lv.powerUps[hit.value].kind);
         r.p == p && r.s == (if ok then w.s.(score := w.s.score + PowerUpPoints) else w.s))
  {
    var b := w.p.Bounds();
    var hits := PowerUpHits(w.lv.powerUps, b);
    LastExactly(hits);
    assert forall i :: 0 <= i < |hits| ==> hits[i] == Grabs(w.lv.powerUps[i], b);
  }

  lemma MovedAdvances(w: World, keys: Keys, dt: real, exits: nat -> bool)
    requires Sound(w)
    ensures Advances(w.s, Moved(w, keys, dt, exits).s)
  {
    var w2 := Follow(Stepped(w, keys, dt, exits));
    var w25 := PickCoins(w2);
    CoinTable(w2);
    PowerUpTable(w25);
    AdvancesTransitive(w.s, w2.s, PickPowerUp(w25).s);
  }

  lemma FoughtAdvances(w: World)
    requires Sound(w)
    ensures Advances(w.s, Fought(w).s)
  {
    var w4 := Touches(w, |w.lv.enemies|);
    TouchesAdvance(w, |w.lv.enemies|);
    BurnsAdvance(w4, |w4.p.fireballs|);
  }

  lemma JudgedAdvances(w: World, rand: nat -> real)
    ensures Advances(w.s, Judged(w, rand).s)
  {
    DeathTable(w);
  }

  /** A tick never takes points away, never gives a life, and never lowers
      the coins, the best score or the level number. */
  lemma TickAdvances(w: World, keys: Keys, dt: real, dice: Dice)
    requires Sound(w)
    ensures Advances(w.s, GameTick(w, keys, dt, dice).s)
  {
    if w.s.state == Playing {
      var w3 := Moved(w, keys, dt, dice.exits);
      MovedAdvances(w, keys, dt, dice.exits);
      var w5 := Fought(w3);
      FoughtAdvances(w3);
      JudgedAdvances(w5, dice.rand);
      AdvancesTransitive(w.s, w3.s, w5.s);
      AdvancesTransitive(w.s, w5.s, Judged(w5, dice.rand).s);
    }
  }

  /** The state machine of `update`: only a playing game changes, and it is
      still playing or over afterwards; a menu, paused or finished game is
      left exactly as it was. */
  lemma TickStates(w: World, keys: Keys, dt: real, dice: Dice)
    requires Sound(w)
    ensures var r := GameTick(w, keys, dt, dice);
      (w.s.state != Playing ==> r == w) &&
      (w.s.state == Playing ==> r.s.state in {Playing, Over})
  {
    TickAdvances(w, keys, dt, dice);
  }

  /** `togglePause` swaps playing and paused, touching nothing else, and does
      nothing in the menu or after the game; toggling twice restores the session. */
  lemma ToggleTable(s: Session)
    ensures var r := AfterToggle(s);
      r == s.(state := r.state) &&
      (s.state == Playing <==> r.state == Paused) &&
      (s.state == Paused <==> r.state == Playing) &&
      (s.state in {Menu, Over} ==> r == s) &&
      AfterToggle(r) == s
  {
  }

  /** A new game: playing level 1 with no score, three lives and no coins,
      the best score kept, the camera at the start, the player small and at
      rest at the level's start point, and the level built from the level-1
      layout. */
  lemma StartTable(s: Session, rand: nat -> real)
    ensures var w := AfterStart(s, rand);
      w.s == Session(Playing, 0, StartLives, 0, 1, s.highScore, 0.0) &&
      w.p == Start(50.0, Px(GroundRow - 1)) && w.p.fireballs == [] &&
      w.lv == Build(Generated(1, rand)) && Sound(w)
  {
    LoadSound(s.(state := Playing, score := 0, lives := StartLives, coins := 0, currentLevel := 1), 1, rand);
  }

  // ---------------------------------------------------------------------------
  // The bounce bound

  /** Every fireball of the list has bounced at most three times. */
  predicate Capped(fs: seq<FireballState>) {
    forall j :: 0 <= j < |fs| ==> 0 <= fs[j].bounceCount <= MaxBounces
  }

  predicate Bounded(p: PlayerState) {
    Capped(p.fireballs)
  }

  lemma ShootBounded(p: PlayerState, keys: Keys)
    requires Bounded(p)
    ensures Bounded(Shoot(p, keys))
  {
    ShootRule(p, keys);
    var r := Shoot(p, keys);
    forall j | 0 <= j < |r.fireballs|
      ensures 0 <= r.fireballs[j].bounceCount <= MaxBounces
    {
      if j < |p.fireballs| {
        assert r.fireballs[j] == p.fireballs[j];
      }
    }
  }

  lemma {:induction false} SurvivorsBounded(fs: seq<FireballState>, g: Grid)
    requires Capped(fs)
    ensures Capped(Survivors(fs, g))
  {
    if fs != [] {
      var init := fs[..|fs| - 1];
      assert Capped(init) by {
        forall j | 0 <= j < |init|
          ensures 0 <= init[j].bounceCount <= MaxBounces
        {
          assert init[j] == fs[j];
        }
      }
      SurvivorsBounded(init, g);
    }
  }

  lemma PlayerTickBounded(p: PlayerState, keys: Keys, g: Grid, dt: real)
    requires WellFormed(g) && Bounded(p)
    ensures Bounded(Tick(p, keys, g, dt))
  {
    var p1 := Shoot(Jump(Steer(p, keys), keys), keys);
    ShootBounded(Jump(Steer(p, keys), keys), keys);
    var p2 := Recover(Clamp(Land(Move(p1, dt), g), g));
    assert p2.fireballs == p1.fireballs;
    SurvivorsBounded(p1.fireballs, g);
  }

  lemma {:induction false} TouchesBounded(w: World, n: nat)
    requires n <= |w.lv.enemies| && Bounded(w.p)
    ensures Bounded(Touches(w, n).p)
  {
    if n > 0 {
      TouchesBounded(w, n - 1);
      var v := Touches(w, n - 1);
      DamageTable(v.p);
      assert Touch(v, n - 1).p.fireballs in {v.p.fireballs, []};
    }
  }

  lemma {:induction false} BurnsKeepBounces(w: World, m: nat)
    requires m <= |w.p.fireballs|
    ensures var r := Burns(w, m);
      forall j :: 0 <= j < |r.p.fireballs| ==> r.p.fireballs[j].bounceCount == w.p.fireballs[j].bounceCount
  {
    if m > 0 {
      BurnsKeepBounces(w, m - 1);
      var v := Burns(w, m - 1);
      if v.p.fireballs[m - 1].active {
        BurnRowExactly(v, m - 1, |v.lv.enemies|);
      }
    }
  }

  lemma ScorchBounded(w: World)
    requires Sound(w) && Bounded(w.p)
    ensures Bounded(Scorch(w).p)
  {
  }

  lemma MovedBounded(w: World, keys: Keys, dt: real, exits: nat -> bool)
    requires Sound(w) && Bounded(w.p)
    ensures Bounded(Moved(w, keys, dt, exits).p)
  {
    PlayerTickBounded(w.p, keys, w.lv.grid, dt);
    var w2 := Follow(Stepped(w, keys, dt, exits));
    var w25 := PickCoins(w2);
    PowerUpTable(w25);
    var hits := Last(PowerUpHits(w25.lv.powerUps, w25.p.Bounds()));
    if hits.Some? {
      assert PickPowerUp(w25).p.fireballs == w2.p.fireballs;
    }
  }

  lemma FoughtBounded(w: World)
    requires Sound(w) && Bounded(w.p)
    ensures Bounded(Fought(w).p)
  {
    var w4 := Touches(w, |w.lv.enemies|);
    TouchesBounded(w, |w.lv.enemies|);
    var w45 := Burns(w4, |w4.p.fireballs|);
    BurnsKeepBounces(w4, |w4.p.fireballs|);
    ScorchBounded(w45);
  }

  lemma JudgedBounded(w: World, rand: nat -> real)
    requires Bounded(w.p)
    ensures Bounded(Judged(w, rand).p)
  {
  }

  /** `bounceCount` never exceeds three: a fresh player has no fireballs, a
      launched one starts at zero, and a tick bounces only below three. */
  lemma TickBounded(w: World, keys: Keys, dt: real, dice: Dice)
    requires Sound(w) && Bounded(w.p)
    ensures Bounded(GameTick(w, keys, dt, dice).p)
  {
    if w.s.state == Playing {
      var w3 := Moved(w, keys, dt, dice.exits);
      MovedBounded(w, keys, dt, dice.exits);
      FoughtBounded(w3);
      JudgedBounded(Fought(w3), dice.rand);
    }
  }

  // ---------------------------------------------------------------------------
  // The game object

  /** How many fixed steps an accumulator holding `a` pays out. */
  function Drains(a: real): (r: nat)
    ensures a >= 0.0 ==> r as real <= a * 60.0 < r as real + 1.0
    ensures a < FixedDeltaTime ==> r == 0
  {
    if a < 0.0 then 0 else (a * 60.0).Floor
  }

  /** Paying one step out of the accumulator leaves one step fewer to pay. */
  lemma DrainsStep(a: real)
    requires a >= FixedDeltaTime
    ensures Drains(a - FixedDeltaTime) == Drains(a) - 1
  {
    var r, q := Drains(a), Drains(a - FixedDeltaTime);
    assert r as real <= a * 60.0 < r as real + 1.0;
    assert q as real <= a * 60.0 - 1.0 < q as real + 1.0;
  }

  /** The accumulator `acc` left after paying `n` steps out of `a`, and the
      steps still to pay. */
  predicate Paid(a: real, acc: real, n: nat) {
    acc == a - n as real * FixedDeltaTime &&
    (a >= 0.0 ==> acc >= 0.0 && n + Drains(acc) == Drains(a)) &&
    (a < 0.0 ==> n == 0)
  }

  lemma PayStep(a: real, acc: real, n: nat)
    requires Paid(a, acc, n) && acc >= FixedDeltaTime
    ensures Paid(a, acc - FixedDeltaTime, n + 1) && Drains(acc - FixedDeltaTime) < Drains(acc)
  {
    DrainsStep(acc);
  }

  /** Once less than a step is left, exactly the whole steps of `a` were paid. */
  lemma PaidOut(a: real, acc: real, n: nat)
    requires Paid(a, acc, n) && acc < FixedDeltaTime
    ensures n == Drains(a) && acc == a - Drains(a) as real * FixedDeltaTime
    ensures a >= 0.0 ==> 0.0 <= acc < FixedDeltaTime
  {
  }

  /** The frame delta of `gameLoop`, in frame units, capped at 2. */
  function FrameDelta(currentTime: real, lastTime: real): (r: real)
    ensures r <= MaxDelta
    ensures currentTime >= lastTime ==> r >= 0.0
  {
    Min((currentTime - lastTime) / FrameMillis, MaxDelta)
  }

  /** Because the frame delta is measured in frame units and each `update`
      takes only 1/60 of a unit, a frame 16.67 ms after the last one pays for
      60 updates from an empty accumulator, and a frame at the cap of 2 units
      pays for 120. */
  lemma SixtyUpdatesPerFrame(t: real)
    ensures FrameDelta(t + FrameMillis, t) == 1.0 && Drains(0.0 + FrameDelta(t + FrameMillis, t)) == 60
    ensures Drains(MaxDelta) == 120
  {
    assert (t + FrameMillis - t) / FrameMillis == 1.0;
    assert (1.0 * 60.0).Floor == 60;
    assert (MaxDelta * 60.0).Floor == 120;
  }

  class Game {
    var gameState: GameState
    var score: int
    var lives: int
    var coins: int
    var currentLevel: int
    var highScore: int
    var cameraX: real
    var lastTime: real
    var accumulator: real
    /** The keys held down, as the listeners leave them. */
    var keys: Keys
    var player: Player?
    var level: Level?
    /** The objects the game owns. */
    ghost var Repr: set<object>

    /** A level has been loaded. */
    predicate Ready()
      reads this`player, this`level
    {
      player != null && level != null
    }

    /** Only the menu comes before the first level; the loaded player and
        level are consistent, and the level's grid is well formed. */
    predicate Valid()
      reads this`gameState, this`player, this`level, player, level, if player != null then player.fireballs else [],
            if level != null then level.enemies else []
    {
      (gameState != Menu ==> Ready()) && (player == null <==> level == null) &&
      (player != null ==> player.Valid()) &&
      (level != null ==> level.Valid())
    }

    /** The keys and the clock of `gameLoop` are left alone. */
    twostate predicate Clocked()
      reads this`keys, this`lastTime, this`accumulator
    {
      keys == old(keys) && lastTime == old(lastTime) && accumulator == old(accumulator)
    }

    /** Neither the keys, the clock nor the owned objects change. */
    twostate predicate Kept()
      reads this`keys, this`lastTime, this`accumulator, this`Repr
    {
      Clocked() && Repr == old(Repr)
    }

    /** The game owns itself, its player, the player's fireballs, its level
        and the level's enemies. */
    ghost predicate Owned()
      reads this`Repr, this`player, this`level, player, level
    {
      this in Repr &&
      (player != null ==> player in Repr && forall f :: f in player.fireballs ==> f in Repr) &&
      (level != null ==> level in Repr && forall e :: e in level.enemies ==> e in Repr)
    }

    /** Takes the current player, fireballs, level and enemies into `Repr`. */
    ghost method Adopt()
      requires Valid() && Ready()
      modifies this`Repr
      ensures Valid() && Owned() && Repr >= old(Repr) && Clocked()
      ensures forall o :: o in Repr && o !in old(Repr) ==>
                o == this || o == player || o == level || o in player.fireballs || o in level.enemies
      ensures Model() == old(Model())
    {
      Repr := Repr + {this, player, level} + (set f: Fireball | f in player.fireballs :: f as object)
                   + (set e: Enemy | e in level.enemies :: e as object);
    }

    /** The game stands at the `n`-th world of `ws` under the keys `k`; before
        the first level (`ws` is empty) the session is still `s0`. */
    ghost predicate Tracks(ws: seq<World>, s0: Session, k: Keys, n: nat)
      reads this`gameState, this`score, this`lives, this`coins, this`currentLevel, this`highScore,
            this`cameraX, this`keys, this`Repr, this`player, this`level, player, level,
            if player != null then player.fireballs else [], if level != null then level.enemies else []
    {
      Valid() && Owned() && (ws != [] <==> Ready()) && keys == k &&
      (Ready() ==> n < |ws| && Model() == ws[n]) &&
      (!Ready() ==> SessionModel() == s0)
    }

    function SessionModel(): Session
      reads this`gameState, this`score, this`lives, this`coins, this`currentLevel, this`highScore, this`cameraX
    {
      Session(gameState, score, lives, coins, currentLevel, highScore, cameraX)
    }

    function Model(): (r: World)
      requires Valid() && Ready()
      reads this`gameState, this`score, this`lives, this`coins, this`currentLevel, this`highScore, this`cameraX,
            this`player, this`level, player, player.fireballs, level, level.enemies
      ensures Sound(r)
    {
      World(SessionModel(), player.Model(), level.Model())
    }

    /** The game in the menu, with the stored best score `highScore0`. */
    constructor (highScore0: int)
      ensures Valid() && Owned() && !Ready()
      ensures SessionModel() == Session(Menu, 0, StartLives, 0, 1, highScore0, 0.0)
      ensures lastTime == 0.0 && accumulator == 0.0 && keys == Keys(false, false, false, false)
    {
      gameState, score, lives, coins, currentLevel, highScore := Menu, 0, 3, 0, 1, highScore0;
      cameraX := 0.0;
      lastTime, accumulator := 0.0, 0.0;
      keys := Keys(false, false, false, false);
      player, level := null, null;
      Repr := {this};
    }

    /** `loadLevel`: generates level `n` and places a new player at its start. */
    method LoadLevel(n: int, rand: nat -> real)
      requires Uniform(rand)
      modifies this
      ensures Valid() && Ready() && fresh(player) && fresh(level) && Kept()
      ensures player.fireballs == [] && forall e :: e in level.enemies ==> fresh(e)
      ensures Model() == AfterLoad(old(SessionModel()), n, rand)
    {
      var d := GenerateLevel(n, rand);
      GeneratedShape(n, rand);
      level := new Level(d);
      player := new Player(d.startX.value, d.startY.value);
      cameraX := 0.0;
    }

    /** `startGame` (and `restartGame`, which does the same). */
    method StartGame(rand: nat -> real)
      requires Uniform(rand) && Owned()
      modifies this
      ensures Valid() && Ready() && Owned() && fresh(Repr - old(Repr)) && Clocked()
      ensures Model() == AfterStart(old(SessionModel()), rand)
    {
      NewSession();
      LoadLevel(currentLevel, rand);
      Adopt();
    }

    /** The session fields `startGame` sets before loading the first level. */
    method NewSession()
      modifies this`gameState, this`score, this`lives, this`coins, this`currentLevel
      ensures SessionModel() == old(SessionModel()).(state := Playing, score := 0, lives := StartLives,
                                                     coins := 0, currentLevel := 1)
    {
      gameState := Playing;
      score, lives, coins, currentLevel := 0, 3, 0, 1;
    }

    method RestartGame(rand: nat -> real)
      requires Uniform(rand) && Owned()
      modifies this
      ensures Valid() && Ready() && Owned() && fresh(Repr - old(Repr)) && Clocked()
      ensures Model() == AfterStart(old(SessionModel()), rand)
    {
      StartGame(rand);
    }

    method NextLevel(rand: nat -> real)
      requires Valid() && Ready() && Uniform(rand)
      modifies this
      ensures Valid() && Ready() && fresh(player) && fresh(level) && Kept()
      ensures player.fireballs == [] && forall e :: e in level.enemies ==> fresh(e)
      ensures Model() == AfterNextLevel(old(Model()), rand)
    {
      currentLevel := currentLevel + 1;
      LoadLevel(currentLevel, rand);
    }

    /** `togglePause`: only the game state changes. */
    method TogglePause()
      requires Valid() && Owned()
      modifies this
      ensures Valid() && Owned() && Kept() && Ready() == old(Ready())
      ensures SessionModel() == AfterToggle(old(SessionModel()))
      ensures player == old(player) && level == old(level)
      ensures Ready() ==> Model() == old(Model()).(s := SessionModel())
    {
      if gameState == Playing {
        gameState := Paused;
      } else if gameState == Paused {
        gameState := Playing;
      }
    }

    method GameOver()
      modifies this
      ensures SessionModel() == AfterGameOver(old(SessionModel())) && Kept()
      ensures player == old(player) && level == old(level)
    {
      gameState := Over;
      if score > highScore {
        highScore := score;
      }
    }

    method PlayerDie()
      requires Valid() && Ready()
      modifies this, player
      ensures Valid() && Ready() && player == old(player) && level == old(level) && Kept()
      ensures player.fireballs == old(player.fireballs) || player.fireballs == []
      ensures Model() == AfterDeath(old(Model()))
    {
      lives := lives - 1;
      if lives <= 0 {
        GameOver();
      } else {
        player.Reset();
        cameraX := 0.0;
      }
    }

    /** The camera step of `update`. */
    method FollowPlayer()
      requires Valid() && Ready()
      modifies this
      ensures Valid() && Ready() && player == old(player) && level == old(level) && Kept()
      ensures player.fireballs == old(player.fireballs)
      ensures Model() == Follow(old(Model()))
    {
      cameraX := Max(0.0, player.x - ScreenWidth / 2.0);
      cameraX := Min(cameraX, (level.grid.width * TileSize) as real - ScreenWidth);
    }

    /** The coin step of `update`. */
    method CollectCoins()
      requires Valid() && Ready()
      modifies this, level
      ensures Valid() && Ready() && player == old(player) && level == old(level) && Kept()
      ensures player.fireballs == old(player.fireballs)
      ensures Model() == PickCoins(old(Model()))
    {
      var collected := level.CheckCollectibleCollision(player.GetBounds());
      if collected.Some? {
        coins := coins + 1;
        score := score + CoinPoints;
      }
    }

    /** The power-up step of `update`. */
    method CollectPowerUp()
      requires Valid() && Ready()
      modifies this, player, level
      ensures Valid() && Ready() && player == old(player) && level == old(level) && Kept()
      ensures player.fireballs == old(player.fireballs)
      ensures Model() == PickPowerUp(old(Model()))
    {
      var powerUp := level.CheckPowerUpCollision(player.GetBounds());
      if powerUp.Some? {
        var ok := player.PowerUp(powerUp.value.kind);
        if ok {
          score := score + PowerUpPoints;
        }
      }
    }

    /** The player against enemy `i`. */
    method TouchEnemy(i: nat)
      requires Valid() && Ready() && i < |level.enemies|
      modifies this, player, level.enemies[i]
      ensures Valid() && Ready() && player == old(player) && level == old(level) && Kept()
      ensures player.fireballs == old(player.fireballs) || player.fireballs == []
      ensures Model() == Touch(old(Model()), i)
    {
      var enemy := level.enemies[i];
      if !enemy.active || enemy.dead {
        return;
      }
      var enemyBounds := enemy.GetBounds();
      var playerBounds := player.GetBounds();
      if CheckCollision(playerBounds, enemyBounds) {
        var side := GetCollisionSide(playerBounds, enemyBounds);
        if side == Top && player.velocityY > 0.0 {
          StompEnemy(i);
        } else if !player.invulnerable {
          StrikeEnemy(i);
        }
      }
    }

    /** The stomp branch of the enemy contact: the player falls onto live
        enemy `i` from above. */
    method StompEnemy(i: nat)
      requires Valid() && Ready() && i < |level.enemies|
      requires var w := Model(); var e := w.lv.enemies[i];
        e.active && !e.dead && CheckCollision(w.p.Bounds(), e.Bounds()) &&
        GetCollisionSide(w.p.Bounds(), e.Bounds()) == Top && w.p.velocityY > 0.0
      modifies this, player, level.enemies[i]
      ensures Valid() && Ready() && player == old(player) && level == old(level) && Kept()
      ensures player.fireballs == old(player.fireballs)
      ensures Model() == Stomped(old(Model()), i)
    {
      var enemy := level.enemies[i];
      ghost var w := Model();
      assert forall k :: 0 <= k < |level.enemies| && k != i ==> level.enemies[k] != enemy;
      var points := enemy.HitFromAbove();
      assert EnemyModels(level.enemies) == w.lv.enemies[i := enemy.Model()];
      Reward(points);
    }

    /** The points of a stomp that scores, and the player's bounce. */
    method Reward(points: int)
      requires Valid() && Ready()
      modifies this`score, player`velocityY
      ensures Valid() && Ready()
      ensures Model() == if points > 0 then
                old(Model()).(s := old(Model()).s.(score := old(Model()).s.score + points),
                              p := old(Model()).p.(velocityY := StompBounce))
              else old(Model())
    {
      if points > 0 {
        score := score + points;
        player.velocityY := StompBounce;
      }
    }

    /** The side branch of the enemy contact: a vulnerable player runs into
        live enemy `i` other than from above. */
    method StrikeEnemy(i: nat)
      requires Valid() && Ready() && i < |level.enemies|
      requires var w := Model(); var e := w.lv.enemies[i];
        e.active && !e.dead && CheckCollision(w.p.Bounds(), e.Bounds()) &&
        !(GetCollisionSide(w.p.Bounds(), e.Bounds()) == Top && w.p.velocityY > 0.0) && !w.p.invulnerable
      modifies this, player, level.enemies[i]
      ensures Valid() && Ready() && player == old(player) && level == old(level) && Kept()
      ensures player.fireballs == old(player.fireballs) || player.fireballs == []
      ensures Model() == Touch(old(Model()), i)
    {
      var enemy := level.enemies[i];
      ghost var w := Model();
      assert forall k :: 0 <= k < |level.enemies| && k != i ==> level.enemies[k] != enemy;
      var result := enemy.HitFromSide();
      assert EnemyModels(level.enemies) == w.lv.enemies[i := enemy.Model()];
      if result == -1 {
        var isDead := player.TakeDamage();
        if isDead {
          PlayerDie();
        }
      } else if result > 0 {
        score := score + result;
      }
    }

    /** The enemy-contact loop of `update`. */
    method TouchEnemies()
      requires Valid() && Ready()
      modifies this, player, level.enemies
      ensures Valid() && Ready() && player == old(player) && level == old(level) && Kept()
      ensures player.fireballs == old(player.fireballs) || player.fireballs == []
      ensures Model() == Touches(old(Model()), |old(Model()).lv.enemies|)
    {
      ghost var w := Model();
      for i := 0 to |level.enemies|
        invariant Valid() && Ready() && player == old(player) && level == old(level) && Kept()
        invariant player.fireballs == old(player.fireballs) || player.fireballs == []
        invariant Model() == Touches(w, i)
      {
        TouchEnemy(i);
      }
    }

    /** Fireball `j` against enemy `i`. */
    method BurnEnemy(j: nat, i: nat)
      requires Valid() && Ready() && j < |player.fireballs| && i < |level.enemies|
      modifies this, player.fireballs[j], level.enemies[i]
      ensures Valid() && Ready() && player == old(player) && level == old(level) && Kept()
      ensures player.fireballs == old(player.fireballs)
      ensures Model() == Burn(old(Model()), j, i)
    {
      var fireball, enemy := player.fireballs[j], level.enemies[i];
      ghost var w := Model();
      assert forall k :: 0 <= k < |level.enemies| && k != i ==> level.enemies[k] != enemy;
      assert forall k :: 0 <= k < |player.fireballs| && k != j ==> player.fireballs[k] != fireball;
      if !enemy.active || enemy.dead {
        return;
      }
      if CheckCollision(fireball.GetBounds(), enemy.GetBounds()) {
        var points := enemy.HitFromAbove();
        if points > 0 {
          score := score + points;
        }
        fireball.active := false;
        assert EnemyModels(level.enemies) == w.lv.enemies[i := enemy.Model()];
        assert Models(player.fireballs) == w.p.fireballs[j := fireball.Model()];
      }
    }

    /** The fireball-enemy loops of `update`. */
    method BurnEnemies()
      requires Valid() && Ready()
      modifies this, player.fireballs, level.enemies
      ensures Valid() && Ready() && player == old(player) && level == old(level) && Kept()
      ensures player.fireballs == old(player.fireballs)
      ensures Model() == Burns(old(Model()), |old(Model()).p.fireballs|)
    {
      ghost var w := Model();
      for j := 0 to |player.fireballs|
        invariant Valid() && Ready() && player == old(player) && level == old(level) && Kept()
        invariant player.fireballs == old(player.fireballs)
        invariant Model() == Burns(w, j)
      {
        if player.fireballs[j].active {
          BurnWith(j);
        }
      }
    }

    /** The inner loop of the fireball-enemy loops: fireball `j` against every enemy. */
    method BurnWith(j: nat)
      requires Valid() && Ready() && j < |player.fireballs|
      modifies this, player.fireballs[j], level.enemies
      ensures Valid() && Ready() && player == old(player) && level == old(level) && Kept()
      ensures player.fireballs == old(player.fireballs)
      ensures Model() == BurnRow(old(Model()), j, |old(Model()).lv.enemies|)
    {
      ghost var v := Model();
      for i := 0 to |level.enemies|
        invariant Valid() && Ready() && player == old(player) && level == old(level) && Kept()
        invariant player.fireballs == old(player.fireballs)
        invariant Model() == BurnRow(v, j, i)
      {
        BurnEnemy(j, i);
      }
    }

    /** `update`: one fixed step of the whole game. Only a playing game moves;
        an empty menu keeps its session. */
    method Update(dt: real, dice: Dice)
      requires Valid() && Owned() && Uniform(dice.rand)
      modifies Repr
      ensures Valid() && Owned() && fresh(Repr - old(Repr))
      ensures Ready() == old(Ready()) && Clocked()
      ensures old(Ready()) ==> Model() == GameTick(old(Model()), keys, dt, dice)
      ensures !old(Ready()) ==> SessionModel() == old(SessionModel())
    {
      if gameState != Playing {
        return;
      }
      Play(dt, dice);
      Adopt();
    }

    /** A playing `update`, stage by stage. */
    method Play(dt: real, dice: Dice)
      requires Valid() && Ready() && gameState == Playing && Uniform(dice.rand)
      modifies this, player, level, set f | f in player.fireballs, set e | e in level.enemies
      ensures Valid() && Ready() && Kept()
      ensures (player == old(player) || fresh(player)) && (level == old(level) || fresh(level))
      ensures forall f :: f in player.fireballs ==> f in old(player.fireballs) || fresh(f)
      ensures forall e :: e in level.enemies ==> e in old(level.enemies) || fresh(e)
      ensures Model() == GameTick(old(Model()), keys, dt, dice)
    {
      ghost var fs := player.fireballs;
      Move(dt, dice.exits);
      Fight();
      assert forall f :: f in player.fireballs ==> f in fs || fresh(f);
      Judge(dice.rand);
    }

    /** The first half of a playing `update`. */
    method Move(dt: real, exits: nat -> bool)
      requires Valid() && Ready()
      modifies this, player, player.fireballs, level, level.enemies
      ensures Valid() && Ready() && player == old(player) && level == old(level) && Kept()
      ensures forall f :: f in player.fireballs ==> f in old(player.fireballs) || fresh(f)
      ensures Model() == Moved(old(Model()), keys, dt, exits)
    {
      Step(dt, exits);
      Pick();
    }

    /** The player's and the level's own updates. */
    method Step(dt: real, exits: nat -> bool)
      requires Valid() && Ready()
      modifies player, player.fireballs, level, level.enemies
      ensures Valid() && Ready()
      ensures forall f :: f in player.fireballs ==> f in old(player.fireballs) || fresh(f)
      ensures Model() == Stepped(old(Model()), keys, dt, exits)
    {
      ghost var w := Model();
      player.Update(keys, level.grid, dt);
      assert level.Model() == w.lv;
      level.Update(exits);
      assert player.Model() == Tick(w.p, keys, w.lv.grid, dt);
    }

    /** The camera and the pickups. */
    method Pick()
      requires Valid() && Ready()
      modifies this, player, level
      ensures Valid() && Ready() && player == old(player) && level == old(level) && Kept()
      ensures player.fireballs == old(player.fireballs)
      ensures Model() == Picked(old(Model()))
    {
      FollowPlayer();
      CollectCoins();
      CollectPowerUp();
    }

    /** The enemy contacts and the fireball checks of `update`. */
    method Fight()
      requires Valid() && Ready()
      modifies this, player, level.enemies, set f | f in player.fireballs
      ensures Valid() && Ready() && player == old(player) && level == old(level) && Kept()
      ensures player.fireballs == old(player.fireballs) || player.fireballs == []
      ensures Model() == Fought(old(Model()))
    {
      TouchEnemies();
      BurnEnemies();
      ScorchFireballs();
    }

    /** The fall check and the end-of-level check of `update`. */
    method Judge(rand: nat -> real)
      requires Valid() && Ready() && Uniform(rand)
      modifies this, player
      ensures Valid() && Ready() && Kept()
      ensures (player == old(player) && level == old(level) &&
               (player.fireballs == old(player.fireballs) || player.fireballs == [])) ||
              (fresh(player) && fresh(level) && player.fireballs == [] &&
               forall e :: e in level.enemies ==> fresh(e))
      ensures Model() == Judged(old(Model()), rand)
    {
      if player.y > (level.grid.height * TileSize) as real {
        PlayerDie();
      }
      if player.x >= level.endX {
        NextLevel(rand);
      }
    }

    /** `gameLoop` at time `currentTime` (milliseconds): the capped frame delta
        is added to the accumulator, which then pays for whole fixed steps,
        step `k` drawing `dice(k)`. */
    method GameLoop(currentTime: real, dice: nat -> Dice) returns (ghost ws: seq<World>)
      requires Valid() && Owned() && forall k: nat :: Uniform(dice(k).rand)
      modifies Repr
      ensures Valid() && Owned() && fresh(Repr - old(Repr))
      ensures Ready() == old(Ready()) && lastTime == currentTime && keys == old(keys)
      ensures var a := old(accumulator) + FrameDelta(currentTime, old(lastTime));
        accumulator == a - Drains(a) as real * FixedDeltaTime &&
        (a >= 0.0 ==> 0.0 <= accumulator < FixedDeltaTime) &&
        (old(Ready()) ==> |ws| == Drains(a) + 1 && ws[0] == old(Model()) &&
                          Chained(ws, keys, dice) && Model() == ws[Drains(a)]) &&
        (!old(Ready()) ==> SessionModel() == old(SessionModel()))
    {
      ghost var w0 := if Ready() then Some(Model()) else None;
      var deltaTime := Min((currentTime - lastTime) / FrameMillis, MaxDelta);
      lastTime := currentTime;
      accumulator := accumulator + deltaTime;
      ws := [];
      if w0.Some? {
        ws := ChainFrom(w0.value, keys, dice, Drains(accumulator));
      }
      CatchUp(ws, SessionModel(), dice);
    }

    /** The catch-up loop of `gameLoop`: fixed-step updates while a whole step
        is left in the accumulator. */
    method CatchUp(ghost ws: seq<World>, ghost s0: Session, dice: nat -> Dice)
      requires Tracks(ws, s0, keys, 0) && Chained(ws, keys, dice)
      requires ws != [] ==> |ws| == Drains(accumulator) + 1
      requires forall k: nat :: Uniform(dice(k).rand)
      modifies Repr
      ensures Tracks(ws, s0, old(keys), Drains(old(accumulator))) && fresh(Repr - old(Repr))
      ensures lastTime == old(lastTime)
      ensures accumulator == old(accumulator) - Drains(old(accumulator)) as real * FixedDeltaTime
      ensures old(accumulator) >= 0.0 ==> 0.0 <= accumulator < FixedDeltaTime
    {
      ghost var a := accumulator;
      var acc := accumulator;
      var n: nat := 0;
      while acc >= FixedDeltaTime
        invariant Tracks(ws, s0, old(keys), n) && fresh(Repr - old(Repr))
        invariant lastTime == old(lastTime) && accumulator == a && Paid(a, acc, n)
        decreases Drains(acc)
      {
        PayStep(a, acc, n);
        Catch(ws, s0, old(keys), dice, n);
        acc := acc - FixedDeltaTime;
        n := n + 1;
      }
      PaidOut(a, acc, n);
      accumulator := acc;
    }

    /** The `update` of one pass of the catch-up loop of `gameLoop`, at the
        fixed step, taking the world one step further along the run; it leaves
        the clock and the accumulator alone. */
    method Catch(ghost ws: seq<World>, ghost s0: Session, ghost k: Keys, dice: nat -> Dice, n: nat)
      requires Tracks(ws, s0, k, n) && Uniform(dice(n).rand)
      requires ws != [] ==>
                 n + 1 < |ws| && Sound(ws[n]) && ws[n + 1] == GameTick(ws[n], k, FixedDeltaTime, dice(n))
      modifies Repr
      ensures Tracks(ws, s0, k, n + 1) && fresh(Repr - old(Repr))
      ensures lastTime == old(lastTime) && accumulator == old(accumulator)
    {
      Update(FixedDeltaTime, dice(n));
    }

    /** Fireball `j` against the tiles. */
    method ScorchFireball(j: nat)
      requires Valid() && Ready() && j < |player.fireballs|
      modifies player.fireballs[j]
      ensures Valid() && Ready()
      ensures Model() == old(Model()).(p := old(Model()).p.(fireballs := old(Model()).p.fireballs[j := ScorchOne(old(Model()).p.fireballs[j], level.grid)]))
    {
      var fireball := player.fireballs[j];
      ghost var w := Model();
      assert fireball in player.fireballs;
      assert forall k :: 0 <= k < |player.fireballs| && k != j ==> player.fireballs[k] != fireball;
      ScorchAgainst(fireball, level.grid);
      assert Models(player.fireballs) == w.p.fireballs[j := fireball.Model()];
    }

    /** The fireball-tile loop of `update`. */
    method ScorchFireballs()
      requires Valid() && Ready()
      modifies player.fireballs
      ensures Valid() && Ready()
      ensures Model() == Scorch(old(Model()))
    {
      ghost var w := Model();
      for j := 0 to |player.fireballs|
        invariant Valid() && Ready()
        invariant Model() == w.(p := w.p.(fireballs := Model().p.fireballs))
        invariant |Model().p.fireballs| == |w.p.fireballs|
        invariant forall k :: 0 <= k < j ==> Model().p.fireballs[k] == ScorchOne(w.p.fireballs[k], w.lv.grid)
        invariant forall k :: j <= k < |w.p.fireballs| ==> Model().p.fireballs[k] == w.p.fireballs[k]
      {
        ScorchFireball(j);
      }
      assert Model().p.fireballs == Scorch(w).p.fireballs;
    }
  }

  /** The tile checks of one fireball in `update`: out on a solid tile at its
      top-left cell, and a bounce off a solid tile under its bottom edge. */
  method ScorchAgainst(fireball: Fireball, g: Grid)
    requires fireball.Valid() && WellFormed(g)
    modifies fireball
    ensures fireball.Valid() && fireball.Model() == ScorchOne(old(fireball.Model()), g)
  {
    var tileX, tileY := TileOf(fireball.x), TileOf(fireball.y);
    if 0 <= tileX < g.width && 0 <= tileY < g.height {
      if SolidAt(GetTile(g, tileX, tileY)) {
        fireball.active := false;
      }
    }
    if fireball.velocityY > 0.0 && fireball.bounceCount < MaxBounces {
      var groundTileY := TileOf(fireball.y + fireball.height);
      var groundTileX := TileOf(fireball.x);
      if groundTileY < g.height {
        if SolidAt(GetTile(g, groundTileX, groundTileY)) {
          fireball.velocityY := BounceSpeed;
          fireball.bounceCount := fireball.bounceCount + 1;
        }
      }
    }
  }
}
