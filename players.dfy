/** The player and the fireballs it throws (js/player.js): input, jumping,
    shooting, the tile sweep, the world-edge clamp, the power tiers and the
    invulnerability window, as pure stage functions on `PlayerState` and the
    `Player` and `Fireball` classes that update their fields in place. */
module Players {
  import opened Wrappers
  import opened Physics
  import opened Tiles
  import opened Sweep

  const PlayerWidth: real := 32.0
  const SmallHeight: real := 32.0
  const BigHeight: real := 48.0
  /** Horizontal speed while a direction key is held. */
  const Speed: real := 5.0
  /** Vertical velocity at take-off. */
  const JumpPower: real := -15.0
  /** Cooldown set by a shot; it is counted down in the same update. */
  const ShotCooldown: int := 20
  /** Length of the invulnerability window after losing a tier. */
  const InvulnerableTicks: int := 120

  const FireballSize: real := 12.0
  const FireballSpeed: real := 8.0
  const FireballLift: real := -2.0
  const FireballGravity: real := 0.5
  /** How far beyond either end of the level a fireball may fly. */
  const FireballMargin: real := 100.0

  datatype PowerState = Small | Big | Fire

  /** The keys held during one update: left, right, jump and fire, each standing
      for all of the source's bindings of that action. */
  datatype Keys = Keys(left: bool, right: bool, jump: bool, fire: bool)

  // ---------------------------------------------------------------------------
  // Fireballs

  datatype FireballState = FireballState(x: real, y: real, velocityX: real, velocityY: real,
                                         active: bool, bounceCount: int)
  {
    function Bounds(): Rect { Rect(x, y, FireballSize, FireballSize) }
  }

  /** A new fireball heading in `direction` (1 right, -1 left), rising slightly. */
  function Launch(x: real, y: real, direction: real): FireballState {
    FireballState(x, y, direction * FireballSpeed, FireballLift, true, 0)
  }

  /** `Fireball.update`: move at the current velocity, then fall a little. */
  function Fly(f: FireballState): FireballState {
    f.(x := f.x + f.velocityX, y := f.y + f.velocityY, velocityY := f.velocityY + FireballGravity)
  }

  /** A fireball is kept while it is active and within the margin around the level. */
  predicate InFlight(f: FireballState, g: Grid) {
    f.active && -FireballMargin < f.x < PixelWidth(g) + FireballMargin
  }

  /** The per-update filter: every fireball flies, the ones in flight are kept
      in their order. */
  function Survivors(fs: seq<FireballState>, g: Grid): seq<FireballState> {
    if fs == [] then []
    else
      var f := Fly(fs[|fs| - 1]);
      Survivors(fs[..|fs| - 1], g) + (if InFlight(f, g) then [f] else [])
  }

  // ---------------------------------------------------------------------------
  // The player, stage by stage

  /** The simulation state of the player: `startX`/`startY` are the respawn point. */
  datatype PlayerState = PlayerState(
    x: real, y: real, height: real, velocityX: real, velocityY: real,
    onGround: bool, facingRight: bool,
    power: PowerState, invulnerable: bool, invulnerableTime: int,
    shootCooldown: int, fireballs: seq<FireballState>,
    startX: real, startY: real)
  {
    function Bounds(): Rect { Rect(x, y, PlayerWidth, height) }

    function AsKin(): Kin { Kin(x, y, PlayerWidth, height, velocityX, velocityY, onGround) }
  }

  /** A new player at (`x`, `y`): small, at rest, facing right. */
  function Start(x: real, y: real): PlayerState {
    PlayerState(x, y, SmallHeight, 0.0, 0.0, false, true, Small, false, 0, 0, [], x, y)
  }

  /** Left wins over right; with neither held, friction slows the player. */
  function Steer(p: PlayerState, keys: Keys): (r: PlayerState)
    ensures r == p.(velocityX := r.velocityX, facingRight := r.facingRight)
  {
    if keys.left then p.(velocityX := -Speed, facingRight := false)
    else if keys.right then p.(velocityX := Speed, facingRight := true)
    else p.(velocityX := ApplyFriction(p.AsKin().AsBody()).velocityX.GetOr(p.velocityX))
  }

  /** A jump needs the ground under the player from the previous update. */
  function Jump(p: PlayerState, keys: Keys): (r: PlayerState)
    ensures r == p.(velocityY := r.velocityY, onGround := r.onGround)
  {
    if keys.jump && p.onGround then p.(velocityY := JumpPower, onGround := false) else p
  }

  /** `shootFireball`: a fireball from the front edge at half height. */
  function Muzzle(p: PlayerState): FireballState {
    Launch(p.x + (if p.facingRight then PlayerWidth else 0.0), p.y + p.height / 2.0,
           if p.facingRight then 1.0 else -1.0)
  }

  /** A fire-tier player shoots when the cooldown has run out; then the cooldown
      counts down by one. */
  function Shoot(p: PlayerState, keys: Keys): (r: PlayerState)
    ensures r == p.(fireballs := r.fireballs, shootCooldown := r.shootCooldown)
  {
    var p1 := if keys.fire && p.power == Fire && p.shootCooldown <= 0
              then p.(fireballs := p.fireballs + [Muzzle(p)], shootCooldown := ShotCooldown)
              else p;
    if p1.shootCooldown > 0 then p1.(shootCooldown := p1.shootCooldown - 1) else p1
  }

  /** Gravity scaled by `dt`, then one step of motion at the current velocity. */
  function Move(p: PlayerState, dt: real): (r: PlayerState)
    ensures r == p.(x := r.x, y := r.y, velocityY := r.velocityY)
  {
    var vy := ApplyGravity(p.AsKin().AsBody(), dt).velocityY.GetOr(p.velocityY);
    p.(velocityY := vy, x := p.x + p.velocityX, y := p.y + vy)
  }

  /** The tile sweep: walls stop the player, a floor grounds it. */
  function Land(p: PlayerState, g: Grid): (r: PlayerState)
    requires WellFormed(g)
    ensures r == p.(x := r.x, y := r.y, velocityX := r.velocityX, velocityY := r.velocityY, onGround := r.onGround)
  {
    var r := SweepTiles(p.AsKin(), g, Halt);
    p.(x := r.x, y := r.y, velocityX := r.velocityX, velocityY := r.velocityY, onGround := r.onGround)
  }

  /** Keep the player within the level horizontally. */
  function Clamp(p: PlayerState, g: Grid): (r: PlayerState)
    ensures r == p.(x := r.x)
  {
    var p1 := if p.x < 0.0 then p.(x := 0.0) else p;
    if p1.x + PlayerWidth > PixelWidth(g) then p1.(x := PixelWidth(g) - PlayerWidth) else p1
  }

  /** Count the invulnerability window down; it closes when the time runs out. */
  function Recover(p: PlayerState): (r: PlayerState)
    ensures r == p.(invulnerable := r.invulnerable, invulnerableTime := r.invulnerableTime)
  {
    if p.invulnerable then
      p.(invulnerableTime := p.invulnerableTime - 1, invulnerable := p.invulnerableTime - 1 > 0)
    else p
  }

  function FlyFireballs(p: PlayerState, g: Grid): PlayerState {
    p.(fireballs := Survivors(p.fireballs, g))
  }

  /** One `update` of the player. */
  function Tick(p: PlayerState, keys: Keys, g: Grid, dt: real): PlayerState
    requires WellFormed(g)
  {
    var p1 := Shoot(Jump(Steer(p, keys), keys), keys);
    FlyFireballs(Recover(Clamp(Land(Move(p1, dt), g), g)), g)
  }

  /** `takeDamage`: the new state and whether the player dies. */
  function Damage(p: PlayerState): (PlayerState, bool) {
    if p.invulnerable then (p, false)
    else if p.power == Fire then
      (p.(power := Big, invulnerable := true, invulnerableTime := InvulnerableTicks), false)
    else if p.power == Big then
      (p.(power := Small, invulnerable := true, invulnerableTime := InvulnerableTicks), false)
    else (p, true)
  }

  /** `powerUp`: the new state and whether the item took effect. */
  function Empower(p: PlayerState, kind: PowerKind): (PlayerState, bool) {
    if kind == Mushroom && p.power == Small then (p.(power := Big, height := BigHeight), true)
    else if kind == FireFlower && p.power != Fire then (p.(power := Fire, height := BigHeight), true)
    else (p, false)
  }

  /** `reset`: back to the start, small and at rest, without fireballs. */
  function Respawn(p: PlayerState): PlayerState {
    p.(x := p.startX, y := p.startY, velocityX := 0.0, velocityY := 0.0, power := Small,
       height := SmallHeight, invulnerable := false, fireballs := [])
  }

  // ---------------------------------------------------------------------------
  // Properties

  /** Left wins when both directions are held; with neither, friction only ever
      slows the player, and nothing but the horizontal velocity and the facing
      changes. */
  lemma SteerTable(p: PlayerState, keys: Keys)
    ensures var r := Steer(p, keys);
      r == p.(velocityX := r.velocityX, facingRight := r.facingRight) &&
      (keys.left ==> r.velocityX == -Speed && !r.facingRight) &&
      (!keys.left && keys.right ==> r.velocityX == Speed && r.facingRight) &&
      (!keys.left && !keys.right ==>
         r.velocityX == DampX(p.velocityX) && Abs(r.velocityX) <= Abs(p.velocityX) &&
         r.facingRight == p.facingRight)
  {
    FrictionBounds(p.velocityX);
  }

  /** A jump happens exactly when it is asked for on the ground, and it comes
      before gravity in the same update. */
  lemma JumpRule(p: PlayerState, keys: Keys, dt: real)
    ensures var r := Jump(p, keys);
      (keys.jump && p.onGround ==> r.velocityY == JumpPower && !r.onGround) &&
      (!(keys.jump && p.onGround) ==> r == p) &&
      r == p.(velocityY := r.velocityY, onGround := r.onGround)
    ensures keys.jump && p.onGround ==>
      Move(Shoot(Jump(p, keys), keys), dt).velocityY == JumpPower + Gravity * dt
  {
  }

  /** A shot needs the fire tier and a spent cooldown; it appends exactly one
      fireball, at the front edge and half height, flying at (+-8, -2), and the
      cooldown ends the update at 19. Otherwise only the cooldown counts down. */
  lemma ShootRule(p: PlayerState, keys: Keys)
    ensures var r := Shoot(p, keys);
      var fired := keys.fire && p.power == Fire && p.shootCooldown <= 0;
      r == p.(fireballs := r.fireballs, shootCooldown := r.shootCooldown) &&
      (|r.fireballs| == |p.fireballs| + 1 <==> fired) &&
      (fired ==>
         r.fireballs == p.fireballs + [Muzzle(p)] && r.shootCooldown == ShotCooldown - 1 &&
         Muzzle(p).x == p.x + (if p.facingRight then PlayerWidth else 0.0) &&
         Muzzle(p).y == p.y + p.height / 2.0 &&
         Muzzle(p).velocityX == (if p.facingRight then FireballSpeed else -FireballSpeed) &&
         Muzzle(p).velocityY == FireballLift && Muzzle(p).active && Muzzle(p).bounceCount == 0) &&
      (!fired ==>
         r.fireballs == p.fireballs &&
         r.shootCooldown == (if p.shootCooldown > 0 then p.shootCooldown - 1 else p.shootCooldown))
  {
  }

  /** After the clamp the player lies within the level, provided the level is at
      least as wide as the player; a player already inside is not moved. */
  lemma ClampInside(p: PlayerState, g: Grid)
    ensures var r := Clamp(p, g);
      r == p.(x := r.x) &&
      (PixelWidth(g) >= PlayerWidth ==> 0.0 <= r.x && r.x + PlayerWidth <= PixelWidth(g)) &&
      (0.0 <= p.x && p.x + PlayerWidth <= PixelWidth(g) ==> r == p)
  {
  }

  /** The fireball filter keeps exactly the flown fireballs that are still in
      flight, never more than there were. */
  lemma {:induction false} SurvivorsExactly(fs: seq<FireballState>, g: Grid)
    ensures var r := Survivors(fs, g);
      |r| <= |fs| &&
      (forall i :: 0 <= i < |r| ==> InFlight(r[i], g)) &&
      (forall s :: s in r <==> exists f :: f in fs && s == Fly(f) && InFlight(s, g))
  {
    if fs != [] {
      var init, last := fs[..|fs| - 1], fs[|fs| - 1];
      SurvivorsExactly(init, g);
      assert fs == init + [last];
      var r := Survivors(fs, g);
      forall s | s in r
        ensures exists f :: f in fs && s == Fly(f) && InFlight(s, g)
      {
        if s in Survivors(init, g) {
          var f :| f in init && s == Fly(f) && InFlight(s, g);
          assert f in fs;
        } else {
          assert s == Fly(last) && last in fs;
        }
      }
      forall s | exists f :: f in fs && s == Fly(f) && InFlight(s, g)
        ensures s in r
      {
        var f :| f in fs && s == Fly(f) && InFlight(s, g);
        if f != last {
          assert f in init;
        }
      }
    }
  }

  /** After an update the player is within the level (when it is wide enough)
      and every remaining fireball is in flight. */
  lemma TickInside(p: PlayerState, keys: Keys, g: Grid, dt: real)
    requires WellFormed(g)
    ensures var r := Tick(p, keys, g, dt);
      (PixelWidth(g) >= PlayerWidth ==> 0.0 <= r.x && r.x + PlayerWidth <= PixelWidth(g)) &&
      (forall i :: 0 <= i < |r.fireballs| ==> InFlight(r.fireballs[i], g))
  {
    var p1 := Shoot(Jump(Steer(p, keys), keys), keys);
    ClampInside(Land(Move(p1, dt), g), g);
    SurvivorsExactly(p1.fireballs, g);
  }

  /** `takeDamage`: nothing happens while invulnerable; otherwise fire and big
      drop one tier and open the invulnerability window, and a small player dies
      unchanged. The height is never touched. */
  lemma DamageTable(p: PlayerState)
    ensures var (r, dies) := Damage(p);
      r.height == p.height &&
      (p.invulnerable ==> r == p && !dies) &&
      (!p.invulnerable && p.power == Fire ==>
         !dies && r == p.(power := Big, invulnerable := true, invulnerableTime := InvulnerableTicks)) &&
      (!p.invulnerable && p.power == Big ==>
         !dies && r == p.(power := Small, invulnerable := true, invulnerableTime := InvulnerableTicks)) &&
      (dies <==> !p.invulnerable && p.power == Small) &&
      (dies ==> r == p)
  {
  }

  /** `powerUp`: a mushroom works only on a small player, a fire flower on any
      tier but fire; a working item makes the player tall. */
  lemma EmpowerTable(p: PlayerState, kind: PowerKind)
    ensures var (r, ok) := Empower(p, kind);
      (ok <==> (kind == Mushroom && p.power == Small) || (kind == FireFlower && p.power != Fire)) &&
      (ok ==> r == p.(power := if kind == Mushroom then Big else Fire, height := BigHeight)) &&
      (!ok ==> r == p)
  {
  }

  /** `reset` restores the start point at rest, small and vulnerable, with no
      fireballs; the facing, the ground flag and the two timers are kept. */
  lemma RespawnRestores(p: PlayerState)
    ensures var r := Respawn(p);
      r.x == p.startX && r.y == p.startY && r.velocityX == 0.0 && r.velocityY == 0.0 &&
      r.power == Small && r.height == SmallHeight && !r.invulnerable && r.fireballs == [] &&
      r.invulnerableTime == p.invulnerableTime && r.shootCooldown == p.shootCooldown &&
      r.startX == p.startX && r.startY == p.startY
  {
  }

  /** An open invulnerability window always has time left. */
  predicate WindowTimed(p: PlayerState) {
    p.invulnerable ==> p.invulnerableTime >= 1
  }

  /** An update touches the invulnerability window only by counting it down. */
  lemma TickCountsWindow(p: PlayerState, keys: Keys, g: Grid, dt: real)
    requires WellFormed(g)
    ensures var r := Tick(p, keys, g, dt);
      r.invulnerable == Recover(p).invulnerable && r.invulnerableTime == Recover(p).invulnerableTime
  {
  }

  /** Every operation on the player keeps the window timed. */
  lemma WindowStaysTimed(p: PlayerState, keys: Keys, g: Grid, dt: real)
    requires WellFormed(g) && WindowTimed(p)
    ensures WindowTimed(Tick(p, keys, g, dt))
  {
    TickCountsWindow(p, keys, g, dt);
  }

  lemma HitsKeepWindowTimed(p: PlayerState, kind: PowerKind)
    requires WindowTimed(p)
    ensures WindowTimed(Damage(p).0) && WindowTimed(Empower(p, kind).0) && WindowTimed(Respawn(p))
  {
  }

  /** `n` updates in a row with the keys `keys(i)` for the `i`-th. */
  function Ticks(p: PlayerState, keys: nat -> Keys, g: Grid, dt: real, n: nat): PlayerState
    requires WellFormed(g)
  {
    if n == 0 then p else Tick(Ticks(p, keys, g, dt, n - 1), keys(n - 1), g, dt)
  }

  /** An open window with `t` ticks left stays open for `t - 1` updates and
      closes on the `t`-th, whatever the player does meanwhile. */
  lemma {:induction false} WindowCloses(p: PlayerState, keys: nat -> Keys, g: Grid, dt: real, n: nat)
    requires WellFormed(g) && p.invulnerable && p.invulnerableTime >= 1 && n <= p.invulnerableTime
    ensures var r := Ticks(p, keys, g, dt, n);
      r.invulnerableTime == p.invulnerableTime - n && (r.invulnerable <==> n < p.invulnerableTime)
  {
    if n > 0 {
      WindowCloses(p, keys, g, dt, n - 1);
      var q := Ticks(p, keys, g, dt, n - 1);
      assert Ticks(p, keys, g, dt, n) == Tick(q, keys(n - 1), g, dt);
      TickCountsWindow(q, keys(n - 1), g, dt);
    }
  }

  /** Losing a tier makes the player immune to the next 119 updates' damage
      and vulnerable again after 120. */
  lemma DamageGrace(p: PlayerState, keys: nat -> Keys, g: Grid, dt: real)
    requires WellFormed(g) && !p.invulnerable && p.power != Small
    ensures var d := Damage(p).0;
      Ticks(d, keys, g, dt, InvulnerableTicks - 1).invulnerable &&
      !Ticks(d, keys, g, dt, InvulnerableTicks).invulnerable
  {
    var d := Damage(p).0;
    WindowCloses(d, keys, g, dt, InvulnerableTicks - 1);
    WindowCloses(d, keys, g, dt, InvulnerableTicks);
  }

  // ---------------------------------------------------------------------------
  // The objects

  class Fireball {
    var x: real
    var y: real
    var velocityX: real
    var velocityY: real
    var active: bool
    var bounceCount: int
    const width: real
    const height: real

    function Model(): FireballState
      reads this
    {
      FireballState(x, y, velocityX, velocityY, active, bounceCount)
    }

    predicate Valid()
      reads this
    {
      width == FireballSize && height == FireballSize
    }

    constructor (x0: real, y0: real, direction: real)
      ensures Valid() && Model() == Launch(x0, y0, direction)
    {
      x, y := x0, y0;
      width, height := 12.0, 12.0;
      velocityX := direction * 8.0;
      velocityY := -2.0;
      active := true;
      bounceCount := 0;
    }

    /** One flight step; the bounce itself is decided by the game. */
    method Update()
      modifies this
      ensures Model() == Fly(old(Model()))
    {
      x := x + velocityX;
      y := y + velocityY;
      velocityY := velocityY + 0.5;
    }

    function GetBounds(): (r: Rect)
      reads this
      requires Valid()
      ensures r == Model().Bounds()
    {
      Rect(x, y, width, height)
    }
  }

  /** The states of a sequence of fireball objects. */
  function Models(s: seq<Fireball>): (r: seq<FireballState>)
    reads s
  {
    seq(|s|, i reads s requires 0 <= i < |s| => s[i].Model())
  }

  class Player {
    var x: real
    var y: real
    const width: real
    var height: real
    var velocityX: real
    var velocityY: real
    var onGround: bool
    var facingRight: bool
    var powerState: PowerState
    var invulnerable: bool
    var invulnerableTime: int
    var fireballs: seq<Fireball>
    var shootCooldown: int
    const startX: real
    const startY: real

    function Model(): PlayerState
      reads this, fireballs
    {
      PlayerState(x, y, height, velocityX, velocityY, onGround, facingRight, powerState,
                  invulnerable, invulnerableTime, shootCooldown, Models(fireballs), startX, startY)
    }

    /** The player is 32 pixels wide and owns each of its fireballs once. */
    predicate Valid()
      reads this, fireballs
    {
      width == PlayerWidth && Distinct(fireballs) && forall f :: f in fireballs ==> f.Valid()
    }

    function Motion(): Kin
      reads this
    {
      Kin(x, y, width, height, velocityX, velocityY, onGround)
    }

    constructor (x0: real, y0: real)
      ensures Valid() && Model() == Start(x0, y0) && fireballs == []
    {
      startX, startY := x0, y0;
      x, y := x0, y0;
      width, height := 32.0, 32.0;
      velocityX, velocityY := 0.0, 0.0;
      onGround, facingRight := false, true;
      powerState := Small;
      invulnerable, invulnerableTime := false, 0;
      fireballs := [];
      shootCooldown := 0;
    }

    /** One update; the whole new state is `Tick` of the old one. */
    method Update(keys: Keys, g: Grid, dt: real)
      requires Valid() && WellFormed(g)
      modifies this, fireballs
      ensures Valid() && Model() == Tick(old(Model()), keys, g, dt)
      ensures forall f :: f in fireballs ==> f in old(fireballs) || fresh(f)
    {
      HandleInput(keys);
      ApplyShooting(keys);
      ApplyMotion(dt);
      CollideWithTiles(g);
      StayInBounds(g);
      CountDownInvulnerability();
      assert forall f :: f in fireballs ==> f in old(fireballs) || fresh(f);
      UpdateFireballs(g);
    }

    /** Running and jumping. */
    method HandleInput(keys: Keys)
      requires Valid()
      modifies this
      ensures Valid() && Model() == Jump(Steer(old(Model()), keys), keys) && fireballs == old(fireballs)
    {
      if keys.left {
        velocityX := -5.0;
        facingRight := false;
      } else if keys.right {
        velocityX := 5.0;
        facingRight := true;
      } else {
        var damped := ApplyFriction(Body(x, y, width, height, Some(velocityX), Some(velocityY)));
        velocityX := damped.velocityX.GetOr(velocityX);
      }
      if keys.jump && onGround {
        velocityY := -15.0;
        onGround := false;
      }
    }

    /** Shooting and the cooldown. */
    method ApplyShooting(keys: Keys)
      requires Valid()
      modifies this
      ensures Valid() && Model() == Shoot(old(Model()), keys)
      ensures forall f :: f in fireballs ==> f in old(fireballs) || fresh(f)
    {
      if keys.fire && powerState == Fire && shootCooldown <= 0 {
        ShootFireball();
        shootCooldown := 20;
      }
      if shootCooldown > 0 {
        shootCooldown := shootCooldown - 1;
      }
    }

    /** `shootFireball`: append a new fireball. */
    method ShootFireball()
      requires Valid()
      modifies this
      ensures Valid() && Model() == old(Model()).(fireballs := old(Model()).fireballs + [Muzzle(old(Model()))])
      ensures |fireballs| == |old(fireballs)| + 1 && fireballs[..|old(fireballs)|] == old(fireballs)
      ensures fresh(fireballs[|fireballs| - 1])
    {
      var direction := if facingRight then 1.0 else -1.0;
      var f := new Fireball(x + (if facingRight then width else 0.0), y + height / 2.0, direction);
      ghost var before := Models(fireballs);
      fireballs := fireballs + [f];
      assert Models(fireballs) == before + [f.Model()];
    }

    /** Gravity with the frame's `dt`, then one step of motion. */
    method ApplyMotion(dt: real)
      requires Valid()
      modifies this
      ensures Valid() && Model() == Move(old(Model()), dt) && fireballs == old(fireballs)
    {
      var fallen := ApplyGravity(Body(x, y, width, height, Some(velocityX), Some(velocityY)), dt);
      velocityY := fallen.velocityY.GetOr(velocityY);
      x := x + velocityX;
      y := y + velocityY;
    }

    /** The 4x4 sweep of the cells around the player's tile. */
    method CollideWithTiles(g: Grid)
      requires Valid() && WellFormed(g)
      modifies this
      ensures Valid() && Model() == Land(old(Model()), g) && fireballs == old(fireballs)
    {
      onGround := false;
      var playerTileX := TileOf(x);
      var playerTileY := TileOf(y);
      ghost var p1 := Model();
      ghost var k0 := Motion();
      assert k0 == old(Model()).AsKin().(onGround := false);

      ghost var i: nat := 0;
      for dy := -1 to 3
        invariant i == 4 * (dy + 1)
        invariant Motion() == SweepCells(k0, g, playerTileX, playerTileY, Halt, i)
        invariant Model() == p1.(x := x, y := y, velocityX := velocityX, velocityY := velocityY, onGround := onGround)
        invariant Valid() && fireballs == old(fireballs)
      {
        for dx := -1 to 3
          invariant i == 4 * (dy + 1) + (dx + 1)
          invariant Motion() == SweepCells(k0, g, playerTileX, playerTileY, Halt, i)
          invariant Model() == p1.(x := x, y := y, velocityX := velocityX, velocityY := velocityY, onGround := onGround)
          invariant Valid() && fireballs == old(fireballs)
        {
          WindowOrder(dx, dy);
          ProbeCell(g, playerTileX, playerTileY, playerTileX + dx, playerTileY + dy, k0, i);
          i := i + 1;
        }
      }
    }

    /** Cell `i` of the sweep around tile (`tileX`, `tileY`): after the first `i`
        cells, it brings the player to the state after `i + 1` cells. */
    method ProbeCell(g: Grid, tileX: int, tileY: int, checkX: int, checkY: int, ghost k0: Kin, ghost i: nat)
      requires Valid() && WellFormed(g)
      requires checkX == tileX + OffsetX(i) && checkY == tileY + OffsetY(i)
      requires Motion() == SweepCells(k0, g, tileX, tileY, Halt, i)
      modifies this
      ensures Valid() && Motion() == SweepCells(k0, g, tileX, tileY, Halt, i + 1)
      ensures Model() == old(Model()).(x := x, y := y, velocityX := velocityX, velocityY := velocityY, onGround := onGround)
      ensures fireballs == old(fireballs)
    {
      ghost var k := SweepCells(k0, g, tileX, tileY, Halt, i);
      SweepNext(k0, g, tileX, tileY, Halt, i, checkX, checkY);
      var grounded, nx, ny, vx, vy := React(g, checkX, checkY, k);
      x, y, velocityX, velocityY, onGround := nx, ny, vx, vy, grounded;
    }

    /** The reaction to cell (`checkX`, `checkY`), before it is written back. */
    method React(g: Grid, checkX: int, checkY: int, ghost k: Kin)
      returns (grounded: bool, nx: real, ny: real, vx: real, vy: real)
      requires Valid() && WellFormed(g) && k == Motion()
      ensures Kin(nx, ny, width, height, vx, vy, grounded) == Probe(k, g, checkX, checkY, Halt)
    {
      nx, ny, vx, vy := x, y, velocityX, velocityY;
      grounded := onGround;
      if checkX >= 0 && checkX < g.width && checkY >= 0 && checkY < g.height {
        var tile := GetTile(g, checkX, checkY);
        if SolidAt(tile) {
          var tileRect := CellRect(checkX, checkY);
          var playerRect := Rect(nx, ny, width, height);
          if CheckCollision(playerRect, tileRect) {
            var side := GetCollisionSide(playerRect, tileRect);
            if side == Bottom {
              grounded := true;
              vy := 0.0;
            } else if side == Top {
              vy := 0.0;
            } else {
              vx := 0.0;
            }
            var moved := ResolveCollision(Body(nx, ny, width, height, Some(vx), Some(vy)), tileRect);
            nx, ny := moved.x, moved.y;
            vx, vy := moved.velocityX.GetOr(vx), moved.velocityY.GetOr(vy);
          }
        }
      }
    }

    /** Keep the player within the level horizontally. */
    method StayInBounds(g: Grid)
      requires Valid()
      modifies this
      ensures Valid() && Model() == Clamp(old(Model()), g) && fireballs == old(fireballs)
    {
      if x < 0.0 {
        x := 0.0;
      }
      if x + width > PixelWidth(g) {
        x := PixelWidth(g) - width;
      }
    }

    method CountDownInvulnerability()
      requires Valid()
      modifies this
      ensures Valid() && Model() == Recover(old(Model())) && fireballs == old(fireballs)
    {
      if invulnerable {
        invulnerableTime := invulnerableTime - 1;
        if invulnerableTime <= 0 {
          invulnerable := false;
        }
      }
    }

    /** One pass of the fireball loop: fly `f`, and append it to `kept` if it
        is still in flight. */
    method FlyOne(f: Fireball, kept: seq<Fireball>, g: Grid) returns (r: seq<Fireball>)
      requires f !in kept && Distinct(kept)
      modifies f
      ensures Distinct(r) && forall x :: x in r ==> x in kept || x == f
      ensures var h := Fly(old(f.Model()));
        Models(r) == old(Models(kept)) + (if InFlight(h, g) then [h] else [])
    {
      ghost var prefix := Models(kept);
      f.Update();
      assert Models(kept) == prefix;
      r := kept;
      if f.active && f.x > -100.0 && f.x < PixelWidth(g) + 100.0 {
        r := kept + [f];
        assert Models(r) == prefix + [f.Model()];
      }
    }

    /** Fly every fireball and keep the ones still in flight, in order. */
    method UpdateFireballs(g: Grid)
      requires Valid()
      modifies this, set f | f in fireballs
      ensures Valid() && Model() == FlyFireballs(old(Model()), g)
      ensures forall f :: f in fireballs ==> f in old(fireballs)
    {
      var fs := fireballs;
      ghost var before := Models(fs);
      var kept: seq<Fireball> := [];
      var i := 0;
      while i < |fs|
        modifies fs
        invariant 0 <= i <= |fs|
        invariant forall j :: i <= j < |fs| ==> fs[j].Model() == before[j]
        invariant forall f :: f in kept ==> f in fs[..i]
        invariant Distinct(kept)
        invariant Models(kept) == Survivors(before[..i], g)
      {
        assert fs[i] !in kept;
        kept := FlyOne(fs[i], kept, g);
        assert before[..i + 1] == before[..i] + [before[i]];
        i := i + 1;
      }
      assert before[..|fs|] == before;
      fireballs := kept;
    }

    /** `takeDamage`. */
    method TakeDamage() returns (dies: bool)
      requires Valid()
      modifies this
      ensures Valid() && (Model(), dies) == Damage(old(Model())) && fireballs == old(fireballs)
    {
      if invulnerable {
        return false;
      }
      if powerState == Fire {
        powerState := Big;
        invulnerable := true;
        invulnerableTime := 120;
        return false;
      } else if powerState == Big {
        powerState := Small;
        invulnerable := true;
        invulnerableTime := 120;
        return false;
      } else {
        return true;
      }
    }

    /** `powerUp`. */
    method PowerUp(kind: PowerKind) returns (ok: bool)
      requires Valid()
      modifies this
      ensures Valid() && (Model(), ok) == Empower(old(Model()), kind) && fireballs == old(fireballs)
    {
      if kind == Mushroom && powerState == Small {
        powerState := Big;
        height := 48.0;
        return true;
      } else if kind == FireFlower && powerState != Fire {
        powerState := Fire;
        height := 48.0;
        return true;
      }
      return false;
    }

    /** `reset`. */
    method Reset()
      requires Valid()
      modifies this
      ensures Valid() && Model() == Respawn(old(Model())) && fireballs == []
    {
      x, y := startX, startY;
      velocityX, velocityY := 0.0, 0.0;
      powerState := Small;
      height := 32.0;
      invulnerable := false;
      fireballs := [];
    }

    function GetBounds(): (r: Rect)
      reads this, fireballs
      requires Valid()
      ensures r == Model().Bounds()
    {
      Rect(x, y, width, height)
    }
  }
}
