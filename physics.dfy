/** Axis-aligned bounding boxes, the collision side test, snap-out resolution,
    gravity and friction (js/physics.js). All arithmetic is exact. */
module Physics {
  import opened Wrappers

  /** Gravity added to a vertical velocity per unit of time. */
  const Gravity: real := 0.8
  /** Factor by which friction scales a horizontal velocity. */
  const Friction: real := 0.85
  /** Horizontal speeds below this snap to zero under friction. */
  const FrictionCutoff: real := 0.1

  /** An axis-aligned box in world pixels; `y` grows downwards. */
  datatype Rect = Rect(x: real, y: real, width: real, height: real)

  /** Which face of the second box the first box touches. */
  datatype Side = Top | Bottom | Left | Right

  /** Anything that can be pushed around: a box and the velocity components it
      actually carries. A missing component is the source's `undefined`. */
  datatype Body = Body(x: real, y: real, width: real, height: real,
                       velocityX: Option<real>, velocityY: Option<real>)
  {
    function Bounds(): Rect { Rect(x, y, width, height) }
  }

  function Abs(v: real): real { if v < 0.0 then -v else v }

  function Min(a: real, b: real): real { if a < b then a else b }

  function Max(a: real, b: real): real { if a < b then b else a }

  /** Overlap of two boxes, strict on every edge. */
  function CheckCollision(a: Rect, b: Rect): bool {
    a.x < b.x + b.width &&
    a.x + a.width > b.x &&
    a.y < b.y + b.height &&
    a.y + a.height > b.y
  }

  /** A point lies in a box, edges included. */
  function PointInRect(px: real, py: real, r: Rect): bool {
    px >= r.x && px <= r.x + r.width &&
    py >= r.y && py <= r.y + r.height
  }

  function OverlapX(a: Rect, b: Rect): real {
    Min(a.x + a.width - b.x, b.x + b.width - a.x)
  }

  function OverlapY(a: Rect, b: Rect): real {
    Min(a.y + a.height - b.y, b.y + b.height - a.y)
  }

  /** The side on which `a` meets `b`: the axis of smaller overlap, a tie going
      to the vertical axis; the face is chosen by comparing the near edges. */
  function GetCollisionSide(a: Rect, b: Rect): Side {
    if OverlapX(a, b) < OverlapY(a, b) then
      (if a.x < b.x then Left else Right)
    else
      (if a.y < b.y then Top else Bottom)
  }

  /** Zero a velocity component, if the body has one. */
  function Stop(v: Option<real>): (r: Option<real>)
    ensures r.Some? <==> v.Some?
    ensures r.Some? ==> r.value == 0.0
  {
    if v.Some? then Some(0.0) else None
  }

  /** Snap `m` flush against `s` on the side it touches and stop it on that axis. */
  function ResolveCollision(m: Body, s: Rect): (r: Body)
    ensures !CheckCollision(r.Bounds(), s)
    ensures r.width == m.width && r.height == m.height
  {
    match GetCollisionSide(m.Bounds(), s)
    case Top    => m.(y := s.y - m.height, velocityY := Stop(m.velocityY))
    case Bottom => m.(y := s.y + s.height, velocityY := Stop(m.velocityY))
    case Left   => m.(x := s.x - m.width, velocityX := Stop(m.velocityX))
    case Right  => m.(x := s.x + s.width, velocityX := Stop(m.velocityX))
  }

  /** Add `Gravity * dt` to the vertical velocity, if there is one. */
  function ApplyGravity(o: Body, dt: real): (r: Body)
    ensures r.velocityY.Some? <==> o.velocityY.Some?
    ensures o.velocityY.Some? ==> r.velocityY.value - o.velocityY.value == Gravity * dt
    ensures r == o.(velocityY := r.velocityY)
  {
    match o.velocityY
    case None => o
    case Some(vy) => o.(velocityY := Some(vy + Gravity * dt))
  }

  /** Scale the horizontal speed by `Friction`, snapping to rest below the cutoff. */
  function DampX(vx: real): real {
    var v := vx * Friction;
    if Abs(v) < FrictionCutoff then 0.0 else v
  }

  /** Apply friction to the horizontal velocity, if there is one. */
  function ApplyFriction(o: Body): (r: Body)
    ensures r.velocityX.Some? <==> o.velocityX.Some?
    ensures r == o.(velocityX := r.velocityX)
  {
    match o.velocityX
    case None => o
    case Some(vx) => o.(velocityX := Some(DampX(vx)))
  }

  /** The box of grid cell (`tileX`, `tileY`) for tiles of side `tileSize`. */
  function TileRect(tileX: int, tileY: int, tileSize: real): Rect {
    Rect(tileX as real * tileSize, tileY as real * tileSize, tileSize, tileSize)
  }

  /** Whether `o` overlaps grid cell (`tileX`, `tileY`). */
  function CheckTileCollision(o: Rect, tileX: int, tileY: int, tileSize: real): (r: bool)
    ensures r == CheckCollision(o, TileRect(tileX, tileY, tileSize))
  {
    var tileRect := Rect(tileX as real * tileSize, tileY as real * tileSize, tileSize, tileSize);
    var objRect := Rect(o.x, o.y, o.width, o.height);
    CheckCollision(objRect, tileRect)
  }

  // ---------------------------------------------------------------------------
  // Properties

  /** A point strictly inside a box. */
  predicate Inside(px: real, py: real, r: Rect) {
    r.x < px < r.x + r.width && r.y < py < r.y + r.height
  }

  /** The overlap test does not depend on the order of its arguments, and boxes
      that only share an edge do not overlap. */
  lemma CollisionSymmetric(a: Rect, b: Rect)
    ensures CheckCollision(a, b) == CheckCollision(b, a)
    ensures (a.x + a.width == b.x || b.x + b.width == a.x ||
             a.y + a.height == b.y || b.y + b.height == a.y) ==> !CheckCollision(a, b)
  {
  }

  /** For boxes of positive size, the strict overlap test holds exactly when
      some point lies strictly inside both boxes. */
  lemma CollisionIffCommonPoint(a: Rect, b: Rect)
    requires a.width > 0.0 && a.height > 0.0 && b.width > 0.0 && b.height > 0.0
    ensures CheckCollision(a, b) <==> exists px, py :: Inside(px, py, a) && Inside(px, py, b)
  {
    if CheckCollision(a, b) {
      var px := (Max(a.x, b.x) + Min(a.x + a.width, b.x + b.width)) / 2.0;
      var py := (Max(a.y, b.y) + Min(a.y + a.height, b.y + b.height)) / 2.0;
      assert Inside(px, py, a) && Inside(px, py, b);
    }
  }

  /** `PointInRect` includes all four edges of a box of non-negative size. */
  lemma PointInRectInclusive(r: Rect)
    requires r.width >= 0.0 && r.height >= 0.0
    ensures PointInRect(r.x, r.y, r) && PointInRect(r.x + r.width, r.y, r)
    ensures PointInRect(r.x, r.y + r.height, r) && PointInRect(r.x + r.width, r.y + r.height, r)
    ensures forall px, py :: Inside(px, py, r) ==> PointInRect(px, py, r)
  {
  }

  /** The horizontal answers need a strictly smaller horizontal overlap; otherwise
      the answer is vertical, `Top` exactly when `a` starts above `b`. */
  lemma SideClassification(a: Rect, b: Rect)
    ensures GetCollisionSide(a, b) in {Left, Right} <==> OverlapX(a, b) < OverlapY(a, b)
    ensures GetCollisionSide(a, b) == Top <==> OverlapX(a, b) >= OverlapY(a, b) && a.y < b.y
    ensures GetCollisionSide(a, b) == Left <==> OverlapX(a, b) < OverlapY(a, b) && a.x < b.x
  {
  }

  /** Seen from the other box, a top contact is a bottom one and a left contact
      a right one. */
  lemma SideSwap(a: Rect, b: Rect)
    ensures GetCollisionSide(a, b) == Top ==> GetCollisionSide(b, a) == Bottom
    ensures GetCollisionSide(a, b) == Left ==> GetCollisionSide(b, a) == Right
  {
  }

  /** Resolution places the resolved edge flush with the static box, stops the
      body on that axis, and leaves the other axis untouched. */
  lemma ResolveFlush(m: Body, s: Rect)
    ensures var r := ResolveCollision(m, s);
      match GetCollisionSide(m.Bounds(), s)
      case Top    => r == m.(y := r.y, velocityY := r.velocityY) && r.y + r.height == s.y
                     && r.velocityY == Stop(m.velocityY)
      case Bottom => r == m.(y := r.y, velocityY := r.velocityY) && r.y == s.y + s.height
                     && r.velocityY == Stop(m.velocityY)
      case Left   => r == m.(x := r.x, velocityX := r.velocityX) && r.x + r.width == s.x
                     && r.velocityX == Stop(m.velocityX)
      case Right  => r == m.(x := r.x, velocityX := r.velocityX) && r.x == s.x + s.width
                     && r.velocityX == Stop(m.velocityX)
  {
  }

  /** The tile test singles out grid cells: a box that exactly fills cell
      (`tx`, `ty`) overlaps that cell and none of its four neighbours, and for
      boxes of positive size the test holds exactly when some point lies
      strictly inside both the box and the cell. */
  lemma TileTestSelectsCell(o: Rect, tx: int, ty: int, ts: real)
    requires ts > 0.0
    ensures o == TileRect(tx, ty, ts) ==>
      CheckTileCollision(o, tx, ty, ts) &&
      !CheckTileCollision(o, tx + 1, ty, ts) && !CheckTileCollision(o, tx - 1, ty, ts) &&
      !CheckTileCollision(o, tx, ty + 1, ts) && !CheckTileCollision(o, tx, ty - 1, ts)
    ensures o.width > 0.0 && o.height > 0.0 ==>
      (CheckTileCollision(o, tx, ty, ts) <==>
         exists px, py :: Inside(px, py, o) && Inside(px, py, TileRect(tx, ty, ts)))
  {
    var t := tx as real * ts;
    var u := ty as real * ts;
    assert (tx + 1) as real * ts == t + ts && (tx - 1) as real * ts == t - ts;
    assert (ty + 1) as real * ts == u + ts && (ty - 1) as real * ts == u - ts;
    if o.width > 0.0 && o.height > 0.0 {
      CollisionIffCommonPoint(o, TileRect(tx, ty, ts));
    }
  }

  /** `n` applications of gravity over steps of `dt`. */
  function GravitySteps(o: Body, dt: real, n: nat): Body {
    if n == 0 then o else ApplyGravity(GravitySteps(o, dt, n - 1), dt)
  }

  /** Gravity accumulates linearly: `n` steps of `dt` equal one step of `n * dt`
      (so sixty steps of 1/60 add exactly `Gravity`). */
  lemma {:induction false} GravityAccumulates(o: Body, dt: real, n: nat)
    ensures GravitySteps(o, dt, n) == ApplyGravity(o, n as real * dt)
  {
    if n > 0 {
      var m: nat := n - 1;
      GravityAccumulates(o, dt, m);
      assert GravitySteps(o, dt, n) == ApplyGravity(GravitySteps(o, dt, m), dt);
      if o.velocityY.Some? {
        var vy := o.velocityY.value;
        var a := vy + Gravity * (m as real * dt);
        assert n as real * dt == m as real * dt + dt;
        assert a + Gravity * dt == vy + Gravity * (n as real * dt);
        assert ApplyGravity(o, m as real * dt) == o.(velocityY := Some(a));
        assert ApplyGravity(o.(velocityY := Some(a)), dt) == o.(velocityY := Some(a + Gravity * dt));
        assert ApplyGravity(o, n as real * dt) == o.(velocityY := Some(vy + Gravity * (n as real * dt)));
      }
    }
  }

  /** Friction never speeds a body up, leaves it either at rest or at least at the
      cutoff speed, keeps a resting body at rest, and strictly slows a moving one. */
  lemma FrictionBounds(vx: real)
    ensures Abs(DampX(vx)) <= Abs(vx)
    ensures DampX(vx) == 0.0 || Abs(DampX(vx)) >= FrictionCutoff
    ensures vx == 0.0 ==> DampX(vx) == 0.0
    ensures vx != 0.0 ==> Abs(DampX(vx)) < Abs(vx)
    ensures DampX(vx) != 0.0 ==> DampX(vx) == vx * Friction
  {
  }

  function Power(b: real, n: nat): real {
    if n == 0 then 1.0 else b * Power(b, n - 1)
  }

  /** `n` applications of friction to a horizontal speed. */
  function DampSteps(vx: real, n: nat): real {
    if n == 0 then vx else DampX(DampSteps(vx, n - 1))
  }

  /** Until it snaps to rest, a damped speed is exactly the geometric decay of
      the initial one; after that it stays at rest. */
  lemma {:induction false} FrictionDecay(vx: real, n: nat)
    ensures DampSteps(vx, n) == 0.0 || DampSteps(vx, n) == vx * Power(Friction, n)
    ensures n > 0 && DampSteps(vx, n - 1) == 0.0 ==> DampSteps(vx, n) == 0.0
  {
    if n > 0 {
      FrictionDecay(vx, n - 1);
      var prev := DampSteps(vx, n - 1);
      if prev != 0.0 && DampSteps(vx, n) != 0.0 {
        calc {
          DampSteps(vx, n);
          prev * Friction;
          vx * Power(Friction, n - 1) * Friction;
          vx * Power(Friction, n);
        }
      }
    }
  }
}
