/** Projectiles (`bullet.py`): a bullet moves either by its own velocity (boss attacks) or
    straight along its direction, keeps a short trail of its last positions and is removed
    once it leaves the play area. */
module Bullets {
  import opened Common

  const TrailLength: nat := 5

  /** Outside the band `[-20, 820] x [-20, 800]` a bullet is removed. */
  predicate OffScreen(x: real, y: real)
    ensures 0.0 <= x <= 800.0 && 0.0 <= y <= 600.0 ==> !OffScreen(x, y)
  {
    y < -20.0 || y > 800.0 || x < -20.0 || x > 820.0
  }

  /** The vertical step of a bullet without velocity, `speed * direction`. */
  function Advance(speed: real, direction: int): (dy: real)
    ensures direction == 0 ==> dy == 0.0
    ensures speed >= 0.0 && direction > 0 ==> dy >= 0.0
    ensures speed >= 0.0 && direction < 0 ==> dy <= 0.0
  {
    speed * direction as real
  }

  /** The sideways step of an angled bullet, `sin(angle) * speed * abs(direction)`. */
  function Drift(sin: real -> real, angle: real, speed: real, direction: int): (dx: real)
    ensures direction == 0 || speed == 0.0 || sin(angle) == 0.0 ==> dx == 0.0
  {
    sin(angle) * speed * AbsR(direction as real)
  }

  class Bullet {
    var x: real
    var y: real
    var direction: int
    var speed: real
    var color: Color
    var damage: int
    var velX: real
    var velY: real
    var angle: real
    var useCustomMovement: bool
    var trail: seq<Point>
    var animationFrame: real
    /** False once `kill` has removed the sprite from its groups. */
    var alive: bool

    ghost predicate Valid()
      reads this
    {
      |trail| <= TrailLength
    }

    /** `Bullet(x, y, direction, color, speed, damage)`: no velocity, no angle, no trail. */
    constructor (x: real, y: real, direction: int, color: Color, speed: real, damage: int)
      ensures Valid()
      ensures this.x == x && this.y == y && this.direction == direction && this.color == color
      ensures this.speed == speed && this.damage == damage
      ensures velX == 0.0 && velY == 0.0 && angle == 0.0 && !useCustomMovement
      ensures trail == [] && animationFrame == 0.0 && alive
    {
      this.x := x;
      this.y := y;
      this.direction := direction;
      this.speed := speed;
      this.color := color;
      this.damage := damage;
      velX := 0.0;
      velY := 0.0;
      angle := 0.0;
      useCustomMovement := false;
      trail := [];
      animationFrame := 0.0;
      alive := true;
    }

    /** Whether the bullet moves by its own velocity. */
    predicate Custom()
      reads this
    {
      useCustomMovement || velX != 0.0 || velY != 0.0
    }

    /** `update`: with a velocity the position moves by exactly that velocity; otherwise the
        bullet moves `speed * direction` vertically and, when angled, sideways by
        `sin(angle) * speed * |direction|`. The new position is recorded in the trail and the
        bullet is removed once it is off the play area. */
    method Update(sin: real -> real)
      requires Valid()
      modifies this
      ensures Valid()
      ensures old(Custom()) ==> x == old(x) + velX && y == old(y) + velY
      ensures !old(Custom()) ==> (y == old(y) + Advance(speed, direction)
        && x == (if angle != 0.0 then old(x) + Drift(sin, angle, speed, direction) else old(x)))
      ensures trail == PushBounded(old(trail), Point(x, y), TrailLength)
      ensures alive == (old(alive) && !OffScreen(x, y))
      ensures animationFrame == old(animationFrame) + 0.3
      ensures velX == old(velX) && velY == old(velY) && speed == old(speed) && direction == old(direction)
      ensures angle == old(angle) && useCustomMovement == old(useCustomMovement)
      ensures color == old(color) && damage == old(damage)
    {
      var nx, ny := x, y;
      if useCustomMovement || velX != 0.0 || velY != 0.0 {
        nx, ny := x + velX, y + velY;
      } else {
        if angle != 0.0 {
          nx := x + Drift(sin, angle, speed, direction);
        }
        ny := y + Advance(speed, direction);
      }
      x, y := nx, ny;
      animationFrame := animationFrame + 0.3;
      trail := PushBounded(trail, Point(nx, ny), TrailLength);
      if OffScreen(nx, ny) {
        alive := false;
      }
    }
  }

  /** The fields a new bullet is fired with: `Bullet(x, y, direction=1, color, speed)` with
      the default damage, followed by the caller's settings of its angle, its velocity and
      its custom-movement flag. */
  datatype Shot = Shot(x: real, y: real, color: Color, speed: real, angle: real, velX: real, velY: real, custom: bool)

  /** A shot with no angle, no velocity and no custom movement. */
  function Plain(x: real, y: real, color: Color, speed: real): Shot
  {
    Shot(x, y, color, speed, 0.0, 0.0, 0.0, false)
  }

  /** `b` is a bullet freshly fired as `s` describes. */
  ghost predicate Matches(b: Bullet, s: Shot)
    reads b
  {
    b.Valid() && b.x == s.x && b.y == s.y && b.color == s.color && b.speed == s.speed
    && b.angle == s.angle && b.velX == s.velX && b.velY == s.velY && b.useCustomMovement == s.custom
    && b.direction == 1 && b.damage == 1 && b.trail == [] && b.alive
  }

  /** Creates the bullet a shot describes. */
  method Fire(s: Shot) returns (b: Bullet)
    ensures fresh(b) && Matches(b, s)
  {
    b := new Bullet(s.x, s.y, 1, s.color, s.speed, 1);
    b.angle := s.angle;
    b.velX := s.velX;
    b.velY := s.velY;
    b.useCustomMovement := s.custom;
  }
}
