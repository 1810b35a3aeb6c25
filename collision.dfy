/** Collision tests and collision sparks (`collision.py`): circle overlap, segment crossing,
    the collision normal, which enemies and power-ups touch the player, the spark recipe of
    each kind of collision, and the sparks' life cycle. */
module Collisions {
  import opened Common

  /** A body the tests look at: its centre and its width (the radius is half the width,
      rounded down). */
  datatype Body = Body(x: real, y: real, width: int)

  function Centre(b: Body): Point { Point(b.x, b.y) }
  function Radius(b: Body): real { (b.width / 2) as real }

  // ---------------------------------------------------------------------------
  // Geometry
  // ---------------------------------------------------------------------------

  /** `check_circle_collision`: the centres are closer than the sum of the radii. */
  predicate CircleCollision(p1: Point, r1: real, p2: Point, r2: real, sqrt: real -> real)
    ensures p1 == p2 ==> (CircleCollision(p1, r1, p2, r2, sqrt) <==> sqrt(0.0) < r1 + r2)
  {
    Hypot(p1.x - p2.x, p1.y - p2.y, sqrt) < r1 + r2
  }

  /** With a square root that behaves as one, the test is the root-free comparison of the
      squared distance with the squared sum of the radii. */
  lemma CircleCollisionSquared(p1: Point, r1: real, p2: Point, r2: real, sqrt: real -> real)
    requires IsSqrt(sqrt)
    ensures var dx, dy := p1.x - p2.x, p1.y - p2.y;
      CircleCollision(p1, r1, p2, r2, sqrt) <==> r1 + r2 > 0.0 && dx * dx + dy * dy < (r1 + r2) * (r1 + r2)
  {
    var dx, dy := p1.x - p2.x, p1.y - p2.y;
    SquareNonNegative(dx);
    SquareNonNegative(dy);
    SqrtLess(sqrt, dx * dx + dy * dy, r1 + r2);
  }

  lemma NegatedSquare(d: real)
    ensures (-d) * (-d) == d * d
  {
  }

  /** The test does not depend on which circle comes first. */
  lemma CircleCollisionSymmetric(p1: Point, r1: real, p2: Point, r2: real, sqrt: real -> real)
    ensures CircleCollision(p1, r1, p2, r2, sqrt) == CircleCollision(p2, r2, p1, r1, sqrt)
  {
    NegatedSquare(p1.x - p2.x);
    NegatedSquare(p1.y - p2.y);
    assert p2.x - p1.x == -(p1.x - p2.x);
    assert p2.y - p1.y == -(p1.y - p2.y);
  }

  /** Two circles on the same centre collide exactly when their radii add up to more than
      nothing. */
  lemma ConcentricCollide(p: Point, r1: real, r2: real, sqrt: real -> real)
    requires IsSqrt(sqrt)
    ensures CircleCollision(p, r1, p, r2, sqrt) <==> r1 + r2 > 0.0
  {
    assert sqrt(0.0) == 0.0;
  }

  /** The cross product of `b - a` and `c - a`, as the inner `ccw` of `check_line_collision`
      compares its two halves. */
  function Cross(a: Point, b: Point, c: Point): real
  {
    (c.y - a.y) * (b.x - a.x) - (b.y - a.y) * (c.x - a.x)
  }

  /** `ccw(A, B, C)`: the three points turn strictly counter-clockwise (in the game's
      y-down screen coordinates, clockwise on screen). */
  predicate Ccw(a: Point, b: Point, c: Point)
    ensures Ccw(a, b, c) ==> a != b && a != c && b != c
  {
    (c.y - a.y) * (b.x - a.x) > (b.y - a.y) * (c.x - a.x)
  }

  lemma CcwIsCross(a: Point, b: Point, c: Point)
    ensures Ccw(a, b, c) <==> Cross(a, b, c) > 0.0
  {
  }

  /** Rotating the three points does not change their turn. */
  lemma CcwCyclic(a: Point, b: Point, c: Point)
    ensures Ccw(a, b, c) == Ccw(b, c, a)
  {
    CcwIsCross(a, b, c);
    CcwIsCross(b, c, a);
    assert Cross(a, b, c) == Cross(b, c, a);
  }

  /** `check_line_collision`: each segment's end points lie on strictly different sides
      of the other segment. */
  predicate LineCollision(s1: Point, e1: Point, s2: Point, e2: Point)
    ensures LineCollision(s1, e1, s2, e2) ==> s1 != e1 && s2 != e2
  {
    Ccw(s1, s2, e2) != Ccw(e1, s2, e2) && Ccw(s1, e1, s2) != Ccw(s1, e1, e2)
  }

  /** Swapping the two segments gives the same answer. */
  lemma LineCollisionSymmetric(s1: Point, e1: Point, s2: Point, e2: Point)
    ensures LineCollision(s1, e1, s2, e2) == LineCollision(s2, e2, s1, e1)
  {
    CcwCyclic(s1, e1, s2);
    CcwCyclic(e1, s2, s1);
    CcwCyclic(s1, e1, e2);
    CcwCyclic(e1, e2, s1);
    CcwCyclic(s1, s2, e2);
    CcwCyclic(e1, s2, e2);
  }

  /** `get_collision_normal`: the direction from the first point to the second, divided by
      the distance, or `(0, 0)` when the distance is not positive. */
  function CollisionNormal(p1: Point, p2: Point, sqrt: real -> real): (n: Point)
    ensures Hypot(p2.x - p1.x, p2.y - p1.y, sqrt) <= 0.0 ==> n == Point(0.0, 0.0)
  {
    var dx, dy := p2.x - p1.x, p2.y - p1.y;
    var length := Hypot(dx, dy, sqrt);
    if length > 0.0 then Point(dx / length, dy / length) else Point(0.0, 0.0)
  }

  /** Two differences that are not both zero have a positive sum of squares. */
  lemma SumSquaresPositive(dx: real, dy: real)
    requires dx != 0.0 || dy != 0.0
    ensures dx * dx + dy * dy > 0.0
  {
    SquareNonNegative(dx);
    SquareNonNegative(dy);
    if dx != 0.0 {
      SquarePositive(dx);
    } else {
      SquarePositive(dy);
    }
  }

  /** The normal is `(0, 0)` exactly when the two points coincide. */
  lemma NormalZeroIffCoincident(p1: Point, p2: Point, sqrt: real -> real)
    requires IsSqrt(sqrt)
    ensures CollisionNormal(p1, p2, sqrt) == Point(0.0, 0.0) <==> p1 == p2
  {
    var dx, dy := p2.x - p1.x, p2.y - p1.y;
    SquareNonNegative(dx);
    SquareNonNegative(dy);
    if p1 == p2 {
      assert dx * dx + dy * dy == 0.0;
    } else {
      assert dx != 0.0 || dy != 0.0;
      SumSquaresPositive(dx, dy);
      var d2 := dx * dx + dy * dy;
      assert sqrt(d2) >= 0.0 && sqrt(d2) != 0.0;
      var length := Hypot(dx, dy, sqrt);
      assert length > 0.0;
      if dx != 0.0 {
        assert dx / length != 0.0;
      } else {
        assert dy / length != 0.0;
      }
    }
  }

  // ---------------------------------------------------------------------------
  // Who touches the player
  // ---------------------------------------------------------------------------

  /** The bodies of `others`, in order, whose circle (radius half their width) meets the
      circle of radius `r` around `p`. */
  function Touching(p: Point, r: real, others: seq<Body>, sqrt: real -> real): (hits: seq<Body>)
    ensures |hits| <= |others|
  {
    if others == [] then []
    else
      var rest := Touching(p, r, others[..|others| - 1], sqrt);
      var b := others[|others| - 1];
      if CircleCollision(p, r, Centre(b), Radius(b), sqrt) then rest + [b] else rest
  }

  /** A body is reported exactly when it is one of the others and touches the circle. */
  lemma {:induction false} TouchingExact(p: Point, r: real, others: seq<Body>, sqrt: real -> real, b: Body)
    ensures b in Touching(p, r, others, sqrt) <==> b in others && CircleCollision(p, r, Centre(b), Radius(b), sqrt)
  {
    if others != [] {
      TouchingExact(p, r, others[..|others| - 1], sqrt, b);
      assert others == others[..|others| - 1] + [others[|others| - 1]];
    }
  }

  /** `check_player_enemy_collision`: the enemies whose circle meets the player's. */
  method PlayerEnemyCollisions(player: Body, enemies: seq<Body>, sqrt: real -> real) returns (hits: seq<Body>)
    ensures hits == Touching(Centre(player), Radius(player), enemies, sqrt)
  {
    hits := [];
    for i := 0 to |enemies|
      invariant hits == Touching(Centre(player), Radius(player), enemies[..i], sqrt)
    {
      assert enemies[..i + 1][..i] == enemies[..i];
      var e := enemies[i];
      if CircleCollision(Centre(player), Radius(player), Centre(e), Radius(e), sqrt) {
        hits := hits + [e];
      }
    }
    assert enemies[..|enemies|] == enemies;
  }

  /** A power-up on the screen; `collected` is absent (false) until it is picked up. */
  datatype PowerUp = PowerUp(x: real, y: real, kind: string, collected: bool)

  const PowerUpRadius: real := 15.0

  /** The power-ups, in order, not yet collected whose circle of radius 15 meets the
      player's. */
  function Reachable(p: Point, r: real, powerups: seq<PowerUp>, sqrt: real -> real): (hits: seq<PowerUp>)
    ensures |hits| <= |powerups|
  {
    if powerups == [] then []
    else
      var rest := Reachable(p, r, powerups[..|powerups| - 1], sqrt);
      var u := powerups[|powerups| - 1];
      if !u.collected && CircleCollision(p, r, Point(u.x, u.y), PowerUpRadius, sqrt) then rest + [u] else rest
  }

  /** A power-up is reported exactly when it is one of the power-ups, is not collected and
      touches the player, so a collected one never is. */
  lemma {:induction false} ReachableExact(p: Point, r: real, powerups: seq<PowerUp>, sqrt: real -> real, u: PowerUp)
    ensures u in Reachable(p, r, powerups, sqrt) <==>
      u in powerups && !u.collected && CircleCollision(p, r, Point(u.x, u.y), PowerUpRadius, sqrt)
  {
    if powerups != [] {
      ReachableExact(p, r, powerups[..|powerups| - 1], sqrt, u);
      assert powerups == powerups[..|powerups| - 1] + [powerups[|powerups| - 1]];
    }
  }

  /** `check_powerup_collision`. */
  method PowerUpCollisions(player: Body, powerups: seq<PowerUp>, sqrt: real -> real) returns (hits: seq<PowerUp>)
    ensures hits == Reachable(Centre(player), Radius(player), powerups, sqrt)
  {
    hits := [];
    for i := 0 to |powerups|
      invariant hits == Reachable(Centre(player), Radius(player), powerups[..i], sqrt)
    {
      assert powerups[..i + 1][..i] == powerups[..i];
      var u := powerups[i];
      if !u.collected && CircleCollision(Centre(player), Radius(player), Point(u.x, u.y), PowerUpRadius, sqrt) {
        hits := hits + [u];
      }
    }
    assert powerups[..|powerups|] == powerups;
  }

  // ---------------------------------------------------------------------------
  // Sparks
  // ---------------------------------------------------------------------------

  /** What a collision looks like: how many sparks, their colours, and the ranges their
      size and speed are drawn from. */
  datatype Effect = Effect(particles: nat, colors: seq<Color>, sizeRange: (real, real), speedRange: (real, real))

  /** `get_collision_effects`: the recipe for the three known kinds, and five white sparks
      for any other. */
  function CollisionEffect(kind: string): (e: Effect)
    ensures |e.colors| >= 1 && e.particles >= 5
    ensures kind !in {"player_enemy", "bullet_enemy", "player_powerup"} ==>
      e == Effect(5, [Color(255, 255, 255)], (1.0, 3.0), (2.0, 5.0))
  {
    if kind == "player_enemy" then
      Effect(10, [Color(255, 0, 0), Color(255, 100, 0), Color(255, 200, 0)], (2.0, 6.0), (3.0, 8.0))
    else if kind == "bullet_enemy" then
      Effect(8, [Color(0, 255, 255), Color(0, 200, 255), Color(100, 255, 255)], (1.0, 4.0), (2.0, 6.0))
    else if kind == "player_powerup" then
      Effect(15, [Color(255, 255, 0), Color(255, 255, 100), Color(255, 255, 200)], (2.0, 5.0), (1.0, 4.0))
    else Effect(5, [Color(255, 255, 255)], (1.0, 3.0), (2.0, 5.0))
  }

  /** A spark: position, velocity, size, colour, remaining and full life. */
  datatype Spark = Spark(x: real, y: real, velX: real, velY: real, size: real, color: Color, life: int, maxLife: int)

  /** The random choices for one spark: a direction, a speed and a size from the recipe's
      ranges, one of the recipe's colours, and a life in [20, 40]. */
  datatype SparkDraw = SparkDraw(angle: real, speed: real, size: real, color: Color, life: int)

  predicate DrawFits(e: Effect, d: SparkDraw)
  {
    e.speedRange.0 <= d.speed <= e.speedRange.1 && e.sizeRange.0 <= d.size <= e.sizeRange.1
    && d.color in e.colors && 20 <= d.life <= 40
  }

  /** One new spark at the collision point. */
  function NewSpark(pos: Point, d: SparkDraw, lib: MathLib): (s: Spark)
    ensures s.x == pos.x && s.y == pos.y && s.life == d.life && s.maxLife == 40 && s.color == d.color
  {
    Spark(pos.x, pos.y, lib.cos(d.angle) * d.speed, lib.sin(d.angle) * d.speed, d.size, d.color, d.life, 40)
  }

  /** `create_collision_particles`: one spark per draw, as many as the recipe asks for, all
      at the collision point with a colour of the recipe. */
  method CreateSparks(pos: Point, e: Effect, draws: seq<SparkDraw>, lib: MathLib) returns (sparks: seq<Spark>)
    requires |draws| == e.particles && forall i :: 0 <= i < |draws| ==> DrawFits(e, draws[i])
    ensures |sparks| == e.particles
    ensures forall i :: 0 <= i < |sparks| ==> sparks[i] == NewSpark(pos, draws[i], lib)
    ensures forall s :: s in sparks ==> s.color in e.colors && 0 < s.life <= s.maxLife
  {
    sparks := [];
    for i := 0 to e.particles
      invariant |sparks| == i
      invariant forall k :: 0 <= k < i ==> sparks[k] == NewSpark(pos, draws[k], lib)
    {
      sparks := sparks + [NewSpark(pos, draws[i], lib)];
    }
    assert forall s :: s in sparks ==> exists k :: 0 <= k < |sparks| && s == NewSpark(pos, draws[k], lib) && DrawFits(e, draws[k]);
  }

  /** One frame of a spark: it moves, loses one life, and friction slows it by 2%. */
  function StepSpark(s: Spark): (t: Spark)
    ensures t.life == s.life - 1 && t.color == s.color && t.maxLife == s.maxLife && t.size == s.size
  {
    s.(x := s.x + s.velX, y := s.y + s.velY, life := s.life - 1, velX := s.velX * 0.98, velY := s.velY * 0.98)
  }

  /** The spark list after `update_collision_particles`: every spark stepped, in order,
      those whose life ran out removed. */
  function AgeSparks(ss: seq<Spark>): (r: seq<Spark>)
    ensures |r| <= |ss|
    ensures forall t :: t in r ==> t.life > 0
  {
    if ss == [] then []
    else
      var rest := AgeSparks(ss[..|ss| - 1]);
      var last := StepSpark(ss[|ss| - 1]);
      if last.life <= 0 then rest else rest + [last]
  }

  /** The survivors are the stepped sparks that still have life: every one comes from a
      spark of the list, and none with life left is lost. */
  lemma {:induction false} AgeSparksMembers(ss: seq<Spark>)
    ensures forall s :: s in ss && s.life > 1 ==> StepSpark(s) in AgeSparks(ss)
    ensures forall t :: t in AgeSparks(ss) ==> exists s :: s in ss && t == StepSpark(s)
  {
    if ss != [] {
      AgeSparksMembers(ss[..|ss| - 1]);
      assert forall s :: s in ss ==> s in ss[..|ss| - 1] || s == ss[|ss| - 1];
    }
  }

  /** `update_collision_particles`, which edits the caller's list in place; here it returns
      the new list. */
  method UpdateSparks(sparks: seq<Spark>) returns (kept: seq<Spark>)
    ensures kept == AgeSparks(sparks)
  {
    kept := [];
    var i := 0;
    while i < |sparks|
      invariant 0 <= i <= |sparks|
      invariant kept == AgeSparks(sparks[..i])
    {
      var t := StepSpark(sparks[i]);
      assert sparks[..i + 1][..i] == sparks[..i];
      if t.life > 0 {
        kept := kept + [t];
      }
      i := i + 1;
    }
    assert sparks[..i] == sparks;
  }

  /** A fresh spark lives between 20 and 40 frames: it survives exactly `life - 1` updates. */
  lemma SparkSurvivesUpdate(s: Spark)
    requires s.life >= 2
    ensures AgeSparks([s]) == [StepSpark(s)]
  {
    assert [s][..0] == [];
  }
}
