/** The scrolling tunnel (`level_generator.py`): two walls of points that move down the
    screen, grow at the top and are trimmed at the bottom, obstacles and power-ups that
    appear in the channel between them, the rectangles the walls and obstacles collide
    with, and the narrowing of the channel as the level rises. */
module LevelGen {
  import opened Common
  import Collisions

  /** The starting width of each side wall, and the narrowest it becomes. */
  const InitialWallWidth: int := 100
  const MinWallWidth: int := 80

  datatype ObstacleKind = Rock | Crystal | EnergyField

  /** An obstacle: centre, kind and size. Its rotation and pulse only drive drawing. */
  datatype Obstacle = Obstacle(x: real, y: real, kind: ObstacleKind, size: int)

  /** An axis-aligned rectangle: left, top, width, height. */
  datatype Rect = Rect(left: real, top: real, width: real, height: real)

  // ---------------------------------------------------------------------------
  // Initial walls
  // ---------------------------------------------------------------------------

  /** How many rows `range(0, height + 200, 20)` yields. */
  function Rows(height: int): (n: nat)
    ensures n > 0 <==> height + 200 > 0
  {
    if height + 200 <= 0 then 0 else (height + 200 + 19) / 20
  }

  /** The rows of `Rows(height)` are exactly the multiples of 20 below `height + 200`. */
  lemma RowsCount(height: int, i: nat)
    ensures i < Rows(height) <==> 20 * i < height + 200
  {
  }

  /** `generate_initial_terrain`: a wall point every 20 pixels from the top to 200 below the
      screen, each side `wall_width` from its edge give or take a random 20. */
  method InitialWalls(width: int, wallWidth: int, height: int, jitter: seq<(int, int)>)
    returns (left: seq<Point>, right: seq<Point>)
    requires |jitter| == Rows(height)
    ensures |left| == |right| == Rows(height)
    ensures forall i :: 0 <= i < |left| ==>
      left[i] == Point((wallWidth + jitter[i].0) as real, (20 * i) as real)
      && right[i] == Point((width - wallWidth + jitter[i].1) as real, (20 * i) as real)
  {
    left, right := [], [];
    for i := 0 to Rows(height)
      invariant |left| == |right| == i
      invariant forall k :: 0 <= k < i ==>
        left[k] == Point((wallWidth + jitter[k].0) as real, (20 * k) as real)
        && right[k] == Point((width - wallWidth + jitter[k].1) as real, (20 * k) as real)
    {
      left := left + [Point((wallWidth + jitter[i].0) as real, (20 * i) as real)];
      right := right + [Point((width - wallWidth + jitter[i].1) as real, (20 * i) as real)];
    }
  }

  // ---------------------------------------------------------------------------
  // Moving and trimming
  // ---------------------------------------------------------------------------

  /** Every wall point moved down by `speed`. */
  function Shift(wall: seq<Point>, speed: real): (r: seq<Point>)
    ensures |r| == |wall|
    ensures forall i :: 0 <= i < |r| ==> r[i] == Point(wall[i].x, wall[i].y + speed)
  {
    seq(|wall|, i requires 0 <= i < |wall| => Point(wall[i].x, wall[i].y + speed))
  }

  /** The wall loops of `move_terrain`, which rewrite each point in place. */
  method ShiftWall(wall: seq<Point>, speed: real) returns (r: seq<Point>)
    ensures r == Shift(wall, speed)
  {
    r := wall;
    for i := 0 to |r|
      invariant |r| == |wall|
      invariant forall k :: 0 <= k < i ==> r[k] == Point(wall[k].x, wall[k].y + speed)
      invariant forall k :: i <= k < |r| ==> r[k] == wall[k]
    {
      r := r[i := Point(r[i].x, r[i].y + speed)];
    }
  }

  /** The obstacles moved down by `speed`, in order, without those now more than 50 below
      the screen. */
  function MoveObstacles(obs: seq<Obstacle>, speed: real, limit: real): (r: seq<Obstacle>)
    ensures |r| <= |obs|
    ensures forall o :: o in r ==> o.y <= limit
  {
    if obs == [] then []
    else
      var rest := MoveObstacles(obs[..|obs| - 1], speed, limit);
      var o := obs[|obs| - 1];
      var moved := o.(y := o.y + speed);
      if moved.y > limit then rest else rest + [moved]
  }

  /** An obstacle stays exactly when its moved position is still within the limit. */
  lemma {:induction false} MoveObstaclesExact(obs: seq<Obstacle>, speed: real, limit: real, o: Obstacle)
    ensures o.(y := o.y + speed) in MoveObstacles(obs, speed, limit) <==> o in obs && o.y + speed <= limit
  {
    if obs != [] {
      MoveObstaclesExact(obs[..|obs| - 1], speed, limit, o);
      var last := obs[|obs| - 1];
      assert obs == obs[..|obs| - 1] + [last];
      assert last.(y := last.y + speed) == o.(y := o.y + speed) ==> last == o;
    }
  }

  /** The power-ups moved down by `speed`, in order, without those now more than 50 below
      the screen. */
  function MovePowerUps(ps: seq<Collisions.PowerUp>, speed: real, limit: real): (r: seq<Collisions.PowerUp>)
    ensures |r| <= |ps|
    ensures forall p :: p in r ==> p.y <= limit
  {
    if ps == [] then []
    else
      var rest := MovePowerUps(ps[..|ps| - 1], speed, limit);
      var p := ps[|ps| - 1];
      var moved := p.(y := p.y + speed);
      if moved.y > limit then rest else rest + [moved]
  }

  /** The obstacle loop of `move_terrain`, over a copy of the list. */
  method MoveObstacleList(obs: seq<Obstacle>, speed: real, limit: real) returns (kept: seq<Obstacle>)
    ensures kept == MoveObstacles(obs, speed, limit)
  {
    kept := [];
    for i := 0 to |obs|
      invariant kept == MoveObstacles(obs[..i], speed, limit)
    {
      assert obs[..i + 1][..i] == obs[..i];
      var moved := obs[i].(y := obs[i].y + speed);
      if moved.y <= limit {
        kept := kept + [moved];
      }
    }
    assert obs[..|obs|] == obs;
  }

  /** The power-up loop of `move_terrain`, over a copy of the list. */
  method MovePowerUpList(ps: seq<Collisions.PowerUp>, speed: real, limit: real) returns (kept: seq<Collisions.PowerUp>)
    ensures kept == MovePowerUps(ps, speed, limit)
  {
    kept := [];
    for i := 0 to |ps|
      invariant kept == MovePowerUps(ps[..i], speed, limit)
    {
      assert ps[..i + 1][..i] == ps[..i];
      var moved := ps[i].(y := ps[i].y + speed);
      if moved.y <= limit {
        kept := kept + [moved];
      }
    }
    assert ps[..|ps|] == ps;
  }

  /** The wall points above `limit`, in order: the list comprehension of `cleanup_terrain`. */
  function Above(wall: seq<Point>, limit: real): (r: seq<Point>)
    ensures |r| <= |wall|
  {
    if wall == [] then []
    else
      var rest := Above(wall[..|wall| - 1], limit);
      var p := wall[|wall| - 1];
      if p.y < limit then rest + [p] else rest
  }

  /** A point is kept exactly when it is a wall point above the limit. */
  lemma {:induction false} AboveExact(wall: seq<Point>, limit: real, p: Point)
    ensures p in Above(wall, limit) <==> p in wall && p.y < limit
  {
    if wall != [] {
      AboveExact(wall[..|wall| - 1], limit, p);
      assert wall == wall[..|wall| - 1] + [wall[|wall| - 1]];
    }
  }

  /** Trimming keeps the order: trimming two pieces and joining them is trimming the whole. */
  lemma {:induction false} AboveConcat(a: seq<Point>, b: seq<Point>, limit: real)
    ensures Above(a + b, limit) == Above(a, limit) + Above(b, limit)
  {
    if b != [] {
      var b' := b[..|b| - 1];
      AboveConcat(a, b', limit);
      assert (a + b)[..|a + b| - 1] == a + b';
      assert (a + b)[|a + b| - 1] == b[|b| - 1];
    } else {
      assert a + b == a;
    }
  }

  /** Trimming a second time removes nothing. */
  lemma {:induction false} AboveIdempotent(wall: seq<Point>, limit: real)
    ensures Above(Above(wall, limit), limit) == Above(wall, limit)
  {
    if wall != [] {
      var w := wall[..|wall| - 1];
      AboveIdempotent(w, limit);
      var p := wall[|wall| - 1];
      if p.y < limit {
        AboveConcat(Above(w, limit), [p], limit);
        assert Above([p], limit) == [p] by { assert [p][..0] == []; }
      }
    }
  }

  // ---------------------------------------------------------------------------
  // New terrain
  // ---------------------------------------------------------------------------

  /** The random draws of one call of `generate_new_terrain`: the steps of the two walls
      (each in [-variation, variation]), the two rolls that decide whether an obstacle
      (`randint(1, 100) <= 3`) or a power-up (`randint(1, 300) <= 1`) is created, and what
      they would be. */
  datatype TerrainDraw = TerrainDraw(
    leftStep: int, rightStep: int,
    obstacleRoll: int, obstacleOffset: int, obstacleKind: ObstacleKind, obstacleSize: int,
    powerUpRoll: int, powerUpOffset: int, powerUpKind: string)

  /** `int(complexity * 30)`: how far a new wall point may stray from the last. */
  function Variation(complexity: real, level: int): (v: int)
    ensures 0.0 <= complexity && 1 <= level ==> 0 <= v
    ensures 1.0 <= complexity && 1 <= level ==> 30 <= v
  {
    Trunc((complexity + (level - 1) as real * 0.5) * 30.0)
  }

  /** The next x of the left wall: within `variation` of the last, kept in
      [50, width // 3]. */
  function NextLeft(lastX: real, step: int, width: int): (x: real)
    ensures 50.0 <= x
    ensures 50 <= width / 3 ==> x <= (width / 3) as real
  {
    Bound(lastX + step as real, 50.0, (width / 3) as real)
  }

  /** The next x of the right wall, kept in [width * 2 // 3, width - 50]. */
  function NextRight(lastX: real, step: int, width: int): (x: real)
    ensures (width * 2 / 3) as real <= x
    ensures width * 2 / 3 <= width - 50 ==> x <= (width - 50) as real
  {
    Bound(lastX + step as real, (width * 2 / 3) as real, (width - 50) as real)
  }

  /** The channel between the top points of the two walls, if both walls have points. */
  function Channel(left: seq<Point>, right: seq<Point>): Option<(real, real)>
  {
    if left != [] && right != [] then Some((left[0].x, right[0].x - left[0].x)) else None
  }

  /** `generate_obstacle`: an obstacle 50 above the screen, inside the channel, when the
      channel is wider than 100. */
  function NewObstacle(left: seq<Point>, right: seq<Point>, d: TerrainDraw): (o: Option<Obstacle>)
    ensures o.Some? <==> Channel(left, right).Some? && Channel(left, right).value.1 > 100.0
    ensures o.Some? ==> o.value.y == -50.0 && o.value.x == left[0].x + d.obstacleOffset as real
  {
    match Channel(left, right)
    case Some((leftX, width)) =>
      if width > 100.0 then Some(Obstacle(leftX + d.obstacleOffset as real, -50.0, d.obstacleKind, d.obstacleSize))
      else None
    case None => None
  }

  /** `generate_powerup`: an uncollected power-up 30 above the screen, inside the channel,
      when the channel is wider than 80. */
  function NewPowerUp(left: seq<Point>, right: seq<Point>, d: TerrainDraw): (p: Option<Collisions.PowerUp>)
    ensures p.Some? <==> Channel(left, right).Some? && Channel(left, right).value.1 > 80.0
    ensures p.Some? ==> p.value.y == -30.0 && !p.value.collected
  {
    match Channel(left, right)
    case Some((leftX, width)) =>
      if width > 80.0 then Some(Collisions.PowerUp(leftX + d.powerUpOffset as real, -30.0, d.powerUpKind, false))
      else None
    case None => None
  }

  /** The walls after the growth step of `generate_new_terrain`: while the top of the left
      wall is lower than 100 above the screen, each wall gets a new top point 20 above the
      screen (the right wall starts from `width - wall_width` when it is empty). */
  function Grown(left: seq<Point>, right: seq<Point>, d: TerrainDraw, width: int, wallWidth: int)
    : (walls: (seq<Point>, seq<Point>))
    ensures left != [] && left[0].y > -100.0 ==>
      |walls.0| == |left| + 1 && |walls.1| == |right| + 1 && walls.0[1..] == left && walls.1[1..] == right
      && walls.0[0].y == walls.1[0].y == -20.0
    ensures !(left != [] && left[0].y > -100.0) ==> walls == (left, right)
  {
    if left != [] && left[0].y > -100.0 then
      var lastRight := if right != [] then right[0].x else (width - wallWidth) as real;
      ([Point(NextLeft(left[0].x, d.leftStep, width), -20.0)] + left,
       [Point(NextRight(lastRight, d.rightStep, width), -20.0)] + right)
    else (left, right)
  }

  /** The draws fit the ranges `generate_new_terrain` and its helpers draw from, where
      they are used; `left` and `right` are the walls the helpers read, after growth. */
  predicate DrawFits(d: TerrainDraw, variation: int, left: seq<Point>, right: seq<Point>)
  {
    -variation <= d.leftStep <= variation && -variation <= d.rightStep <= variation
    && 1 <= d.obstacleRoll <= 100 && 1 <= d.powerUpRoll <= 300 && 15 <= d.obstacleSize <= 30
    && (Channel(left, right).Some? && Channel(left, right).value.1 > 100.0 ==>
          20 <= d.obstacleOffset <= Trunc(Channel(left, right).value.1 - 20.0))
    && (Channel(left, right).Some? && Channel(left, right).value.1 > 80.0 ==>
          20 <= d.powerUpOffset <= Trunc(Channel(left, right).value.1 - 20.0))
    && d.powerUpKind in {"health", "speed", "multishot", "shield"}
  }

  /** Whatever the walls, some draw fits: the ranges are never empty where they are used. */
  lemma DrawFitsExists(variation: nat, left: seq<Point>, right: seq<Point>)
    ensures exists d :: DrawFits(d, variation, left, right)
  {
    var d := TerrainDraw(0, 0, 1, 20, Rock, 15, 1, 20, "health");
    if Channel(left, right).Some? {
      var w := Channel(left, right).value.1;
      if w > 80.0 {
        assert 20 <= Trunc(w - 20.0);
      }
    }
    assert DrawFits(d, variation, left, right);
  }

  /** An obstacle lies inside the channel, at least 20 from either wall. */
  lemma ObstacleInChannel(left: seq<Point>, right: seq<Point>, d: TerrainDraw, variation: int)
    requires DrawFits(d, variation, left, right) && NewObstacle(left, right, d).Some?
    ensures left[0].x + 20.0 <= NewObstacle(left, right, d).value.x <= right[0].x - 20.0
  {
    var w := right[0].x - left[0].x;
    assert Trunc(w - 20.0) as real <= w - 20.0;
  }

  /** A new obstacle appears 50 above the screen, so it keeps every obstacle within a limit
      at least that high. */
  lemma NewObstacleBelow(moved: seq<Obstacle>, obs: seq<Obstacle>, left: seq<Point>, right: seq<Point>,
                         d: TerrainDraw, limit: real)
    requires forall o :: o in moved ==> o.y <= limit
    requires limit >= -50.0
    requires obs == moved || (NewObstacle(left, right, d).Some? && obs == moved + [NewObstacle(left, right, d).value])
    ensures forall o :: o in obs ==> o.y <= limit
  {
  }

  /** A power-up lies inside the channel, at least 20 from either wall. */
  lemma PowerUpInChannel(left: seq<Point>, right: seq<Point>, d: TerrainDraw, variation: int)
    requires DrawFits(d, variation, left, right) && NewPowerUp(left, right, d).Some?
    ensures left[0].x + 20.0 <= NewPowerUp(left, right, d).value.x <= right[0].x - 20.0
  {
    var w := right[0].x - left[0].x;
    assert Trunc(w - 20.0) as real <= w - 20.0;
  }

  /** The rectangles of `get_collision_rects`: one per pair of neighbouring points of each
      wall (reaching from the screen edge to the wall), then one square per obstacle. */
  function LeftRects(wall: seq<Point>): (r: seq<Rect>)
    ensures |r| == MaxI(|wall| - 1, 0)
  {
    if |wall| <= 1 then []
    else
      seq(|wall| - 1, i requires 0 <= i < |wall| - 1 =>
        LeftRect(wall[i], wall[i + 1]))
  }

  function RightRects(wall: seq<Point>, width: int): (r: seq<Rect>)
    ensures |r| == MaxI(|wall| - 1, 0)
  {
    if |wall| <= 1 then []
    else
      seq(|wall| - 1, i requires 0 <= i < |wall| - 1 =>
        RightRect(wall[i], wall[i + 1], width))
  }

  /** The rectangle between two neighbouring left-wall points, from the screen's left
      edge to the upper point's x. */
  function LeftRect(a: Point, b: Point): Rect
  {
    Rect(0.0, MinR(a.y, b.y), a.x, AbsR(b.y - a.y) + 10.0)
  }

  /** The rectangle between two neighbouring right-wall points, from the upper point's x
      to the screen's right edge. */
  function RightRect(a: Point, b: Point, width: int): Rect
  {
    Rect(a.x, MinR(a.y, b.y), width as real - a.x, AbsR(b.y - a.y) + 10.0)
  }

  function ObstacleRect(o: Obstacle): Rect
  {
    Rect(o.x - (o.size / 2) as real, o.y - (o.size / 2) as real, o.size as real, o.size as real)
  }

  /** All collision rectangles, walls first. */
  function CollisionRects(left: seq<Point>, right: seq<Point>, obs: seq<Obstacle>, width: int): (r: seq<Rect>)
    ensures left != [] && right != [] ==> |r| == (|left| - 1) + (|right| - 1) + |obs|
  {
    LeftRects(left) + RightRects(right, width) + seq(|obs|, i requires 0 <= i < |obs| => ObstacleRect(obs[i]))
  }

  /** A wall rectangle spans the vertical gap between its two points, plus 10. */
  lemma WallRectSpansGap(wall: seq<Point>, i: nat)
    requires i + 1 < |wall|
    ensures var r := LeftRects(wall)[i];
      r.top <= wall[i].y && r.top <= wall[i + 1].y && r.top + r.height >= wall[i].y + 10.0
      && r.top + r.height >= wall[i + 1].y + 10.0
  {
  }

  /** The left-wall loop of `get_collision_rects`. */
  method LeftRectLoop(wall: seq<Point>) returns (rects: seq<Rect>)
    ensures rects == LeftRects(wall)
  {
    rects := [];
    if |wall| > 1 {
      for i := 0 to |wall| - 1
        invariant |rects| == i
        invariant forall k :: 0 <= k < i ==> rects[k] == LeftRect(wall[k], wall[k + 1])
      {
        rects := rects + [LeftRect(wall[i], wall[i + 1])];
      }
    }
  }

  /** The right-wall loop of `get_collision_rects`. */
  method RightRectLoop(wall: seq<Point>, width: int) returns (rects: seq<Rect>)
    ensures rects == RightRects(wall, width)
  {
    rects := [];
    if |wall| > 1 {
      for i := 0 to |wall| - 1
        invariant |rects| == i
        invariant forall k :: 0 <= k < i ==> rects[k] == RightRect(wall[k], wall[k + 1], width)
      {
        rects := rects + [RightRect(wall[i], wall[i + 1], width)];
      }
    }
  }

  /** The obstacle loop of `get_collision_rects`. */
  method ObstacleRectLoop(obs: seq<Obstacle>) returns (rects: seq<Rect>)
    ensures rects == seq(|obs|, i requires 0 <= i < |obs| => ObstacleRect(obs[i]))
  {
    rects := [];
    for k := 0 to |obs|
      invariant |rects| == k
      invariant forall j :: 0 <= j < k ==> rects[j] == ObstacleRect(obs[j])
    {
      rects := rects + [ObstacleRect(obs[k])];
    }
  }

  class LevelGenerator {
    const width: int
    const height: int
    var currentLevel: int
    var obstacles: seq<Obstacle>
    var powerups: seq<Collisions.PowerUp>
    var leftWall: seq<Point>
    var rightWall: seq<Point>
    var wallWidth: int
    var noiseOffset: real
    var terrainComplexity: real

    /** The walls are between 80 and 100 wide, the level is at least 1 and the terrain's
        complexity at least 1. */
    ghost predicate Valid()
      reads this
    {
      MinWallWidth <= wallWidth <= InitialWallWidth && currentLevel >= 1 && terrainComplexity >= 1.0
    }

    /** `LevelGenerator(width, height)` with the random offsets of the initial walls. */
    constructor (width: int, height: int, jitter: seq<(int, int)>)
      requires |jitter| == Rows(height)
      ensures Valid()
      ensures this.width == width && this.height == height && currentLevel == 1
      ensures obstacles == [] && powerups == [] && wallWidth == InitialWallWidth
      ensures noiseOffset == 0.0 && terrainComplexity == 1.0
      ensures |leftWall| == |rightWall| == Rows(height)
      ensures forall i :: 0 <= i < |leftWall| ==>
        leftWall[i] == Point((InitialWallWidth + jitter[i].0) as real, (20 * i) as real)
        && rightWall[i] == Point((width - InitialWallWidth + jitter[i].1) as real, (20 * i) as real)
    {
      this.width := width;
      this.height := height;
      currentLevel := 1;
      obstacles, powerups := [], [];
      wallWidth := InitialWallWidth;
      noiseOffset := 0.0;
      terrainComplexity := 1.0;
      new;
      leftWall, rightWall := InitialWalls(width, InitialWallWidth, height, jitter);
    }

    /** `move_terrain(speed)`: walls, obstacles and power-ups move down by `speed`;
        obstacles and power-ups more than 50 below the screen are dropped. */
    method MoveTerrain(speed: real)
      modifies this`leftWall, this`rightWall, this`obstacles, this`powerups
      ensures leftWall == Shift(old(leftWall), speed) && rightWall == Shift(old(rightWall), speed)
      ensures obstacles == MoveObstacles(old(obstacles), speed, (height + 50) as real)
      ensures powerups == MovePowerUps(old(powerups), speed, (height + 50) as real)
    {
      leftWall := ShiftWall(leftWall, speed);
      rightWall := ShiftWall(rightWall, speed);
      obstacles := MoveObstacleList(obstacles, speed, (height + 50) as real);
      powerups := MovePowerUpList(powerups, speed, (height + 50) as real);
    }

    /** `generate_new_terrain`: while the top of the left wall is lower than 100 above the
        screen, each wall gets a new top point 20 above the screen; then, on their rolls,
        an obstacle and a power-up may appear. */
    method GenerateNewTerrain(d: TerrainDraw)
      requires Valid()
      requires DrawFits(d, Variation(terrainComplexity, currentLevel),
                        Grown(leftWall, rightWall, d, width, wallWidth).0,
                        Grown(leftWall, rightWall, d, width, wallWidth).1)
      modifies this`leftWall, this`rightWall, this`obstacles, this`powerups
      ensures (leftWall, rightWall) == Grown(old(leftWall), old(rightWall), d, width, wallWidth)
      ensures d.obstacleRoll <= 3 && NewObstacle(leftWall, rightWall, d).Some? ==>
        && obstacles == old(obstacles) + [NewObstacle(leftWall, rightWall, d).value]
        && leftWall[0].x + 20.0 <= NewObstacle(leftWall, rightWall, d).value.x <= rightWall[0].x - 20.0
      ensures !(d.obstacleRoll <= 3 && NewObstacle(leftWall, rightWall, d).Some?) ==> obstacles == old(obstacles)
      ensures d.powerUpRoll <= 1 && NewPowerUp(leftWall, rightWall, d).Some? ==>
        && powerups == old(powerups) + [NewPowerUp(leftWall, rightWall, d).value]
        && leftWall[0].x + 20.0 <= NewPowerUp(leftWall, rightWall, d).value.x <= rightWall[0].x - 20.0
      ensures !(d.powerUpRoll <= 1 && NewPowerUp(leftWall, rightWall, d).Some?) ==> powerups == old(powerups)
    {
      if leftWall != [] && leftWall[0].y > -100.0 {
        var newLeft := NextLeft(leftWall[0].x, d.leftStep, width);
        var lastRight := if rightWall != [] then rightWall[0].x else (width - wallWidth) as real;
        leftWall := [Point(newLeft, -20.0)] + leftWall;
        rightWall := [Point(NextRight(lastRight, d.rightStep, width), -20.0)] + rightWall;
      }
      ghost var variation := Variation(terrainComplexity, currentLevel);
      if d.obstacleRoll <= 3 {
        var o := NewObstacle(leftWall, rightWall, d);
        if o.Some? {
          ObstacleInChannel(leftWall, rightWall, d, variation);
          obstacles := obstacles + [o.value];
        }
      }
      if d.powerUpRoll <= 1 {
        var p := NewPowerUp(leftWall, rightWall, d);
        if p.Some? {
          PowerUpInChannel(leftWall, rightWall, d, variation);
          powerups := powerups + [p.value];
        }
      }
    }

    /** `cleanup_terrain`: wall points 100 or more below the screen are dropped. */
    method CleanupTerrain()
      modifies this`leftWall, this`rightWall
      ensures leftWall == Above(old(leftWall), (height + 100) as real)
      ensures rightWall == Above(old(rightWall), (height + 100) as real)
      ensures forall p :: p in leftWall ==> p.y < (height + 100) as real
      ensures forall p :: p in rightWall ==> p.y < (height + 100) as real
    {
      ghost var left, right := leftWall, rightWall;
      leftWall := Above(leftWall, (height + 100) as real);
      rightWall := Above(rightWall, (height + 100) as real);
      forall p | p in leftWall
        ensures p.y < (height + 100) as real
      {
        AboveExact(left, (height + 100) as real, p);
      }
      forall p | p in rightWall
        ensures p.y < (height + 100) as real
      {
        AboveExact(right, (height + 100) as real, p);
      }
    }

    /** `get_collision_rects`, built by its three loops. */
    method GetCollisionRects() returns (rects: seq<Rect>)
      ensures rects == CollisionRects(leftWall, rightWall, obstacles, width)
    {
      var l := LeftRectLoop(leftWall);
      var r := RightRectLoop(rightWall, width);
      var o := ObstacleRectLoop(obstacles);
      rects := l + r + o;
    }

    /** `increase_difficulty`: one level up, a more jagged terrain, and walls 5 narrower
        but never below 80. */
    method IncreaseDifficulty()
      requires Valid()
      modifies this`currentLevel, this`terrainComplexity, this`wallWidth
      ensures Valid()
      ensures currentLevel == old(currentLevel) + 1 && terrainComplexity == old(terrainComplexity) + 0.3
      ensures wallWidth == MaxI(MinWallWidth, old(wallWidth) - 5)
    {
      currentLevel := currentLevel + 1;
      terrainComplexity := terrainComplexity + 0.3;
      wallWidth := MaxI(MinWallWidth, wallWidth - 5);
    }

    /** The draws fit the walls as they will be after moving by `scrollSpeed` and growing. */
    ghost predicate FitsAfterScroll(scrollSpeed: real, d: TerrainDraw)
      reads this
    {
      var g := Grown(Shift(leftWall, scrollSpeed), Shift(rightWall, scrollSpeed), d, width, wallWidth);
      var fits := DrawFits(d, Variation(terrainComplexity, currentLevel), g.0, g.1);
      fits
    }

    /** `update(scroll_speed)`: move, grow at the top, trim at the bottom. */
    method Update(scrollSpeed: real, d: TerrainDraw)
      requires Valid()
      requires FitsAfterScroll(scrollSpeed, d)
      modifies this`noiseOffset, this`leftWall, this`rightWall, this`obstacles, this`powerups
      ensures Valid()
      ensures noiseOffset == old(noiseOffset) + scrollSpeed
      ensures forall p :: p in leftWall ==> p.y < (height + 100) as real
      ensures forall p :: p in rightWall ==> p.y < (height + 100) as real
      ensures height >= -100 ==> forall o :: o in obstacles ==> o.y <= (height + 50) as real
      ensures var g := Grown(Shift(old(leftWall), scrollSpeed), Shift(old(rightWall), scrollSpeed), d, width, wallWidth);
        leftWall == Above(g.0, (height + 100) as real) && rightWall == Above(g.1, (height + 100) as real)
      ensures var g := Grown(Shift(old(leftWall), scrollSpeed), Shift(old(rightWall), scrollSpeed), d, width, wallWidth);
        var moved := MoveObstacles(old(obstacles), scrollSpeed, (height + 50) as real);
        obstacles == if d.obstacleRoll <= 3 && NewObstacle(g.0, g.1, d).Some?
                     then moved + [NewObstacle(g.0, g.1, d).value] else moved
      ensures var g := Grown(Shift(old(leftWall), scrollSpeed), Shift(old(rightWall), scrollSpeed), d, width, wallWidth);
        var moved := MovePowerUps(old(powerups), scrollSpeed, (height + 50) as real);
        powerups == if d.powerUpRoll <= 1 && NewPowerUp(g.0, g.1, d).Some?
                    then moved + [NewPowerUp(g.0, g.1, d).value] else moved
    {
      ghost var g := Grown(Shift(leftWall, scrollSpeed), Shift(rightWall, scrollSpeed), d, width, wallWidth);
      ScrollAndGrow(scrollSpeed, d);
      assert leftWall == g.0 && rightWall == g.1;
      ghost var grownObstacles, grownPowerups := obstacles, powerups;
      // No terrain step reads the noise offset, so it may move after them.
      noiseOffset := noiseOffset + scrollSpeed;
      CleanupTerrain();
      assert obstacles == grownObstacles && powerups == grownPowerups;
    }

    /** The first two steps of `update`: the terrain moves down, then grows at the top. */
    method ScrollAndGrow(scrollSpeed: real, d: TerrainDraw)
      requires Valid()
      requires FitsAfterScroll(scrollSpeed, d)
      modifies this`leftWall, this`rightWall, this`obstacles, this`powerups
      ensures (leftWall, rightWall) == Grown(Shift(old(leftWall), scrollSpeed), Shift(old(rightWall), scrollSpeed), d, width, wallWidth)
      ensures height >= -100 ==> forall o :: o in obstacles ==> o.y <= (height + 50) as real
      ensures var moved := MoveObstacles(old(obstacles), scrollSpeed, (height + 50) as real);
        obstacles == if d.obstacleRoll <= 3 && NewObstacle(leftWall, rightWall, d).Some?
                     then moved + [NewObstacle(leftWall, rightWall, d).value] else moved
      ensures var moved := MovePowerUps(old(powerups), scrollSpeed, (height + 50) as real);
        powerups == if d.powerUpRoll <= 1 && NewPowerUp(leftWall, rightWall, d).Some?
                    then moved + [NewPowerUp(leftWall, rightWall, d).value] else moved
    {
      MoveTerrain(scrollSpeed);
      ghost var moved := obstacles;
      GenerateNewTerrain(d);
      if height >= -100 {
        NewObstacleBelow(moved, obstacles, leftWall, rightWall, d, (height + 50) as real);
      }
    }
  }

  /** However many times the difficulty rises, the walls never become narrower than 80. */
  lemma {:induction false} WallWidthFloor(w: int, n: nat)
    requires MinWallWidth <= w
    ensures MinWallWidth <= Narrowed(w, n) <= w
  {
    if n > 0 {
      WallWidthFloor(w, n - 1);
    }
  }

  /** The wall width after `n` rises of difficulty. */
  function Narrowed(w: int, n: nat): int
  {
    if n == 0 then w else MaxI(MinWallWidth, Narrowed(w, n - 1) - 5)
  }

  /** From the starting 100, four rises reach the floor of 80 and later ones stay there. */
  lemma {:induction false} NarrowedFromStart(n: nat)
    ensures Narrowed(InitialWallWidth, n) == MaxI(MinWallWidth, InitialWallWidth - 5 * n)
  {
    if n > 0 {
      NarrowedFromStart(n - 1);
    }
  }
}
