/** The player's ship (`player.py`, and its older copy `player_backup.py`, whose logic is the
    same): movement clamped to the screen, a shot behind a cooldown, a shield that takes
    damage before health, healing capped at the maximum, a reset, and short-lived thrust
    particles. */
module Players {
  import opened Common
  import opened Bullets

  const ShipWidth: int := 30
  const ShipHeight: int := 40
  /** `width // 2` and `height // 2`. */
  const HalfWidth: int := 15
  const HalfHeight: int := 20
  /** Frames between two shots before any upgrade. */
  const BaseCooldown: int := 15

  /** The directions and the fire button as `update` reads them: a key (arrow or WASD) or the
      gamepad's left stick beyond half-way, and Space or the gamepad's A button. */
  datatype Controls = Controls(left: bool, right: bool, up: bool, down: bool, fire: bool)

  /** A thrust particle: position, velocity, remaining life, full life and hue. */
  datatype Thrust = Thrust(x: real, y: real, velX: real, velY: real, life: int, maxLife: int, hue: real)

  /** The random part of a thrust particle: offsets from the ship's tail, velocity, life
      (`randint(15, 25)`) and hue. */
  datatype ThrustDraw = ThrustDraw(dx: real, dy: real, velX: real, velY: real, life: int, hue: real)

  predicate DrawInRange(d: ThrustDraw)
  {
    -5.0 <= d.dx <= 5.0 && 0.0 <= d.dy <= 10.0 && -1.0 <= d.velX <= 1.0 && 2.0 <= d.velY <= 5.0
    && 15 <= d.life <= 25 && 0.1 <= d.hue <= 0.3
  }

  /** A new thrust particle behind a ship at `(x, y)`. */
  function NewThrust(x: real, y: real, d: ThrustDraw): (t: Thrust)
    ensures DrawInRange(d) ==> 15 <= t.life <= t.maxLife == 25
    ensures DrawInRange(d) ==> y + 20.0 <= t.y <= y + 30.0 && x - 5.0 <= t.x <= x + 5.0
  {
    Thrust(x + d.dx, y + HalfHeight as real + d.dy, d.velX, d.velY, d.life, 25, d.hue)
  }

  /** One frame of a thrust particle: it moves by its velocity and loses one life. */
  function StepThrust(t: Thrust): (u: Thrust)
    ensures u.life == t.life - 1 && u.velX == t.velX && u.velY == t.velY && u.maxLife == t.maxLife
  {
    t.(x := t.x + t.velX, y := t.y + t.velY, life := t.life - 1)
  }

  /** The particle list after `update_thrust_particles`: every particle stepped, in order,
      those whose life ran out removed. */
  function AgeThrust(ts: seq<Thrust>): (r: seq<Thrust>)
    ensures |r| <= |ts|
    ensures forall u :: u in r ==> u.life > 0
  {
    if ts == [] then []
    else
      var rest := AgeThrust(ts[..|ts| - 1]);
      var last := StepThrust(ts[|ts| - 1]);
      if last.life <= 0 then rest else rest + [last]
  }

  /** The survivors are exactly the stepped particles that still have life: every one comes
      from a particle of the list, and none with life left is lost. */
  lemma {:induction false} AgeThrustMembers(ts: seq<Thrust>)
    ensures forall t :: t in ts && t.life > 1 ==> StepThrust(t) in AgeThrust(ts)
    ensures forall u :: u in AgeThrust(ts) ==> exists t :: t in ts && u == StepThrust(t)
  {
    if ts != [] {
      AgeThrustMembers(ts[..|ts| - 1]);
      assert forall t :: t in ts ==> t in ts[..|ts| - 1] || t == ts[|ts| - 1];
    }
  }

  /** The loop of `update_thrust_particles`, over a copy of the list. */
  method StepAll(ts: seq<Thrust>) returns (kept: seq<Thrust>)
    ensures kept == AgeThrust(ts)
  {
    kept := [];
    var i := 0;
    while i < |ts|
      invariant 0 <= i <= |ts|
      invariant kept == AgeThrust(ts[..i])
    {
      var t := StepThrust(ts[i]);
      assert ts[..i + 1][..i] == ts[..i];
      if t.life > 0 {
        kept := kept + [t];
      }
      i := i + 1;
    }
    assert ts[..i] == ts;
  }

  /** A coordinate after the movement keys: `speed` back for the first direction, `speed`
      forward for the second. */
  function Axis(v: real, back: bool, forward: bool, speed: real): (r: real)
    ensures back == forward ==> r == v
    ensures back && !forward ==> r == v - speed
    ensures forward && !back ==> r == v + speed
  {
    v - (if back then speed else 0.0) + (if forward then speed else 0.0)
  }

  /** Every thrust particle ever created lives at most 25 frames, and a stepped list keeps
      that bound. */
  lemma AgeThrustKeepsLifeBound(ts: seq<Thrust>)
    requires forall t :: t in ts ==> t.life <= 25
    ensures forall u :: u in AgeThrust(ts) ==> 0 < u.life <= 24
  {
    AgeThrustMembers(ts);
  }

  /** `shoot` fires one yellow bullet straight up from the ship's nose. */
  ghost predicate PlayerBullet(b: Bullet, x: real, y: real, damage: int)
    reads b
  {
    b.Valid() && b.x == x && b.y == y - HalfHeight as real && b.direction == -1
    && b.color == Color(255, 255, 0) && b.speed == 8.0 && b.damage == damage
    && b.velX == 0.0 && b.velY == 0.0 && b.angle == 0.0 && !b.useCustomMovement && b.trail == [] && b.alive
  }

  /** The health and shield after a hit: an active shield takes the amount first and passes
      any overflow on to health; health never drops below 0. */
  function Hit(health: int, shield: int, amount: int): (r: (int, int))
    ensures r.0 >= 0
    ensures shield > 0 && amount <= shield ==> r == (MaxI(health, 0), shield - amount)
    ensures shield > 0 && amount > shield ==> r == (MaxI(health - (amount - shield), 0), 0)
    ensures shield <= 0 ==> r == (MaxI(health - amount, 0), shield)
  {
    var (h, s) :=
      if shield > 0 then
        (if shield - amount < 0 then (health + (shield - amount), 0) else (health, shield - amount))
      else (health - amount, shield);
    (if h < 0 then 0 else h, s)
  }

  /** Damage is never amplified: shield and health together lose at most the amount, and
      a non-negative hit never raises either. */
  lemma HitLosesAtMostAmount(health: int, shield: int, amount: int)
    requires health >= 0 && shield >= 0 && amount >= 0
    ensures var r := Hit(health, shield, amount);
      r.0 <= health && r.1 <= shield && r.0 + r.1 >= health + shield - amount
  {
  }

  class Player {
    const originalX: real
    const originalY: real
    var x: real
    var y: real
    var speed: real
    var health: int
    var maxHealth: int
    var shield: int
    var shieldMax: int
    var bulletDamage: int
    var shootCooldown: int
    var shootCooldownMax: int
    var animationFrame: real
    var thrust: seq<Thrust>

    /** The cooldowns are never negative. */
    ghost predicate Valid()
      reads this
    {
      shootCooldown >= 0 && shootCooldownMax >= 0
    }

    /** `Player(x, y)`: 100 health, no shield, speed 5, one damage per bullet, 15 frames
        between shots. */
    constructor (x: real, y: real)
      ensures Valid()
      ensures originalX == x && originalY == y && this.x == x && this.y == y
      ensures speed == 5.0 && health == 100 && maxHealth == 100 && shield == 0 && shieldMax == 0
      ensures bulletDamage == 1 && shootCooldown == 0 && shootCooldownMax == BaseCooldown
      ensures animationFrame == 0.0 && thrust == []
    {
      originalX, originalY := x, y;
      this.x, this.y := x, y;
      speed := 5.0;
      health, maxHealth := 100, 100;
      shield, shieldMax := 0, 0;
      bulletDamage := 1;
      shootCooldown, shootCooldownMax := 0, BaseCooldown;
      animationFrame := 0.0;
      thrust := [];
    }

    /** `shoot`: with the cooldown at 0, one bullet joins the group, the cooldown restarts
        and the answer is true; otherwise nothing changes and the answer is false. */
    method Shoot(group: seq<Bullet>) returns (fired: bool, newGroup: seq<Bullet>)
      requires Valid()
      modifies this`shootCooldown
      ensures Valid()
      ensures fired <==> old(shootCooldown) == 0
      ensures fired ==> (shootCooldown == shootCooldownMax && |newGroup| == |group| + 1
        && newGroup[..|group|] == group && fresh(newGroup[|group|])
        && PlayerBullet(newGroup[|group|], x, y, bulletDamage))
      ensures !fired ==> shootCooldown == old(shootCooldown) && newGroup == group
    {
      if shootCooldown == 0 {
        var b := new Bullet(x, y - HalfHeight as real, -1, Color(255, 255, 0), 8.0, bulletDamage);
        newGroup := group + [b];
        shootCooldown := shootCooldownMax;
        return true, newGroup;
      }
      return false, group;
    }

    /** `take_damage(amount)`. */
    method TakeDamage(amount: int)
      modifies this`health, this`shield
      ensures (health, shield) == Hit(old(health), old(shield), amount)
    {
      if shield > 0 {
        shield := shield - amount;
        if shield < 0 {
          health := health + shield;
          shield := 0;
        }
      } else {
        health := health - amount;
      }
      if health < 0 {
        health := 0;
      }
    }

    /** `heal(amount)`: health rises by the amount but not beyond the maximum. */
    method Heal(amount: int)
      modifies this`health
      ensures health == MinI(maxHealth, old(health) + amount)
      ensures old(health) <= maxHealth && amount >= 0 ==> old(health) <= health <= maxHealth
    {
      health := MinI(maxHealth, health + amount);
    }

    /** `reset`: back at the starting position with full health, a full shield and a gun
        ready to fire. */
    method Reset()
      requires Valid()
      modifies this`x, this`y, this`health, this`shield, this`shootCooldown
      ensures Valid()
      ensures x == originalX && y == originalY && health == maxHealth && shield == shieldMax
      ensures shootCooldown == 0
    {
      x, y := originalX, originalY;
      health := maxHealth;
      shield := shieldMax;
      shootCooldown := 0;
    }

    /** `create_thrust_particles` followed by `update_thrust_particles`: two new particles
        behind the ship, then every particle stepped and the dead ones removed. */
    method Thrusters(draws: seq<ThrustDraw>)
      requires Valid() && |draws| == 2 && DrawInRange(draws[0]) && DrawInRange(draws[1])
      modifies this`thrust
      ensures Valid()
      ensures thrust == AgeThrust(old(thrust) + [NewThrust(x, y, draws[0]), NewThrust(x, y, draws[1])])
    {
      var kept := StepAll(thrust + [NewThrust(x, y, draws[0]), NewThrust(x, y, draws[1])]);
      thrust := kept;
    }

    /** The firing step of `update`: shoot when the fire control is held and a group is
        given. */
    method Trigger(fire: bool, group: Option<seq<Bullet>>) returns (fired: bool, newGroup: Option<seq<Bullet>>)
      requires Valid()
      modifies this`shootCooldown
      ensures Valid()
      ensures fired <==> fire && group.Some? && old(shootCooldown) == 0
      ensures fired ==> shootCooldown == shootCooldownMax
      ensures !fired ==> shootCooldown == old(shootCooldown) && newGroup == group
      ensures newGroup.Some? <==> group.Some?
      ensures fired ==> |newGroup.value| == |group.value| + 1 && newGroup.value[..|group.value|] == group.value
      ensures fired ==>
        fresh(newGroup.value[|group.value|]) && PlayerBullet(newGroup.value[|group.value|], x, y, bulletDamage)
    {
      fired, newGroup := false, group;
      if fire && group.Some? {
        var g;
        fired, g := Shoot(group.value);
        newGroup := Some(g);
      }
    }

    /** The clamp of `update`: the ship's centre stays at least half the ship's size inside
        the screen. */
    method Confine(screenWidth: int, screenHeight: int)
      modifies this`x, this`y
      ensures x == Bound(old(x), HalfWidth as real, (screenWidth - HalfWidth) as real)
      ensures y == Bound(old(y), HalfHeight as real, (screenHeight - HalfHeight) as real)
    {
      x := Bound(x, HalfWidth as real, (screenWidth - HalfWidth) as real);
      y := Bound(y, HalfHeight as real, (screenHeight - HalfHeight) as real);
    }

    /** `update(keys, screen_width, screen_height, bullets_group, audio)`: move by `speed`
        in each pressed direction, fire when asked and a group is given, keep the ship's
        centre at least half its size inside the screen, count the cooldown down, animate
        and run the thrusters. `laser` is whether the 'laser' sound is asked for, which
        happens exactly when a shot was fired. */
    method Update(c: Controls, screenWidth: int, screenHeight: int, group: Option<seq<Bullet>>,
                  draws: seq<ThrustDraw>)
      returns (laser: bool, newGroup: Option<seq<Bullet>>)
      requires Valid() && |draws| == 2 && DrawInRange(draws[0]) && DrawInRange(draws[1])
      modifies this
      ensures Valid()
      ensures x == Bound(Axis(old(x), c.left, c.right, old(speed)), HalfWidth as real,
                         (screenWidth - HalfWidth) as real)
      ensures y == Bound(Axis(old(y), c.up, c.down, old(speed)), HalfHeight as real,
                         (screenHeight - HalfHeight) as real)
      ensures laser <==> c.fire && group.Some? && old(shootCooldown) == 0
      ensures laser ==> shootCooldown == MaxI(shootCooldownMax - 1, 0)
      ensures !laser ==> shootCooldown == MaxI(old(shootCooldown) - 1, 0)
      ensures newGroup.Some? <==> group.Some?
      ensures !laser ==> newGroup == group
      ensures laser ==> |newGroup.value| == |group.value| + 1 && newGroup.value[..|group.value|] == group.value
      ensures laser ==>
        fresh(newGroup.value[|group.value|])
        && PlayerBullet(newGroup.value[|group.value|], Axis(old(x), c.left, c.right, old(speed)),
                        Axis(old(y), c.up, c.down, old(speed)), old(bulletDamage))
      ensures animationFrame == old(animationFrame) + 0.2
      ensures thrust == AgeThrust(old(thrust) + [NewThrust(x, y, draws[0]), NewThrust(x, y, draws[1])])
      ensures health == old(health) && shield == old(shield) && speed == old(speed)
      ensures shootCooldownMax == old(shootCooldownMax) && bulletDamage == old(bulletDamage)
    {
      x := Axis(x, c.left, c.right, speed);
      y := Axis(y, c.up, c.down, speed);
      laser, newGroup := Trigger(c.fire, group);
      Confine(screenWidth, screenHeight);
      if shootCooldown > 0 {
        shootCooldown := shootCooldown - 1;
      }
      animationFrame := animationFrame + 0.2;
      Thrusters(draws);
    }
  }

  /** On a screen at least as large as the ship, a ship inside the screen stays inside it
      after any move. */
  lemma StaysOnScreen(v: real, size: int, screen: int)
    requires 0 <= size <= screen
    ensures 0.0 <= Bound(v, (size / 2) as real, (screen - size / 2) as real) <= screen as real
  {
  }
}
