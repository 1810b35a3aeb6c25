/** The level boss (`boss.py`): health that only falls and is floored at zero, three phases
    entered as health crosses two thirds and one third, an entry-then-pattern movement clamped
    to the upper part of the screen, four rotating attack patterns gated by a cooldown, and
    the turret parts that depend on the boss's type. */
module Bosses {
  import opened Common
  import opened Bullets
  import BossTypes

  const Width: int := 120
  const Height: int := 100
  const Speed: real := 1.5
  const MaxPhases: int := 3
  /** Frames the boss is invulnerable after entering a phase. */
  const PhaseShieldFrames: int := 60
  /** Frames one attack pattern lasts before the next one. */
  const PatternFrames: int := 180

  /** What `boss_type` holds: a name, as `Boss` compares it against, or a `BossType` value,
      as the game passes it. */
  datatype BossTag = Named(name: string) | Typed(kind: BossTypes.BossType)

  /** One turret of the boss, relative to its centre. */
  datatype Part = Part(xOffset: int, yOffset: int, active: bool, health: int)

  /** `create_boss_parts`: two side cannons for 'standard', four turrets for 'fortress', four
      segments below the body for 'serpent', and none for anything else. */
  function PartsFor(tag: BossTag): (parts: seq<Part>)
    ensures forall i :: 0 <= i < |parts| ==> parts[i].active
    ensures tag == Named("standard") ==> |parts| == 2
    ensures tag == Named("fortress") || tag == Named("serpent") ==> |parts| == 4
    ensures tag.Typed? ==> parts == []
  {
    match tag
    case Named(n) =>
      if n == "standard" then [Part(-40, 0, true, 200), Part(40, 0, true, 200)]
      else if n == "fortress" then
        [Part(-50, -30, true, 150), Part(50, -30, true, 150), Part(-50, 30, true, 150), Part(50, 30, true, 150)]
      else if n == "serpent" then seq(4, i => Part(0, (i + 1) * 30, true, 100))
      else []
    case Typed(_) => []
  }

  /** The boss the game spawns is given a `BossType`, which equals none of the names, so it
      has no parts. */
  lemma GameBossHasNoParts(kind: BossTypes.BossType)
    ensures PartsFor(Typed(kind)) == []
    ensures forall n :: n != "standard" && n != "fortress" && n != "serpent" ==> PartsFor(Named(n)) == []
  {
  }

  // ---------------------------------------------------------------------------
  // Movement
  // ---------------------------------------------------------------------------

  datatype Movement = Enter | Circular | Zigzag | Stationary

  /** The movement state of the boss. */
  datatype Motion = Motion(pattern: Movement, x: real, y: real, initialY: real, angle: real, timer: int)

  /** One step of `update_movement` before clamping: the timer advances; entering moves down
      until y reaches 150 and then switches to the circular pattern around the current
      height; circular motion turns by 0.02 around the screen centre; zigzag drifts by the
      sine and cosine of the timer; stationary stays put. */
  function Steer(m: Motion, screenWidth: int, lib: MathLib): (n: Motion)
    ensures n.timer == m.timer + 1
    ensures n.pattern == (if m.pattern == Enter && m.y >= 150.0 then Circular else m.pattern)
    ensures m.pattern == Stationary ==> n == m.(timer := m.timer + 1)
    ensures m.pattern == Enter && m.y < 150.0 ==> n.y > m.y && n.x == m.x
  {
    var t := m.timer + 1;
    match m.pattern
    case Enter =>
      if m.y < 150.0 then m.(y := m.y + Speed, timer := t)
      else m.(pattern := Circular, initialY := m.y, timer := t)
    case Circular =>
      var a := m.angle + 0.02;
      m.(angle := a, x := (screenWidth / 2) as real + lib.cos(a) * 50.0,
         y := m.initialY + lib.sin(a * 2.0) * 30.0, timer := t)
    case Zigzag =>
      m.(x := m.x + lib.sin(t as real * 0.05) * 3.0, y := m.y + lib.cos(t as real * 0.03) * 2.0, timer := t)
    case Stationary => m.(timer := t)
  }

  /** `max(lo, min(hi, v))` with the bounds in either order: the lower bound wins. */
  function Limit(v: real, lo: real, hi: real): (r: real)
    ensures r >= lo
    ensures lo <= hi ==> r <= hi
    ensures lo <= v <= hi ==> r == v
  {
    MaxR(lo, MinR(hi, v))
  }

  /** The clamp at the end of `update_movement`: x within `width // 2` of both screen edges
      and y between `height // 2` and a third of the screen. */
  function Confine(m: Motion, screenWidth: int, screenHeight: int): (n: Motion)
    ensures n.x >= (Width / 2) as real && n.y >= (Height / 2) as real
    ensures screenWidth >= Width ==> n.x <= (screenWidth - Width / 2) as real
    ensures screenHeight / 3 >= Height / 2 ==> n.y <= (screenHeight / 3) as real
    ensures n.(x := m.x, y := m.y) == m
  {
    m.(x := Limit(m.x, (Width / 2) as real, (screenWidth - Width / 2) as real),
       y := Limit(m.y, (Height / 2) as real, (screenHeight / 3) as real))
  }

  /** Clamping a position that is already on screen leaves it where it is. */
  lemma ConfineIdempotent(m: Motion, screenWidth: int, screenHeight: int)
    requires screenWidth >= Width && screenHeight / 3 >= Height / 2
    ensures Confine(Confine(m, screenWidth, screenHeight), screenWidth, screenHeight)
      == Confine(m, screenWidth, screenHeight)
  {
  }

  /** Once the boss has entered it never goes back to entering. */
  lemma {:induction false} NeverReenters(m: Motion, screenWidth: int, screenHeight: int, lib: MathLib, k: nat)
    requires m.pattern != Enter
    ensures Moves(m, screenWidth, screenHeight, lib, k).pattern == m.pattern
  {
    if k > 0 {
      NeverReenters(m, screenWidth, screenHeight, lib, k - 1);
    }
  }

  /** `k` frames of `update_movement`. */
  function Moves(m: Motion, screenWidth: int, screenHeight: int, lib: MathLib, k: nat): (n: Motion)
    ensures n.timer == m.timer + k
  {
    if k == 0 then m
    else Confine(Steer(Moves(m, screenWidth, screenHeight, lib, k - 1), screenWidth, lib), screenWidth, screenHeight)
  }

  // ---------------------------------------------------------------------------
  // Phases
  // ---------------------------------------------------------------------------

  /** The phase the health ratio calls for: 2 below 0.66, 3 below 0.33, else 1. */
  function TargetPhase(health: int, maxHealth: int): (p: int)
    requires maxHealth > 0
    ensures 1 <= p <= MaxPhases
    ensures p >= 2 <==> (health as real) < 0.66 * maxHealth as real
    ensures p == 3 <==> (health as real) < 0.33 * maxHealth as real
  {
    var ratio := health as real / maxHealth as real;
    RatioBelow(health, maxHealth, 0.66);
    RatioBelow(health, maxHealth, 0.33);
    if ratio < 0.33 then 3 else if ratio < 0.66 then 2 else 1
  }

  lemma RatioBelow(health: int, maxHealth: int, c: real)
    requires maxHealth > 0
    ensures health as real / maxHealth as real < c <==> (health as real) < c * maxHealth as real
  {
    var m := maxHealth as real;
    var r := health as real / m;
    assert r * m == health as real;
    if r < c {
      MulLt(m, r, c);
    } else {
      MulLe(m, c, r);
    }
  }

  /** Less health never calls for an earlier phase. */
  lemma TargetPhaseMonotone(h1: int, h2: int, maxHealth: int)
    requires maxHealth > 0 && h1 <= h2
    ensures TargetPhase(h2, maxHealth) <= TargetPhase(h1, maxHealth)
  {
  }

  /** The movement a phase imposes: zigzag in phase 2, standing still in phase 3, and in
      phase 1 whatever the boss is doing. */
  function PatternFor(phase: int, current: Movement): Movement
  {
    if phase == 2 then Zigzag else if phase == 3 then Stationary else current
  }

  /** Shooting delay of each phase. */
  function DelayFor(phase: int): (d: int)
    ensures 15 <= d <= 30
  {
    if phase == 2 then 20 else if phase == 3 then 15 else 30
  }

  // ---------------------------------------------------------------------------
  // Volleys
  // ---------------------------------------------------------------------------

  const Red := Color(255, 0, 0)
  const Orange := Color(255, 100, 0)
  const Magenta := Color(255, 0, 255)
  const Cyan := Color(0, 255, 255)

  /** The `i`-th shot of the eight-way ring, at angle `(i / 8) * 2 * pi` with speed 4. */
  function RingShot(x: real, y: real, i: nat, lib: MathLib): Shot
  {
    var a := (i as real / 8.0) * 2.0 * lib.pi;
    Shot(x, y, Magenta, 4.0, 0.0, lib.cos(a) * 4.0, lib.sin(a) * 4.0, false)
  }

  /** The first `n` shots of the ring. */
  function Ring(x: real, y: real, n: nat, lib: MathLib): (shots: seq<Shot>)
    ensures |shots| == n
    ensures forall i :: 0 <= i < n ==> shots[i] == RingShot(x, y, i, lib)
  {
    if n == 0 then [] else Ring(x, y, n - 1, lib) + [RingShot(x, y, n - 1, lib)]
  }

  /** One shot from each active part, in the order of the parts. */
  function PartShots(x: real, y: real, parts: seq<Part>): (shots: seq<Shot>)
    ensures |shots| <= |parts|
    ensures (forall i :: 0 <= i < |parts| ==> parts[i].active) ==> |shots| == |parts|
    ensures forall i :: 0 <= i < |shots| ==> shots[i].color == Cyan && shots[i].speed == 6.0
  {
    if parts == [] then []
    else
      var p := parts[|parts| - 1];
      PartShots(x, y, parts[..|parts| - 1])
        + (if p.active then [Plain(x + p.xOffset as real, y + p.yOffset as real, Cyan, 6.0)] else [])
  }

  /** Straight shot from below the body, optionally angled. */
  function Straight(x: real, y: real, color: Color, angle: real): Shot
  {
    Shot(x, y + (Height / 2) as real, color, 5.0, angle, 0.0, 0.0, false)
  }

  /** The volley of attack pattern `pattern` from the boss at `(x, y)`. */
  function Volley(pattern: int, x: real, y: real, parts: seq<Part>, lib: MathLib): seq<Shot>
  {
    if pattern == 0 then [Straight(x, y, Red, 0.0)]
    else if pattern == 1 then [Straight(x, y, Orange, -0.3), Straight(x, y, Orange, 0.0), Straight(x, y, Orange, 0.3)]
    else if pattern == 2 then Ring(x, y, 8, lib)
    else if pattern == 3 then PartShots(x, y, parts)
    else []
  }

  /** Pattern 0 fires one shot, pattern 1 three, pattern 2 eight and pattern 3 one per active
      part; with the game's boss, which has no parts, pattern 3 fires nothing. */
  lemma VolleySize(x: real, y: real, tag: BossTag, lib: MathLib)
    ensures |Volley(0, x, y, PartsFor(tag), lib)| == 1
    ensures |Volley(1, x, y, PartsFor(tag), lib)| == 3
    ensures |Volley(2, x, y, PartsFor(tag), lib)| == 8
    ensures |Volley(3, x, y, PartsFor(tag), lib)| == |PartsFor(tag)|
    ensures tag.Typed? ==> Volley(3, x, y, PartsFor(tag), lib) == []
  {
  }

  /** The `for i in range(8)` loop of pattern 2. */
  method FireRing(x: real, y: real, lib: MathLib) returns (bullets: seq<Bullet>)
    ensures |bullets| == 8
    ensures forall i :: 0 <= i < 8 ==> fresh(bullets[i]) && Matches(bullets[i], RingShot(x, y, i, lib))
  {
    bullets := [];
    for i := 0 to 8
      invariant |bullets| == i
      invariant forall k :: 0 <= k < i ==> fresh(bullets[k]) && Matches(bullets[k], RingShot(x, y, k, lib))
    {
      var b := Fire(RingShot(x, y, i, lib));
      bullets := bullets + [b];
    }
  }

  /** The `for part in self.parts` loop of pattern 3. */
  method FireParts(x: real, y: real, parts: seq<Part>) returns (bullets: seq<Bullet>)
    ensures |bullets| == |PartShots(x, y, parts)|
    ensures forall i :: 0 <= i < |bullets| ==> fresh(bullets[i]) && Matches(bullets[i], PartShots(x, y, parts)[i])
  {
    bullets := [];
    for i := 0 to |parts|
      invariant |bullets| == |PartShots(x, y, parts[..i])|
      invariant forall k :: 0 <= k < |bullets| ==> fresh(bullets[k]) && Matches(bullets[k], PartShots(x, y, parts[..i])[k])
    {
      assert parts[..i + 1][..i] == parts[..i];
      var p := parts[i];
      if p.active {
        var b := Fire(Plain(x + p.xOffset as real, y + p.yOffset as real, Cyan, 6.0));
        bullets := bullets + [b];
      }
    }
    assert parts[..|parts|] == parts;
  }

  class Boss {
    /** Position, movement pattern and its timer, and the circling state. */
    var motion: Motion
    const tag: BossTag
    const level: int
    const maxHealth: int
    var health: int
    var phase: int
    var shootCooldown: int
    var shootDelay: int
    var attackPattern: int
    var patternTimer: int
    var animationFrame: real
    var pulse: real
    /** Fixed at creation by `create_boss_parts`; nothing changes them afterwards. */
    const parts: seq<Part>
    var invulnerable: bool
    var invulnerableTimer: int

    /** Health is never negative and the maximum is positive; the phase is 1 to 3 and fixes
        the shooting delay and, past phase 1, the movement; the attack pattern is 0 to 3;
        invulnerability always has frames left. */
    ghost predicate Valid()
      reads this
    {
      maxHealth == 1000 + 500 * level && maxHealth > 0 && 0 <= health
      && 1 <= phase <= MaxPhases && shootDelay == DelayFor(phase)
      && motion.pattern == PatternFor(phase, motion.pattern)
      && 0 <= attackPattern < 4 && 0 <= patternTimer <= PatternFrames
      && 0 <= shootCooldown <= 30
      && 0 <= invulnerableTimer <= PhaseShieldFrames && (invulnerable ==> invulnerableTimer > 0)
    }

    /** `Boss(x, y, boss_type, level)`: full health `1000 + 500 * level`, phase 1, entering,
        not invulnerable, with the parts of its type. */
    constructor (x: real, y: real, tag: BossTag, level: int)
      ensures level > -2 ==> Valid()
      ensures motion == Motion(Enter, x, y, y, 0.0, 0)
      ensures this.tag == tag && this.level == level
      ensures maxHealth == 1000 + 500 * level && health == maxHealth
      ensures phase == 1 && shootCooldown == 0 && shootDelay == 30 && attackPattern == 0 && patternTimer == 0
      ensures animationFrame == 0.0 && pulse == 0.0
      ensures parts == PartsFor(tag) && !invulnerable && invulnerableTimer == 0
    {
      motion := Motion(Enter, x, y, y, 0.0, 0);
      this.tag := tag;
      this.level := level;
      maxHealth := 1000 + 500 * level;
      health := 1000 + 500 * level;
      phase := 1;
      shootCooldown := 0;
      shootDelay := 30;
      attackPattern := 0;
      patternTimer := 0;
      animationFrame := 0.0;
      pulse := 0.0;
      parts := PartsFor(tag);
      invulnerable := false;
      invulnerableTimer := 0;
    }

    /** `update_movement`: one step of the pattern, then the clamp to the screen. */
    method UpdateMovement(screenWidth: int, screenHeight: int, lib: MathLib)
      requires Valid()
      modifies this`motion
      ensures Valid()
      ensures motion == Confine(Steer(old(motion), screenWidth, lib), screenWidth, screenHeight)
    {
      motion := Confine(Steer(motion, screenWidth, lib), screenWidth, screenHeight);
    }

    /** `enter_new_phase`: the new phase, 60 frames of invulnerability, and for phase 2 the
        zigzag at delay 20, for phase 3 standing still at delay 15. */
    method EnterNewPhase(p: int)
      modifies this`phase, this`invulnerable, this`invulnerableTimer, this`motion, this`shootDelay
      ensures phase == p && invulnerable && invulnerableTimer == PhaseShieldFrames
      ensures motion == old(motion).(pattern := PatternFor(p, old(motion.pattern)))
      ensures shootDelay == (if p == 2 || p == 3 then DelayFor(p) else old(shootDelay))
    {
      phase := p;
      invulnerable := true;
      invulnerableTimer := PhaseShieldFrames;
      if p == 2 {
        motion := motion.(pattern := Zigzag);
        shootDelay := 20;
      } else if p == 3 {
        motion := motion.(pattern := Stationary);
        shootDelay := 15;
      }
    }

    /** `update_phase`: a phase is entered only when the health ratio calls for a later
        one, so the phase never falls. */
    method UpdatePhase()
      requires Valid()
      modifies this`phase, this`invulnerable, this`invulnerableTimer, this`motion, this`shootDelay
      ensures Valid()
      ensures phase == MaxI(old(phase), TargetPhase(health, maxHealth))
      ensures phase > old(phase) ==> invulnerable && invulnerableTimer == PhaseShieldFrames
      ensures motion == old(motion).(pattern := PatternFor(phase, old(motion.pattern)))
      ensures phase == old(phase) ==> invulnerable == old(invulnerable) && invulnerableTimer == old(invulnerableTimer)
    {
      var target := TargetPhase(health, maxHealth);
      if target > phase {
        EnterNewPhase(target);
      }
    }

    /** The end of `update`: the invulnerability countdown, the shooting cooldown, and the
        pattern timer, which moves to the next of the four attack patterns once it passes
        180 frames. */
    method CountDown()
      requires Valid()
      modifies this`invulnerable, this`invulnerableTimer, this`shootCooldown, this`patternTimer, this`attackPattern
      ensures Valid()
      ensures invulnerable == (old(invulnerable) && old(invulnerableTimer) > 1)
      ensures invulnerableTimer == (if old(invulnerable) then old(invulnerableTimer) - 1 else old(invulnerableTimer))
      ensures shootCooldown == MaxI(old(shootCooldown) - 1, 0)
      ensures old(patternTimer) < PatternFrames ==> patternTimer == old(patternTimer) + 1 && attackPattern == old(attackPattern)
      ensures old(patternTimer) == PatternFrames ==> patternTimer == 0 && attackPattern == (old(attackPattern) + 1) % 4
    {
      if invulnerable {
        invulnerableTimer := invulnerableTimer - 1;
        if invulnerableTimer <= 0 {
          invulnerable := false;
        }
      }
      if shootCooldown > 0 {
        shootCooldown := shootCooldown - 1;
      }
      patternTimer := patternTimer + 1;
      if patternTimer > PatternFrames {
        attackPattern := (attackPattern + 1) % 4;
        patternTimer := 0;
      }
    }

    /** `update`: animation, movement, phase, then the countdowns. Health is left alone and
        the phase never falls. */
    method Update(screenWidth: int, screenHeight: int, lib: MathLib)
      requires Valid()
      modifies this
      ensures Valid()
      ensures health == old(health)
      ensures phase == MaxI(old(phase), TargetPhase(health, maxHealth))
      ensures var m := Confine(Steer(old(motion), screenWidth, lib), screenWidth, screenHeight);
        motion == m.(pattern := PatternFor(phase, m.pattern))
      ensures shootCooldown == MaxI(old(shootCooldown) - 1, 0)
      ensures old(patternTimer) < PatternFrames ==> patternTimer == old(patternTimer) + 1 && attackPattern == old(attackPattern)
      ensures old(patternTimer) == PatternFrames ==> patternTimer == 0 && attackPattern == (old(attackPattern) + 1) % 4
      ensures phase > old(phase) ==> invulnerable && invulnerableTimer == PhaseShieldFrames - 1
      ensures phase == old(phase) ==> invulnerable == (old(invulnerable) && old(invulnerableTimer) > 1)
      ensures animationFrame == old(animationFrame) + 0.1 && pulse == old(pulse) + 0.15
    {
      animationFrame := animationFrame + 0.1;
      pulse := pulse + 0.15;
      UpdateMovement(screenWidth, screenHeight, lib);
      UpdatePhase();
      CountDown();
    }

    /** `shoot`: nothing while the cooldown runs; otherwise the volley of the current
        pattern, one new bullet per shot, added to the group, and the cooldown restarts at
        the phase's delay. */
    method Shoot(group: seq<Bullet>, lib: MathLib) returns (bullets: seq<Bullet>, newGroup: seq<Bullet>)
      requires Valid()
      modifies this`shootCooldown
      ensures Valid()
      ensures old(shootCooldown) > 0 ==> bullets == [] && shootCooldown == old(shootCooldown)
      ensures old(shootCooldown) == 0 ==> shootCooldown == shootDelay
      ensures old(shootCooldown) == 0 ==>
        var shots := Volley(attackPattern, motion.x, motion.y, parts, lib);
        |bullets| == |shots| && forall i :: 0 <= i < |bullets| ==> fresh(bullets[i]) && Matches(bullets[i], shots[i])
      ensures newGroup == group + bullets
    {
      if shootCooldown > 0 {
        return [], group;
      }
      var x, y := motion.x, motion.y;
      if attackPattern == 0 {
        var b := Fire(Straight(x, y, Red, 0.0));
        bullets := [b];
      } else if attackPattern == 1 {
        var b0 := Fire(Straight(x, y, Orange, -0.3));
        var b1 := Fire(Straight(x, y, Orange, 0.0));
        var b2 := Fire(Straight(x, y, Orange, 0.3));
        bullets := [b0, b1, b2];
      } else if attackPattern == 2 {
        bullets := FireRing(x, y, lib);
      } else {
        bullets := FireParts(x, y, parts);
      }
      newGroup := group + bullets;
      shootCooldown := shootDelay;
    }

    /** `take_damage(amount)`: refused while invulnerable; otherwise health falls by the
        amount and stops at 0, so it stays within its maximum for every hit the game deals
        (10 from a bullet, 30 from a bomb). */
    method TakeDamage(amount: int) returns (hit: bool)
      requires Valid()
      modifies this`health
      ensures Valid()
      ensures hit <==> !invulnerable
      ensures !hit ==> health == old(health)
      ensures hit ==> health == MaxI(old(health) - amount, 0)
      ensures amount >= 0 ==> health <= old(health)
      ensures amount >= 0 && old(health) <= maxHealth ==> health <= maxHealth
    {
      if invulnerable {
        return false;
      }
      health := health - amount;
      if health < 0 {
        health := 0;
      }
      return true;
    }

    /** `is_dead`. */
    predicate IsDead()
      reads this
      ensures Valid() ==> (IsDead() <==> health == 0)
    {
      health <= 0
    }

    /** `get_health_ratio`: between 0 and 1 while health is within its maximum, and 0
        exactly when the boss is dead. */
    function HealthRatio(): (r: real)
      reads this
      requires Valid()
      ensures 0.0 <= r
      ensures health <= maxHealth ==> r <= 1.0
      ensures r == 0.0 <==> IsDead()
    {
      RatioBelow(health, maxHealth, 1.0);
      var r := health as real / maxHealth as real;
      assert r * maxHealth as real == health as real;
      r
    }

    /** `get_score_value`: 5000 per level per phase. */
    function ScoreValue(): (s: int)
      reads this
      requires Valid()
      ensures level >= 1 ==> 5000 * level <= s <= 15000 * level
    {
      5000 * level * phase
    }
  }
}
