/** Boss kinds (`boss_types.py`): nine kinds with their configuration tables, the choice of a
    kind by level or at random, and the attack patterns that build the projectiles of one
    volley. */
module BossTypes {
  import opened Common

  datatype BossType = Standard | Kraken | Phoenix | Mecha | VoidLord | CrystalBeast | SwarmQueen | Titan | Specter

  /** `list(BossType)`: the nine kinds in declaration order. */
  const AllTypes: seq<BossType> := [Standard, Kraken, Phoenix, Mecha, VoidLord, CrystalBeast, SwarmQueen, Titan, Specter]

  /** The position of a kind in `list(BossType)`. */
  function IndexOf(t: BossType): (i: nat)
    ensures i < |AllTypes| && AllTypes[i] == t
  {
    match t
    case Standard => 0
    case Kraken => 1
    case Phoenix => 2
    case Mecha => 3
    case VoidLord => 4
    case CrystalBeast => 5
    case SwarmQueen => 6
    case Titan => 7
    case Specter => 8
  }

  /** The special ability of a configuration, with the parameters the table gives it. */
  datatype Ability =
    | Tentacles(count: nat)
    | Rebirth(count: nat)
    | Shield(health: nat, rechargeTime: nat)
    | Teleport(frequency: nat)
    | SpawnCrystals(rate: nat)
    | SpawnMinions(rate: nat, perWave: nat)
    | Earthquake(damage: nat)
    | Intangible(duration: nat, frequency: nat)

  /** One entry of `BossConfig.get_config`'s table; the icon is left out. */
  datatype Config = Config(
    name: string, maxHealth: int, width: nat, height: nat, speed: real, shootDelay: nat,
    primary: Color, secondary: Color, attackPatterns: seq<string>, movementPatterns: seq<string>,
    phases: nat, ability: Option<Ability>, scoreValue: nat)

  /** The `max_health` of a kind at a level, `base + perLevel * level`. */
  function MaxHealth(t: BossType, level: int): (h: int)
    ensures level >= 0 ==> h >= 600
  {
    match t
    case Standard => 1000 + level * 500
    case Kraken => 1200 + level * 600
    case Phoenix => 800 + level * 400
    case Mecha => 1500 + level * 700
    case VoidLord => 900 + level * 450
    case CrystalBeast => 1100 + level * 550
    case SwarmQueen => 700 + level * 350
    case Titan => 2000 + level * 1000
    case Specter => 600 + level * 300
  }

  /** Every kind's health grows strictly with the level. */
  lemma MaxHealthIncreasing(t: BossType, a: int, b: int)
    requires a < b
    ensures MaxHealth(t, a) < MaxHealth(t, b)
  {
  }

  /** `BossConfig.get_config(boss_type, level)`; None stands for a value that is not a boss
      type, which gets the standard configuration. */
  function ConfigOf(t: Option<BossType>, level: int): (c: Config)
    ensures c.maxHealth == MaxHealth(if t.Some? then t.value else Standard, level)
    ensures |c.attackPatterns| == 3 && |c.movementPatterns| == 2 && 2 <= c.phases <= 4
    ensures c.shootDelay >= 15 && c.scoreValue >= 5000
    ensures c.ability.None? <==> t.None? || t == Some(Standard)
  {
    var k := if t.Some? then t.value else Standard;
    var h := MaxHealth(k, level);
    match k
    case Standard => Config(NameOf(k), h, 120, 100, 1.5, 30, Color(255, 100, 100), Color(255, 150, 150),
      AttackPatternsOf(k), MovementPatternsOf(k), 3, None, 5000)
    case Kraken => Config(NameOf(k), h, 150, 120, 1.0, 25, Color(100, 100, 255), Color(50, 50, 200),
      AttackPatternsOf(k), MovementPatternsOf(k), 4, Some(Tentacles(8)), 7000)
    case Phoenix => Config(NameOf(k), h, 140, 110, 2.5, 20, Color(255, 150, 0), Color(255, 200, 0),
      AttackPatternsOf(k), MovementPatternsOf(k), 2, Some(Rebirth(1)), 10000)
    case Mecha => Config(NameOf(k), h, 130, 140, 1.2, 15, Color(150, 150, 150), Color(200, 200, 200),
      AttackPatternsOf(k), MovementPatternsOf(k), 3, Some(Shield(500, 10)), 8000)
    case VoidLord => Config(NameOf(k), h, 110, 110, 2.0, 35, Color(100, 0, 150), Color(150, 0, 200),
      AttackPatternsOf(k), MovementPatternsOf(k), 3, Some(Teleport(5)), 9000)
    case CrystalBeast => Config(NameOf(k), h, 135, 115, 0.8, 40, Color(0, 255, 255), Color(100, 200, 255),
      AttackPatternsOf(k), MovementPatternsOf(k), 3, Some(SpawnCrystals(8)), 7500)
    case SwarmQueen => Config(NameOf(k), h, 125, 105, 1.3, 45, Color(255, 255, 0), Color(200, 200, 0),
      AttackPatternsOf(k), MovementPatternsOf(k), 3, Some(SpawnMinions(6, 5)), 6500)
    case Titan => Config(NameOf(k), h, 180, 160, 0.5, 50, Color(139, 69, 19), Color(160, 82, 45),
      AttackPatternsOf(k), MovementPatternsOf(k), 4, Some(Earthquake(50)), 12000)
    case Specter => Config(NameOf(k), h, 115, 115, 3.0, 25, Color(200, 200, 255), Color(150, 150, 255),
      AttackPatternsOf(k), MovementPatternsOf(k), 2, Some(Intangible(3, 10)), 8500)
  }

  /** The display name of a kind. */
  function NameOf(t: BossType): string
  {
    match t
    case Standard => "Guardian"
    case Kraken => "Deep Kraken"
    case Phoenix => "Eternal Phoenix"
    case Mecha => "Assault Mecha"
    case VoidLord => "Void Lord"
    case CrystalBeast => "Crystal Guardian"
    case SwarmQueen => "Hive Queen"
    case Titan => "Ancient Titan"
    case Specter => "Phantom Specter"
  }

  /** The three attack pattern names of a kind. */
  function AttackPatternsOf(t: BossType): (ps: seq<string>)
    ensures |ps| == 3
  {
    match t
    case Standard => ["spread", "spiral", "aimed"]
    case Kraken => ["tentacle_sweep", "ink_cloud", "whirlpool"]
    case Phoenix => ["fireball", "flame_wave", "meteor_shower"]
    case Mecha => ["laser_beam", "missile_barrage", "emp_pulse"]
    case VoidLord => ["void_orb", "shadow_wave", "dimension_rift"]
    case CrystalBeast => ["crystal_shard", "prism_beam", "crystal_rain"]
    case SwarmQueen => ["stinger", "pheromone_cloud", "swarm_call"]
    case Titan => ["ground_slam", "boulder_throw", "shockwave"]
    case Specter => ["ghost_orb", "haunting_echo", "soul_drain"]
  }

  /** The two movement pattern names of a kind. */
  function MovementPatternsOf(t: BossType): (ps: seq<string>)
    ensures |ps| == 2
  {
    match t
    case Standard => ["circular", "zigzag"]
    case Kraken => ["wave", "dive"]
    case Phoenix => ["swooping", "ascension"]
    case Mecha => ["hovering", "charge"]
    case VoidLord => ["teleport", "phase_shift"]
    case CrystalBeast => ["floating", "rotation"]
    case SwarmQueen => ["erratic", "hovering"]
    case Titan => ["stomp", "charge"]
    case Specter => ["phasing", "ethereal"]
  }

  /** An unrecognised type gets exactly the standard configuration. */
  lemma UnknownIsStandard(level: int)
    ensures ConfigOf(None, level) == ConfigOf(Some(Standard), level)
  {
  }

  /** The list comprehension of `get_random_type`: the kinds other than STANDARD, in order. */
  function WithoutStandard(ts: seq<BossType>): (r: seq<BossType>)
    ensures |r| <= |ts|
    ensures forall t :: t in r <==> t in ts && t != Standard
  {
    if ts == [] then []
    else (if ts[0] == Standard then [] else [ts[0]]) + WithoutStandard(ts[1..])
  }

  /** The kinds `get_random_type` chooses from: every kind, or those other than STANDARD. */
  function Candidates(excludeStandard: bool): (ts: seq<BossType>)
    ensures excludeStandard ==> |ts| == 8 && forall t :: t in ts <==> t != Standard
    ensures !excludeStandard ==> |ts| == 9 && forall t :: t in ts
  {
    var rest := AllTypes[1..];
    assert forall t :: t in AllTypes by {
      forall t ensures t in AllTypes {
        assert AllTypes[IndexOf(t)] == t;
      }
    }
    assert forall t :: t != Standard ==> t in rest by {
      forall t | t != Standard ensures t in rest {
        assert rest[IndexOf(t) - 1] == t;
      }
    }
    assert Standard !in rest;
    if excludeStandard then rest else AllTypes
  }

  /** A list without STANDARD is kept whole by the filter. */
  lemma {:induction false} WithoutStandardKeeps(ts: seq<BossType>)
    requires Standard !in ts
    ensures WithoutStandard(ts) == ts
  {
    if ts != [] {
      WithoutStandardKeeps(ts[1..]);
      assert ts == [ts[0]] + ts[1..];
    }
  }

  /** The excluding list is the comprehension over `list(BossType)` that drops STANDARD. */
  lemma CandidatesFilter()
    ensures Candidates(true) == WithoutStandard(AllTypes)
  {
    var rest := AllTypes[1..];
    assert Standard !in rest;
    WithoutStandardKeeps(rest);
    assert AllTypes[0] == Standard;
  }

  /** `get_random_type`, for the index `random.choice` picks. */
  function RandomType(excludeStandard: bool, pick: nat): (t: BossType)
    requires pick < |Candidates(excludeStandard)|
    ensures excludeStandard ==> t != Standard
  {
    Candidates(excludeStandard)[pick]
  }

  /** The list `get_type_for_level` chooses from. */
  function LevelPool(level: int): (ts: seq<BossType>)
    ensures |ts| >= 2
  {
    if level <= 5 then [Standard, SwarmQueen]
    else if level <= 10 then [Standard, Kraken, CrystalBeast]
    else if level <= 15 then [Kraken, Mecha, VoidLord]
    else if level <= 20 then [Phoenix, Specter, Mecha]
    else AllTypes
  }

  /** `get_type_for_level`, for the index `random.choice` picks: the kinds widen with the level
      and every kind is possible past level 20. */
  function TypeForLevel(level: int, pick: nat): (t: BossType)
    requires pick < |LevelPool(level)|
    ensures level <= 5 ==> t == Standard || t == SwarmQueen
    ensures 5 < level <= 10 ==> t == Standard || t == Kraken || t == CrystalBeast
    ensures 10 < level <= 15 ==> t == Kraken || t == Mecha || t == VoidLord
    ensures 15 < level <= 20 ==> t == Phoenix || t == Specter || t == Mecha
  {
    LevelPool(level)[pick]
  }

  /** The titan only appears past level 20, and there every kind can be drawn. */
  lemma LateLevelsReachEveryKind(level: int, t: BossType)
    ensures (exists pick: nat :: pick < |LevelPool(level)| && TypeForLevel(level, pick) == Titan) <==> level > 20
    ensures level > 20 ==> exists pick: nat :: pick < |LevelPool(level)| && TypeForLevel(level, pick) == t
  {
    if level > 20 {
      assert TypeForLevel(level, 7) == Titan;
      assert TypeForLevel(level, IndexOf(t)) == t;
    }
  }

  // ---------------------------------------------------------------------------
  // Attack patterns
  // ---------------------------------------------------------------------------

  /** The optional `type` of a projectile dictionary, with its extra entry. */
  datatype ShotKind = Plain | Tentacle | Fire(size: nat) | Laser(width: nat) | Homing(strength: real)

  /** One projectile dictionary of `create_attack`. */
  datatype AttackShot = AttackShot(x: real, y: real, dx: real, dy: real, damage: nat, kind: ShotKind)

  /** The projectile along `angle`, `speed` long, from the boss position. */
  function Ray(bossX: int, bossY: int, angle: real, speed: real, damage: nat, kind: ShotKind, lib: MathLib): AttackShot
  {
    AttackShot(bossX as real, bossY as real, lib.cos(angle) * speed, lib.sin(angle) * speed, damage, kind)
  }

  /** Projectiles from the boss position along `angles`, in order. */
  function Radial(bossX: int, bossY: int, angles: seq<real>, speed: real, damage: nat, kind: ShotKind,
                  lib: MathLib): (shots: seq<AttackShot>)
    ensures |shots| == |angles|
    ensures forall i :: 0 <= i < |shots| ==> shots[i] == Ray(bossX, bossY, angles[i], speed, damage, kind, lib)
  {
    if angles == [] then []
    else
      var init := angles[..|angles| - 1];
      Radial(bossX, bossY, init, speed, damage, kind, lib) + [Ray(bossX, bossY, angles[|angles| - 1], speed, damage, kind, lib)]
  }

  /** A fan of `n` angles around straight down, `pi/2 + (i - mid) * step`. */
  function Fan(n: nat, mid: int, step: real, pi: real): (angles: seq<real>)
    ensures |angles| == n
  {
    seq(n, i => pi / 2.0 + (i - mid) as real * step)
  }

  /** The eight spiral angles `(i / 8) * 2 * pi`. */
  function SpiralAngles(pi: real): (angles: seq<real>)
    ensures |angles| == 8
  {
    seq(8, i => (i as real / 8.0) * 2.0 * pi)
  }

  /** `math.sqrt(dx**2 + dy**2)`, the distance from the boss to the player. */
  function Distance(bossX: int, bossY: int, playerX: int, playerY: int, sqrt: real -> real): real
  {
    var dx, dy := playerX - bossX, playerY - bossY;
    sqrt((dx * dx + dy * dy) as real)
  }

  /** A projectile aimed at the player, `speed` long, or none when the distance is not positive. */
  function Aimed(bossX: int, bossY: int, playerX: int, playerY: int, speed: real, damage: nat, kind: ShotKind,
                 sqrt: real -> real): (shots: seq<AttackShot>)
    ensures |shots| <= 1
    ensures |shots| == 1 <==> Distance(bossX, bossY, playerX, playerY, sqrt) > 0.0
  {
    var d := Distance(bossX, bossY, playerX, playerY, sqrt);
    if d > 0.0 then
      [AttackShot(bossX as real, bossY as real, ((playerX - bossX) as real / d) * speed,
        ((playerY - bossY) as real / d) * speed, damage, kind)]
    else []
  }

  /** The projectiles `BossAttackPattern.create_attack` returns for a pattern name. */
  function Attack(pattern: string, bossX: int, bossY: int, playerX: int, playerY: int, lib: MathLib): seq<AttackShot>
  {
    if pattern == "spread" then Radial(bossX, bossY, Fan(5, 2, 0.3, lib.pi), 3.0, 20, Plain, lib)
    else if pattern == "spiral" then Radial(bossX, bossY, SpiralAngles(lib.pi), 2.5, 15, Plain, lib)
    else if pattern == "aimed" then Aimed(bossX, bossY, playerX, playerY, 4.0, 25, Plain, lib.sqrt)
    else if pattern == "tentacle_sweep" then Radial(bossX, bossY, Fan(3, 1, 0.5, lib.pi), 2.0, 30, Tentacle, lib)
    else if pattern == "fireball" then Aimed(bossX, bossY, playerX, playerY, 3.5, 40, Fire(20), lib.sqrt)
    else if pattern == "laser_beam" then [AttackShot(bossX as real, bossY as real, 0.0, 5.0, 35, Laser(10))]
    else if pattern == "void_orb" then Aimed(bossX, bossY, playerX, playerY, 2.0, 30, Homing(0.1), lib.sqrt)
    else []
  }

  /** The pattern names `create_attack` knows. */
  predicate KnownPattern(pattern: string)
  {
    pattern == "spread" || pattern == "spiral" || pattern == "aimed" || pattern == "tentacle_sweep"
    || pattern == "fireball" || pattern == "laser_beam" || pattern == "void_orb"
  }

  /** The fixed patterns: five projectiles for the spread, eight for the spiral, three for the
      tentacle sweep and one straight down for the laser; any unknown name gives none. */
  lemma AttackCounts(bossX: int, bossY: int, playerX: int, playerY: int, lib: MathLib)
    ensures |Attack("spread", bossX, bossY, playerX, playerY, lib)| == 5
    ensures |Attack("spiral", bossX, bossY, playerX, playerY, lib)| == 8
    ensures |Attack("tentacle_sweep", bossX, bossY, playerX, playerY, lib)| == 3
    ensures var l := Attack("laser_beam", bossX, bossY, playerX, playerY, lib);
      |l| == 1 && l[0].dx == 0.0 && l[0].dy == 5.0 && l[0].damage == 35
    ensures forall pattern :: !KnownPattern(pattern) ==> Attack(pattern, bossX, bossY, playerX, playerY, lib) == []
  {
    assert "spiral" != "spread";
    assert "tentacle_sweep" != "spread" && "tentacle_sweep" != "spiral" && "tentacle_sweep" != "aimed";
    assert "laser_beam" != "spread" && "laser_beam" != "spiral" && "laser_beam" != "aimed";
    assert "laser_beam" != "tentacle_sweep" && "laser_beam" != "fireball";
  }

  /** The aimed patterns give exactly one projectile when the player is somewhere else than
      the boss and none when they coincide (`math.sqrt` is zero only at zero). */
  lemma AimedNeedsDistance(pattern: string, bossX: int, bossY: int, playerX: int, playerY: int, lib: MathLib)
    requires IsSqrt(lib.sqrt)
    requires pattern == "aimed" || pattern == "fireball" || pattern == "void_orb"
    ensures |Attack(pattern, bossX, bossY, playerX, playerY, lib)| == 1 <==> (playerX, playerY) != (bossX, bossY)
    ensures |Attack(pattern, bossX, bossY, playerX, playerY, lib)| <= 1
  {
    assert "fireball" != "spread" && "fireball" != "spiral" && "fireball" != "aimed" && "fireball" != "tentacle_sweep";
    assert "void_orb" != "spread" && "void_orb" != "spiral" && "void_orb" != "aimed" && "void_orb" != "tentacle_sweep";
    assert "void_orb" != "fireball" && "void_orb" != "laser_beam";
    var dx, dy := playerX - bossX, playerY - bossY;
    SquaresZero(dx, dy);
    assert (dx * dx + dy * dy) as real >= 0.0;
  }

  /** A sum of two integer squares is zero exactly when both are. */
  lemma SquaresZero(a: int, b: int)
    ensures a * a + b * b >= 0
    ensures a * a + b * b == 0 <==> a == 0 && b == 0
  {
    var p, q := if a < 0 then -a else a, if b < 0 then -b else b;
    assert a * a == p * p && b * b == q * q;
    if p != 0 {
      MulAtLeast(p, p);
    }
    if q != 0 {
      MulAtLeast(q, q);
    }
  }

  /** `BossAttackPattern.create_attack`: each pattern's loop appends its projectiles. */
  method CreateAttack(pattern: string, bossX: int, bossY: int, playerX: int, playerY: int, lib: MathLib)
    returns (bullets: seq<AttackShot>)
    ensures bullets == Attack(pattern, bossX, bossY, playerX, playerY, lib)
  {
    bullets := [];
    if pattern == "spread" {
      bullets := RadialLoop(bossX, bossY, Fan(5, 2, 0.3, lib.pi), 3.0, 20, Plain, lib);
    } else if pattern == "spiral" {
      bullets := RadialLoop(bossX, bossY, SpiralAngles(lib.pi), 2.5, 15, Plain, lib);
    } else if pattern == "aimed" {
      bullets := Aimed(bossX, bossY, playerX, playerY, 4.0, 25, Plain, lib.sqrt);
    } else if pattern == "tentacle_sweep" {
      bullets := RadialLoop(bossX, bossY, Fan(3, 1, 0.5, lib.pi), 2.0, 30, Tentacle, lib);
    } else if pattern == "fireball" {
      bullets := Aimed(bossX, bossY, playerX, playerY, 3.5, 40, Fire(20), lib.sqrt);
    } else if pattern == "laser_beam" {
      bullets := [AttackShot(bossX as real, bossY as real, 0.0, 5.0, 35, Laser(10))];
    } else if pattern == "void_orb" {
      bullets := Aimed(bossX, bossY, playerX, playerY, 2.0, 30, Homing(0.1), lib.sqrt);
    }
  }

  /** The `for i in range(n)` loops of the spread, spiral and tentacle patterns. */
  method RadialLoop(bossX: int, bossY: int, angles: seq<real>, speed: real, damage: nat, kind: ShotKind, lib: MathLib)
    returns (bullets: seq<AttackShot>)
    ensures bullets == Radial(bossX, bossY, angles, speed, damage, kind, lib)
  {
    bullets := [];
    for i := 0 to |angles|
      invariant bullets == Radial(bossX, bossY, angles[..i], speed, damage, kind, lib)
    {
      assert angles[..i + 1][..i] == angles[..i];
      bullets := bullets + [Ray(bossX, bossY, angles[i], speed, damage, kind, lib)];
    }
    assert angles[..|angles|] == angles;
  }
}
