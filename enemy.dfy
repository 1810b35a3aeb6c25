/** Enemies (`enemy.py`): a table of twelve kinds, per-kind movement, a shield that absorbs
    damage before health, the splitter's split, per-kind volleys behind a cooldown, the
    healer's healing of its neighbours, and a bounded trail. */
module Enemies {
  import opened Common
  import opened Bullets

  /** The kinds `setup_enemy_type` knows, and any other name. */
  datatype Kind =
    | Basic | Fast | Shooter | Kamikaze | Tank | Sniper | Splitter | Bomber | Healer | ShieldKind
    | Giant | Elite | Other(name: string)

  /** The kind an `enemy_type` name stands for. */
  function KindOf(name: string): (k: Kind)
    ensures k.Other? ==> k.name == name
  {
    if name == "basic" then Basic
    else if name == "fast" then Fast
    else if name == "shooter" then Shooter
    else if name == "kamikaze" then Kamikaze
    else if name == "tank" then Tank
    else if name == "sniper" then Sniper
    else if name == "splitter" then Splitter
    else if name == "bomber" then Bomber
    else if name == "healer" then Healer
    else if name == "shield" then ShieldKind
    else if name == "giant" then Giant
    else if name == "elite" then Elite
    else Other(name)
  }

  /** The attributes `setup_enemy_type` gives a kind. `shootDelay` is None for the kinds that
      do not set one. */
  datatype Stats = Stats(
    width: int, height: int, speed: real, health: int, maxHealth: int, colorBase: real, points: int,
    shootEnabled: bool, shootDelay: Option<int>, shieldHealth: int, maxShield: int, splitsEnabled: bool)

  /** `setup_enemy_type`. An unknown kind runs the `else` branch, whose second group of
      assignments overrides the first. The shield kind sets its shield's health but not its
      maximum, which stays at the 0 the constructor set beforehand. */
  function Setup(k: Kind): (s: Stats)
    ensures s.health == s.maxHealth > 0 && s.points >= 100 && s.shieldHealth >= 0
    ensures s.shootDelay.Some? <==> s.shootEnabled
    ensures s.splitsEnabled <==> k == Splitter
  {
    match k
    case Basic => Stats(25, 25, 2.0, 1, 1, 0.0, 100, false, None, 0, 0, false)
    case Fast => Stats(20, 20, 4.0, 1, 1, 0.3, 150, false, None, 0, 0, false)
    case Shooter => Stats(30, 30, 1.5, 2, 2, 0.8, 200, true, Some(40), 0, 0, false)
    case Kamikaze => Stats(22, 22, 5.0, 1, 1, 0.05, 180, false, None, 0, 0, false)
    case Tank => Stats(40, 35, 1.0, 10, 10, 0.55, 500, true, Some(80), 0, 0, false)
    case Sniper => Stats(25, 25, 0.5, 2, 2, 0.72, 250, true, Some(90), 0, 0, false)
    case Splitter => Stats(35, 35, 2.0, 3, 3, 0.16, 300, false, None, 0, 0, true)
    case Bomber => Stats(32, 28, 1.8, 2, 2, 0.0, 220, true, Some(60), 0, 0, false)
    case Healer => Stats(28, 28, 1.5, 2, 2, 0.33, 350, false, None, 0, 0, false)
    case ShieldKind => Stats(30, 30, 1.5, 4, 4, 0.66, 400, true, Some(100), 5, 0, false)
    case Giant => Stats(80, 80, 0.8, 50, 50, 0.9, 1000, true, Some(30), 0, 0, false)
    case Elite => Stats(50, 50, 2.5, 30, 30, 0.83, 750, true, Some(25), 0, 0, false)
    case Other(_) => Stats(30, 30, 1.5, 3, 3, 0.6, 400, true, Some(70), 5, 5, false)
  }

  /** An unrecognised name gets the later values of the `else` branch. */
  lemma UnknownKindStats(name: string)
    requires KindOf(name).Other?
    ensures var s := Setup(KindOf(name));
      s.health == 3 && s.shieldHealth == 5 && s.maxShield == 5 && s.points == 400 && s.shootDelay == Some(70)
  {
  }

  /** The shooting delay `Enemy.__init__` leaves, as written: the random pick from
      `randint(60, 120)` is assigned after `setup_enemy_type`, so it replaces the delay the
      kind set. */
  function WrittenInitialDelay(k: Kind, pick: int): (d: int)
    ensures 60 <= pick <= 120 ==> 60 <= d <= 120
  {
    pick
  }

  /** As written, a shooter, which its setup says fires every 40 frames, never gets a delay
      below 60. */
  lemma ShooterDelayDiscarded(pick: int)
    requires 60 <= pick <= 120
    ensures Setup(Shooter).shootDelay == Some(40)
    ensures WrittenInitialDelay(Shooter, pick) != Setup(Shooter).shootDelay.value
  {
  }

  /** The shooting delay as evidently intended: the kind's own delay when its setup gives
      one, and the random pick otherwise. */
  function InitialDelay(k: Kind, pick: int): (d: int)
    ensures Setup(k).shootDelay.Some? ==> d == Setup(k).shootDelay.value
    ensures Setup(k).shootDelay.None? ==> d == pick
  {
    if Setup(k).shootDelay.Some? then Setup(k).shootDelay.value else pick
  }

  /** With the intended delay every shooting kind fires at the pace its setup gives, and the
      delay is positive. */
  lemma InitialDelayPositive(k: Kind, pick: int)
    requires 60 <= pick <= 120
    ensures 25 <= InitialDelay(k, pick) <= 120
    ensures k == Shooter ==> InitialDelay(k, pick) == 40
  {
  }

  // ---------------------------------------------------------------------------
  // Damage
  // ---------------------------------------------------------------------------

  /** A hit on an active shield: the shield takes the amount and any overflow goes to
      health, the shield stopping at 0. */
  function ShieldHit(health: int, shield: int, amount: int): (r: (int, int))
    ensures r.1 == MaxI(shield - amount, 0)
    ensures r.0 + r.1 == health + shield - amount
    ensures amount <= shield ==> r.0 == health
  {
    var s := shield - amount;
    if s < 0 then (health + s, 0) else (health, s)
  }

  /** When the shield holds, health is untouched; when it breaks, health loses exactly the
      part of the hit the shield did not absorb. */
  lemma ShieldAbsorbsFirst(health: int, shield: int, amount: int)
    requires shield > 0 && amount >= 0
    ensures ShieldHit(health, shield, amount).0 <= health
    ensures ShieldHit(health, shield, amount).0 == health - MaxI(amount - shield, 0)
  {
  }

  // ---------------------------------------------------------------------------
  // Movement
  // ---------------------------------------------------------------------------

  datatype Movement = Straight | Zigzag | Circle

  /** The per-frame movement state: position, the movement timer, and the kamikaze's and
      the sniper's lock-on state. */
  datatype Pose = Pose(x: real, y: real, timer: int, kamikazeMode: bool, targetX: real, targetY: real,
                       sniperLocked: bool, lockY: real)

  /** The default movement of `update`: straight down, zigzag around the spawn column, or a
      slower descent on a circle around it. */
  function Drift(m: Movement, baseX: real, speed: real, gameSpeed: real, p: Pose, amplitude: real,
                 frequency: real, lib: MathLib): Pose
  {
    var t := p.timer as real;
    match m
    case Straight => p.(y := p.y + speed + gameSpeed)
    case Zigzag => p.(y := p.y + speed + gameSpeed, x := baseX + lib.sin(t * frequency) * amplitude)
    case Circle => p.(y := p.y + (speed + gameSpeed) * 0.7, x := baseX + lib.cos(t * 0.1) * 30.0)
  }

  /** The movement part of `update`. The kamikaze locks onto the player once below y = 100 and
      then flies at `speed + 2` towards that point; the sniper stops at the height where it
      passed y = 100 and sways sideways; a healer that is given the other enemies moves like
      the rest but zigzags more narrowly and does not circle; everyone else follows its
      movement pattern. */
  function Steer(k: Kind, m: Movement, baseX: real, speed: real, gameSpeed: real, p0: Pose,
                 player: Option<Point>, healing: bool, lib: MathLib): (p: Pose)
    ensures p.timer == p0.timer + 1
    ensures k == Sniper && (p0.sniperLocked || p0.y > 100.0) ==>
      p.sniperLocked && p.lockY == (if p0.sniperLocked then p0.lockY else p0.y) && p.y == p.lockY
    ensures k == Kamikaze && player.Some? && p0.kamikazeMode ==>
      p.kamikazeMode && p.targetX == p0.targetX && p.targetY == p0.targetY
    ensures k != Kamikaze && k != Sniper && !(k == Healer && healing) && m == Straight ==>
      p == p0.(timer := p.timer, y := p0.y + speed + gameSpeed)
  {
    var p1 := p0.(timer := p0.timer + 1);
    if k == Kamikaze && player.Some? then
      var p2 := if !p1.kamikazeMode && p1.y > 100.0
        then p1.(kamikazeMode := true, targetX := player.value.x, targetY := player.value.y) else p1;
      if p2.kamikazeMode then
        var dx, dy := p2.targetX - p2.x, p2.targetY - p2.y;
        var dist := Hypot(dx, dy, lib.sqrt);
        if dist > 0.0 then p2.(x := p2.x + (dx / dist) * (speed + 2.0), y := p2.y + (dy / dist) * (speed + 2.0))
        else p2
      else p2.(y := p2.y + speed + gameSpeed)
    else if k == Sniper then
      var p2 := if !p1.sniperLocked && p1.y > 100.0 then p1.(sniperLocked := true, lockY := p1.y) else p1;
      if p2.sniperLocked then p2.(y := p2.lockY, x := p2.x + lib.sin(p2.timer as real * 0.05) * 1.0)
      else p2.(y := p2.y + speed + gameSpeed)
    else if k == Healer && healing then
      if m == Circle then p1 else Drift(m, baseX, speed, gameSpeed, p1, 40.0, 0.08, lib)
    else Drift(m, baseX, speed, gameSpeed, p1, 50.0, 0.1, lib)
  }

  /** A locked sniper keeps its height frame after frame. */
  lemma {:induction false} SniperStaysLocked(m: Movement, baseX: real, speed: real, gameSpeed: real, p: Pose,
                                             player: Option<Point>, healing: bool, lib: MathLib, n: nat)
    requires p.sniperLocked
    ensures var q := Frames(Sniper, m, baseX, speed, gameSpeed, p, player, healing, lib, n);
      q.sniperLocked && q.lockY == p.lockY && (n > 0 ==> q.y == p.lockY)
  {
    if n > 0 {
      SniperStaysLocked(m, baseX, speed, gameSpeed, p, player, healing, lib, n - 1);
    }
  }

  /** `n` frames of movement with the same arguments. */
  function Frames(k: Kind, m: Movement, baseX: real, speed: real, gameSpeed: real, p: Pose,
                  player: Option<Point>, healing: bool, lib: MathLib, n: nat): (q: Pose)
    ensures q.timer == p.timer + n
  {
    if n == 0 then p
    else Steer(k, m, baseX, speed, gameSpeed, Frames(k, m, baseX, speed, gameSpeed, p, player, healing, lib, n - 1),
               player, healing, lib)
  }

  // ---------------------------------------------------------------------------
  // Shooting
  // ---------------------------------------------------------------------------

  /** The projectiles of `shoot` from an enemy at `(x, y)` of the given height: two magenta
      shots for a shooter; for a sniper that is told where the player is, one fast shot
      aimed at the player unless the player is exactly on it; a slow bomb for a bomber;
      three cyan shots for a tank; one shot for a shield enemy; and one orange shot for the
      rest, including a sniper that is not told where the player is. */
  function Volley(k: Kind, x: real, y: real, height: int, player: Option<Point>, lib: MathLib): seq<Shot>
  {
    var sy := y + (height / 2) as real;
    if k == Shooter then [Plain(x - 10.0, sy, Color(255, 0, 255), 6.0), Plain(x + 10.0, sy, Color(255, 0, 255), 6.0)]
    else if k == Sniper && player.Some? then
      var dx, dy := player.value.x - x, player.value.y - y;
      var dist := Hypot(dx, dy, lib.sqrt);
      if dist > 0.0 then [Shot(x, sy, Color(0, 100, 255), 8.0, 0.0, (dx / dist) * 8.0, (dy / dist) * 8.0, true)]
      else []
    else if k == Bomber then [Plain(x, sy, Color(255, 50, 0), 2.0)]
    else if k == Tank then
      [Plain(x - 15.0, sy, Color(0, 255, 255), 5.0), Plain(x, sy, Color(0, 255, 255), 5.0),
       Plain(x + 15.0, sy, Color(0, 255, 255), 5.0)]
    else if k == ShieldKind then [Plain(x, sy, Color(100, 255, 255), 7.0)]
    else [Plain(x, sy, Color(255, 100, 0), 5.0)]
  }

  /** Two shots for a shooter, three for a tank, none or one for a sniper that is told where
      the player is (one exactly when the player is at a positive distance), one otherwise. */
  lemma VolleySize(k: Kind, x: real, y: real, height: int, player: Option<Point>, lib: MathLib)
    ensures k == Shooter ==> |Volley(k, x, y, height, player, lib)| == 2
    ensures k == Tank ==> |Volley(k, x, y, height, player, lib)| == 3
    ensures k == Sniper && player.Some? ==>
      (|Volley(k, x, y, height, player, lib)| == 1
       <==> Hypot(player.value.x - x, player.value.y - y, lib.sqrt) > 0.0)
    ensures k == Sniper && player.Some? ==> |Volley(k, x, y, height, player, lib)| <= 1
    ensures k != Shooter && k != Tank && !(k == Sniper && player.Some?) ==> |Volley(k, x, y, height, player, lib)| == 1
  {
  }

  /** Fires every shot of a volley, in order. */
  method FireAll(shots: seq<Shot>) returns (bullets: seq<Bullet>)
    ensures |bullets| == |shots|
    ensures forall i :: 0 <= i < |bullets| ==> fresh(bullets[i]) && Matches(bullets[i], shots[i])
  {
    bullets := [];
    for i := 0 to |shots|
      invariant |bullets| == i
      invariant forall k :: 0 <= k < i ==> fresh(bullets[k]) && Matches(bullets[k], shots[k])
    {
      var b := Fire(shots[i]);
      bullets := bullets + [b];
    }
  }

  // ---------------------------------------------------------------------------
  // Healing
  // ---------------------------------------------------------------------------

  const HealRange: real := 100.0

  /** The health of a neighbour after one heal: one more, up to its maximum, when it is
      closer than 100 and not at full health. */
  function Healed(health: int, maxHealth: int, dist: real): (h: int)
    ensures health <= maxHealth ==> health <= h <= maxHealth
    ensures health < maxHealth && dist < HealRange ==> h == health + 1
    ensures health > maxHealth ==> h == health
  {
    if dist < HealRange && health < maxHealth then MinI(maxHealth, health + 1) else health
  }

  class Enemy {
    const name: string
    const kind: Kind
    const width: int
    const height: int
    const maxHealth: int
    const colorBase: real
    const points: int
    const shootEnabled: bool
    const maxShield: int
    const movement: Movement
    const baseX: real
    /** `heal_delay`: three seconds between heals. */
    const healDelay: int
    var pose: Pose
    var speed: real
    var health: int
    var shootCooldown: int
    var shootDelay: int
    var shieldHealth: int
    var splitsEnabled: bool
    var trail: seq<Point>
    var animationFrame: real
    var energyField: real
    var healCooldown: int

    /** The trail holds at most eight positions; the cooldown and the shield are never
        negative. */
    ghost predicate Valid()
      reads this
    {
      |trail| <= 8 && shootCooldown >= 0 && shieldHealth >= 0 && healDelay == 180
    }

    /** `Enemy(x, y, enemy_type)` with the draw `delayPick` of `randint(60, 120)`, the random
        movement pattern and the random energy phase given. As in the source, the draw
        replaces the delay the kind's setup gave. */
    constructor (x: real, y: real, name: string, delayPick: int, movement: Movement, energy: real)
      requires 60 <= delayPick <= 120
      ensures Valid()
      ensures this.name == name && kind == KindOf(name) && this.movement == movement && baseX == x
      ensures pose == Pose(x, y, 0, false, 0.0, 0.0, false, 0.0)
      ensures var s := Setup(KindOf(name));
        width == s.width && height == s.height && speed == s.speed && health == s.health
        && maxHealth == s.maxHealth && colorBase == s.colorBase && points == s.points
        && shootEnabled == s.shootEnabled && shieldHealth == s.shieldHealth && maxShield == s.maxShield
        && splitsEnabled == s.splitsEnabled
      ensures shootCooldown == 0 && shootDelay == WrittenInitialDelay(KindOf(name), delayPick)
      ensures 60 <= shootDelay <= 120
      ensures trail == [] && animationFrame == 0.0 && energyField == energy && healCooldown == 0
    {
      var k := KindOf(name);
      var s := Setup(k);
      this.name := name;
      kind := k;
      width := s.width;
      height := s.height;
      maxHealth := s.maxHealth;
      colorBase := s.colorBase;
      points := s.points;
      shootEnabled := s.shootEnabled;
      maxShield := s.maxShield;
      this.movement := movement;
      baseX := x;
      healDelay := 180;
      pose := Pose(x, y, 0, false, 0.0, 0.0, false, 0.0);
      speed := s.speed;
      health := s.health;
      shootCooldown := 0;
      shootDelay := WrittenInitialDelay(k, delayPick);
      shieldHealth := s.shieldHealth;
      splitsEnabled := s.splitsEnabled;
      trail := [];
      animationFrame := 0.0;
      energyField := energy;
      healCooldown := 0;
    }

    /** `take_damage(amount)`: a shield enemy whose shield is up takes the hit on the shield
        first; everyone else loses the amount from health. The answer is whether it lives. */
    method TakeDamage(amount: int) returns (alive: bool)
      requires Valid()
      modifies this`health, this`shieldHealth
      ensures Valid()
      ensures kind == ShieldKind && old(shieldHealth) > 0 ==>
        (health, shieldHealth) == ShieldHit(old(health), old(shieldHealth), amount)
      ensures !(kind == ShieldKind && old(shieldHealth) > 0) ==>
        health == old(health) - amount && shieldHealth == old(shieldHealth)
      ensures alive <==> health > 0
    {
      if kind == ShieldKind && shieldHealth > 0 {
        shieldHealth := shieldHealth - amount;
        if shieldHealth < 0 {
          health := health + shieldHealth;
          shieldHealth := 0;
        }
        return health > 0;
      } else {
        health := health - amount;
        return health > 0;
      }
    }

    /** `can_split`. */
    predicate CanSplit()
      reads this
      ensures CanSplit() ==> kind == Splitter
    {
      kind == Splitter && splitsEnabled
    }

    /** `shoot`: nothing while the cooldown runs or when the kind does not shoot; otherwise
        the kind's volley, added to the group, and the cooldown restarts, even for a sniper
        whose target sits exactly on it. */
    method Shoot(group: seq<Bullet>, player: Option<Point>, lib: MathLib)
      returns (bullets: seq<Bullet>, newGroup: seq<Bullet>)
      requires Valid()
      modifies this`shootCooldown
      ensures Valid()
      ensures old(shootCooldown) > 0 || !shootEnabled ==> bullets == [] && shootCooldown == old(shootCooldown)
      ensures old(shootCooldown) == 0 && shootEnabled ==>
        var shots := Volley(kind, pose.x, pose.y, height, player, lib);
        shootCooldown == MaxI(shootDelay, 0) && |bullets| == |shots|
        && forall i :: 0 <= i < |bullets| ==> fresh(bullets[i]) && Matches(bullets[i], shots[i])
      ensures newGroup == group + bullets
    {
      if shootCooldown > 0 || !shootEnabled {
        return [], group;
      }
      bullets := FireAll(Volley(kind, pose.x, pose.y, height, player, lib));
      newGroup := group + bullets;
      shootCooldown := if shootDelay < 0 then 0 else shootDelay;
    }

    /** `heal_nearby_enemies`: every other enemy of the group closer than 100 and below its
        maximum gains one health point. */
    method HealNearby(group: seq<Enemy>, lib: MathLib)
      requires forall i, j :: 0 <= i < j < |group| ==> group[i] != group[j]
      modifies (set e | e in group)`health
      ensures forall e :: e in group && e != this ==>
        e.health == Healed(old(e.health), e.maxHealth, Hypot(e.pose.x - pose.x, e.pose.y - pose.y, lib.sqrt))
      ensures this in group ==> health == old(health)
    {
      for i := 0 to |group|
        invariant forall k :: 0 <= k < |group| ==>
          group[k].health == (if k < i && group[k] != this
            then Healed(old(group[k].health), group[k].maxHealth,
                        Hypot(group[k].pose.x - pose.x, group[k].pose.y - pose.y, lib.sqrt))
            else old(group[k].health))
      {
        var e := group[i];
        if e != this {
          HealOne(e, Hypot(e.pose.x - pose.x, e.pose.y - pose.y, lib.sqrt));
        }
      }
    }

    /** One neighbour's heal, at the given distance. */
    static method HealOne(e: Enemy, dist: real)
      modifies e`health
      ensures e.health == Healed(old(e.health), e.maxHealth, dist)
    {
      if dist < HealRange && e.health < e.maxHealth {
        e.health := MinI(e.maxHealth, e.health + 1);
      }
    }

    /** The healer's block of `update`: the heal cooldown counts down, and when it runs out
        the neighbours are healed and the cooldown starts again. */
    method HealTick(group: seq<Enemy>, lib: MathLib)
      requires forall i, j :: 0 <= i < j < |group| ==> group[i] != group[j]
      modifies this`healCooldown, (set e | e in group)`health
      ensures healCooldown == (if old(healCooldown) - 1 <= 0 then healDelay else old(healCooldown) - 1)
      ensures health == old(health)
      ensures old(healCooldown) - 1 <= 0 ==>
        forall e :: e in group && e != this ==>
          e.health == Healed(old(e.health), e.maxHealth, Hypot(e.pose.x - pose.x, e.pose.y - pose.y, lib.sqrt))
      ensures old(healCooldown) - 1 > 0 ==> forall e :: e in group ==> e.health == old(e.health)
    {
      healCooldown := healCooldown - 1;
      if healCooldown <= 0 {
        HealNearby(group, lib);
        healCooldown := healDelay;
      }
    }

    /** `update(game_speed, player_x, player_y, enemies_group)`: movement, the healer's heal
        every 180 frames when it is given a non-empty group, the cooldown, the animation,
        and the trail, which keeps the last eight positions. */
    method Update(gameSpeed: real, player: Option<Point>, group: seq<Enemy>, lib: MathLib)
      requires Valid()
      requires forall i, j :: 0 <= i < j < |group| ==> group[i] != group[j]
      modifies this, (set e | e in group)`health
      ensures Valid()
      ensures health == old(health)
      ensures pose == Steer(kind, movement, baseX, old(speed), gameSpeed, old(pose), player,
                            kind == Healer && group != [], lib)
      ensures speed == old(speed) && shootDelay == old(shootDelay) && shieldHealth == old(shieldHealth)
      ensures splitsEnabled == old(splitsEnabled)
      ensures shootCooldown == MaxI(old(shootCooldown) - 1, 0)
      ensures trail == PushBounded(old(trail), Point(pose.x, pose.y), 8)
      ensures animationFrame == old(animationFrame) + 0.15 && energyField == old(energyField) + 0.1
      ensures !(kind == Healer && group != []) ==>
        healCooldown == old(healCooldown) && forall e :: e in group && e != this ==> e.health == old(e.health)
      ensures kind == Healer && group != [] ==>
        healCooldown == (if old(healCooldown) - 1 <= 0 then healDelay else old(healCooldown) - 1)
      ensures kind == Healer && group != [] && old(healCooldown) - 1 <= 0 ==>
        forall e :: e in group && e != this ==>
          e.health == Healed(old(e.health), e.maxHealth, Hypot(e.pose.x - old(pose.x), e.pose.y - old(pose.y), lib.sqrt))
      ensures kind == Healer && group != [] && old(healCooldown) - 1 > 0 ==>
        forall e :: e in group && e != this ==> e.health == old(e.health)
    {
      var healing := kind == Healer && group != [];
      if healing {
        HealTick(group, lib);
      }
      Advance(gameSpeed, player, healing, lib);
    }

    /** The rest of `update`: the movement, the shooting cooldown, the animation and the
        trail of the last eight positions. */
    method Advance(gameSpeed: real, player: Option<Point>, healing: bool, lib: MathLib)
      requires Valid()
      modifies this`pose, this`shootCooldown, this`animationFrame, this`energyField, this`trail
      ensures Valid()
      ensures pose == Steer(kind, movement, baseX, speed, gameSpeed, old(pose), player, healing, lib)
      ensures shootCooldown == MaxI(old(shootCooldown) - 1, 0)
      ensures trail == PushBounded(old(trail), Point(pose.x, pose.y), 8)
      ensures animationFrame == old(animationFrame) + 0.15 && energyField == old(energyField) + 0.1
    {
      pose := Steer(kind, movement, baseX, speed, gameSpeed, pose, player, healing, lib);
      if shootCooldown > 0 {
        shootCooldown := shootCooldown - 1;
      }
      animationFrame := animationFrame + 0.15;
      energyField := energyField + 0.1;
      trail := PushBounded(trail, Point(pose.x, pose.y), 8);
    }
  }

  /** A splitter splits into basic or fast enemies that the game marks as unable to split,
      and no kind but the splitter ever splits. */
  lemma SplitChildrenDoNotSplit(name: string)
    requires name == "basic" || name == "fast"
    ensures KindOf(name) != Splitter && !Setup(KindOf(name)).splitsEnabled
  {
  }
}
