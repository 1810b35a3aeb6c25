/** The running game (`game.py`): the score and its mode multiplier, the level that follows
    the score, the atomic-bomb inventory, the permanent upgrades applied to the ship, the
    power-ups, the damage of ramming an enemy, the spawn rate that follows the level and the
    restart of a run. */
module Games {
  import opened Common
  import opened GameModes
  import SaveSystem
  import Players
  import Enemies
  import Bosses
  import Bullets
  import LevelGen
  import ComboSystem
  import ProgressionSystem

  /** `max_atomic_bombs`. */
  const MaxAtomicBombs := 2
  /** One level per 5000 points. */
  const PointsPerLevel := 5000
  const StartSpeed: real := 2.0
  const MaxGameSpeed: real := 8.0
  /** `adjust_difficulty_by_level` never sets the spawn interval below 15 frames. */
  const MinSpawnInterval: real := 15.0
  /** The spawn block of `update` shrinks the interval by 0.8 only while it is above
      `max(10, 50 - 3 * level)`, so the interval never falls below 9.2 frames. */
  const SpawnIntervalFloor: real := 9.2
  const SpawnShrink: real := 0.8
  const RestartSpawnInterval: real := 120.0
  /** `take_damage(30)` when the ship rams an enemy. */
  const RamDamage := 30
  /** `take_damage(30)` dealt to the boss by a bomb. */
  const BombBossDamage := 30
  /** The bomb climbs 1.5 pixels a frame and goes off at a height of 30 or less. */
  const BombClimb: real := 1.5
  const BombFuse: real := 30.0
  const PowerupPoints := 50
  const PowerupXp := 50
  const PowerupHeal := 30
  const LevelHeal := 50
  /** Coins per enemy destroyed by a bomb: `randint(5, 15)`. */
  const MinBombCoins := 5
  const MaxBombCoins := 15

  // ---------------------------------------------------------------------------
  // Score and level
  // ---------------------------------------------------------------------------

  /** `add_score(points)`: `int(points * multiplier)` with the mode's score multiplier. With
      a multiplier of at least 1 a non-negative award is never reduced, and with 1 it is
      exact. */
  function ScoreGain(points: int, multiplier: real): (r: int)
    ensures points >= 0 && multiplier >= 1.0 ==> r >= points
    ensures multiplier == 1.0 ==> r == points
    ensures points >= 0 && multiplier >= 0.0 ==> r >= 0
  {
    assert points >= 0 && multiplier >= 0.0 ==>
      points as real * 0.0 <= points as real * multiplier
      && (multiplier >= 1.0 ==> points as real * 1.0 <= points as real * multiplier) by {
      if points >= 0 && multiplier >= 0.0 {
        MulLe(points as real, 0.0, multiplier);
        if multiplier >= 1.0 {
          MulLe(points as real, 1.0, multiplier);
        }
      }
    }
    Trunc(points as real * multiplier)
  }

  /** `score // 5000 + 1`: level `k` covers the scores from `5000 * (k - 1)` up to just below
      `5000 * k`. */
  function LevelFor(score: int): (level: int)
    ensures score >= 0 ==> level >= 1
    ensures PointsPerLevel * (level - 1) <= score < PointsPerLevel * level
  {
    score / PointsPerLevel + 1
  }

  /** A higher score never gives a lower level. */
  lemma LevelForMonotone(a: int, b: int)
    requires a <= b
    ensures LevelFor(a) <= LevelFor(b)
  {
  }

  /** `min(8.0, 2 + level * 0.3)`: at least the starting speed from level 0 on, never above
      8, and exactly 8 from level 20 on. */
  function SpeedFor(level: int): (speed: real)
    ensures speed <= MaxGameSpeed
    ensures level >= 0 ==> speed >= StartSpeed
    ensures level >= 20 ==> speed == MaxGameSpeed
  {
    MinR(MaxGameSpeed, 2.0 + level as real * 0.3)
  }

  /** The speed never falls as the level rises, and below level 20 every level adds 0.3. */
  lemma SpeedForMonotone(a: int, b: int)
    requires a <= b
    ensures SpeedFor(a) <= SpeedFor(b)
    ensures b < 20 ==> SpeedFor(b) == SpeedFor(a) + (b - a) as real * 0.3
  {
  }

  // ---------------------------------------------------------------------------
  // Atomic bombs
  // ---------------------------------------------------------------------------

  /** A level-up grants a bomb only below the maximum. */
  function Granted(bombs: int): (r: int)
    ensures bombs < MaxAtomicBombs ==> r == bombs + 1
    ensures bombs >= MaxAtomicBombs ==> r == bombs
  {
    if bombs < MaxAtomicBombs then bombs + 1 else bombs
  }

  /** What can happen to the inventory: a level-up, or B pressed while a bomb is (or is
      not) already climbing. */
  datatype BombEvent = LevelGain | PressB(climbing: bool)

  /** The inventory after a run of events, firing only when a bomb is left and none is
      climbing. */
  function Inventory(bombs: int, events: seq<BombEvent>): (r: int)
    ensures r <= MaxI(bombs, MaxAtomicBombs)
    decreases |events|
  {
    if events == [] then bombs
    else
      var b := match events[0]
        case LevelGain => Granted(bombs)
        case PressB(climbing) => if bombs > 0 && !climbing then bombs - 1 else bombs;
      Inventory(b, events[1..])
  }

  /** Whatever happens, an inventory that starts between 0 and 2 stays between 0 and 2. */
  lemma {:induction false} InventoryBounded(bombs: int, events: seq<BombEvent>)
    requires 0 <= bombs <= MaxAtomicBombs
    ensures 0 <= Inventory(bombs, events) <= MaxAtomicBombs
    decreases |events|
  {
    if events != [] {
      var b := match events[0]
        case LevelGain => Granted(bombs)
        case PressB(climbing) => if bombs > 0 && !climbing then bombs - 1 else bombs;
      InventoryBounded(b, events[1..]);
    }
  }

  /** Two level-ups fill an empty inventory and a third one adds nothing. */
  lemma InventoryFills()
    ensures Inventory(0, [LevelGain, LevelGain]) == MaxAtomicBombs
    ensures Inventory(0, [LevelGain, LevelGain, LevelGain]) == MaxAtomicBombs
    ensures Inventory(0, [PressB(false)]) == 0
  {
  }

  /** `a + b + ...`, added from the front. */
  function Total(xs: seq<int>): (r: int)
  {
    if xs == [] then 0 else Total(xs[..|xs| - 1]) + xs[|xs| - 1]
  }

  /** With one draw of 5 to 15 coins per enemy, a bomb pays between 5 and 15 coins an
      enemy. */
  lemma {:induction false} BombCoinsBounded(coins: seq<int>)
    requires forall i :: 0 <= i < |coins| ==> MinBombCoins <= coins[i] <= MaxBombCoins
    ensures MinBombCoins * |coins| <= Total(coins) <= MaxBombCoins * |coins|
  {
    if coins != [] {
      BombCoinsBounded(coins[..|coins| - 1]);
    }
  }

  /** The points a bomb awards: `add_score(enemy.points * 2)` for each enemy, in order. */
  function BombScore(points: seq<int>, multiplier: real): (r: int)
  {
    if points == [] then 0
    else BombScore(points[..|points| - 1], multiplier) + ScoreGain(points[|points| - 1] * 2, multiplier)
  }

  /** With a multiplier of at least 1, a bomb awards at least twice the enemies' points. */
  lemma {:induction false} BombScoreAtLeastDouble(points: seq<int>, multiplier: real)
    requires multiplier >= 1.0
    requires forall i :: 0 <= i < |points| ==> points[i] >= 0
    ensures BombScore(points, multiplier) >= 2 * Total(points)
  {
    if points != [] {
      BombScoreAtLeastDouble(points[..|points| - 1], multiplier);
    }
  }

  /** In arcade mode (multiplier 1) a bomb awards exactly twice the enemies' points. */
  lemma {:induction false} BombScoreArcade(points: seq<int>)
    ensures BombScore(points, 1.0) == 2 * Total(points)
  {
    if points != [] {
      BombScoreArcade(points[..|points| - 1]);
    }
  }

  /** The points of each enemy in a group. */
  function PointsOf(group: seq<Enemies.Enemy>): (r: seq<int>)
    ensures |r| == |group| && forall i :: 0 <= i < |group| ==> r[i] == group[i].points
  {
    seq(|group|, i requires 0 <= i < |group| => group[i].points)
  }

  /** The loop of `trigger_atomic_explosion` over the enemies: each one adds twice its points
      to the score and its coin draw to the coins. */
  method SweepEnemies(points: seq<int>, coins: seq<int>, multiplier: real)
    returns (gained: int, coinTotal: int)
    requires |coins| == |points|
    ensures gained == BombScore(points, multiplier) && coinTotal == Total(coins)
  {
    gained, coinTotal := 0, 0;
    var i := 0;
    while i < |points|
      invariant 0 <= i <= |points|
      invariant gained == BombScore(points[..i], multiplier) && coinTotal == Total(coins[..i])
    {
      assert points[..i + 1][..i] == points[..i] && coins[..i + 1][..i] == coins[..i];
      gained := gained + ScoreGain(points[i] * 2, multiplier);
      coinTotal := coinTotal + coins[i];
      i := i + 1;
    }
    assert points[..i] == points && coins[..i] == coins;
  }

  // ---------------------------------------------------------------------------
  // Upgrades, power-ups and the spawn rate
  // ---------------------------------------------------------------------------

  /** The ship's stats that `apply_upgrades_to_player` sets. */
  datatype Loadout = Loadout(maxHealth: int, speed: real, cooldownMax: int, bulletDamage: int, shield: int)

  /** `apply_upgrades_to_player` from the five upgrade levels: +20 health, +0.5 speed, two
      frames less between shots down to 5, +1 damage and +1 shield per level. The cooldown
      never falls below 5. */
  function LoadoutFor(health: int, speed: int, fireRate: int, damage: int, shield: int): (l: Loadout)
    ensures l.cooldownMax >= 5
    ensures l.cooldownMax == 5 <==> fireRate >= 5
  {
    Loadout(100 + 20 * health, 5.0 + speed as real * 0.5, MaxI(5, 15 - 2 * fireRate), 1 + damage, shield)
  }

  /** With no upgrades, the ship keeps the stats a new ship starts with. */
  lemma NoUpgradesIsNewShip()
    ensures LoadoutFor(0, 0, 0, 0, 0) == Loadout(100, 5.0, Players.BaseCooldown, 1, 0)
  {
  }

  /** More upgrades never make the ship weaker: health, speed, damage and shield rise and the
      cooldown falls. */
  lemma LoadoutMonotone(h0: int, s0: int, f0: int, d0: int, p0: int, h1: int, s1: int, f1: int, d1: int, p1: int)
    requires h0 <= h1 && s0 <= s1 && f0 <= f1 && d0 <= d1 && p0 <= p1
    ensures var a := LoadoutFor(h0, s0, f0, d0, p0); var b := LoadoutFor(h1, s1, f1, d1, p1);
      a.maxHealth <= b.maxHealth && a.speed <= b.speed && a.cooldownMax >= b.cooldownMax
      && a.bulletDamage <= b.bulletDamage && a.shield <= b.shield
  {
  }

  /** The ship's stats a power-up can change. */
  datatype Vitals = Vitals(health: int, maxHealth: int, speed: real, cooldownMax: int)

  /** The effect of `collect_powerup` on the ship, by the power-up's `'type'`. */
  function Boosted(kind: string, v: Vitals): (r: Vitals)
    ensures r.maxHealth == v.maxHealth
  {
    if kind == "health" then v.(health := MinI(v.maxHealth, v.health + PowerupHeal))
    else if kind == "speed" then v.(speed := MinR(8.0, v.speed + 1.0))
    else if kind == "multishot" then v.(cooldownMax := MaxI(5, v.cooldownMax - 2))
    else if kind == "shield" then v.(health := v.maxHealth)
    else v
  }

  /** A power-up changes at most one stat: health, speed or cooldown. It never takes health
      above the maximum or lowers it, never takes the speed above 8 unless it was already,
      and never brings the cooldown below 5; an unknown type changes nothing. */
  lemma BoostedBounds(kind: string, v: Vitals)
    requires v.health <= v.maxHealth
    ensures var r := Boosted(kind, v);
      && v.health <= r.health <= r.maxHealth
      && r.speed <= MaxR(8.0, v.speed) && r.speed >= MinR(8.0, v.speed)
      && r.cooldownMax >= MinI(5, v.cooldownMax) && r.cooldownMax <= MaxI(5, v.cooldownMax)
      && (r.health != v.health ==> kind == "health" || kind == "shield")
      && (r.speed != v.speed ==> kind == "speed")
      && (r.cooldownMax != v.cooldownMax ==> kind == "multishot")
      && (kind !in {"health", "speed", "multishot", "shield"} ==> r == v)
  {
  }

  /** `player_power`: 1 plus a weighted sum of four upgrade levels. */
  function Power(health: int, fireRate: int, damage: int, speed: int): (p: real)
    ensures health >= 0 && fireRate >= 0 && damage >= 0 && speed >= 0 ==> p >= 1.0
  {
    1.0 + health as real * 0.1 + fireRate as real * 0.15 + damage as real * 0.2 + speed as real * 0.1
  }

  /** `max(15, 120 - level * 3 - (power - 1) * 20)`. */
  function SpawnInterval(level: int, power: real): (frames: real)
    ensures frames >= MinSpawnInterval
    ensures frames == MinSpawnInterval || frames == 120.0 - (level * 3) as real - (power - 1.0) * 20.0
  {
    MaxR(MinSpawnInterval, 120.0 - (level * 3) as real - (power - 1.0) * 20.0)
  }

  /** A higher level or a stronger ship never slows the spawning down, and from level 35 on
      (with upgrades that are not negative) enemies come at the fastest rate. */
  lemma SpawnIntervalMonotone(l0: int, p0: real, l1: int, p1: real)
    requires l0 <= l1 && p0 <= p1
    ensures SpawnInterval(l1, p1) <= SpawnInterval(l0, p0)
    ensures l1 >= 35 && p1 >= 1.0 ==> SpawnInterval(l1, p1) == MinSpawnInterval
  {
  }

  /** The mode's spawn-rate factor lies between 0.3 and 1.5, so the first interval,
      `int(80 / rate)`, is at least 53 frames. */
  lemma FirstIntervalAtLeastMinimum(mode: Option<GameMode>)
    ensures Trunc(80.0 / ConfigOf(mode).enemySpawnRate) >= 53
  {
    var rate := ConfigOf(mode).enemySpawnRate;
    assert 0.3 <= rate <= 1.5 by {
      match mode
      case None =>
      case Some(m) =>
    }
    var q := 80.0 / rate;
    assert q * rate == 80.0;
    assert q >= 53.0 by {
      if q < 53.0 {
        MulLe(rate, q, 53.0);
        MulLe(53.0, rate, 1.5);
      }
    }
  }

  // ---------------------------------------------------------------------------
  // Ramming enemies
  // ---------------------------------------------------------------------------

  /** The group left once the enemies hit are removed (`dokill=True`), in order. */
  function Without(group: seq<Enemies.Enemy>, hits: seq<Enemies.Enemy>): (r: seq<Enemies.Enemy>)
    ensures |r| <= |group|
    ensures forall i :: 0 <= i < |r| ==> r[i] in group && r[i] !in hits
    ensures forall i :: 0 <= i < |group| && group[i] !in hits ==> group[i] in r
  {
    if group == [] then []
    else if group[0] in hits then Without(group[1..], hits)
    else [group[0]] + Without(group[1..], hits)
  }

  /** The ship's health and shield after ramming: `take_damage(30)` twice, once in each of
      the two `if hits` blocks. */
  function RamHits(health: int, shield: int): (r: (int, int))
    ensures 0 <= r.0 <= MaxI(health, 0)
  {
    var first := Players.Hit(health, shield, RamDamage);
    Players.Hit(first.0, first.1, RamDamage)
  }

  /** Ramming costs the ship 60 points of shield and health together, not 30: with no
      shield and more than 60 health it loses exactly 60, and a full shield of 60 or more
      takes all of it. */
  lemma RamCostsDouble(health: int, shield: int)
    requires health >= 0 && shield >= 0
    ensures var r := RamHits(health, shield);
      r.0 + r.1 >= health + shield - 2 * RamDamage && r.0 <= health && r.1 <= shield
    ensures shield == 0 && health > 2 * RamDamage ==> RamHits(health, shield) == (health - 2 * RamDamage, 0)
    ensures shield >= 2 * RamDamage ==> RamHits(health, shield) == (health, shield - 2 * RamDamage)
  {
    var first := Players.Hit(health, shield, RamDamage);
    Players.HitLosesAtMostAmount(health, shield, RamDamage);
    Players.HitLosesAtMostAmount(first.0, first.1, RamDamage);
  }

  /** How many times a ramming calls `game_over`: once after each hit that leaves the ship
      with no health, so a hit that destroys the ship calls it twice. */
  function GameOverCalls(health: int, shield: int): (n: nat)
    ensures n <= 2
  {
    var first := Players.Hit(health, shield, RamDamage);
    var second := Players.Hit(first.0, first.1, RamDamage);
    (if first.0 <= 0 then 1 else 0) + (if second.0 <= 0 then 1 else 0)
  }

  /** The first ram hit empties the health and the game-over screen answers "retry": the
      run restarts before the second hit, which lands on the new ship. */
  predicate Restarts(hits: seq<Enemies.Enemy>, health: int, shield: int, retry: bool)
  {
    hits != [] && retry && Players.Hit(health, shield, RamDamage).0 <= 0
  }

  /** A ship with more than 30 health survives one ram hit, whatever its shield. */
  lemma SurvivesOneRam(health: int, shield: int)
    requires health > RamDamage
    ensures Players.Hit(health, shield, RamDamage).0 > 0
  {
  }

  /** Once the first hit empties the health, the second finds it empty too, so `game_over`
      is called twice, never once for the first hit alone. This is the count when the first
      call's screen is left by "menu" or "quit", which keep the ship. */
  lemma FirstHitEndsTwice(health: int, shield: int)
    requires Players.Hit(health, shield, RamDamage).0 <= 0
    ensures GameOverCalls(health, shield) == 2
  {
  }

  // ---------------------------------------------------------------------------
  // The game
  // ---------------------------------------------------------------------------

  /** `session_stats`: the counters the missions and achievements read. */
  datatype Session = Session(kills: int, bosses: int, powerups: int, coins: int, time: int,
                             level: int, shotsFired: int, shotsHit: int)

  const NoSession := Session(0, 0, 0, 0, 0, 0, 0, 0)

  /** The run's statistics: score, level, speed, kills, power-ups, coins and the session
      counters. */
  datatype Tallies = Tallies(score: int, level: int, gameSpeed: real, enemiesKilled: int,
                             powerupsCollected: int, coinsEarned: int, session: Session)

  /** `combo.reset()`, as far as a restart needs it: no combo, no record and a multiplier
      of 1. */
  method ResetCombo(c: ComboSystem.Combo)
    requires c.Valid()
    modifies c
    ensures c.Valid() && c.combo == 0 && c.maxCombo == 0 && c.multiplier == 1.0
  {
    c.Reset();
  }

  /** The loop at the end of `trigger_atomic_explosion`: `combo.add_kill(now)` once per
      destroyed enemy, without a position, so no floating text appears. */
  method AddKills(c: ComboSystem.Combo, n: nat, now: real)
    requires c.Valid()
    modifies c
    ensures c.Valid()
    ensures c.combo == old(c.combo) + n && c.maxCombo == MaxI(old(c.maxCombo), c.combo)
    ensures c.floatingTexts == old(c.floatingTexts)
    ensures n > 0 ==> c.lastKillTime == now && c.comboTimer == c.comboTimeout
    ensures n == 0 ==> c.lastKillTime == old(c.lastKillTime) && c.comboTimer == old(c.comboTimer)
  {
    var i := 0;
    while i < n
      invariant 0 <= i <= n && c.Valid()
      invariant c.combo == old(c.combo) + i && c.maxCombo == MaxI(old(c.maxCombo), c.combo)
      invariant c.floatingTexts == old(c.floatingTexts)
      invariant i > 0 ==> c.lastKillTime == now && c.comboTimer == c.comboTimeout
      invariant i == 0 ==> c.lastKillTime == old(c.lastKillTime) && c.comboTimer == old(c.comboTimer)
    {
      c.AddKill(now, None);
      i := i + 1;
    }
  }

  /** The assignments of `apply_upgrades_to_player`, for a loadout already computed. */
  method Equip(ship: Players.Player, l: Loadout)
    requires ship.Valid() && l.cooldownMax >= 0
    modifies ship`maxHealth, ship`health, ship`speed, ship`shootCooldownMax
    modifies ship`bulletDamage, ship`shield, ship`shieldMax
    ensures ship.Valid()
    ensures Loadout(ship.maxHealth, ship.speed, ship.shootCooldownMax, ship.bulletDamage, ship.shield) == l
    ensures ship.health == ship.maxHealth && ship.shieldMax == ship.shield
  {
    ship.maxHealth := l.maxHealth;
    ship.health := ship.maxHealth;
    ship.speed := l.speed;
    ship.shootCooldownMax := l.cooldownMax;
    ship.bulletDamage := l.bulletDamage;
    ship.shield, ship.shieldMax := l.shield, l.shield;
  }

  /** A new ship at `(x, y)` with the loadout `l` applied. */
  method Launch(x: real, y: real, l: Loadout) returns (ship: Players.Player)
    requires l.cooldownMax >= 0
    ensures fresh(ship) && ship.Valid() && ship.x == x && ship.y == y
    ensures Loadout(ship.maxHealth, ship.speed, ship.shootCooldownMax, ship.bulletDamage, ship.shield) == l
    ensures ship.health == ship.maxHealth
  {
    ship := new Players.Player(x, y);
    Equip(ship, l);
  }

  /** `progression.add_xp(amount)`, as far as the game needs it: the experience, scaled by
      the multiplier, is banked, and the save data is left as it was. */
  method GrantXp(p: ProgressionSystem.Progression, amount: int)
    requires p.Valid()
    modifies p, p.save
    ensures p.Valid() && unchanged(p.save)
    ensures p.totalXp == old(p.totalXp) + Trunc(amount as real * old(p.xpMultiplier))
  {
    var _, _ := p.AddXp(amount);
  }

  /** The statistics of a new run. */
  const FreshTallies := Tallies(0, 1, StartSpeed, 0, 0, 0, NoSession)

  /** The entities and timers of the playing field: enemies, both kinds of bullet,
      particles, the spawn timer and interval, the game-over flag and the boss. */
  datatype Field = Field(enemies: seq<Enemies.Enemy>, bullets: seq<Bullets.Bullet>,
                         enemyBullets: seq<Bullets.Bullet>, particles: seq<Spark>,
                         spawnTimer: int, spawnInterval: real, isGameOver: bool,
                         boss: Bosses.Boss?, bossActive: bool)

  /** The field of a restarted run: empty, with a 120-frame spawn interval. */
  const ClearedField := Field([], [], [], [], 0, RestartSpawnInterval, false, null, false)

  /** One particle of `create_explosion`. */
  datatype Spark = Spark(x: real, y: real, vx: real, vy: real, life: int, color: Color)

  class Game {
    const width: int
    const height: int
    const save: SaveSystem.SaveSystem
    const levelGen: LevelGen.LevelGenerator
    const combo: ComboSystem.Combo
    const progression: ProgressionSystem.Progression
    /** The mode's score multiplier and boss frequency (`mode_manager`), fixed for the run. */
    const scoreMultiplier: real
    const bossFrequency: int
    var player: Players.Player
    var score: int
    var level: int
    var gameSpeed: real
    var enemiesKilled: int
    var powerupsCollected: int
    var coinsEarned: int
    var session: Session
    var enemies: seq<Enemies.Enemy>
    var bullets: seq<Bullets.Bullet>
    var enemyBullets: seq<Bullets.Bullet>
    var particles: seq<Spark>
    var atomicBombs: int
    var atomicBombActive: bool
    var bombX: real
    var bombY: real
    var enemySpawnTimer: int
    var enemySpawnInterval: real
    var boss: Bosses.Boss?
    var bossActive: bool
    var isGameOver: bool

    /** The ship's cooldowns are not negative, the experience goes to the game's save data,
        the multiplier is at least 1, the level at least 1, the speed between 2 and 8, the
        bombs between 0 and 2 and the spawn interval at least 9.2 frames. The subsystems keep
        their own invariants; each operation asks for those of the ones it calls. */
    ghost predicate Valid()
      reads this, player
    {
      player.Valid() && progression.save == save
      && scoreMultiplier >= 1.0 && bossFrequency > 0
      && level >= 1 && StartSpeed <= gameSpeed <= MaxGameSpeed
      && 0 <= atomicBombs <= MaxAtomicBombs
      && enemySpawnInterval >= SpawnIntervalFloor
    }

    /** The boss, when there is one, keeps its invariant. */
    ghost predicate BossValid()
      reads this, boss
    {
      boss != null ==> boss.Valid()
    }

    function Stats(): Tallies
      reads this
    {
      Tallies(score, level, gameSpeed, enemiesKilled, powerupsCollected, coinsEarned, session)
    }

    function Arena(): Field
      reads this
    {
      Field(enemies, bullets, enemyBullets, particles, enemySpawnTimer, enemySpawnInterval,
        isGameOver, boss, bossActive)
    }

    /** The permanent upgrade levels in the save data. */
    function Upgrades(): (l: Loadout)
      reads this, save
      ensures l.cooldownMax >= 5
    {
      LoadoutFor(save.UpgradeLevel("max_health"), save.UpgradeLevel("speed"),
        save.UpgradeLevel("fire_rate"), save.UpgradeLevel("bullet_damage"), save.UpgradeLevel("shield"))
    }

    /** `player_power` from the upgrade levels. */
    function PlayerPower(): real
      reads this, save
    {
      Power(save.UpgradeLevel("max_health"), save.UpgradeLevel("fire_rate"),
        save.UpgradeLevel("bullet_damage"), save.UpgradeLevel("speed"))
    }

    function ShipLoadout(): Loadout
      reads this, player
    {
      Loadout(player.maxHealth, player.speed, player.shootCooldownMax, player.bulletDamage, player.shield)
    }

    function ShipVitals(): Vitals
      reads this, player
    {
      Vitals(player.health, player.maxHealth, player.speed, player.shootCooldownMax)
    }

    /** `Game.__init__` for a mode, with the subsystems it creates passed in: score 0,
        level 1, speed 2, no bombs, no boss, a ship with 100 health per starting life (the
        upgrades are not applied yet) and a first spawn interval of `int(80 / rate)`. */
    constructor (width: int, height: int, save: SaveSystem.SaveSystem, mode: Option<GameMode>,
                 levelGen: LevelGen.LevelGenerator, combo: ComboSystem.Combo,
                 progression: ProgressionSystem.Progression)
      requires save.Valid() && levelGen.Valid() && combo.Valid()
      requires progression.save == save && progression.Valid()
      ensures Valid() && BossValid()
      ensures this.width == width && this.height == height && this.save == save
      ensures scoreMultiplier == ConfigOf(mode).scoreMultiplier && bossFrequency == ConfigOf(mode).bossFrequency
      ensures score == 0 && level == 1 && gameSpeed == StartSpeed
      ensures enemiesKilled == 0 && powerupsCollected == 0 && coinsEarned == 0 && session == NoSession
      ensures fresh(player) && player.x == (width / 2) as real && player.y == (height - 100) as real
      ensures player.maxHealth == 100 * ConfigOf(mode).startingLives && player.health == player.maxHealth
      ensures enemies == [] && bullets == [] && enemyBullets == [] && particles == []
      ensures atomicBombs == 0 && !atomicBombActive && boss == null && !bossActive && !isGameOver
      ensures enemySpawnTimer == 0 && enemySpawnInterval == Trunc(80.0 / ConfigOf(mode).enemySpawnRate) as real
    {
      var config := ConfigOf(mode);
      this.width, this.height := width, height;
      this.save, this.levelGen, this.combo, this.progression := save, levelGen, combo, progression;
      scoreMultiplier, bossFrequency := config.scoreMultiplier, config.bossFrequency;
      score, level, gameSpeed := 0, 1, StartSpeed;
      enemiesKilled, powerupsCollected, coinsEarned := 0, 0, 0;
      session := NoSession;
      var ship := new Players.Player((width / 2) as real, (height - 100) as real);
      ship.maxHealth := config.startingLives * 100;
      ship.health := ship.maxHealth;
      player := ship;
      enemies, bullets, enemyBullets, particles := [], [], [], [];
      boss, bossActive := null, false;
      atomicBombs, atomicBombActive, bombX, bombY := 0, false, 0.0, 0.0;
      enemySpawnTimer := 0;
      FirstIntervalAtLeastMinimum(mode);
      enemySpawnInterval := Trunc(80.0 / config.enemySpawnRate) as real;
      isGameOver := false;
    }

    /** `add_score(points)`. */
    method AddScore(points: int)
      modifies this`score
      ensures score == old(score) + ScoreGain(points, scoreMultiplier)
    {
      score := score + ScoreGain(points, scoreMultiplier);
    }

    /** The end of `update`: one point for surviving the frame, then the level check. */
    method SurviveFrame() returns (bossDue: bool)
      requires Valid() && levelGen.Valid()
      modifies this`score, this`level, this`gameSpeed, this`atomicBombs, this`enemySpawnInterval
      modifies levelGen, player`health
      ensures Valid() && levelGen.Valid()
      ensures score == old(score) + ScoreGain(1, scoreMultiplier) && score > old(score)
      ensures level == MaxI(old(level), LevelFor(score))
      ensures bossDue <==> level > old(level) && level % bossFrequency == 0 && !bossActive
    {
      AddScore(1);
      bossDue := LevelUp();
    }

    /** The level-up block of `update`: the level follows the score but never falls; on a
        rise the speed follows the level, the tunnel narrows, one bomb is granted below the
        maximum, a boss is due on a boss level when none is active (spawning it is left to
        the caller), and the difficulty is adjusted. Otherwise nothing changes. */
    method LevelUp() returns (bossDue: bool)
      requires Valid() && levelGen.Valid()
      modifies this`level, this`gameSpeed, this`atomicBombs, this`enemySpawnInterval
      modifies levelGen, player`health
      ensures Valid() && levelGen.Valid()
      ensures level == MaxI(old(level), LevelFor(score)) && level >= LevelFor(score)
      ensures level > old(level) ==>
        && gameSpeed == SpeedFor(level) && atomicBombs == Granted(old(atomicBombs))
        && levelGen.currentLevel == old(levelGen.currentLevel) + 1
        && enemySpawnInterval == SpawnInterval(level, PlayerPower())
        && player.health == MinI(player.maxHealth, old(player.health) + LevelHeal)
      ensures level == old(level) ==>
        && gameSpeed == old(gameSpeed) && atomicBombs == old(atomicBombs)
        && enemySpawnInterval == old(enemySpawnInterval) && player.health == old(player.health)
        && unchanged(levelGen)
      ensures bossDue <==> level > old(level) && level % bossFrequency == 0 && !bossActive
    {
      var newLevel := LevelFor(score);
      bossDue := false;
      if newLevel > level {
        level := newLevel;
        gameSpeed := SpeedFor(level);
        levelGen.IncreaseDifficulty();
        if atomicBombs < MaxAtomicBombs {
          atomicBombs := atomicBombs + 1;
        }
        bossDue := level % bossFrequency == 0 && !bossActive;
        AdjustDifficultyByLevel();
      }
    }

    /** `adjust_difficulty_by_level`: the spawn interval follows the level and the upgrades,
        never below 15 frames, and the ship heals 50 up to its maximum. */
    method AdjustDifficultyByLevel()
      requires Valid()
      modifies this`enemySpawnInterval, player`health
      ensures Valid()
      ensures enemySpawnInterval == SpawnInterval(level, PlayerPower())
      ensures player.health == MinI(player.maxHealth, old(player.health) + LevelHeal)
      ensures old(player.health) <= player.maxHealth ==> old(player.health) <= player.health <= player.maxHealth
    {
      enemySpawnInterval := SpawnInterval(level, PlayerPower());
      player.health := MinI(player.maxHealth, player.health + LevelHeal);
    }

    /** B pressed: with a bomb left and none climbing, one bomb leaves the inventory and
        starts climbing from the ship; otherwise nothing happens. The answer says whether it
        was fired (and the power-up sound played). */
    method FireAtomicBomb() returns (fired: bool)
      requires Valid()
      modifies this`atomicBombs, this`atomicBombActive, this`bombX, this`bombY
      ensures Valid()
      ensures fired <==> old(atomicBombs) > 0 && !old(atomicBombActive)
      ensures fired ==> (atomicBombs == old(atomicBombs) - 1 && atomicBombActive
        && bombX == player.x && bombY == player.y)
      ensures !fired ==> (atomicBombs == old(atomicBombs) && atomicBombActive == old(atomicBombActive)
        && bombX == old(bombX) && bombY == old(bombY))
    {
      fired := atomicBombs > 0 && !atomicBombActive;
      if fired {
        atomicBombs := atomicBombs - 1;
        atomicBombActive := true;
        bombX, bombY := player.x, player.y;
      }
    }

    /** The bomb part of `update`: a climbing bomb rises 1.5 pixels and, at a height of 30 or
        less, goes off and stops climbing. `coins` holds the coin draw for each enemy and
        `now` is `time.time()`. */
    method UpdateAtomicBomb(coins: seq<int>, now: real) returns (exploded: bool)
      requires Valid() && BossValid() && combo.Valid() && |coins| == |enemies|
      modifies this`bombY, this`atomicBombActive, this`score, this`coinsEarned, this`session, this`enemies
      modifies boss, combo
      ensures Valid() && BossValid() && combo.Valid()
      ensures exploded ==> combo.combo == old(combo.combo) + |old(enemies)|
      ensures !exploded ==> combo.combo == old(combo.combo)
      ensures exploded <==> old(atomicBombActive) && old(bombY) - BombClimb <= BombFuse
      ensures old(atomicBombActive) ==> bombY == old(bombY) - BombClimb
      ensures !old(atomicBombActive) ==> (bombY == old(bombY) && !atomicBombActive
        && score == old(score) && enemies == old(enemies))
      ensures old(atomicBombActive) ==> atomicBombActive == !exploded
      ensures exploded ==> (enemies == [] && coinsEarned == old(coinsEarned) + Total(coins)
        && score == old(score) + BombScore(PointsOf(old(enemies)), scoreMultiplier))
      ensures !exploded ==> (enemies == old(enemies) && score == old(score)
        && coinsEarned == old(coinsEarned) && session == old(session))
    {
      exploded := false;
      if atomicBombActive {
        bombY := bombY - BombClimb;
        if bombY <= BombFuse {
          TriggerAtomicExplosion(coins, now);
          atomicBombActive := false;
          exploded := true;
        }
      }
    }

    /** `trigger_atomic_explosion`: every enemy is destroyed, each adding twice its points to
        the score, its coin draw to the run's coins and one kill to the session; an active
        boss takes 30 damage (nothing while it is invulnerable); then the combo counts one
        kill per destroyed enemy at the time `now`. */
    method TriggerAtomicExplosion(coins: seq<int>, now: real)
      requires Valid() && BossValid() && combo.Valid() && |coins| == |enemies|
      modifies this`score, this`coinsEarned, this`session, this`enemies, boss, combo
      ensures Valid() && BossValid() && combo.Valid()
      ensures combo.combo == old(combo.combo) + |old(enemies)|
      ensures combo.maxCombo == MaxI(old(combo.maxCombo), combo.combo)
      ensures combo.multiplier == ComboSystem.MultiplierFor(combo.combo)
      ensures combo.floatingTexts == old(combo.floatingTexts)
      ensures old(enemies) != [] ==> combo.lastKillTime == now
      ensures score == old(score) + BombScore(PointsOf(old(enemies)), scoreMultiplier)
      ensures coinsEarned == old(coinsEarned) + Total(coins)
      ensures session == old(session).(kills := old(session).kills + |old(enemies)|)
      ensures enemies == []
      ensures boss != null && bossActive && !old(boss.invulnerable) ==>
        boss.health == MaxI(old(boss.health) - BombBossDamage, 0)
      ensures boss != null && !(bossActive && !old(boss.invulnerable)) ==> boss.health == old(boss.health)
    {
      var gained, coinTotal := SweepEnemies(PointsOf(enemies), coins, scoreMultiplier);
      score := score + gained;
      coinsEarned := coinsEarned + coinTotal;
      session := session.(kills := session.kills + |enemies|);
      var destroyed := |enemies|;
      enemies := [];
      if bossActive && boss != null {
        var _ := boss.TakeDamage(BombBossDamage);
      }
      AddKills(combo, destroyed, now);
    }

    /** The spawn block of `update`, which runs only while no boss is active: the timer
        counts one frame; once it reaches the interval, `2 + level // 2` enemies are due
        (spawning them is left to the caller), the timer restarts and the interval shrinks
        by 0.8 while it is above `max(10, 50 - 3 * level)`. */
    method SpawnTimerTick() returns (due: nat)
      requires Valid()
      modifies this`enemySpawnTimer, this`enemySpawnInterval
      ensures Valid()
      ensures bossActive && boss != null ==>
        due == 0 && enemySpawnTimer == old(enemySpawnTimer) && enemySpawnInterval == old(enemySpawnInterval)
      ensures !(bossActive && boss != null) && (old(enemySpawnTimer) + 1) as real < old(enemySpawnInterval) ==>
        due == 0 && enemySpawnTimer == old(enemySpawnTimer) + 1 && enemySpawnInterval == old(enemySpawnInterval)
      ensures !(bossActive && boss != null) && (old(enemySpawnTimer) + 1) as real >= old(enemySpawnInterval) ==>
        due == 2 + level / 2 && enemySpawnTimer == 0
        && enemySpawnInterval == (if old(enemySpawnInterval) > MaxI(10, 50 - level * 3) as real
                                  then old(enemySpawnInterval) - SpawnShrink else old(enemySpawnInterval))
      ensures enemySpawnInterval <= old(enemySpawnInterval)
    {
      due := 0;
      if !(bossActive && boss != null) {
        enemySpawnTimer := enemySpawnTimer + 1;
        if enemySpawnTimer as real >= enemySpawnInterval {
          due := 2 + level / 2;
          enemySpawnTimer := 0;
          var minInterval := MaxI(10, 50 - level * 3);
          if enemySpawnInterval > minInterval as real {
            enemySpawnInterval := enemySpawnInterval - SpawnShrink;
          }
        }
      }
    }

    /** `apply_upgrades_to_player`: the ship's stats follow the upgrade levels and its health
        is full. */
    method ApplyUpgradesToPlayer()
      requires player.Valid()
      modifies player`maxHealth, player`health, player`speed, player`shootCooldownMax
      modifies player`bulletDamage, player`shield, player`shieldMax
      ensures player.Valid()
      ensures ShipLoadout() == Upgrades()
      ensures player.health == player.maxHealth && player.shieldMax == player.shield
    {
      Equip(player, Upgrades());
    }

    /** `collect_powerup`: 50 experience, one power-up in the session but two in
        `powerups_collected`, the power-up's effect on the ship and 50 points. */
    method CollectPowerup(kind: string)
      requires Valid() && progression.Valid()
      modifies this`powerupsCollected, this`session, this`score
      modifies player`health, player`speed, player`shootCooldownMax, progression, save
      ensures Valid() && progression.Valid()
      ensures ShipVitals() == Boosted(kind, old(ShipVitals()))
      ensures powerupsCollected == old(powerupsCollected) + 2
      ensures session == old(session).(powerups := old(session).powerups + 1)
      ensures score == old(score) + ScoreGain(PowerupPoints, scoreMultiplier)
      ensures progression.totalXp == old(progression.totalXp) + Trunc(PowerupXp as real * old(progression.xpMultiplier))
      ensures unchanged(save)
    {
      GrantXp(progression, PowerupXp);
      session := session.(powerups := session.powerups + 1);
      powerupsCollected := powerupsCollected + 1;
      Boost(kind);
      AddScore(PowerupPoints);
      powerupsCollected := powerupsCollected + 1;
    }

    /** The type-dependent part of `collect_powerup`. */
    method Boost(kind: string)
      requires player.Valid()
      modifies player`health, player`speed, player`shootCooldownMax
      ensures player.Valid()
      ensures ShipVitals() == Boosted(kind, old(ShipVitals()))
    {
      if kind == "health" {
        player.health := MinI(player.maxHealth, player.health + PowerupHeal);
      } else if kind == "speed" {
        player.speed := MinR(8.0, player.speed + 1.0);
      } else if kind == "multishot" {
        player.shootCooldownMax := MaxI(5, player.shootCooldownMax - 2);
      } else if kind == "shield" {
        player.health := player.maxHealth;
      }
    }

    /** The two `if hits` blocks of `check_collisions` for the enemies that rammed the ship
        (`hits`, which pygame has already taken out of the group). `retry` is the answer of
        the game-over screen if the first hit empties the health. On "retry", `game_over`
        restarts the run before it returns, so the second block hits the new ship and counts
        the kills into the new run. On "menu" or "quit", the second block hits the same empty
        ship and calls `game_over` again; what that second call's screen does is left to the
        caller. */
    method RamEnemies(hits: seq<Enemies.Enemy>, retry: bool) returns (gameOvers: nat)
      requires Valid() && combo.Valid()
      modifies this, player, combo
      ensures Valid() && combo.Valid()
      ensures hits == [] ==>
        && player == old(player) && player.health == old(player.health) && player.shield == old(player.shield)
        && enemiesKilled == old(enemiesKilled) && gameOvers == 0
      ensures !Restarts(hits, old(player.health), old(player.shield), retry) ==>
        && player == old(player) && enemies == Without(old(enemies), hits)
        && Stats() == old(Stats()).(enemiesKilled := enemiesKilled)
        && Arena() == old(Arena()).(enemies := enemies) && unchanged(combo)
      ensures hits != [] && !Restarts(hits, old(player.health), old(player.shield), retry) ==>
        && (player.health, player.shield) == RamHits(old(player.health), old(player.shield))
        && enemiesKilled == old(enemiesKilled) + |hits|
        && gameOvers == GameOverCalls(old(player.health), old(player.shield))
      ensures Restarts(hits, old(player.health), old(player.shield), retry) ==>
        && fresh(player) && player.maxHealth == Upgrades().maxHealth
        && (player.health, player.shield) == Players.Hit(Upgrades().maxHealth, Upgrades().shield, RamDamage)
        && Stats() == FreshTallies.(enemiesKilled := |hits|) && Arena() == ClearedField
        && combo.combo == 0 && atomicBombs == old(atomicBombs)
        && gameOvers == 1 + (if player.health <= 0 then 1 else 0)
        && (save.UpgradeLevel("max_health") >= 0 ==> gameOvers == 1)
    {
      enemies := Without(enemies, hits);
      gameOvers := 0;
      if hits != [] {
        var ended, restarted := FirstRamHit(retry);
        if restarted && save.UpgradeLevel("max_health") >= 0 {
          SurvivesOneRam(player.maxHealth, player.shield);
        }
        var endedAgain := SecondRamHit(|hits|);
        gameOvers := (if ended then 1 else 0) + (if endedAgain then 1 else 0);
      }
    }

    /** The first `if hits` block: 30 damage, and `game_over` when the health is gone, which
        restarts the run when its screen answers "retry". */
    method FirstRamHit(retry: bool) returns (ended: bool, restarted: bool)
      requires Valid() && combo.Valid()
      modifies this, player, combo
      ensures Valid() && combo.Valid()
      ensures ended <==> Players.Hit(old(player.health), old(player.shield), RamDamage).0 <= 0
      ensures restarted <==> ended && retry
      ensures !restarted ==>
        && player == old(player) && (player.health, player.shield) == Players.Hit(old(player.health), old(player.shield), RamDamage)
        && Stats() == old(Stats()) && Arena() == old(Arena()) && unchanged(combo)
      ensures restarted ==>
        && fresh(player) && player.maxHealth == Upgrades().maxHealth && player.health == player.maxHealth
        && player.shield == Upgrades().shield
        && Stats() == FreshTallies && Arena() == ClearedField
        && combo.combo == 0 && atomicBombs == old(atomicBombs)
    {
      player.TakeDamage(RamDamage);
      ended := player.health <= 0;
      restarted := ended && retry;
      if restarted {
        RestartGame();
      }
    }

    /** The second `if hits` block: 30 damage to the ship there is now, the kills counted,
        and whether `game_over` is called again. */
    method SecondRamHit(kills: nat) returns (ended: bool)
      requires Valid()
      modifies this`enemiesKilled, player`health, player`shield
      ensures Valid()
      ensures (player.health, player.shield) == Players.Hit(old(player.health), old(player.shield), RamDamage)
      ensures enemiesKilled == old(enemiesKilled) + kills
      ensures ended <==> player.health <= 0
    {
      player.TakeDamage(RamDamage);
      enemiesKilled := enemiesKilled + kills;
      ended := player.health <= 0;
    }

    /** `restart_game`: a fresh run with the upgrades applied to a new ship. The bomb
        inventory, and a bomb still climbing, carry over from the last run. */
    method RestartGame()
      requires Valid() && combo.Valid()
      modifies this, combo
      ensures Valid() && combo.Valid()
      ensures Stats() == FreshTallies
      ensures combo.combo == 0 && combo.maxCombo == 0 && combo.multiplier == 1.0
      ensures fresh(player) && player.x == (width / 2) as real && player.y == (height - 100) as real
      ensures ShipLoadout() == Upgrades()
      ensures player.health == player.maxHealth
      ensures Arena() == ClearedField
      ensures atomicBombs == old(atomicBombs) && atomicBombActive == old(atomicBombActive)
    {
      var loadout := Upgrades();
      ResetCombo(combo);
      var ship := Launch((width / 2) as real, (height - 100) as real, loadout);
      ResetCounters();
      player := ship;
      ClearField();
    }

    /** The statistics `restart_game` resets. */
    method ResetCounters()
      modifies this`score, this`level, this`gameSpeed, this`enemiesKilled, this`powerupsCollected
      modifies this`coinsEarned, this`session
      ensures Stats() == FreshTallies
    {
      score, level, gameSpeed := 0, 1, StartSpeed;
      enemiesKilled, powerupsCollected, coinsEarned := 0, 0, 0;
      session := NoSession;
    }

    /** The entities and timers `restart_game` clears. */
    method ClearField()
      modifies this`enemies, this`bullets, this`enemyBullets, this`particles, this`enemySpawnTimer
      modifies this`enemySpawnInterval, this`isGameOver, this`boss, this`bossActive
      ensures Arena() == ClearedField
    {
      enemies, bullets, enemyBullets, particles := [], [], [], [];
      enemySpawnTimer := 0;
      enemySpawnInterval := RestartSpawnInterval;
      isGameOver := false;
      boss, bossActive := null, false;
    }
  }
}
