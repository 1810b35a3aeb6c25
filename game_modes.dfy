/** Game modes (`game_modes.py`): four modes with their fixed configurations, and the
    manager that holds the current mode, the elapsed time and, for the timed mode, the time
    remaining. */
module GameModes {
  import opened Common

  datatype GameMode = Arcade | Survival | BossRush | TimeAttack

  /** A mode's configuration. The boss frequency is positive in every configuration. */
  datatype Config = Config(
    name: string, description: string, icon: string,
    allowShop: bool, allowPowerups: bool, timeLimit: Option<nat>, startingLives: nat,
    difficultyMultiplier: real, scoreMultiplier: real, bossFrequency: nat, enemySpawnRate: real)

  /** `GameModeConfig.get_config`. The argument is None when the caller passes something
      that is not a game mode; that falls back to the arcade configuration. */
  function ConfigOf(mode: Option<GameMode>): (c: Config)
    ensures c.bossFrequency > 0 && c.scoreMultiplier >= 1.0
    ensures mode.None? || mode == Some(Arcade) ==> c == ArcadeConfig
    ensures c.timeLimit.Some? <==> mode == Some(TimeAttack)
  {
    match mode
    case Some(Survival) =>
      Config("SURVIVAL", "Sobreviva o máximo possível sem upgrades", "\U{1F480}",
        false, false, None, 1, 1.5, 2.0, 3, 1.5)
    case Some(BossRush) =>
      Config("BOSS RUSH", "Enfrente bosses consecutivos", "\U{1F479}",
        true, true, None, 5, 1.2, 1.5, 1, 0.3)
    case Some(TimeAttack) =>
      Config("TIME ATTACK", "Score máximo em 3 minutos", "\U{23F1}\U{FE0F}",
        true, true, Some(180), 5, 0.8, 1.5, 10, 1.2)
    case _ => ArcadeConfig
  }

  const ArcadeConfig: Config :=
    Config("ARCADE", "Modo clássico com dificuldade progressiva", "\U{1F3AE}",
      true, true, None, 3, 1.0, 1.0, 5, 1.0)

  /** `get_all_modes`. */
  function AllModes(): (ms: seq<GameMode>)
    ensures |ms| == 4 && forall i, j :: 0 <= i < j < |ms| ==> ms[i] != ms[j]
  {
    [Arcade, Survival, BossRush, TimeAttack]
  }

  /** Only survival mode closes the shop and the power-ups. */
  lemma ShopAndPowerupsOnlyClosedInSurvival(mode: Option<GameMode>)
    ensures !ConfigOf(mode).allowShop <==> mode == Some(Survival)
    ensures !ConfigOf(mode).allowPowerups <==> mode == Some(Survival)
  {
  }

  /** `should_spawn_boss`: a boss level is a whole multiple of the boss frequency. */
  function ShouldSpawnBoss(c: Config, level: int): (r: bool)
    requires c.bossFrequency > 0
    ensures r <==> level == (level / c.bossFrequency) * c.bossFrequency
  {
    level % c.bossFrequency == 0
  }

  /** Boss levels repeat with the boss frequency: in boss rush every level is one. */
  lemma BossLevelsPeriodic(c: Config, level: int)
    requires c.bossFrequency > 0
    ensures ShouldSpawnBoss(c, level) <==> ShouldSpawnBoss(c, level + c.bossFrequency)
    ensures c.bossFrequency == 1 ==> ShouldSpawnBoss(c, level)
  {
    ModShift(level, c.bossFrequency);
  }

  lemma ModShift(a: int, f: int)
    requires f > 0
    ensures (a + f) % f == a % f
  {
    var q, r := a / f, a % f;
    assert a + f == (q + 1) * f + r;
    DivModUnique(a + f, f, q + 1, r);
  }

  /** `t // 60`, whole minutes. */
  function Minutes(t: real): (m: int)
    ensures m as real * 60.0 <= t < (m + 1) as real * 60.0
  {
    (t / 60.0).Floor
  }

  /** `int(t % 60)`: the whole seconds past the minute. */
  function Seconds(t: real): (s: int)
    ensures 0 <= s < 60
    ensures Minutes(t) as real * 60.0 + s as real <= t < Minutes(t) as real * 60.0 + s as real + 1.0
  {
    (t - Minutes(t) as real * 60.0).Floor
  }

  /** The `MM:SS` text of a time. */
  function TimeText(t: real): (text: string)
    ensures 0.0 <= t < 6000.0 ==> |text| == 5 && text[2] == ':'
  {
    Pad2(Minutes(t)) + ":" + Pad2(Seconds(t))
  }

  /** Below 100 minutes the text reads back as the minutes and seconds it shows, which
      together are the time rounded down to a whole second. */
  lemma TimeTextReadsBack(t: real)
    requires 0.0 <= t < 6000.0
    ensures var text := TimeText(t);
      ParseNat(text[..2]) == Some(Minutes(t)) && ParseNat(text[3..]) == Some(Seconds(t))
      && 0 <= Minutes(t) < 100
  {
    var text := TimeText(t);
    assert text[..2] == Pad2(Minutes(t));
    assert text[3..] == Pad2(Seconds(t));
    Pad2RoundTrip(Minutes(t));
    Pad2RoundTrip(Seconds(t));
  }

  class GameModeManager {
    var currentMode: Option<GameMode>
    var config: Config
    var timeElapsed: real
    var timeRemaining: Option<real>

    /** The configuration is the current mode's, and the time remaining is never negative. */
    ghost predicate Valid()
      reads this
    {
      config == ConfigOf(currentMode) && (timeRemaining.Some? ==> timeRemaining.value >= 0.0)
    }

    constructor ()
      ensures Valid()
      ensures currentMode == Some(Arcade) && timeElapsed == 0.0 && timeRemaining == None
    {
      currentMode := Some(Arcade);
      config := ConfigOf(Some(Arcade));
      timeElapsed := 0.0;
      timeRemaining := None;
    }

    /** `set_mode`: switches mode and restarts the clock, with the time limit as the time
        remaining when the mode has one. */
    method SetMode(mode: Option<GameMode>)
      modifies this
      ensures Valid()
      ensures currentMode == mode && config == ConfigOf(mode) && timeElapsed == 0.0
      ensures timeRemaining == (if mode == Some(TimeAttack) then Some(180.0) else None)
    {
      currentMode := mode;
      config := ConfigOf(mode);
      timeElapsed := 0.0;
      if config.timeLimit.Some? && config.timeLimit.value != 0 {
        timeRemaining := Some(config.timeLimit.value as real);
      } else {
        timeRemaining := None;
      }
    }

    /** `update`: the clock advances by `dt`; the time remaining, when there is one, falls by
        `dt` and stops at 0, and the answer is whether it has run out. */
    method Update(dt: real) returns (timeUp: bool)
      requires Valid()
      modifies this
      ensures Valid()
      ensures timeElapsed == old(timeElapsed) + dt
      ensures currentMode == old(currentMode) && config == old(config)
      ensures timeUp <==> timeRemaining == Some(0.0)
      ensures timeUp <==> old(timeRemaining).Some? && old(timeRemaining).value - dt <= 0.0
      ensures old(timeRemaining).None? ==> timeRemaining.None?
      ensures !timeUp && old(timeRemaining).Some? ==> timeRemaining == Some(old(timeRemaining).value - dt)
    {
      timeElapsed := timeElapsed + dt;
      if timeRemaining.Some? {
        timeRemaining := Some(timeRemaining.value - dt);
        if timeRemaining.value <= 0.0 {
          timeRemaining := Some(0.0);
          return true;
        }
      }
      return false;
    }

    /** `should_spawn_boss` for the current mode. */
    function ShouldSpawnBossAt(level: int): (r: bool)
      reads this
      requires Valid()
      ensures r <==> level % config.bossFrequency == 0
    {
      ShouldSpawnBoss(config, level)
    }

    /** `get_time_display`: the time remaining when there is one, else the time elapsed. */
    function TimeDisplay(): (text: string)
      reads this
      ensures timeRemaining.Some? ==> text == TimeText(timeRemaining.value)
      ensures timeRemaining.None? ==> text == TimeText(timeElapsed)
    {
      if timeRemaining.Some? then TimeText(timeRemaining.value) else TimeText(timeElapsed)
    }
  }
}
