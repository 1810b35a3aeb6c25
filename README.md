# Psychedelic River Raid — a Dafny model of the game's logic

Psychedelic River Raid is a pygame shoot-'em-up. Most of the program draws, plays sound,
reads input devices or writes files. Around that sits sequential logic that can be stated
exactly, and this project models it in Dafny and proves what it promises. One Dafny module
stands for each source file:

- **Procedural audio** (`AudioEngine`, audio_engine.py). Buffers are `seq<real>`.
  - The wave generators, envelope, DC removal, noise gate, soft clipping, dithering, one-pole
    low-pass filter, normalisation and delay-line reverb are modelled.
  - So are the chiptune composer, the at-most-once sound cache, the volume setting and the
    music track rotation.
  - `sin`, `cos`, `tanh`, `sqrt` and `pi` are parameters (a `MathLib` record in `Common`)
    with only the facts a property needs. Random draws are parameters as well.
- **Game rules, economy and progression.** Each is a class or a set of functions over values:
  - the combo counter (`ComboSystem`), experience and prestige (`ProgressionSystem`);
  - the save data (`SaveSystem`) and the leaderboards (`LeaderboardSystem`);
  - the shop (`Shop`), achievements (`AchievementSystem`), daily missions
    (`DailyMissionSystem`) and skins (`Skins`);
  - game modes (`GameModes`) and scenarios (`ScenarioSystem`);
  - bosses (`Bosses`, `BossTypes`), enemies (`Enemies`), the ship (`Players`) and bullets
    (`Bullets`);
  - collision tests (`Collisions`) and the tunnel (`LevelGen`);
  - the menus and dialogs (`MenuSystems`, `SettingsMenus`, `ModeSelection`, `NameInput`,
    `GameOverScreens`, `Tutorials`);
  - the score, level, bomb, power-up and upgrade rules of the main loop (`Games`).
- `Common` holds the shared pieces: `Option`, Python's `int()` on a float, ASCII case
  mapping, decimal printing and parsing, exact powers, and small arithmetic lemmas. `Input` holds
  keyboard events.

Python floats are modelled as exact `real`s. Python's `int()` truncates toward zero
(`Common.Trunc`), and `//` and `%` on a positive divisor floor as Dafny's do.

Several behaviours of the program look accidental. They are modelled as written, and
lemmas state their consequences:
- ramming an enemy applies the 30 damage twice (`Games.RamCostsDouble`);
- a power-up counts twice in `powerups_collected` (`Games.Game.CollectPowerup`);
- the atomic-bomb inventory survives a restart (`Games.Game.RestartGame`);
- the permanent upgrades are applied on a restart but not to the first ship of a game
  (`Games.Game.constructor`);
- settings keys absent from the defaults are dropped by `update_setting`, so the keys written
  by the progression, achievement, mission, skin and tutorial systems are never stored
  (`SaveSystem.SaveSystem.UpdateSetting`);
- the boss receives a `BossType` enum where it compares strings, so it never gets parts
  (`Bosses.GameBossHasNoParts`);
- a run in BOSS RUSH or TIME ATTACK mode enters only the global leaderboard
  (`LeaderboardSystem.SpacedModesAreGlobalOnly`).
- an enemy's shooting delay is always the 60..120 draw, which replaces the delay its kind's
  setup gives (`Enemies.Enemy.constructor`; the corrected rule is `Enemies.InitialDelay`);
- the game-over screen adds a beaten record's new level to the old record instead of
  replacing it (`GameOverScreens.ResetStatsEffect`; the corrected rule is
  `GameOverScreens.RaiseRecord`);
- when the first ram hit ends the game and the player retries, the second hit lands on the
  new ship and its kills count in the new run (`Games.Game.RamEnemies`).

## Model

| member | source | states |
|---|---|---|
| Common.Trunc | shop.py:93 | Python's `int()` on a float truncates toward zero: for a non-negative value the result is the floor, for a negative one the ceiling |
| Common.Frac | audio_engine.py:571 | Python's float `x % 1.0` is the fractional part, in [0, 1), and differs from `x` by a whole number |
| Common.GetOr | achievement_system.py:194 | `dict.get(key, default)` gives the stored value for a present key and the default for a missing one |
| Common.DropLast | name_input.py:70-72 | `name[:-1]`, which both the name dialog and the game-over name entry (game_over_screen.py:108) use on BACKSPACE: the empty name stays empty, any other name loses exactly its last character |
| Common.PushBounded | bullet.py:51-53 | appending to a trail and dropping the oldest entry once it is too long keeps the new entry last and at most `limit` entries, dropping the oldest only when the trail was full |
| Common.PushBoundedKeepsRecent | bullet.py:51-53 | two pushes keep both entries, in order, at the end of the trail |
| Common.ClampR | audio_engine.py:659 | `max(lo, min(hi, x))` lies in [lo, hi] and keeps a value already there |
| Common.Bound | boss.py:140-141 | the hand-written clamp is at least the lower bound, at most the upper bound when the bounds are ordered, keeps an in-range value, and gives the lower bound when the bounds cross |
| Common.BoundIdempotent | boss.py:140-141 | clamping twice is clamping once |
| Common.PowInt | progression_system.py:24 | `b ** z` for a base of at least 1 is positive, and at least 1 for a non-negative exponent |
| Common.PowMonotone | shop.py:93 | with a base of at least 1 the power is at least 1 and grows with the exponent |
| Common.Lower | leaderboard_system.py:91 | `str.lower()` keeps the length and lower-cases character by character |
| Common.Upper | game_over_screen.py:112 | `str.upper()` keeps the length and upper-cases character by character |
| Common.NatToString | settings_menu.py:43 | `str(n)` of a natural number is a non-empty string of decimal digits, one digit long exactly for numbers below ten |
| Common.ParseNat | menu_system.py:97 | `int(s)` succeeds exactly on a non-empty string of decimal digits |
| Common.NatToStringRoundTrip | menu_system.py:97-104 | a number formatted with `str` and read back with `int` is the number again |
| Common.Pad2 | game_modes.py:164 | `f"{n:02d}"` of a number below 100 is exactly two digits |
| Common.Pad2RoundTrip | game_modes.py:164 | the two-digit form reads back as the number it formats |
| Common.SqrtLess | collision.py:12-13 | comparing a root against a bound is comparing the radicand against the bound's square, when the bound is positive |
| Input.Wrap | mode_selection_menu.py:38-41 | Python's `i % n` for a positive length: always an index of the list, and an index that is already in range is kept |
| Input.WrapRoundTrip | mode_selection_menu.py:38-41 | one step back followed by one step forward through a cyclic list, or the reverse, returns to the entry one started from |
| SaveSystem.Plus | save_system.py:137-138 | Python's `+=` on two numbers adds their values and gives a float exactly when either side is one |
| SaveSystem.IntValue | save_system.py:137-138 | the integer an `int` or a `bool` stands for has the same numeric value |
| SaveSystem.DefaultKeys | save_system.py:15-46 | the default settings and statistics hold exactly the seven setting keys and the five statistic keys |
| SaveSystem.ProgressKeysAreNotSettings | save_system.py:15-46 | `player_level`, `current_xp`, `total_xp` and `prestige_level` are not setting keys, so `update_setting` drops them |
| SaveSystem.InsertPos | save_system.py:99-100 | a stable descending sort places an entry appended to a sorted table after every entry whose score is at least as high and before the first lower one |
| SaveSystem.Take | save_system.py:102-103 | the slice `[:n]` is the first `min(len, n)` entries |
| SaveSystem.InsertedAt | save_system.py:96-100 | entries before the insertion point keep their place, the new entry takes it, and the entries after move one place down |
| SaveSystem.Inserted | save_system.py:96-100 | the inserted table is one entry longer and holds the new entry |
| SaveSystem.AddedTable | save_system.py:96-103 | the table after `add_high_score` has exactly `min(len + 1, 10)` entries |
| SaveSystem.InsertedIsStableSort | save_system.py:96-100 | inserting into a sorted table keeps it sorted by descending score and holds exactly the old entries plus the new one |
| SaveSystem.InsertedMultiset | save_system.py:96-100 | the inserted table holds exactly the old entries plus the new one |
| SaveSystem.InsertedPlacement | save_system.py:96-100 | every entry before the new one scores at least as much and every entry after it scores less |
| SaveSystem.InsertedSorted | save_system.py:96-100 | the inserted table is sorted by descending score |
| SaveSystem.AddedTableSorted | save_system.py:96-103 | after `add_high_score` the table is sorted, holds at most ten entries and has exactly `min(len + 1, 10)` |
| SaveSystem.FirstMatch | save_system.py:108-114 | the ranking loop answers the 1-based position of the first entry with the given score, name and date, and None only when no entry matches |
| SaveSystem.RankWhenKept | save_system.py:96-114 | when the new entry survives the cut to ten, a rank is always found, and it is no later than the new entry's own position |
| SaveSystem.RankOfNewEntry | save_system.py:96-114 | when no older entry has the same score, name and date, the rank is the new entry's position if it was kept and None if it was cut |
| SaveSystem.FirstMatchAt | save_system.py:108-114 | the ranking loop stops at the first matching entry |
| SaveSystem.FirstMatchNone | save_system.py:108-114 | without a matching entry the ranking loop finds nothing |
| SaveSystem.OnlyNewEntryMatches | save_system.py:96-114 | when no older entry matches the new one, only the new entry's slot of the table can match it |
| SaveSystem.IsHighScoreIffSurvives | save_system.py:121-125 | `is_high_score` is true exactly when an added score would stay in the sorted top ten |
| SaveSystem.StatAfter | save_system.py:135-140 | one keyword argument keeps the statistics' keys |
| SaveSystem.StatsAfter | save_system.py:133-141 | applying the keyword arguments never adds or removes a statistic key |
| SaveSystem.StatsAfterFirst | save_system.py:133-141 | `update_stats` is its first argument applied, then the rest |
| SaveSystem.StatsUntouched | save_system.py:133-141 | a statistic no argument names keeps its value |
| SaveSystem.StatsAfterEffect | save_system.py:133-141 | a named statistic that exists gains a numeric argument and is replaced by any other value; an unknown name is ignored |
| SaveSystem.SaveSystem.constructor | save_system.py:6-49 | with no save file, the default data: no high scores, the default settings, statistics, unlocks and upgrades, and no coins |
| SaveSystem.SaveSystem.AddHighScore | save_system.py:88-115 | the table becomes the sorted, cut insertion of the new entry; the rank is what the search loop finds in the new table; nothing else changes |
| SaveSystem.SaveSystem.IsHighScore | save_system.py:121-125 | true exactly when an added score would stay in the table |
| SaveSystem.SaveSystem.HighestScore | save_system.py:127-131 | the largest score in a non-empty table, and 0 for an empty one |
| SaveSystem.SaveSystem.UpdateStats | save_system.py:133-141 | the statistics become the keyword arguments applied in order; nothing else changes |
| SaveSystem.SaveSystem.GetStat | save_system.py:143-145 | the stored statistic, or 0 for an unknown name |
| SaveSystem.SaveSystem.UpdateSetting | save_system.py:147-151 | an existing setting takes the new value; an unknown name changes nothing |
| SaveSystem.SaveSystem.GetSetting | save_system.py:153-155 | the stored setting, or the default for an unknown name |
| SaveSystem.SaveSystem.UnlockItem | save_system.py:157-164 | an item is appended, and true answered, exactly when its category exists and does not hold it yet; afterwards the item is unlocked exactly when the category exists; nothing else changes |
| SaveSystem.SaveSystem.IsUnlocked | save_system.py:166-170 | true exactly when the category exists and holds the item |
| SaveSystem.SaveSystem.AddCoins | save_system.py:202-205 | the coins grow by the amount and nothing else changes |
| SaveSystem.SaveSystem.SpendCoins | save_system.py:207-214 | the amount is deducted, and true answered, exactly when the balance covers it; a non-negative balance stays non-negative; nothing else changes |
| SaveSystem.SaveSystem.UpgradeLevel | save_system.py:224-227 | the stored level of an upgrade, or 0 for one never bought |
| SaveSystem.SaveSystem.UpgradeStat | save_system.py:229-235 | the upgrade takes its new level and every other upgrade, and everything else, stays |
| SaveSystem.FindRank | save_system.py:108-114 | the search loop answers what `FirstMatch` describes |
| Bullets.OffScreen | bullet.py:56 | a bullet anywhere on the 800 by 600 screen is never off screen |
| Bullets.Advance | bullet.py:44 | a bullet without direction does not move vertically, and with a non-negative speed it moves down for a positive direction and up for a negative one |
| Bullets.Drift | bullet.py:40-43 | a bullet without direction, without speed or at an angle whose sine is 0 does not drift sideways |
| Bullets.Bullet.constructor | bullet.py:5-28 | a new bullet keeps the given position, direction, colour, speed and damage, has no velocity, angle or custom movement, an empty trail and is alive |
| Bullets.Bullet.Update | bullet.py:30-57 | a bullet with custom movement or a velocity moves by its velocity, any other one moves `speed * direction` down and `sin(angle) * speed * abs(direction)` sideways; the trail gains the new position and keeps the last five; the animation advances by 0.3; the bullet dies once it is outside x in [-20, 820], y in [-20, 800]; nothing else changes |
| Bullets.Fire | bullet.py:5-28 | a fresh bullet built with direction 1 and damage 1 that carries exactly the position, colour, speed, angle, velocity and movement flag a boss attack sets on it |
| Collisions.CircleCollision | collision.py:8-13 | two circles on the same centre collide exactly when the root of 0 is below the sum of their radii |
| Collisions.Ccw | collision.py:25-26 | three points that turn counter-clockwise are pairwise distinct |
| Collisions.LineCollision | collision.py:23-31 | a segment of zero length never crosses another |
| Collisions.CircleCollisionSquared | collision.py:8-13 | two circles collide exactly when the radii add up to something positive and the squared distance between the centres is below the squared sum of the radii |
| Collisions.CircleCollisionSymmetric | collision.py:8-13 | the circle test does not depend on which circle comes first |
| Collisions.ConcentricCollide | collision.py:8-13 | two circles on the same centre collide exactly when their radii add up to more than nothing |
| Collisions.CcwIsCross | collision.py:25-26 | `ccw(A, B, C)` holds exactly when the cross product of `B - A` and `C - A` is positive |
| Collisions.CcwCyclic | collision.py:25-26 | rotating the three points does not change their turn |
| Collisions.LineCollisionSymmetric | collision.py:23-31 | the segment-crossing test gives the same answer with the two segments swapped |
| Collisions.CollisionNormal | collision.py:33-41 | the normal is `(0, 0)` whenever the distance is not positive |
| Collisions.NormalZeroIffCoincident | collision.py:33-41 | the normal is `(0, 0)` exactly when the two points coincide |
| Collisions.Touching | collision.py:43-57 | the bodies touching the player are a subsequence of the enemies, in order |
| Collisions.TouchingExact | collision.py:43-57 | an enemy is reported exactly when it is in the list and its circle (radius half its width) meets the player's |
| Collisions.PlayerEnemyCollisions | collision.py:43-57 | the loop collects exactly the enemies `Touching` describes, in list order |
| Collisions.Reachable | collision.py:107-122 | the power-ups reported are at most the power-ups given |
| Collisions.ReachableExact | collision.py:107-122 | a power-up is reported exactly when it is in the list, not yet collected, and its circle of radius 15 meets the player's, so a collected one never is |
| Collisions.PowerUpCollisions | collision.py:107-122 | the loop collects exactly the power-ups `Reachable` describes, in list order |
| Collisions.CollisionEffect | collision.py:149-177 | each recipe has at least one colour and at least five sparks, and an unknown kind gets five white sparks with sizes in [1, 3] and speeds in [2, 5] |
| Collisions.NewSpark | collision.py:189-200 | a new spark starts at the collision point with the drawn life and colour and a full life of 40 |
| Collisions.CreateSparks | collision.py:179-204 | as many sparks as the recipe asks for, one per random draw and in order, each with a colour of the recipe and a life in (0, 40] |
| Collisions.StepSpark | collision.py:208-215 | one frame of a spark: it moves, loses one life and is slowed by friction, keeping its colour, size and full life |
| Collisions.AgeSparks | collision.py:206-218 | the sparks after an update are at most as many as before, all with life left |
| Collisions.AgeSparksMembers | collision.py:206-218 | every surviving spark is a stepped spark of the list, and every spark with more than one life left survives |
| Collisions.UpdateSparks | collision.py:206-218 | the loop over a copy that removes expired sparks leaves exactly the list `AgeSparks` describes |
| Collisions.SparkSurvivesUpdate | collision.py:206-218 | a spark with at least two lives survives the next update as its stepped self |
| ComboSystem.MultiplierFor | combo_system.py:40-51 | the multiplier of the combo ladder lies between 1 and 5 |
| ComboSystem.MultiplierMonotone | combo_system.py:40-51 | a longer combo never has a smaller multiplier |
| ComboSystem.MultiplierSteps | combo_system.py:40-51 | the multiplier is 1 below 5 kills, 1.5 from 5, 2 from 10, 3 from 25, 4 from 50 and 5 from 100 |
| ComboSystem.MilestoneShake | combo_system.py:54-66 | every milestone shakes the screen by at least 5 |
| ComboSystem.MilestonePriority | combo_system.py:54-66 | a multiple of 50 is a gold milestone, a multiple of 25 that is not one of 50 is orange, a multiple of 10 that is not one of 25 is white, and any other combo is no milestone |
| ComboSystem.StepTexts | combo_system.py:88-94 | the floating texts after a frame are at most as many as before, in order, all still visible |
| ComboSystem.StepTextsKeeps | combo_system.py:88-94 | a text survives a frame exactly when its opacity stays positive |
| ComboSystem.AdvanceTexts | combo_system.py:88-94 | the loop over a copy that removes faded texts leaves exactly the list `StepTexts` describes |
| ComboSystem.Combo.constructor | combo_system.py:7-22 | no combo, no maximum, multiplier 1, no texts and every screen effect off |
| ComboSystem.Combo.Reset | combo_system.py:24-31 | the combo, its maximum, the kill time and the timer go to 0, the timeout to 2 seconds and the multiplier to 1; the screen effects and the floating texts are left alone |
| ComboSystem.Combo.AddKill | combo_system.py:33-76 | one more kill, the maximum follows, the kill time is recorded and the timer restarts at the timeout; the multiplier follows the ladder; a milestone sets its shake, flash and colour (gold also starts one second of slow motion), no milestone keeps them; with a position the `+points` text is added and, from a combo of 5, the `xN COMBO!` banner 30 pixels above it |
| ComboSystem.Combo.TriggerMilestone | combo_system.py:54-66 | the milestone effects alone: shake, flash, colour and slow motion as the milestone of the combo says, every other field unchanged |
| ComboSystem.Combo.AddKillTexts | combo_system.py:68-76 | the floating texts alone: nothing without a position, the points text, and the combo banner from 5 kills; every other field unchanged |
| ComboSystem.Combo.Update | combo_system.py:78-109 | a running combo whose timer runs out resets (combo and maximum to 0), one still running keeps its combo with the timer reduced; texts advance and faded ones are dropped; the shake falls by `30 * dt` but not below 0; slow motion and flash count down while positive |
| ComboSystem.Combo.TimeScale | combo_system.py:115-123 | half speed exactly while slow motion runs, normal speed otherwise |
| GameModes.ConfigOf | game_modes.py:22-78 | every configuration has a positive boss frequency and a score multiplier of at least 1; an unknown mode falls back to arcade; only time attack has a time limit |
| GameModes.AllModes | game_modes.py:80-88 | the four modes, each once |
| GameModes.ShopAndPowerupsOnlyClosedInSurvival | game_modes.py:22-78 | the shop and the power-ups are closed exactly in survival mode |
| GameModes.ShouldSpawnBoss | game_modes.py:154-157 | a boss is due exactly on a whole multiple of the boss frequency |
| GameModes.BossLevelsPeriodic | game_modes.py:154-157 | boss levels repeat with the boss frequency, and with a frequency of 1 (boss rush) every level is one |
| GameModes.Minutes | game_modes.py:162 | `t // 60` is the number of whole minutes in `t` |
| GameModes.Seconds | game_modes.py:163 | `int(t % 60)` is in [0, 60) and counts the whole seconds past the minute |
| GameModes.TimeText | game_modes.py:159-168 | below 100 minutes the text is five characters with a colon in the middle |
| GameModes.TimeTextReadsBack | game_modes.py:159-168 | below 100 minutes the `MM:SS` text reads back as the minutes and seconds it shows, which together are the time rounded down to a whole second |
| GameModes.GameModeManager.constructor | game_modes.py:93-97 | arcade mode with the clock at 0 and no time remaining |
| GameModes.GameModeManager.SetMode | game_modes.py:99-112 | the new mode and its configuration, the clock restarted, and the time limit as the time remaining exactly in time attack (180 seconds) |
| GameModes.GameModeManager.Update | game_modes.py:114-124 | the clock advances by `dt`; the time remaining, when there is one, falls by `dt` and stops at 0; the answer is true exactly when it has run out |
| GameModes.GameModeManager.ShouldSpawnBossAt | game_modes.py:154-157 | true exactly when the level is a multiple of the current mode's boss frequency |
| GameModes.GameModeManager.TimeDisplay | game_modes.py:159-168 | the `MM:SS` text of the time remaining when there is one, else of the time elapsed |
| ProgressionSystem.XpForLevel | progression_system.py:21-24 | `int(100 * 1.15 ** (level - 1))` is never negative and at least 100 from level 1 on |
| ProgressionSystem.XpForLevelMonotone | progression_system.py:21-24 | the requirement never falls as the level rises |
| ProgressionSystem.CoinMultiplier | progression_system.py:18 | the coin multiplier is at least 1 exactly when the prestige level is not negative |
| ProgressionSystem.XpMultiplier | progression_system.py:19 | the experience multiplier is at least 1 exactly when the prestige level is not negative |
| ProgressionSystem.Settle | progression_system.py:44-52 | the level-up loop ends at a level no lower than the start with less banked than the next requirement, keeps a non-negative balance non-negative, and stays at the start level exactly when the first requirement is not covered |
| ProgressionSystem.SettleConserves | progression_system.py:44-52 | the loop conserves experience: what it spent on the levels gained plus what is left is what was banked |
| ProgressionSystem.XpSpentFront | progression_system.py:44-52 | the experience spent climbing from one level to a higher one is the next level's requirement plus the rest of the climb |
| ProgressionSystem.RankTier | progression_system.py:75-90 | the rank band is one of six: none below level 10, the top one from 50, and band `t` for levels `10t` to `10t + 9` in between |
| ProgressionSystem.RankTierMonotone | progression_system.py:75-90 | a higher level never has a lower rank |
| ProgressionSystem.LevelRewards | progression_system.py:92-115 | the coins reward `100 * level` always comes first, a reward box follows on every fifth level, and one skin or prestige notice is added exactly at levels 10, 20, 30, 40 and 50 |
| ProgressionSystem.Progression.constructor | progression_system.py:6-19 | level 1 with no experience, no prestige and both multipliers at 1, because the settings never hold the four keys |
| ProgressionSystem.Progression.XpToNextLevel | progression_system.py:26-28 | the next level's requirement is at least 100 |
| ProgressionSystem.Progression.XpProgress | progression_system.py:30-33 | the progress is at most 1, and in [0, 1) while the banked experience is non-negative |
| ProgressionSystem.Progression.AddXp | progression_system.py:35-57 | the amount is scaled by the experience multiplier and truncated, added to the total, and the level and balance are what the level-up loop settles on; the levels gained are counted and `leveled_up` says whether any were; prestige and multipliers stay; the save data is left as it was |
| ProgressionSystem.Progression.LevelUp | progression_system.py:44-52 | the loop reaches the level and balance `Settle` describes and counts the levels gained |
| ProgressionSystem.Progression.Prestige | progression_system.py:59-73 | from level 50 on, one more prestige level, back to level 1 with nothing banked and multipliers of `1 + 0.05p` and `1 + 0.1p`, answering true; below 50 nothing changes and the answer is false; the total experience is kept either way |
| ProgressionSystem.Progression.RankName | progression_system.py:75-90 | the prestige label once any prestige was earned, else the title of the level band |
| ProgressionSystem.Progression.SaveProgress | progression_system.py:117-122 | the four writes go to keys the settings do not hold, so the save data is left as it was |
| ProgressionSystem.FractionBelowOne | progression_system.py:30-33 | a non-negative balance below a positive requirement is a fraction in [0, 1) |
| AchievementSystem.Check | achievement_system.py:160-189 | checking an id unlocks it exactly when it is a known achievement (a known one already unlocked stays so, anything else changes nothing) |
| AchievementSystem.CheckIdempotent | achievement_system.py:160-189 | checking the same id twice is the same as checking it once: a second unlock pays and notifies nothing |
| AchievementSystem.CheckAllGrows | achievement_system.py:160-189 | a run of checks only adds known ids and coins, keeps the earlier notifications, and queues exactly one notification per id newly unlocked |
| AchievementSystem.KillChecks | achievement_system.py:193-201 | every kill goal checked names an achievement |
| AchievementSystem.CoinChecks | achievement_system.py:204-210 | every coin goal checked names an achievement |
| AchievementSystem.BossChecks | achievement_system.py:213-219 | every boss goal checked names an achievement |
| AchievementSystem.LevelChecks | achievement_system.py:222-229 | every level goal checked names an achievement |
| AchievementSystem.StatChecks | achievement_system.py:191-229 | every id `check_stats` checks names an achievement |
| AchievementSystem.KillChecksIff | achievement_system.py:193-201 | the first-kill goal is checked exactly at one kill, the 100-kill goal from 100 kills, the 500 and 1000 goals from 500 and 1000 |
| AchievementSystem.BossChecksIff | achievement_system.py:213-219 | the first-boss goal is checked exactly at one boss, the 5-boss goal from 5 and the 10-boss goal from 10 |
| AchievementSystem.Achievements.constructor | achievement_system.py:6-158 | nothing unlocked and nothing pending, because the settings never hold the key |
| AchievementSystem.Achievements.CheckAchievement | achievement_system.py:160-165 | true exactly when the id is known and still locked; the state becomes the `Check` of it; the save data apart from the coins stays |
| AchievementSystem.Achievements.Unlock | achievement_system.py:167-189 | a fresh unlock pays the reward, queues one notification and writes the unlocked set as a list; a repeated one does nothing; the save data apart from the coins stays |
| AchievementSystem.Achievements.ListOf | achievement_system.py:185 | the list holds exactly the unlocked identifiers, once each |
| AchievementSystem.Achievements.CheckStats | achievement_system.py:191-229 | the state becomes the checks of all four blocks, in source order |
| AchievementSystem.Achievements.CheckKills | achievement_system.py:193-201 | the state becomes the kill checks, in order |
| AchievementSystem.Achievements.CheckCoins | achievement_system.py:204-210 | the state becomes the coin checks, in order |
| AchievementSystem.Achievements.CheckBosses | achievement_system.py:213-219 | the state becomes the boss checks, in order |
| AchievementSystem.Achievements.CheckLevels | achievement_system.py:222-229 | the state becomes the level checks, in order |
| AchievementSystem.Achievements.GetNotifications | achievement_system.py:231-235 | the pending notifications are handed over and the queue is left empty |
| AchievementSystem.Achievements.GetProgress | achievement_system.py:237-245 | the unlocked count out of the total, never more, with a percentage in [0, 100] that is 100 exactly when every achievement is unlocked |
| AchievementSystem.Percentage | achievement_system.py:244 | a count out of a positive total is a percentage in [0, 100], and 100 only for all |
| AchievementSystem.CheckAllAppend | achievement_system.py:191-229 | running two lists of checks one after the other is running their concatenation |
| AchievementSystem.UnlockedKeyIsNotASetting | achievement_system.py:187 | `unlocked_achievements` is not a setting key, so the write in `unlock` is dropped |
| DailyMissionSystem.PoolWellFormed | daily_mission_system.py:37-143 | every pool mission starts at zero progress, incomplete, with a positive target and reward, and the pool ids are distinct |
| DailyMissionSystem.Drawn | daily_mission_system.py:145-146 | `random.sample(pool, 3)` gives three distinct, fresh, well-formed missions of the pool |
| DailyMissionSystem.Advance | daily_mission_system.py:153-163 | an incomplete mission of the reported kind takes the value capped at its target and completes exactly when the value reaches it; any other mission is unchanged; id, kind, target and reward never change |
| DailyMissionSystem.AdvanceAll | daily_mission_system.py:153-163 | every mission advances on its own, in order |
| DailyMissionSystem.EarnedPositive | daily_mission_system.py:158-160 | with positive rewards, a report pays coins exactly when it completes some mission |
| DailyMissionSystem.AdvanceAllIdempotent | daily_mission_system.py:149-168 | reporting the same value twice is reporting it once, and the second report completes nothing, so no reward is paid twice |
| DailyMissionSystem.CompletedOnce | daily_mission_system.py:155 | a completed mission never completes again, whatever is reported later |
| DailyMissionSystem.Accuracy | daily_mission_system.py:191-193 | `int(shots_hit / shots_fired * 100)` lies in [0, 100] when no more shots hit than were fired |
| DailyMissionSystem.Reports | daily_mission_system.py:170-193 | `check_mission_completion` reports kills, level, power-ups, bosses, coins and time, then accuracy only when a shot was fired |
| DailyMissionSystem.AfterReports | daily_mission_system.py:170-193 | the reports, one after the other, keep the number of missions |
| DailyMissionSystem.ReportStep | daily_mission_system.py:170-193 | applying the next report to the state after the earlier ones gives the state after one report more |
| DailyMissionSystem.AfterReportsKeeps | daily_mission_system.py:170-193 | reports keep every mission well formed and never reopen a completed one |
| DailyMissionSystem.CompletedCount | daily_mission_system.py:199-201 | the completed count is at most the number of missions |
| DailyMissionSystem.CompletedCountFull | daily_mission_system.py:199-205 | the completed count reaches the number of missions exactly when all are completed |
| DailyMissionSystem.MissionsValue | daily_mission_system.py:146 | the stored form of the missions is a list with one item per mission |
| DailyMissionSystem.MissionKeysAreNotSettings | daily_mission_system.py:31 | `daily_missions` and `daily_missions_last_reset` are not setting keys, so their writes are dropped and the constructor reads the defaults |
| DailyMissionSystem.AdvanceMissions | daily_mission_system.py:153-163 | the loop advances every mission, pays each completion's reward into the coins and answers whether any mission completed; the rest of the save data stays |
| DailyMissionSystem.AdvanceOne | daily_mission_system.py:154-163 | one pass of the loop: the mission advances and, when it completes, its reward is paid |
| DailyMissionSystem.DailyMissions.constructor | daily_mission_system.py:8-20 | starting from no stored missions and a reset time of 0, a fresh draw of three missions, with the reset time set to now when the day has changed |
| DailyMissionSystem.DailyMissions.CheckReset | daily_mission_system.py:22-33 | on a new day fresh missions are drawn and the reset time recorded; otherwise nothing changes; the save data stays |
| DailyMissionSystem.DailyMissions.Generate | daily_mission_system.py:35-147 | the missions become the three drawn ones, which are also returned |
| DailyMissionSystem.DailyMissions.UpdateProgress | daily_mission_system.py:149-168 | every mission advances, the coins grow by the rewards of the missions that complete, and the answer is whether any did |
| DailyMissionSystem.DailyMissions.CheckMissionCompletion | daily_mission_system.py:170-193 | the missions and coins are those after the reports of `Reports`, one after the other |
| DailyMissionSystem.DailyMissions.GetMissions | daily_mission_system.py:195-197 | the missions, whose progress never exceeds their target |
| DailyMissionSystem.DailyMissions.GetCompletedCount | daily_mission_system.py:199-201 | the number of completed missions, equal to the number of missions exactly when all are completed |
| DailyMissionSystem.DailyMissions.GetBonusReward | daily_mission_system.py:207-211 | 2000 exactly when every mission is completed, else 0 |
| LeaderboardSystem.NewEntry | leaderboard_system.py:15-22 | the entry keeps the given name, score, level, mode and kills, and its timestamp is the given one unless that is missing or empty, when it is the current time |
| LeaderboardSystem.ToDict | leaderboard_system.py:24-32 | the dictionary has exactly the six fields of an entry |
| LeaderboardSystem.FromDict | leaderboard_system.py:34-43 | reading succeeds exactly when the five required fields are present with values of the right kind; a missing timestamp means the current time |
| LeaderboardSystem.DictRoundTrip | leaderboard_system.py:15-43 | every entry the constructor builds survives `to_dict` followed by `from_dict` unchanged |
| LeaderboardSystem.DictRoundTripNeedsTimestamp | leaderboard_system.py:22 | the round trip gives the entry back exactly when its timestamp is not empty (or the new time is itself empty): an empty stored timestamp is stamped anew |
| LeaderboardSystem.InsertPos | leaderboard_system.py:92-93 | a stable descending sort places an entry appended to a sorted list after every entry scoring at least as much and before the first lower one |
| LeaderboardSystem.AddSortedAt | leaderboard_system.py:92-94 | after adding, the entries before the insertion point keep their places, the new entry takes it and the rest move one place down |
| LeaderboardSystem.AddSorted | leaderboard_system.py:92-94 | adding one entry leaves `min(len + 1, 100)` entries |
| LeaderboardSystem.AddSortedProperties | leaderboard_system.py:92-94 | adding keeps the list sorted, its length becomes `min(len + 1, 100)`, and the new entry is kept when fewer than 100 older entries score at least as much |
| LeaderboardSystem.AddSortedFrom | leaderboard_system.py:92-94 | every entry of the new list is an old entry or the new one, so entries are lost only by the cut to 100 |
| LeaderboardSystem.Prefix | leaderboard_system.py:107-109 | Python's `xs[:n]` is a prefix of `min(n, len)` entries for a non-negative `n` and drops `-n` entries from the end for a negative one |
| LeaderboardSystem.RankIn | leaderboard_system.py:116-124 | the rank is in [1, len + 1]: every entry before it scores more than the score, and the entry at it scores no more |
| LeaderboardSystem.RankCountsHigher | leaderboard_system.py:116-124 | on a sorted list the rank is one plus the number of entries with a higher score |
| LeaderboardSystem.MaxScore | leaderboard_system.py:158 | `max(scores)` is a score of the list that no entry exceeds |
| LeaderboardSystem.SumAtMostMax | leaderboard_system.py:159 | the sum of the scores is at most their count times the maximum |
| LeaderboardSystem.StatsOf | leaderboard_system.py:143-161 | the count of entries; all zeros for an empty list; otherwise the highest score, and an average that is the floor of the mean and never above the highest |
| LeaderboardSystem.AverageBelowMax | leaderboard_system.py:159 | the floored mean lies at most at the maximum and is the floor of sum over count |
| LeaderboardSystem.PutKeepsBoards | leaderboard_system.py:88-102 | replacing a board by a sorted list of at most 100 entries keeps the set of boards and every board sorted and bounded |
| LeaderboardSystem.AddedChanges | leaderboard_system.py:88-102 | adding keeps the set of boards; only the board of the lower-cased mode and the global board change; a mode without a board reaches only the global board, and the mode `global` is added to the global board twice |
| LeaderboardSystem.Leaderboards.constructor | leaderboard_system.py:48-58 | with no file to load, the five boards (four modes and global) are empty |
| LeaderboardSystem.Leaderboards.AddEntry | leaderboard_system.py:88-102 | the boards become `Added` of the entry, and stay sorted and bounded |
| LeaderboardSystem.Leaderboards.TopEntries | leaderboard_system.py:104-109 | the first `limit` entries of the mode's board, none for an unknown mode, never more than a non-negative limit |
| LeaderboardSystem.Leaderboards.PlayerRank | leaderboard_system.py:111-124 | -1 for an unknown mode, else the rank `RankIn` describes |
| LeaderboardSystem.Leaderboards.IsHighScore | leaderboard_system.py:126-136 | true for an unknown mode or a board of fewer than ten entries, else exactly when the score beats the tenth entry |
| LeaderboardSystem.Leaderboards.GetStats | leaderboard_system.py:138-161 | the statistics of the mode's board, and the empty answer exactly for an unknown mode |
| LeaderboardSystem.HighScoreReachesTopTen | leaderboard_system.py:126-136 | on a sorted board, a high score in the sense of `is_high_score` lands in the top ten |
| LeaderboardSystem.SpacedModesAreGlobalOnly | leaderboard_system.py:90-91 | the lower-cased mode names `boss rush` and `time attack` are not board keys, so such runs reach only the global board |
| LeaderboardSystem.SpaceIsNoKey | leaderboard_system.py:50-56 | no board key has a space as its fifth character |
| ScenarioSystem.ConfigOf | scenario_system.py:26-133 | every configuration is well formed (three tunnel colours among them), and an unknown type falls back to deep space |
| ScenarioSystem.TitleOf | scenario_system.py:26-133 | every scenario has a non-empty name, icon and description, and an unknown type shows deep space's |
| ScenarioSystem.LevelIndex | scenario_system.py:150 | `min((level - 1) // 5, 7)` is at most the last index; from level 1 each index below the last covers levels `5i + 1` to `5i + 5`; from level 36 it is the last |
| ScenarioSystem.ScenarioForLevel | scenario_system.py:136-151 | from level 1 the scenario of the level's band: deep space for levels 1 to 5 and the void from 36; a negative index is counted from the end as Python does, and one below -8 is an error |
| ScenarioSystem.LevelZeroIsVoid | scenario_system.py:150-151 | level 0 gives index -1, which Python reads as the last scenario, the void |
| ScenarioSystem.ScenarioMonotone | scenario_system.py:136-151 | from level 1 on, a higher level never returns to an earlier scenario |
| ScenarioSystem.RandomScenario | scenario_system.py:154-156 | a random pick is always one of the eight scenario types |
| ScenarioSystem.Family | scenario_system.py:182-194 | the particle family is the first flag of the `elif` chain, and there is none exactly when the configuration has none of the five flags |
| ScenarioSystem.FamilySize | scenario_system.py:196-256 | every family creates a positive number of particles |
| ScenarioSystem.FamilyOfScenario | scenario_system.py:182-194 | only desert (sand), ocean (bubbles), ice (snow), forest (fireflies) and cyber (digital rain) get particles |
| ScenarioSystem.Create | scenario_system.py:196-256 | a created particle has the family's kind and the drawn position and speed |
| ScenarioSystem.CreatedInBand | scenario_system.py:196-256 | a particle created from draws in the source's ranges starts inside the band its update keeps |
| ScenarioSystem.StepAmbient | scenario_system.py:262-291 | one frame keeps a particle's kind, speed and size; a particle inside its band stays there (sand wraps to the left and top edges, bubbles rise and wrap to the bottom, snow and digital rain wrap to the top); a firefly's glow stays in [0, 1] |
| ScenarioSystem.TunnelColorOf | scenario_system.py:330-334 | `int(depth * n) % n` always picks a colour of the list, and a depth in [0, 1) picks the colour of its third of the tunnel |
| ScenarioSystem.ScenarioRenderer.constructor | scenario_system.py:161-172 | deep space, no particles and the animation clock at 0 |
| ScenarioSystem.ScenarioRenderer.SetScenario | scenario_system.py:174-180 | the new scenario and its configuration, the particles cleared and then the configuration's one family created, one particle per draw; the animation clock stays |
| ScenarioSystem.ScenarioRenderer.InitScenarioEffects | scenario_system.py:182-256 | no particles when the configuration has no family, otherwise one created particle of that family per draw |
| ScenarioSystem.ScenarioRenderer.Update | scenario_system.py:258-291 | the clock advances by `dt` and every particle, and no other, moves one frame as `StepAmbient` says |
| ScenarioSystem.ScenarioRenderer.TunnelColor | scenario_system.py:330-334 | a colour of the current tunnel, the one of the depth's third for depths in [0, 1) |
| ScenarioSystem.ScenarioRenderer.BackgroundColor | scenario_system.py:336-338 | the current configuration's background colour |
| Shop.UpgradeCost | shop.py:89-93 | `int(base_cost * 1.5 ** level)` is never below the base cost for a non-negative level |
| Shop.CostMonotone | shop.py:89-93 | the price of an upgrade never falls as its level rises |
| Shop.PurchaseParticles | shop.py:121-135 | thirty particles (one per random draw) start at the screen centre with 60 frames of life out of 60, the upgrade's colour, a speed between 2 and 8 and a size between 2 and 6 |
| Shop.StepParticle | shop.py:141-145 | one frame of a particle: it moves by its velocity, gravity adds 0.2 to its vertical speed and it loses one frame of life, keeping its colour |
| Shop.StepParticles | shop.py:137-149 | the particles after one frame are exactly the stepped particles that still have life: each survivor comes from an old particle and every old particle with more than one frame left survives |
| Shop.Shop.constructor | shop.py:10-82 | the shop opens on the first upgrade with no particles and no animation |
| Shop.Shop.Cost | shop.py:84-93 | the price at the upgrade's current level in the save data, never below the base cost |
| Shop.Shop.CanAfford | shop.py:95-100 | true exactly when the coins cover the price and the level is below the maximum |
| Shop.Shop.PurchaseUpgrade | shop.py:102-119 | an upgrade that cannot be afforded changes nothing and answers false; otherwise the price is taken from the coins, the level rises by one, thirty purchase particles are added and the answer is true; high scores, settings, statistics and unlocks are left alone |
| Shop.Shop.Update | shop.py:137-149 | the colour animation advances by 0.05 and the particle list becomes the stepped survivors |
| Shop.Shop.HandleInput | shop.py:151-169 | UP and DOWN move the selection cyclically and answer `navigate`; ENTER and SPACE try to buy the selected upgrade and answer `purchase` or `cannot_afford`; ESC answers `exit`; any other event changes nothing and answers nothing |
| Shop.DistinctIds | shop.py:22-82 | the upgrade ids are distinct, so raising one level leaves the others alone |
| Skins.OrderListsKeys | skin_system.py:10-61 | the six skins of the dictionary are listed once each in insertion order, and no skin has both a level and a prestige condition |
| Skins.Gain | skin_system.py:83-94 | a skin contributes to the newly-unlocked list exactly when it was locked and meets its level or prestige condition, and contributes nothing but its own id |
| Skins.NewlyExact | skin_system.py:78-94 | an id is newly unlocked exactly when it was visited, was locked and meets one of its conditions |
| Skins.NewlyDistinct | skin_system.py:78-94 | the newly-unlocked list never names a skin twice, because no skin carries both conditions |
| Skins.CheckUnlocksIdempotent | skin_system.py:78-101 | a second check with the same levels unlocks nothing further |
| Skins.UnlocksMonotone | skin_system.py:85-93 | a higher player level and prestige never unlock fewer skins |
| Skins.UnlockedList | skin_system.py:98 | the saved list holds exactly the unlocked ids, in dictionary order |
| Skins.AsTextList | skin_system.py:99 | the list handed to the settings is a list value with one entry per unlocked id |
| Skins.Channel | skin_system.py:143 | `int(x * 255)` of a fraction in [0, 1] is a byte |
| Skins.HsvToRgb | skin_system.py:126-143 | the conversion always puts the full value v into at least one channel |
| Skins.Sector | skin_system.py:130-141 | each of the six hue sectors puts the value v into one channel |
| Skins.ScaledComplement | skin_system.py:129-133 | the intermediate values p, q and t stay within [0, 1] |
| Skins.HsvToRgbInRange | skin_system.py:126-143 | for a non-negative hue and saturation and value in [0, 1] every channel is in 0..255 |
| Skins.HsvGrey | skin_system.py:126-143 | zero saturation gives a grey whose three channels equal `int(v * 255)` |
| Skins.NextHue | skin_system.py:120 | the rainbow hue stays within 0..359 |
| Skins.HueAfterClosed | skin_system.py:119-121 | n colour requests on the rainbow skin advance the hue by 2n degrees modulo 360 |
| Skins.HueCycle | skin_system.py:119-121 | 180 requests bring the rainbow back to its starting hue |
| Skins.Fade | skin_system.py:158-160 | one update lowers an entry's alpha by 15 and its size by 1 and keeps its position |
| Skins.Faded | skin_system.py:145-160 | after a dragon update the trail holds at most 20 entries and ends with the new position at alpha 240 and size 19 |
| Skins.FadedStaysAged | skin_system.py:145-160 | every entry's alpha and size are determined by its age, and each update keeps that pattern |
| Skins.VisibleEntries | skin_system.py:158-160 | an entry still has positive alpha and size exactly while it is one of the 16 newest |
| Skins.FadeAll | skin_system.py:158-160 | the fading loop fades each entry and keeps the trail's length |
| Skins.Count | skin_system.py:190-192 | the unlocked count never exceeds the number of skins |
| Skins.SkinSystem.UnlockedCount | skin_system.py:190-192 | the unlocked count never exceeds the six skins |
| Skins.CountFindsMember | skin_system.py:190-192 | an unlocked skin makes the count at least one |
| Skins.VisitSkin | skin_system.py:83-94 | one round of the loop appends the skin's gain and unlocks exactly those ids |
| Skins.PassStep | skin_system.py:82-94 | a skin's locked state when the loop reaches it is the state the check started from, since ids are distinct |
| Skins.UnlockPass | skin_system.py:82-94 | the loop returns exactly the specified newly-unlocked list and unlocks exactly those skins |
| Skins.StoreUnlocked | skin_system.py:97-99 | writing `unlocked_skins` leaves the save data unchanged, because the settings hold no such key |
| Skins.SkinSystem.constructor | skin_system.py:6-76 | a new skin system starts on the classic skin with only the classic skin unlocked, hue 0 and an empty trail |
| Skins.SkinSystem.CheckUnlocks | skin_system.py:78-101 | unlocks exactly the specified new skins, returns them, and touches neither the selection, hue, trail nor save data |
| Skins.SkinSystem.SelectSkin | skin_system.py:103-109 | selection succeeds exactly for a known unlocked skin; otherwise nothing changes |
| Skins.SkinSystem.GetSkinColor | skin_system.py:115-124 | the rainbow skin advances the hue by 2 degrees and returns its colour; any other skin returns its fixed colour |
| Skins.SkinSystem.UpdateTrail | skin_system.py:145-161 | only the dragon skin changes the trail, by the faded step; other skins leave it alone |
| Skins.SkinSystem.TotalCount | skin_system.py:194-196 | the total is the number of skins in the dictionary |
| Skins.SkinSystem.CountsBounded | skin_system.py:190-196 | between one and all of the skins are unlocked |
| Tutorials.Counted | tutorial.py:143 | one counted event raises the progress by one but never past the step's target |
| Tutorials.CountedReachesTarget | tutorial.py:141-157 | from a fresh step, n counted events up to the target leave exactly n of progress |
| Tutorials.CompletedAt | tutorial.py:174-187 | completing step i marks that step completed, starts the next step fresh and leaves every other step alone |
| Tutorials.Tutorial.constructor | tutorial.py:9-91 | a new tutorial is inactive at step 0 with every step fresh, no remembered position and no distance |
| Tutorials.Tutorial.AlwaysStartable | tutorial.py:96 | the completion flag can never be found among the settings, so the refusal branch of `start` is never taken |
| Tutorials.Tutorial.Start | tutorial.py:93-102 | starts exactly when the settings do not hold a true completion flag; then the tutorial is active at a fresh first step, and otherwise nothing changes |
| Tutorials.Tutorial.ResetStep | tutorial.py:104-112 | the current step, if there is one, starts over with no progress, no completion, no position and no distance; past the last step nothing changes |
| Tutorials.Tutorial.CompleteStep | tutorial.py:174-180 | marks the current step completed and advances by exactly one step; the completed flag stays set only after the last step |
| Tutorials.Tutorial.NextStep | tutorial.py:183-187 | advances the index by one and resets the new step when there is one |
| Tutorials.Tutorial.FinishTutorial | tutorial.py:189-199 | finishing or skipping deactivates the tutorial and leaves the save data unchanged, because the completion key is not among the settings |
| Tutorials.Tutorial.CountEvent | tutorial.py:141-157 | a shot, kill or collected power-up raises the current step's progress by one up to the target; reaching the target completes the step and starts the next one fresh |
| Tutorials.Tutorial.MarkEvent | tutorial.py:159-169 | pausing or opening the shop sets progress 1 and completes its step |
| Tutorials.Tutorial.MoveEvent | tutorial.py:128-139 | the first position only records itself; later ones add the Euclidean distance moved to the total, cap the progress at 100 and at 100 complete the step and start the next one fresh; the position is remembered in every case |
| Tutorials.Tutorial.Update | tutorial.py:114-172 | an inactive or finished tutorial ignores the frame; otherwise the animation advances by 0.05 and the current step acts on its own key: waiting for input or the last step complete or close the tutorial on any key, a shot, kill or power-up counts one up to the target, a pause or shop opening completes at once, a movement adds its length to the distance; completing a step also starts the next one fresh, and with no matching input nothing but the animation changes |
| Tutorials.Signal | tutorial.py:124-172 | a movement step never fires on a key; waiting for input and the last step fire exactly on any key; every other action fires on its own key |
| Tutorials.Tutorial.CheckAction | tutorial.py:124-172 | the dispatch on the current step's action, with the same per-action outcomes as `update` and nothing changed when the matching input is missing |
| Tutorials.Tutorial.CheckMove | tutorial.py:128-140 | without a position nothing changes; with one the movement outcome above holds |
| Tutorials.Tutorial.CheckKey | tutorial.py:124-172 | the keyed actions: any key completes or finishes, counted keys count one, pause and shop complete; without the key nothing changes |
| Tutorials.Tutorial.CurrentStep | tutorial.py:205-209 | returns the current step exactly while the index is within the steps |
| Tutorials.Tutorial.Progress | tutorial.py:211-215 | the share of steps passed lies in [0, 1] and is 1 exactly after the last step |
| SettingsMenus.KindOf | settings_menu.py:35-86 | the two volumes are the sliders, and every list option has at least one value |
| SettingsMenus.IdsAreKeys | settings_menu.py:35-86 | every option of the menu names a key of the saved settings |
| SettingsMenus.KeysAreIds | settings_menu.py:35-86 | every key of the saved settings is an option of the menu, so saving all options rewrites the whole settings map |
| SettingsMenus.DefaultsLoadable | settings_menu.py:91-117 | the default settings hold numbers for both volume sliders |
| SettingsMenus.Round2 | settings_menu.py:137 | rounding to two decimals moves a value by at most half a hundredth |
| SettingsMenus.Round2Unit | settings_menu.py:136-137 | a clamped volume stays in [0, 1] after rounding |
| SettingsMenus.IndexOf | settings_menu.py:146 | the position of the first occurrence of a listed value, or 0 for a value not in the list |
| SettingsMenus.Modified | settings_menu.py:128-148 | a slider step yields a number, a toggle a truth value, and a list step one of the list's values |
| SettingsMenus.Cycle | settings_menu.py:143-148 | the list step always lands on a value of the list |
| SettingsMenus.VolumeInRange | settings_menu.py:133-137 | a volume always ends in [0, 1], whatever it was before |
| SettingsMenus.VolumeMovesWithDirection | settings_menu.py:133-137 | Right never lowers a volume in [0, 1] and Left never raises it |
| SettingsMenus.ToggleTwice | settings_menu.py:139-141 | toggling twice gives back the original truth value |
| SettingsMenus.ChoiceRoundTrip | settings_menu.py:143-148 | in a list without repeats, Right then Left returns to the starting value |
| SettingsMenus.SettingsMenu.constructor | settings_menu.py:9-89 | a new menu selects the first option and holds the saved settings as its current values |
| SettingsMenus.SettingsMenu.LoadSettings | settings_menu.py:91-117 | every option's current value is the stored setting, or its default, and together they equal the saved settings |
| SettingsMenus.SettingsMenu.SaveSettings | settings_menu.py:119-122 | the saved settings become exactly the current values, and nothing else in the save changes |
| SettingsMenus.SettingsMenu.ModifyValue | settings_menu.py:128-162 | only the chosen option's value changes, by one step in the given direction, and the save then holds the current values |
| SettingsMenus.SettingsMenu.HandleInput | settings_menu.py:164-188 | Up and Down move the selection cyclically, Left and Right change the selected option, Escape and Enter ask to leave, and any other event changes nothing |
| SettingsMenus.NavigateRoundTrip | settings_menu.py:167-173 | Up then Down selects the option selected before |
| MenuSystems.StripPercent | menu_system.py:97 | `replace('%', '')` leaves no '%' and never lengthens the text |
| MenuSystems.StripPercentAppend | menu_system.py:97 | removing '%' works piece by piece over concatenated text |
| MenuSystems.StripPercentDigits | menu_system.py:97 | a string of digits is left as it is |
| MenuSystems.VolumeText | menu_system.py:99 | the formatted volume `f"{n}%"` ends in '%' after at least one digit |
| MenuSystems.VolumeTextRoundTrip | menu_system.py:97-106 | formatting a percentage and reading it back with `int(s.replace('%', ''))` gives the same number |
| MenuSystems.InitialVolumeReads | menu_system.py:22 | the starting volume text "70%" reads as 70 |
| MenuSystems.Percent | menu_system.py:97-106 | the configured volume never exceeds 100 percent |
| MenuSystems.WithPercent | menu_system.py:99-106 | writing a percentage changes only the volume text, which then reads back as that percentage |
| MenuSystems.MainMenuReaction | menu_system.py:68-86 | the main list never touches the settings values or the audio, and returns a command only for ENTER or SPACE |
| MenuSystems.SettingsReaction | menu_system.py:88-117 | the settings page never returns a command, never changes the resolution text, and applies the volume exactly on LEFT or RIGHT over the volume entry |
| MenuSystems.CreditsReaction | menu_system.py:119-126 | the credits page returns nothing and changes neither the values nor the audio |
| MenuSystems.React | menu_system.py:57-66 | only the main list returns commands and only the settings page changes the volume |
| MenuSystems.OtherEventsIgnored | menu_system.py:70 | anything but a key press changes nothing on any page |
| MenuSystems.MainUpDown | menu_system.py:71-74 | UP then DOWN, or DOWN then UP, on the four-entry main list leaves the menu as it was |
| MenuSystems.SettingsUpDown | menu_system.py:91-94 | UP then DOWN, or DOWN then UP, on the three-entry settings list leaves the menu as it was |
| MenuSystems.MainConfirm | menu_system.py:75-84 | ENTER starts the game exactly on the first entry and quits exactly on the last; the second opens settings at its first entry and the third opens the credits |
| MenuSystems.VolumeKeys | menu_system.py:95-108 | LEFT and RIGHT on the volume entry move it by ten within [0, 100] and rewrite it as "N%", leaving the resolution text alone |
| MenuSystems.VolumeStepsUndo | menu_system.py:95-108 | a step down then up restores the volume unless the first step was clipped at 0, and a step up then down unless it was clipped at 100 |
| MenuSystems.ReturnsToMain | menu_system.py:109-126 | ESC on settings, ENTER on its back entry, and ESC or ENTER on the credits return to the main list at its first entry |
| MenuSystems.MenuSystem.constructor | menu_system.py:7-55 | a new menu shows the main list at its first entry with "70%" and "800x600", and its audio plays music at a quarter volume |
| MenuSystems.MenuSystem.VolumeSetting | menu_system.py:339-341 | the configured percentage as a fraction in [0, 1] |
| MenuSystems.MenuSystem.ApplyVolumeSetting | menu_system.py:343-346 | the menu's audio plays at a quarter of the configured volume, so never above 0.25, and its music state is unchanged |
| MenuSystems.MenuSystem.HandleMainMenuEvent | menu_system.py:68-86 | the menu state and the command follow the main-list reaction |
| MenuSystems.MenuSystem.StepVolume | menu_system.py:96-108 | one volume press rewrites the volume text and sets the audio volume from it |
| MenuSystems.MenuSystem.HandleSettingsEvent | menu_system.py:88-117 | the menu state follows the settings reaction and the audio volume is reapplied exactly when that reaction asks for it |
| MenuSystems.MenuSystem.HandleCreditsEvent | menu_system.py:119-126 | the menu state follows the credits reaction and no command is returned |
| MenuSystems.MenuSystem.HandleEvent | menu_system.py:57-66 | dispatches on the page shown: the state and command follow the combined reaction and the music keeps running |
| GameOverScreens.RunTotals | game_over_screen.py:83-88 | the first statistics update of a reset carries four totals |
| GameOverScreens.HighestLevel | game_over_screen.py:90-91 | the corrected record (the evidently intended rule, not what the code does): the larger of the old record and the run's level |
| GameOverScreens.WrittenHighestLevel | game_over_screen.py:90-91 | the record update as written touches no other key of the statistics |
| GameOverScreens.WrittenHighestLevelOvershoots | game_over_screen.py:90-91 | as written, a new record is stored as the old record plus the level, which overshoots the level reached whenever the old record is positive |
| GameOverScreens.ResetStats | game_over_screen.py:82-91 | the statistics after a reset, as written, have the same keys as before |
| GameOverScreens.ResetStatsEffect | game_over_screen.py:82-91 | as written, a reset counts one more game, adds the run's kills, power-ups and seconds, and keeps every statistic an integer; a record the run beats becomes the old record plus the run's level (above the level reached whenever the old record was positive), and a record it does not beat stays |
| GameOverScreens.Typed | game_over_screen.py:111-112 | a key press either leaves the name alone or, with room and printable text, appends that text in upper case |
| GameOverScreens.RecordedName | game_over_screen.py:103 | the stored name is never empty: the typed name, or "PLAYER" when it was cleared |
| GameOverScreens.SelectedAction | game_over_screen.py:132-141 | the first entry retries, the third returns to the menu, and the second opens the high-score table |
| GameOverScreens.Step | game_over_screen.py:93-130 | name entry comes first, then the table, then the menu; an action is returned only by ENTER or SPACE on the menu, and the selection stays in range |
| GameOverScreens.NameStaysShort | game_over_screen.py:111 | name entry never makes the name longer than 12 characters when each key types at most one |
| GameOverScreens.BackspaceUndoesTyping | game_over_screen.py:107-112 | typing a printable character and then BACKSPACE leaves the name entry as it was |
| GameOverScreens.EntryEnds | game_over_screen.py:98-110 | ENTER and ESC both end name entry with the name kept; only ENTER opens the table |
| GameOverScreens.MenuUpDown | game_over_screen.py:123-126 | UP then DOWN, or DOWN then UP, on the menu returns to the same entry |
| GameOverScreens.TableCloses | game_over_screen.py:114-118 | while the table is shown, ESC, ENTER and SPACE close it, nothing else changes, and no action is returned |
| GameOverScreens.FadeStep | game_over_screen.py:146-147 | one frame raises the alpha towards 255 and never past it |
| GameOverScreens.FadeAfterValue | game_over_screen.py:146-147 | after n frames the alpha has risen by five per frame, capped at 255 |
| GameOverScreens.FadeCompletes | game_over_screen.py:143-147 | from transparent the screen is fully opaque after 51 frames and not before |
| GameOverScreens.RecordRun | game_over_screen.py:82-91 | the two statistics calls of a reset, as written, leave exactly the reset statistics (with the additive record) and change nothing else in the save |
| GameOverScreens.WriteRecord | game_over_screen.py:90-91 | the second statistics call as written: a record the run beats becomes the old record plus the level; the rest of the save is unchanged |
| GameOverScreens.RaiseRecord | game_over_screen.py:90-91 | the corrected second call (not used by `Reset`): when the run went further than the record, the record becomes the run's level; the rest of the save is unchanged |
| GameOverScreens.RecordScore | game_over_screen.py:100-104 | the score is added to the high-score table under the name, and the rank returned is the position the table reports for it |
| GameOverScreens.GameOverScreen.constructor | game_over_screen.py:6-43 | a new screen is transparent, on the first menu entry, with no name entry, no table, no high score and empty run statistics |
| GameOverScreens.GameOverScreen.Reset | game_over_screen.py:57-91 | the screen starts over with the run's statistics; name entry opens with "PLAYER" exactly when the score would enter the table; the save holds the reset statistics as written, with the additive record, and nothing else changes |
| GameOverScreens.GameOverScreen.ClearView | game_over_screen.py:59-80 | the view is cleared, the run's statistics are kept, and name entry follows the high-score answer |
| GameOverScreens.GameOverScreen.GetSelectedAction | game_over_screen.py:132-141 | the view and action follow the selected-action reaction |
| GameOverScreens.GameOverScreen.HandleEvent | game_over_screen.py:93-130 | the view and action follow the step function; ENTER during name entry stores the score and remembers its rank, and otherwise the table is unchanged |
| GameOverScreens.GameOverScreen.HandleNameEntry | game_over_screen.py:95-112 | the name-entry branch follows the step function and stores the score only on ENTER |
| GameOverScreens.GameOverScreen.ConfirmName | game_over_screen.py:98-106 | ENTER stores the score under the typed or default name, ends name entry and shows the table |
| GameOverScreens.GameOverScreen.HandleMenu | game_over_screen.py:120-128 | the menu branch follows the step function |
| GameOverScreens.GameOverScreen.Update | game_over_screen.py:143-150 | one frame of fading in, and the pulse advances by three per second |
| Enemies.KindOf | enemy.py:43-196 | every name other than the twelve known kinds keeps its name as an unknown kind |
| Enemies.Setup | enemy.py:41-216 | every kind starts at full, positive health and is worth at least 100 points; a kind has a shooting delay exactly when it shoots, and only the splitter splits |
| Enemies.UnknownKindStats | enemy.py:196-216 | an unrecognised name takes the second group of assignments of the `else` branch: a shooting 3-health enemy with a 5-point shield |
| Enemies.ShooterDelayDiscarded | enemy.py:20-30 | as written, the random delay drawn after the setup replaces the kind's own delay, so a shooter set up to fire every 40 frames never waits less than 60 |
| Enemies.InitialDelay | enemy.py:20-30 | the corrected delay: the kind's own delay when its setup gives one, and the random pick otherwise |
| Enemies.InitialDelayPositive | enemy.py:20-30 | with the corrected delay each shooting kind fires at its own pace (a shooter every 40 frames) and every delay lies in 25..120 |
| Enemies.ShieldHit | enemy.py:321-328 | a hit on a raised shield is taken by the shield first, the overflow goes to health, and the shield stops at 0 |
| Enemies.ShieldAbsorbsFirst | enemy.py:321-328 | while the shield holds health is untouched; when it breaks health loses exactly the part of the hit the shield did not absorb |
| Enemies.Steer | enemy.py:218-285 | each frame advances the movement timer; a locked sniper holds its height; a kamikaze in pursuit keeps flying towards its target; any other enemy on a straight pattern falls by its speed plus the game speed |
| Enemies.SniperStaysLocked | enemy.py:241-250 | a locked sniper keeps its height frame after frame |
| Enemies.Frames | enemy.py:221 | n frames advance the movement timer by n |
| Enemies.VolleySize | enemy.py:346-397 | a shooter fires two shots, a tank three, a sniper that knows where the player is one exactly when the player is at a positive distance, and any other shooting kind one |
| Enemies.FireAll | enemy.py:347-397 | one new bullet is made for each shot of the volley, in order |
| Enemies.Healed | enemy.py:309-316 | a neighbour closer than 100 and below its maximum gains one health point, never past its maximum |
| Enemies.Enemy.constructor | enemy.py:8-39 | a new enemy takes its kind's attributes, an empty trail, a zero cooldown and, as written, the 60..120 draw as its shooting delay, whatever the kind's setup gave |
| Enemies.Enemy.CanSplit | enemy.py:334-336 | only a splitter can split |
| Enemies.WrittenInitialDelay | enemy.py:30 | as written, the delay is the draw itself, so it lies in 60..120 whatever the kind |
| Enemies.Enemy.TakeDamage | enemy.py:319-332 | a shield enemy with its shield up takes the hit on the shield first; every other enemy loses the amount from health; the answer is whether the enemy lives |
| Enemies.Enemy.Shoot | enemy.py:338-397 | nothing is fired while the cooldown runs or for a kind that does not shoot; otherwise the kind's volley is added to the group and the cooldown restarts |
| Enemies.Enemy.HealNearby | enemy.py:304-317 | every other enemy of the group is healed according to its distance, and the healer itself is not |
| Enemies.Enemy.HealOne | enemy.py:310-316 | one neighbour's health after the heal at the given distance |
| Enemies.Enemy.Update | enemy.py:218-302 | the pose follows the movement step, the shot cooldown counts down to 0, the animation and energy field advance, the trail keeps the last eight positions; a healer with neighbours counts its heal cooldown down and, when it reaches 0, heals every neighbour as `heal_nearby_enemies` does and restarts the cooldown; only the enemy itself and its neighbours' health change |
| Enemies.Enemy.HealTick | enemy.py:254-259 | the heal cooldown drops by one and, on reaching 0, restarts at the heal delay while every neighbour is healed; otherwise no neighbour's health changes |
| Enemies.Enemy.Advance | enemy.py:218-302 | the pose follows the movement step, the shot cooldown counts down to 0, the animation and energy field advance and the trail keeps the last eight positions |
| Enemies.SplitChildrenDoNotSplit | game.py:724-737 | the basic or fast enemies a splitter splits into cannot split again, and no kind but the splitter ever splits |
| Players.NewThrust | player.py:101-110 | a new thrust particle appears up to 5 pixels either side of the ship and 20 to 30 pixels below its centre, with 15 to 25 frames of life out of 25 |
| Players.StepThrust | player.py:116-118 | one frame moves a particle by its velocity and takes one frame of life |
| Players.AgeThrust | player.py:113-121 | the particles kept after a frame are never more than before, and all still have life |
| Players.AgeThrustMembers | player.py:113-121 | the kept particles are exactly the stepped particles that still have life: each comes from the old list and none with life left is lost |
| Players.StepAll | player.py:115-121 | the loop over a copy of the list computes exactly the aged list |
| Players.Axis | player.py:60-69 | a coordinate moves back by the speed for the first direction and forward for the second, and stays put when both or neither are held |
| Players.AgeThrustKeepsLifeBound | player.py:107-121 | every particle lives at most 25 frames, and after a frame every kept one has between 1 and 24 left |
| Players.Hit | player.py:132-143 | a raised shield takes the hit first and passes any overflow on to health; health never drops below 0 |
| Players.HitLosesAtMostAmount | player.py:132-143 | damage is never amplified: shield and health together lose at most the amount, and neither rises |
| Players.Player.constructor | player.py:7-41 | a new ship has 100 health, no shield, speed 5, one damage per bullet and 15 frames between shots (also player_backup.py) |
| Players.Player.Shoot | player.py:123-130 | with the cooldown at 0 one bullet joins the group, the cooldown restarts and the answer is true; otherwise nothing changes and the answer is false |
| Players.Player.TakeDamage | player.py:132-143 | the new health and shield are those of a hit |
| Players.Player.Heal | player.py:145-147 | health rises by the amount but never above the maximum |
| Players.Player.Reset | player.py:149-157 | the ship is back at its start with full health, a full shield and a gun ready to fire |
| Players.Player.Thrusters | player.py:93-121 | two new particles are added behind the ship, then all are aged |
| Players.Player.Trigger | player.py:71-75 | the ship fires exactly when the fire control is held, a group is given and the gun is ready; a shot appends one new bullet as `shoot` builds it: yellow, at the ship's x and half a ship above it, moving up at speed 8 with the ship's bullet damage |
| Players.Player.Confine | player.py:77-79 | the ship's centre stays at least half the ship's size inside the screen |
| Players.Player.Update | player.py:48-94 | one frame moves and confines the ship, fires when asked and ready (the new bullet starts from the position after the keys moved the ship but before it is confined to the screen), counts the cooldown down, and ages the thrust; health, shield and weapon stay as they were (also player_backup.py) |
| Players.StaysOnScreen | player.py:77-79 | on a screen at least as large as the ship, the confined position always lies on the screen |
| Bosses.PartsFor | boss.py:56-77 | a 'standard' boss has two side cannons, a 'fortress' or 'serpent' boss four parts, a boss given a type object none, and every part starts active |
| Bosses.GameBossHasNoParts | game.py:426 | the boss the game spawns is given a type object, which equals none of the names, so it has no parts; nor does any other unknown name |
| Bosses.Steer | boss.py:111-137 | each frame advances the timer; an entering boss descends until y 150 and then turns circular; a stationary boss stays put |
| Bosses.Limit | boss.py:140-141 | `max(lo, min(hi, v))` never goes below the lower bound, stays within the bounds when they are ordered, and keeps a value already inside them |
| Bosses.Confine | boss.py:139-141 | after the clamp the boss is within half its size of the screen's side edges and no lower than a third of the screen, and nothing but its position changes |
| Bosses.ConfineIdempotent | boss.py:139-141 | clamping an already clamped position leaves it where it is |
| Bosses.NeverReenters | boss.py:115-121 | once the boss has entered it never goes back to entering, however many frames pass |
| Bosses.Moves | boss.py:113 | k frames advance the movement timer by k |
| Bosses.TargetPhase | boss.py:143-151 | phase 2 is called for exactly below 66% health and phase 3 exactly below 33% |
| Bosses.TargetPhaseMonotone | boss.py:143-151 | less health never calls for an earlier phase |
| Bosses.DelayFor | boss.py:166-171 | each phase's shooting delay lies between 15 and 30 frames |
| Bosses.Ring | boss.py:196-202 | the ring holds one shot per direction, in order |
| Bosses.PartShots | boss.py:205-212 | one cyan shot at speed 6 from each active part, so one per part when all are active |
| Bosses.VolleySize | boss.py:180-212 | pattern 0 fires one shot, pattern 1 three, pattern 2 eight and pattern 3 one per active part; the game's boss, which has no parts, fires nothing in pattern 3 |
| Bosses.FireRing | boss.py:196-202 | the loop makes eight new bullets, one per ring direction |
| Bosses.FireParts | boss.py:206-212 | the loop makes one new bullet per shot of the parts, in order |
| Bosses.Boss.constructor | boss.py:8-54 | a new boss has full health `1000 + 500 * level`, phase 1, is entering, is not invulnerable and has the parts of its type |
| Bosses.Boss.UpdateMovement | boss.py:111-141 | the new position is one step of the pattern followed by the clamp |
| Bosses.Boss.EnterNewPhase | boss.py:156-171 | a new phase brings 60 frames of invulnerability, and phase 2 zigzags at delay 20 while phase 3 stands still at delay 15 |
| Bosses.Boss.UpdatePhase | boss.py:143-154 | the phase becomes the later of the current one and the one the health calls for, so it never falls, and shields the boss when it rises |
| Bosses.Boss.CountDown | boss.py:91-109 | invulnerability runs out, the shooting cooldown counts down to 0, and the attack pattern cycles through four patterns every 180 frames |
| Bosses.Boss.Update | boss.py:79-109 | a frame leaves health alone, never lowers the phase, moves and clamps the boss, runs the countdowns and cycles the pattern |
| Bosses.Boss.Shoot | boss.py:173-219 | while cooling down nothing is fired; otherwise the pattern's volley is added to the group and the cooldown restarts at the phase's delay |
| Bosses.Boss.TakeDamage | boss.py:221-230 | an invulnerable boss ignores the hit; otherwise health falls by the amount but not below 0; health never rises |
| Bosses.Boss.HealthRatio | boss.py:236-238 | the ratio lies in [0, 1] while health is within its maximum, and is 0 exactly when the boss is dead |
| Bosses.Boss.IsDead | boss.py:232-234 | under the boss's invariant it is dead exactly when its health is 0 |
| Bosses.Boss.ScoreValue | boss.py:363-366 | a boss is worth 5000 per level per phase, between one and three times `5000 * level` |
| BossTypes.IndexOf | boss_types.py:11-21 | every kind has a position in `list(BossType)` |
| BossTypes.MaxHealth | boss_types.py:30-184 | at any level from 0 up every kind has at least 600 health |
| BossTypes.MaxHealthIncreasing | boss_types.py:30-184 | every kind's maximum health grows strictly with the level |
| BossTypes.ConfigOf | boss_types.py:27-187 | each configuration has the kind's health, three attack and two movement patterns, 2 to 4 phases, a shooting delay of at least 15 and a score of at least 5000; only the standard configuration lacks a special ability |
| BossTypes.AttackPatternsOf | boss_types.py:30-184 | every kind lists three attack patterns |
| BossTypes.MovementPatternsOf | boss_types.py:30-184 | every kind lists two movement patterns |
| BossTypes.UnknownIsStandard | boss_types.py:187 | a value that is not a boss type gets exactly the standard configuration |
| BossTypes.WithoutStandard | boss_types.py:199 | the comprehension keeps exactly the kinds other than STANDARD |
| BossTypes.Candidates | boss_types.py:195-199 | the random choice draws from all nine kinds, or from the eight other than STANDARD when it is excluded |
| BossTypes.WithoutStandardKeeps | boss_types.py:199 | a list without STANDARD passes the filter whole |
| BossTypes.CandidatesFilter | boss_types.py:197-199 | the excluding list is the comprehension over `list(BossType)` |
| BossTypes.RandomType | boss_types.py:195-200 | with STANDARD excluded, the random type is never STANDARD |
| BossTypes.LevelPool | boss_types.py:203-216 | every level offers at least two kinds to choose from |
| BossTypes.TypeForLevel | boss_types.py:203-216 | levels up to 5 give STANDARD or SWARM_QUEEN, up to 10 STANDARD, KRAKEN or CRYSTAL_BEAST, up to 15 KRAKEN, MECHA or VOID_LORD, and up to 20 PHOENIX, SPECTER or MECHA |
| BossTypes.LateLevelsReachEveryKind | boss_types.py:203-216 | TITAN can be drawn exactly past level 20, and there every kind can be drawn |
| BossTypes.Radial | boss_types.py:229-279 | one projectile per angle, in order |
| BossTypes.Aimed | boss_types.py:253-266 | an aimed pattern gives one projectile exactly when the player is at a positive distance, and none otherwise |
| BossTypes.AttackCounts | boss_types.py:229-325 | the spread gives five projectiles, the spiral eight, the tentacle sweep three and the laser one straight down; an unknown name gives none |
| BossTypes.AimedNeedsDistance | boss_types.py:253-323 | the aimed, fireball and void-orb patterns give one projectile exactly when the player is somewhere other than the boss |
| BossTypes.SquaresZero | boss_types.py:257 | a sum of two integer squares is zero exactly when both differences are |
| BossTypes.CreateAttack | boss_types.py:222-325 | the loops build exactly the pattern's projectile list |
| BossTypes.RadialLoop | boss_types.py:231-279 | the `for i in range(n)` loops build one projectile per angle, in order |
| LevelGen.Rows | level_generator.py:28 | `range(0, height + 200, 20)` yields rows exactly when `height + 200` is positive |
| LevelGen.RowsCount | level_generator.py:28 | the rows are exactly the multiples of 20 below `height + 200` |
| LevelGen.InitialWalls | level_generator.py:25-33 | one wall point per row on each side, at the row's height and `wall_width` from its edge give or take 20 |
| LevelGen.Shift | level_generator.py:51-57 | every wall point moves down by the speed and keeps its x |
| LevelGen.ShiftWall | level_generator.py:51-57 | the in-place wall loops compute exactly the shifted wall |
| LevelGen.MoveObstacles | level_generator.py:60-63 | the moved obstacles never outnumber the old ones, and none left is more than 50 below the screen |
| LevelGen.MoveObstaclesExact | level_generator.py:60-63 | an obstacle stays exactly when its moved position is still within the limit |
| LevelGen.MovePowerUps | level_generator.py:66-69 | the moved power-ups never outnumber the old ones, and none left is more than 50 below the screen |
| LevelGen.MoveObstacleList | level_generator.py:60-63 | the loop over a copy of the obstacle list computes exactly the moved obstacles |
| LevelGen.MovePowerUpList | level_generator.py:66-69 | the loop over a copy of the power-up list computes exactly the moved power-ups |
| LevelGen.Above | level_generator.py:153-154 | trimming never lengthens a wall |
| LevelGen.AboveExact | level_generator.py:153-154 | a point is kept exactly when it is a wall point above the limit |
| LevelGen.AboveConcat | level_generator.py:153-154 | trimming keeps the order of the wall |
| LevelGen.AboveIdempotent | level_generator.py:150-154 | trimming a second time removes nothing |
| LevelGen.Variation | level_generator.py:76-80 | the allowed step of a wall point is never negative, and at least 30 from the first level on |
| LevelGen.Grown | level_generator.py:73-89 | while the top of the left wall is lower than 100 above the screen, each wall gains exactly one new top point 20 above the screen and keeps its other points; otherwise neither changes |
| LevelGen.DrawFitsExists | level_generator.py:80-134 | for any walls and non-negative variation, some draw fits every range the generator draws from, so requiring a fitting draw excludes no state |
| LevelGen.NextLeft | level_generator.py:79-83 | the new left wall point stays in [50, width // 3] |
| LevelGen.NextRight | level_generator.py:86-89 | the new right wall point stays in [width * 2 // 3, width - 50] |
| LevelGen.NewObstacle | level_generator.py:99-124 | an obstacle appears exactly when both walls have points and the channel is wider than 100, 50 above the screen at the drawn offset from the left wall |
| LevelGen.NewPowerUp | level_generator.py:126-148 | a power-up appears exactly when the channel is wider than 80, uncollected and 30 above the screen |
| LevelGen.ObstacleInChannel | level_generator.py:107-109 | a new obstacle lies inside the channel, at least 20 from either wall |
| LevelGen.PowerUpInChannel | level_generator.py:132-134 | a new power-up lies inside the channel, at least 20 from either wall |
| LevelGen.LeftRects | level_generator.py:161-167 | one rectangle per pair of neighbouring left wall points |
| LevelGen.RightRects | level_generator.py:169-174 | one rectangle per pair of neighbouring right wall points |
| LevelGen.CollisionRects | level_generator.py:156-183 | with both walls present there is one rectangle per wall segment and one per obstacle |
| LevelGen.WallRectSpansGap | level_generator.py:161-167 | a wall rectangle reaches from the screen edge to the wall and spans the vertical gap between its two points plus 10 |
| LevelGen.LeftRectLoop | level_generator.py:161-167 | the left-wall loop builds exactly the left rectangles |
| LevelGen.RightRectLoop | level_generator.py:169-174 | the right-wall loop builds exactly the right rectangles |
| LevelGen.ObstacleRectLoop | level_generator.py:177-181 | the obstacle loop builds one square per obstacle, in order |
| LevelGen.LevelGenerator.constructor | level_generator.py:6-23 | a new generator is at level 1 with no obstacles or power-ups, walls 100 wide and one initial wall point per row on each side |
| LevelGen.LevelGenerator.MoveTerrain | level_generator.py:48-69 | walls, obstacles and power-ups move down by the speed, and obstacles and power-ups more than 50 below the screen are dropped |
| LevelGen.LevelGenerator.GenerateNewTerrain | level_generator.py:71-97 | the walls grow as `Grown` says; an obstacle is added on a roll of 3 or less and a power-up on a roll of 1, if the grown channel allows, and each one added lies at least 20 inside both grown walls |
| LevelGen.LevelGenerator.CleanupTerrain | level_generator.py:150-154 | wall points 100 or more below the screen are dropped, in order, and every point left is above that line |
| LevelGen.LevelGenerator.GetCollisionRects | level_generator.py:156-183 | the three loops build exactly the collision rectangles |
| LevelGen.LevelGenerator.IncreaseDifficulty | level_generator.py:185-189 | one level up, a terrain 0.3 more complex, and walls 5 narrower but never below 80 |
| LevelGen.LevelGenerator.Update | level_generator.py:35-46 | one frame scrolls both walls, grows them above the screen and drops points 100 or more below it; moves the obstacles and power-ups, dropping those past the bottom, and appends one new obstacle on a roll of at most 3 and one new power-up on a roll of at most 1 when the gap allows it |
| LevelGen.LevelGenerator.ScrollAndGrow | level_generator.py:39-43 | moving then growing gives the walls `Grown` of the shifted walls, the moved obstacles and power-ups plus the new entry the rolls allow, and keeps every obstacle at most 50 below the screen |
| LevelGen.WallWidthFloor | level_generator.py:189 | however often the difficulty rises, the walls never become narrower than 80 |
| LevelGen.NarrowedFromStart | level_generator.py:17-189 | from the starting 100, the walls narrow by 5 per rise down to 80 and stay there |
| ModeSelection.ModeSelectionMenu.constructor | mode_selection_menu.py:13-32 | the menu lists the four modes in their fixed order and selects the first one, arcade |
| ModeSelection.ModeSelectionMenu.HandleEvent | mode_selection_menu.py:34-48 | UP/W and DOWN/S move the selection one place back or forward round the list and answer nothing; ENTER/SPACE answer the selected mode; ESC answers `back`; any other event keeps the selection and answers nothing |
| ModeSelection.DownTimes | mode_selection_menu.py:40-42 | the selection after a number of DOWN presses is always a valid index |
| ModeSelection.DownTimesAdvance | mode_selection_menu.py:40-42 | `k` DOWN presses advance the selection by `k` places modulo four |
| ModeSelection.EveryModeReachable | mode_selection_menu.py:34-48 | four DOWN presses go all the way round, and from the first mode the `k`-th press selects the `k`-th mode, so every mode can be picked |
| NameInput.StripStart | name_input.py:57-58 | `lstrip()`: a suffix of the name whose first character is not whitespace, everything removed being whitespace |
| NameInput.StripEnd | name_input.py:57-58 | `rstrip()`: a prefix of the name whose last character is not whitespace, everything removed being whitespace |
| NameInput.StripEnds | name_input.py:57-58 | a stripped name that is not empty neither starts nor ends with whitespace |
| NameInput.StripSlice | name_input.py:57-58 | the stripped name is the contiguous piece of the name that starts where its leading whitespace ends |
| NameInput.StripEndKeepsFirst | name_input.py:57-58 | trailing whitespace cannot remove a first character that is not whitespace |
| NameInput.StripEmpty | name_input.py:57-58 | a name strips to nothing exactly when every character of it is whitespace |
| NameInput.StripIdempotent | name_input.py:57-58 | stripping twice is stripping once |
| NameInput.Respond | name_input.py:50-77 | a name is returned only by an open dialog, which then closes; a closed dialog never reopens |
| NameInput.InactiveIgnores | name_input.py:52-53 | a closed dialog ignores every event |
| NameInput.ConfirmReturnsStrippedName | name_input.py:56-60 | ENTER returns a name exactly when the typed name has a non-whitespace character; the name returned is the stripped name, not empty and without whitespace at either end, and the dialog closes; otherwise the dialog stays open and unchanged |
| NameInput.EscapeGivesFallback | name_input.py:62-65 | ESC closes the dialog and returns `Player`, whatever was typed |
| NameInput.NameStaysClean | name_input.py:50-77 | a name of letters, digits and spaces of at most twelve characters stays so after any event that types at most one character |
| NameInput.BackspaceUndoes | name_input.py:67-77 | typing an accepted character into a name shorter than twelve appends it, and BACKSPACE then gives back the name typed before |
| NameInput.FallbackIsClean | name_input.py:11-16 | the default name `Player` is made of accepted characters and fits the twelve-character limit |
| NameInput.NameInputDialog.constructor | name_input.py:11-37 | the dialog starts closed with the default name, a visible cursor and a zero timer, and its 500 by 300 box is centred with floor division |
| NameInput.NameInputDialog.Activate | name_input.py:39-44 | the dialog opens with the given name and a freshly shown cursor |
| NameInput.NameInputDialog.Deactivate | name_input.py:46-48 | the dialog is closed |
| NameInput.NameInputDialog.HandleEvent | name_input.py:50-77 | the dialog's fields and the returned name are exactly the reaction `Respond` describes |
| NameInput.NameInputDialog.Update | name_input.py:79-88 | a closed dialog keeps its cursor; an open one adds the step to the timer and, once it reaches half a second, blinks the cursor and restarts the timer; with non-negative steps the timer stays in [0, 0.5) |
| Games.ScoreGain | game.py:341-344 | `int(points * multiplier)` never falls below the points for a multiplier of at least 1, is exactly the points at 1, and is never negative |
| Games.LevelFor | game.py:319 | level k covers exactly the scores from `5000 * (k - 1)` up to just below `5000 * k`, and is at least 1 |
| Games.LevelForMonotone | game.py:319 | a higher score never gives a lower level |
| Games.SpeedFor | game.py:322 | the speed never exceeds 8, never falls below the starting 2 and is exactly 8 from level 20 on |
| Games.SpeedForMonotone | game.py:322 | the speed never falls as the level rises, and below level 20 each level adds exactly 0.3 |
| Games.Granted | game.py:330-331 | a level-up adds one bomb below the maximum of 2 and none at it |
| Games.Inventory | game.py:170-176 | a run of level-ups and B presses never leaves more bombs than the larger of the start and the maximum of 2 |
| Games.InventoryBounded | game.py:170-176 | over any sequence of level-ups and B presses the bomb inventory stays between 0 and 2 |
| Games.InventoryFills | game.py:330-331 | two level-ups fill an empty inventory, a third adds nothing, and B with no bombs fires nothing |
| Games.BombCoinsBounded | game.py:844-845 | with one draw of 5 to 15 coins per enemy, a bomb pays between 5 and 15 coins an enemy |
| Games.BombScoreAtLeastDouble | game.py:843 | with a multiplier of at least 1 a bomb awards at least twice the enemies' points |
| Games.BombScoreArcade | game.py:843 | at multiplier 1 a bomb awards exactly twice the enemies' points |
| Games.PointsOf | game.py:843 | the list has one entry per enemy, holding that enemy's points |
| Games.SweepEnemies | game.py:839-851 | the loop over the enemies adds up exactly the bomb score and the coin total |
| Games.LoadoutFor | game.py:1291-1312 | the cooldown is never below 5, and is exactly 5 when the fire-rate upgrade is 5 or more |
| Games.NoUpgradesIsNewShip | game.py:1291-1312 | with no upgrades the ship keeps a new ship's 100 health, speed 5, cooldown 15, damage 1 and no shield |
| Games.LoadoutMonotone | game.py:1291-1312 | more upgrades never make the ship weaker: health, speed, damage and shield rise and the cooldown falls |
| Games.Boosted | game.py:596-634 | a power-up never changes the maximum health |
| Games.BoostedBounds | game.py:612-630 | a power-up changes at most the stat its type names, keeps health within the maximum and never lowers it, caps the speed at 8 and the cooldown at 5, and an unknown type changes nothing |
| Games.Power | game.py:519-524 | with upgrade levels that are not negative the ship's power is at least 1 |
| Games.SpawnInterval | game.py:526-531 | the interval is never below 15 frames and is either 15 or `120 - 3 * level - 20 * (power - 1)` |
| Games.SpawnIntervalMonotone | game.py:526-531 | a higher level or a stronger ship never slows spawning down, and from level 35 on spawning is at the fastest rate |
| Games.FirstIntervalAtLeastMinimum | game.py:126-130 | every mode's first spawn interval, `int(80 / rate)`, is at least 53 frames |
| Games.Without | game.py:771 | removing the rammed enemies keeps every enemy that was not hit, in order, and no enemy that was |
| Games.RamHits | game.py:773-782 | after both ram hits the health is not negative and no higher than before |
| Games.RamCostsDouble | game.py:771-787 | ramming costs health and shield together up to 60, not 30: with no shield and more than 60 health exactly 60 health, and with 60 shield or more exactly 60 shield |
| Games.GameOverCalls | game.py:771-787 | a ramming that keeps the ship (no hit ends the game, or the first game-over screen is left by "menu" or "quit") calls `game_over` at most twice |
| Games.FirstHitEndsTwice | game.py:771-787 | when the first ram hit empties the health and its game-over screen is left by "menu" or "quit", `game_over` is called twice |
| Games.AddKills | game.py:893-895 | one `add_kill` per destroyed enemy raises the combo by their number, keeps its record at least the combo and its multiplier on the ladder, sets the kill time when there was a kill, and shows no floating text |
| Games.ResetCombo | game.py:1258 | a reset combo has no count, no record and a multiplier of 1 |
| Games.Equip | game.py:1291-1312 | the ship's stats become exactly the loadout, with full health and a full shield |
| Games.Launch | game.py:1270-1273 | a new ship at the given position carries the loadout and full health |
| Games.GrantXp | game.py:601 | the experience, scaled by the multiplier and truncated, is banked; the save data is untouched |
| Games.Game.Upgrades | game.py:1291-1312 | the loadout the saved upgrades give has a cooldown of at least 5 |
| Games.Game.constructor | game.py:30-139 | a new game has score 0, level 1, speed 2, no enemies, bullets or bombs, no boss, the mode's multiplier and boss frequency, a ship with 100 health per starting life, and a first spawn interval of `int(80 / rate)` |
| Games.Game.AddScore | game.py:341-344 | the score grows by the points times the mode's multiplier, truncated |
| Games.Game.SurviveFrame | game.py:314-339 | surviving a frame always raises the score, and the level then follows the score without ever falling |
| Games.Game.LevelUp | game.py:317-339 | the level follows the score without falling; on a rise the speed, bombs, tunnel, spawn interval and health follow it and a boss is due on a boss level with none active; otherwise nothing changes |
| Games.Game.AdjustDifficultyByLevel | game.py:517-535 | the spawn interval follows level and upgrades, and the ship heals 50 without passing its maximum |
| Games.Game.FireAtomicBomb | game.py:170-176 | a bomb is fired exactly when one is held and none is climbing; it then leaves the inventory and climbs from the ship, and otherwise nothing changes |
| Games.Game.UpdateAtomicBomb | game.py:281-289 | a climbing bomb rises 1.5 pixels and explodes, stopping, once at height 30 or less; an explosion clears the enemies, pays their coins and adds one combo kill per enemy, and otherwise the enemies, score and combo stay |
| Games.Game.TriggerAtomicExplosion | game.py:789-895 | every enemy is destroyed, twice its points scored, its coins paid and counted as a kill in the session and in the combo (record and multiplier following), and an active boss that is not invulnerable takes 30 damage |
| Games.Game.SpawnTimerTick | game.py:251-265 | with no boss active the timer counts a frame; on reaching the interval `2 + level // 2` enemies are due, the timer restarts and the interval shrinks by 0.8 while above `max(10, 50 - 3 * level)`; the interval never rises and never falls below 9.2; with a boss active nothing changes |
| Games.Game.ApplyUpgradesToPlayer | game.py:1291-1312 | the ship's stats become the saved upgrades' loadout, with full health and shield |
| Games.Game.CollectPowerup | game.py:596-634 | the type's effect on the ship, 50 points, 50 experience times the multiplier, one power-up in the session but two in `powerups_collected` |
| Games.Game.Boost | game.py:610-630 | the ship changes exactly as the power-up's type says |
| Games.Game.RamEnemies | game.py:771-787 | without a restart: the rammed enemies leave the group, the same ship takes 30 damage twice, kills rise once by the number hit, `game_over` is called as often as the hits empty the health, and nothing else changes. When the first hit ends the game and the player retries: the run restarts, the second hit lands on the new ship, the new run's kills are the number hit, and `game_over` is called once more only if that hit empties the new ship (never, with upgrade levels that are not negative) |
| Games.Game.FirstRamHit | game.py:773-779 | the first block: the ship takes 30 damage, the game ends exactly when that empties the health, and the run restarts exactly when it ends and the player retries; otherwise the statistics, field and combo stay |
| Games.Game.SecondRamHit | game.py:780-787 | the second block: the current ship takes 30 damage, the kills rise by the number hit, and the game ends again exactly when the health is gone |
| Games.Game.RestartGame | game.py:1243-1289 | a fresh run: statistics, combo and field reset, a new ship in the starting place with the upgrades applied and full health; the bombs carry over |
| Games.Game.ResetCounters | game.py:1246-1267 | the score, level, speed, kills, power-ups, coins and session counters return to their starting values |
| Games.Game.ClearField | game.py:1275-1286 | enemies, bullets and particles are cleared, the spawn timer is 0, the interval 120, and there is no boss and no game over |
| AudioEngine.Scale | audio_engine.py:493 | multiplying a buffer by a constant keeps its length |
| AudioEngine.Product | audio_engine.py:169 | the sample-by-sample product of two equally long buffers keeps their length |
| AudioEngine.MaxAbs | audio_engine.py:258 | `np.max(np.abs(w))` bounds every sample's magnitude and is reached by one of them |
| AudioEngine.Linspace | audio_engine.py:146-166 | `np.linspace(start, stop, n)` has n values, starting at start and ending at stop |
| AudioEngine.LinspaceBetween | audio_engine.py:146-166 | every value of a linspace lies between bounds that hold both end points |
| AudioEngine.UnknownWaveIsSilent | audio_engine.py:125-134 | a wave type none of the branches recognise contributes 0 to a sample |
| AudioEngine.UnknownWaveBufferIsSilent | audio_engine.py:117-136 | a buffer of an unrecognised wave type is all zeros |
| AudioEngine.GenerateWave | audio_engine.py:117-136 | the loop fills exactly `int(duration * sample_rate)` samples, sample i being the wave's value at time `i / sample_rate` |
| AudioEngine.TriangleLevel | audio_engine.py:583-587 | the triangle's raw level lies in [-1, 1] |
| AudioEngine.PulseWave | audio_engine.py:564-574 | a pulse buffer has `int(duration * sample_rate)` samples, each exactly +0.5 or -0.5 |
| AudioEngine.GeneratePulseWave | audio_engine.py:564-574 | the loop builds exactly the pulse buffer, so every sample is +0.5 or -0.5 |
| AudioEngine.TriangleWave | audio_engine.py:576-589 | a triangle buffer has `int(duration * sample_rate)` samples, each in [-0.7, 0.7] |
| AudioEngine.GenerateTriangleWave | audio_engine.py:576-589 | the loop builds exactly the triangle buffer, so every sample lies in [-0.7, 0.7] |
| AudioEngine.Bounds | audio_engine.py:144-165 | the attack ends within the buffer and the decay and release lengths are never negative |
| AudioEngine.PreReleaseGainUnit | audio_engine.py:141-160 | with sustain in [0, 1] the gain before the release lies in [0, 1] |
| AudioEngine.EnvelopeGainUnit | audio_engine.py:138-167 | with sustain in [0, 1] every envelope gain lies in [0, 1] |
| AudioEngine.BuildEnvelope | audio_engine.py:140-167 | the envelope array has one gain per sample, written as ones and then the attack, decay, sustain and release slices in that order |
| AudioEngine.WriteAttack | audio_engine.py:144-147 | the attack slice turns the ones into the attack gains |
| AudioEngine.WriteDecay | audio_engine.py:150-155 | the decay slice overwrites its samples with the decay curve |
| AudioEngine.WriteSustain | audio_engine.py:158-160 | the sustain slice sets its samples to the sustain level |
| AudioEngine.WriteRelease | audio_engine.py:163-167 | the release slice fades from the gain it starts at down to 0 |
| AudioEngine.Enveloped | audio_engine.py:138-169 | an enveloped buffer keeps its length |
| AudioEngine.ApplyEnvelope | audio_engine.py:138-169 | the wave is multiplied sample by sample by the envelope array |
| AudioEngine.GainShrinks | audio_engine.py:169 | a gain in [0, 1] never increases a sample's magnitude |
| AudioEngine.EnvelopeNeverAmplifies | audio_engine.py:138-169 | with sustain in [0, 1] the envelope never makes any sample louder |
| AudioEngine.Shift | audio_engine.py:175 | subtracting a constant keeps the length |
| AudioEngine.RemoveDcOffset | audio_engine.py:171-176 | an empty buffer is returned as it is; otherwise the result keeps the length and its samples sum to 0, so its mean is 0 |
| AudioEngine.NormalizeWave | audio_engine.py:256-261 | normalising keeps the length and leaves a silent buffer as it is |
| AudioEngine.NormalizeReachesTarget | audio_engine.py:256-261 | normalising a buffer that is not silent makes its peak magnitude exactly the target |
| AudioEngine.NormalizedBounded | audio_engine.py:256-261 | after normalising no sample's magnitude exceeds the target |
| AudioEngine.NormalizedPeak | audio_engine.py:256-261 | after normalising the loudest sample has exactly the target magnitude |
| AudioEngine.SoftClip | audio_engine.py:201-207 | soft clipping keeps the length |
| AudioEngine.ClipSampleBound | audio_engine.py:204-206 | a sample within the threshold is untouched, and a clipped one ends strictly inside the threshold |
| AudioEngine.SoftClipNeverAmplifies | audio_engine.py:201-207 | soft clipping never makes a sample louder and leaves samples within the threshold alone |
| AudioEngine.ApplyDithering | audio_engine.py:209-214 | dithering keeps the length and moves each sample by at most the dither amount |
| AudioEngine.OnePole | audio_engine.py:247-252 | the filtered buffer keeps the input's length |
| AudioEngine.OnePoleRecurrence | audio_engine.py:249-252 | `y[0] = alpha * x[0]` and `y[i] = alpha * x[i] + (1 - alpha) * y[i - 1]` |
| AudioEngine.PoleStepIsLerp | audio_engine.py:252 | each filter step interpolates from the previous output towards the input |
| AudioEngine.OnePoleBounded | audio_engine.py:247-252 | for `0 < alpha <= 1` the output never leaves a bound every input sample keeps |
| AudioEngine.FilterAlphaRange | audio_engine.py:241-246 | a cutoff strictly between 0 and the Nyquist frequency gives a coefficient in (0, 1/2) |
| AudioEngine.ApplyLowPassFilter | audio_engine.py:239-254 | at or above the Nyquist frequency the buffer is returned unchanged; below it the result is the one-pole recurrence |
| AudioEngine.OnePoleFilter | audio_engine.py:247-252 | the loop computes exactly the one-pole recurrence |
| AudioEngine.LowPassBounded | audio_engine.py:239-254 | below the Nyquist frequency with a positive cutoff, the output is bounded by any bound of the input |
| AudioEngine.DelaySamples | audio_engine.py:265 | the delay in samples is at most `delay * sample_rate` |
| AudioEngine.AddReverb | audio_engine.py:263-279 | the output has the input's length; sample i is the input sample before the delay and adds `mix * feedback` times the sample d back from then on |
| AudioEngine.DelayLine | audio_engine.py:265-272 | the delay line is `len + d` long: the dry signal, then zeros, with each echo added d samples later |
| AudioEngine.MixDryWet | audio_engine.py:275-277 | each early sample is `wave * (1 - mix) + reverb * mix` |
| AudioEngine.Squares | audio_engine.py:189 | squaring a window keeps its length |
| AudioEngine.WindowStart | audio_engine.py:187 | every sample lies in the window that starts at the largest multiple of the window size not above it |
| AudioEngine.WindowStartOf | audio_engine.py:187 | every sample of the window starting at `q * w` has that start |
| AudioEngine.WindowStartAfter | audio_engine.py:187 | samples at or after `q * w` belong to that window or a later one |
| AudioEngine.NoiseGate | audio_engine.py:178-199 | the gated buffer keeps the input's length |
| AudioEngine.ApplyNoiseGate | audio_engine.py:178-199 | the window loop over a copy computes exactly the gated buffer |
| AudioEngine.GatedInWindow | audio_engine.py:187-197 | a sample of an examined window takes the value that window gives it |
| AudioEngine.GatedInTail | audio_engine.py:187 | past the last examined window every sample keeps its value |
| AudioEngine.GateOneWindow | audio_engine.py:188-197 | one iteration changes only its window, which is faded and silenced when its RMS is below the threshold |
| AudioEngine.WindowSampleQuiet | audio_engine.py:191-197 | in a quiet window of at least four samples the first quarter fades and the rest is silenced |
| AudioEngine.WindowSampleKept | audio_engine.py:191-194 | a loud window, or one too short to fade, keeps its samples |
| AudioEngine.FadeWindow | audio_engine.py:193-197 | fading and silencing change only the window |
| AudioEngine.FadeSlice | audio_engine.py:196 | the fade multiplies each sample of its slice by the matching fade factor and changes nothing else |
| AudioEngine.SilenceSlice | audio_engine.py:197 | the slice is set to 0 and nothing else changes |
| AudioEngine.NoiseGateNeverAmplifies | audio_engine.py:178-199 | the gate never makes a sample louder |
| AudioEngine.LoudWindowPasses | audio_engine.py:187-191 | a window whose RMS reaches the threshold passes the gate untouched |
| AudioEngine.LowPass | audio_engine.py:239-254 | the low-pass result keeps the length |
| AudioEngine.Processed | audio_engine.py:216-237 | the processing chain keeps the buffer's length |
| AudioEngine.ApplyProfessionalProcessing | audio_engine.py:216-237 | the six steps, in order, compute exactly the processed buffer |
| AudioEngine.ProcessedPeak | audio_engine.py:216-237 | a processed buffer either peaks at exactly 0.7 or is silent |
| AudioEngine.ProgressionsWellFormed | audio_engine.py:43-99 | every progression's chords name seven-note scales and its bass pattern stays below seven |
| AudioEngine.Vibrato | audio_engine.py:509-511 | the vibrato has one value per sample |
| AudioEngine.FrameCountNonNegative | audio_engine.py:566 | a non-negative duration gives a non-negative sample count |
| AudioEngine.MelodyNote | audio_engine.py:503-515 | one melody note has `int(note_duration * sample_rate)` samples |
| AudioEngine.CreateChiptuneMelody | audio_engine.py:497-519 | the loop concatenates exactly the notes of the pattern, each `duration / len(pattern)` long, looked up modulo the scale's length |
| AudioEngine.HarmonyNote | audio_engine.py:529-535 | one harmony note has `int(note_duration * sample_rate)` samples |
| AudioEngine.CreateChiptuneHarmony | audio_engine.py:521-539 | the loop concatenates the notes of the fixed pattern [2, 4, 1, 3] |
| AudioEngine.BassBeat | audio_engine.py:549-558 | one bass beat, sounded or silent, has `int(beat_duration * sample_rate)` samples |
| AudioEngine.CreateChiptuneBass | audio_engine.py:541-562 | the loop concatenates the eight beats of the rhythm [1, .5, 1, .5, 1, .5, 1, 1] |
| AudioEngine.MelodyLength | audio_engine.py:497-519 | a melody of n notes is n times one note's length |
| AudioEngine.HarmonyLength | audio_engine.py:521-539 | a harmony of n notes is n times one note's length |
| AudioEngine.BassLength | audio_engine.py:541-562 | a bass line of n beats is n times one beat's length |
| AudioEngine.MixChannels | audio_engine.py:475-486 | the three channels are cut to their common minimum length and mixed with volumes 0.4, 0.3 and 0.5 |
| AudioEngine.ChordDuration | audio_engine.py:451 | every chord lasts a positive time |
| AudioEngine.ChordScale | audio_engine.py:458 | every chord's scale has seven notes |
| AudioEngine.ComposeSegment | audio_engine.py:455-486 | one iteration of the loop produces exactly the mixed segment for its chord |
| AudioEngine.MixedChordOf | audio_engine.py:457-486 | a segment is the mix of the chord's melody, harmony and bass |
| AudioEngine.ProgressionIndex | audio_engine.py:442 | `track_number % len(progressions)` is a valid index for any track number |
| AudioEngine.ProgressionFor | audio_engine.py:442 | every track number selects a well-formed progression |
| AudioEngine.DitherSamples | audio_engine.py:212 | the first n dithering draws all lie within the dither amount |
| AudioEngine.CreateBackgroundMusic | audio_engine.py:440-493 | the loop and the processing compute exactly the track's buffer |
| AudioEngine.BackgroundMusicPeak | audio_engine.py:490-493 | the buffer handed to the conversion into a mixer sound either peaks at exactly `0.7 * 0.25` or is silent (the conversion then renormalises it, see BackgroundSoundPeak) |
| AudioEngine.ProcessedTrack | audio_engine.py:489-492 | the professionally processed track peaks at exactly 0.7 or is silent |
| AudioEngine.PeakScaled | audio_engine.py:594-595 | the normalisation keeps the length and leaves a silent buffer alone |
| AudioEngine.PeakScaledPeak | audio_engine.py:594-595 | a buffer that is not silent peaks at exactly 1 after normalisation |
| AudioEngine.QuarterUndone | audio_engine.py:594-595 | the normalisation undoes the background volume of 0.25: a scaled buffer normalises to the same samples as the unscaled one |
| AudioEngine.Int16Samples | audio_engine.py:597 | the conversion to 16-bit samples keeps the length and, for a buffer peaking at 1 or less, stays within ±32767 |
| AudioEngine.WaveToSound | audio_engine.py:591-597 | every sample of the converted sound lies within ±32767, whatever the input |
| AudioEngine.BackgroundSoundPeak | audio_engine.py:489-495 | the background music handed to the mixer peaks at exactly 1, or is silent; the 0.25 volume is cancelled |
| AudioEngine.BackgroundSound | audio_engine.py:440-495 | the method computes exactly the normalised background music |
| AudioEngine.MaxAbsQuarter | audio_engine.py:493 | scaling by 0.25 scales the peak by 0.25 |
| AudioEngine.Cached | audio_engine.py:608-620 | after a request a known name is cached; a name already cached, or unknown, leaves the cache as it was |
| AudioEngine.CachedAtMostOnce | audio_engine.py:610-620 | a cached sound is never synthesised again: a second request keeps the first buffer |
| AudioEngine.CachedKeysKnown | audio_engine.py:610-620 | only the five known names ever enter the cache |
| AudioEngine.NextTrack | audio_engine.py:655 | the next track is a valid progression index |
| AudioEngine.TrackRotation | audio_engine.py:641-655 | after n iterations of the music loop from track t the track is `(t + n) % 5`, so five iterations come back to t |
| AudioEngine.AudioEngine.constructor | audio_engine.py:9-40 | a new engine has volume 0.25, track 0, an empty cache, no music running and idle channels |
| AudioEngine.AudioEngine.PlaySound | audio_engine.py:608-627 | the cache follows the caching rule; a cached 'engine' loops on the ambient channel, any other cached sound plays on the sfx channel, and an unknown name plays nothing |
| AudioEngine.AudioEngine.SetVolume | audio_engine.py:657-666 | the volume is clamped to [0, 1] and the music, sfx and ambient gains become 0.3, 0.7 and 0.2 of it |
| AudioEngine.AudioEngine.StartBackgroundMusic | audio_engine.py:629-634 | the music is marked running and nothing else changes |
| AudioEngine.AudioEngine.StopBackgroundMusic | audio_engine.py:636-639 | the music is marked stopped and the music channel stops playing |
| AudioEngine.AudioEngine.MusicLoopStep | audio_engine.py:641-655 | one iteration plays the current track's music, renormalised as the mixer conversion does, once on the music channel at an unchanged volume, and advances the track modulo 5 |

## Left out

- Drawing is not modelled. This covers every `draw*`/`render*` method, fonts, surfaces, colours
  computed only for drawing (`get_psychedelic_color`, `get_combo_color`, `get_pulse_color`,
  `render_effects`), and the screen shake a combo returns.
- Devices and the operating system are not modelled. This covers the pygame mixer, `sndarray`,
  the gamepad and rumble, `pygame.time.delay` in the tutorial, the clock, threads and `sleep`.
  The music thread is reduced to `music_running` and `current_track`, and `MusicLoopStep` is
  one iteration of its loop.
- File I/O is not modelled: loading, saving, merging, exporting, importing and resetting the
  save file, and loading and saving the leaderboard file. The save data and the boards are
  in-memory values, and a constructor starts from the defaults as when no file exists.
- Random draws (`random.randint`, `random.choice`, `random.sample`, `random.uniform`,
  `np.random.uniform`) are parameters constrained to their ranges. The model proves a property
  for every draw, not for a distribution.
- Floating-point rounding is not modelled: floats are exact reals. Where Python rounds (`int()`,
  `round(x, 2)`), the rounding is written out on the exact value.
- `sin`, `cos`, `tanh` and `sqrt` are uninterpreted parameters with only the facts a property
  uses, so results that depend on their exact values are stated in terms of them.
- AudioEngine: `create_chord`, the sound synthesisers (`create_laser_sound` and its siblings)
  and `cleanup` are not modelled. `play_sound` takes the synthesiser as a parameter.
- AudioEngine: of `wave_to_pygame_sound`, the division by the peak and the 16-bit conversion
  are modelled (`PeakScaled`, `Int16Samples`, `WaveToSound`). The stereo copy and
  `pygame.sndarray.make_sound` are not. A mixer channel holds the sound's samples at full scale.
- AudioEngine: `add_reverb` has a second copy of its body after the first `return`. That copy
  can never run and is not modelled.
- Players: `apply_skin` only copies display colours and is not modelled.
- Bosses: the boss's movement is modelled through `update_movement`. The separate
  `BossMovementPattern.update_position` in boss_types.py is not part of this model.
- Collisions: the rectangle tests (`check_rect_collision`, `check_point_in_rect` and the
  collision checks built on pygame sprites) and `resolve_collision` are pygame geometry and are
  not modelled.
- ComboSystem: the plain getters (`get_combo`, `get_multiplier`, `get_max_combo`) and
  `get_screen_shake`, which draws random offsets, are not modelled.
- AchievementSystem: `get_all_achievements` and the display names and descriptions of the
  achievements are not modelled.
- SaveSystem: `get_upgrades` on a save without upgrades returns a copy of the defaults. Only
  the lookup of one level is modelled.
- MenuSystems: `update` (the title animation and its particles) and `cleanup` are not
  modelled. Nor is `SettingsMenus`' `update` or its particles.
- SettingsMenus: `load_settings` turns the stored resolution list into a tuple. The model
  uses one value for both, so that conversion is not modelled.
- SettingsMenus.Round2: rounds an exact half upwards. Python's `round` works on the binary float
  and sends ties to even. The model relies only on the result lying within 0.005 of its input.
- NameInput and GameOverScreens: `str.isalnum`, `str.isprintable` (`GameOverScreens.PrintableChar`) and
  `str.strip` are modelled for ASCII only.
- GameOverScreens: the background star particles are not modelled.
- Games: `game_over` itself (game.py:1128-1241) is not modelled as a call. This covers its
  name dialog, the leaderboard entry, the achievement and save updates, and its screen loop.
  `Games.Game.RamEnemies` returns how many times it is called. The answer of the first
  call's screen is a parameter: on "retry" the run restarts as `game_over` restarts it
  before returning, and on "menu" or "quit" the ship is kept. What the second call's screen
  does is left to the caller.
- Games: `spawn_enemy` (game.py:537-594) is not modelled. `Games.Game.SpawnTimerTick`
  returns how many enemies are due and leaves creating them to the caller.
- ProgressionSystem.XpForLevel: computes `int(100 * 1.15 ** (level - 1))` on exact reals.
  Where the float result falls just below an integer, the model is one higher: at level 2
  Python's float product 114.99999999999999 truncates to 114, and the model gives 115.
- ModeSelection: `update` only animates the menu and is not modelled.
- DailyMissionSystem: `check_mission_completion` calls `update_progress` seven times, in a
  fixed order. The model makes the same calls, in the same order, as a loop over a list of
  reports.
- Games: sounds, rumble, explosions and particles are not modelled. Neither is the change of
  scenario on a level-up.
- Games: `process_player_input` (game.py:346-414) is not modelled; the ship's own movement,
  clamping and shooting rules are modelled in `Players`.
- Games: `spawn_boss` is not modelled inside `LevelUp`. `LevelUp` returns `bossDue`, which is
  true exactly when the source calls it.
- Games: the enemies a ram or a bomb reaches are passed in, because they come from pygame's
  sprite collision.
- Games: the per-frame session updates (time, level, coins) and the mission check in `update`
  are not modelled.
- Games: the power-up group of the tunnel is not cleared on a restart, in the source as in the
  model; the model does not say more about it.

## Findings

| source | as written | input that shows it | evidently intended | confidence | as-written member | corrected member |
|---|---|---|---|---|---|---|
| enemy.py:30 | `shoot_delay = random.randint(60, 120)` runs after `setup_enemy_type`, so the delay each kind's setup sets is discarded | a `shooter`, whose setup sets a delay of 40 frames: its delay is a draw between 60 and 120 | each kind keeps the delay its setup gives; kinds without one use the random draw | not executed | Enemies.ShooterDelayDiscarded | Enemies.InitialDelayPositive |
| game_over_screen.py:90-91 | a new highest level is written with `update_stats`, which adds numbers to the stored value | a stored record of 3 and a run reaching level 5: the record becomes 8 | the record becomes the level reached, 5 | not executed | GameOverScreens.WrittenHighestLevelOvershoots | GameOverScreens.RaiseRecord |
