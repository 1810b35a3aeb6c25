/** Player experience, levels and prestige (`progression_system.py`). The object reads its
    starting values from the save settings and writes them back after every change; since
    none of its four keys is a default settings key, the reads always return the defaults and
    the writes are dropped, so every session starts at level 1 without prestige. */
module ProgressionSystem {
  import opened Common
  import SaveSystem

  /** `get_xp_for_level`: `int(100 * 1.15 ** (level - 1))`. */
  function XpForLevel(level: int): (xp: int)
    ensures level >= 1 ==> xp >= 100
    ensures xp >= 0
  {
    Trunc(100.0 * PowInt(1.15, level - 1))
  }

  /** The requirement grows with the level. */
  lemma XpForLevelMonotone(a: int, b: int)
    requires 1 <= a <= b
    ensures XpForLevel(a) <= XpForLevel(b)
  {
    PowMonotone(1.15, a - 1, b - 1);
  }

  /** What the level-up loop settles on: starting at `level` with `xp` banked, keep paying the
      next level's requirement while it can be paid. */
  function Settle(level: int, xp: int): (r: (int, int))
    requires level >= 1
    ensures r.0 >= level && r.1 < XpForLevel(r.0 + 1)
    ensures xp >= 0 ==> r.1 >= 0
    ensures r.0 == level <==> xp < XpForLevel(level + 1)
    decreases if xp >= 0 then xp else 0
  {
    var need := XpForLevel(level + 1);
    if xp >= need then Settle(level + 1, xp - need) else (level, xp)
  }

  /** Experience paid for climbing from level `a` to level `b`. */
  function XpSpent(a: int, b: int): int
    requires a <= b
    decreases b - a
  {
    if a == b then 0 else XpSpent(a, b - 1) + XpForLevel(b)
  }

  /** The loop conserves experience: what it spent on levels plus what is left is what was
      banked. */
  lemma {:induction false} SettleConserves(level: int, xp: int)
    requires level >= 1
    ensures var r := Settle(level, xp); r.1 + XpSpent(level, r.0) == xp
    decreases if xp >= 0 then xp else 0
  {
    var need := XpForLevel(level + 1);
    if xp >= need {
      SettleConserves(level + 1, xp - need);
      XpSpentFront(level, Settle(level + 1, xp - need).0);
    }
  }

  lemma {:induction false} XpSpentFront(a: int, b: int)
    requires a < b
    ensures XpSpent(a, b) == XpForLevel(a + 1) + XpSpent(a + 1, b)
    decreases b - a
  {
    if b > a + 1 {
      XpSpentFront(a, b - 1);
    }
  }

  /** The multipliers a prestige level grants: +5 % coins and +10 % experience per level. */
  function CoinMultiplier(prestige: int): (m: real)
    ensures prestige >= 0 ==> m >= 1.0
    ensures prestige < 0 ==> m < 1.0
  {
    1.0 + prestige as real * 0.05
  }

  function XpMultiplier(prestige: int): (m: real)
    ensures prestige >= 0 ==> m >= 1.0
    ensures prestige < 0 ==> m < 1.0
  {
    1.0 + prestige as real * 0.1
  }

  const PrestigeLevelRequired: int := 50

  /** The six titles of `get_rank_name`, from the lowest level band up. */
  const Titles: seq<string> := [
    "\U{1F530} Iniciante",
    "\U{1F6E1}\U{FE0F} Guerreiro",
    "\U{1F3AF} Experiente",
    "\U{2694}\U{FE0F} Veterano",
    "\U{1F48E} Elite",
    "\U{1F451} Lenda"
  ]

  /** The level band: how many of the thresholds 10, 20, 30, 40 and 50 the level reaches. */
  function RankTier(level: int): (t: nat)
    ensures t < |Titles|
    ensures t == 0 <==> level < 10
    ensures t == 5 <==> level >= 50
    ensures 0 < t < 5 ==> t * 10 <= level < t * 10 + 10
  {
    if level >= 50 then 5
    else if level >= 40 then 4
    else if level >= 30 then 3
    else if level >= 20 then 2
    else if level >= 10 then 1
    else 0
  }

  /** A higher level never has a lower rank. */
  lemma RankTierMonotone(a: int, b: int)
    requires a <= b
    ensures RankTier(a) <= RankTier(b)
  {
  }

  function PrestigeLabel(prestige: int): string
  {
    "\U{2B50} Prestígio " + IntToString(prestige)
  }

  /** `get_level_rewards`: coins for every level, a box every fifth level and a skin or the
      prestige notice at the round levels 10 to 50. */
  function LevelRewards(level: int): (rewards: seq<string>)
    ensures |rewards| >= 1 && rewards[0] == "+" + IntToString(100 * level) + " moedas"
    ensures |rewards| == 1 + (if level % 5 == 0 then 1 else 0)
      + (if level in {10, 20, 30, 40, 50} then 1 else 0)
    ensures level % 5 == 0 ==> rewards[1] == "\U{1F381} Caixa de Recompensa"
  {
    var coins := ["+" + IntToString(100 * level) + " moedas"];
    var box := if level % 5 == 0 then ["\U{1F381} Caixa de Recompensa"] else [];
    var special :=
      if level == 10 then ["\U{1F680} Skin Dourada desbloqueada"]
      else if level == 20 then ["\U{1F308} Skin Rainbow desbloqueada"]
      else if level == 30 then ["\U{1F47B} Skin Fantasma desbloqueada"]
      else if level == 40 then ["\U{1F409} Skin Dragão desbloqueada"]
      else if level == 50 then ["\U{2B50} Prestígio disponível!"]
      else [];
    coins + box + special
  }

  class Progression {
    const save: SaveSystem.SaveSystem
    var playerLevel: int
    var currentXp: int
    var totalXp: int
    var prestigeLevel: int
    var coinMultiplier: real
    var xpMultiplier: real

    /** The level is at least 1, the banked experience is below the next requirement and the
        multipliers follow the prestige level. */
    ghost predicate Valid()
      reads this, save
    {
      save.Valid()
      && playerLevel >= 1 && prestigeLevel >= 0
      && currentXp < XpForLevel(playerLevel + 1)
      && coinMultiplier == CoinMultiplier(prestigeLevel) && xpMultiplier == XpMultiplier(prestigeLevel)
    }

    /** Loads the four values from the settings; the keys are never present, so the defaults
        apply. */
    constructor (save: SaveSystem.SaveSystem)
      requires save.Valid()
      ensures this.save == save && Valid()
      ensures playerLevel == 1 && currentXp == 0 && totalXp == 0 && prestigeLevel == 0
      ensures coinMultiplier == 1.0 && xpMultiplier == 1.0
    {
      this.save := save;
      var level := save.GetSetting("player_level", SaveSystem.Int(1));
      var xp := save.GetSetting("current_xp", SaveSystem.Int(0));
      var total := save.GetSetting("total_xp", SaveSystem.Int(0));
      var prestige := save.GetSetting("prestige_level", SaveSystem.Int(0));
      playerLevel := level.i;
      currentXp := xp.i;
      totalXp := total.i;
      prestigeLevel := prestige.i;
      coinMultiplier := CoinMultiplier(prestige.i);
      xpMultiplier := XpMultiplier(prestige.i);
    }

    /** `get_xp_to_next_level`. */
    function XpToNextLevel(): (xp: int)
      reads this
      requires playerLevel >= 1
      ensures xp >= 100
    {
      XpForLevel(playerLevel + 1)
    }

    /** `get_xp_progress`: the fraction of the next requirement already banked, capped at 1. */
    function XpProgress(): (p: real)
      reads this, save
      requires Valid()
      ensures p <= 1.0
      ensures currentXp >= 0 ==> 0.0 <= p < 1.0
    {
      var need := XpToNextLevel();
      FractionBelowOne(currentXp, need);
      MinR(1.0, currentXp as real / need as real)
    }

    /** `add_xp`: scale the amount by the experience multiplier, bank it, then level up while
        the next requirement is covered; the new state is saved (and dropped, see above). */
    method AddXp(amount: int) returns (leveledUp: bool, levelsGained: int)
      requires Valid()
      modifies this, save
      ensures Valid()
      ensures totalXp == old(totalXp) + Trunc(amount as real * old(xpMultiplier))
      ensures amount >= 0 ==> totalXp >= old(totalXp)
      ensures (playerLevel, currentXp) == Settle(old(playerLevel), old(currentXp) + Trunc(amount as real * old(xpMultiplier)))
      ensures levelsGained == playerLevel - old(playerLevel) && levelsGained >= 0
      ensures leveledUp <==> levelsGained > 0
      ensures prestigeLevel == old(prestigeLevel) && coinMultiplier == old(coinMultiplier)
      ensures xpMultiplier == old(xpMultiplier)
      ensures unchanged(save)
    {
      var gained := Trunc(amount as real * xpMultiplier);
      if amount >= 0 {
        MulLe(amount as real, 0.0, xpMultiplier);
      }
      currentXp := currentXp + gained;
      totalXp := totalXp + gained;
      leveledUp, levelsGained := LevelUp();
      SaveProgress();
    }

    /** The level-up loop of `add_xp`. */
    method LevelUp() returns (leveledUp: bool, levelsGained: int)
      requires playerLevel >= 1
      modifies this`playerLevel, this`currentXp
      ensures (playerLevel, currentXp) == Settle(old(playerLevel), old(currentXp))
      ensures levelsGained == playerLevel - old(playerLevel) && levelsGained >= 0
      ensures leveledUp <==> levelsGained > 0
    {
      leveledUp := false;
      levelsGained := 0;
      while currentXp >= XpForLevel(playerLevel + 1)
        invariant playerLevel >= old(playerLevel) && levelsGained == playerLevel - old(playerLevel)
        invariant leveledUp <==> levelsGained > 0
        invariant Settle(playerLevel, currentXp) == Settle(old(playerLevel), old(currentXp))
        decreases if currentXp >= 0 then currentXp else 0
      {
        var need := XpForLevel(playerLevel + 1);
        currentXp := currentXp - need;
        playerLevel := playerLevel + 1;
        levelsGained := levelsGained + 1;
        leveledUp := true;
      }
    }

    /** `prestige`: from level 50 on, trade the level for one more prestige level. */
    method Prestige() returns (ok: bool)
      requires Valid()
      modifies this, save
      ensures Valid() && unchanged(save)
      ensures ok <==> old(playerLevel) >= PrestigeLevelRequired
      ensures ok ==> (prestigeLevel == old(prestigeLevel) + 1 && playerLevel == 1 && currentXp == 0
        && coinMultiplier == CoinMultiplier(prestigeLevel) && xpMultiplier == XpMultiplier(prestigeLevel))
      ensures !ok ==> (prestigeLevel == old(prestigeLevel) && playerLevel == old(playerLevel)
        && currentXp == old(currentXp) && coinMultiplier == old(coinMultiplier)
        && xpMultiplier == old(xpMultiplier))
      ensures totalXp == old(totalXp)
    {
      if playerLevel >= PrestigeLevelRequired {
        prestigeLevel := prestigeLevel + 1;
        playerLevel := 1;
        currentXp := 0;
        coinMultiplier := CoinMultiplier(prestigeLevel);
        xpMultiplier := XpMultiplier(prestigeLevel);
        SaveProgress();
        ok := true;
      } else {
        ok := false;
      }
    }

    /** `get_rank_name`: the prestige label once any prestige was earned, else the title of
        the level band. */
    function RankName(): (name: string)
      reads this
      ensures prestigeLevel > 0 ==> name == PrestigeLabel(prestigeLevel)
      ensures prestigeLevel <= 0 ==> name == Titles[RankTier(playerLevel)]
    {
      if prestigeLevel > 0 then PrestigeLabel(prestigeLevel)
      else if playerLevel >= 50 then "\U{1F451} Lenda"
      else if playerLevel >= 40 then "\U{1F48E} Elite"
      else if playerLevel >= 30 then "\U{2694}\U{FE0F} Veterano"
      else if playerLevel >= 20 then "\U{1F3AF} Experiente"
      else if playerLevel >= 10 then "\U{1F6E1}\U{FE0F} Guerreiro"
      else "\U{1F530} Iniciante"
    }

    /** `save_progress`: four writes to keys the settings do not hold, so nothing is stored. */
    method SaveProgress()
      requires save.Valid()
      modifies save
      ensures save.Valid() && unchanged(save)
    {
      SaveSystem.ProgressKeysAreNotSettings();
      save.UpdateSetting("player_level", SaveSystem.Int(playerLevel));
      save.UpdateSetting("current_xp", SaveSystem.Int(currentXp));
      save.UpdateSetting("total_xp", SaveSystem.Int(totalXp));
      save.UpdateSetting("prestige_level", SaveSystem.Int(prestigeLevel));
    }
  }

  /** A non-negative amount below a positive requirement is a fraction below one. */
  lemma FractionBelowOne(xp: int, need: int)
    requires need > 0 && xp < need
    ensures xp >= 0 ==> 0.0 <= xp as real / need as real < 1.0
  {
    if xp >= 0 {
      var q := xp as real / need as real;
      assert q * need as real == xp as real;
      if q >= 1.0 {
        MulLe(need as real, 1.0, q);
      }
    }
  }
}
