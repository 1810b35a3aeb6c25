/** Achievements (`achievement_system.py`): 21 named goals, each paying a coin reward once
    and queueing one notification when first unlocked. The unlocked set is written back
    under a key the save settings do not hold, so it is never stored and every new object
    starts with nothing unlocked. */
module AchievementSystem {
  import opened Common
  import SaveSystem

  /** The coin reward of every achievement, by id. */
  const Rewards: map<string, nat> := map[
    "first_death" := 100, "first_kill" := 50, "first_boss" := 500,
    "killer_100" := 500, "killer_500" := 1000, "killer_1000" := 2000,
    "rich_1000" := 200, "rich_10000" := 1000, "rich_50000" := 5000,
    "level_10" := 300, "level_20" := 1000, "level_30" := 3000,
    "boss_5" := 1000, "boss_10" := 2000,
    "full_upgrades" := 5000, "perfect_level" := 1000, "speed_run" := 1500,
    "sharpshooter" := 2000, "survivor" := 1000,
    "no_damage_boss" := 3000, "prestige_1" := 10000
  ]

  /** The two achievements hidden until unlocked. */
  const Hidden: set<string> := {"no_damage_boss", "prestige_1"}

  /** A pending notification: which achievement, its reward and when it was unlocked (the
      name and description shown are those of the achievement). */
  datatype Notification = Notification(id: string, reward: nat, time: real)

  /** The observable state: unlocked ids, the coin balance and the pending notifications. */
  datatype State = State(unlocked: set<string>, coins: int, pending: seq<Notification>)

  /** `check_achievement` on a state: a known, still-locked id is unlocked, pays its reward
      and queues one notification; anything else changes nothing. */
  function Check(s: State, id: string, now: real): (t: State)
    ensures t.unlocked == (if id in Rewards then s.unlocked + {id} else s.unlocked)
    ensures id in Rewards && id !in s.unlocked ==>
      t.coins == s.coins + Rewards[id] && t.pending == s.pending + [Notification(id, Rewards[id], now)]
    ensures !(id in Rewards && id !in s.unlocked) ==> t == s
  {
    if id in Rewards && id !in s.unlocked then
      State(s.unlocked + {id}, s.coins + Rewards[id], s.pending + [Notification(id, Rewards[id], now)])
    else s
  }

  /** Checking the same id twice is the same as checking it once. */
  lemma CheckIdempotent(s: State, id: string, now: real, later: real)
    ensures Check(Check(s, id, now), id, later) == Check(s, id, now)
  {
  }

  /** A sequence of checks, in order. */
  function CheckAll(s: State, ids: seq<string>, now: real): State
  {
    if ids == [] then s else Check(CheckAll(s, ids[..|ids| - 1], now), ids[|ids| - 1], now)
  }

  /** Checks only ever add unlocked ids and coins, and each fresh unlock queues exactly one
      notification: the notifications added are as many as the ids newly unlocked. */
  lemma {:induction false} CheckAllGrows(s: State, ids: seq<string>, now: real)
    requires s.unlocked <= Rewards.Keys
    ensures var t := CheckAll(s, ids, now);
      s.unlocked <= t.unlocked <= Rewards.Keys && t.coins >= s.coins
      && |t.pending| == |s.pending| + (|t.unlocked| - |s.unlocked|)
      && s.pending <= t.pending
  {
    if ids != [] {
      CheckAllGrows(s, ids[..|ids| - 1], now);
      var m := CheckAll(s, ids[..|ids| - 1], now);
      var id := ids[|ids| - 1];
      if id in Rewards && id !in m.unlocked {
        assert |m.unlocked + {id}| == |m.unlocked| + 1;
      }
    }
  }

  /** The ids `check_stats` checks, in its order: the first kill only at exactly one kill and
      the 100-kill goal only in its `elif`, likewise for bosses, all other thresholds
      independently. */
  function KillChecks(kills: int): (ids: seq<string>)
    ensures Known(ids)
  {
    (if kills == 1 then ["first_kill"] else if kills >= 100 then ["killer_100"] else [])
    + (if kills >= 500 then ["killer_500"] else [])
    + (if kills >= 1000 then ["killer_1000"] else [])
  }

  function CoinChecks(coins: int): (ids: seq<string>)
    ensures Known(ids)
  {
    (if coins >= 1000 then ["rich_1000"] else [])
    + (if coins >= 10000 then ["rich_10000"] else [])
    + (if coins >= 50000 then ["rich_50000"] else [])
  }

  function BossChecks(bosses: int): (ids: seq<string>)
    ensures Known(ids)
  {
    (if bosses == 1 then ["first_boss"] else if bosses >= 5 then ["boss_5"] else [])
    + (if bosses >= 10 then ["boss_10"] else [])
  }

  function LevelChecks(level: int): (ids: seq<string>)
    ensures Known(ids)
  {
    (if level >= 10 then ["level_10"] else [])
    + (if level >= 20 then ["level_20"] else [])
    + (if level >= 30 then ["level_30"] else [])
  }

  /** Every id checked names an achievement. */
  function StatChecks(stats: map<string, int>): (ids: seq<string>)
    ensures Known(ids)
  {
    var kills := KillChecks(GetOr(stats, "total_kills", 0));
    var coins := CoinChecks(GetOr(stats, "total_coins_earned", 0));
    var bosses := BossChecks(GetOr(stats, "total_bosses_defeated", 0));
    var levels := LevelChecks(GetOr(stats, "max_level_reached", 0));
    KnownConcat(kills, coins);
    KnownConcat(kills + coins, bosses);
    KnownConcat(kills + coins + bosses, levels);
    kills + coins + bosses + levels
  }

  ghost predicate Known(ids: seq<string>)
  {
    forall i :: 0 <= i < |ids| ==> ids[i] in Rewards
  }

  lemma KnownConcat(a: seq<string>, b: seq<string>)
    requires Known(a) && Known(b)
    ensures Known(a + b)
  {
    assert forall i :: |a| <= i < |a + b| ==> (a + b)[i] == b[i - |a|];
  }

  /** Which kill goals a kill count reaches in one call: the first-kill goal exactly at one
      kill, the 100-kill goal from 100 on, and the elif never checks both. */
  lemma KillChecksIff(kills: int)
    ensures "first_kill" in KillChecks(kills) <==> kills == 1
    ensures "killer_100" in KillChecks(kills) <==> kills >= 100
    ensures "killer_500" in KillChecks(kills) <==> kills >= 500
    ensures "killer_1000" in KillChecks(kills) <==> kills >= 1000
  {
  }

  lemma BossChecksIff(bosses: int)
    ensures "first_boss" in BossChecks(bosses) <==> bosses == 1
    ensures "boss_5" in BossChecks(bosses) <==> bosses >= 5
    ensures "boss_10" in BossChecks(bosses) <==> bosses >= 10
  {
  }

  datatype Progress = Progress(unlocked: nat, total: nat, percentage: real)

  class Achievements {
    const save: SaveSystem.SaveSystem
    var unlocked: set<string>
    var pending: seq<Notification>

    ghost predicate Valid()
      reads this, save
    {
      save.Valid() && unlocked <= Rewards.Keys
    }

    ghost function Snapshot(): State
      reads this, save
    {
      State(unlocked, save.coins, pending)
    }

    /** Loads the unlocked ids from the settings; the key is never present, so none are. */
    constructor (save: SaveSystem.SaveSystem)
      requires save.Valid()
      ensures Valid() && this.save == save
      ensures unlocked == {} && pending == []
    {
      this.save := save;
      UnlockedKeyIsNotASetting();
      var stored := save.GetSetting("unlocked_achievements", SaveSystem.List([]));
      assert stored == SaveSystem.List([]);
      unlocked := {};
      pending := [];
    }

    /** `check_achievement`: True exactly when the id is known and still locked, in which
        case it is unlocked. */
    method CheckAchievement(id: string, now: real) returns (isNew: bool)
      requires Valid()
      modifies this, save
      ensures Valid()
      ensures isNew <==> id in Rewards && id !in old(unlocked)
      ensures Snapshot() == Check(old(Snapshot()), id, now)
      ensures save.highScores == old(save.highScores) && save.settings == old(save.settings)
      ensures save.stats == old(save.stats) && save.unlocks == old(save.unlocks)
      ensures save.upgrades == old(save.upgrades)
    {
      if id in Rewards && id !in unlocked {
        Unlock(id, now);
        return true;
      }
      return false;
    }

    /** `unlock`: a fresh unlock pays the reward and queues one notification; a second unlock
        of the same id does nothing. The id must be known (otherwise Python raises). */
    method Unlock(id: string, now: real)
      requires Valid() && id in Rewards
      modifies this, save
      ensures Valid()
      ensures Snapshot() == Check(old(Snapshot()), id, now)
      ensures save.highScores == old(save.highScores) && save.settings == old(save.settings)
      ensures save.stats == old(save.stats) && save.unlocks == old(save.unlocks)
      ensures save.upgrades == old(save.upgrades)
    {
      if id !in unlocked {
        unlocked := unlocked + {id};
        var reward := Rewards[id];
        save.AddCoins(reward);
        pending := pending + [Notification(id, reward, now)];
        UnlockedKeyIsNotASetting();
        var listed := ListOf(unlocked);
        save.UpdateSetting("unlocked_achievements", listed);
      }
    }

    /** `list(self.unlocked)`: each unlocked id once, as text, in the set's iteration order,
        which the model leaves open. */
    static method ListOf(ids: set<string>) returns (v: SaveSystem.Value)
      ensures v.List? && |v.items| == |ids|
      ensures forall t :: SaveSystem.Text(t) in v.items <==> t in ids
    {
      var items: seq<SaveSystem.Value> := [];
      var rest := ids;
      while rest != {}
        invariant rest <= ids && |items| + |rest| == |ids|
        invariant forall t :: SaveSystem.Text(t) in items <==> t in ids - rest
        invariant forall x :: x in items ==> x.Text?
        decreases |rest|
      {
        var id :| id in rest;
        items := items + [SaveSystem.Text(id)];
        rest := rest - {id};
      }
      v := SaveSystem.List(items);
    }

    /** `check_stats`: the threshold checks on the end-of-game totals, in source order. */
    method CheckStats(stats: map<string, int>, now: real)
      requires Valid()
      modifies this, save
      ensures Valid()
      ensures Snapshot() == CheckAll(old(Snapshot()), StatChecks(stats), now)
    {
      ghost var s0 := Snapshot();
      var kills := GetOr(stats, "total_kills", 0);
      var coins := GetOr(stats, "total_coins_earned", 0);
      var bosses := GetOr(stats, "total_bosses_defeated", 0);
      var maxLevel := GetOr(stats, "max_level_reached", 0);
      CheckKills(kills, now);
      CheckCoins(coins, now);
      CheckAllAppend(s0, KillChecks(kills), CoinChecks(coins), now);
      CheckBosses(bosses, now);
      CheckAllAppend(s0, KillChecks(kills) + CoinChecks(coins), BossChecks(bosses), now);
      CheckLevels(maxLevel, now);
      CheckAllAppend(s0, KillChecks(kills) + CoinChecks(coins) + BossChecks(bosses), LevelChecks(maxLevel), now);
    }

    /** The kill-count block of `check_stats`. */
    method CheckKills(kills: int, now: real)
      requires Valid()
      modifies this, save
      ensures Valid()
      ensures Snapshot() == CheckAll(old(Snapshot()), KillChecks(kills), now)
    {
      ghost var done: seq<string> := [];
      var isNew: bool;
      if kills == 1 {
        isNew := CheckAchievement("first_kill", now); done := done + ["first_kill"];
      } else if kills >= 100 {
        isNew := CheckAchievement("killer_100", now); done := done + ["killer_100"];
      }
      assert Snapshot() == CheckAll(old(Snapshot()), done, now);
      if kills >= 500 {
        isNew := CheckAchievement("killer_500", now); done := done + ["killer_500"];
      }
      assert Snapshot() == CheckAll(old(Snapshot()), done, now);
      if kills >= 1000 {
        isNew := CheckAchievement("killer_1000", now); done := done + ["killer_1000"];
      }
      assert done == KillChecks(kills);
    }

    /** The coin block of `check_stats`. */
    method CheckCoins(coins: int, now: real)
      requires Valid()
      modifies this, save
      ensures Valid()
      ensures Snapshot() == CheckAll(old(Snapshot()), CoinChecks(coins), now)
    {
      ghost var done: seq<string> := [];
      var isNew: bool;
      if coins >= 1000 {
        isNew := CheckAchievement("rich_1000", now); done := done + ["rich_1000"];
      }
      assert Snapshot() == CheckAll(old(Snapshot()), done, now);
      if coins >= 10000 {
        isNew := CheckAchievement("rich_10000", now); done := done + ["rich_10000"];
      }
      assert Snapshot() == CheckAll(old(Snapshot()), done, now);
      if coins >= 50000 {
        isNew := CheckAchievement("rich_50000", now); done := done + ["rich_50000"];
      }
      assert done == CoinChecks(coins);
    }

    /** The boss block of `check_stats`. */
    method CheckBosses(bosses: int, now: real)
      requires Valid()
      modifies this, save
      ensures Valid()
      ensures Snapshot() == CheckAll(old(Snapshot()), BossChecks(bosses), now)
    {
      ghost var done: seq<string> := [];
      var isNew: bool;
      if bosses == 1 {
        isNew := CheckAchievement("first_boss", now); done := done + ["first_boss"];
      } else if bosses >= 5 {
        isNew := CheckAchievement("boss_5", now); done := done + ["boss_5"];
      }
      assert Snapshot() == CheckAll(old(Snapshot()), done, now);
      if bosses >= 10 {
        isNew := CheckAchievement("boss_10", now); done := done + ["boss_10"];
      }
      assert done == BossChecks(bosses);
    }

    /** The level block of `check_stats`. */
    method CheckLevels(maxLevel: int, now: real)
      requires Valid()
      modifies this, save
      ensures Valid()
      ensures Snapshot() == CheckAll(old(Snapshot()), LevelChecks(maxLevel), now)
    {
      ghost var done: seq<string> := [];
      var isNew: bool;
      if maxLevel >= 10 {
        isNew := CheckAchievement("level_10", now); done := done + ["level_10"];
      }
      assert Snapshot() == CheckAll(old(Snapshot()), done, now);
      if maxLevel >= 20 {
        isNew := CheckAchievement("level_20", now); done := done + ["level_20"];
      }
      assert Snapshot() == CheckAll(old(Snapshot()), done, now);
      if maxLevel >= 30 {
        isNew := CheckAchievement("level_30", now); done := done + ["level_30"];
      }
      assert done == LevelChecks(maxLevel);
    }

    /** `get_notifications`: hands over the pending list and leaves it empty. */
    method GetNotifications() returns (notes: seq<Notification>)
      modifies this
      ensures notes == old(pending) && pending == []
      ensures unlocked == old(unlocked)
    {
      notes := pending;
      pending := [];
    }

    /** `get_progress`: unlocked count, total and percentage. */
    function GetProgress(): (p: Progress)
      reads this, save
      requires Valid()
      ensures p.total == |Rewards| && p.unlocked == |unlocked| <= p.total
      ensures 0.0 <= p.percentage <= 100.0
      ensures p.percentage == 100.0 <==> unlocked == Rewards.Keys
    {
      SubsetCount(unlocked, Rewards.Keys);
      SubsetCount({"first_death"}, Rewards.Keys);
      var total := |Rewards|;
      Percentage(|unlocked|, total);
      Progress(|unlocked|, total, (|unlocked| as real / total as real) * 100.0)
    }
  }

  /** A count out of a positive total is a percentage in [0, 100], and 100 only for all. */
  lemma Percentage(count: nat, total: nat)
    requires 0 < total && count <= total
    ensures 0.0 <= (count as real / total as real) * 100.0 <= 100.0
    ensures (count as real / total as real) * 100.0 == 100.0 <==> count == total
  {
    var q := count as real / total as real;
    assert q * total as real == count as real;
    if q > 1.0 {
      MulLt(total as real, 1.0, q);
    }
    if q < 0.0 {
      MulLt(total as real, q, 0.0);
    }
    if count == total {
      assert q == 1.0;
    }
    if q * 100.0 == 100.0 {
      assert q == 1.0;
      assert count as real == total as real;
    }
  }

  /** A subset is no larger than the set, and as large only when it is the whole set. */
  lemma {:induction false} SubsetCount(a: set<string>, b: set<string>)
    requires a <= b
    ensures |a| <= |b| && (|a| == |b| <==> a == b)
    decreases b
  {
    if a != b {
      assert !(b <= a);
      var x :| x in b && x !in a;
      SubsetCount(a, b - {x});
      assert |b - {x}| == |b| - 1;
    }
  }

  /** Running two lists of checks one after the other is running their concatenation. */
  lemma {:induction false} CheckAllAppend(s: State, a: seq<string>, b: seq<string>, now: real)
    ensures CheckAll(s, a + b, now) == CheckAll(CheckAll(s, a, now), b, now)
    decreases |b|
  {
    if b != [] {
      assert (a + b)[..|a + b| - 1] == a + b[..|b| - 1];
      CheckAllAppend(s, a, b[..|b| - 1], now);
    } else {
      assert a + b == a;
    }
  }

  lemma UnlockedKeyIsNotASetting()
    ensures "unlocked_achievements" !in SaveSystem.SettingKeys
  {
    assert "unlocked_achievements"[0] == 'u';
  }
}
