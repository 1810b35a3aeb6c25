/** Daily missions (`daily_mission_system.py`): three missions drawn from a pool of nine,
    each with a kind, a target and a coin reward; progress reports of a kind raise the
    matching incomplete missions, and a mission that reaches its target completes once and
    pays once. The missions are written back under a key the save settings do not hold, so
    they are never stored. */
module DailyMissionSystem {
  import opened Common
  import SaveSystem

  /** A mission (its display name and description are left out). */
  datatype Mission = Mission(id: string, kind: string, target: nat, reward: nat, progress: int, completed: bool)

  /** The pool the daily missions are drawn from, in source order. */
  const Pool: seq<Mission> := [
    Mission("kill_50", "kills", 50, 500, 0, false),
    Mission("kill_100", "kills", 100, 1000, 0, false),
    Mission("reach_level_5", "level", 5, 300, 0, false),
    Mission("reach_level_10", "level", 10, 800, 0, false),
    Mission("collect_20_powerups", "powerups", 20, 400, 0, false),
    Mission("defeat_boss", "boss", 1, 1000, 0, false),
    Mission("earn_1000_coins", "coins", 1000, 500, 0, false),
    Mission("survive_5min", "time", 300, 600, 0, false),
    Mission("accuracy_80", "accuracy", 80, 800, 0, false)
  ]

  const DailyCount: nat := 3
  const AllCompletedBonus: nat := 2000

  /** Progress never passes the target, and a mission is completed exactly when its progress
      has reached the target. */
  ghost predicate WellFormed(m: Mission)
  {
    m.progress <= m.target && (m.completed <==> m.progress == m.target)
  }

  /** Every pool entry starts at zero progress, incomplete, with a positive target and reward. */
  lemma PoolWellFormed()
    ensures forall i :: 0 <= i < |Pool| ==>
      WellFormed(Pool[i]) && Pool[i].progress == 0 && !Pool[i].completed
      && Pool[i].target > 0 && Pool[i].reward > 0
    ensures forall i, j :: 0 <= i < j < |Pool| ==> Pool[i].id != Pool[j].id
  {
  }

  /** A choice of `random.sample(pool, 3)`: three distinct pool indices. */
  ghost predicate IsSample(picks: seq<nat>)
  {
    |picks| == DailyCount
    && (forall i :: 0 <= i < |picks| ==> picks[i] < |Pool|)
    && (forall i, j :: 0 <= i < j < |picks| ==> picks[i] != picks[j])
  }

  /** The missions a sample selects. */
  function Drawn(picks: seq<nat>): (ms: seq<Mission>)
    requires IsSample(picks)
    ensures |ms| == DailyCount
    ensures forall i :: 0 <= i < |ms| ==> ms[i] in Pool && WellFormed(ms[i]) && !ms[i].completed && ms[i].progress == 0
    ensures forall i, j :: 0 <= i < j < |ms| ==> ms[i].id != ms[j].id
  {
    PoolWellFormed();
    [Pool[picks[0]], Pool[picks[1]], Pool[picks[2]]]
  }

  /** Whether a progress report of `kind` with `value` completes `m`. */
  predicate Completes(m: Mission, kind: string, value: int)
  {
    m.kind == kind && !m.completed && value >= m.target
  }

  /** One mission after a progress report: an incomplete mission of the reported kind takes
      the value, capped at its target, and completes when the value reaches it. */
  function Advance(m: Mission, kind: string, value: int): (r: Mission)
    ensures r.id == m.id && r.kind == m.kind && r.target == m.target && r.reward == m.reward
    ensures r.completed <==> m.completed || Completes(m, kind, value)
    ensures WellFormed(m) ==> WellFormed(r)
    ensures m.completed || m.kind != kind ==> r == m
  {
    if m.kind == kind && !m.completed then
      var progress := MinI(m.target, value);
      m.(progress := progress, completed := progress >= m.target)
    else m
  }

  /** Every mission after a progress report. */
  function AdvanceAll(ms: seq<Mission>, kind: string, value: int): (rs: seq<Mission>)
    ensures |rs| == |ms|
    ensures forall i :: 0 <= i < |ms| ==> rs[i] == Advance(ms[i], kind, value)
  {
    seq(|ms|, i requires 0 <= i < |ms| => Advance(ms[i], kind, value))
  }

  /** The coins a progress report pays: the rewards of the missions it completes. */
  function Earned(ms: seq<Mission>, kind: string, value: int): nat
  {
    if ms == [] then 0
    else
      var last := if Completes(ms[|ms| - 1], kind, value) then ms[|ms| - 1].reward else 0;
      Earned(ms[..|ms| - 1], kind, value) + last
  }

  /** With positive rewards, a report pays something exactly when it completes a mission. */
  lemma {:induction false} EarnedPositive(ms: seq<Mission>, kind: string, value: int)
    requires forall i :: 0 <= i < |ms| ==> ms[i].reward > 0
    ensures Earned(ms, kind, value) > 0 <==> exists i :: 0 <= i < |ms| && Completes(ms[i], kind, value)
  {
    if ms != [] {
      var init := ms[..|ms| - 1];
      EarnedPositive(init, kind, value);
      if exists i :: 0 <= i < |init| && Completes(init[i], kind, value) {
        var i :| 0 <= i < |init| && Completes(init[i], kind, value);
        assert Completes(ms[i], kind, value);
      }
      if exists i :: 0 <= i < |ms| && Completes(ms[i], kind, value) {
        var i :| 0 <= i < |ms| && Completes(ms[i], kind, value);
        if i < |init| {
          assert Completes(init[i], kind, value);
        }
      }
    }
  }

  /** The reward sum over one more mission. */
  lemma EarnedSnoc(ms: seq<Mission>, i: nat, kind: string, value: int)
    requires i < |ms|
    ensures Earned(ms[..i + 1], kind, value)
      == Earned(ms[..i], kind, value) + (if Completes(ms[i], kind, value) then ms[i].reward else 0)
  {
    assert ms[..i + 1][..i] == ms[..i];
  }

  /** Whether some mission among the first `i + 1` completes. */
  lemma CompletesSnoc(ms: seq<Mission>, i: nat, kind: string, value: int)
    requires i < |ms|
    ensures (exists j :: 0 <= j < i + 1 && Completes(ms[j], kind, value))
      <==> (exists j :: 0 <= j < i && Completes(ms[j], kind, value)) || Completes(ms[i], kind, value)
  {
  }

  /** Reporting the same value twice is reporting it once: the second report changes no
      mission and, in particular, completes none, so no reward is paid twice. */
  lemma AdvanceAllIdempotent(ms: seq<Mission>, kind: string, value: int)
    requires forall i :: 0 <= i < |ms| ==> WellFormed(ms[i])
    ensures AdvanceAll(AdvanceAll(ms, kind, value), kind, value) == AdvanceAll(ms, kind, value)
    ensures forall i :: 0 <= i < |ms| ==> !Completes(AdvanceAll(ms, kind, value)[i], kind, value)
  {
  }

  /** A completed mission never completes again, whatever is reported later. */
  lemma CompletedOnce(m: Mission, kind: string, value: int)
    requires m.completed
    ensures !Completes(m, kind, value) && Advance(m, kind, value) == m
  {
  }

  /** `int(shots_hit / shots_fired * 100)`. */
  function Accuracy(hit: int, fired: int): (pct: int)
    requires fired > 0
    ensures 0 <= hit <= fired ==> 0 <= pct <= 100
  {
    var ratio := hit as real / fired as real;
    assert 0 <= hit <= fired ==> 0.0 <= ratio * 100.0 <= 100.0 by {
      if 0 <= hit <= fired {
        assert ratio * fired as real == hit as real;
        if ratio > 1.0 {
          MulLt(fired as real, 1.0, ratio);
        }
        if ratio < 0.0 {
          MulLt(fired as real, ratio, 0.0);
        }
      }
    }
    Trunc(ratio * 100.0)
  }

  /** The progress reports `check_mission_completion` makes, in its order; accuracy only
      when some shot was fired. */
  function Reports(stats: map<string, int>): (rs: seq<(string, int)>)
    ensures |rs| == (if GetOr(stats, "shots_fired", 0) > 0 then 7 else 6)
    ensures GetOr(stats, "shots_fired", 0) > 0 ==>
      rs[6] == ("accuracy", Accuracy(GetOr(stats, "shots_hit", 0), GetOr(stats, "shots_fired", 0)))
  {
    [("kills", GetOr(stats, "kills", 0)), ("level", GetOr(stats, "level", 0)),
     ("powerups", GetOr(stats, "powerups", 0)), ("boss", GetOr(stats, "bosses", 0)),
     ("coins", GetOr(stats, "coins", 0)), ("time", GetOr(stats, "time", 0))]
    + (if GetOr(stats, "shots_fired", 0) > 0
       then [("accuracy", Accuracy(GetOr(stats, "shots_hit", 0), GetOr(stats, "shots_fired", 0)))]
       else [])
  }

  /** The missions and the coins paid after a list of reports, one after the other. */
  function AfterReports(ms: seq<Mission>, reports: seq<(string, int)>): (r: (seq<Mission>, nat))
    ensures |r.0| == |ms|
  {
    if reports == [] then (ms, 0)
    else
      var prior := AfterReports(ms, reports[..|reports| - 1]);
      var (kind, value) := reports[|reports| - 1];
      (AdvanceAll(prior.0, kind, value), prior.1 + Earned(prior.0, kind, value))
  }

  /** Applying report `k` to the state after the first `k` reports gives the state after
      `k + 1`: `ms` and `coins` are that state, as the caller knows it. */
  lemma ReportStep(m0: seq<Mission>, reports: seq<(string, int)>, k: nat, c0: int, ms: seq<Mission>, coins: int)
    requires k < |reports|
    requires var prior := AfterReports(m0, reports[..k]);
      ms == AdvanceAll(prior.0, reports[k].0, reports[k].1)
      && coins == c0 + prior.1 + Earned(prior.0, reports[k].0, reports[k].1)
    ensures var r := AfterReports(m0, reports[..k + 1]); ms == r.0 && coins == c0 + r.1
  {
    assert reports[..k + 1][..k] == reports[..k];
  }

  /** Reports keep every mission well formed and never reopen a completed one. */
  lemma {:induction false} AfterReportsKeeps(ms: seq<Mission>, reports: seq<(string, int)>)
    requires forall i :: 0 <= i < |ms| ==> WellFormed(ms[i])
    ensures var rs := AfterReports(ms, reports).0;
      forall i :: 0 <= i < |ms| ==> WellFormed(rs[i]) && rs[i].id == ms[i].id && (ms[i].completed ==> rs[i] == ms[i])
    decreases |reports|
  {
    if reports != [] {
      AfterReportsKeeps(ms, reports[..|reports| - 1]);
    }
  }

  function CompletedCount(ms: seq<Mission>): (n: nat)
    ensures n <= |ms|
  {
    if ms == [] then 0 else CompletedCount(ms[..|ms| - 1]) + (if ms[|ms| - 1].completed then 1 else 0)
  }

  predicate AllCompleted(ms: seq<Mission>)
  {
    forall i :: 0 <= i < |ms| ==> ms[i].completed
  }

  /** The completed count reaches the number of missions exactly when all are completed. */
  lemma {:induction false} CompletedCountFull(ms: seq<Mission>)
    ensures CompletedCount(ms) == |ms| <==> AllCompleted(ms)
  {
    if ms != [] {
      var init := ms[..|ms| - 1];
      CompletedCountFull(init);
      if AllCompleted(ms) {
        assert AllCompleted(init) by {
          forall i | 0 <= i < |init| ensures init[i].completed {
            assert init[i] == ms[i];
          }
        }
      }
      if CompletedCount(ms) == |ms| {
        assert forall i :: 0 <= i < |init| ==> init[i] == ms[i];
      }
    }
  }

  /** The stored form of the mission list. */
  function MissionsValue(ms: seq<Mission>): (v: SaveSystem.Value)
    ensures v.List? && |v.items| == |ms|
  {
    SaveSystem.List(seq(|ms|, i requires 0 <= i < |ms| =>
      SaveSystem.List([SaveSystem.Text(ms[i].id), SaveSystem.Text(ms[i].kind),
        SaveSystem.Int(ms[i].target), SaveSystem.Int(ms[i].reward),
        SaveSystem.Int(ms[i].progress), SaveSystem.Bool(ms[i].completed)])))
  }

  /** The two keys the missions are written under are not settings keys. */
  lemma MissionKeysAreNotSettings()
    ensures "daily_missions" !in SaveSystem.SettingKeys
    ensures "daily_missions_last_reset" !in SaveSystem.SettingKeys
  {
    assert "daily_missions"[0] == 'd';
    assert "daily_missions_last_reset"[0] == 'd';
  }

  /** The loop of `update_progress` over the missions, before the save: every mission
      advances and each one that completes pays its reward into `save`. */
  method AdvanceMissions(save: SaveSystem.SaveSystem, ms: seq<Mission>, kind: string, value: int)
    returns (rs: seq<Mission>, updated: bool)
    modifies save
    ensures rs == AdvanceAll(ms, kind, value)
    ensures save.coins == old(save.coins) + Earned(ms, kind, value)
    ensures updated <==> exists i :: 0 <= i < |ms| && Completes(ms[i], kind, value)
    ensures save.highScores == old(save.highScores) && save.settings == old(save.settings)
    ensures save.stats == old(save.stats) && save.unlocks == old(save.unlocks)
    ensures save.upgrades == old(save.upgrades)
  {
    rs := ms;
    updated := false;
    var i := 0;
    while i < |rs|
      invariant 0 <= i <= |rs| == |ms|
      invariant forall j :: 0 <= j < i ==> rs[j] == Advance(ms[j], kind, value)
      invariant forall j :: i <= j < |rs| ==> rs[j] == ms[j]
      invariant save.coins == old(save.coins) + Earned(ms[..i], kind, value)
      invariant updated <==> exists j :: 0 <= j < i && Completes(ms[j], kind, value)
      invariant save.highScores == old(save.highScores) && save.settings == old(save.settings)
      invariant save.stats == old(save.stats) && save.unlocks == old(save.unlocks)
      invariant save.upgrades == old(save.upgrades)
    {
      var m, completedNow := AdvanceOne(save, rs[i], kind, value);
      EarnedSnoc(ms, i, kind, value);
      CompletesSnoc(ms, i, kind, value);
      rs := rs[i := m];
      updated := updated || completedNow;
      i := i + 1;
    }
    assert ms[..i] == ms;
  }

  /** One pass of the `update_progress` loop: the mission advances, and when it completes
      its reward is paid. */
  method AdvanceOne(save: SaveSystem.SaveSystem, m: Mission, kind: string, value: int)
    returns (r: Mission, completedNow: bool)
    modifies save
    ensures r == Advance(m, kind, value)
    ensures completedNow <==> Completes(m, kind, value)
    ensures save.coins == old(save.coins) + (if completedNow then m.reward else 0)
    ensures save.highScores == old(save.highScores) && save.settings == old(save.settings)
    ensures save.stats == old(save.stats) && save.unlocks == old(save.unlocks)
    ensures save.upgrades == old(save.upgrades)
  {
    r := m;
    completedNow := false;
    if r.kind == kind && !r.completed {
      r := r.(progress := MinI(r.target, value));
      if r.progress >= r.target && !r.completed {
        r := r.(completed := true);
        save.AddCoins(r.reward);
        completedNow := true;
      }
    }
  }

  class DailyMissions {
    const save: SaveSystem.SaveSystem
    var missions: seq<Mission>
    var lastReset: real

    ghost predicate Valid()
      reads this, save
    {
      save.Valid() && forall i :: 0 <= i < |missions| ==> WellFormed(missions[i])
    }

    /** Loads the missions and the last reset time from the settings (neither is ever
        stored, so the defaults `[]` and 0 are read), resets on a new day and draws missions
        if there are none. `newDay` is whether the last reset's date is before today's, `now`
        the current time and `picks` the random sample. */
    constructor (save: SaveSystem.SaveSystem, newDay: bool, now: real, picks: seq<nat>)
      requires save.Valid() && IsSample(picks)
      modifies save
      ensures Valid() && this.save == save
      ensures missions == Drawn(picks)
      ensures lastReset == (if newDay then now else 0.0)
    {
      this.save := save;
      MissionKeysAreNotSettings();
      var stored := save.GetSetting("daily_missions", SaveSystem.List([]));
      assert stored == SaveSystem.List([]);
      missions := [];
      lastReset := 0.0;
      new;
      CheckReset(newDay, now, picks);
      if missions == [] {
        var ms := Generate(picks);
      }
    }

    /** `check_reset`: on a new day draws fresh missions and records the reset time. */
    method CheckReset(newDay: bool, now: real, picks: seq<nat>)
      requires Valid() && IsSample(picks)
      modifies this, save
      ensures Valid()
      ensures newDay ==> missions == Drawn(picks) && lastReset == now
      ensures !newDay ==> missions == old(missions) && lastReset == old(lastReset)
      ensures unchanged(save)
    {
      if newDay {
        var ms := Generate(picks);
        lastReset := now;
        MissionKeysAreNotSettings();
        save.UpdateSetting("daily_missions_last_reset", SaveSystem.Float(lastReset));
      }
    }

    /** `generate_daily_missions`: three distinct pool missions, fresh. */
    method Generate(picks: seq<nat>) returns (ms: seq<Mission>)
      requires Valid() && IsSample(picks)
      modifies this, save
      ensures Valid()
      ensures missions == Drawn(picks) && ms == missions
      ensures lastReset == old(lastReset)
      ensures unchanged(save)
    {
      missions := Drawn(picks);
      MissionKeysAreNotSettings();
      save.UpdateSetting("daily_missions", MissionsValue(missions));
      ms := missions;
    }

    /** `update_progress`: advances every incomplete mission of the kind, pays each one that
        completes its reward, and answers whether any completed. */
    method UpdateProgress(kind: string, value: int) returns (updated: bool)
      requires Valid()
      modifies this, save
      ensures Valid()
      ensures missions == AdvanceAll(old(missions), kind, value)
      ensures save.coins == old(save.coins) + Earned(old(missions), kind, value)
      ensures updated <==> exists i :: 0 <= i < |old(missions)| && Completes(old(missions)[i], kind, value)
      ensures lastReset == old(lastReset)
      ensures save.highScores == old(save.highScores) && save.settings == old(save.settings)
      ensures save.stats == old(save.stats) && save.unlocks == old(save.unlocks)
      ensures save.upgrades == old(save.upgrades)
    {
      var ms;
      ms, updated := AdvanceMissions(save, missions, kind, value);
      missions := ms;
      if updated {
        MissionKeysAreNotSettings();
        save.UpdateSetting("daily_missions", MissionsValue(missions));
      }
    }

    /** `check_mission_completion`: the reports of `Reports`, one after the other (the
        source's seven calls, written as one pass over their list). */
    method CheckMissionCompletion(stats: map<string, int>)
      requires Valid()
      modifies this, save
      ensures Valid()
      ensures var r := AfterReports(old(missions), Reports(stats));
        missions == r.0 && save.coins == old(save.coins) + r.1
      ensures lastReset == old(lastReset)
    {
      var reports := Reports(stats);
      ghost var m0 := missions;
      ghost var c0 := save.coins;
      assert reports[..0] == [];
      var k := 0;
      while k < |reports|
        invariant 0 <= k <= |reports|
        invariant Valid() && lastReset == old(lastReset)
        invariant var r := AfterReports(m0, reports[..k]); missions == r.0 && save.coins == c0 + r.1
      {
        var updated := UpdateProgress(reports[k].0, reports[k].1);
        ReportStep(m0, reports, k, c0, missions, save.coins);
        k := k + 1;
      }
      assert reports[..k] == reports;
    }

    /** `get_missions`. */
    function GetMissions(): (ms: seq<Mission>)
      reads this, save
      requires Valid()
      ensures forall i :: 0 <= i < |ms| ==> ms[i].progress <= ms[i].target
      ensures ms == missions
    {
      missions
    }

    /** `get_completed_count`. */
    function GetCompletedCount(): (n: nat)
      reads this
      ensures n <= |missions|
      ensures n == |missions| <==> AllCompleted(missions)
    {
      CompletedCountFull(missions);
      CompletedCount(missions)
    }

    /** `get_bonus_reward`: 2000 when every mission is completed, else 0. */
    function GetBonusReward(): (bonus: nat)
      reads this
      ensures bonus == AllCompletedBonus <==> AllCompleted(missions)
      ensures bonus == 0 <==> !AllCompleted(missions)
    {
      if AllCompleted(missions) then AllCompletedBonus else 0
    }
  }
}
