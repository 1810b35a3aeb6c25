/** The persistent save data of the game (`save_system.py`): the top-10 high-score table,
    global statistics, settings, unlocked items, coins and upgrade levels. The JSON file
    is replaced by the in-memory state of the `SaveSystem` object; the model starts from
    the default data, which is what a first start without a save file loads. */
module SaveSystem {
  import opened Common

  // ---------------------------------------------------------------------------
  // JSON-like values held in the settings and statistics dictionaries
  // ---------------------------------------------------------------------------

  /** A value stored under a settings or statistics key. `Bool` is separate from `Int`,
      but Python counts it as a number (`isinstance(True, int)` holds). */
  datatype Value =
    | Int(i: int)
    | Float(f: real)
    | Bool(b: bool)
    | Text(s: string)
    | List(items: seq<Value>)

  /** `isinstance(value, (int, float))`. */
  predicate IsNumber(v: Value)
  {
    v.Int? || v.Float? || v.Bool?
  }

  function NumberValue(v: Value): real
    requires IsNumber(v)
  {
    match v
    case Int(i) => i as real
    case Float(f) => f
    case Bool(b) => if b then 1.0 else 0.0
  }

  /** Python's `a + b` on two numbers: a float if either side is a float, else an int. */
  function Plus(a: Value, b: Value): (r: Value)
    requires IsNumber(a) && IsNumber(b)
    ensures IsNumber(r) && NumberValue(r) == NumberValue(a) + NumberValue(b)
    ensures r.Float? <==> a.Float? || b.Float?
  {
    if a.Float? || b.Float? then Float(NumberValue(a) + NumberValue(b))
    else Int(IntValue(a) + IntValue(b))
  }

  /** The integer an `int` or a `bool` stands for. */
  function IntValue(v: Value): (n: int)
    requires v.Int? || v.Bool?
    ensures n as real == NumberValue(v)
  {
    if v.Int? then v.i else if v.b then 1 else 0
  }

  /** Python truthiness of a stored value, as read by `if value:`. */
  predicate Truthy(v: Value)
  {
    match v
    case Int(i) => i != 0
    case Float(f) => f != 0.0
    case Bool(b) => b
    case Text(s) => s != ""
    case List(items) => items != []
  }

  // ---------------------------------------------------------------------------
  // Default data
  // ---------------------------------------------------------------------------

  function DefaultSettings(): map<string, Value>
  {
    map[
      "music_volume" := Float(0.3),
      "sfx_volume" := Float(0.5),
      "fullscreen" := Bool(false),
      "resolution" := List([Int(800), Int(600)]),
      "show_fps" := Bool(false),
      "particle_quality" := Text("alta"),
      "screen_shake" := Bool(true)
    ]
  }

  /** The only keys the settings dictionary can ever hold. */
  const SettingKeys: set<string> :=
    {"music_volume", "sfx_volume", "fullscreen", "resolution", "show_fps", "particle_quality", "screen_shake"}

  function DefaultStats(): map<string, Value>
  {
    map[
      "total_games_played" := Int(0),
      "total_enemies_killed" := Int(0),
      "total_powerups_collected" := Int(0),
      "total_time_played" := Int(0),
      "highest_level_reached" := Int(1)
    ]
  }

  const StatKeys: set<string> :=
    {"total_games_played", "total_enemies_killed", "total_powerups_collected", "total_time_played", "highest_level_reached"}

  function DefaultUnlocks(): map<string, seq<string>>
  {
    map["skins" := ["default"], "weapons" := ["basic"]]
  }

  function DefaultUpgrades(): map<string, int>
  {
    map["max_health" := 0, "fire_rate" := 0, "bullet_damage" := 0, "speed" := 0, "shield" := 0, "coin_multiplier" := 0]
  }

  lemma DefaultKeys()
    ensures DefaultSettings().Keys == SettingKeys
    ensures DefaultStats().Keys == StatKeys
  {
  }

  /** The keys the progression system reads and writes are not settings keys. */
  lemma ProgressKeysAreNotSettings()
    ensures "player_level" !in SettingKeys && "current_xp" !in SettingKeys
    ensures "total_xp" !in SettingKeys && "prestige_level" !in SettingKeys
  {
    assert "player_level"[0] == 'p';
    assert "current_xp"[0] == 'c';
    assert "total_xp"[0] == 't';
    assert "prestige_level"[0] == 'p';
  }

  // ---------------------------------------------------------------------------
  // The high-score table
  // ---------------------------------------------------------------------------

  datatype HighScore = HighScore(score: int, level: int, playerName: string, date: string)

  const MaxHighScores: nat := 10

  /** Non-increasing by score, the order `sort(key=score, reverse=True)` produces. */
  ghost predicate Sorted(hs: seq<HighScore>)
  {
    forall i, j :: 0 <= i < j < |hs| ==> hs[i].score >= hs[j].score
  }

  /** Where a stable descending sort puts an entry appended to a sorted table: after every
      entry whose score is at least as high. */
  function InsertPos(hs: seq<HighScore>, score: int): (k: nat)
    ensures k <= |hs|
    ensures forall i :: 0 <= i < k ==> hs[i].score >= score
    ensures k < |hs| ==> hs[k].score < score
  {
    if hs == [] || hs[0].score < score then 0 else 1 + InsertPos(hs[1..], score)
  }

  /** Appending `e` and sorting by descending score, stably. */
  function Inserted(hs: seq<HighScore>, e: HighScore): (r: seq<HighScore>)
    ensures |r| == |hs| + 1 && e in r
  {
    var k := InsertPos(hs, e.score);
    hs[..k] + [e] + hs[k..]
  }

  /** The slice `[:n]`. */
  function Take<T>(xs: seq<T>, n: nat): (r: seq<T>)
    ensures |r| == MinI(|xs|, n) && r == xs[..|r|]
  {
    if |xs| <= n then xs else xs[..n]
  }

  /** The table after `add_high_score`. */
  function AddedTable(hs: seq<HighScore>, e: HighScore): (r: seq<HighScore>)
    ensures |r| == MinI(|hs| + 1, MaxHighScores)
  {
    Take(Inserted(hs, e), MaxHighScores)
  }

  /** Where each entry of the table lands after the insertion. */
  lemma InsertedAt(hs: seq<HighScore>, e: HighScore, i: nat)
    requires i <= |hs|
    ensures var k := InsertPos(hs, e.score); var r := Inserted(hs, e);
      |r| == |hs| + 1 && r[i] == (if i < k then hs[i] else if i == k then e else hs[i - 1])
  {
  }

  /** Inserting into a sorted table gives a sorted permutation of the table plus the entry;
      the entry follows every entry with the same or a higher score and precedes every
      lower one, as a stable sort of the appended list places it. */
  lemma InsertedIsStableSort(hs: seq<HighScore>, e: HighScore)
    requires Sorted(hs)
    ensures Sorted(Inserted(hs, e))
    ensures multiset(Inserted(hs, e)) == multiset(hs) + multiset{e}
    ensures var k := InsertPos(hs, e.score);
      Inserted(hs, e)[k] == e
      && (forall i :: 0 <= i < k ==> Inserted(hs, e)[i].score >= e.score)
      && (forall i :: k < i < |hs| + 1 ==> Inserted(hs, e)[i].score < e.score)
  {
    InsertedSorted(hs, e);
    InsertedMultiset(hs, e);
    InsertedPlacement(hs, e);
  }

  lemma InsertedMultiset(hs: seq<HighScore>, e: HighScore)
    ensures multiset(Inserted(hs, e)) == multiset(hs) + multiset{e}
  {
    var k := InsertPos(hs, e.score);
    assert hs == hs[..k] + hs[k..];
  }

  lemma InsertedPlacement(hs: seq<HighScore>, e: HighScore)
    requires Sorted(hs)
    ensures var k := InsertPos(hs, e.score);
      Inserted(hs, e)[k] == e
      && (forall i :: 0 <= i < k ==> Inserted(hs, e)[i].score >= e.score)
      && (forall i :: k < i < |hs| + 1 ==> Inserted(hs, e)[i].score < e.score)
  {
    var k := InsertPos(hs, e.score);
    var r := Inserted(hs, e);
    InsertedAt(hs, e, k);
    forall i | k < i < |hs| + 1
      ensures r[i].score < e.score
    {
      InsertedAt(hs, e, i);
      assert hs[k].score < e.score;
      if i - 1 > k { assert hs[k].score >= hs[i - 1].score; }
    }
    forall i | 0 <= i < k
      ensures r[i].score >= e.score
    {
      InsertedAt(hs, e, i);
    }
  }

  lemma InsertedSorted(hs: seq<HighScore>, e: HighScore)
    requires Sorted(hs)
    ensures Sorted(Inserted(hs, e))
  {
    var k := InsertPos(hs, e.score);
    var r := Inserted(hs, e);
    forall i, j | 0 <= i < j < |r|
      ensures r[i].score >= r[j].score
    {
      InsertedAt(hs, e, i);
      InsertedAt(hs, e, j);
      if i == k && j - 1 > k {
        assert hs[k].score >= hs[j - 1].score;
      }
    }
  }

  /** After `add_high_score` the table is sorted and holds at most ten entries. */
  lemma AddedTableSorted(hs: seq<HighScore>, e: HighScore)
    requires Sorted(hs)
    ensures Sorted(AddedTable(hs, e)) && |AddedTable(hs, e)| <= MaxHighScores
    ensures |AddedTable(hs, e)| == MinI(|hs| + 1, MaxHighScores)
  {
    InsertedIsStableSort(hs, e);
  }

  /** The new entry is kept exactly when it lands among the first ten. */
  predicate Survives(hs: seq<HighScore>, score: int)
  {
    InsertPos(hs, score) < MaxHighScores
  }

  predicate Matches(h: HighScore, score: int, name: string, date: string)
  {
    h.score == score && h.playerName == name && h.date == date
  }

  /** The ranking loop: the 1-based position of the first entry with the given score, name
      and date, or None. */
  function FirstMatch(hs: seq<HighScore>, score: int, name: string, date: string): (r: Option<nat>)
    ensures r.Some? ==> (1 <= r.value <= |hs| && Matches(hs[r.value - 1], score, name, date)
      && forall i :: 0 <= i < r.value - 1 ==> !Matches(hs[i], score, name, date))
    ensures r.None? ==> forall i :: 0 <= i < |hs| ==> !Matches(hs[i], score, name, date)
  {
    if hs == [] then None
    else if Matches(hs[0], score, name, date) then Some(1)
    else match FirstMatch(hs[1..], score, name, date)
      case None => None
      case Some(p) => Some(p + 1)
  }

  /** When the new entry survives, `add_high_score` returns a rank, and that rank is at most
      the entry's own position (an older entry with the same score, name and date would be
      found first). */
  lemma RankWhenKept(hs: seq<HighScore>, e: HighScore)
    requires Sorted(hs) && Survives(hs, e.score)
    ensures var r := FirstMatch(AddedTable(hs, e), e.score, e.playerName, e.date);
      r.Some? && r.value <= InsertPos(hs, e.score) + 1
  {
    InsertedIsStableSort(hs, e);
    var k := InsertPos(hs, e.score);
    var t := AddedTable(hs, e);
    assert t[k] == e;
    assert Matches(t[k], e.score, e.playerName, e.date);
  }

  /** When no older entry carries the same score, name and date, the rank is exactly the new
      entry's position if it was kept and None if it was cut. */
  lemma RankOfNewEntry(hs: seq<HighScore>, e: HighScore)
    requires Sorted(hs)
    requires forall i :: 0 <= i < |hs| ==> !Matches(hs[i], e.score, e.playerName, e.date)
    ensures FirstMatch(AddedTable(hs, e), e.score, e.playerName, e.date)
      == (if Survives(hs, e.score) then Some(InsertPos(hs, e.score) + 1) else None)
  {
    var k := InsertPos(hs, e.score);
    var t := AddedTable(hs, e);
    OnlyNewEntryMatches(hs, e);
    if Survives(hs, e.score) {
      assert k < |t|;
      InsertedAt(hs, e, k);
      assert t[k] == e;
      FirstMatchAt(t, e.score, e.playerName, e.date, k);
    } else {
      assert |t| <= k;
      assert forall i :: 0 <= i < |t| ==> !Matches(t[i], e.score, e.playerName, e.date);
      FirstMatchNone(t, e.score, e.playerName, e.date);
    }
  }

  /** The ranking loop stops at the first matching entry. */
  lemma {:induction false} FirstMatchAt(hs: seq<HighScore>, score: int, name: string, date: string, k: nat)
    requires k < |hs| && Matches(hs[k], score, name, date)
    requires forall i :: 0 <= i < k ==> !Matches(hs[i], score, name, date)
    ensures FirstMatch(hs, score, name, date) == Some(k + 1)
    decreases k
  {
    if k > 0 {
      FirstMatchAt(hs[1..], score, name, date, k - 1);
    }
  }

  /** Without a matching entry the ranking loop finds nothing. */
  lemma FirstMatchNone(hs: seq<HighScore>, score: int, name: string, date: string)
    requires forall i :: 0 <= i < |hs| ==> !Matches(hs[i], score, name, date)
    ensures FirstMatch(hs, score, name, date) == None
  {
  }

  /** Only the new entry's slot of the table can match it. */
  lemma OnlyNewEntryMatches(hs: seq<HighScore>, e: HighScore)
    requires forall i :: 0 <= i < |hs| ==> !Matches(hs[i], e.score, e.playerName, e.date)
    ensures var t := AddedTable(hs, e);
      forall i :: 0 <= i < |t| && i != InsertPos(hs, e.score) ==> !Matches(t[i], e.score, e.playerName, e.date)
  {
    var k := InsertPos(hs, e.score);
    var t := AddedTable(hs, e);
    forall i | 0 <= i < |t| && i != k
      ensures !Matches(t[i], e.score, e.playerName, e.date)
    {
      InsertedAt(hs, e, i);
    }
  }

  /** `is_high_score` says exactly whether an added score would stay in the table. */
  lemma IsHighScoreIffSurvives(hs: seq<HighScore>, score: int)
    requires Sorted(hs) && |hs| <= MaxHighScores
    ensures (|hs| < MaxHighScores || score > hs[|hs| - 1].score) <==> Survives(hs, score)
  {
  }

  // ---------------------------------------------------------------------------
  // Statistics
  // ---------------------------------------------------------------------------

  /** One keyword argument of `update_stats`. */
  function StatAfter(stats: map<string, Value>, key: string, value: Value): (r: map<string, Value>)
    requires key in stats && IsNumber(value) ==> IsNumber(stats[key])
    ensures r.Keys == stats.Keys
  {
    if key !in stats then stats
    else if IsNumber(value) then stats[key := Plus(stats[key], value)]
    else stats[key := value]
  }

  /** Keyword arguments have distinct names. */
  ghost predicate DistinctKeys(updates: seq<(string, Value)>)
  {
    forall i, j :: 0 <= i < j < |updates| ==> updates[i].0 != updates[j].0
  }

  /** A numeric argument for a known key needs a numeric statistic; otherwise `+=` raises. */
  ghost predicate Addable(stats: map<string, Value>, updates: seq<(string, Value)>)
  {
    forall i :: 0 <= i < |updates| && updates[i].0 in stats && IsNumber(updates[i].1) ==>
      IsNumber(stats[updates[i].0])
  }

  /** `update_stats(**kwargs)` applied argument by argument. */
  function StatsAfter(stats: map<string, Value>, updates: seq<(string, Value)>): (r: map<string, Value>)
    requires DistinctKeys(updates) && Addable(stats, updates)
    ensures r.Keys == stats.Keys
    decreases |updates|
  {
    if updates == [] then stats
    else
      var next := StatAfter(stats, updates[0].0, updates[0].1);
      assert Addable(next, updates[1..]) by {
        forall i | 0 <= i < |updates[1..]|
          ensures updates[1..][i].0 != updates[0].0
        {
          assert updates[1..][i] == updates[i + 1];
        }
      }
      StatsAfter(next, updates[1..])
  }

  /** `update_stats` is its first argument followed by the rest. */
  lemma StatsAfterFirst(stats: map<string, Value>, updates: seq<(string, Value)>)
    requires updates != [] && DistinctKeys(updates) && Addable(stats, updates)
    ensures var next := StatAfter(stats, updates[0].0, updates[0].1);
      DistinctKeys(updates[1..]) && Addable(next, updates[1..])
      && StatsAfter(stats, updates) == StatsAfter(next, updates[1..])
  {
  }

  /** A key that no argument names keeps its value. */
  lemma {:induction false} StatsUntouched(stats: map<string, Value>, updates: seq<(string, Value)>, key: string)
    requires DistinctKeys(updates) && Addable(stats, updates)
    requires forall i :: 0 <= i < |updates| ==> updates[i].0 != key
    ensures key in stats ==> StatsAfter(stats, updates)[key] == stats[key]
    decreases |updates|
  {
    if updates != [] {
      var next := StatAfter(stats, updates[0].0, updates[0].1);
      assert Addable(next, updates[1..]);
      StatsUntouched(next, updates[1..], key);
    }
  }

  /** The effect of `update_stats` on each key: a numeric argument is added to the statistic,
      any other argument replaces it, unknown names are ignored and unnamed keys keep their
      values. */
  lemma {:induction false} StatsAfterEffect(stats: map<string, Value>, updates: seq<(string, Value)>, i: nat)
    requires DistinctKeys(updates) && Addable(stats, updates) && i < |updates|
    ensures var key := updates[i].0; var value := updates[i].1;
      key in stats ==>
        StatsAfter(stats, updates)[key] == (if IsNumber(value) then Plus(stats[key], value) else value)
    decreases |updates|
  {
    var next := StatAfter(stats, updates[0].0, updates[0].1);
    assert Addable(next, updates[1..]);
    if i == 0 {
      StatsUntouched(next, updates[1..], updates[0].0);
    } else {
      assert updates[1..][i - 1] == updates[i];
      StatsAfterEffect(next, updates[1..], i - 1);
    }
  }

  // ---------------------------------------------------------------------------
  // The save object
  // ---------------------------------------------------------------------------

  class SaveSystem {
    var highScores: seq<HighScore>
    var settings: map<string, Value>
    var stats: map<string, Value>
    var unlocks: map<string, seq<string>>
    var coins: int
    var upgrades: map<string, int>

    /** The settings and statistics keep the default key sets, the unlock categories are the
        default ones and the high-score table is sorted with at most ten entries. */
    ghost predicate Valid()
      reads this
    {
      settings.Keys == SettingKeys && stats.Keys == StatKeys
      && unlocks.Keys == {"skins", "weapons"}
      && Sorted(highScores) && |highScores| <= MaxHighScores
    }

    /** A first start: no save file, so the default data is loaded. */
    constructor ()
      ensures Valid()
      ensures highScores == [] && settings == DefaultSettings() && stats == DefaultStats()
      ensures unlocks == DefaultUnlocks() && coins == 0 && upgrades == DefaultUpgrades()
    {
      highScores := [];
      settings := DefaultSettings();
      stats := DefaultStats();
      unlocks := DefaultUnlocks();
      coins := 0;
      upgrades := DefaultUpgrades();
    }

    /** `add_high_score`: insert, sort descending, keep ten, and report the 1-based rank
        found by the search loop (`date` is the formatted current time). */
    method AddHighScore(score: int, level: int, playerName: string, date: string) returns (rank: Option<nat>)
      requires Valid()
      modifies this
      ensures Valid()
      ensures highScores == AddedTable(old(highScores), HighScore(score, level, playerName, date))
      ensures rank == FirstMatch(highScores, score, playerName, date)
      ensures settings == old(settings) && stats == old(stats) && unlocks == old(unlocks)
      ensures coins == old(coins) && upgrades == old(upgrades)
    {
      var entry := HighScore(score, level, playerName, date);
      AddedTableSorted(highScores, entry);
      highScores := AddedTable(highScores, entry);
      rank := FindRank(highScores, score, playerName, date);
    }

    /** `is_high_score`. */
    function IsHighScore(score: int): (r: bool)
      reads this
      requires Valid()
      ensures r <==> Survives(highScores, score)
    {
      IsHighScoreIffSurvives(highScores, score);
      |highScores| < MaxHighScores || score > highScores[|highScores| - 1].score
    }

    /** `get_highest_score`: the first entry's score, or 0 for an empty table. */
    function HighestScore(): (r: int)
      reads this
      requires Valid()
      ensures highScores != [] ==> forall i :: 0 <= i < |highScores| ==> highScores[i].score <= r
      ensures highScores != [] ==> exists i :: 0 <= i < |highScores| && highScores[i].score == r
      ensures highScores == [] ==> r == 0
    {
      if highScores != [] then highScores[0].score else 0
    }

    /** `update_stats`: the keyword arguments in order. */
    method UpdateStats(updates: seq<(string, Value)>)
      requires Valid() && DistinctKeys(updates) && Addable(stats, updates)
      modifies this
      ensures Valid()
      ensures stats == StatsAfter(old(stats), updates)
      ensures highScores == old(highScores) && settings == old(settings) && unlocks == old(unlocks)
      ensures coins == old(coins) && upgrades == old(upgrades)
    {
      var i := 0;
      while i < |updates|
        invariant 0 <= i <= |updates|
        invariant stats.Keys == StatKeys
        invariant DistinctKeys(updates[i..]) && Addable(stats, updates[i..])
        invariant StatsAfter(stats, updates[i..]) == StatsAfter(old(stats), updates)
        invariant highScores == old(highScores) && settings == old(settings) && unlocks == old(unlocks)
        invariant coins == old(coins) && upgrades == old(upgrades)
      {
        var (key, value) := updates[i];
        StatsAfterFirst(stats, updates[i..]);
        assert updates[i..][1..] == updates[i + 1..];
        ghost var before := stats;
        if key in stats {
          if IsNumber(value) {
            stats := stats[key := Plus(stats[key], value)];
          } else {
            stats := stats[key := value];
          }
        }
        assert stats == StatAfter(before, key, value);
        i := i + 1;
      }
    }

    /** `get_stat`, with 0 for an unknown name. */
    function GetStat(name: string): (r: Value)
      reads this
      ensures name in stats ==> r == stats[name]
      ensures name !in stats ==> r == Int(0)
    {
      if name in stats then stats[name] else Int(0)
    }

    /** `update_setting`: only an existing key is written; any other name is dropped. */
    method UpdateSetting(name: string, value: Value)
      requires Valid()
      modifies this
      ensures Valid()
      ensures name in old(settings) ==> settings == old(settings)[name := value]
      ensures name !in old(settings) ==> unchanged(this)
      ensures highScores == old(highScores) && stats == old(stats) && unlocks == old(unlocks)
      ensures coins == old(coins) && upgrades == old(upgrades)
    {
      if name in settings {
        settings := settings[name := value];
      }
    }

    /** `get_setting(name, default)`. */
    function GetSetting(name: string, default: Value): (r: Value)
      reads this
      ensures name in settings ==> r == settings[name]
      ensures name !in settings ==> r == default
    {
      if name in settings then settings[name] else default
    }

    /** `unlock_item`: appends only to an existing category and only a new item. */
    method UnlockItem(category: string, item: string) returns (added: bool)
      requires Valid()
      modifies this
      ensures Valid()
      ensures added <==> category in old(unlocks) && item !in old(unlocks)[category]
      ensures added ==> unlocks == old(unlocks)[category := old(unlocks)[category] + [item]]
      ensures !added ==> unlocks == old(unlocks)
      ensures IsUnlocked(category, item) <==> category in unlocks
      ensures highScores == old(highScores) && settings == old(settings) && stats == old(stats)
      ensures coins == old(coins) && upgrades == old(upgrades)
    {
      added := false;
      if category in unlocks {
        if item !in unlocks[category] {
          unlocks := unlocks[category := unlocks[category] + [item]];
          added := true;
        }
      }
    }

    /** `is_unlocked`. */
    function IsUnlocked(category: string, item: string): (r: bool)
      reads this
      ensures r <==> category in unlocks && item in unlocks[category]
    {
      if category in unlocks then item in unlocks[category] else false
    }

    /** `add_coins`. */
    method AddCoins(amount: int)
      modifies this
      ensures coins == old(coins) + amount
      ensures highScores == old(highScores) && settings == old(settings) && stats == old(stats)
      ensures unlocks == old(unlocks) && upgrades == old(upgrades)
    {
      coins := coins + amount;
    }

    /** `spend_coins`: deducts only when the balance covers the amount. */
    method SpendCoins(amount: int) returns (ok: bool)
      modifies this
      ensures ok <==> old(coins) >= amount
      ensures ok ==> coins == old(coins) - amount
      ensures !ok ==> coins == old(coins)
      ensures old(coins) >= 0 ==> coins >= 0
      ensures highScores == old(highScores) && settings == old(settings) && stats == old(stats)
      ensures unlocks == old(unlocks) && upgrades == old(upgrades)
    {
      var current := coins;
      if current >= amount {
        coins := current - amount;
        ok := true;
      } else {
        ok := false;
      }
    }

    /** `get_upgrade_level`, with 0 for an upgrade never bought. */
    function UpgradeLevel(id: string): (level: int)
      reads this
      ensures id in upgrades ==> level == upgrades[id]
      ensures id !in upgrades ==> level == 0
    {
      if id in upgrades then upgrades[id] else 0
    }

    /** `upgrade_stat`: records the new level of one upgrade. */
    method UpgradeStat(id: string, newLevel: int)
      modifies this
      ensures upgrades == old(upgrades)[id := newLevel]
      ensures UpgradeLevel(id) == newLevel
      ensures forall other :: other != id ==> UpgradeLevel(other) == old(UpgradeLevel(other))
      ensures highScores == old(highScores) && settings == old(settings) && stats == old(stats)
      ensures unlocks == old(unlocks) && coins == old(coins)
    {
      upgrades := upgrades[id := newLevel];
    }
  }

  /** The ranking search loop of `add_high_score`. */
  method FindRank(hs: seq<HighScore>, score: int, name: string, date: string) returns (rank: Option<nat>)
    ensures rank == FirstMatch(hs, score, name, date)
  {
    var i := 0;
    while i < |hs|
      invariant 0 <= i <= |hs|
      invariant forall j :: 0 <= j < i ==> !Matches(hs[j], score, name, date)
    {
      if hs[i].score == score && hs[i].playerName == name && hs[i].date == date {
        return Some(i + 1);
      }
      i := i + 1;
    }
    return None;
  }
}
