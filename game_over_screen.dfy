/** The screen shown when a run ends: it records the run in the save's statistics, asks for a
    name when the score makes the high-score table, can show that table, and offers "play
    again", "high scores" and "main menu". */
module GameOverScreens {
  import opened Common
  import opened Input
  import opened SaveSystem

  /** The longest name the entry accepts, and the name offered (and used when left empty). */
  const MaxNameLength := 12
  const DefaultName := "PLAYER"

  /** How much `alpha` rises per frame while fading in, and its opaque value. */
  const FadeSpeed := 5
  const Opaque := 255

  /** The menu has "JOGAR NOVAMENTE", "HIGH SCORES" and "MENU PRINCIPAL". */
  const OptionCount := 3

  /** What `handle_event` returns: `"retry"` or `"menu"`. */
  datatype Action = Retry | BackToMenu

  /** `game_stats`: the figures of the run that just ended. */
  datatype RunStats = RunStats(score: int, level: int, kills: int, powerups: int, timePlayed: int)

  // ---------------------------------------------------------------------------
  // Statistics written by `reset`
  // ---------------------------------------------------------------------------

  /** Every statistic is present and an integer, as the game only ever adds integers. */
  predicate IntStats(stats: map<string, Value>)
  {
    stats.Keys == StatKeys && forall k :: k in stats ==> stats[k].Int?
  }

  /** The keyword arguments of the first `update_stats` call in `reset`. */
  function RunTotals(kills: int, powerups: int, timePlayed: int): (u: seq<(string, Value)>)
    ensures |u| == 4
  {
    [("total_games_played", Int(1)), ("total_enemies_killed", Int(kills)),
     ("total_powerups_collected", Int(powerups)), ("total_time_played", Int(timePlayed))]
  }

  lemma RunTotalsApply(stats: map<string, Value>, kills: int, powerups: int, timePlayed: int)
    requires IntStats(stats)
    ensures DistinctKeys(RunTotals(kills, powerups, timePlayed))
    ensures Addable(stats, RunTotals(kills, powerups, timePlayed))
  {
  }

  /** The highest level reached once a run that ended on `level` is taken into account: the
      larger of the two. */
  function HighestLevel(stat: int, level: int): (r: int)
    ensures r >= stat && r >= level
    ensures r == stat || r == level
  {
    if level > stat then level else stat
  }

  /** The record of the highest level as `reset` writes it: `update_stats` adds numeric
      arguments, so a new record is stored as the old record plus the level. */
  function WrittenHighestLevel(stats: map<string, Value>, level: int): (r: map<string, Value>)
    requires IntStats(stats)
    ensures r.Keys == stats.Keys
  {
    if level > stats["highest_level_reached"].i
    then StatsAfter(stats, [("highest_level_reached", Int(level))])
    else stats
  }

  /** What the written record comes to: the old record plus the new level, which overshoots
      the level actually reached whenever the old record is positive, e.g. 3 then 5 gives 8. */
  lemma WrittenHighestLevelOvershoots(stats: map<string, Value>, level: int)
    requires IntStats(stats) && 0 < stats["highest_level_reached"].i < level
    ensures WrittenHighestLevel(stats, level)["highest_level_reached"]
      == Int(stats["highest_level_reached"].i + level)
    ensures WrittenHighestLevel(stats, level)["highest_level_reached"]
      != Int(HighestLevel(stats["highest_level_reached"].i, level))
  {
    var u := [("highest_level_reached", Int(level))];
    StatsAfterEffect(stats, u, 0);
  }

  /** The statistics after `reset`, as written: the run's totals are added, and when the run
      went further than the record the level is added to the record as well. */
  function ResetStats(stats: map<string, Value>, level: int, kills: int, powerups: int, timePlayed: int)
    : (r: map<string, Value>)
    requires IntStats(stats)
    ensures r.Keys == stats.Keys
  {
    RunTotalsApply(stats, kills, powerups, timePlayed);
    var totals := StatsAfter(stats, RunTotals(kills, powerups, timePlayed));
    var record := stats["highest_level_reached"].i;
    if level > record then totals["highest_level_reached" := Int(record + level)] else totals
  }

  /** `reset` counts one more game, adds the run's kills, power-ups and seconds to the
      totals and keeps every statistic an integer. A record the run beats grows by the run's
      level, so it ends above the level reached whenever it was positive; a record the run
      does not beat stays. */
  lemma ResetStatsEffect(stats: map<string, Value>, level: int, kills: int, powerups: int, timePlayed: int)
    requires IntStats(stats)
    ensures var r := ResetStats(stats, level, kills, powerups, timePlayed);
      && IntStats(r)
      && r["total_games_played"] == Int(stats["total_games_played"].i + 1)
      && r["total_enemies_killed"] == Int(stats["total_enemies_killed"].i + kills)
      && r["total_powerups_collected"] == Int(stats["total_powerups_collected"].i + powerups)
      && r["total_time_played"] == Int(stats["total_time_played"].i + timePlayed)
    ensures var r := ResetStats(stats, level, kills, powerups, timePlayed); var record := stats["highest_level_reached"].i;
      && (level > record ==> r["highest_level_reached"] == Int(record + level))
      && (level <= record ==> r["highest_level_reached"] == Int(record))
      && (0 < record < level ==> r["highest_level_reached"].i > HighestLevel(record, level))
  {
    var u := RunTotals(kills, powerups, timePlayed);
    RunTotalsApply(stats, kills, powerups, timePlayed);
    StatsAfterEffect(stats, u, 0);
    StatsAfterEffect(stats, u, 1);
    StatsAfterEffect(stats, u, 2);
    StatsAfterEffect(stats, u, 3);
    StatsUntouched(stats, u, "highest_level_reached");
  }

  // ---------------------------------------------------------------------------
  // Name entry
  // ---------------------------------------------------------------------------

  /** `str.isprintable()` for the characters a key press types; only printable ASCII is
      recognised. */
  predicate PrintableChar(c: char) { ' ' <= c <= '~' }

  predicate Printable(s: string) { forall i :: 0 <= i < |s| ==> PrintableChar(s[i]) }

  /** A key press during name entry: its text is appended in upper case while the name is
      shorter than the limit and the text is printable. */
  function Typed(name: string, text: string): (r: string)
    ensures r == name || (|name| < MaxNameLength && Printable(text) && r == name + Upper(text))
    ensures |r| >= |name| && r[..|name|] == name
    ensures forall i :: |name| <= i < |r| ==> 'a' > r[i] || r[i] > 'z'
  {
    if |name| < MaxNameLength && Printable(text) then name + Upper(text) else name
  }

  /** The name stored with the score: the typed one, or the default when left empty. */
  function RecordedName(name: string): (r: string)
    ensures r != [] && (name != [] ==> r == name)
  {
    if name != [] then name else DefaultName
  }

  // ---------------------------------------------------------------------------
  // The screen's reaction to one event
  // ---------------------------------------------------------------------------

  /** The fields `handle_event` reads and writes, apart from the save. */
  datatype View = View(enteringName: bool, showHighScores: bool, selected: int, name: string)

  datatype Reply = Reply(view: View, action: Option<Action>)

  /** ENTER while a name is being typed records the score. */
  predicate Records(v: View, e: Event)
  {
    v.enteringName && e.KeyDown? && e.key == Enter
  }

  /** `get_selected_action`. */
  function SelectedAction(v: View): (r: Reply)
    requires 0 <= v.selected < OptionCount
    ensures r.action == Some(Retry) <==> v.selected == 0
    ensures r.action == Some(BackToMenu) <==> v.selected == 2
    ensures r.view == (if v.selected == 1 then v.(showHighScores := true) else v)
  {
    if v.selected == 0 then Reply(v, Some(Retry))
    else if v.selected == 1 then Reply(v.(showHighScores := true), None)
    else Reply(v, Some(BackToMenu))
  }

  /** `handle_event`: name entry first, then the high-score table, then the menu. */
  function Step(v: View, e: Event): (r: Reply)
    requires 0 <= v.selected < OptionCount
    ensures 0 <= r.view.selected < OptionCount
    ensures r.action.Some? ==> !v.enteringName && !v.showHighScores && e.KeyDown? && IsConfirm(e.key)
    ensures !v.enteringName ==> r.view.name == v.name && !r.view.enteringName
    ensures v.enteringName ==> r.view.selected == v.selected
  {
    if v.enteringName then
      if !e.KeyDown? then Reply(v, None)
      else if e.key == Enter then Reply(v.(enteringName := false, showHighScores := true), None)
      else if e.key == Backspace then Reply(v.(name := DropLast(v.name)), None)
      else if e.key == Escape then Reply(v.(enteringName := false), None)
      else Reply(v.(name := Typed(v.name, e.unicode)), None)
    else if v.showHighScores then
      if e.KeyDown? && (e.key == Escape || e.key == Enter || e.key == Space)
      then Reply(v.(showHighScores := false), None)
      else Reply(v, None)
    else if !e.KeyDown? then Reply(v, None)
    else if IsUp(e.key) then Reply(v.(selected := Wrap(v.selected - 1, OptionCount)), None)
    else if IsDown(e.key) then Reply(v.(selected := Wrap(v.selected + 1, OptionCount)), None)
    else if IsConfirm(e.key) then SelectedAction(v)
    else Reply(v, None)
  }

  /** During name entry a key press never makes the name longer than the limit, provided the
      key types at most one character. */
  lemma NameStaysShort(v: View, e: Event)
    requires 0 <= v.selected < OptionCount && v.enteringName && |v.name| <= MaxNameLength
    requires e.KeyDown? ==> |e.unicode| <= 1
    ensures |Step(v, e).view.name| <= MaxNameLength
  {
  }

  /** Typing a printable character into a name with room for it and then pressing
      BACKSPACE leaves the name entry as it was. */
  lemma BackspaceUndoesTyping(v: View, k: Key, c: char, u: string)
    requires 0 <= v.selected < OptionCount && v.enteringName && |v.name| < MaxNameLength
    requires k != Enter && k != Backspace && k != Escape && PrintableChar(c)
    ensures Step(v, KeyDown(k, [c])).view.name == v.name + [UpperChar(c)]
    ensures Step(Step(v, KeyDown(k, [c])).view, KeyDown(Backspace, u)).view == v
  {
    var w := Step(v, KeyDown(k, [c])).view;
    assert w.name == v.name + [UpperChar(c)];
    assert DropLast(w.name) == v.name;
  }

  /** ENTER and ESC both end name entry; only ENTER opens the high-score table. */
  lemma EntryEnds(v: View, e: Event)
    requires 0 <= v.selected < OptionCount && v.enteringName && e.KeyDown? && (e.key == Enter || e.key == Escape)
    ensures !Step(v, e).view.enteringName && Step(v, e).view.name == v.name
    ensures Step(v, e).view.showHighScores <==> (e.key == Enter || v.showHighScores)
  {
  }

  /** On the menu, UP then DOWN (or DOWN then UP) returns to the same entry. */
  lemma MenuUpDown(v: View, u: string, w: string)
    requires 0 <= v.selected < OptionCount && !v.enteringName && !v.showHighScores
    ensures Step(Step(v, KeyDown(Up, u)).view, KeyDown(Down, w)).view == v
    ensures Step(Step(v, KeyDown(Down, u)).view, KeyDown(Up, w)).view == v
  {
    WrapRoundTrip(v.selected, OptionCount);
  }

  /** While the table is shown, ESC, ENTER and SPACE close it and nothing else changes. */
  lemma TableCloses(v: View, e: Event)
    requires 0 <= v.selected < OptionCount && !v.enteringName && v.showHighScores
    ensures Step(v, e).action == None
    ensures Step(v, e).view == (if e.KeyDown? && e.key in {Escape, Enter, Space} then v.(showHighScores := false) else v)
  {
  }

  // ---------------------------------------------------------------------------
  // Fading in
  // ---------------------------------------------------------------------------

  /** One frame of `update`'s fade. */
  function FadeStep(alpha: int): (r: int)
    ensures alpha <= Opaque ==> alpha <= r <= Opaque
    ensures alpha >= Opaque ==> r == alpha
  {
    if alpha < Opaque then MinI(Opaque, alpha + FadeSpeed) else alpha
  }

  function FadeAfter(alpha: int, frames: nat): int
  {
    if frames == 0 then alpha else FadeStep(FadeAfter(alpha, frames - 1))
  }

  /** After `n` frames the alpha has risen by five per frame, capped at 255. */
  lemma {:induction false} FadeAfterValue(alpha: int, frames: nat)
    requires 0 <= alpha <= Opaque
    ensures FadeAfter(alpha, frames) == MinI(Opaque, alpha + FadeSpeed * frames)
  {
    if frames > 0 {
      FadeAfterValue(alpha, frames - 1);
    }
  }

  /** From transparent, the screen is fully opaque after 51 frames and not before. */
  lemma FadeCompletes(frames: nat)
    ensures FadeAfter(0, frames) == Opaque <==> frames >= 51
  {
    FadeAfterValue(0, frames);
  }

  /** The two `update_stats` calls at the end of `reset`, as written. */
  method RecordRun(save: SaveSystem, level: int, kills: int, powerups: int, timePlayed: int)
    requires save.Valid() && IntStats(save.stats)
    modifies save
    ensures save.Valid() && IntStats(save.stats)
    ensures save.stats == ResetStats(old(save.stats), level, kills, powerups, timePlayed)
    ensures save.highScores == old(save.highScores) && save.settings == old(save.settings)
    ensures save.unlocks == old(save.unlocks) && save.coins == old(save.coins) && save.upgrades == old(save.upgrades)
  {
    ghost var before := save.stats;
    var u := RunTotals(kills, powerups, timePlayed);
    RunTotalsApply(before, kills, powerups, timePlayed);
    ResetStatsEffect(before, level, kills, powerups, timePlayed);
    save.UpdateStats(u);
    StatsUntouched(before, u, "highest_level_reached");
    WriteRecord(save, level);
  }

  /** The second `update_stats` call of `reset`, as written: when the run went further than
      the record, `highest_level_reached=level` is passed, which `update_stats` adds to the
      record. */
  method WriteRecord(save: SaveSystem, level: int)
    requires save.Valid() && IntStats(save.stats)
    modifies save
    ensures save.Valid() && IntStats(save.stats)
    ensures save.stats == WrittenHighestLevel(old(save.stats), level)
    ensures var old_record := old(save.stats)["highest_level_reached"].i;
      save.stats == old(save.stats)["highest_level_reached" := Int(if level > old_record then old_record + level else old_record)]
    ensures save.highScores == old(save.highScores) && save.settings == old(save.settings)
    ensures save.unlocks == old(save.unlocks) && save.coins == old(save.coins) && save.upgrades == old(save.upgrades)
  {
    var current := save.GetStat("highest_level_reached");
    if level > current.i {
      var update := [("highest_level_reached", Int(level))];
      StatsAfterEffect(save.stats, update, 0);
      save.UpdateStats(update);
    }
  }

  /** The second `update_stats` call of `reset` as evidently intended: when the run went
      further than the record, the difference is added, so the record becomes the run's
      level. */
  method RaiseRecord(save: SaveSystem, level: int)
    requires save.Valid() && IntStats(save.stats)
    modifies save
    ensures save.Valid() && IntStats(save.stats)
    ensures var old_record := old(save.stats)["highest_level_reached"].i;
      save.stats == old(save.stats)["highest_level_reached" := Int(HighestLevel(old_record, level))]
    ensures save.highScores == old(save.highScores) && save.settings == old(save.settings)
    ensures save.unlocks == old(save.unlocks) && save.coins == old(save.coins) && save.upgrades == old(save.upgrades)
  {
    var current := save.GetStat("highest_level_reached");
    if level > current.i {
      var raise := [("highest_level_reached", Int(level - current.i))];
      StatsAfterEffect(save.stats, raise, 0);
      save.UpdateStats(raise);
    }
  }

  /** `add_high_score` with the run's score and level under `name`. */
  method RecordScore(save: SaveSystem, run: RunStats, name: string, date: string) returns (rank: Option<nat>)
    requires save.Valid() && IntStats(save.stats)
    modifies save
    ensures save.Valid() && IntStats(save.stats)
    ensures save.highScores == AddedTable(old(save.highScores), HighScore(run.score, run.level, name, date))
    ensures rank == FirstMatch(save.highScores, run.score, name, date)
    ensures save.stats == old(save.stats) && save.settings == old(save.settings) && save.unlocks == old(save.unlocks)
    ensures save.coins == old(save.coins) && save.upgrades == old(save.upgrades)
  {
    rank := save.AddHighScore(run.score, run.level, name, date);
  }

  // ---------------------------------------------------------------------------
  // The screen object
  // ---------------------------------------------------------------------------

  class GameOverScreen {
    const width: int
    const height: int
    const save: SaveSystem
    var alpha: int
    var pulse: real
    var selectedOption: int
    var showHighScores: bool
    var isNewHighScore: bool
    var rankingPosition: Option<nat>
    var playerName: string
    var enteringName: bool
    var gameStats: RunStats

    ghost predicate Valid()
      reads this, save
    {
      save.Valid() && IntStats(save.stats) && 0 <= selectedOption < OptionCount && 0 <= alpha <= Opaque
    }

    function Current(): View
      reads this
    {
      View(enteringName, showHighScores, selectedOption, playerName)
    }

    /** `GameOverScreen.__init__`; the star particles are decoration and not modelled. */
    constructor (width: int, height: int, save: SaveSystem)
      requires save.Valid() && IntStats(save.stats)
      ensures Valid()
      ensures this.width == width && this.height == height && this.save == save
      ensures alpha == 0 && pulse == 0.0 && Current() == View(false, false, 0, "")
      ensures !isNewHighScore && rankingPosition == None && gameStats == RunStats(0, 0, 0, 0, 0)
    {
      this.width := width;
      this.height := height;
      this.save := save;
      alpha := 0;
      pulse := 0.0;
      selectedOption := 0;
      showHighScores := false;
      isNewHighScore := false;
      rankingPosition := None;
      playerName := "";
      enteringName := false;
      gameStats := RunStats(0, 0, 0, 0, 0);
    }

    /** `reset`: clears the animation and the menu, keeps the run's figures, asks for a
        name (offering "PLAYER") exactly when the score makes the table, and records the run
        in the statistics, adding the run's level to a record it beats, as written. */
    method Reset(score: int, level: int, kills: int, powerups: int, timePlayed: int)
      requires Valid()
      modifies this`alpha, this`pulse, this`showHighScores, this`selectedOption, this`enteringName
      modifies this`playerName, this`gameStats, this`isNewHighScore, save
      ensures Valid()
      ensures alpha == 0 && pulse == 0.0 && selectedOption == 0 && !showHighScores
      ensures gameStats == RunStats(score, level, kills, powerups, timePlayed)
      ensures isNewHighScore == Survives(old(save.highScores), score)
      ensures enteringName == isNewHighScore && playerName == (if isNewHighScore then DefaultName else "")
      ensures save.stats == ResetStats(old(save.stats), level, kills, powerups, timePlayed)
      ensures save.highScores == old(save.highScores) && save.settings == old(save.settings)
      ensures save.unlocks == old(save.unlocks) && save.coins == old(save.coins) && save.upgrades == old(save.upgrades)
    {
      var high := save.IsHighScore(score);
      ClearView(RunStats(score, level, kills, powerups, timePlayed), high);
      RecordRun(save, level, kills, powerups, timePlayed);
    }

    /** The assignments at the start of `reset`, with `is_high_score` already asked. */
    method ClearView(run: RunStats, high: bool)
      modifies this`alpha, this`pulse, this`showHighScores, this`selectedOption, this`enteringName
      modifies this`playerName, this`gameStats, this`isNewHighScore
      ensures alpha == 0 && pulse == 0.0 && selectedOption == 0 && !showHighScores
      ensures gameStats == run && isNewHighScore == high
      ensures enteringName == high && playerName == (if high then DefaultName else "")
    {
      alpha := 0;
      pulse := 0.0;
      showHighScores := false;
      selectedOption := 0;
      enteringName := false;
      playerName := "";
      gameStats := run;
      isNewHighScore := high;
      if isNewHighScore {
        enteringName := true;
        playerName := DefaultName;
      }
    }

    /** `get_selected_action`. */
    method GetSelectedAction() returns (action: Option<Action>)
      requires Valid()
      modifies this`showHighScores
      ensures Valid()
      ensures Current() == SelectedAction(old(Current())).view && action == SelectedAction(old(Current())).action
    {
      action := None;
      if selectedOption == 0 {
        action := Some(Retry);
      } else if selectedOption == 1 {
        showHighScores := true;
      } else if selectedOption == 2 {
        action := Some(BackToMenu);
      }
    }

    /** `handle_event`. ENTER during name entry stores the score under the typed name (or
        "PLAYER") with the time `date`, and remembers the rank the table reports. */
    method HandleEvent(e: Event, date: string) returns (action: Option<Action>)
      requires Valid()
      modifies this`playerName, this`enteringName, this`showHighScores, this`selectedOption
      modifies this`rankingPosition, save
      ensures Valid()
      ensures Current() == Step(old(Current()), e).view && action == Step(old(Current()), e).action
      ensures Records(old(Current()), e) ==>
        var entry := HighScore(gameStats.score, gameStats.level, RecordedName(old(playerName)), date);
        && save.highScores == AddedTable(old(save.highScores), entry)
        && rankingPosition == FirstMatch(save.highScores, entry.score, entry.playerName, date)
      ensures !Records(old(Current()), e) ==> save.highScores == old(save.highScores) && rankingPosition == old(rankingPosition)
      ensures save.stats == old(save.stats) && save.settings == old(save.settings) && save.unlocks == old(save.unlocks)
      ensures save.coins == old(save.coins) && save.upgrades == old(save.upgrades)
    {
      action := None;
      if enteringName {
        HandleNameEntry(e, date);
      } else if showHighScores {
        if e.KeyDown? && e.key in {Escape, Enter, Space} {
          showHighScores := false;
        }
      } else {
        action := HandleMenu(e);
      }
    }

    /** The name-entry branch of `handle_event`. */
    method HandleNameEntry(e: Event, date: string)
      requires Valid() && enteringName
      modifies this`playerName, this`enteringName, this`showHighScores, this`rankingPosition, save
      ensures Valid()
      ensures Current() == Step(old(Current()), e).view
      ensures Records(old(Current()), e) ==>
        var entry := HighScore(gameStats.score, gameStats.level, RecordedName(old(playerName)), date);
        && save.highScores == AddedTable(old(save.highScores), entry)
        && rankingPosition == FirstMatch(save.highScores, entry.score, entry.playerName, date)
      ensures !Records(old(Current()), e) ==> save.highScores == old(save.highScores) && rankingPosition == old(rankingPosition)
      ensures save.stats == old(save.stats) && save.settings == old(save.settings) && save.unlocks == old(save.unlocks)
      ensures save.coins == old(save.coins) && save.upgrades == old(save.upgrades)
    {
      if e.KeyDown? {
        if e.key == Enter {
          ConfirmName(date);
        } else if e.key == Backspace {
          playerName := DropLast(playerName);
        } else if e.key == Escape {
          enteringName := false;
        } else if |playerName| < MaxNameLength && Printable(e.unicode) {
          playerName := playerName + Upper(e.unicode);
        }
      }
    }

    /** ENTER during name entry: store the score, leave entry and show the table. */
    method ConfirmName(date: string)
      requires Valid()
      modifies this`enteringName, this`showHighScores, this`rankingPosition, save
      ensures Valid() && !enteringName && showHighScores
      ensures var entry := HighScore(gameStats.score, gameStats.level, RecordedName(playerName), date);
        && save.highScores == AddedTable(old(save.highScores), entry)
        && rankingPosition == FirstMatch(save.highScores, entry.score, entry.playerName, date)
      ensures save.stats == old(save.stats) && save.settings == old(save.settings) && save.unlocks == old(save.unlocks)
      ensures save.coins == old(save.coins) && save.upgrades == old(save.upgrades)
    {
      rankingPosition := RecordScore(save, gameStats, RecordedName(playerName), date);
      enteringName := false;
      showHighScores := true;
    }

    /** The menu branch of `handle_event`. */
    method HandleMenu(e: Event) returns (action: Option<Action>)
      requires Valid() && !enteringName && !showHighScores
      modifies this`selectedOption, this`showHighScores
      ensures Valid()
      ensures Current() == Step(old(Current()), e).view && action == Step(old(Current()), e).action
    {
      action := None;
      if e.KeyDown? {
        if IsUp(e.key) {
          selectedOption := (selectedOption - 1) % OptionCount;
        } else if IsDown(e.key) {
          selectedOption := (selectedOption + 1) % OptionCount;
        } else if IsConfirm(e.key) {
          action := GetSelectedAction();
        }
      }
    }

    /** `update`: one frame of fading in; the pulse phase advances by three per second. The
        star particles are decoration and not modelled. */
    method Update(dt: real)
      requires Valid()
      modifies this`alpha, this`pulse
      ensures Valid()
      ensures alpha == FadeStep(old(alpha)) && pulse == old(pulse) + dt * 3.0
    {
      if alpha < Opaque {
        alpha := MinI(Opaque, alpha + FadeSpeed);
      }
      pulse := pulse + dt * 3.0;
    }
  }
}
