/** The advanced settings menu (`settings_menu.py`): seven options (two volume sliders, the
    resolution and particle-quality lists, three toggles) loaded from the save's settings,
    changed with Left and Right and written back to the save after every change. These seven
    ids are exactly the keys of the save's settings, so, unlike the other systems, every
    write here is stored. */
module SettingsMenus {
  import opened Common
  import opened Input
  import SaveSystem

  type Value = SaveSystem.Value

  /** How an option's value changes: a clamped numeric slider, a boolean toggle, or a cyclic
      choice from a list of values. */
  datatype Kind =
    | Slider(lo: real, hi: real, step: real)
    | Toggle
    | Choice(values: seq<Value>)

  /** A resolution as the settings hold it (a two-element list). */
  function Res(w: int, h: int): Value
  {
    SaveSystem.List([SaveSystem.Int(w), SaveSystem.Int(h)])
  }

  const Resolutions: seq<Value> := [Res(800, 600), Res(1024, 768), Res(1280, 720), Res(1366, 768), Res(1920, 1080)]

  const Qualities: seq<Value> :=
    [SaveSystem.Text("baixa"), SaveSystem.Text("média"), SaveSystem.Text("alta"), SaveSystem.Text("ultra")]

  const VolumeSlider := Slider(0.0, 1.0, 0.05)

  /** The option ids in menu order (display names and formatters are left out). */
  const Ids: seq<string> :=
    ["music_volume", "sfx_volume", "resolution", "fullscreen", "show_fps", "particle_quality", "screen_shake"]

  const SliderIds: set<string> := {"music_volume", "sfx_volume"}

  /** The type of each option. */
  function KindOf(id: string): (k: Kind)
    ensures k.Slider? <==> id in SliderIds
    ensures k.Choice? ==> k.values != []
  {
    if id == "music_volume" || id == "sfx_volume" then VolumeSlider
    else if id == "resolution" then Choice(Resolutions)
    else if id == "particle_quality" then Choice(Qualities)
    else Toggle
  }

  /** Every option id is a key of the save's settings. */
  lemma IdsAreKeys()
    ensures forall j :: 0 <= j < |Ids| ==> Ids[j] in SaveSystem.SettingKeys
  {
  }

  /** Every key of the save's settings is an option id. */
  lemma KeysAreIds()
    ensures forall k :: k in SaveSystem.SettingKeys ==> k in Ids
  {
  }

  lemma CoversSettingKeys(m: map<string, Value>)
    requires forall j :: 0 <= j < |Ids| ==> Ids[j] in m
    ensures SaveSystem.SettingKeys <= m.Keys
  {
    KeysAreIds();
    forall k | k in SaveSystem.SettingKeys
      ensures k in m
    {
      var j :| 0 <= j < |Ids| && Ids[j] == k;
    }
  }

  lemma AgreeOnIds(a: map<string, Value>, b: map<string, Value>)
    requires a.Keys == SaveSystem.SettingKeys && b.Keys == SaveSystem.SettingKeys
    requires forall j :: 0 <= j < |Ids| ==> a[Ids[j]] == b[Ids[j]]
    ensures a == b
  {
    KeysAreIds();
    forall k | k in a
      ensures a[k] == b[k]
    {
      var j :| 0 <= j < |Ids| && Ids[j] == k;
    }
  }

  /** The default `load_settings` passes for each option when the key is missing. */
  function DefaultFor(id: string): Value
  {
    if id == "resolution" then Res(800, 600)
    else if id == "particle_quality" then SaveSystem.Text("alta")
    else if id == "screen_shake" then SaveSystem.Bool(true)
    else if id == "music_volume" then SaveSystem.Float(0.3)
    else if id == "sfx_volume" then SaveSystem.Float(0.5)
    else SaveSystem.Bool(false)
  }

  /** Settings the menu can work with: the volumes are numbers, since a slider adds to them. */
  predicate Loadable(m: map<string, Value>)
  {
    forall k :: k in m && k in SliderIds ==> SaveSystem.IsNumber(m[k])
  }

  /** The save's default settings hold numbers for both volumes. */
  lemma DefaultsLoadable()
    ensures Loadable(SaveSystem.DefaultSettings())
  {
  }

  // ---------------------------------------------------------------------------
  // modify_value
  // ---------------------------------------------------------------------------

  /** `round(x, 2)` on exact reals: to the nearest hundredth, halves upwards. */
  function Round2(x: real): (r: real)
    ensures x - 0.005 < r <= x + 0.005
  {
    ((x * 100.0 + 0.5).Floor as real) / 100.0
  }

  /** Rounding a value in [0, 1] stays in [0, 1]. */
  lemma Round2Unit(x: real)
    requires 0.0 <= x <= 1.0
    ensures 0.0 <= Round2(x) <= 1.0
  {
    var n := (x * 100.0 + 0.5).Floor;
    assert 0 <= n <= 100;
  }

  /** The first position of v in values, or 0 when it is absent (`values.index(current) if
      current in values else 0`). */
  function IndexOf<T(==)>(values: seq<T>, v: T): (k: nat)
    ensures v in values ==> k < |values| && values[k] == v && forall j :: 0 <= j < k ==> values[j] != v
    ensures v !in values ==> k == 0
  {
    if values == [] || values[0] == v then 0
    else if v in values[1..] then 1 + IndexOf(values[1..], v)
    else 0
  }

  /** The new value of an option after one step in `direction`. */
  function Modified(kind: Kind, current: Value, direction: int): (r: Value)
    requires kind.Slider? ==> SaveSystem.IsNumber(current)
    requires kind.Choice? ==> kind.values != []
    ensures kind.Slider? ==> r.Float?
    ensures kind.Toggle? ==> r.Bool?
    ensures kind.Choice? ==> r in kind.values
  {
    match kind
    case Slider(lo, hi, step) =>
      SaveSystem.Float(Round2(MaxR(lo, MinR(hi, SaveSystem.NumberValue(current) + step * direction as real))))
    case Toggle => SaveSystem.Bool(!SaveSystem.Truthy(current))
    case Choice(values) => Cycle(values, current, direction)
  }

  /** The list step: from the current value's position (or the first entry when the value
      is not listed) move `direction` places, wrapping around. */
  function Cycle<T(==)>(values: seq<T>, current: T, direction: int): (r: T)
    requires values != []
    ensures r in values
  {
    values[(IndexOf(values, current) + direction) % |values|]
  }

  /** A volume always ends up in [0, 1], whatever it was before. */
  lemma VolumeInRange(current: Value, direction: int)
    requires SaveSystem.IsNumber(current)
    ensures var r := Modified(VolumeSlider, current, direction); 0.0 <= r.f <= 1.0
  {
    var x := SaveSystem.NumberValue(current) + 0.05 * direction as real;
    Round2Unit(MaxR(0.0, MinR(1.0, x)));
  }

  /** Right never lowers a volume in [0, 1] and Left never raises it. */
  lemma VolumeMovesWithDirection(current: Value)
    requires SaveSystem.IsNumber(current) && 0.0 <= SaveSystem.NumberValue(current) <= 1.0
    ensures Modified(VolumeSlider, current, 1).f >= SaveSystem.NumberValue(current)
    ensures Modified(VolumeSlider, current, -1).f <= SaveSystem.NumberValue(current)
  {
    var c := SaveSystem.NumberValue(current);
    assert Round2(1.0) == 1.0;
    assert Round2(0.0) == 0.0;
    assert 0.05 * (1 as real) == 0.05 && 0.05 * (-1 as real) == -0.05;
  }

  /** Toggling twice gives the original truth value back. */
  lemma ToggleTwice(current: Value, d1: int, d2: int)
    ensures Modified(Toggle, Modified(Toggle, current, d1), d2) == SaveSystem.Bool(SaveSystem.Truthy(current))
  {
  }

  /** In a list without repeats, Right then Left returns to the value it started from. */
  lemma ChoiceRoundTrip<T>(values: seq<T>, current: T)
    requires current in values
    requires forall i, j :: 0 <= i < j < |values| ==> values[i] != values[j]
    ensures Cycle(values, Cycle(values, current, 1), -1) == current
  {
    var n := |values|;
    var k := IndexOf(values, current);
    var next := (k + 1) % n;
    if k + 1 < n {
      DivModUnique(k + 1, n, 0, k + 1);
      DivModUnique(k, n, 0, k);
    } else {
      DivModUnique(n, n, 1, 0);
      DivModUnique(-1, n, -1, n - 1);
    }
    assert IndexOf(values, values[next]) == next;
  }

  // ---------------------------------------------------------------------------
  // The menu
  // ---------------------------------------------------------------------------

  datatype Outcome = Navigate | Change | Exit

  class SettingsMenu {
    const save: SaveSystem.SaveSystem
    var selectedOption: int
    var animationFrame: real
    var currentValues: map<string, Value>

    /** Every option has a usable value and the selection is an option. */
    ghost predicate Valid()
      reads this, save
    {
      save.Valid() && Loadable(save.settings)
      && currentValues.Keys == SaveSystem.SettingKeys && Loadable(currentValues)
      && 0 <= selectedOption < |Ids|
    }

    constructor (save: SaveSystem.SaveSystem)
      requires save.Valid() && Loadable(save.settings)
      ensures this.save == save && Valid()
      ensures selectedOption == 0 && animationFrame == 0.0 && currentValues == save.settings
    {
      this.save := save;
      selectedOption := 0;
      animationFrame := 0.0;
      currentValues := map[];
      new;
      LoadSettings();
    }

    /** `load_settings`: each option's value is read from the settings, with its default
        when missing; since the save holds all seven keys, the menu ends up with exactly the
        saved settings. */
    method LoadSettings()
      requires save.Valid() && Loadable(save.settings)
      modifies this`currentValues
      ensures forall id :: id in Ids ==> id in currentValues && currentValues[id] == save.GetSetting(id, DefaultFor(id))
      ensures currentValues == save.settings
    {
      IdsAreKeys();
      var loaded: map<string, Value> := map[];
      for i := 0 to |Ids|
        invariant forall j :: 0 <= j < i ==> Ids[j] in loaded
        invariant forall k :: k in loaded ==> k in save.settings && loaded[k] == save.settings[k]
      {
        var id := Ids[i];
        loaded := loaded[id := save.GetSetting(id, DefaultFor(id))];
      }
      CoversSettingKeys(loaded);
      assert loaded.Keys == save.settings.Keys;
      currentValues := loaded;
    }

    /** `save_settings`: every option's value is written to its setting. */
    method SaveSettings()
      requires save.Valid() && currentValues.Keys == SaveSystem.SettingKeys
      modifies save
      ensures save.Valid() && save.settings == currentValues
      ensures save.highScores == old(save.highScores) && save.stats == old(save.stats)
      ensures save.unlocks == old(save.unlocks) && save.coins == old(save.coins) && save.upgrades == old(save.upgrades)
    {
      IdsAreKeys();
      for i := 0 to |Ids|
        invariant save.Valid()
        invariant forall j :: 0 <= j < i ==> save.settings[Ids[j]] == currentValues[Ids[j]]
        invariant save.highScores == old(save.highScores) && save.stats == old(save.stats)
        invariant save.unlocks == old(save.unlocks) && save.coins == old(save.coins) && save.upgrades == old(save.upgrades)
      {
        var id := Ids[i];
        save.UpdateSetting(id, currentValues[id]);
      }
      AgreeOnIds(save.settings, currentValues);
    }

    /** `modify_value`: the option's value takes one step in `direction` and all values are
        saved (`apply_setting` does nothing). */
    method ModifyValue(index: int, direction: int)
      requires Valid() && 0 <= index < |Ids|
      modifies this`currentValues, save
      ensures Valid()
      ensures var id := Ids[index];
        currentValues == old(currentValues)[id := Modified(KindOf(id), old(currentValues[id]), direction)]
      ensures save.settings == currentValues
    {
      IdsAreKeys();
      var id := Ids[index];
      var current := currentValues[id];
      currentValues := currentValues[id := Modified(KindOf(id), current, direction)];
      SaveSettings();
    }

    /** `handle_input`: Up and Down move the selection cyclically, Left and Right change
        the selected option, Escape and Enter leave; anything else is ignored. */
    method HandleInput(event: Event) returns (outcome: Option<Outcome>)
      requires Valid()
      modifies this`selectedOption, this`currentValues, save
      ensures Valid()
      ensures event.KeyDown? && event.key == Up ==>
        outcome == Some(Navigate) && selectedOption == (old(selectedOption) - 1) % |Ids|
      ensures event.KeyDown? && event.key == Down ==>
        outcome == Some(Navigate) && selectedOption == (old(selectedOption) + 1) % |Ids|
      ensures event.KeyDown? && (event.key == Left || event.key == Right) ==>
        var id := Ids[old(selectedOption)];
        var d := if event.key == Left then -1 else 1;
        outcome == Some(Change) && selectedOption == old(selectedOption)
        && currentValues == old(currentValues)[id := Modified(KindOf(id), old(currentValues[id]), d)]
      ensures event.KeyDown? && (event.key == Escape || event.key == Enter) ==> outcome == Some(Exit)
      ensures !(event.KeyDown? && event.key in {Up, Down, Left, Right, Escape, Enter}) ==>
        outcome == None && unchanged(this) && unchanged(save)
    {
      outcome := None;
      if event.KeyDown? {
        if event.key == Up {
          selectedOption := (selectedOption - 1) % |Ids|;
          outcome := Some(Navigate);
        } else if event.key == Down {
          selectedOption := (selectedOption + 1) % |Ids|;
          outcome := Some(Navigate);
        } else if event.key == Left {
          ModifyValue(selectedOption, -1);
          outcome := Some(Change);
        } else if event.key == Right {
          ModifyValue(selectedOption, 1);
          outcome := Some(Change);
        } else if event.key == Escape || event.key == Enter {
          outcome := Some(Exit);
        }
      }
    }
  }

  /** Up followed by Down selects the option selected before. */
  lemma NavigateRoundTrip(selected: int)
    requires 0 <= selected < |Ids|
    ensures (((selected - 1) % |Ids|) + 1) % |Ids| == selected
  {
  }
}
