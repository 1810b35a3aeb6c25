/** The title menu: the main list, a small settings page (volume and resolution) and the
    credits page, driven by key presses. Each handler is specified by a pure reaction on a
    `MenuState` value; the class applies that reaction to its fields and to its audio engine. */
module MenuSystems {
  import opened Common
  import opened Input
  import AudioEngine

  /** Which page `current_menu` names. */
  datatype Screen = MainMenu | SettingsScreen | Credits

  /** What `handle_event` returns to the caller: `"start_game"` or `"quit"`. */
  datatype Command = StartGame | QuitGame

  /** Entries of the main list ("JOGAR", "CONFIGURAÇÕES", "CRÉDITOS", "SAIR") and of the
      settings page ("VOLUME", "RESOLUÇÃO", "VOLTAR"). */
  const MainOptionCount := 4
  const SettingsOptionCount := 3

  /** How much one LEFT/RIGHT press moves the volume, in percent. */
  const VolumeStep := 10

  /** Share of the configured volume the menu music plays at. */
  const MenuVolumeShare: real := 0.25

  // ---------------------------------------------------------------------------
  // The "N%" volume text
  // ---------------------------------------------------------------------------

  /** `s.replace('%', '')`. */
  function StripPercent(s: string): (r: string)
    ensures |r| <= |s|
    ensures forall i :: 0 <= i < |r| ==> r[i] != '%'
  {
    if s == [] then []
    else (if s[0] == '%' then [] else [s[0]]) + StripPercent(s[1..])
  }

  /** Removing a character distributes over concatenation. */
  lemma {:induction false} StripPercentAppend(a: string, b: string)
    ensures StripPercent(a + b) == StripPercent(a) + StripPercent(b)
    decreases |a|
  {
    if a == [] {
      assert a + b == b;
    } else {
      assert (a + b)[0] == a[0] && (a + b)[1..] == a[1..] + b;
      StripPercentAppend(a[1..], b);
    }
  }

  /** A string of digits has no '%' to remove. */
  lemma {:induction false} StripPercentDigits(s: string)
    requires forall i :: 0 <= i < |s| ==> IsDigit(s[i])
    ensures StripPercent(s) == s
    decreases |s|
  {
    if s != [] {
      StripPercentDigits(s[1..]);
    }
  }

  /** `f"{n}%"`. */
  function VolumeText(n: nat): (s: string)
    ensures |s| >= 2 && s[|s| - 1] == '%'
  {
    NatToString(n) + "%"
  }

  /** `int(s.replace('%', ''))` on the texts the menu writes; None where Python's `int` would
      raise. */
  function ReadVolume(s: string): Option<nat>
  {
    ParseNat(StripPercent(s))
  }

  /** Formatting a percentage and reading it back gives the same number. */
  lemma VolumeTextRoundTrip(n: nat)
    ensures ReadVolume(VolumeText(n)) == Some(n)
  {
    var digits := NatToString(n);
    StripPercentAppend(digits, "%");
    StripPercentDigits(digits);
    assert StripPercent("%") == [];
    assert StripPercent(VolumeText(n)) == digits;
    NatToStringRoundTrip(n);
  }

  /** The text the menu starts with reads as 70. */
  lemma InitialVolumeReads()
    ensures ReadVolume("70%") == Some(70)
  {
    assert NatToString(7) == "7";
    assert NatToString(70) == "70";
    assert VolumeText(70) == "70%";
    VolumeTextRoundTrip(70);
  }

  // ---------------------------------------------------------------------------
  // Menu state and the reactions to one event
  // ---------------------------------------------------------------------------

  /** The fields the handlers read and write: `current_menu`, `selected_option`,
      `settings_selected` and `settings_values` (volume text, resolution text). */
  datatype MenuState = MenuState(menu: Screen, selected: int, settingsSelected: int, values: seq<string>)

  /** What an event does: the new state, the returned command, and whether
      `apply_volume_setting` was called. */
  datatype Response = Response(state: MenuState, command: Option<Command>, applyVolume: bool)

  /** Both selections are in their lists and the volume text reads as a percentage. */
  predicate WellFormed(s: MenuState)
  {
    0 <= s.selected < MainOptionCount && 0 <= s.settingsSelected < SettingsOptionCount
    && |s.values| == 2 && ReadVolume(s.values[0]).Some? && ReadVolume(s.values[0]).value <= 100
  }

  /** The configured volume in percent. */
  function Percent(s: MenuState): (p: nat)
    requires WellFormed(s)
    ensures p <= 100
  {
    ReadVolume(s.values[0]).value
  }

  /** Writes `f"{v}%"` into the volume slot. */
  function WithPercent(s: MenuState, v: nat): (t: MenuState)
    requires WellFormed(s) && v <= 100
    ensures WellFormed(t) && Percent(t) == v
    ensures t.values[1] == s.values[1] && t.values[0] == VolumeText(v)
    ensures t.(values := s.values) == s
  {
    VolumeTextRoundTrip(v);
    s.(values := s.values[0 := VolumeText(v)])
  }

  /** Leaving a page for the main list, with the first entry selected. */
  function BackToMain(s: MenuState): MenuState
  {
    s.(menu := MainMenu, selected := 0)
  }

  function Ignore(s: MenuState): Response { Response(s, None, false) }

  /** `handle_main_menu_event`. */
  function MainMenuReaction(s: MenuState, e: Event): (r: Response)
    requires WellFormed(s)
    ensures WellFormed(r.state) && !r.applyVolume
    ensures r.state.values == s.values
    ensures r.command.Some? ==> e.KeyDown? && IsConfirm(e.key)
  {
    if !e.KeyDown? then Ignore(s)
    else if IsUp(e.key) then Ignore(s.(selected := Wrap(s.selected - 1, MainOptionCount)))
    else if IsDown(e.key) then Ignore(s.(selected := Wrap(s.selected + 1, MainOptionCount)))
    else if IsConfirm(e.key) then
      (if s.selected == 0 then Response(s, Some(StartGame), false)
       else if s.selected == 1 then Ignore(s.(menu := SettingsScreen, settingsSelected := 0))
       else if s.selected == 2 then Ignore(s.(menu := Credits))
       else Response(s, Some(QuitGame), false))
    else Ignore(s)
  }

  /** `handle_settings_event`: never returns a command. */
  function SettingsReaction(s: MenuState, e: Event): (r: Response)
    requires WellFormed(s)
    ensures WellFormed(r.state) && r.command == None
    ensures r.state.values[1] == s.values[1]
    ensures r.applyVolume <==> e.KeyDown? && s.settingsSelected == 0 && (IsLeft(e.key) || IsRight(e.key))
  {
    if !e.KeyDown? then Ignore(s)
    else if IsUp(e.key) then Ignore(s.(settingsSelected := Wrap(s.settingsSelected - 1, SettingsOptionCount)))
    else if IsDown(e.key) then Ignore(s.(settingsSelected := Wrap(s.settingsSelected + 1, SettingsOptionCount)))
    else if IsLeft(e.key) then
      (if s.settingsSelected == 0 then Response(WithPercent(s, MaxI(0, Percent(s) - VolumeStep)), None, true)
       else Ignore(s))
    else if IsRight(e.key) then
      (if s.settingsSelected == 0 then Response(WithPercent(s, MinI(100, Percent(s) + VolumeStep)), None, true)
       else Ignore(s))
    else if IsConfirm(e.key) then
      (if s.settingsSelected == 2 then Ignore(BackToMain(s)) else Ignore(s))
    else if e.key == Escape then Ignore(BackToMain(s))
    else Ignore(s)
  }

  /** `handle_credits_event`. */
  function CreditsReaction(s: MenuState, e: Event): (r: Response)
    requires WellFormed(s)
    ensures WellFormed(r.state) && r.command == None && !r.applyVolume
    ensures r.state.values == s.values
  {
    if e.KeyDown? && (e.key == Escape || e.key == Enter) then Ignore(BackToMain(s)) else Ignore(s)
  }

  /** `handle_event`: the page shown decides the handler. */
  function React(s: MenuState, e: Event): (r: Response)
    requires WellFormed(s)
    ensures WellFormed(r.state)
    ensures r.command.Some? ==> s.menu == MainMenu
    ensures r.applyVolume ==> s.menu == SettingsScreen
  {
    match s.menu
    case MainMenu => MainMenuReaction(s, e)
    case SettingsScreen => SettingsReaction(s, e)
    case Credits => CreditsReaction(s, e)
  }

  // ---------------------------------------------------------------------------
  // Properties of the reactions
  // ---------------------------------------------------------------------------

  /** Anything but a key press changes nothing on any page. */
  lemma OtherEventsIgnored(s: MenuState, e: Event)
    requires WellFormed(s) && !e.KeyDown?
    ensures React(s, e) == Response(s, None, false)
  {
  }

  /** UP then DOWN (or DOWN then UP) on the main list leaves the menu as it was. */
  lemma MainUpDown(s: MenuState, u: string, v: string)
    requires WellFormed(s) && s.menu == MainMenu
    ensures React(React(s, KeyDown(Up, u)).state, KeyDown(Down, v)).state == s
    ensures React(React(s, KeyDown(Down, u)).state, KeyDown(Up, v)).state == s
  {
    WrapRoundTrip(s.selected, MainOptionCount);
  }

  /** The same on the settings page, whose list has three entries. */
  lemma SettingsUpDown(s: MenuState, u: string, v: string)
    requires WellFormed(s) && s.menu == SettingsScreen
    ensures React(React(s, KeyDown(Up, u)).state, KeyDown(Down, v)).state == s
    ensures React(React(s, KeyDown(Down, u)).state, KeyDown(Up, v)).state == s
  {
    WrapRoundTrip(s.settingsSelected, SettingsOptionCount);
  }

  /** ENTER on the main list: the first entry starts the game and the last quits; the second
      opens the settings page at its first entry and the third opens the credits. */
  lemma MainConfirm(s: MenuState, e: Event)
    requires WellFormed(s) && s.menu == MainMenu && e.KeyDown? && IsConfirm(e.key)
    ensures React(s, e).command == Some(StartGame) <==> s.selected == 0
    ensures React(s, e).command == Some(QuitGame) <==> s.selected == 3
    ensures React(s, e).state.menu == (if s.selected == 1 then SettingsScreen else if s.selected == 2 then Credits else MainMenu)
    ensures React(s, e).state.settingsSelected == (if s.selected == 1 then 0 else s.settingsSelected)
    ensures React(s, e).state.selected == s.selected
  {
  }

  /** LEFT/RIGHT on the volume entry move it by ten, clamped to [0, 100], and rewrite it in
      the "N%" format; the resolution text is left alone. */
  lemma VolumeKeys(s: MenuState, e: Event)
    requires WellFormed(s) && s.menu == SettingsScreen && s.settingsSelected == 0
    requires e.KeyDown? && (IsLeft(e.key) || IsRight(e.key))
    ensures var t := React(s, e).state;
      && Percent(t) == (if IsLeft(e.key) then MaxI(0, Percent(s) - 10) else MinI(100, Percent(s) + 10))
      && t.values == [VolumeText(Percent(t)), s.values[1]]
      && t.(values := s.values) == s
  {
  }

  /** A step down followed by a step up restores the volume unless the first step was
      clipped at zero, and the other way round at 100. */
  lemma VolumeStepsUndo(s: MenuState, u: string, v: string)
    requires WellFormed(s) && s.menu == SettingsScreen && s.settingsSelected == 0
    ensures Percent(s) >= 10 ==> Percent(React(React(s, KeyDown(Left, u)).state, KeyDown(Right, v)).state) == Percent(s)
    ensures Percent(s) <= 90 ==> Percent(React(React(s, KeyDown(Right, u)).state, KeyDown(Left, v)).state) == Percent(s)
  {
  }

  /** ESC on the settings page, ENTER on its "VOLTAR" entry, and ESC or ENTER on the credits
      page all return to the main list with its first entry selected. */
  lemma ReturnsToMain(s: MenuState, e: Event)
    requires WellFormed(s) && e.KeyDown?
    requires || (s.menu == SettingsScreen && e.key == Escape)
             || (s.menu == SettingsScreen && IsConfirm(e.key) && s.settingsSelected == 2)
             || (s.menu == Credits && (e.key == Escape || e.key == Enter))
    ensures React(s, e) == Response(s.(menu := MainMenu, selected := 0), None, false)
  {
  }

  // ---------------------------------------------------------------------------
  // The menu object
  // ---------------------------------------------------------------------------

  class MenuSystem {
    const width: int
    const height: int
    const audio: AudioEngine.AudioEngine
    var currentMenu: Screen
    var selectedOption: int
    var settingsSelected: int
    var settingsValues: seq<string>

    function State(): MenuState
      reads this
    {
      MenuState(currentMenu, selectedOption, settingsSelected, settingsValues)
    }

    ghost predicate Valid()
      reads this, audio
    {
      WellFormed(State()) && audio.Valid()
    }

    /** `MenuSystem.__init__`: the main list at its first entry, volume "70%", resolution
        "800x600", and a fresh audio engine at a quarter volume with its music started. */
    constructor (width: int, height: int)
      ensures Valid() && fresh(audio)
      ensures this.width == width && this.height == height
      ensures State() == MenuState(MainMenu, 0, 0, ["70%", "800x600"])
      ensures audio.volume == 0.25 && audio.musicRunning
    {
      this.width := width;
      this.height := height;
      currentMenu := MainMenu;
      selectedOption := 0;
      settingsValues := ["70%", "800x600"];
      settingsSelected := 0;
      var engine := new AudioEngine.AudioEngine(22050, 2);
      engine.SetVolume(0.25);
      engine.StartBackgroundMusic();
      audio := engine;
      InitialVolumeReads();
    }

    /** `get_volume_setting`: the configured percentage as a fraction. */
    function VolumeSetting(): (v: real)
      requires WellFormed(State())
      reads this
      ensures 0.0 <= v <= 1.0
      ensures v * 100.0 == Percent(State()) as real
    {
      Percent(State()) as real / 100.0
    }

    /** `apply_volume_setting`: the menu plays at a quarter of the configured volume. */
    method ApplyVolumeSetting()
      requires Valid()
      modifies audio
      ensures Valid()
      ensures audio.volume == VolumeSetting() * MenuVolumeShare
      ensures 0.0 <= audio.volume <= MenuVolumeShare
      ensures audio.musicRunning == old(audio.musicRunning) && audio.currentTrack == old(audio.currentTrack)
    {
      var volume := VolumeSetting();
      audio.SetVolume(volume * MenuVolumeShare);
    }

    /** `handle_main_menu_event`. */
    method HandleMainMenuEvent(e: Event) returns (command: Option<Command>)
      requires Valid()
      modifies this
      ensures Valid()
      ensures State() == MainMenuReaction(old(State()), e).state
      ensures command == MainMenuReaction(old(State()), e).command
    {
      command := None;
      if e.KeyDown? {
        if IsUp(e.key) {
          selectedOption := (selectedOption - 1) % MainOptionCount;
        } else if IsDown(e.key) {
          selectedOption := (selectedOption + 1) % MainOptionCount;
        } else if IsConfirm(e.key) {
          if selectedOption == 0 {
            command := Some(StartGame);
          } else if selectedOption == 1 {
            currentMenu := SettingsScreen;
            settingsSelected := 0;
          } else if selectedOption == 2 {
            currentMenu := Credits;
          } else if selectedOption == 3 {
            command := Some(QuitGame);
          }
        }
      }
    }

    /** One volume press on the settings page: rewrite the text, then apply it. */
    method StepVolume(v: nat)
      requires Valid() && v <= 100
      modifies this`settingsValues, audio
      ensures Valid()
      ensures State() == WithPercent(old(State()), v)
      ensures audio.volume == VolumeSetting() * MenuVolumeShare
      ensures audio.musicRunning == old(audio.musicRunning) && audio.currentTrack == old(audio.currentTrack)
    {
      VolumeTextRoundTrip(v);
      settingsValues := settingsValues[0 := VolumeText(v)];
      ApplyVolumeSetting();
    }

    /** `handle_settings_event`: always returns None. */
    method HandleSettingsEvent(e: Event) returns (command: Option<Command>)
      requires Valid()
      modifies this, audio
      ensures Valid()
      ensures var r := SettingsReaction(old(State()), e);
        State() == r.state && command == r.command
        && (r.applyVolume ==> audio.volume == VolumeSetting() * MenuVolumeShare)
        && (!r.applyVolume ==> audio.volume == old(audio.volume))
      ensures audio.musicRunning == old(audio.musicRunning) && audio.currentTrack == old(audio.currentTrack)
    {
      command := None;
      if e.KeyDown? {
        if IsUp(e.key) {
          settingsSelected := (settingsSelected - 1) % SettingsOptionCount;
        } else if IsDown(e.key) {
          settingsSelected := (settingsSelected + 1) % SettingsOptionCount;
        } else if IsLeft(e.key) {
          if settingsSelected == 0 {
            var current := ReadVolume(settingsValues[0]).value;
            StepVolume(MaxI(0, current - VolumeStep));
          }
        } else if IsRight(e.key) {
          if settingsSelected == 0 {
            var current := ReadVolume(settingsValues[0]).value;
            StepVolume(MinI(100, current + VolumeStep));
          }
        } else if IsConfirm(e.key) {
          if settingsSelected == 2 {
            currentMenu := MainMenu;
            selectedOption := 0;
          }
        } else if e.key == Escape {
          currentMenu := MainMenu;
          selectedOption := 0;
        }
      }
    }

    /** `handle_credits_event`. */
    method HandleCreditsEvent(e: Event) returns (command: Option<Command>)
      requires Valid()
      modifies this
      ensures Valid()
      ensures State() == CreditsReaction(old(State()), e).state && command == None
    {
      command := None;
      if e.KeyDown? && (e.key == Escape || e.key == Enter) {
        currentMenu := MainMenu;
        selectedOption := 0;
      }
    }

    /** `handle_event`. */
    method HandleEvent(e: Event) returns (command: Option<Command>)
      requires Valid()
      modifies this, audio
      ensures Valid()
      ensures var r := React(old(State()), e);
        State() == r.state && command == r.command
        && (r.applyVolume ==> audio.volume == VolumeSetting() * MenuVolumeShare)
        && (!r.applyVolume ==> audio.volume == old(audio.volume))
      ensures audio.musicRunning == old(audio.musicRunning) && audio.currentTrack == old(audio.currentTrack)
    {
      match currentMenu
      case MainMenu =>
        command := HandleMainMenuEvent(e);
      case SettingsScreen =>
        command := HandleSettingsEvent(e);
      case Credits =>
        command := HandleCreditsEvent(e);
    }
  }
}
