/** The screen where the player picks one of the four game modes before a run. */
module ModeSelection {
  import opened Common
  import opened Input
  import opened GameModes

  /** What `handle_event` returns: a mode, or `"back"` for ESC. */
  datatype Choice = Picked(mode: GameMode) | Back

  class ModeSelectionMenu {
    const width: int
    const height: int
    /** `GameModeConfig.get_all_modes()`, in its order. */
    const modes: seq<GameMode>
    var selectedMode: int

    ghost predicate Valid()
      reads this
    {
      modes == AllModes() && 0 <= selectedMode < |modes|
    }

    /** `ModeSelectionMenu.__init__`: the first mode, arcade, is selected. */
    constructor (width: int, height: int)
      ensures Valid()
      ensures this.width == width && this.height == height
      ensures selectedMode == 0 && modes[selectedMode] == Arcade
    {
      this.width := width;
      this.height := height;
      modes := AllModes();
      selectedMode := 0;
    }

    /** `handle_event`: UP/W and DOWN/S move through the modes cyclically and return nothing;
        ENTER/SPACE return the selected mode; ESC returns `Back`; any other event returns
        nothing and keeps the selection. */
    method HandleEvent(e: Event) returns (choice: Option<Choice>)
      requires Valid()
      modifies this
      ensures Valid()
      ensures e.KeyDown? && IsUp(e.key) ==> selectedMode == Wrap(old(selectedMode) - 1, |modes|)
      ensures e.KeyDown? && IsDown(e.key) ==> selectedMode == Wrap(old(selectedMode) + 1, |modes|)
      ensures !(e.KeyDown? && (IsUp(e.key) || IsDown(e.key))) ==> selectedMode == old(selectedMode)
      ensures choice.Some? <==> e.KeyDown? && (IsConfirm(e.key) || e.key == Escape)
      ensures e.KeyDown? && IsConfirm(e.key) ==> choice == Some(Picked(modes[old(selectedMode)]))
      ensures e.KeyDown? && e.key == Escape ==> choice == Some(Back)
    {
      choice := None;
      if e.KeyDown? {
        if IsUp(e.key) {
          selectedMode := (selectedMode - 1) % |modes|;
        } else if IsDown(e.key) {
          selectedMode := (selectedMode + 1) % |modes|;
        } else if IsConfirm(e.key) {
          choice := Some(Picked(modes[selectedMode]));
        } else if e.key == Escape {
          choice := Some(Back);
        }
      }
    }
  }

  /** The selection after `k` DOWN presses starting from `sel`. */
  function DownTimes(sel: int, k: nat): (r: int)
    requires 0 <= sel < 4
    ensures 0 <= r < 4
  {
    if k == 0 then sel else Wrap(DownTimes(sel, k - 1) + 1, 4)
  }

  /** `k` DOWN presses advance the selection by `k` places round the list. */
  lemma {:induction false} DownTimesAdvance(sel: int, k: nat)
    requires 0 <= sel < 4
    ensures DownTimes(sel, k) == Wrap(sel + k, 4)
  {
    if k == 0 {
    } else {
      DownTimesAdvance(sel, k - 1);
      var d := DownTimes(sel, k - 1);
      var q := (sel + k - 1) / 4;
      assert sel + k - 1 == q * 4 + d;
      if d < 3 {
        DivModUnique(sel + k, 4, q, d + 1);
      } else {
        DivModUnique(d + 1, 4, 1, 0);
        DivModUnique(sel + k, 4, q + 1, 0);
      }
    }
  }

  /** Four DOWN presses go all the way round, and from the first mode the `k`-th press
      selects the `k`-th mode of the list, so every mode can be picked. */
  lemma EveryModeReachable(sel: int, k: nat)
    requires 0 <= sel < 4 && k < 4
    ensures DownTimes(sel, 4) == sel
    ensures AllModes()[DownTimes(0, k)] == AllModes()[k]
  {
    DownTimesAdvance(sel, 4);
    DivModUnique(sel + 4, 4, 1, sel);
    DownTimesAdvance(0, k);
  }
}
