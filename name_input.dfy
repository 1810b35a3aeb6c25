/** The dialog that asks the player for a leaderboard name: letters, digits and spaces up to
    twelve characters, ENTER to confirm a non-blank name, ESC to give up with "Player". */
module NameInput {
  import opened Common
  import opened Input

  const MaxLength := 12
  const FallbackName := "Player"

  /** Seconds between two blinks of the cursor. */
  const BlinkInterval: real := 0.5

  /** The dialog box is 500 by 300 pixels, centred on the screen. */
  const DialogWidth := 500
  const DialogHeight := 300

  // ---------------------------------------------------------------------------
  // Characters and `str.strip()`
  // ---------------------------------------------------------------------------

  /** The whitespace `str.strip()` removes, restricted to ASCII. */
  predicate IsSpace(c: char)
  {
    c == ' ' || c == '\t' || c == '\n' || c == '\r' || c == '\U{B}' || c == '\U{C}'
    || '\U{1C}' <= c <= '\U{1F}'
  }

  /** `str.isalnum()` for one character, restricted to ASCII letters and digits. */
  predicate IsAlnumChar(c: char)
  {
    ('a' <= c <= 'z') || ('A' <= c <= 'Z') || ('0' <= c <= '9')
  }

  /** `char.isalnum() or char == ' '`: `isalnum` is false for the empty string. */
  predicate Accepted(text: string)
  {
    (|text| > 0 && forall i :: 0 <= i < |text| ==> IsAlnumChar(text[i])) || text == " "
  }

  /** A name built only from accepted characters. */
  predicate Clean(name: string)
  {
    forall i :: 0 <= i < |name| ==> IsAlnumChar(name[i]) || name[i] == ' '
  }

  /** `s.lstrip()`. */
  function StripStart(s: string): (r: string)
    ensures |r| <= |s| && r == s[|s| - |r|..]
    ensures r != [] ==> !IsSpace(r[0])
    ensures forall i :: 0 <= i < |s| - |r| ==> IsSpace(s[i])
  {
    if s != [] && IsSpace(s[0]) then StripStart(s[1..]) else s
  }

  /** `s.rstrip()`. */
  function StripEnd(s: string): (r: string)
    ensures |r| <= |s| && r == s[..|r|]
    ensures r != [] ==> !IsSpace(r[|r| - 1])
    ensures forall i :: |r| <= i < |s| ==> IsSpace(s[i])
  {
    if s != [] && IsSpace(s[|s| - 1]) then StripEnd(s[..|s| - 1]) else s
  }

  /** `s.strip()`. */
  function Strip(s: string): (r: string)
  {
    StripEnd(StripStart(s))
  }

  /** The stripped name has no whitespace at either end. */
  lemma StripEnds(s: string)
    ensures var r := Strip(s); r != [] ==> !IsSpace(r[0]) && !IsSpace(r[|r| - 1])
  {
    var t := StripStart(s);
    var r := StripEnd(t);
    if r != [] {
      assert r[0] == t[0];
    }
  }

  /** The stripped name is the piece of the name that starts where the leading whitespace
      ends. */
  lemma StripSlice(s: string)
    ensures var r := Strip(s); var i := |s| - |StripStart(s)|;
      i + |r| <= |s| && r == s[i..i + |r|]
  {
    var t := StripStart(s);
    var r := StripEnd(t);
    var i := |s| - |t|;
    assert t == s[i..];
    assert s[i..][..|r|] == s[i..i + |r|];
  }

  /** Trailing whitespace cannot eat a first character that is not whitespace. */
  lemma {:induction false} StripEndKeepsFirst(t: string)
    requires t != [] && !IsSpace(t[0])
    ensures StripEnd(t) != []
    decreases |t|
  {
    if IsSpace(t[|t| - 1]) {
      assert |t| > 1;
      StripEndKeepsFirst(t[..|t| - 1]);
    }
  }

  /** A name strips to nothing exactly when it is all whitespace. */
  lemma StripEmpty(s: string)
    ensures Strip(s) == [] <==> forall i :: 0 <= i < |s| ==> IsSpace(s[i])
  {
    var t := StripStart(s);
    if t != [] {
      StripEndKeepsFirst(t);
      assert s[|s| - |t|] == t[0];
    }
  }

  /** Stripping twice is stripping once. */
  lemma StripIdempotent(s: string)
    ensures Strip(Strip(s)) == Strip(s)
  {
    var r := Strip(s);
    if r != [] {
      assert !IsSpace(r[0]) && !IsSpace(r[|r| - 1]) by { StripEnds(s); }
      assert StripStart(r) == r;
      assert StripEnd(r) == r;
    }
  }

  // ---------------------------------------------------------------------------
  // The dialog's reaction to one event
  // ---------------------------------------------------------------------------

  /** The fields `handle_event` reads and writes. */
  datatype Entry = Entry(active: bool, name: string)

  /** The new fields and the returned name. */
  datatype Answer = Answer(entry: Entry, result: Option<string>)

  /** `handle_event`. */
  function Respond(s: Entry, e: Event): (r: Answer)
    ensures r.result.Some? ==> s.active && !r.entry.active
    ensures r.entry.active ==> s.active
  {
    if !s.active || !e.KeyDown? then Answer(s, None)
    else if e.key == Enter then
      (if |Strip(s.name)| > 0 then Answer(s.(active := false), Some(Strip(s.name))) else Answer(s, None))
    else if e.key == Escape then Answer(s.(active := false), Some(FallbackName))
    else if e.key == Backspace then Answer(s.(name := DropLast(s.name)), None)
    else if |s.name| < MaxLength && Accepted(e.unicode) then Answer(s.(name := s.name + e.unicode), None)
    else Answer(s, None)
  }

  /** An inactive dialog ignores every event. */
  lemma InactiveIgnores(s: Entry, e: Event)
    requires !s.active
    ensures Respond(s, e) == Answer(s, None)
  {
  }

  /** ENTER returns the stripped name and closes the dialog when that name is not blank, and
      otherwise keeps the dialog open and returns nothing; the returned name never starts or
      ends with whitespace. */
  lemma ConfirmReturnsStrippedName(s: Entry, u: string)
    requires s.active
    ensures var r := Respond(s, KeyDown(Enter, u));
      && (r.result.Some? <==> exists i :: 0 <= i < |s.name| && !IsSpace(s.name[i]))
      && (r.result.Some? ==>
            (&& r.result.value == Strip(s.name) && r.result.value != []
             && !IsSpace(r.result.value[0]) && !IsSpace(r.result.value[|r.result.value| - 1])
             && r.entry == s.(active := false)))
      && (r.result.None? ==> r.entry == s)
  {
    StripEmpty(s.name);
    StripEnds(s.name);
  }

  /** ESC closes the dialog and returns "Player", whatever was typed. */
  lemma EscapeGivesFallback(s: Entry, u: string)
    requires s.active
    ensures Respond(s, KeyDown(Escape, u)) == Answer(s.(active := false), Some(FallbackName))
  {
  }

  /** While the dialog is open, a name of accepted characters within the limit stays so,
      provided each key types at most one character. */
  lemma NameStaysClean(s: Entry, e: Event)
    requires Clean(s.name) && |s.name| <= MaxLength
    requires e.KeyDown? ==> |e.unicode| <= 1
    ensures Clean(Respond(s, e).entry.name) && |Respond(s, e).entry.name| <= MaxLength
  {
    var r := Respond(s, e).entry.name;
    if s.active && e.KeyDown? && e.key == Backspace && s.name != [] {
      assert r == s.name[..|s.name| - 1];
    }
  }

  /** Typing an accepted character and then BACKSPACE gives back the name typed so far. */
  lemma BackspaceUndoes(s: Entry, k: Key, c: char, u: string)
    requires s.active && |s.name| < MaxLength && (IsAlnumChar(c) || c == ' ')
    requires k != Enter && k != Escape && k != Backspace
    ensures Respond(s, KeyDown(k, [c])).entry.name == s.name + [c]
    ensures Respond(Respond(s, KeyDown(k, [c])).entry, KeyDown(Backspace, u)).entry == s
  {
    var t := Respond(s, KeyDown(k, [c])).entry;
    assert t.name == s.name + [c];
    assert DropLast(t.name) == s.name;
  }

  /** The starting name is made of accepted characters. */
  lemma FallbackIsClean()
    ensures Clean(FallbackName) && |FallbackName| <= MaxLength
  {
  }

  // ---------------------------------------------------------------------------
  // The dialog object
  // ---------------------------------------------------------------------------

  class NameInputDialog {
    const width: int
    const height: int
    const dialogX: int
    const dialogY: int
    var active: bool
    var name: string
    var cursorVisible: bool
    var cursorTimer: real

    function Current(): Entry
      reads this
    {
      Entry(active, name)
    }

    /** `NameInputDialog.__init__`: closed, with the default name and a visible cursor; the
        box is centred (`//` floors, as Dafny's `/` does for a positive divisor). */
    constructor (width: int, height: int, defaultName: string)
      ensures this.width == width && this.height == height
      ensures !active && name == defaultName && cursorVisible && cursorTimer == 0.0
      ensures 2 * dialogX <= width - DialogWidth < 2 * dialogX + 2
      ensures 2 * dialogY <= height - DialogHeight < 2 * dialogY + 2
    {
      this.width := width;
      this.height := height;
      active := false;
      name := defaultName;
      cursorVisible := true;
      cursorTimer := 0.0;
      dialogX := (width - DialogWidth) / 2;
      dialogY := (height - DialogHeight) / 2;
    }

    /** `activate`: opens with the given name and a freshly shown cursor. */
    method Activate(initialName: string)
      modifies this
      ensures active && name == initialName && cursorVisible && cursorTimer == 0.0
    {
      active := true;
      name := initialName;
      cursorVisible := true;
      cursorTimer := 0.0;
    }

    /** `deactivate`. */
    method Deactivate()
      modifies this`active
      ensures !active
    {
      active := false;
    }

    /** `handle_event`. */
    method HandleEvent(e: Event) returns (result: Option<string>)
      modifies this`active, this`name
      ensures Current() == Respond(old(Current()), e).entry
      ensures result == Respond(old(Current()), e).result
    {
      result := None;
      if !active {
        return;
      }
      if e.KeyDown? {
        if e.key == Enter {
          var stripped := Strip(name);
          if |stripped| > 0 {
            Deactivate();
            result := Some(stripped);
          }
        } else if e.key == Escape {
          Deactivate();
          result := Some(FallbackName);
        } else if e.key == Backspace {
          name := DropLast(name);
        } else if |name| < MaxLength {
          var typed := e.unicode;
          if Accepted(typed) {
            name := name + typed;
          }
        }
      }
    }

    /** `update`: while open, the timer runs; once it reaches half a second the cursor
        blinks and the timer restarts. With non-negative steps the timer stays below half a
        second. */
    method Update(dt: real)
      modifies this`cursorVisible, this`cursorTimer
      ensures !active ==> cursorVisible == old(cursorVisible) && cursorTimer == old(cursorTimer)
      ensures active && old(cursorTimer) + dt >= BlinkInterval ==>
        cursorVisible == !old(cursorVisible) && cursorTimer == 0.0
      ensures active && old(cursorTimer) + dt < BlinkInterval ==>
        cursorVisible == old(cursorVisible) && cursorTimer == old(cursorTimer) + dt
      ensures 0.0 <= old(cursorTimer) < BlinkInterval && dt >= 0.0 ==> 0.0 <= cursorTimer < BlinkInterval
    {
      if !active {
        return;
      }
      cursorTimer := cursorTimer + dt;
      if cursorTimer >= BlinkInterval {
        cursorVisible := !cursorVisible;
        cursorTimer := 0.0;
      }
    }
  }
}
