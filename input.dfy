/** Keyboard events as the menus and screens receive them from pygame. */
module Input {
  import opened Common

  /** The keys the game reacts to; every other key is `OtherKey`. Letter keys are named by
      their lower-case letter, as pygame's `K_a`, `K_w`, ... constants are. */
  datatype Key =
    | Up | Down | Left | Right
    | Enter | Space | Escape | Backspace | Tab
    | Minus | Plus | Equals | LeftCtrl | RightCtrl
    | Letter(c: char)
    | OtherKey(code: int)

  /** A pygame event: a key press with the text it types, the window's close request, or
      anything else (mouse motion, key release, ...). */
  datatype Event =
    | KeyDown(key: Key, unicode: string)
    | Quit
    | OtherEvent

  // ---------------------------------------------------------------------------
  // The keys the menus share, and moving through a cyclic list
  // ---------------------------------------------------------------------------

  /** UP or W, DOWN or S, LEFT or A, RIGHT or D, ENTER or SPACE, as every menu reads them. */
  predicate IsUp(k: Key) { k == Up || k == Letter('w') }
  predicate IsDown(k: Key) { k == Down || k == Letter('s') }
  predicate IsLeft(k: Key) { k == Left || k == Letter('a') }
  predicate IsRight(k: Key) { k == Right || k == Letter('d') }
  predicate IsConfirm(k: Key) { k == Enter || k == Space }

  /** `(i) % n` with Python's floored remainder, which for a positive `n` is Dafny's. */
  function Wrap(i: int, n: int): (r: int)
    requires n > 0
    ensures 0 <= r < n
    ensures 0 <= i < n ==> r == i
  {
    i % n
  }

  /** Stepping back and then forward (or forward and then back) in a cyclic list of `n`
      entries returns to the entry one started from. */
  lemma WrapRoundTrip(i: int, n: int)
    requires 0 <= i < n
    ensures Wrap(Wrap(i - 1, n) + 1, n) == i
    ensures Wrap(Wrap(i + 1, n) - 1, n) == i
  {
    if i == 0 {
      DivModUnique(-1, n, -1, n - 1);
      DivModUnique(n, n, 1, 0);
    } else {
      assert Wrap(i - 1, n) == i - 1;
    }
    if i == n - 1 {
      DivModUnique(n, n, 1, 0);
      DivModUnique(-1, n, -1, n - 1);
    } else {
      assert Wrap(i + 1, n) == i + 1;
    }
  }
}
