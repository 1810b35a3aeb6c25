/** The kill-combo counter: the combo and its multiplier ladder, the milestone screen effects,
    the combo timeout and the floating score texts. */
module ComboSystem {
  import opened Common

  const ComboTimeout: real := 2.0

  /** The multiplier ladder of `add_kill`. */
  function MultiplierFor(combo: int): (m: real)
    ensures 1.0 <= m <= 5.0
  {
    if combo >= 100 then 5.0
    else if combo >= 50 then 4.0
    else if combo >= 25 then 3.0
    else if combo >= 10 then 2.0
    else if combo >= 5 then 1.5
    else 1.0
  }

  /** A longer combo never has a smaller multiplier. */
  lemma MultiplierMonotone(a: int, b: int)
    requires a <= b
    ensures MultiplierFor(a) <= MultiplierFor(b)
  {
  }

  /** The multiplier as the step function of the combo, threshold by threshold. */
  lemma MultiplierSteps(combo: int)
    ensures combo < 5 ==> MultiplierFor(combo) == 1.0
    ensures 5 <= combo < 10 ==> MultiplierFor(combo) == 1.5
    ensures 10 <= combo < 25 ==> MultiplierFor(combo) == 2.0
    ensures 25 <= combo < 50 ==> MultiplierFor(combo) == 3.0
    ensures 50 <= combo < 100 ==> MultiplierFor(combo) == 4.0
    ensures combo >= 100 ==> MultiplierFor(combo) == 5.0
  {
  }

  /** The screen effect a new combo value triggers. */
  datatype Milestone = Gold | Orange | White | NoMilestone

  function MilestoneFor(combo: int): Milestone
  {
    if combo % 50 == 0 then Gold
    else if combo % 25 == 0 then Orange
    else if combo % 10 == 0 then White
    else NoMilestone
  }

  /** Screen shake set by each milestone (none keeps the current shake). */
  function MilestoneShake(m: Milestone): (shake: real)
    requires m != NoMilestone
    ensures shake >= 5.0
  {
    match m
    case Gold => 15.0
    case Orange => 10.0
    case White => 5.0
  }

  function MilestoneFlash(m: Milestone): real
    requires m != NoMilestone
  {
    match m
    case Gold => 0.3
    case Orange => 0.2
    case White => 0.1
  }

  function MilestoneColor(m: Milestone): Color
    requires m != NoMilestone
  {
    match m
    case Gold => Color(255, 215, 0)
    case Orange => Color(255, 140, 0)
    case White => Color(255, 255, 255)
  }

  /** Milestones are checked from the largest period down: a multiple of 50 is gold even though
      it is also a multiple of 25 and of 10; a multiple of 10 that is not one of 25 is white. */
  lemma MilestonePriority(combo: int)
    ensures MilestoneFor(combo) == Gold <==> combo % 50 == 0
    ensures MilestoneFor(combo) == Orange <==> combo % 25 == 0 && combo % 50 != 0
    ensures MilestoneFor(combo) == White <==> combo % 10 == 0 && combo % 25 != 0
    ensures MilestoneFor(combo) == NoMilestone <==> combo % 10 != 0 && combo % 25 != 0
  {
    ModFifty(combo);
  }

  /** Both 10 and 25 divide 50, so `combo % 50` decides `combo % 10` and `combo % 25`. */
  lemma ModFifty(c: int)
    ensures c % 10 == (c % 50) % 10 && c % 25 == (c % 50) % 25
  {
    var a, r := c / 50, c % 50;
    assert c == (5 * a + r / 10) * 10 + r % 10;
    DivModUnique(c, 10, 5 * a + r / 10, r % 10);
    assert c == (2 * a + r / 25) * 25 + r % 25;
    DivModUnique(c, 25, 2 * a + r / 25, r % 25);
  }

  /** `get_combo_color`. */
  function ComboColor(combo: int): Color
  {
    if combo >= 100 then Color(255, 215, 0)
    else if combo >= 50 then Color(255, 0, 255)
    else if combo >= 25 then Color(255, 140, 0)
    else if combo >= 10 then Color(255, 255, 0)
    else if combo >= 5 then Color(0, 255, 255)
    else Color(255, 255, 255)
  }

  datatype FloatingText = FloatingText(text: string, pos: Point, color: Color, alpha: real,
                                       speed: real, scale: real, size: string)

  /** `add_floating_text` builds a text at full opacity, speed 1 and scale 1. */
  function NewText(text: string, pos: Point, color: Color, size: string): FloatingText
  {
    FloatingText(text, pos, color, 255.0, 1.0, 1.0, size)
  }

  /** `speed * dt * 60`, the distance a text rises in one frame. */
  function Rise(speed: real, dt: real): real
  {
    speed * dt * 60.0
  }

  /** One frame of a floating text: it rises, fades by `dt * 200` and grows by `dt * 0.5`. */
  function StepText(t: FloatingText, dt: real): FloatingText
  {
    t.(pos := Point(t.pos.x, t.pos.y - Rise(t.speed, dt)), alpha := t.alpha - dt * 200.0, scale := t.scale + dt * 0.5)
  }

  /** The texts still visible after one frame, in their original order. */
  function StepTexts(texts: seq<FloatingText>, dt: real): (r: seq<FloatingText>)
    ensures |r| <= |texts|
    ensures forall k :: 0 <= k < |r| ==> r[k].alpha > 0.0
  {
    if texts == [] then []
    else
      var rest := StepTexts(texts[..|texts| - 1], dt);
      var t := StepText(texts[|texts| - 1], dt);
      if t.alpha <= 0.0 then rest else rest + [t]
  }

  /** A text survives a frame exactly when its opacity stays positive. */
  lemma {:induction false} StepTextsKeeps(texts: seq<FloatingText>, dt: real, t: FloatingText)
    requires t in texts && StepText(t, dt).alpha > 0.0
    ensures StepText(t, dt) in StepTexts(texts, dt)
    decreases |texts|
  {
    var last := texts[|texts| - 1];
    if t != last {
      assert t in texts[..|texts| - 1];
      StepTextsKeeps(texts[..|texts| - 1], dt, t);
    }
  }

  /** The score text of a kill, `f"+{int(10 * multiplier)}"`. */
  function KillText(multiplier: real): string
  {
    "+" + IntToString(Trunc(10.0 * multiplier))
  }

  /** The loop of `update` over the floating texts: each advances one frame and the faded
      ones are dropped. */
  method AdvanceTexts(texts: seq<FloatingText>, dt: real) returns (kept: seq<FloatingText>)
    ensures kept == StepTexts(texts, dt)
  {
    kept := [];
    var i := 0;
    while i < |texts|
      invariant 0 <= i <= |texts|
      invariant kept == StepTexts(texts[..i], dt)
    {
      var t := StepText(texts[i], dt);
      if t.alpha > 0.0 {
        kept := kept + [t];
      }
      assert texts[..i + 1][..i] == texts[..i];
      i := i + 1;
    }
    assert texts[..i] == texts;
  }

  class Combo {
    var combo: nat
    var maxCombo: nat
    var lastKillTime: real
    var comboTimer: real
    var comboTimeout: real
    var multiplier: real
    var floatingTexts: seq<FloatingText>
    var screenShake: real
    var slowMotionTimer: real
    var flashTimer: real
    var flashColor: Color

    ghost predicate Valid()
      reads this
    {
      combo <= maxCombo && multiplier == MultiplierFor(combo) && comboTimeout == ComboTimeout
      && screenShake >= 0.0
    }

    constructor ()
      ensures Valid()
      ensures combo == 0 && maxCombo == 0 && comboTimer == 0.0 && multiplier == 1.0
      ensures floatingTexts == [] && screenShake == 0.0 && slowMotionTimer == 0.0 && flashTimer == 0.0
    {
      combo := 0;
      maxCombo := 0;
      lastKillTime := 0.0;
      comboTimer := 0.0;
      comboTimeout := ComboTimeout;
      multiplier := 1.0;
      floatingTexts := [];
      screenShake := 0.0;
      slowMotionTimer := 0.0;
      flashTimer := 0.0;
      flashColor := Color(255, 255, 255);
    }

    /** `reset`: clears the combo, its maximum, the timers and the multiplier. The screen
        effects and the floating texts are not touched. */
    method Reset()
      requires Valid()
      modifies this
      ensures Valid()
      ensures combo == 0 && maxCombo == 0 && lastKillTime == 0.0 && comboTimer == 0.0
      ensures comboTimeout == ComboTimeout && multiplier == 1.0
      ensures floatingTexts == old(floatingTexts) && screenShake == old(screenShake)
      ensures slowMotionTimer == old(slowMotionTimer) && flashTimer == old(flashTimer) && flashColor == old(flashColor)
    {
      combo := 0;
      maxCombo := 0;
      lastKillTime := 0.0;
      comboTimer := 0.0;
      comboTimeout := ComboTimeout;
      multiplier := 1.0;
    }

    /** `add_kill`: one more kill in the combo, the multiplier ladder, the milestone effects
        and, when a position is given, the floating texts. */
    method AddKill(currentTime: real, position: Option<Point>)
      requires Valid()
      modifies this
      ensures Valid()
      ensures combo == old(combo) + 1 && maxCombo == MaxI(old(maxCombo), combo)
      ensures lastKillTime == currentTime && comboTimer == comboTimeout
      ensures multiplier == MultiplierFor(combo)
      ensures MilestoneFor(combo) != NoMilestone ==>
        screenShake == MilestoneShake(MilestoneFor(combo)) && flashTimer == MilestoneFlash(MilestoneFor(combo))
        && flashColor == MilestoneColor(MilestoneFor(combo))
      ensures MilestoneFor(combo) == NoMilestone ==>
        screenShake == old(screenShake) && flashTimer == old(flashTimer) && flashColor == old(flashColor)
      ensures slowMotionTimer == (if MilestoneFor(combo) == Gold then 1.0 else old(slowMotionTimer))
      ensures position.None? ==> floatingTexts == old(floatingTexts)
      ensures position.Some? && combo < 5 ==>
        floatingTexts == old(floatingTexts) + [NewText(KillText(multiplier), position.value, Color(255, 255, 255), "medium")]
      ensures position.Some? && combo >= 5 ==>
        floatingTexts == old(floatingTexts) + [NewText(KillText(multiplier), position.value, Color(255, 255, 255), "medium"),
          NewText("x" + IntToString(combo) + " COMBO!", Point(position.value.x, position.value.y - 30.0), ComboColor(combo), "large")]
    {
      combo := combo + 1;
      maxCombo := MaxI(maxCombo, combo);
      lastKillTime := currentTime;
      comboTimer := comboTimeout;
      if combo >= 100 {
        multiplier := 5.0;
      } else if combo >= 50 {
        multiplier := 4.0;
      } else if combo >= 25 {
        multiplier := 3.0;
      } else if combo >= 10 {
        multiplier := 2.0;
      } else if combo >= 5 {
        multiplier := 1.5;
      } else {
        multiplier := 1.0;
      }
      TriggerMilestone();
      AddKillTexts(position);
    }

    /** The milestone effects of `add_kill` for the new combo value. */
    method TriggerMilestone()
      modifies this
      ensures MilestoneFor(combo) != NoMilestone ==>
        screenShake == MilestoneShake(MilestoneFor(combo)) && flashTimer == MilestoneFlash(MilestoneFor(combo))
        && flashColor == MilestoneColor(MilestoneFor(combo))
      ensures MilestoneFor(combo) == NoMilestone ==>
        screenShake == old(screenShake) && flashTimer == old(flashTimer) && flashColor == old(flashColor)
      ensures slowMotionTimer == (if MilestoneFor(combo) == Gold then 1.0 else old(slowMotionTimer))
      ensures combo == old(combo) && maxCombo == old(maxCombo) && lastKillTime == old(lastKillTime)
      ensures comboTimer == old(comboTimer) && comboTimeout == old(comboTimeout) && multiplier == old(multiplier)
      ensures floatingTexts == old(floatingTexts)
    {
      if combo % 50 == 0 {
        slowMotionTimer := 1.0;
        screenShake := 15.0;
        flashTimer := 0.3;
        flashColor := Color(255, 215, 0);
      } else if combo % 25 == 0 {
        screenShake := 10.0;
        flashTimer := 0.2;
        flashColor := Color(255, 140, 0);
      } else if combo % 10 == 0 {
        screenShake := 5.0;
        flashTimer := 0.1;
        flashColor := Color(255, 255, 255);
      }
    }

    /** The floating texts of `add_kill`: the points gained and, from a combo of 5, the combo
        banner 30 pixels above. */
    method AddKillTexts(position: Option<Point>)
      modifies this
      ensures position.None? ==> floatingTexts == old(floatingTexts)
      ensures position.Some? && combo < 5 ==>
        floatingTexts == old(floatingTexts) + [NewText(KillText(multiplier), position.value, Color(255, 255, 255), "medium")]
      ensures position.Some? && combo >= 5 ==>
        floatingTexts == old(floatingTexts) + [NewText(KillText(multiplier), position.value, Color(255, 255, 255), "medium"),
          NewText("x" + IntToString(combo) + " COMBO!", Point(position.value.x, position.value.y - 30.0), ComboColor(combo), "large")]
      ensures combo == old(combo) && maxCombo == old(maxCombo) && lastKillTime == old(lastKillTime)
      ensures comboTimer == old(comboTimer) && comboTimeout == old(comboTimeout) && multiplier == old(multiplier)
      ensures screenShake == old(screenShake) && flashTimer == old(flashTimer) && flashColor == old(flashColor)
      ensures slowMotionTimer == old(slowMotionTimer)
    {
      if position.Some? {
        floatingTexts := floatingTexts + [NewText(KillText(multiplier), position.value, Color(255, 255, 255), "medium")];
        if combo >= 5 {
          var above := Point(position.value.x, position.value.y - 30.0);
          floatingTexts := floatingTexts + [NewText("x" + IntToString(combo) + " COMBO!", above, ComboColor(combo), "large")];
        }
      }
    }

    /** `update`: the combo runs out when its timer reaches 0 (which resets the combo and its
        maximum), the floating texts advance and the faded ones are dropped, and the shake,
        slow-motion and flash timers count down. */
    method Update(dt: real)
      requires Valid()
      modifies this
      ensures Valid()
      ensures old(combo) > 0 && old(comboTimer) - dt <= 0.0 ==> combo == 0 && maxCombo == 0 && comboTimer == 0.0
      ensures old(combo) > 0 && old(comboTimer) - dt > 0.0 ==>
        combo == old(combo) && maxCombo == old(maxCombo) && comboTimer == old(comboTimer) - dt
      ensures old(combo) == 0 ==> combo == 0 && maxCombo == old(maxCombo) && comboTimer == old(comboTimer)
      ensures floatingTexts == StepTexts(old(floatingTexts), dt)
      ensures screenShake == (if old(screenShake) > 0.0 then MaxR(0.0, old(screenShake) - dt * 30.0) else old(screenShake))
      ensures slowMotionTimer == (if old(slowMotionTimer) > 0.0 then old(slowMotionTimer) - dt else old(slowMotionTimer))
      ensures flashTimer == (if old(flashTimer) > 0.0 then old(flashTimer) - dt else old(flashTimer))
    {
      if combo > 0 {
        comboTimer := comboTimer - dt;
        if comboTimer <= 0.0 {
          Reset();
        }
      }
      var kept := AdvanceTexts(floatingTexts, dt);
      floatingTexts := kept;
      if screenShake > 0.0 {
        screenShake := screenShake - dt * 30.0;
        screenShake := MaxR(0.0, screenShake);
      }
      if slowMotionTimer > 0.0 {
        slowMotionTimer := slowMotionTimer - dt;
      }
      if flashTimer > 0.0 {
        flashTimer := flashTimer - dt;
      }
    }

    /** `get_time_scale`: half speed during slow motion. */
    function TimeScale(): (s: real)
      reads this
      ensures s == 0.5 <==> slowMotionTimer > 0.0
      ensures s == 0.5 || s == 1.0
    {
      if slowMotionTimer > 0.0 then 0.5 else 1.0
    }
  }
}
