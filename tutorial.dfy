/** The interactive tutorial (`tutorial.py`): eight steps walked through in order, each
    completed by an input event, a movement distance or a number of counted events. Each
    step's title, text, action and target never change and form the `Plan`; the progress and
    completed flag of each step are the state the tutorial updates. The `tutorial_completed`
    setting it writes is a key the save's settings do not hold, so the save drops it and the
    tutorial can always be started again. */
module Tutorials {
  import opened Common
  import SaveSystem

  datatype Action = WaitInput | Move | Shoot | KillEnemies | CollectPowerup | Pause | OpenShop | Finish

  /** The fixed part of a step: its action and, for all but the first and last, a target. */
  datatype Task = Task(action: Action, target: Option<int>)

  const Plan: seq<Task> := [
    Task(WaitInput, None),
    Task(Move, Some(100)),
    Task(Shoot, Some(5)),
    Task(KillEnemies, Some(3)),
    Task(CollectPowerup, Some(1)),
    Task(Pause, Some(1)),
    Task(OpenShop, Some(1)),
    Task(Finish, None)
  ]

  /** The changing part of a step (`progress`, `completed`). The first and last steps start
      without a `progress` key; it is only read for steps with a target, so 0 stands for it. */
  datatype StepState = StepState(progress: real, completed: bool)

  const Fresh := StepState(0.0, false)

  /** The signals `update` reads from its `player_input` dictionary; a missing key is false. */
  datatype Signals = Signals(
    anyKey: bool, shot: bool, enemyKilled: bool, powerupCollected: bool, paused: bool, shopOpened: bool)

  /** Progress never passes the step's target and is never negative. */
  predicate WithinTarget(k: int, p: real)
    requires 0 <= k < |Plan|
  {
    0.0 <= p && (Plan[k].target.Some? ==> p <= Plan[k].target.value as real)
  }

  /** `min(target, progress + 1)`: one counted event. */
  function Counted(progress: real, target: int): (r: real)
    ensures r <= target as real
    ensures progress + 1.0 <= target as real ==> r == progress + 1.0
  {
    MinR(target as real, progress + 1.0)
  }

  /** A counted step takes exactly `target` events from a fresh start to completion. */
  lemma {:induction false} CountedReachesTarget(target: nat, n: nat)
    requires n <= target
    ensures CountedTimes(target, n) == n as real
  {
    if n > 0 {
      CountedReachesTarget(target, n - 1);
    }
  }

  /** Progress after n events from 0. */
  function CountedTimes(target: int, n: nat): real
  {
    if n == 0 then 0.0 else Counted(CountedTimes(target, n - 1), target)
  }

  /** The steps after `complete_step` at step i: that step is marked completed and, through
      `next_step` and `reset_step`, the following one (if any) starts fresh. */
  function CompletedAt(steps: seq<StepState>, i: int): (r: seq<StepState>)
    requires 0 <= i < |steps|
    ensures |r| == |steps| && r[i] == steps[i].(completed := true)
    ensures i + 1 < |steps| ==> r[i + 1] == Fresh
    ensures forall k :: 0 <= k < |steps| && k != i && k != i + 1 ==> r[k] == steps[k]
  {
    var marked := steps[i := steps[i].(completed := true)];
    if i + 1 < |steps| then marked[i + 1 := Fresh] else marked
  }

  /** Only step i and the one after it differ between the two lists. */
  ghost predicate Near(before: seq<StepState>, after: seq<StepState>, i: int)
  {
    |after| == |before| && forall k :: 0 <= k < |before| && k != i && k != i + 1 ==> after[k] == before[k]
  }

  /** The key of `player_input` a step's action waits for; the movement step reads the
      player's position instead and waits for no key. */
  function Signal(a: Action, s: Signals): (fired: bool)
    ensures a == Move ==> !fired
    ensures a in {WaitInput, Finish} ==> (fired <==> s.anyKey)
  {
    match a
    case WaitInput => s.anyKey
    case Move => false
    case Shoot => s.shot
    case KillEnemies => s.enemyKilled
    case CollectPowerup => s.powerupCollected
    case Pause => s.paused
    case OpenShop => s.shopOpened
    case Finish => s.anyKey
  }

  /** An input was given and it carries the key the action waits for. */
  predicate Heard(a: Action, input: Option<Signals>)
  {
    input.Some? && Signal(a, input.value)
  }

  /** A counted event at step i: the progress rises by one up to the target, and reaching
      the target completes the step. */
  ghost predicate Counts(before: seq<StepState>, i: int, after: seq<StepState>, next: int)
    requires 0 <= i < |before| && i < |Plan| && Plan[i].target.Some?
  {
    var p := Counted(before[i].progress, Plan[i].target.value);
    (p < Plan[i].target.value as real ==> next == i && after == before[i := before[i].(progress := p)])
    && (p >= Plan[i].target.value as real ==> next == i + 1 && after == CompletedAt(before[i := before[i].(progress := p)], i))
  }

  /** A movement of the given length at step i: the distance is added to the total, the
      progress is the total capped at 100, and reaching 100 completes the step. */
  ghost predicate Moves(before: seq<StepState>, i: int, distance: real, step: real,
                        after: seq<StepState>, next: int, total: real)
    requires 0 <= i < |before|
  {
    var p := MinR(100.0, distance + step);
    (p < 100.0 ==> next == i && total == distance + step && after == before[i := before[i].(progress := p)])
    && (p >= 100.0 ==> next == i + 1 && after == CompletedAt(before[i := before[i].(progress := p)], i))
  }

  class Tutorial {
    const save: SaveSystem.SaveSystem
    var active: bool
    var currentStep: int
    var stepCompleted: bool
    var animationFrame: real
    var steps: seq<StepState>
    var lastPosition: Option<Point>
    var totalDistance: real

    /** The step index never passes the number of steps, and every step's progress stays
        within its target. */
    ghost predicate Valid()
      reads this, save
    {
      save.Valid()
      && |steps| == |Plan| && 0 <= currentStep <= |steps| && totalDistance >= 0.0
      && forall k :: 0 <= k < |steps| ==> WithinTarget(k, steps[k].progress)
    }

    constructor (save: SaveSystem.SaveSystem)
      requires save.Valid()
      ensures this.save == save && Valid()
      ensures !active && currentStep == 0 && !stepCompleted && animationFrame == 0.0
      ensures steps == seq(|Plan|, k => Fresh) && lastPosition == None && totalDistance == 0.0
    {
      this.save := save;
      active := false;
      currentStep := 0;
      stepCompleted := false;
      animationFrame := 0.0;
      steps := seq(|Plan|, k => Fresh);
      lastPosition := None;
      totalDistance := 0.0;
    }

    /** The completion flag is never among the settings, so `start` never refuses. */
    lemma AlwaysStartable()
      requires Valid()
      ensures !SaveSystem.Truthy(save.GetSetting("tutorial_completed", SaveSystem.Bool(false)))
    {
      assert "tutorial_completed" !in SaveSystem.SettingKeys;
    }

    /** `start`: refuses, changing nothing, when the save says the tutorial was completed;
        otherwise it becomes active at the first step, reset. That setting is never stored,
        so the tutorial always starts. */
    method Start() returns (started: bool)
      requires Valid()
      modifies this`active, this`currentStep, this`steps, this`stepCompleted, this`lastPosition, this`totalDistance
      ensures Valid()
      ensures started <==> !SaveSystem.Truthy(save.GetSetting("tutorial_completed", SaveSystem.Bool(false)))
      ensures !started ==> unchanged(this)
      ensures started ==> active && currentStep == 0 && steps == old(steps)[0 := Fresh]
      ensures started ==> !stepCompleted && lastPosition == None && totalDistance == 0.0
    {
      var done := save.GetSetting("tutorial_completed", SaveSystem.Bool(false));
      if SaveSystem.Truthy(done) {
        return false;
      }
      active := true;
      currentStep := 0;
      ResetStep();
      return true;
    }

    /** `reset_step`: the current step (if any) starts over. */
    method ResetStep()
      requires Valid()
      modifies this`steps, this`stepCompleted, this`lastPosition, this`totalDistance
      ensures Valid()
      ensures old(currentStep) < |steps| ==>
        steps == old(steps)[currentStep := Fresh] && !stepCompleted && lastPosition == None && totalDistance == 0.0
      ensures old(currentStep) >= |steps| ==> unchanged(this)
    {
      if currentStep < |steps| {
        steps := steps[currentStep := Fresh];
        stepCompleted := false;
        lastPosition := None;
        totalDistance := 0.0;
      }
    }

    /** `complete_step`: marks the current step completed and moves on by exactly one step
        (the half-second pause is left out). */
    method CompleteStep()
      requires Valid()
      modifies this`steps, this`stepCompleted, this`currentStep, this`lastPosition, this`totalDistance
      ensures Near(old(steps), steps, old(currentStep))
      ensures Valid()
      ensures old(currentStep) >= |steps| ==> unchanged(this)
      ensures old(currentStep) < |steps| ==>
        currentStep == old(currentStep) + 1 && steps == CompletedAt(old(steps), old(currentStep))
      ensures old(currentStep) < |steps| ==> (stepCompleted <==> currentStep == |steps|)
      ensures old(currentStep) < |steps| && currentStep < |steps| ==> lastPosition == None && totalDistance == 0.0
      ensures currentStep == |steps| ==> lastPosition == old(lastPosition) && totalDistance == old(totalDistance)
    {
      if currentStep < |steps| {
        steps := steps[currentStep := steps[currentStep].(completed := true)];
        stepCompleted := true;
        NextStep();
      }
    }

    /** `next_step`. */
    method NextStep()
      requires Valid() && currentStep < |steps|
      modifies this`steps, this`stepCompleted, this`currentStep, this`lastPosition, this`totalDistance
      ensures Valid() && currentStep == old(currentStep) + 1
      ensures currentStep < |steps| ==>
        steps == old(steps)[currentStep := Fresh] && !stepCompleted && lastPosition == None && totalDistance == 0.0
      ensures currentStep == |steps| ==>
        steps == old(steps) && stepCompleted == old(stepCompleted)
        && lastPosition == old(lastPosition) && totalDistance == old(totalDistance)
    {
      currentStep := currentStep + 1;
      if currentStep < |steps| {
        ResetStep();
      }
    }

    /** `finish_tutorial` and `skip_tutorial`: deactivate; the completion flag written to
        the settings is dropped. */
    method FinishTutorial()
      requires Valid()
      modifies this`active, save
      ensures Valid() && !active && unchanged(save)
    {
      active := false;
      save.UpdateSetting("tutorial_completed", SaveSystem.Bool(true));
    }

    /** A counted step (shoot, kill, collect): one event raises the progress by one, up to
        the target, and reaching the target completes the step. */
    method CountEvent(fired: bool)
      requires Valid() && currentStep < |steps| && Plan[currentStep].target.Some?
      modifies this`steps, this`stepCompleted, this`currentStep, this`lastPosition, this`totalDistance
      ensures Near(old(steps), steps, old(currentStep))
      ensures Valid()
      ensures !fired ==> unchanged(this)
      ensures fired ==> Counts(old(steps), old(currentStep), steps, currentStep)
    {
      if fired {
        var target := Plan[currentStep].target.value;
        var p := Counted(steps[currentStep].progress, target);
        steps := steps[currentStep := steps[currentStep].(progress := p)];
        if p >= target as real {
          CompleteStep();
        }
      }
    }

    /** A step completed by one event (pause, open shop): progress becomes 1 and the step
        completes. */
    method MarkEvent(fired: bool)
      requires Valid() && currentStep < |steps| && Plan[currentStep].target == Some(1)
      modifies this`steps, this`stepCompleted, this`currentStep, this`lastPosition, this`totalDistance
      ensures Near(old(steps), steps, old(currentStep))
      ensures Valid()
      ensures !fired ==> unchanged(this)
      ensures fired ==>
        var i := old(currentStep);
        currentStep == i + 1 && steps == CompletedAt(old(steps)[i := old(steps[i]).(progress := 1.0)], i)
    {
      if fired {
        steps := steps[currentStep := steps[currentStep].(progress := 1.0)];
        CompleteStep();
      }
    }

    /** The movement step: the distance from the previous position is added to the total,
        the progress is the total capped at the target, and reaching the target completes
        the step. The position is remembered afterwards, even when the step completed. */
    method MoveEvent(position: Point, sqrt: real -> real)
      requires Valid() && IsSqrt(sqrt) && currentStep < |steps| && Plan[currentStep] == Task(Move, Some(100))
      modifies this`steps, this`stepCompleted, this`currentStep, this`lastPosition, this`totalDistance
      ensures Near(old(steps), steps, old(currentStep))
      ensures Valid() && lastPosition == Some(position)
      ensures old(lastPosition).None? ==> currentStep == old(currentStep) && steps == old(steps)
      ensures old(lastPosition).Some? ==>
        Moves(old(steps), old(currentStep), old(totalDistance),
              Hypot(position.x - old(lastPosition).value.x, position.y - old(lastPosition).value.y, sqrt),
              steps, currentStep, totalDistance)
    {
      if lastPosition.Some? {
        var dx := position.x - lastPosition.value.x;
        var dy := position.y - lastPosition.value.y;
        SquareNonNegative(dx);
        SquareNonNegative(dy);
        var distance := Hypot(dx, dy, sqrt);
        totalDistance := totalDistance + distance;
        var p := MinR(100.0, totalDistance);
        steps := steps[currentStep := steps[currentStep].(progress := p)];
        if p >= 100.0 {
          CompleteStep();
        }
      }
      lastPosition := Some(position);
    }

    /** `update`: nothing happens when the tutorial is inactive or past its last step;
        otherwise the animation advances and the current step's action is checked. The step
        index grows by at most one and only the current step's progress changes. */
    method Update(dt: real, playerPos: Option<Point>, input: Option<Signals>, sqrt: real -> real)
      requires Valid() && IsSqrt(sqrt)
      modifies this`active, this`animationFrame, this`steps, this`stepCompleted, this`currentStep
      modifies this`lastPosition, this`totalDistance, save
      ensures Valid() && unchanged(save)
      ensures !old(active) || old(currentStep) >= |steps| ==> unchanged(this)
      ensures old(active) && old(currentStep) < |steps| ==>
        animationFrame == old(animationFrame) + 0.05
        && (currentStep == old(currentStep) || currentStep == old(currentStep) + 1)
        && (!active ==> Plan[old(currentStep)].action == Finish)
      ensures Near(old(steps), steps, old(currentStep))
      ensures (old(active) && old(currentStep) < |steps| && Plan[old(currentStep)].action == WaitInput
        && Heard(WaitInput, input)) ==>
        active && currentStep == old(currentStep) + 1 && steps == CompletedAt(old(steps), old(currentStep))
      ensures (old(active) && old(currentStep) < |steps| && Plan[old(currentStep)].action == Finish
        && Heard(Finish, input)) ==>
        !active && currentStep == old(currentStep) && steps == old(steps)
      ensures (old(active) && old(currentStep) < |steps|
        && Plan[old(currentStep)].action in {Shoot, KillEnemies, CollectPowerup}
        && Heard(Plan[old(currentStep)].action, input)) ==>
        Counts(old(steps), old(currentStep), steps, currentStep) && active
      ensures (old(active) && old(currentStep) < |steps| && Plan[old(currentStep)].action in {Pause, OpenShop}
        && Heard(Plan[old(currentStep)].action, input)) ==>
        var i := old(currentStep);
        active && currentStep == i + 1 && steps == CompletedAt(old(steps)[i := old(steps[i]).(progress := 1.0)], i)
      ensures (old(active) && old(currentStep) < |steps| && Plan[old(currentStep)].action == Move
        && playerPos.Some?) ==>
        active && lastPosition == playerPos
        && (old(lastPosition).None? ==> currentStep == old(currentStep) && steps == old(steps))
        && (old(lastPosition).Some? ==>
              Moves(old(steps), old(currentStep), old(totalDistance),
                    Hypot(playerPos.value.x - old(lastPosition).value.x, playerPos.value.y - old(lastPosition).value.y, sqrt),
                    steps, currentStep, totalDistance))
      ensures (old(active) && old(currentStep) < |steps| && !Heard(Plan[old(currentStep)].action, input)
        && !(Plan[old(currentStep)].action == Move && playerPos.Some?)) ==>
        active && currentStep == old(currentStep) && steps == old(steps) && stepCompleted == old(stepCompleted)
        && lastPosition == old(lastPosition) && totalDistance == old(totalDistance)
    {
      if !active || currentStep >= |steps| {
        return;
      }
      animationFrame := animationFrame + 0.05;
      CheckAction(playerPos, input, sqrt);
    }

    /** The check of the current step's action in `update`, by the kind of step. */
    method CheckAction(playerPos: Option<Point>, input: Option<Signals>, sqrt: real -> real)
      requires Valid() && IsSqrt(sqrt) && active && currentStep < |steps|
      modifies this`active, this`steps, this`stepCompleted, this`currentStep
      modifies this`lastPosition, this`totalDistance, save
      ensures Valid() && unchanged(save)
      ensures (currentStep == old(currentStep) || currentStep == old(currentStep) + 1)
      ensures !active ==> Plan[old(currentStep)].action == Finish
      ensures Near(old(steps), steps, old(currentStep))
      ensures (Plan[old(currentStep)].action == WaitInput && Heard(WaitInput, input)) ==>
        active && currentStep == old(currentStep) + 1 && steps == CompletedAt(old(steps), old(currentStep))
      ensures (Plan[old(currentStep)].action == Finish && Heard(Finish, input)) ==>
        !active && currentStep == old(currentStep) && steps == old(steps)
      ensures (Plan[old(currentStep)].action in {Shoot, KillEnemies, CollectPowerup}
        && Heard(Plan[old(currentStep)].action, input)) ==>
        Counts(old(steps), old(currentStep), steps, currentStep) && active
      ensures (Plan[old(currentStep)].action in {Pause, OpenShop} && Heard(Plan[old(currentStep)].action, input)) ==>
        var i := old(currentStep);
        active && currentStep == i + 1 && steps == CompletedAt(old(steps)[i := old(steps[i]).(progress := 1.0)], i)
      ensures (Plan[old(currentStep)].action == Move && playerPos.Some?) ==>
        active && lastPosition == playerPos
        && (old(lastPosition).None? ==> currentStep == old(currentStep) && steps == old(steps))
        && (old(lastPosition).Some? ==>
              Moves(old(steps), old(currentStep), old(totalDistance),
                    Hypot(playerPos.value.x - old(lastPosition).value.x, playerPos.value.y - old(lastPosition).value.y, sqrt),
                    steps, currentStep, totalDistance))
      ensures (!Heard(Plan[old(currentStep)].action, input) && !(Plan[old(currentStep)].action == Move && playerPos.Some?)) ==>
        active && currentStep == old(currentStep) && steps == old(steps) && stepCompleted == old(stepCompleted)
        && lastPosition == old(lastPosition) && totalDistance == old(totalDistance)
    {
      if Plan[currentStep].action == Move {
        CheckMove(playerPos, sqrt);
      } else {
        CheckKey(input);
      }
    }

    /** The movement branch of `update`: without a position nothing changes. */
    method CheckMove(playerPos: Option<Point>, sqrt: real -> real)
      requires Valid() && IsSqrt(sqrt) && currentStep < |steps| && Plan[currentStep] == Task(Move, Some(100))
      modifies this`steps, this`stepCompleted, this`currentStep, this`lastPosition, this`totalDistance
      ensures Valid() && Near(old(steps), steps, old(currentStep))
      ensures (currentStep == old(currentStep) || currentStep == old(currentStep) + 1)
      ensures playerPos.None? ==> unchanged(this)
      ensures playerPos.Some? ==>
        lastPosition == playerPos
        && (old(lastPosition).None? ==> currentStep == old(currentStep) && steps == old(steps))
        && (old(lastPosition).Some? ==>
              Moves(old(steps), old(currentStep), old(totalDistance),
                    Hypot(playerPos.value.x - old(lastPosition).value.x, playerPos.value.y - old(lastPosition).value.y, sqrt),
                    steps, currentStep, totalDistance))
    {
      if playerPos.Some? {
        MoveEvent(playerPos.value, sqrt);
      }
    }

    /** The branches of `update` for the steps that wait for a key of `player_input`: the
        step's own key completes it, counts towards it or finishes the tutorial; any other
        input changes nothing. */
    method CheckKey(input: Option<Signals>)
      requires Valid() && active && currentStep < |steps| && Plan[currentStep].action != Move
      modifies this`active, this`steps, this`stepCompleted, this`currentStep
      modifies this`lastPosition, this`totalDistance, save
      ensures Valid() && unchanged(save)
      ensures (currentStep == old(currentStep) || currentStep == old(currentStep) + 1)
      ensures !active ==> Plan[old(currentStep)].action == Finish
      ensures Near(old(steps), steps, old(currentStep))
      ensures (Plan[old(currentStep)].action == WaitInput && Heard(WaitInput, input)) ==>
        active && currentStep == old(currentStep) + 1 && steps == CompletedAt(old(steps), old(currentStep))
      ensures (Plan[old(currentStep)].action == Finish && Heard(Finish, input)) ==>
        !active && currentStep == old(currentStep) && steps == old(steps)
      ensures (Plan[old(currentStep)].action in {Shoot, KillEnemies, CollectPowerup}
        && Heard(Plan[old(currentStep)].action, input)) ==>
        Counts(old(steps), old(currentStep), steps, currentStep) && active
      ensures (Plan[old(currentStep)].action in {Pause, OpenShop} && Heard(Plan[old(currentStep)].action, input)) ==>
        var i := old(currentStep);
        active && currentStep == i + 1 && steps == CompletedAt(old(steps)[i := old(steps[i]).(progress := 1.0)], i)
      ensures !Heard(Plan[old(currentStep)].action, input) ==>
        active && currentStep == old(currentStep) && steps == old(steps) && stepCompleted == old(stepCompleted)
        && lastPosition == old(lastPosition) && totalDistance == old(totalDistance)
    {
      if input.None? {
        return;
      }
      var signals := input.value;
      match Plan[currentStep].action {
        case WaitInput =>
          if signals.anyKey {
            CompleteStep();
          }
        case Shoot =>
          CountEvent(signals.shot);
        case KillEnemies =>
          CountEvent(signals.enemyKilled);
        case CollectPowerup =>
          CountEvent(signals.powerupCollected);
        case Pause =>
          MarkEvent(signals.paused);
        case OpenShop =>
          MarkEvent(signals.shopOpened);
        case Finish =>
          if signals.anyKey {
            FinishTutorial();
          }
      }
    }

    /** `get_current_step`: the current step, or none past the last one. */
    function CurrentStep(): (r: Option<StepState>)
      reads this
      requires 0 <= currentStep
      ensures r.Some? <==> currentStep < |steps|
      ensures r.Some? ==> r.value == steps[currentStep]
    {
      if currentStep < |steps| then Some(steps[currentStep]) else None
    }

    /** `get_progress`: the share of steps passed, in [0, 1]. */
    function Progress(): (r: real)
      reads this
      requires 0 <= currentStep <= |steps|
      ensures 0.0 <= r <= 1.0
      ensures r == 1.0 <==> currentStep == |steps|
    {
      if |steps| == 0 then 1.0 else currentStep as real / |steps| as real
    }
  }
}
