/**
 * The motor drivers of modules/motor_controller.py: the DC motor controller's
 * `motor_states` table and the stepper's position counter. GPIO writes,
 * PWM output and sleeping are not modelled.
 */
module Motors {
  import opened Wrappers
  import opened Percent

  /** The pins of one DC motor (`enable_pin`, `in1_pin`, `in2_pin`). */
  datatype MotorConfig = MotorConfig(enablePin: int, in1Pin: int, in2Pin: int)

  /** One entry of `motor_states`. */
  datatype MotorState = MotorState(speed: real, direction: string, enabled: bool)

  /** One step of `execute_motor_sequence`: `{'speed': …, 'direction': …, 'duration': …}`, every key optional. */
  datatype MotionStep = MotionStep(speed: Option<real>, direction: Option<string>, duration: Option<real>)

  /** The three directions `set_motor_speed` accepts. */
  predicate IsDirection(direction: string) {
    direction == "forward" || direction == "backward" || direction == "stop"
  }

  /** The state of a motor that has just been configured. */
  const Idle := MotorState(0.0, "stop", true)

  /**
   * The speed `set_motor_speed` stores: clamped to [0, 100], and forced to 0
   * for "stop" only when driving real hardware.
   */
  function StoredSpeed(speed: real, direction: string, simulationMode: bool): (r: real)
    ensures 0.0 <= r <= 100.0
    ensures !simulationMode && direction == "stop" ==> r == 0.0
    ensures (simulationMode || direction != "stop") ==> r == Clamp(speed)
  {
    if !simulationMode && direction == "stop" then 0.0 else Clamp(speed)
  }

  /** The state a motor is left in after being stopped: speed 0, direction "stop", enable flag kept. */
  function Stopped(state: MotorState): (r: MotorState)
    ensures r.speed == 0.0 && r.direction == "stop" && r.enabled == state.enabled
  {
    MotorState(0.0, "stop", state.enabled)
  }

  /** Speed `i` of an acceleration ramp from `current` to `target` in `steps` steps. */
  function RampSpeed(current: real, target: real, steps: nat, i: int): real
    requires steps > 0
  {
    current + Scaled(Increment(target - current, steps), i)
  }

  /** The ramp starts at the current speed, ends at the target and moves monotonically toward it. */
  lemma RampEnds(current: real, target: real, steps: nat)
    requires steps > 0
    ensures RampSpeed(current, target, steps, 0) == current
    ensures RampSpeed(current, target, steps, steps) == target
    ensures current <= target ==>
              forall i, j :: 0 <= i <= j <= steps ==> RampSpeed(current, target, steps, i) <= RampSpeed(current, target, steps, j)
  {
    IncrementSum(target - current, steps);
    if current <= target {
      forall i, j | 0 <= i <= j <= steps
        ensures RampSpeed(current, target, steps, i) <= RampSpeed(current, target, steps, j)
      {
        ScaleMonotone(Increment(target - current, steps), i, j);
      }
    }
  }

  /** Whether a step of a motion sequence is accepted by `set_motor_speed` (a missing direction means "stop"). */
  predicate Moves(step: MotionStep) {
    IsDirection(step.direction.GetOr("stop"))
  }

  /** Whether one of the first `k` steps of a motion sequence is accepted. */
  predicate AnyMovesUpTo(sequence: seq<MotionStep>, k: nat)
    requires k <= |sequence|
  {
    exists j :: 0 <= j < k && Moves(sequence[j])
  }

  class MotorController {
    const configs: map<string, MotorConfig>
    const pwmFrequency: int
    /** `simulation_mode or not GPIO_AVAILABLE`. */
    const simulationMode: bool
    var motorStates: map<string, MotorState>

    /**
     * Every configured motor has a state with a percentage speed and a
     * valid direction; on hardware a stopped motor has speed 0.
     */
    ghost predicate Valid()
      reads this
    {
      motorStates.Keys == configs.Keys &&
      forall n :: n in motorStates ==>
        0.0 <= motorStates[n].speed <= 100.0 && IsDirection(motorStates[n].direction) &&
        (!simulationMode && motorStates[n].direction == "stop" ==> motorStates[n].speed == 0.0)
    }

    /** `__init__` with `_setup_gpio` or `_setup_simulation`: every configured motor idle and enabled. */
    constructor (configs: map<string, MotorConfig>, pwmFrequency: int, simulationMode: bool, gpioAvailable: bool)
      ensures Valid()
      ensures this.configs == configs && this.pwmFrequency == pwmFrequency
      ensures this.simulationMode == (simulationMode || !gpioAvailable)
      ensures forall n :: n in motorStates ==> motorStates[n] == Idle
    {
      this.configs := configs;
      this.pwmFrequency := pwmFrequency;
      this.simulationMode := simulationMode || !gpioAvailable;
      var states: map<string, MotorState> := map[];
      var todo := configs.Keys;
      while todo != {}
        invariant todo <= configs.Keys && states.Keys == configs.Keys - todo
        invariant forall n :: n in states ==> states[n] == Idle
        decreases todo
      {
        var name :| name in todo;
        states := states[name := Idle];
        todo := todo - {name};
      }
      motorStates := states;
    }

    /**
     * `set_motor_speed`: False, with nothing changed, for an unknown motor or
     * a direction other than forward, backward and stop; otherwise the
     * motor's speed and direction are recorded and its enable flag is kept.
     */
    method SetMotorSpeed(name: string, speed: real, direction: string) returns (ok: bool)
      requires Valid()
      modifies this
      ensures Valid()
      ensures ok <==> name in configs && IsDirection(direction)
      ensures ok ==> motorStates == old(motorStates)[name := MotorState(StoredSpeed(speed, direction, simulationMode),
                                                                       direction, old(motorStates)[name].enabled)]
      ensures !ok ==> motorStates == old(motorStates)
    {
      if name !in configs {
        return false;
      }
      var clamped := Max(0.0, Min(100.0, speed));
      if !IsDirection(direction) {
        return false;
      }
      if !simulationMode && direction == "stop" {
        clamped := 0.0;
      }
      var state := motorStates[name];
      motorStates := motorStates[name := MotorState(clamped, direction, state.enabled)];
      ok := true;
    }

    /** `stop_motor`: speed 0 and direction "stop" for a known motor. */
    method StopMotor(name: string) returns (ok: bool)
      requires Valid()
      modifies this
      ensures Valid()
      ensures ok <==> name in configs
      ensures ok ==> motorStates == old(motorStates)[name := Stopped(old(motorStates)[name])]
      ensures !ok ==> motorStates == old(motorStates)
    {
      ok := SetMotorSpeed(name, 0.0, "stop");
    }

    /** `stop_all_motors`: every motor stopped, every enable flag kept. */
    method StopAllMotors()
      requires Valid()
      modifies this
      ensures Valid()
      ensures motorStates.Keys == old(motorStates).Keys
      ensures forall n :: n in motorStates ==> motorStates[n] == Stopped(old(motorStates)[n])
    {
      var todo := configs.Keys;
      while todo != {}
        invariant todo <= configs.Keys
        invariant Valid()
        invariant forall n :: n in motorStates && n !in todo ==> motorStates[n] == Stopped(old(motorStates)[n])
        invariant forall n :: n in todo ==> motorStates[n] == old(motorStates)[n]
        decreases todo
      {
        var name :| name in todo;
        var _ := StopMotor(name);
        todo := todo - {name};
      }
    }

    /**
     * `move_motor_for_duration`: runs the motor if `set_motor_speed` accepts
     * the request, then stops it; otherwise False with nothing changed.
     */
    method MoveMotorForDuration(name: string, speed: real, direction: string) returns (ok: bool)
      requires Valid()
      modifies this
      ensures Valid()
      ensures ok <==> name in configs && IsDirection(direction)
      ensures ok ==> motorStates == old(motorStates)[name := Stopped(old(motorStates)[name])]
      ensures !ok ==> motorStates == old(motorStates)
    {
      ok := SetMotorSpeed(name, speed, direction);
      if !ok {
        return;
      }
      var _ := StopMotor(name);
    }

    /** `get_motor_state`: the motor's state, None for an unknown motor. */
    method GetMotorState(name: string) returns (r: Option<MotorState>)
      requires Valid()
      ensures r.Some? <==> name in configs
      ensures r.Some? ==> r.value == motorStates[name] && 0.0 <= r.value.speed <= 100.0 && IsDirection(r.value.direction)
    {
      if name in motorStates {
        r := Some(motorStates[name]);
      } else {
        r := None;
      }
    }

    /** `get_all_motor_states`: a copy of the table, one entry per configured motor. */
    method GetAllMotorStates() returns (r: map<string, MotorState>)
      requires Valid()
      ensures r.Keys == configs.Keys
      ensures forall n :: n in r ==> r[n] == motorStates[n]
    {
      r := motorStates;
    }

    /** `enable_motor`: sets the enable flag of a known motor, nothing else. */
    method EnableMotor(name: string) returns (ok: bool)
      requires Valid()
      modifies this
      ensures Valid()
      ensures ok <==> name in configs
      ensures ok ==> motorStates == old(motorStates)[name := old(motorStates)[name].(enabled := true)]
      ensures !ok ==> motorStates == old(motorStates)
    {
      if name !in configs {
        return false;
      }
      motorStates := motorStates[name := motorStates[name].(enabled := true)];
      ok := true;
    }

    /** `disable_motor`: stops a known motor and clears its enable flag. */
    method DisableMotor(name: string) returns (ok: bool)
      requires Valid()
      modifies this
      ensures Valid()
      ensures ok <==> name in configs
      ensures ok ==> motorStates == old(motorStates)[name := MotorState(0.0, "stop", false)]
      ensures !ok ==> motorStates == old(motorStates)
    {
      if name !in configs {
        return false;
      }
      var _ := StopMotor(name);
      motorStates := motorStates[name := motorStates[name].(enabled := false)];
      ok := true;
    }

    /**
     * The states after `i` calls of the acceleration ramp, starting from
     * `base`: the last accepted call stored ramp speed `i - 1`.
     */
    ghost predicate Ramped(base: map<string, MotorState>, name: string, current: real, target: real,
                           direction: string, steps: int, enabled: bool, i: int)
      reads this
    {
      if i > 0 && IsDirection(direction) then
        steps > 0 &&
        motorStates == base[name := MotorState(StoredSpeed(RampSpeed(current, target, steps, i - 1), direction, simulationMode),
                                               direction, enabled)]
      else
        motorStates == base
    }

    /** Call `i` of the acceleration ramp: `set_motor_speed` with ramp speed `i`. */
    method RampStep(name: string, current: real, target: real, direction: string, steps: int, enabled: bool, i: int,
                    ghost base: map<string, MotorState>)
      requires Valid() && name in configs && 0 <= i <= steps && steps > 0
      requires name in base && base[name].enabled == enabled
      requires Ramped(base, name, current, target, direction, steps, enabled, i)
      modifies this
      ensures Valid() && Ramped(base, name, current, target, direction, steps, enabled, i + 1)
    {
      var speed := current + Scaled(Increment(target - current, steps), i);
      var _ := SetMotorSpeed(name, speed, direction);
    }

    /**
     * `set_motor_acceleration`: ramps a known motor from its stored speed to
     * `targetSpeed` in `steps + 1` calls of `set_motor_speed`. None stands
     * for the ZeroDivisionError raised when `steps` is 0. A rejected
     * direction makes every call fail, yet the result is still True.
     */
    method SetMotorAcceleration(name: string, targetSpeed: real, direction: string, steps: int) returns (r: Option<bool>)
      requires Valid()
      modifies this
      ensures Valid()
      ensures name !in configs ==> r == Some(false)
      ensures name in configs && steps == 0 ==> r == None
      ensures name in configs && steps != 0 ==> r == Some(true)
      ensures name in configs && steps > 0 && IsDirection(direction) ==>
                motorStates == old(motorStates)[name := MotorState(StoredSpeed(targetSpeed, direction, simulationMode),
                                                                   direction, old(motorStates)[name].enabled)]
      ensures !(name in configs && steps > 0 && IsDirection(direction)) ==> motorStates == old(motorStates)
    {
      if name !in configs {
        return Some(false);
      }
      if steps == 0 {
        return None;
      }
      var current := motorStates[name].speed;
      var enabled := motorStates[name].enabled;
      var i := 0;
      while i < steps + 1
        invariant 0 <= i <= steps + 1 || (steps < 0 && i == 0)
        invariant Valid()
        invariant Ramped(old(motorStates), name, current, targetSpeed, direction, steps, enabled, i)
        decreases steps + 1 - i
      {
        RampStep(name, current, targetSpeed, direction, steps, enabled, i, old(motorStates));
        i := i + 1;
      }
      if steps > 0 {
        RampEnds(current, targetSpeed, steps);
      }
      r := Some(true);
    }

    /**
     * `execute_motor_sequence`: each step moves the motor for its duration
     * (speed 0 and direction "stop" when absent) and then stops it. Once a
     * step is accepted the motor ends stopped; steps with a rejected
     * direction change nothing.
     */
    method ExecuteMotorSequence(name: string, sequence: seq<MotionStep>) returns (ok: bool)
      requires Valid()
      modifies this
      ensures Valid()
      ensures ok <==> name in configs
      ensures ok && AnyMovesUpTo(sequence, |sequence|) ==> motorStates == old(motorStates)[name := Stopped(old(motorStates)[name])]
      ensures !(ok && AnyMovesUpTo(sequence, |sequence|)) ==> motorStates == old(motorStates)
    {
      if name !in configs {
        return false;
      }
      var i := 0;
      while i < |sequence|
        invariant 0 <= i <= |sequence|
        invariant Valid()
        invariant AnyMovesUpTo(sequence, i) ==> motorStates == old(motorStates)[name := Stopped(old(motorStates)[name])]
        invariant !AnyMovesUpTo(sequence, i) ==> motorStates == old(motorStates)
      {
        var step := sequence[i];
        var _ := MoveMotorForDuration(name, step.speed.GetOr(0.0), step.direction.GetOr("stop"));
        if AnyMovesUpTo(sequence, i) {
          var j :| 0 <= j < i && Moves(sequence[j]);
          assert 0 <= j < i + 1;
        }
        if Moves(step) {
          assert AnyMovesUpTo(sequence, i + 1);
        }
        i := i + 1;
      }
      ok := true;
    }

    /** `cleanup`: stops every motor (releasing the pins is not modelled). */
    method Cleanup()
      requires Valid()
      modifies this
      ensures Valid()
      ensures motorStates.Keys == old(motorStates).Keys
      ensures forall n :: n in motorStates ==> motorStates[n] == Stopped(old(motorStates)[n])
    {
      StopAllMotors();
    }
  }

  /** Python's `int()` on a float: truncation toward zero. */
  function TruncateTowardZero(x: real): (r: int)
    ensures x >= 0.0 ==> 0 <= r && r as real <= x < r as real + 1.0
    ensures x < 0.0 ==> r <= 0 && r as real - 1.0 < x <= r as real
  {
    if x >= 0.0 then x.Floor else -((-x).Floor)
  }

  /** Truncation toward zero is odd: negating the input negates the result. */
  lemma TruncateOdd(x: real)
    ensures TruncateTowardZero(-x) == -TruncateTowardZero(x)
  {
    if x > 0.0 {
      assert -x < 0.0;
    }
  }

  /** The steps `move_angle` asks for: `int(angle / 360 * steps_per_revolution * microsteps)`. */
  function AngleSteps(angle: real, stepsPerRevolution: int, microsteps: int): (steps: int)
    ensures var x := angle / 360.0 * stepsPerRevolution as real * microsteps as real;
            (x >= 0.0 ==> 0 <= steps && steps as real <= x < steps as real + 1.0) &&
            (x < 0.0 ==> steps <= 0 && steps as real - 1.0 < x <= steps as real)
  {
    TruncateTowardZero(angle / 360.0 * stepsPerRevolution as real * microsteps as real)
  }

  /** Turning by an angle and then by its negation asks for opposite step counts. */
  lemma AngleStepsOdd(angle: real, stepsPerRevolution: int, microsteps: int)
    ensures AngleSteps(-angle, stepsPerRevolution, microsteps) == -AngleSteps(angle, stepsPerRevolution, microsteps)
  {
    var x := angle / 360.0 * stepsPerRevolution as real * microsteps as real;
    assert -angle / 360.0 * stepsPerRevolution as real * microsteps as real == -x;
    TruncateOdd(x);
  }

  /** A whole revolution asks for exactly `steps_per_revolution * microsteps` steps. */
  lemma FullTurn(stepsPerRevolution: int, microsteps: int)
    ensures AngleSteps(360.0, stepsPerRevolution, microsteps) == stepsPerRevolution * microsteps
  {
    var x := 360.0 / 360.0 * stepsPerRevolution as real * microsteps as real;
    assert x == (stepsPerRevolution * microsteps) as real;
  }

  /** Whether an optional direction string is truthy in Python: present and non-empty. */
  predicate Truthy(direction: Option<string>) {
    direction.Some? && direction.value != ""
  }

  /**
   * The signed position change of `move_steps`: with a truthy direction,
   * `|steps|` forward for "forward" and backward for anything else; without
   * one, the sign of `steps` decides.
   */
  function PositionDelta(steps: int, direction: Option<string>): (d: int)
    ensures !Truthy(direction) ==> d == steps
    ensures Truthy(direction) && direction.value == "forward" ==> d == if steps >= 0 then steps else -steps
    ensures Truthy(direction) && direction.value != "forward" ==> d == if steps >= 0 then -steps else steps
  {
    var actual := if steps >= 0 then steps else -steps;
    var clockwise := if Truthy(direction) then direction.value == "forward" else steps >= 0;
    if clockwise then actual else -actual
  }

  class StepperMotorController {
    const stepPin: int
    const dirPin: int
    const enablePin: Option<int>
    const stepsPerRevolution: int
    const microsteps: int
    const simulationMode: bool
    /** The position in (micro)steps since construction or the last reset. */
    var currentPosition: int
    var enabled: bool

    constructor (stepPin: int, dirPin: int, enablePin: Option<int>, stepsPerRevolution: int, microsteps: int,
                 simulationMode: bool, gpioAvailable: bool)
      ensures this.stepPin == stepPin && this.dirPin == dirPin && this.enablePin == enablePin
      ensures this.stepsPerRevolution == stepsPerRevolution && this.microsteps == microsteps
      ensures this.simulationMode == (simulationMode || !gpioAvailable)
      ensures currentPosition == 0 && enabled
    {
      this.stepPin := stepPin;
      this.dirPin := dirPin;
      this.enablePin := enablePin;
      this.stepsPerRevolution := stepsPerRevolution;
      this.microsteps := microsteps;
      this.simulationMode := simulationMode || !gpioAvailable;
      currentPosition := 0;
      enabled := true;
    }

    /** Whether `1.0 / (steps_per_revolution * microsteps) / speed` divides by zero. */
    predicate DelayUndefined(speed: real) {
      stepsPerRevolution * microsteps == 0 || speed == 0.0
    }

    /**
     * `move_steps`: moves the position by `PositionDelta`. When the step
     * delay divides by zero the ZeroDivisionError leaves the position as it
     * was (`ok` is false).
     */
    method MoveSteps(steps: int, speed: real, direction: Option<string>) returns (ok: bool)
      modifies this`currentPosition
      ensures ok <==> !DelayUndefined(speed)
      ensures ok ==> currentPosition == old(currentPosition) + PositionDelta(steps, direction)
      ensures !ok ==> currentPosition == old(currentPosition)
    {
      var actual := if steps >= 0 then steps else -steps;
      var clockwise := if Truthy(direction) then direction.value == "forward" else steps >= 0;
      if DelayUndefined(speed) {
        return false;
      }
      if clockwise {
        currentPosition := currentPosition + actual;
      } else {
        currentPosition := currentPosition - actual;
      }
      ok := true;
    }

    /** `move_angle`: moves by the truncated step count of the angle, the sign of the angle deciding the direction. */
    method MoveAngle(angle: real, speed: real) returns (ok: bool)
      modifies this`currentPosition
      ensures ok <==> !DelayUndefined(speed)
      ensures ok ==> currentPosition == old(currentPosition) + AngleSteps(angle, stepsPerRevolution, microsteps)
      ensures !ok ==> currentPosition == old(currentPosition)
    {
      var steps := TruncateTowardZero(angle / 360.0 * stepsPerRevolution as real * microsteps as real);
      ok := MoveSteps(steps, speed, None);
    }

    /** `move_to_position`: ends exactly at the target position. */
    method MoveToPosition(targetPosition: int, speed: real) returns (ok: bool)
      modifies this`currentPosition
      ensures ok <==> !DelayUndefined(speed)
      ensures ok ==> currentPosition == targetPosition
      ensures !ok ==> currentPosition == old(currentPosition)
    {
      var steps := targetPosition - currentPosition;
      ok := MoveSteps(steps, speed, None);
    }

    /** `reset_position`. */
    method ResetPosition()
      modifies this`currentPosition
      ensures currentPosition == 0
    {
      currentPosition := 0;
    }

    /** `enable`. */
    method Enable()
      modifies this`enabled
      ensures enabled
    {
      enabled := true;
    }

    /** `disable`. */
    method Disable()
      modifies this`enabled
      ensures !enabled
    {
      enabled := false;
    }
  }
}
