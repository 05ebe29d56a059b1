/**
 * The vibration motors of modules/vibration_motor.py. A motor keeps a
 * clamped intensity and a running flag tied to it; the ghost log `levels`
 * records every intensity `set_intensity` stored, in order (the duty cycles
 * the PWM receives on hardware), so that ramps and patterns can be stated.
 * Sleeping and logging are not modelled, so durations are not parameters.
 */
module Vibration {
  import opened Wrappers
  import opened Percent

  /** One step of a vibration pattern: `{'intensity': …, 'duration': …}` with either key optional. */
  datatype PatternStep = PatternStep(intensity: Option<real>, duration: Option<real>)

  /** One step of a pulse sequence: `{'motor': …, 'intensity': …, 'duration': …}`. */
  datatype SequenceStep = SequenceStep(motor: Option<string>, intensity: Option<real>, duration: Option<real>)

  /** What `get_motor_states` reports for one motor. */
  datatype MotorStatus = MotorStatus(intensity: real, isRunning: bool)

  /** The levels a pattern sets, one per step; a missing intensity means 0. */
  function PatternLevels(pattern: seq<PatternStep>): (r: seq<real>)
    ensures |r| == |pattern|
    ensures forall i :: 0 <= i < |r| ==> 0.0 <= r[i] <= 100.0
  {
    seq(|pattern|, i requires 0 <= i < |pattern| => Clamp(pattern[i].intensity.GetOr(0.0)))
  }

  /** Level `i` of a fade-in: `increment * i`, clamped. */
  function FadeInLevel(increment: real, i: int): real {
    Clamp(Scaled(increment, i))
  }

  /** The `steps + 1` levels `fade_in` sets, with increment `max_intensity / steps`. */
  function FadeInRamp(maxIntensity: real, steps: nat): (r: seq<real>)
    requires steps > 0
    ensures |r| == steps + 1
  {
    var increment := Increment(maxIntensity, steps);
    seq(steps + 1, i => FadeInLevel(increment, i))
  }

  /** A fade-in starts at 0, ends at the clamped target and, for a non-negative target, never decreases. */
  lemma FadeInShape(maxIntensity: real, steps: nat)
    requires steps > 0
    ensures FadeInRamp(maxIntensity, steps)[0] == 0.0
    ensures FadeInRamp(maxIntensity, steps)[steps] == Clamp(maxIntensity)
    ensures maxIntensity >= 0.0 ==>
              forall i, j :: 0 <= i <= j <= steps ==> FadeInRamp(maxIntensity, steps)[i] <= FadeInRamp(maxIntensity, steps)[j]
  {
    var ramp := FadeInRamp(maxIntensity, steps);
    var inc := Increment(maxIntensity, steps);
    IncrementSum(maxIntensity, steps);
    if maxIntensity >= 0.0 {
      forall i, j | 0 <= i <= j <= steps
        ensures ramp[i] <= ramp[j]
      {
        ScaleMonotone(inc, i, j);
        ClampMonotone(Scaled(inc, i), Scaled(inc, j));
      }
    }
  }

  /** Level `i` of a fade-out from `start`: `start - decrement * i`, clamped. */
  function FadeOutLevel(start: real, decrement: real, i: int): real {
    Clamp(start - Scaled(decrement, i))
  }

  /** The `steps + 1` levels `fade_out` sets, with decrement `start / steps`. */
  function FadeOutRamp(start: real, steps: nat): (r: seq<real>)
    requires steps > 0
    ensures |r| == steps + 1
  {
    var decrement := Increment(start, steps);
    seq(steps + 1, i => FadeOutLevel(start, decrement, i))
  }

  /** A fade-out from a valid intensity ends at exactly 0. */
  lemma FadeOutEnds(start: real, steps: nat)
    requires steps > 0 && 0.0 <= start <= 100.0
    ensures FadeOutRamp(start, steps)[steps] == 0.0
  {
    IncrementSum(start, steps);
    assert FadeOutRamp(start, steps)[steps] == Clamp(start - Scaled(Increment(start, steps), steps));
  }

  /** A fade-out from a valid intensity never needs the clamp: level `i` is `start - start / steps * i`. */
  lemma FadeOutUnclamped(start: real, steps: nat, i: nat)
    requires steps > 0 && 0.0 <= start <= 100.0 && i <= steps
    ensures FadeOutRamp(start, steps)[i] == start - Scaled(Increment(start, steps), i)
  {
    var dec := Increment(start, steps);
    IncrementSum(start, steps);
    ScaleMonotone(dec, i, steps);
    ScaleMonotone(dec, 0, i);
    assert FadeOutRamp(start, steps)[i] == Clamp(start - Scaled(dec, i));
  }

  /** A fade-out from a valid intensity starts there, ends at exactly 0 and never increases. */
  lemma FadeOutShape(start: real, steps: nat)
    requires steps > 0 && 0.0 <= start <= 100.0
    ensures FadeOutRamp(start, steps)[0] == start
    ensures FadeOutRamp(start, steps)[steps] == 0.0
    ensures forall i, j :: 0 <= i <= j <= steps ==> FadeOutRamp(start, steps)[j] <= FadeOutRamp(start, steps)[i]
  {
    var ramp := FadeOutRamp(start, steps);
    var dec := Increment(start, steps);
    IncrementSum(start, steps);
    FadeOutEnds(start, steps);
    FadeOutUnclamped(start, steps, 0);
    forall i, j | 0 <= i <= j <= steps
      ensures ramp[j] <= ramp[i]
    {
      ScaleMonotone(dec, i, j);
      ClampMonotone(start - Scaled(dec, j), start - Scaled(dec, i));
    }
  }

  /** The intensity a log of stored levels leaves behind: the last one, or the initial 0. */
  function LastLevel(levels: seq<real>): real {
    if levels == [] then 0.0 else levels[|levels| - 1]
  }

  class VibrationMotor {
    const pin: int
    const pwmFrequency: int
    /** `simulation_mode or not GPIO_AVAILABLE`. */
    const simulationMode: bool
    var currentIntensity: real
    var isRunning: bool
    /** Every intensity stored so far, oldest first. */
    ghost var levels: seq<real>

    /**
     * The intensity is a percentage, and the motor runs exactly when it is
     * positive; the log ends with the current intensity.
     */
    ghost predicate Valid()
      reads this
    {
      0.0 <= currentIntensity <= 100.0 && (isRunning <==> currentIntensity > 0.0) &&
      currentIntensity == LastLevel(levels)
    }

    constructor (pin: int, pwmFrequency: int, simulationMode: bool, gpioAvailable: bool)
      ensures Valid()
      ensures this.pin == pin && this.pwmFrequency == pwmFrequency
      ensures this.simulationMode == (simulationMode || !gpioAvailable)
      ensures currentIntensity == 0.0 && !isRunning && levels == []
    {
      this.pin := pin;
      this.pwmFrequency := pwmFrequency;
      this.simulationMode := simulationMode || !gpioAvailable;
      currentIntensity := 0.0;
      isRunning := false;
      levels := [];
    }

    /** `set_intensity`: stores the clamped intensity, sets the running flag from it, and succeeds. */
    method SetIntensity(intensity: real) returns (ok: bool)
      modifies this
      ensures Valid() && ok
      ensures currentIntensity == Clamp(intensity)
      ensures isRunning <==> currentIntensity > 0.0
      ensures levels == old(levels) + [Clamp(intensity)]
    {
      var level := Max(0.0, Min(100.0, intensity));
      currentIntensity := level;
      isRunning := level > 0.0;
      levels := levels + [level];
      ok := true;
    }

    /** `start`: exactly `set_intensity`. */
    method Start(intensity: real)
      modifies this
      ensures Valid()
      ensures currentIntensity == Clamp(intensity) && (isRunning <==> Clamp(intensity) > 0.0)
      ensures levels == old(levels) + [Clamp(intensity)]
    {
      var _ := SetIntensity(intensity);
    }

    /** `stop`: intensity 0, not running. */
    method Stop()
      modifies this
      ensures Valid()
      ensures currentIntensity == 0.0 && !isRunning
      ensures levels == old(levels) + [0.0]
    {
      var _ := SetIntensity(0.0);
    }

    /** `pulse`: starts at the given intensity, then stops. */
    method Pulse(intensity: real)
      modifies this
      ensures Valid()
      ensures currentIntensity == 0.0 && !isRunning
      ensures levels == old(levels) + [Clamp(intensity), 0.0]
    {
      Start(intensity);
      Stop();
    }

    /** `vibrate_pattern`: sets each step's intensity in turn, then stops. */
    method VibratePattern(pattern: seq<PatternStep>)
      modifies this
      ensures Valid()
      ensures currentIntensity == 0.0 && !isRunning
      ensures levels == old(levels) + PatternLevels(pattern) + [0.0]
    {
      var i := 0;
      while i < |pattern|
        invariant 0 <= i <= |pattern|
        invariant levels == old(levels) + PatternLevels(pattern)[..i]
      {
        var _ := SetIntensity(pattern[i].intensity.GetOr(0.0));
        assert PatternLevels(pattern)[..i + 1] == PatternLevels(pattern)[..i] + [PatternLevels(pattern)[i]];
        i := i + 1;
      }
      assert PatternLevels(pattern)[..i] == PatternLevels(pattern);
      Stop();
    }

    /**
     * `fade_in`. With no steps, `duration / steps` raises ZeroDivisionError
     * before anything changes (`ok` is false); a negative count runs no step.
     */
    method FadeIn(maxIntensity: real, steps: int) returns (ok: bool)
      modifies this
      ensures ok <==> steps != 0
      ensures steps <= 0 ==> currentIntensity == old(currentIntensity) && isRunning == old(isRunning) && levels == old(levels)
      ensures steps > 0 ==> Valid() && levels == old(levels) + FadeInRamp(maxIntensity, steps)
      ensures steps > 0 ==> currentIntensity == Clamp(maxIntensity)
    {
      if steps == 0 {
        return false;
      }
      ok := true;
      if steps < 0 {
        return;
      }
      var increment := Increment(maxIntensity, steps);
      ghost var ramp := FadeInRamp(maxIntensity, steps);
      var i := 0;
      while i < steps + 1
        invariant 0 <= i <= steps + 1
        invariant levels == old(levels) + ramp[..i]
        invariant i > 0 ==> Valid() && currentIntensity == ramp[i - 1]
        invariant i == 0 ==> currentIntensity == old(currentIntensity) && isRunning == old(isRunning)
      {
        var _ := SetIntensity(Scaled(increment, i));
        assert ramp[i] == FadeInLevel(increment, i);
        assert ramp[..i + 1] == ramp[..i] + [ramp[i]];
        i := i + 1;
      }
      assert ramp[..i] == ramp;
      FadeInShape(maxIntensity, steps);
    }

    /**
     * `fade_out` from the current intensity down to 0. With no steps the
     * division raises before anything changes; a negative count runs no step.
     */
    method FadeOut(steps: int) returns (ok: bool)
      requires Valid()
      modifies this
      ensures Valid()
      ensures ok <==> steps != 0
      ensures steps <= 0 ==> currentIntensity == old(currentIntensity) && isRunning == old(isRunning) && levels == old(levels)
      ensures steps > 0 ==> levels == old(levels) + FadeOutRamp(old(currentIntensity), steps)
      ensures steps > 0 ==> currentIntensity == 0.0 && !isRunning
    {
      if steps == 0 {
        return false;
      }
      ok := true;
      if steps < 0 {
        return;
      }
      var start := currentIntensity;
      var decrement := Increment(start, steps);
      ghost var ramp := FadeOutRamp(start, steps);
      var i := 0;
      while i < steps + 1
        invariant 0 <= i <= steps + 1
        invariant Valid()
        invariant levels == old(levels) + ramp[..i]
        invariant i > 0 ==> currentIntensity == ramp[i - 1]
      {
        ghost var before := levels;
        var _ := SetIntensity(start - Scaled(decrement, i));
        assert ramp[i] == FadeOutLevel(start, decrement, i);
        assert levels == before + [Clamp(start - Scaled(decrement, i))];
        assert currentIntensity == Clamp(start - Scaled(decrement, i));
        assert FadeOutLevel(start, decrement, i) == Clamp(start - Scaled(decrement, i));
        assert ramp[..i + 1] == ramp[..i] + [ramp[i]];
        i := i + 1;
      }
      assert ramp[..i] == ramp;
      FadeOutEnds(start, steps);
    }

    /** `get_intensity`: always a percentage. */
    method GetIntensity() returns (r: real)
      requires Valid()
      ensures r == currentIntensity && 0.0 <= r <= 100.0
    {
      r := currentIntensity;
    }

    /** `is_vibrating`: true exactly when the intensity is positive. */
    method IsVibrating() returns (r: bool)
      requires Valid()
      ensures r <==> currentIntensity > 0.0
    {
      r := isRunning;
    }

    /** `cleanup`: stops the motor (releasing the GPIO pin is not modelled). */
    method Cleanup()
      modifies this
      ensures Valid()
      ensures currentIntensity == 0.0 && !isRunning
      ensures levels == old(levels) + [0.0]
    {
      Stop();
    }
  }

  /** The `[Clamp(intensity), 0]` a pulse-sequence step leaves on motor `name`; nothing when it names another motor. */
  function StepPulse(step: SequenceStep, name: string): seq<real> {
    if step.motor == Some(name) then [Clamp(step.intensity.GetOr(100.0)), 0.0] else []
  }

  /** The log of motor `name` after the first `k` steps of a pulse sequence, starting from `levels`. */
  function Replay(levels: seq<real>, sequence: seq<SequenceStep>, k: nat, name: string): seq<real>
    requires k <= |sequence|
  {
    if k == 0 then levels else Replay(levels, sequence, k - 1, name) + StepPulse(sequence[k - 1], name)
  }

  /** The levels a whole pulse sequence adds to motor `name`'s log. */
  function Pulses(sequence: seq<SequenceStep>, name: string): seq<real> {
    Replay([], sequence, |sequence|, name)
  }

  /** Replaying a sequence only appends to the log it starts from. */
  lemma {:induction false} ReplayAppends(levels: seq<real>, sequence: seq<SequenceStep>, k: nat, name: string)
    requires k <= |sequence|
    ensures Replay(levels, sequence, k, name) == levels + Replay([], sequence, k, name)
  {
    if k > 0 {
      ReplayAppends(levels, sequence, k - 1, name);
    }
  }

  /** Whether one of the first `k` steps names the motor. */
  predicate NamedUpTo(sequence: seq<SequenceStep>, k: nat, name: string)
    requires k <= |sequence|
  {
    exists i :: 0 <= i < k && sequence[i].motor == Some(name)
  }

  /** Whether some step of the sequence names the motor. */
  predicate Named(sequence: seq<SequenceStep>, name: string) {
    NamedUpTo(sequence, |sequence|, name)
  }

  /**
   * A motor's pulses are empty exactly when no step names it, consist of
   * whole pulses, and end at 0 when some step names it.
   */
  lemma {:induction false} PulsesShape(sequence: seq<SequenceStep>, k: nat, name: string)
    requires k <= |sequence|
    ensures Replay([], sequence, k, name) == [] <==> !NamedUpTo(sequence, k, name)
    ensures NamedUpTo(sequence, k, name) ==> LastLevel(Replay([], sequence, k, name)) == 0.0
    ensures |Replay([], sequence, k, name)| % 2 == 0
  {
    if k > 0 {
      PulsesShape(sequence, k - 1, name);
      if NamedUpTo(sequence, k - 1, name) {
        var i :| 0 <= i < k - 1 && sequence[i].motor == Some(name);
        assert 0 <= i < k && sequence[i].motor == Some(name);
      }
      if NamedUpTo(sequence, k, name) && sequence[k - 1].motor != Some(name) {
        var i :| 0 <= i < k && sequence[i].motor == Some(name);
        assert 0 <= i < k - 1 && sequence[i].motor == Some(name);
      }
    }
  }

  /**
   * Replaying a whole sequence appends the motor's pulses to its log; the
   * log then ends at 0 when some step names the motor, and is as before
   * when none does.
   */
  lemma PulsedLevel(levels: seq<real>, sequence: seq<SequenceStep>, name: string)
    ensures Replay(levels, sequence, |sequence|, name) == levels + Pulses(sequence, name)
    ensures Named(sequence, name) ==> LastLevel(Replay(levels, sequence, |sequence|, name)) == 0.0
    ensures !Named(sequence, name) ==> Replay(levels, sequence, |sequence|, name) == levels
  {
    ReplayAppends(levels, sequence, |sequence|, name);
    PulsesShape(sequence, |sequence|, name);
    var p := Pulses(sequence, name);
    if Named(sequence, name) {
      assert (levels + p)[|levels + p| - 1] == p[|p| - 1];
    } else {
      assert levels + p == levels;
    }
  }

  class VibrationMotorController {
    const motorPins: map<string, int>
    const pwmFrequency: int
    const simulationMode: bool
    /** One motor per configured name; the dictionary itself never changes after construction. */
    const motors: map<string, VibrationMotor>
    /** The name each motor object was created for. */
    ghost const nameOf: map<VibrationMotor, string>

    /** Different names drive different motor objects. */
    ghost predicate Distinct() {
      forall n :: n in motors ==> motors[n] in nameOf && nameOf[motors[n]] == n
    }

    /** One motor per configured pin, each of them valid and none shared between names. */
    ghost predicate Valid()
      reads this, motors.Values
    {
      motors.Keys == motorPins.Keys && Distinct() && (forall n :: n in motors ==> motors[n].Valid())
    }

    /** One fresh, stopped motor per configured pin. */
    constructor (motorPins: map<string, int>, pwmFrequency: int, simulationMode: bool, gpioAvailable: bool)
      ensures Valid()
      ensures this.motorPins == motorPins && this.pwmFrequency == pwmFrequency && this.simulationMode == simulationMode
      ensures forall n :: n in motors ==> fresh(motors[n]) && motors[n].pin == motorPins[n] &&
                                          motors[n].currentIntensity == 0.0 && motors[n].levels == []
    {
      var built: map<string, VibrationMotor> := map[];
      ghost var names: map<VibrationMotor, string> := map[];
      var todo := motorPins.Keys;
      while todo != {}
        invariant todo <= motorPins.Keys && built.Keys == motorPins.Keys - todo
        invariant forall n :: n in built ==> fresh(built[n]) && built[n].Valid() && built[n].pin == motorPins[n] &&
                                             built[n].currentIntensity == 0.0 && built[n].levels == []
        invariant forall n :: n in built ==> built[n] in names && names[built[n]] == n
        invariant forall m :: m in names ==> fresh(m)
        decreases todo
      {
        var name :| name in todo;
        var motor := new VibrationMotor(motorPins[name], pwmFrequency, simulationMode, gpioAvailable);
        built := built[name := motor];
        names := names[motor := name];
        todo := todo - {name};
      }
      nameOf := names;
      this.motorPins := motorPins;
      this.pwmFrequency := pwmFrequency;
      this.simulationMode := simulationMode;
      motors := built;
    }

    /** `set_intensity(name, …)`: False for an unknown name; otherwise that motor's `set_intensity`, and no other motor changes. */
    method SetIntensity(name: string, intensity: real) returns (ok: bool)
      requires Valid()
      modifies motors.Values
      ensures Valid()
      ensures ok <==> name in motors
      ensures ok ==> motors[name].currentIntensity == Clamp(intensity) &&
                     motors[name].levels == old(motors[name].levels) + [Clamp(intensity)]
      ensures forall n :: n in motors && n != name ==> unchanged(motors[n])
    {
      if name !in motors {
        return false;
      }
      ok := motors[name].SetIntensity(intensity);
    }

    /** `set_all_intensity`: every motor gets the same clamped intensity. */
    method SetAllIntensity(intensity: real)
      requires Valid()
      modifies motors.Values
      ensures Valid()
      ensures forall n :: n in motors ==> motors[n].currentIntensity == Clamp(intensity) &&
                                          motors[n].levels == old(motors[n].levels) + [Clamp(intensity)]
    {
      var todo := motors.Keys;
      while todo != {}
        invariant todo <= motors.Keys
        invariant Valid()
        invariant forall n :: n in motors && n !in todo ==>
                    motors[n].currentIntensity == Clamp(intensity) && motors[n].levels == old(motors[n].levels) + [Clamp(intensity)]
        invariant forall n :: n in todo ==> unchanged(motors[n])
        decreases todo
      {
        var name :| name in todo;
        var _ := motors[name].SetIntensity(intensity);
        todo := todo - {name};
      }
    }

    /** `start(name, …)`: False for an unknown name; otherwise that motor starts and no other changes. */
    method Start(name: string, intensity: real) returns (ok: bool)
      requires Valid()
      modifies motors.Values
      ensures Valid()
      ensures ok <==> name in motors
      ensures ok ==> motors[name].currentIntensity == Clamp(intensity) &&
                     motors[name].levels == old(motors[name].levels) + [Clamp(intensity)]
      ensures forall n :: n in motors && n != name ==> unchanged(motors[n])
    {
      if name !in motors {
        return false;
      }
      motors[name].Start(intensity);
      ok := true;
    }

    /** `start_all`: every motor starts at the same intensity. */
    method StartAll(intensity: real)
      requires Valid()
      modifies motors.Values
      ensures Valid()
      ensures forall n :: n in motors ==> motors[n].currentIntensity == Clamp(intensity) &&
                                          motors[n].levels == old(motors[n].levels) + [Clamp(intensity)]
    {
      SetAllIntensity(intensity);
    }

    /** `stop(name)`: False for an unknown name; otherwise that motor stops and no other changes. */
    method Stop(name: string) returns (ok: bool)
      requires Valid()
      modifies motors.Values
      ensures Valid()
      ensures ok <==> name in motors
      ensures ok ==> motors[name].currentIntensity == 0.0 && !motors[name].isRunning &&
                     motors[name].levels == old(motors[name].levels) + [0.0]
      ensures forall n :: n in motors && n != name ==> unchanged(motors[n])
    {
      if name !in motors {
        return false;
      }
      motors[name].Stop();
      ok := true;
    }

    /** `stop_all`: every motor stopped. */
    method StopAll()
      requires Valid()
      modifies motors.Values
      ensures Valid()
      ensures forall n :: n in motors ==> motors[n].currentIntensity == 0.0 && !motors[n].isRunning &&
                                          motors[n].levels == old(motors[n].levels) + [0.0]
    {
      SetAllIntensity(0.0);
    }

    /** `pulse(name, …)`: False for an unknown name; otherwise that motor pulses and no other changes. */
    method Pulse(name: string, intensity: real) returns (ok: bool)
      requires Valid()
      modifies motors.Values
      ensures Valid()
      ensures ok <==> name in motors
      ensures ok ==> motors[name].currentIntensity == 0.0 && !motors[name].isRunning &&
                     motors[name].levels == old(motors[name].levels) + [Clamp(intensity), 0.0]
      ensures forall n :: n in motors && n != name ==> unchanged(motors[n])
    {
      if name !in motors {
        return false;
      }
      motors[name].Pulse(intensity);
      ok := true;
    }

    /** One step of `pulse_sequence`: pulses the motor the step names, if it is known. */
    method PulseStep(step: SequenceStep)
      requires Valid()
      modifies motors.Values
      ensures Valid()
      ensures forall n :: n in motors ==> motors[n].levels == old(motors[n].levels) + StepPulse(step, n)
    {
      if step.motor.Some? && step.motor.value in motors {
        motors[step.motor.value].Pulse(step.intensity.GetOr(100.0));
      }
    }

    /** Every motor's log is its log in `start` followed by the first `k` steps of `sequence` that name it. */
    ghost predicate Replayed(start: map<string, seq<real>>, sequence: seq<SequenceStep>, k: nat)
      requires k <= |sequence|
      reads this, motors.Values
    {
      forall n :: n in motors ==> n in start && motors[n].levels == Replay(start[n], sequence, k, n)
    }

    /** Step `i` of `pulse_sequence`, extending every motor's replayed log by that step. */
    method ReplayStep(sequence: seq<SequenceStep>, i: nat, ghost start: map<string, seq<real>>)
      requires Valid() && i < |sequence| && Replayed(start, sequence, i)
      modifies motors.Values
      ensures Valid() && Replayed(start, sequence, i + 1)
    {
      PulseStep(sequence[i]);
    }

    /** The loop of `pulse_sequence`: every step in order, each motor's log replaying the steps that name it. */
    method RunSequence(sequence: seq<SequenceStep>)
      requires Valid()
      modifies motors.Values
      ensures Valid()
      ensures forall n :: n in motors ==> motors[n].levels == Replay(old(motors[n].levels), sequence, |sequence|, n)
    {
      ghost var start := map n | n in motors :: motors[n].levels;
      var i := 0;
      while i < |sequence|
        invariant 0 <= i <= |sequence|
        invariant Valid() && Replayed(start, sequence, i)
      {
        ReplayStep(sequence, i, start);
        i := i + 1;
      }
    }

    /**
     * `pulse_sequence`: each step pulses the motor it names (intensity 100
     * when absent); a step naming no known motor is skipped. A motor named
     * by some step ends stopped; any other keeps its intensity.
     */
    method PulseSequence(sequence: seq<SequenceStep>)
      requires Valid()
      modifies motors.Values
      ensures Valid()
      ensures forall n :: n in motors ==> motors[n].levels == old(motors[n].levels) + Pulses(sequence, n)
      ensures forall n :: n in motors && Named(sequence, n) ==> motors[n].currentIntensity == 0.0 && !motors[n].isRunning
      ensures forall n :: n in motors && !Named(sequence, n) ==>
                motors[n].currentIntensity == old(motors[n].currentIntensity) && motors[n].isRunning == old(motors[n].isRunning)
    {
      RunSequence(sequence);
      forall n | n in motors
        ensures motors[n].levels == old(motors[n].levels) + Pulses(sequence, n)
        ensures Named(sequence, n) ==> motors[n].currentIntensity == 0.0 && !motors[n].isRunning
        ensures !Named(sequence, n) ==> motors[n].currentIntensity == old(motors[n].currentIntensity) &&
                                        motors[n].isRunning == old(motors[n].isRunning)
      {
        var m := motors[n];
        assert m.levels == Replay(old(m.levels), sequence, |sequence|, n);
        PulsedLevel(old(m.levels), sequence, n);
        assert m.Valid() && old(m.Valid());
      }
    }

    /** `vibrate_pattern_all`: every motor plays the same pattern in lockstep, then all stop. */
    method VibratePatternAll(pattern: seq<PatternStep>)
      requires Valid()
      modifies motors.Values
      ensures Valid()
      ensures forall n :: n in motors ==> motors[n].currentIntensity == 0.0 && !motors[n].isRunning &&
                                          motors[n].levels == old(motors[n].levels) + PatternLevels(pattern) + [0.0]
    {
      var i := 0;
      while i < |pattern|
        invariant 0 <= i <= |pattern|
        invariant Valid()
        invariant forall n :: n in motors ==> motors[n].levels == old(motors[n].levels) + PatternLevels(pattern)[..i]
      {
        SetAllIntensity(pattern[i].intensity.GetOr(0.0));
        assert PatternLevels(pattern)[..i + 1] == PatternLevels(pattern)[..i] + [PatternLevels(pattern)[i]];
        i := i + 1;
      }
      assert PatternLevels(pattern)[..i] == PatternLevels(pattern);
      StopAll();
    }

    /** `cleanup`: every motor is cleaned up, which stops it. */
    method Cleanup()
      requires Valid()
      modifies motors.Values
      ensures Valid()
      ensures forall n :: n in motors ==> motors[n].currentIntensity == 0.0 && !motors[n].isRunning &&
                                          motors[n].levels == old(motors[n].levels) + [0.0]
    {
      var todo := motors.Keys;
      while todo != {}
        invariant todo <= motors.Keys
        invariant Valid()
        invariant forall n :: n in motors && n !in todo ==>
                    motors[n].currentIntensity == 0.0 && motors[n].levels == old(motors[n].levels) + [0.0]
        invariant forall n :: n in todo ==> unchanged(motors[n])
        decreases todo
      {
        var name :| name in todo;
        motors[name].Cleanup();
        todo := todo - {name};
      }
    }

    /** `get_motor_states`: one entry per motor, reporting its intensity and whether it runs. */
    method GetMotorStates() returns (states: map<string, MotorStatus>)
      requires Valid()
      ensures states.Keys == motors.Keys
      ensures forall n :: n in states ==> states[n] == MotorStatus(motors[n].currentIntensity, motors[n].isRunning)
      ensures forall n :: n in states ==> 0.0 <= states[n].intensity <= 100.0 &&
                                          (states[n].isRunning <==> states[n].intensity > 0.0)
    {
      states := map[];
      var todo := motors.Keys;
      while todo != {}
        invariant todo <= motors.Keys && states.Keys == motors.Keys - todo
        invariant forall n :: n in states ==> states[n] == MotorStatus(motors[n].currentIntensity, motors[n].isRunning)
        decreases todo
      {
        var name :| name in todo;
        var intensity := motors[name].GetIntensity();
        var running := motors[name].IsVibrating();
        states := states[name := MotorStatus(intensity, running)];
        todo := todo - {name};
      }
    }
  }
}
