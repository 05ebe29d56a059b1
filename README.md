# Hand tracking, actuators, calibration and graph agents — a Dafny model

This project models the deterministic core of a Raspberry Pi system. The
system tracks a hand with two cameras, drives vibration motors, DC motors and
a stepper motor, calibrates the stereo camera pair, and turns spoken or typed
requests into graph commands through Gemini. Each Python module is its own
Dafny module:

- `HandTracker` (`modules/hand_tracker_3d.py`):
  - pairs every hand seen by the left camera with a right-camera hand by wrist row;
  - triangulates the landmark pairs through the reprojection matrix Q;
  - assembles the per-frame hand records;
  - selects fingertips and the wrist, and tests whether a finger is extended.
- `Vibration` (`modules/vibration_motor.py`):
  - `VibrationMotor`, a class with a clamped intensity and a running flag tied to it. A ghost log `levels` records every intensity stored, so fades and patterns are stated as the sequence of duty cycles they produce;
  - `VibrationMotorController`, a class over a fixed dictionary of motors.
- `Motors` (`modules/motor_controller.py`):
  - `MotorController`, a class whose `motorStates` map is updated in place;
  - `StepperMotorController`, a class with a position counter.
- `StereoCalibration` (`modules/stereo_calibration.py`):
  - the chessboard object-point grid;
  - the guards of the calibration;
  - the 15 fields written to and read from the calibration file.
- `GeminiAgent` (`modules/gemini_agent.py`):
  - code-fence stripping;
  - spoken-command dispatch and `{…}` candidate extraction;
  - the keyword fallback parser;
  - the equation history.
- `GeminiAudio` (`modules/gemini_agent_multimodal.py`):
  - the same command decoding, with its own defaults;
  - the recording state machine.
- Shared modules:
  - `Wrappers` (Option);
  - `Geometry` (points, 4-vectors, 4×4 matrices);
  - `Percent` (the 0–100 clamp and linear ramps);
  - `Text` (Python's `strip`, `find`, `split`, ASCII `lower`, fence stripping);
  - `Json` (the value `json.loads` produces) and `GraphCommand` (defaults and hue).

Foreign calls are parameters of the operations that make them:

- Mediapipe detections arrive as landmark lists.
- `cv2.findChessboardCorners` with `cornerSubPix` is `detect`.
- The OpenCV calibration and rectification are `solve`.
- `cv2.remap` is `remap`, and `np.linalg.norm` is `norm`.
- `json.loads` is `decode`.
- Whether `eval` of a lambda string succeeds is `evalOk`/`lambdaOk`.
- Gemini's reply text is `reply`.
- An opened PyAudio stream is `handle`, and each chunk read is `read`.

A Python exception that aborts an operation becomes a result value, not a precondition. This covers ZeroDivisionError in fades, acceleration and stepper delays, the IndexError of `point_3d[3]` in triangulation, and JSON decode errors. The hand-record selectors (fingertips, wrist, finger extension) and the hand matcher instead require the 21 landmarks Mediapipe gives every detected hand, which is the only way `process_frame` builds a record; the IndexError a shorter landmark list would raise there is not modelled.

## Model

| member | source | states |
|---|---|---|
| Percent.Clamp | modules/vibration_motor.py:79 | the result lies in [0, 100]; it is the input itself inside that range, 0 below it and 100 above it |
| Percent.ClampMonotone | modules/motor_controller.py:142 | clamping preserves order, so a monotone ramp stays monotone after clamping |
| Percent.IncrementSum | modules/vibration_motor.py:160-163 | `steps` increments of `total / steps` add back up to `total`; the increment is non-negative for a non-negative total |
| Percent.ScaleMonotone | modules/motor_controller.py:307-311 | `increment * i` grows with `i` for a non-negative increment |
| Geometry.Abs | modules/hand_tracker_3d.py:228 | `abs`: non-negative, equal to x or -x |
| Text.TrimStart | modules/gemini_agent.py:284 | `lstrip` returns the suffix left after dropping every leading whitespace character (Python's `str.isspace` set, Unicode spaces included); it starts with no whitespace |
| Text.TrimEnd | modules/gemini_agent.py:284 | `rstrip` returns the prefix left after dropping every trailing whitespace character (the same set); it ends with no whitespace |
| Text.Strip | modules/gemini_agent.py:284 | `strip` never lengthens the text, and what it returns neither starts nor ends with whitespace |
| Text.StripIsPiece | modules/gemini_agent.py:284 | `strip` returns a piece s[a..b] of the input with only whitespace before a and from b on |
| Text.StripIdempotent | modules/gemini_agent.py:284-288 | stripping a stripped text changes nothing |
| Text.FindFrom | modules/gemini_agent.py:285 | the reported index is an occurrence with none before it; None means no occurrence |
| Text.Find | modules/gemini_agent.py:285-287 | `str.find`: the leftmost occurrence, or None when there is none |
| Text.FindIsLeftmost | modules/gemini_agent.py:285-288 | any occurrence with no earlier one is the index Find reports |
| Text.OccursInPrefix | modules/gemini_agent.py:286 | an occurrence inside a prefix is an occurrence in the whole text |
| Text.UpToIdempotent | modules/gemini_agent.py:286 | `split(sep)[0]` of a text already cut at `sep` is that text |
| Text.Split | modules/gemini_agent.py:286-288 | `str.split` gives at least one piece, and one piece exactly when the separator is absent |
| Text.SplitJoin | modules/gemini_agent.py:286-288 | joining the pieces of a split with the separator gives back the original text |
| Text.SplitPiecesFree | modules/gemini_agent.py:286-288 | no piece of a split contains the separator |
| Text.SplitSecond | modules/gemini_agent.py:288 | `split(sep)[1]` is the text between the first and second separator, or the rest of the text |
| Text.ExtractUnfenced | modules/gemini_agent.py:284-288 | without any fence the JSON payload is the stripped response |
| Text.ExtractBareFence | modules/gemini_agent.py:287-288 | with a bare "```" and no "```json", the payload is the text between the first two fences, stripped |
| Text.Lower | modules/gemini_agent.py:430 | `lower` keeps the length, maps 'A'..'Z' to 'a'..'z' (so none is left), and changes no other character |
| Text.ExtractJsonTextStripped | modules/gemini_agent.py:284-288 | whichever fence branch is taken, the payload is already stripped |
| Text.ExtractJsonFence | modules/gemini_agent.py:285-286 | with "```json", the payload is the text after it up to the next "```", stripped, when no four-backtick run occurs |
| Text.UpToBeforeJsonFence | modules/gemini_agent_multimodal.py:242-243 | cutting at "```json" then at "```" equals cutting at "```" when no four backticks occur |
| Json.Get | modules/gemini_agent.py:291 | `dict.get`: the stored value when the key is present, otherwise the default |
| Json.MinusOne | modules/gemini_agent.py:336 | `v - 1` succeeds exactly for numbers and booleans (True counts as 1), and subtracts one |
| GraphCommand.Hue | modules/gemini_agent.py:305 | `(len(history) * 0.17) % 1.0` lies in [0, 1) |
| GraphCommand.HuePeriodic | modules/gemini_agent_multimodal.py:258 | hues repeat every 100 history entries |
| GeminiAgent.DecodeAudioCommand | modules/gemini_agent.py:278-350 | a command is produced only from a decoded JSON object; an added graph gets a hue in [0, 1) |
| GeminiAgent.AudioCommandAccepted | modules/gemini_agent.py:290-342 | a command is produced exactly for add_graph with an evaluable lambda, for delete_graph, and for toggle_graph with a numeric index, and its kind is the decoded action; an unknown action or a decode failure gives None |
| GeminiAgent.AddGraphDefaults | modules/gemini_agent.py:293-297 | for an add_graph object whose lambda evaluates, each of name, equation_str and lambda_str is passed through when present and becomes '새 그래프', 'f(x)' or 'lambda x: x' when missing, field by field; the hue comes from the history length |
| GeminiAgent.DeleteDefaultsToLast | modules/gemini_agent.py:326-331 | delete_graph without a mode deletes 'last', keeping the given description |
| GeminiAgent.ToggleIndexShift | modules/gemini_agent.py:333-338 | toggle_graph's index is the given number minus 1; without an index it is 0 |
| GeminiAgent.FirstClose | modules/gemini_agent.py:377 | the first '}' at or after a position, or None when no '}' follows |
| GeminiAgent.BraceSpanFrom | modules/gemini_agent.py:377 | the leftmost `\{[^}]+\}` match at or after a position; None exactly when no match starts there or later |
| GeminiAgent.NoMatchAt | modules/gemini_agent.py:377 | a position failing the scan test starts no match |
| GeminiAgent.FindBraceObject | modules/gemini_agent.py:377-382 | the candidate is a '{', at least one non-'}' character and the first '}' after them, with no match starting earlier; None exactly when the text has no such substring |
| GeminiAgent.ParseGeminiResponse | modules/gemini_agent.py:371-422 | an equation is returned exactly when the leftmost candidate decodes to an object holding name, equation_str and lambda_str with an evaluable lambda; its fields are those values and the description defaults to '' |
| GeminiAgent.MissingFieldRejected | modules/gemini_agent.py:386-389 | a candidate missing any of the three required fields gives None |
| GeminiAgent.AnyContainedIsAlternation | modules/gemini_agent.py:473 | a group matches exactly when one of its alternatives occurs in the text |
| GeminiAgent.FirstMatchingGroupFrom | modules/gemini_agent.py:472-479 | the first group at or after a position that matches; None when none does |
| GeminiAgent.FallbackWith | modules/gemini_agent.py:430-483 | an equation exactly when some group matches the lowercased text; it is the first matching group's equation with description '"text"로부터 생성' |
| GeminiAgent.FallbackParser | modules/gemini_agent.py:424-483 | as written, with the groups in declaration order: an answer exactly when some group's keyword occurs in the lowercased text |
| GeminiAgent.FallbackParserFixed | modules/gemini_agent.py:424-483 | the same parser with cubic before parabola and cosine before sine; it accepts the same requests |
| GeminiAgent.SameGroups | modules/gemini_agent.py:433-470 | both orders hold the same six groups |
| GeminiAgent.FixedAcceptsSameTexts | modules/gemini_agent.py:472-483 | reordering rejects no request the original accepts, and accepts no new one |
| GeminiAgent.SameGroupsSameAcceptance | modules/gemini_agent.py:472-483 | group lists with the same members accept the same texts |
| GeminiAgent.NoPairNotContained | modules/gemini_agent.py:473 | a keyword whose first two characters never appear adjacent in a text does not occur in it |
| GeminiAgent.NoneOccurNotContained | modules/gemini_agent.py:473 | a group none of whose keywords passes that test does not match |
| GeminiAgent.OrderedGroupsClear | modules/gemini_agent.py:433-470 | in the corrected order every keyword is lower case and holds no keyword of an earlier group |
| GeminiAgent.CubicClear | modules/gemini_agent.py:464 | the cubic keywords are clear of every earlier group |
| GeminiAgent.ParabolaClear | modules/gemini_agent.py:434 | the parabola keywords are clear of every earlier group |
| GeminiAgent.CosineClear | modules/gemini_agent.py:446 | the cosine keywords are clear of every earlier group |
| GeminiAgent.SineClear | modules/gemini_agent.py:440 | the sine keywords are clear of every earlier group |
| GeminiAgent.LineClear | modules/gemini_agent.py:452 | the line keywords are clear of every earlier group |
| GeminiAgent.AbsoluteClear | modules/gemini_agent.py:458 | the absolute-value keywords are clear of every earlier group |
| GeminiAgent.OwnGroupSelected | modules/gemini_agent.py:472-479 | in a clear order, a request that is a keyword of group k yields group k's equation |
| GeminiAgent.OrderedKeywordSelectsOwnGroup | modules/gemini_agent.py:433-479 | with the corrected order, every keyword of every group selects its own group |
| GeminiAgent.CosineKeywordShadowed | modules/gemini_agent.py:440-451 | as written, "코사인" (cosine) yields the sine curve, because "사인" is tried first |
| GeminiAgent.CubeKeywordShadowed | modules/gemini_agent.py:434-469 | as written, "세제곱" (cube) yields the parabola, because "제곱" is tried first |
| GeminiAgent.GeminiMathAgent.constructor | modules/gemini_agent.py:44-71 | the history starts empty |
| GeminiAgent.GeminiMathAgent.ParseAudioResponse | modules/gemini_agent.py:278-350 | returns the decoded command, with the hue taken from the current history length; exactly an add_graph command is appended to the history |
| GeminiAgent.GeminiMathAgent.TextToEquation | modules/gemini_agent.py:175-217 | with a model and a reply that parses, the equation is returned and recorded with the request; otherwise the keyword fallback answers and nothing is recorded. The fallback is `_fallback_parser` as written (FallbackParser), groups in declaration order |
| GeminiAgent.GeminiMathAgent.ClearHistory | modules/gemini_agent.py:507-511 | the history becomes empty |
| GeminiAudio.DecodeCommand | modules/gemini_agent_multimodal.py:237-294 | a command is produced only from a decoded JSON object; an added graph gets a hue in [0, 1) |
| GeminiAudio.CommandAccepted | modules/gemini_agent_multimodal.py:247-294 | a command is produced exactly for add_graph with an evaluable lambda, delete_graph, and toggle_graph with a numeric index, and its kind is the decoded action |
| GeminiAudio.AddGraphDefaults | modules/gemini_agent_multimodal.py:250-268 | for an add_graph object whose lambda evaluates, name and equation_str are each passed through when present and become '새 그래프' or 'f(x)' when missing, field by field; the hue comes from the history length |
| GeminiAudio.DeleteDefaultsToLast | modules/gemini_agent_multimodal.py:277-281 | delete_graph without a mode deletes 'last' |
| GeminiAudio.ToggleIndexShift | modules/gemini_agent_multimodal.py:283-287 | toggle_graph's index is the given number minus 1, and 0 without an index |
| GeminiAudio.Concat | modules/gemini_agent_multimodal.py:139 | joining no chunks gives no bytes |
| GeminiAudio.ConcatLength | modules/gemini_agent_multimodal.py:106-139 | the recording holds every byte read: its length is the sum of the chunk lengths |
| GeminiAudio.ConcatAppend | modules/gemini_agent_multimodal.py:106 | appending a chunk appends its bytes to the recording |
| GeminiAudio.GeminiAudioAgent.constructor | modules/gemini_agent_multimodal.py:40-61 | not recording, no stream, no frames, empty history |
| GeminiAudio.GeminiAudioAgent.ParseResponse | modules/gemini_agent_multimodal.py:237-294 | returns the decoded command; exactly an add_graph command is appended to the history |
| GeminiAudio.GeminiAudioAgent.StartRecording | modules/gemini_agent_multimodal.py:63-95 | succeeds exactly with PyAudio available, no open stream and a stream opened; then it is recording with no frames; otherwise nothing changes; a stream is open exactly while recording |
| GeminiAudio.GeminiAudioAgent.RecordChunk | modules/gemini_agent_multimodal.py:97-108 | exactly one chunk is appended, and only while recording and when the read succeeds |
| GeminiAudio.GeminiAudioAgent.StopRecording | modules/gemini_agent_multimodal.py:110-131 | when not recording, None and nothing changes; otherwise recording stops and the stream is closed, with None exactly when no frames were captured, and the captured bytes otherwise |
| GeminiAudio.GeminiAudioAgent.Cleanup | modules/gemini_agent_multimodal.py:296-299 | afterwards not recording and no stream open |
| HandTracker.Extract2DLandmarks | modules/hand_tracker_3d.py:183-204 | one pixel per landmark, in order, each being (x·width, y·height) |
| HandTracker.ToPixelInvertible | modules/hand_tracker_3d.py:196-202 | the pixel scaling loses nothing: dividing by the image size gives back the landmark |
| HandTracker.FirstMinIndex | modules/hand_tracker_3d.py:226-232 | the strict-`<` scan ends at a smallest wrist gap, with every earlier hand strictly farther |
| HandTracker.BestMatch | modules/hand_tracker_3d.py:206-238 | None for no right hands; the result is a smallest wrist gap, the lowest index among ties, strictly below 0.1; None exactly when every gap is at least 0.1 |
| HandTracker.FindMatchingHand | modules/hand_tracker_3d.py:206-238 | the loop computes BestMatch |
| HandTracker.TriangulatePoint | modules/hand_tracker_3d.py:261-289 | one landmark pair, scaled to pixels by the image width: a disparity below one pixel in size gives (0,0,0) |
| HandTracker.TriangulatePointAsWritten | modules/hand_tracker_3d.py:261-289 | the same step with the source's own W check: a disparity below one pixel in size still yields the sentinel (0,0,0) |
| HandTracker.TriangulateAll | modules/hand_tracker_3d.py:261-289 | the `zip` loop: one point per landmark pair up to the shorter list, point i triangulated from pair i |
| HandTracker.TriangulatePixels | modules/hand_tracker_3d.py:261-289 | from the pixel coordinates xL, yL, xR: a disparity xL - xR below one pixel in size gives (0,0,0), and so does a zero weight W of Q·(xL, yL, d, 1) |
| HandTracker.TriangulateHomogeneous | modules/hand_tracker_3d.py:277-287 | otherwise the point is (X/W, Y/W, Z/W) for (X,Y,Z,W) = Q·(xL, yL, d, 1): scaled by W it gives back X, Y and Z |
| HandTracker.RightRowIgnored | modules/hand_tracker_3d.py:265-266 | the right landmark's y (and z) never affect the point |
| HandTracker.PerspectiveTransform | modules/hand_tracker_3d.py:277-280 | `cv2.perspectiveTransform` of one point yields three components |
| HandTracker.PyIndex | modules/hand_tracker_3d.py:283 | Python indexing succeeds exactly within bounds, otherwise IndexError |
| HandTracker.AsWrittenRaisesOnUsableDisparity | modules/hand_tracker_3d.py:277-283 | as written, every pair with a usable disparity raises IndexError at `point_3d[3]` |
| HandTracker.TriangulateIsPerspectiveTransform | modules/hand_tracker_3d.py:277-289 | the corrected point is exactly the 3-vector perspectiveTransform returns |
| HandTracker.TriangulateLandmarks | modules/hand_tracker_3d.py:240-291 | None exactly without Q; otherwise one point per zipped landmark pair, in order |
| HandTracker.ProcessFrame | modules/hand_tracker_3d.py:130-162 | the pairing loop yields FrameHands: nothing unless both cameras see hands, then a record for each left hand that finds a partner |
| HandTracker.MatchedIncreasing | modules/hand_tracker_3d.py:132-141 | the left hands that produce records are distinct and in detection order, and a left hand produces one exactly when Q is known and it has a best right hand |
| HandTracker.FrameHands | modules/hand_tracker_3d.py:130-162 | no records unless both cameras see hands, and never more records than zipped left hands |
| HandTracker.FrameHandsFromLeftHands | modules/hand_tracker_3d.py:132-162 | record t comes from the t-th paired left hand: its handedness and confidence, triangulated against its best right hand |
| HandTracker.Contribution | modules/hand_tracker_3d.py:135-162 | one loop iteration appends at most one record, exactly when Q is known and the left hand has a best right hand, and that record is built from this left hand, its handedness and its best right hand |
| HandTracker.FrameHandsStep | modules/hand_tracker_3d.py:132-162 | the records after k + 1 iterations are those after k followed by iteration k's contribution |
| HandTracker.PairedFlags | modules/hand_tracker_3d.py:135-150 | one flag per left hand, set exactly when Q is known and the hand has a best right hand |
| HandTracker.NoCalibrationNoHands | modules/hand_tracker_3d.py:146-150 | without Q no hand is reported |
| HandTracker.NoCalibrationUpTo | modules/hand_tracker_3d.py:146-150 | without Q no prefix of the loop reports a hand |
| HandTracker.SharedRightHand | modules/hand_tracker_3d.py:136-142 | a right hand is never removed from the candidates: two left hands can both pair with one right hand |
| HandTracker.FingertipsAreTips | modules/hand_tracker_3d.py:305-311 | fingertip indices 4, 8, 12, 16 and 20 name each finger's TIP landmark |
| HandTracker.JointsRunBaseToTip | modules/hand_tracker_3d.py:344-350 | each joint list runs from the finger's CMC or MCP landmark to its TIP landmark |
| HandTracker.GetFingertipPositions | modules/hand_tracker_3d.py:293-319 | one entry per finger, holding its tip landmark's point |
| HandTracker.GetWristPosition | modules/hand_tracker_3d.py:321-331 | the WRIST landmark, index 0 |
| HandTracker.IsFingerExtended | modules/hand_tracker_3d.py:333-373 | false for unknown names; the thumb compares tip and CMC x by handedness; the other fingers test tip y < MCP y |
| Vibration.PatternLevels | modules/vibration_motor.py:134-139 | one clamped level per pattern step, a missing intensity meaning 0 |
| Vibration.FadeInRamp | modules/vibration_motor.py:159-165 | a fade-in sets steps + 1 levels |
| Vibration.FadeInShape | modules/vibration_motor.py:159-165 | a fade-in starts at 0 and ends at clamp(max); for max ≥ 0 it never decreases |
| Vibration.FadeOutRamp | modules/vibration_motor.py:175-184 | a fade-out sets steps + 1 levels |
| Vibration.FadeOutEnds | modules/vibration_motor.py:179-184 | a fade-out from a valid intensity ends at exactly 0 |
| Vibration.FadeOutUnclamped | modules/vibration_motor.py:179-183 | from a valid intensity the clamp never acts: level i is start − start/steps·i |
| Vibration.FadeOutShape | modules/vibration_motor.py:175-184 | a fade-out starts at the current intensity, ends at 0 and never increases |
| Vibration.VibrationMotor.constructor | modules/vibration_motor.py:32-54 | intensity 0, not running, simulation mode when asked or without GPIO |
| Vibration.VibrationMotor.SetIntensity | modules/vibration_motor.py:68-92 | always True; the intensity becomes the clamped input and the running flag follows it; the level is logged |
| Vibration.VibrationMotor.Start | modules/vibration_motor.py:94-102 | exactly set_intensity |
| Vibration.VibrationMotor.Stop | modules/vibration_motor.py:104-107 | intensity 0 and not running |
| Vibration.VibrationMotor.Pulse | modules/vibration_motor.py:109-119 | the clamped level, then 0; ends stopped |
| Vibration.VibrationMotor.VibratePattern | modules/vibration_motor.py:121-144 | the pattern's levels in order, then 0; ends stopped |
| Vibration.VibrationMotor.FadeIn | modules/vibration_motor.py:146-165 | steps 0 raises ZeroDivisionError and negative steps do nothing, both leaving the motor unchanged; otherwise the fade-in ramp is logged and the motor ends at clamp(max) |
| Vibration.VibrationMotor.FadeOut | modules/vibration_motor.py:167-184 | steps 0 raises ZeroDivisionError and negative steps do nothing; otherwise the fade-out ramp from the current intensity is logged and the motor ends stopped |
| Vibration.VibrationMotor.GetIntensity | modules/vibration_motor.py:186-193 | the current intensity, in [0, 100] |
| Vibration.VibrationMotor.IsVibrating | modules/vibration_motor.py:195-202 | the running flag, true exactly when the intensity is positive |
| Vibration.VibrationMotor.Cleanup | modules/vibration_motor.py:204-215 | the motor ends stopped |
| Vibration.ReplayAppends | modules/vibration_motor.py:370-383 | replaying a pulse sequence only appends to a motor's log |
| Vibration.PulsesShape | modules/vibration_motor.py:370-383 | a motor's pulses are empty exactly when no step names it, come in whole pulses, and end at 0 when some step names it |
| Vibration.PulsedLevel | modules/vibration_motor.py:357-385 | after a sequence, a motor named by some step is stopped and a motor named by none is untouched |
| Vibration.VibrationMotorController.constructor | modules/vibration_motor.py:232-261 | one valid, idle motor per configured name |
| Vibration.VibrationMotorController.SetIntensity | modules/vibration_motor.py:263-278 | False for an unknown name, with no motor changed; otherwise that motor takes the clamped intensity and no other motor changes |
| Vibration.VibrationMotorController.SetAllIntensity | modules/vibration_motor.py:280-289 | every motor takes the same clamped intensity |
| Vibration.VibrationMotorController.Start | modules/vibration_motor.py:291-307 | False for an unknown name; otherwise only that motor starts |
| Vibration.VibrationMotorController.StartAll | modules/vibration_motor.py:309-313 | every motor runs at the same clamped intensity |
| Vibration.VibrationMotorController.Stop | modules/vibration_motor.py:315-330 | False for an unknown name; otherwise only that motor stops |
| Vibration.VibrationMotorController.StopAll | modules/vibration_motor.py:332-336 | every motor stopped |
| Vibration.VibrationMotorController.Pulse | modules/vibration_motor.py:338-355 | False for an unknown name; otherwise only that motor pulses and ends stopped |
| Vibration.VibrationMotorController.PulseStep | modules/vibration_motor.py:371-383 | one step: only the motor the step names, when it exists, logs a pulse at the step's intensity (default 100); every other log is unchanged |
| Vibration.VibrationMotorController.ReplayStep | modules/vibration_motor.py:371-383 | one loop iteration extends the replay of the first i steps to the first i + 1 |
| Vibration.VibrationMotorController.RunSequence | modules/vibration_motor.py:370-383 | after the loop over the steps, each motor's log is its old log followed by the pulses of the steps that name it, in order, and the controller stays valid |
| Vibration.VibrationMotorController.PulseSequence | modules/vibration_motor.py:357-385 | each motor's log gains its pulses in sequence order; steps naming unknown motors are skipped; a motor named by some step ends stopped, one named by none keeps its state |
| Vibration.VibrationMotorController.VibratePatternAll | modules/vibration_motor.py:387-405 | every motor plays the pattern's levels, then ends stopped |
| Vibration.VibrationMotorController.Cleanup | modules/vibration_motor.py:422-429 | every motor cleaned up, hence stopped |
| Vibration.VibrationMotorController.GetMotorStates | modules/vibration_motor.py:407-420 | one entry per motor, reporting its intensity and running flag |
| Motors.StoredSpeed | modules/motor_controller.py:142-171 | the stored speed is clamped to [0, 100], and is forced to 0 for "stop" only on hardware |
| Motors.Stopped | modules/motor_controller.py:182-192 | a stopped motor has speed 0 and direction "stop", and keeps its enable flag |
| Motors.RampEnds | modules/motor_controller.py:307-313 | the acceleration ramp starts at the current speed, ends at the target and rises monotonically toward a higher target |
| Motors.MotorController.constructor | modules/motor_controller.py:32-121 | every configured motor starts at speed 0, direction "stop", enabled |
| Motors.MotorController.SetMotorSpeed | modules/motor_controller.py:123-180 | True exactly for a known motor and a valid direction; then the motor takes the stored speed and direction and keeps its enable flag; otherwise the table is unchanged |
| Motors.MotorController.StopMotor | modules/motor_controller.py:182-192 | True exactly for a known motor, which is left stopped; nothing else changes |
| Motors.MotorController.StopAllMotors | modules/motor_controller.py:194-198 | every motor stopped, with its enable flag kept |
| Motors.MotorController.MoveMotorForDuration | modules/motor_controller.py:200-221 | an accepted request runs the motor and leaves it stopped; otherwise False with the table unchanged |
| Motors.MotorController.GetMotorState | modules/motor_controller.py:223-233 | the motor's state, or None for an unknown motor |
| Motors.MotorController.GetAllMotorStates | modules/motor_controller.py:235-242 | a copy of the table |
| Motors.MotorController.EnableMotor | modules/motor_controller.py:244-260 | sets the enable flag of a known motor and nothing else |
| Motors.MotorController.DisableMotor | modules/motor_controller.py:262-279 | stops a known motor and clears its enable flag |
| Motors.MotorController.SetMotorAcceleration | modules/motor_controller.py:281-315 | False for an unknown motor; ZeroDivisionError for 0 steps; otherwise True, and with positive steps and a valid direction the final stored speed is that of the target |
| Motors.MotorController.RampStep | modules/motor_controller.py:311-312 | call i of the ramp keeps the controller valid and, when the direction is accepted, leaves the motor at ramp speed i with its enable flag kept; otherwise nothing changes |
| Motors.MotorController.ExecuteMotorSequence | modules/motor_controller.py:317-348 | False for an unknown motor; a motor that accepted any step ends stopped; steps with a rejected direction change nothing |
| Motors.MotorController.Cleanup | modules/motor_controller.py:350-379 | every motor stopped |
| Motors.TruncateTowardZero | modules/motor_controller.py:503 | `int()` truncates toward zero |
| Motors.TruncateOdd | modules/motor_controller.py:503 | truncation toward zero is odd |
| Motors.AngleSteps | modules/motor_controller.py:503 | `int(...)` of angle/360 · steps per revolution · microsteps: truncated toward zero, so within one step of the exact value and on the same side of zero |
| Motors.AngleStepsOdd | modules/motor_controller.py:495-504 | opposite angles ask for opposite step counts |
| Motors.FullTurn | modules/motor_controller.py:495-504 | a full turn asks for exactly steps_per_revolution · microsteps steps |
| Motors.PositionDelta | modules/motor_controller.py:461-488 | without a direction the position changes by `steps`; with "forward" by +abs(steps), with any other direction by −abs(steps) |
| Motors.StepperMotorController.constructor | modules/motor_controller.py:397-431 | position 0, enabled |
| Motors.StepperMotorController.MoveSteps | modules/motor_controller.py:450-493 | the position moves by PositionDelta, unless the step delay divides by zero |
| Motors.StepperMotorController.MoveAngle | modules/motor_controller.py:495-504 | the position moves by the truncated step count of the angle |
| Motors.StepperMotorController.MoveToPosition | modules/motor_controller.py:506-515 | the position ends at the target |
| Motors.StepperMotorController.ResetPosition | modules/motor_controller.py:517-520 | the position becomes 0 |
| Motors.StepperMotorController.Enable | modules/motor_controller.py:522-527 | enabled |
| Motors.StepperMotorController.Disable | modules/motor_controller.py:529-534 | disabled |
| StereoCalibration.RowMajor | modules/stereo_calibration.py:69-71 | the row and column of a row-major index are recovered by division and remainder |
| StereoCalibration.AlongInjective | modules/stereo_calibration.py:72 | distinct corners along an axis have distinct coordinates when the square size is non-zero |
| StereoCalibration.ObjectPoints | modules/stereo_calibration.py:64-73 | exactly cols·rows points, all at depth 0 |
| StereoCalibration.ObjectPointAt | modules/stereo_calibration.py:66-73 | point row·cols + col is (col·square, row·square, 0) |
| StereoCalibration.ObjectPointsDistinct | modules/stereo_calibration.py:66-73 | with a non-zero square size no two points coincide |
| StereoCalibration.ObservedUpTo | modules/stereo_calibration.py:197-217 | the three collected lists stay aligned, and every object-point entry is the board grid |
| StereoCalibration.ObservedCountsUsablePairs | modules/stereo_calibration.py:205-217 | one observation per image pair with corners found in both images |
| StereoCalibration.StereoCalibrator.constructor | modules/stereo_calibration.py:27-62 | nothing calibrated; the object points follow the board |
| StereoCalibration.StereoCalibrator.CalibrateCameras | modules/stereo_calibration.py:171-292 | False with nothing changed for an empty list or fewer than 10 usable pairs; otherwise intrinsics and extrinsics are stored, and maps and Q only when the stereo error is non-zero, which is also the result |
| StereoCalibration.StereoCalibrator.CollectObservations | modules/stereo_calibration.py:197-217 | the loop gathers exactly the usable pairs' observations |
| StereoCalibration.StereoCalibrator.StoreCalibration | modules/stereo_calibration.py:229-253 | the two cameras' matrices and distortion, R, T, E and F are stored, and nothing else changes |
| StereoCalibration.StereoCalibrator.StoreRectification | modules/stereo_calibration.py:259-286 | Q and the four rectification maps are stored |
| StereoCalibration.StereoCalibrator.SaveCalibration | modules/stereo_calibration.py:294-335 | without a left camera matrix, or when the file write fails, nothing readable is written and the result is False; otherwise the 15 fields are written and the result is True |
| StereoCalibration.StereoCalibrator.LoadCalibration | modules/stereo_calibration.py:337-377 | False with nothing changed when the file is absent; otherwise all 15 fields take the stored values; the object points are kept |
| StereoCalibration.StereoCalibrator.Restore | modules/stereo_calibration.py:356-370 | the 15 fields equal the record |
| StereoCalibration.StereoCalibrator.RestoreCameras | modules/stereo_calibration.py:356-363 | the two camera matrices, distortion vectors, R, T, E and F equal the record's |
| StereoCalibration.StereoCalibrator.RestoreRectification | modules/stereo_calibration.py:364-368 | the four rectification maps and Q equal the record's |
| StereoCalibration.StereoCalibrator.RectifyImages | modules/stereo_calibration.py:379-405 | the inputs unchanged without a left map; otherwise each image remapped with its own camera's maps |
| StereoCalibration.StereoCalibrator.GetBaseline | modules/stereo_calibration.py:407-419 | 0.0 without T, otherwise the norm of T |
| StereoCalibration.SaveThenLoad | modules/stereo_calibration.py:294-377 | loading what another calibrator saved restores all 15 fields, exactly when that calibrator holds a left camera matrix and the write succeeded; otherwise the loader is unchanged |

## Left out

- Motors.MotorController.GetMotorState and GetAllMotorStates return values. In the source, `get_motor_state` hands out the live per-motor dict and `get_all_motor_states` a shallow copy whose inner dicts are shared, so a caller's edit to them changes the controller's state; that aliasing is not modelled.
- Hardware output is not modelled: lgpio, RPi.GPIO, PWM duty-cycle writes, pin direction writes, the stepper pulse train and releasing pins in `cleanup`. The vibration motors keep a ghost log of the duty cycles they would write instead.
- `time.sleep` is not modelled, so durations are not parameters. Its ValueError on a negative duration is not modelled either.
- Logging is not modelled, and neither is `__del__`.
- Floating point is not modelled: values are mathematical reals, not float32 or float64. Rounding in `(len(history) * 0.17) % 1.0` is therefore not captured, and neither is the float32 grid in `_create_object_points`.
- Colour output is not modelled: `colorsys.hsv_to_rgb` and the random colours of the typed-request path. Only the hue is.
- The image and vision libraries are parameters and are not modelled themselves: Mediapipe detection, `cv2.cvtColor`, drawing, `findChessboardCorners`, `cornerSubPix`, `calibrateCamera`, `stereoCalibrate`, `stereoRectify`, `initUndistortRectifyMap`, `cv2.remap` and `np.linalg.norm`.
- `img_size` is modelled for grey-scale images only, as (width, height).
- The calibration file is modelled as the record that was written, or None when the file is absent or unreadable. A failed save is taken to leave no readable record; an `open` that fails while an older file survives (which a later load would then read) is not modelled. Pickle encoding is not modelled, nor a file that raises after some fields were assigned.
- `capture_calibration_images` and `print_calibration_info` are camera and console interaction and are not modelled.
- `record_audio`, `process_audio_command` and the Gemini API calls are network and device I/O and are not modelled. The same holds for the WAV container built by `stop_recording`, stream close errors and `pyaudio.terminate`.
- `json.loads` and `eval` of lambda strings are parameters. Whether a lambda is usable is given as `evalOk`/`lambdaOk`.
- `lower()` is modelled as ASCII-only. The Korean keywords have no case, so this does not affect them.
- Text.ExtractJsonFence: the payload property is stated only for text without a run of four backticks. With such a run, as in "````json", the source keeps one stray backtick.
- `modules/gemini_agent.py` does not parse as written: prompt text is stranded in the middle of the class.
  - `_create_conversion_prompt`, `listen_voice_command` and `SPEECH_AVAILABLE` are not part of this model. Neither is `get_equation_by_voice`, which relies on them.
  - `TextToEquation` takes the model's reply as a parameter.
  - Since `_create_conversion_prompt` is missing, every call with a model would land in the exception handler as the file stands, which corresponds to `reply == None`.
- The `VIBRATION_PATTERNS` table and the demo scripts are data and console code, and are not modelled.
- `StepperMotorController.cleanup` only releases GPIO pins and is not modelled.
- A dictionary entry holding an explicit None (`{'intensity': None}`) is not modelled. In the source it raises a TypeError; in the model a missing key and a None value are the same `Option`.

## Findings

| source | as written | input that shows it | evidently intended | confidence | as-written member | corrected member |
|---|---|---|---|---|---|---|
| modules/gemini_agent.py:433-479 | the keyword groups are tried in declaration order: parabola ('제곱') before cubic ('세제곱'), and sine ('사인') before cosine ('코사인') | the request "코사인" returns the sine wave; "세제곱" returns the parabola | each keyword selects its own group: cubic before parabola, cosine before sine | not executed | GeminiAgent.FallbackParser, GeminiAgent.CosineKeywordShadowed, GeminiAgent.CubeKeywordShadowed | GeminiAgent.FallbackParserFixed, GeminiAgent.OrderedKeywordSelectsOwnGroup, GeminiAgent.FixedAcceptsSameTexts |
| modules/hand_tracker_3d.py:277-287 | `cv2.perspectiveTransform` returns an already divided 3-vector, which is then indexed at `[3]` | any landmark pair whose disparity is at least one pixel raises IndexError, so `process_frame` fails for every real hand | use the 3-vector as is: (X/W, Y/W, Z/W), and (0,0,0) when W is 0 | not executed | HandTracker.TriangulatePointAsWritten, HandTracker.AsWrittenRaisesOnUsableDisparity | HandTracker.TriangulatePixels, HandTracker.TriangulateIsPerspectiveTransform, HandTracker.TriangulateHomogeneous |
