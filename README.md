# Calibrator of the ET Robocon 2019 line tracer

This project models the calibration performed by `Calibrator` before the robot starts
running (`src/module/Calibrator.cpp`). A calibration runs four steps in a fixed order:

1. Toggle-confirm for the camera system. Left or Right inverts `isCameraMode`, and Enter confirms.
2. Toggle-confirm for the course side. Left or Right inverts `isLeft`, and Enter confirms.
3. Sample-confirm for white. The operator presses Enter over a white surface. The mean of
   ten light-sensor readings then goes into `brightnessOfWhite`.
4. Sample-confirm for black, in the same way, into `brightnessOfBlack`.

`calibration()` stops at the first step that reports failure. The only step that can
fail is `setBrightness` called with a value other than WHITE or BLACK.

The model has three files:

- `calibration_spec.dfy` (module `CalibrationSpec`) holds the reference semantics as pure
  functions. `Poll` is the button state that one iteration of a polling loop reads.
  `Settings` holds the four calibrated values. `Input` holds the polls and sensor readings
  not yet consumed. `RunStep` is one step, and `RunSteps` runs steps in order with the
  early exit. The module also holds the lemmas: toggle parity, truncating division,
  average bounds, step framing, sequencing, and a worked operator scenario.
- `controller.dfy` (module `Hardware`) models the controller. It is an object holding the
  polls and readings still to come. `PollButtons` and `GetBrightness` each consume one entry.
- `calibrator.dfy` (module `Calibration`) holds the `Calibrator` class. Its four fields
  are updated in place by the polling loops, which are written as `while` loops. The
  averager is a `for` loop. Each method's contract states the new fields and the input
  it consumed, and ties them to `RunStep`/`RunSteps`.

The hardware is replaced by injected input. The button presses and sensor values are
finite sequences. A method's precondition says only that the sequence holds the Enter
presses and the readings the method will consume. The source would block forever
waiting instead.

## Model

| member | source | states |
|---|---|---|
| `Calibration.Calibrator.constructor` | src/module/Calibrator.cpp:8-15 | A new calibrator keeps the controller it is given and starts with camera system on, left course, and both brightness levels 0 (`DefaultSettings`). |
| `Calibration.Calibrator.Calibration` | src/module/Calibrator.cpp:17-48 | Calls the four steps in the order camera mode, course side, white, black, and returns at the first step that reports failure. The result and the final fields and input are those of `RunSteps(CalibrationSteps, …)`. The result is always true. |
| `Calibration.Calibrator.SetCameraMode` | src/module/Calibrator.cpp:50-74 | Returns true. `isCameraMode` becomes `Toggled(old flag, polls)`. No other field changes. The polls up to and including the first Enter are consumed, and no reading is consumed. |
| `Calibration.Calibrator.SetLRCourse` | src/module/Calibrator.cpp:76-100 | The same as SetCameraMode, but for `isLeft`. `isCameraMode` and both brightness fields stay unchanged. |
| `Calibration.Calibrator.SetBrightness` | src/module/Calibrator.cpp:156-192 | Returns true exactly when the argument is White or Black. An unknown value returns false and changes neither the fields nor the input. Otherwise the method consumes one reading per poll shown before Enter, then the Enter itself. It then stores the average of the next ten readings into the one targeted field. |
| `Calibration.Calibrator.AverageBrightness` | src/module/Calibrator.cpp:194-205 | Consumes exactly ten readings and returns `Average` of them, which is their sum divided by ten and truncated. No calibrator field changes. |
| `Calibration.Calibrator.GetCameraMode` | src/module/Calibrator.cpp:207-210 | Returns the current camera-mode flag. It is a function, so it reads `this` and changes nothing. |
| `Calibration.Calibrator.IsLeftCourse` | src/module/Calibrator.cpp:212-215 | Returns the current course flag and changes nothing. |
| `Calibration.Calibrator.GetWhiteBrightness` | src/module/Calibrator.cpp:217-220 | Returns the stored white level and changes nothing. |
| `Calibration.Calibrator.GetBlackBrightness` | src/module/Calibrator.cpp:222-225 | Returns the stored black level and changes nothing. |
| `CalibrationSpec.EnterIndex` | src/module/Calibrator.cpp:55 | Gives the poll at which a waiting loop exits: the first Enter press, with no Enter before it. |
| `CalibrationSpec.WaitStep` | src/module/Calibrator.cpp:170-175 | One iteration of a waiting loop. Enter ends the loop and leaves the rest of the polls. Any other poll leaves the same Enter still to come, one position later. |
| `CalibrationSpec.ToggleStep` | src/module/Calibrator.cpp:55-67 | One iteration of a toggle-confirm loop. Enter keeps the flag. Otherwise Left or Right inverts the flag, and the loop continues on the remaining polls. |
| `CalibrationSpec.ToggledParity` | src/module/Calibrator.cpp:55-69 | Toggle parity. The final flag equals the initial flag XOR the parity of the number of Left/Right polls before the first Enter. |
| `CalibrationSpec.ToggledIgnoresLaterPolls` | src/module/Calibrator.cpp:81-95 | Polls after the first Enter do not affect a toggle-confirm step. |
| `CalibrationSpec.TruncDiv` | src/module/Calibrator.cpp:204 | C++ `int` division. The quotient is truncated toward zero, so the remainder lies in [0, b) for a non-negative dividend and in (-b, 0] for a negative one. |
| `CalibrationSpec.AverageOfNonNegativeIsFloor` | src/module/Calibrator.cpp:197-204 | For non-negative readings, the truncated mean equals floor division of the sum by ten. |
| `CalibrationSpec.AverageWithinBounds` | src/module/Calibrator.cpp:197-204 | If every reading lies in [lo, hi], so does the average. For example, readings in [0, 255] give a result in [0, 255]. |
| `CalibrationSpec.RunStep` | src/module/Calibrator.cpp:160-166 | A step fails exactly when it is a brightness step with an unknown value. |
| `CalibrationSpec.RunStepFrame` | src/module/Calibrator.cpp:185-191 | A failing step changes neither the settings nor the input. Each toggle step changes only its own flag, and each brightness step only its own level. Every successful step consumes at least its Enter. |
| `CalibrationSpec.RunSteps` | src/module/Calibrator.cpp:21-39 | A sequence of steps succeeds exactly when none of its steps fails. |
| `CalibrationSpec.FailureShortCircuits` | src/module/Calibrator.cpp:21-39 | Once a prefix of steps has failed, the steps after it do not run, and adding more steps changes neither the outcome nor the state. |
| `CalibrationSpec.SuccessComposes` | src/module/Calibrator.cpp:21-39 | After a prefix that succeeded, the remaining steps start from the settings and the input that the prefix left. |
| `CalibrationSpec.CalibrationOrder` | src/module/Calibrator.cpp:21-47 | The calibration is camera mode, then course side, then white, then black. Each step reads the input its predecessor left, and the whole calibration succeeds. |
| `CalibrationSpec.CalibrationFromSteps` | src/module/Calibrator.cpp:21-47 | The converse: four steps that can run one after another make up a complete calibration with the last step's outcome. |
| `CalibrationSpec.ScenarioCameraMode` | src/module/Calibrator.cpp:55-69 | Right, Right, Enter leaves the camera system on. |
| `CalibrationSpec.ScenarioCourseSide` | src/module/Calibrator.cpp:81-95 | Left, Enter changes the course from left to right. |
| `CalibrationSpec.ScenarioSample` | src/module/Calibrator.cpp:170-191 | An immediate Enter over a surface that reads a constant level ten times stores that level into the targeted field. |
| `CalibrationSpec.OperatorScenario` | src/module/Calibrator.cpp:17-48 | In a whole calibration from the defaults, those button presses and readings of 200 and then 20 give camera on, right course, white 200 and black 20, with all input consumed. |

## Left out

- `Calibrator::setupPosition` (src/module/Calibrator.cpp:102-154) is not modelled. Its call in `calibration()` is commented out. It drives the motors through `LineTracer` and `Navigator` and relies on colour recognition, and none of these are part of this model.
- The display output (`Display::print`), the tones (`speakerPlayToneFS6`) and the sleeps (`tslpTsk`) are timing and I/O effects. They have no counterpart here. The 500-tick settle sleep and the 4-tick poll period are represented only as the boundary between two polls.
- A `Poll` is a snapshot of Enter, Left and Right taken once per loop iteration. The model does not represent the separate reads of Left and Right, or the short-circuit that skips Right when Left is pressed, since neither changes any state.
- Waiting forever for an Enter press that never comes is not modelled. Each method requires that the injected polls contain the Enter presses it waits for, and for a brightness step enough readings. The source has no timeout.
- `Calibration.Calibrator.AverageBrightness`: the sum is an unbounded integer, so the 32-bit overflow of `meanBrightness` is not modelled. Ten sensor readings of at most 255 never reach it.
- The `Brightness` enumeration is defined in a header that is not part of this model. It is modelled as `White | Black | Unknown(code)`, so that the `else return false` branch of `setBrightness` stays reachable.
- `src/module/EtRobocon2019.cpp` is not part of this model. It covers the start sequence, the curvature steering loop and its `Distance`/`Curvature` collaborators, whose sources are not available, and it uses floating-point distances.
- The `Controller` internals (the hardware access) are not modelled. `Hardware.Controller` stands for it and only replays injected sequences.
