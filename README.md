# Orientation state machine of the gyro model viewer

The viewer renders a 3D model and turns it to follow a live motion sensor.
The user picks one of two sensing modes:

- `gyro`: angular-velocity readings are integrated into three angles;
- `absolute`: quaternion readings are tracked, with a smoothing step each frame.

This project models the state machine behind that in Dafny. It covers:

- whether sensing is enabled;
- the selected mode;
- the live sensor handle;
- the integrated angles `rotationX/Y/Z`;
- the target and current quaternions;
- the status line;
- the loaded model's pose.

It also models the operations on that state: acquiring a sensor, stopping
it, the enable/disable toggle, the mode switch, the reading and error
callbacks, the per-frame apply step and the reset button.

Layout:

- `orientation.dfy` (module `Orientation`): modes, vectors, quaternions, poses and the `"<mode>: <text>"` status line.
- `accumulator.dfy` (module `Accumulator`): the gyroscope integration rule (sensitivity 1.5). The integrated angles are proved equal to 1.5 times the per-axis sum of the readings, independent of their order.
- `sensors.dfy` (module `Sensors`): what the platform answers during acquisition (`Platform`), the sensor handle (`Sensor`), and `InitOutcome`, which specifies the result of an acquisition.
- `controller.dfy` (module `Controller`): the class `SensorController`. The source's module-level variables are its fields. Each handler is a method with a `modifies` frame.

The object invariant `Valid()` holds across every user-facing operation: toggle, mode switch, readings, error event, frame, reset and model load. The acquisition steps (`InitGyroscope`, `InitAbsoluteOrientation`, `InitSensor`, `StopSensor`) run inside toggle and mode switch and do not keep it on their own. It says two things:

- the three angles equal `Integrated(readings)`, where the ghost field `readings` holds the gyroscope readings since the last zeroing;
- a handle whose start completed is held only while sensing is enabled, and only for the selected mode.

Two client methods, `GyroSession` and `UnsupportedSession`, check that the contracts compose:

- three readings of (1, 0, 0) put x = 4.5, y = z = 0 on the model;
- enabling on a platform without the absolute sensor leaves sensing off with status `absolute: not supported`.

How the platform is modelled:

- The platform's answers come in as a `Platform` value:
  - whether the sensor interface exists;
  - the permission prompt (absent, answered with a string, or rejected with an error name);
  - whether construction throws;
  - whether `start()` throws.
- The gyroscope path ignores the permission field, as the source never asks for permission there.
- Calls to the sensor's `stop()` are recorded in the field `released`.
- The slerp of the rendering library is a function parameter of `Animate`.

Behaviour of the code kept as written:

- `SwitchMode` zeroes the angles but keeps both quaternions.
- A handle whose `start()` throws stays in `activeSensor` while the acquisition reports failure.
- An absolute reading is stored as given, not normalised.
- There are no separate Starting/Error states, only the `sensorEnabled` flag.
- A mode switch while disabled does not stop a handle left over from a failed start.

## Model

| member | source | states |
|---|---|---|
| Accumulator.IntegratedIsScaledTotal | script.js:119-122 | after readings r1..rk since the last zeroing, each angle is 1.5 × the sum of that axis's readings |
| Accumulator.TotalPermutation | script.js:120-122 | the per-axis sum of readings is the same for any reordering of them |
| Accumulator.IntegratedOrderIndependent | script.js:117-122 | the integrated angles depend only on the multiset of readings, not on their arrival order |
| Accumulator.ThreeUnitReadings | script.js:119-122 | three readings of (1, 0, 0) from zero give x = 4.5, y = z = 0 |
| Orientation.StatusLineInjective | script.js:130-137 | a status line `<mode>: <text>` determines both its mode and its text |
| Sensors.InitOutcome | script.js:108-183 | acquisition succeeds exactly when the sensor is supported, permission passes, construction and start complete; then the status is `<mode>: active`. Otherwise the status is `<mode>: not supported`; `absolute: permission denied` for a non-granted answer; `absolute: <error name>` when the permission prompt itself rejects; or `<mode>: <error name>` when construction or start throws. A handle exists exactly when construction ran and completed, and it is marked started exactly on success |
| Sensors.FailureIsNotActive | script.js:133-138 | a failed acquisition never reports `<mode>: active` unless the platform's own error is named `active` |
| Controller.SensorController.constructor | script.js:46-56 | initial state: disabled, gyro mode, no handle, zero angles, identity quaternions, no model |
| Controller.SensorController.ModelLoaded | script.js:99 | a loaded model becomes the frame target |
| Controller.SensorController.InitGyroscope | script.js:108-140 | flag and status as `InitOutcome(Gyro, p)`; a constructed handle is kept even when its start throws, otherwise the held handle is untouched |
| Controller.SensorController.InitAbsoluteOrientation | script.js:143-184 | flag and status as `InitOutcome(Absolute, p)`; a refused permission creates no handle; a constructed handle is kept even when its start throws |
| Controller.SensorController.StopSensor | script.js:187-192 | afterwards no handle is held and exactly the previously held handle has been stopped; with no handle nothing changes |
| Controller.SensorController.InitSensor | script.js:195-203 | stops the held handle, then the flag, status and handle are those of `InitOutcome(mode, p)` |
| Controller.SensorController.ToggleSensor | script.js:206-221 | enabled: stops the handle, disables, status `<mode>: paused`; disabled: acquires, and sensing becomes enabled exactly when the acquisition succeeds; keeps `Valid()` |
| Controller.SensorController.SwitchMode | script.js:224-242 | the current mode changes nothing; another mode is selected with zeroed angles and unchanged quaternions and enabled flag; enabled: re-acquisition for the new mode, enabled stays true whatever it returns; disabled: status `<mode>: standby`, handle left alone |
| Controller.SensorController.OnGyroReading | script.js:117-127 | each angle grows by 1.5 × the reading, and the angles stay the integral of all readings since the last zeroing |
| Controller.SensorController.OnAbsoluteReading | script.js:162-171 | the target quaternion becomes the reading (last reading wins) and nothing else changes |
| Controller.SensorController.OnSensorError | script.js:129-131 | an error event (the gyro listener here, the absolute listener at script.js:173-175) only rewrites the status to `<kind>: <error name>` |
| Controller.SensorController.Animate | script.js:245-259 | no model or sensing disabled: nothing changes; gyro: the model's rotation becomes the three angles verbatim; absolute: the current quaternion takes one step (factor 0.15) toward the target and the model's quaternion becomes it |
| Controller.SensorController.Reset | script.js:287-295 | angles zeroed, both quaternions identity, a loaded model set to rotation (0,0,0) and identity quaternion; enabled flag, mode and handle unchanged |

## Left out

- Scene, camera, renderer, lights, resize handling and orbit controls (script.js:5-43, 261-271): rendering-library calls. This includes the camera and controls reset in the reset handler (script.js:297-298).
- Model loading, scaling, centering, material setup and the load-error text (script.js:68-105): asset I/O. Only "model present / absent" is modelled (`ModelLoaded`, with the loaded pose as a parameter).
- The slerp itself (script.js:256): trigonometry inside the rendering library. It is a function parameter of `Animate`, so the convergence of repeated smoothing steps toward a fixed target is not stated.
- The quaternion-to-Euler conversion for the readout (script.js:167) and all DOM updates: button classes and the `val-x/y/z` text (script.js:124-126, 168-170, 210-218, 230-231). Only the status line is kept.
- The link that the rendering library keeps between a model's Euler rotation and its quaternion: the two are independent fields of `Pose` here.
- Floating point: angles and quaternions are `real`, so rounding in the running sums is not modelled.
- Interleaving of the awaits (script.js:133, 153, 177, 214, 238) and the frame scheduling: every operation is one atomic step.
- Controller.SensorController.OnGyroReading and OnAbsoluteReading require that the held handle is a started sensor of their kind. The platform delivers readings only to a running sensor, and the callbacks read the value through `activeSensor`.
- The initial status text comes from the page markup, which is not part of this model. The constructor sets it to the empty string.
- The start-prompt button (script.js:274-277) and the button bindings (script.js:280-284) only dispatch to `ToggleSensor` and `SwitchMode`.
