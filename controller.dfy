/** The viewer's orientation state machine: whether sensing is enabled, the
    selected mode, the live sensor handle, the integrated gyroscope angles,
    the target and current quaternions of the absolute mode, the status
    line, and the loaded model's pose. Each operation is one atomic step;
    what the platform answers is passed in. */
module Controller {
  import opened Orientation
  import opened Accumulator
  import opened Sensors

  /** The interpolation factor of one smoothing step per frame. */
  const SlerpFactor: real := 0.15

  class SensorController {
    var enabled: bool
    var mode: Mode
    var activeSensor: Option<Sensor>
    var rotationX: real
    var rotationY: real
    var rotationZ: real
    var targetQ: Quat
    var currentQ: Quat
    var status: string
    /** The loaded model's pose; None until loading completes. */
    var model: Option<Pose>
    /** The handles on which stop() has been called, oldest first. */
    var released: seq<Sensor>

    /** The gyroscope readings integrated since the angles were last zeroed. */
    ghost var readings: seq<Vec3>

    /** The angles are the integral of the readings since the last zeroing,
        and a handle whose start completed is held only while sensing is
        enabled, and only for the selected mode. */
    ghost predicate Valid()
      reads this
    {
      && Vec3(rotationX, rotationY, rotationZ) == Integrated(readings)
      && (activeSensor.Some? && activeSensor.value.started ==>
            enabled && activeSensor.value.kind == mode)
    }

    /** The state at page load: sensing disabled in gyroscope mode, no
        handle, zero angles, identity quaternions, no model yet. */
    constructor ()
      ensures Valid()
      ensures !enabled && mode == Gyro && activeSensor.None?
      ensures rotationX == 0.0 && rotationY == 0.0 && rotationZ == 0.0
      ensures targetQ == Identity && currentQ == Identity
      ensures status == "" && model.None? && released == []
      ensures readings == []
    {
      enabled := false;
      mode := Gyro;
      activeSensor := None;
      rotationX, rotationY, rotationZ := 0.0, 0.0, 0.0;
      targetQ := Identity;
      currentQ := Identity;
      status := "";
      model := None;
      released := [];
      readings := [];
    }

    /** The model finished loading and is now the target of every frame. */
    method ModelLoaded(pose: Pose)
      requires Valid()
      modifies this`model
      ensures Valid()
      ensures model == Some(pose)
    {
      model := Some(pose);
    }

    /** Acquires and starts a gyroscope. A handle is kept once constructed,
        even when its start then throws. */
    method InitGyroscope(p: Platform) returns (ok: bool)
      modifies this`status, this`activeSensor
      ensures var a := InitOutcome(Gyro, p);
        && ok == a.ok
        && status == a.status
        && activeSensor == (if a.sensor.Some? then a.sensor else old(activeSensor))
    {
      if !p.supported {
        status := StatusLine(Gyro, NotSupportedText);
        return false;
      }
      if p.construction.Threw? {
        status := StatusLine(Gyro, p.construction.name);
        return false;
      }
      activeSensor := Some(Sensor(Gyro, Frequency, false));
      if p.start.Threw? {
        status := StatusLine(Gyro, p.start.name);
        return false;
      }
      activeSensor := Some(activeSensor.value.(started := true));
      status := StatusLine(Gyro, ActiveText);
      return true;
    }

    /** Asks for motion permission where the platform has a prompt, then
        acquires and starts an absolute orientation sensor. A refused
        permission creates no handle; a handle is kept once constructed,
        even when its start then throws. */
    method InitAbsoluteOrientation(p: Platform) returns (ok: bool)
      modifies this`status, this`activeSensor
      ensures var a := InitOutcome(Absolute, p);
        && ok == a.ok
        && status == a.status
        && activeSensor == (if a.sensor.Some? then a.sensor else old(activeSensor))
    {
      if !p.supported {
        status := StatusLine(Absolute, NotSupportedText);
        return false;
      }
      match p.permission {
        case NoPrompt =>
        case Rejected(name) =>
          status := StatusLine(Absolute, name);
          return false;
        case Answered(answer) =>
          if answer != GrantedAnswer {
            status := StatusLine(Absolute, PermissionDeniedText);
            return false;
          }
      }
      if p.construction.Threw? {
        status := StatusLine(Absolute, p.construction.name);
        return false;
      }
      activeSensor := Some(Sensor(Absolute, Frequency, false));
      if p.start.Threw? {
        status := StatusLine(Absolute, p.start.name);
        return false;
      }
      activeSensor := Some(activeSensor.value.(started := true));
      status := StatusLine(Absolute, ActiveText);
      return true;
    }

    /** Stops and drops the held handle, if any; with no handle it changes
        nothing. */
    method StopSensor()
      modifies this`activeSensor, this`released
      ensures activeSensor.None?
      ensures released == old(released) + Stops(old(activeSensor))
    {
      if activeSensor.Some? {
        released := released + [activeSensor.value];
        activeSensor := None;
      }
    }

    /** Releases the held handle, then acquires the sensor of the selected
        mode. */
    method InitSensor(p: Platform) returns (ok: bool)
      modifies this`status, this`activeSensor, this`released
      ensures released == old(released) + Stops(old(activeSensor))
      ensures var a := InitOutcome(mode, p);
        && ok == a.ok
        && status == a.status
        && activeSensor == a.sensor
    {
      StopSensor();
      if mode == Gyro {
        ok := InitGyroscope(p);
      } else {
        ok := InitAbsoluteOrientation(p);
      }
    }

    /** The enable/disable button. Enabled: release the handle and pause.
        Disabled: acquire the selected mode's sensor; sensing becomes enabled
        exactly when that succeeds. */
    method ToggleSensor(p: Platform)
      requires Valid()
      modifies this`enabled, this`status, this`activeSensor, this`released
      ensures Valid()
      ensures released == old(released) + Stops(old(activeSensor))
      ensures old(enabled) ==>
                && !enabled
                && activeSensor.None?
                && status == StatusLine(mode, PausedText)
      ensures !old(enabled) ==>
                var a := InitOutcome(mode, p);
                && enabled == a.ok
                && status == a.status
                && activeSensor == a.sensor
    {
      if enabled {
        StopSensor();
        enabled := false;
        status := StatusLine(mode, PausedText);
      } else {
        var success := InitSensor(p);
        if success {
          enabled := true;
        }
      }
    }

    /** The mode selector. Selecting the current mode changes nothing.
        Otherwise the mode changes and the three angles are zeroed, while
        both quaternions are kept; when sensing is enabled the new mode's
        sensor is acquired and sensing stays enabled whatever the outcome,
        and when it is disabled the status reads standby and the held
        handle is left alone. */
    method SwitchMode(m: Mode, p: Platform)
      requires Valid()
      modifies this`mode, this`rotationX, this`rotationY, this`rotationZ, this`readings
      modifies this`status, this`activeSensor, this`released
      ensures Valid()
      ensures m == old(mode) ==> unchanged(this)
      ensures m != old(mode) ==>
                && mode == m
                && rotationX == 0.0 && rotationY == 0.0 && rotationZ == 0.0
                && readings == []
      ensures targetQ == old(targetQ) && currentQ == old(currentQ)
      ensures enabled == old(enabled)
      ensures m != old(mode) && enabled ==>
                var a := InitOutcome(m, p);
                && status == a.status
                && activeSensor == a.sensor
                && released == old(released) + Stops(old(activeSensor))
      ensures m != old(mode) && !enabled ==>
                && status == StatusLine(m, StandbyText)
                && activeSensor == old(activeSensor)
                && released == old(released)
    {
      if m == mode {
        return;
      }
      mode := m;
      rotationX, rotationY, rotationZ := 0.0, 0.0, 0.0;
      readings := [];
      if enabled {
        var _ := InitSensor(p);
      } else {
        status := StatusLine(m, StandbyText);
      }
    }

    /** A reading from the live gyroscope: each angle grows by the reading
        times the sensitivity. */
    method OnGyroReading(r: Vec3)
      requires Valid()
      requires activeSensor.Some? && activeSensor.value.kind == Gyro && activeSensor.value.started
      modifies this`rotationX, this`rotationY, this`rotationZ, this`readings
      ensures Valid()
      ensures readings == old(readings) + [r]
      ensures rotationX == old(rotationX) + r.x * Sensitivity
      ensures rotationY == old(rotationY) + r.y * Sensitivity
      ensures rotationZ == old(rotationZ) + r.z * Sensitivity
    {
      rotationX := rotationX + r.x * Sensitivity;
      rotationY := rotationY + r.y * Sensitivity;
      rotationZ := rotationZ + r.z * Sensitivity;
      IntegratedStep(readings, r);
      readings := readings + [r];
    }

    /** A reading from the live absolute orientation sensor replaces the
        target quaternion: the last reading wins. */
    method OnAbsoluteReading(q: Quat)
      requires Valid()
      requires activeSensor.Some? && activeSensor.value.kind == Absolute && activeSensor.value.started
      modifies this`targetQ
      ensures Valid()
      ensures targetQ == q
    {
      targetQ := q;
    }

    /** An error event from a sensor of kind `kind` only rewrites the
        status line. */
    method OnSensorError(kind: Mode, name: string)
      requires Valid()
      modifies this`status
      ensures Valid()
      ensures status == StatusLine(kind, name)
    {
      status := StatusLine(kind, name);
    }

    /** One frame. Nothing happens unless a model is loaded and sensing is
        enabled. In gyroscope mode the model's rotation becomes the three
        angles; in absolute mode the current quaternion takes one `slerp`
        step toward the target and the model's quaternion becomes it. */
    method Animate(slerp: (Quat, Quat, real) -> Quat)
      requires Valid()
      modifies this`model, this`currentQ
      ensures Valid()
      ensures old(model).None? || !enabled ==>
                model == old(model) && currentQ == old(currentQ)
      ensures old(model).Some? && enabled && mode == Gyro ==>
                && model == Some(old(model).value.(rotation := Vec3(rotationX, rotationY, rotationZ)))
                && currentQ == old(currentQ)
      ensures old(model).Some? && enabled && mode == Absolute ==>
                && currentQ == slerp(old(currentQ), targetQ, SlerpFactor)
                && model == Some(old(model).value.(quaternion := currentQ))
    {
      if model.Some? && enabled {
        if mode == Gyro {
          model := Some(model.value.(rotation := Vec3(rotationX, rotationY, rotationZ)));
        } else {
          currentQ := slerp(currentQ, targetQ, SlerpFactor);
          model := Some(model.value.(quaternion := currentQ));
        }
      }
    }

    /** The reset button: zero angles, identity quaternions, and a loaded
        model back to zero rotation and identity quaternion. Sensing, mode
        and handle are untouched. */
    method Reset()
      requires Valid()
      modifies this`rotationX, this`rotationY, this`rotationZ, this`readings
      modifies this`targetQ, this`currentQ, this`model
      ensures Valid()
      ensures rotationX == 0.0 && rotationY == 0.0 && rotationZ == 0.0
      ensures readings == []
      ensures targetQ == Identity && currentQ == Identity
      ensures model == if old(model).Some? then Some(Pose(Zero, Identity)) else None
    {
      rotationX, rotationY, rotationZ := 0.0, 0.0, 0.0;
      readings := [];
      targetQ := Identity;
      currentQ := Identity;
      if model.Some? {
        model := Some(Pose(Zero, Identity));
      }
    }
  }

  /** A session: enable the gyroscope on a platform that supports it, feed
      three readings of (1, 0, 0), and read x = 4.5, y = z = 0 off the model
      on the next frame. */
  method GyroSession(pose: Pose, slerp: (Quat, Quat, real) -> Quat)
  {
    var c := new SensorController();
    c.ModelLoaded(pose);
    c.ToggleSensor(Platform(true, NoPrompt, Ok, Ok));
    assert c.enabled && c.activeSensor == Some(Sensor(Gyro, Frequency, true));
    var r := Vec3(1.0, 0.0, 0.0);
    c.OnGyroReading(r);
    c.OnGyroReading(r);
    c.OnGyroReading(r);
    assert c.rotationX == 4.5 && c.rotationY == 0.0 && c.rotationZ == 0.0;
    c.Animate(slerp);
    assert c.model == Some(pose.(rotation := Vec3(4.5, 0.0, 0.0)));
  }

  /** A session: select the absolute mode while disabled, then enable on a
      platform without the absolute sensor; sensing stays disabled, no
      handle is held, and the status says so. */
  method UnsupportedSession()
  {
    var c := new SensorController();
    c.SwitchMode(Absolute, Platform(true, NoPrompt, Ok, Ok));
    assert c.mode == Absolute && !c.enabled;
    c.ToggleSensor(Platform(false, NoPrompt, Ok, Ok));
    assert !c.enabled && c.activeSensor.None?;
    assert c.status == StatusLine(Absolute, NotSupportedText);
  }
}
