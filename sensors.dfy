/** Acquiring a platform sensor: what the platform answers at each step of
    the acquisition sequence, the handle it yields, and the outcome the
    controller reports (a success flag, a status line, and the handle it
    ends up holding). */
module Sensors {
  import opened Orientation

  /** The sampling frequency, in hertz, every sensor is constructed with. */
  const Frequency: nat := 60

  /** The answer the platform gives to the permission request
      for an absolute orientation sensor. */
  const GrantedAnswer := "granted"

  /** One platform step: it completes, or it throws an error with this name. */
  datatype Step = Ok | Threw(name: string)

  /** The motion-permission prompt: absent on this platform, answered with a
      string, or rejected with an error of this name. */
  datatype Permission = NoPrompt | Answered(answer: string) | Rejected(name: string)

  /** What the platform does when the controller acquires a sensor:
      whether the sensor interface exists, the permission prompt (consulted
      only for the absolute orientation sensor), whether constructing the
      sensor throws, and whether starting it throws. */
  datatype Platform = Platform(supported: bool, permission: Permission, construction: Step, start: Step)

  /** A sensor handle: its kind, its frequency, and whether its start
      completed. */
  datatype Sensor = Sensor(kind: Mode, frequency: nat, started: bool)

  /** The result of one acquisition: the success flag, the status line
      written, and the handle assigned during it (None when no handle was
      constructed). */
  datatype Attempt = Attempt(ok: bool, status: string, sensor: Option<Sensor>)

  /** The permission step lets the acquisition go on: the gyroscope asks for
      none, the absolute sensor goes on when no prompt exists or the answer
      is "granted". */
  predicate PermissionPasses(m: Mode, p: Platform) {
    m == Gyro || p.permission.NoPrompt? || p.permission == Answered(GrantedAnswer)
  }

  /** The stop() calls that releasing `held` makes: one for a held handle,
      none otherwise. */
  function Stops(held: Option<Sensor>): seq<Sensor> {
    match held
    case None => []
    case Some(s) => [s]
  }

  /** The outcome of acquiring and starting the sensor for mode `m`. */
  function InitOutcome(m: Mode, p: Platform): (r: Attempt)
    ensures r.ok <==> p.supported && PermissionPasses(m, p) && p.construction.Ok? && p.start.Ok?
    ensures r.ok ==> r.status == StatusLine(m, ActiveText)
    ensures !p.supported ==> r.status == StatusLine(m, NotSupportedText)
    ensures p.supported && m == Absolute && p.permission.Rejected? ==>
              r.status == StatusLine(Absolute, p.permission.name)
    ensures p.supported && m == Absolute && p.permission.Answered? && p.permission.answer != GrantedAnswer ==>
              r.status == StatusLine(Absolute, PermissionDeniedText)
    ensures p.supported && PermissionPasses(m, p) && p.construction.Threw? ==>
              r.status == StatusLine(m, p.construction.name)
    ensures p.supported && PermissionPasses(m, p) && p.construction.Ok? && p.start.Threw? ==>
              r.status == StatusLine(m, p.start.name)
    ensures r.sensor.Some? <==> p.supported && PermissionPasses(m, p) && p.construction.Ok?
    ensures r.sensor.Some? ==> r.sensor.value == Sensor(m, Frequency, r.ok)
  {
    if !p.supported then
      Attempt(false, StatusLine(m, NotSupportedText), None)
    else if m == Absolute && p.permission.Rejected? then
      Attempt(false, StatusLine(m, p.permission.name), None)
    else if m == Absolute && p.permission.Answered? && p.permission.answer != GrantedAnswer then
      Attempt(false, StatusLine(m, PermissionDeniedText), None)
    else if p.construction.Threw? then
      Attempt(false, StatusLine(m, p.construction.name), None)
    else if p.start.Threw? then
      Attempt(false, StatusLine(m, p.start.name), Some(Sensor(m, Frequency, false)))
    else
      Attempt(true, StatusLine(m, ActiveText), Some(Sensor(m, Frequency, true)))
  }

  /** A failed acquisition never reports "active", unless the platform
      itself named its error "active". */
  lemma FailureIsNotActive(m: Mode, p: Platform)
    requires !InitOutcome(m, p).ok
    requires p.construction != Threw(ActiveText) && p.start != Threw(ActiveText)
    requires m == Absolute ==> p.permission != Rejected(ActiveText)
    ensures InitOutcome(m, p).status != StatusLine(m, ActiveText)
  {
    var r := InitOutcome(m, p);
    if r.status == StatusLine(m, ActiveText) {
      if !p.supported {
        StatusLineInjective(m, NotSupportedText, m, ActiveText);
      } else if m == Absolute && p.permission.Rejected? {
        StatusLineInjective(m, p.permission.name, m, ActiveText);
      } else if m == Absolute && p.permission.Answered? && p.permission.answer != GrantedAnswer {
        StatusLineInjective(m, PermissionDeniedText, m, ActiveText);
      } else if p.construction.Threw? {
        StatusLineInjective(m, p.construction.name, m, ActiveText);
      } else {
        StatusLineInjective(m, p.start.name, m, ActiveText);
      }
    }
  }
}
