/** Values shared by the viewer's orientation state machine: the two sensing
    modes, three-axis vectors, quaternions, the pose of the loaded model and
    the status line the controller writes. */
module Orientation {

  datatype Option<+T> = None | Some(value: T)

  /** The sensing strategy: angular-velocity integration ('gyro') or
      absolute-orientation quaternions ('absolute'). */
  datatype Mode = Gyro | Absolute

  /** The name the viewer uses for a mode in its status line. */
  function ModeName(m: Mode): string {
    match m
    case Gyro => "gyro"
    case Absolute => "absolute"
  }

  /** Three real values, one per axis: an angular-velocity reading or a
      set of Euler angles. */
  datatype Vec3 = Vec3(x: real, y: real, z: real)

  const Zero := Vec3(0.0, 0.0, 0.0)

  function Add(a: Vec3, b: Vec3): Vec3 {
    Vec3(a.x + b.x, a.y + b.y, a.z + b.z)
  }

  function Scale(k: real, v: Vec3): Vec3 {
    Vec3(k * v.x, k * v.y, k * v.z)
  }

  /** A quaternion (x, y, z, w), kept opaque: only the absolute-orientation
      path reads or writes it, and only by whole-value copies. */
  datatype Quat = Quat(x: real, y: real, z: real, w: real)

  const Identity := Quat(0.0, 0.0, 0.0, 1.0)

  /** The loaded model's orientation: its per-axis Euler rotation and its
      quaternion. */
  datatype Pose = Pose(rotation: Vec3, quaternion: Quat)

  const ActiveText := "active"
  const PausedText := "paused"
  const StandbyText := "standby"
  const NotSupportedText := "not supported"
  const PermissionDeniedText := "permission denied"

  /** The status line "<mode>: <text>" shown to the user. */
  function StatusLine(m: Mode, text: string): string {
    ModeName(m) + ": " + text
  }

  /** A status line tells which mode wrote it and what it said: two lines
      are equal only when both their modes and their texts are. */
  lemma StatusLineInjective(m1: Mode, t1: string, m2: Mode, t2: string)
    requires StatusLine(m1, t1) == StatusLine(m2, t2)
    ensures m1 == m2 && t1 == t2
  {
    var s := StatusLine(m1, t1);
    assert s[0] == ModeName(m1)[0];
    assert StatusLine(m2, t2)[0] == ModeName(m2)[0];
    assert m1 == m2;
    var n := |ModeName(m1) + ": "|;
    assert s[n..] == t1;
    assert StatusLine(m2, t2)[n..] == t2;
  }
}
