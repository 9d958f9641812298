/**
 What the conversions of Rotations stand for: which way the turns about the axes go and the axes of a local frame
 point, and what the conversions to Euler angles read back.
 */
module RotationMeaning {
  import opened Reals
  import opened Rotations

  // ----- Axes -----

  const X := Vec(1.0, 0.0, 0.0)
  const Y := Vec(0.0, 1.0, 0.0)
  const Z := Vec(0.0, 0.0, 1.0)

  function Times(k: real, v: Vec): Vec {
    Vec(k * v.x, k * v.y, k * v.z)
  }

  // A positive angle turns by the right hand: y towards z about x, z towards x about y, x towards y about z.

  lemma PositiveAboutX(cos: real, sin: real)
    ensures Apply(AboutX(cos, sin), Y) == Add(Times(cos, Y), Times(sin, Z)) && Apply(AboutX(cos, sin), X) == X
  {
    TurnsAboutX(cos, sin);
  }

  lemma PositiveAboutY(cos: real, sin: real)
    ensures Apply(AboutY(cos, sin), Z) == Add(Times(cos, Z), Times(sin, X)) && Apply(AboutY(cos, sin), Y) == Y
  {
    TurnsAboutY(cos, sin);
  }

  lemma PositiveAboutZ(cos: real, sin: real)
    ensures Apply(AboutZ(cos, sin), X) == Add(Times(cos, X), Times(sin, Y)) && Apply(AboutZ(cos, sin), Z) == Z
  {
    TurnsAboutZ(cos, sin);
  }

  /** Half the angle along an axis is the quaternion of the turn about that axis. */
  lemma AxisQuats(h: HalfAngle)
    requires h.Valid()
    ensures Quat2Rot(Quat(h.c, h.s, 0.0, 0.0)) == RotX(h)
    ensures Quat2Rot(Quat(h.c, 0.0, h.s, 0.0)) == RotY(h)
    ensures Quat2Rot(Quat(h.c, 0.0, 0.0, h.s)) == RotZ(h)
  {
    AxisX(h.c, h.s);
    AxisY(h.c, h.s);
    AxisZ(h.c, h.s);
  }

  lemma AxisX(c: real, s: real)
    requires c * c + s * s == 1.0
    ensures Quat2Rot(Quat(c, s, 0.0, 0.0)) == AboutX(c * c - s * s, 2.0 * (c * s))
  {
  }

  lemma AxisY(c: real, s: real)
    requires c * c + s * s == 1.0
    ensures Quat2Rot(Quat(c, 0.0, s, 0.0)) == AboutY(c * c - s * s, 2.0 * (c * s))
  {
  }

  lemma AxisZ(c: real, s: real)
    requires c * c + s * s == 1.0
    ensures Quat2Rot(Quat(c, 0.0, 0.0, s)) == AboutZ(c * c - s * s, 2.0 * (c * s))
  {
  }

  lemma TurnsAboutX(c: real, s: real)
    ensures var m := Mat(Vec(1.0, 0.0, 0.0), Vec(0.0, c, -s), Vec(0.0, s, c));
            Apply(m, Y) == Add(Times(c, Y), Times(s, Z)) && Apply(m, X) == X
  {
  }

  lemma TurnsAboutY(c: real, s: real)
    ensures var m := Mat(Vec(c, 0.0, s), Vec(0.0, 1.0, 0.0), Vec(-s, 0.0, c));
            Apply(m, Z) == Add(Times(c, Z), Times(s, X)) && Apply(m, Y) == Y
  {
  }

  lemma TurnsAboutZ(c: real, s: real)
    ensures var m := Mat(Vec(c, -s, 0.0), Vec(s, c, 0.0), Vec(0.0, 0.0, 1.0));
            Apply(m, X) == Add(Times(c, X), Times(s, Y)) && Apply(m, Z) == Z
  {
  }

  // ----- Euler angles read back -----

  /** What the conversions to Euler angles take the inverse tangents and the inverse sine of. */
  datatype Arguments = Arguments(rollSin: real, rollCos: real, pitchSin: real, yawSin: real, yawCos: real)

  function QuatArguments(q: Quat): Arguments {
    Arguments(2.0 * (q.w * q.x + q.y * q.z), 1.0 - 2.0 * (q.x * q.x + q.y * q.y),
              2.0 * (q.w * q.y - q.z * q.x),
              2.0 * (q.w * q.z + q.x * q.y), 1.0 - 2.0 * (q.y * q.y + q.z * q.z))
  }

  function RotArguments(m: Mat): Arguments {
    Arguments(m.r2.y, m.r2.z, -m.r2.x, m.r1.x, m.r0.x)
  }

  /** They stand in the matrix. */
  lemma ArgumentsAgree(q: Quat)
    ensures RotArguments(Quat2Rot(q)) == QuatArguments(q)
  {
  }

  lemma ThreeTurns(cx: real, sx: real, cy: real, sy: real, cz: real, sz: real)
    ensures var m := Mul(Mul(Mat(Vec(cz, -sz, 0.0), Vec(sz, cz, 0.0), Vec(0.0, 0.0, 1.0)),
                             Mat(Vec(cy, 0.0, sy), Vec(0.0, 1.0, 0.0), Vec(-sy, 0.0, cy))),
                         Mat(Vec(1.0, 0.0, 0.0), Vec(0.0, cx, -sx), Vec(0.0, sx, cx)));
            RotArguments(m) == Arguments(cy * sx, cy * cx, sy, sz * cy, cz * cy)
  {
  }

  /** The sine of the pitch, and the sines and cosines of roll and yaw, both scaled by the cosine of the pitch. */
  lemma MatrixReadBack(e: Euler)
    ensures var cos := e.theta.Cos();
            RotArguments(Euler2Rot(e)) ==
            Arguments(cos * e.phi.Sin(), cos * e.phi.Cos(), e.theta.Sin(), e.psi.Sin() * cos, e.psi.Cos() * cos)
  {
    ThreeTurns(e.phi.Cos(), e.phi.Sin(), e.theta.Cos(), e.theta.Sin(), e.psi.Cos(), e.psi.Sin());
  }

  /** The same is read back from the quaternion of Euler angles. */
  lemma QuatReadBack(e: Euler)
    requires e.Valid()
    ensures QuatArguments(Euler2Quat(e)) == RotArguments(Euler2Rot(e))
  {
    EulerPathsAgree(e);
    ArgumentsAgree(Euler2Quat(e));
  }

  /** And from the quaternion of any rotation matrix what stands in the matrix. */
  lemma RotReadBack(m: Mat, root: real)
    requires IsRotation(m) && IsRoot(root, m)
    ensures QuatArguments(Rot2Quat(m, root)) == RotArguments(m)
  {
    RotRoundTrip(m, root);
    ArgumentsAgree(Rot2Quat(m, root));
  }

  // ----- Which way a local frame points -----

  /** The direction away from the earth's axis and equator at a latitude and longitude. */
  function Up(sin_lat: real, cos_lat: real, sin_lon: real, cos_lon: real): Vec {
    Vec(cos_lat * cos_lon, cos_lat * sin_lon, sin_lat)
  }

  function North(frame: LocalCoord): Vec {
    Apply(frame.Ned2EcefMatrix(), X)
  }

  function East(frame: LocalCoord): Vec {
    Apply(frame.Ned2EcefMatrix(), Y)
  }

  function Down(frame: LocalCoord): Vec {
    Apply(frame.Ned2EcefMatrix(), Z)
  }

  /** Down is against up; taken to a greater latitude up goes towards north, and to a greater longitude towards east. */
  lemma FramePoints(frame: LocalCoord, d: HalfAngle)
    ensures var a, b, c, e, s, t :=
              frame.lat.Sin(), frame.lat.Cos(), frame.lon.Sin(), frame.lon.Cos(), d.Sin(), d.Cos();
            && Down(frame) == Times(-1.0, Up(a, b, c, e))
            && Up(a * t + b * s, b * t - a * s, c, e) == Add(Times(t, Up(a, b, c, e)), Times(s, North(frame)))
            && Up(a, b, c * t + e * s, e * t - c * s) ==
               Add(Add(Times(t, Up(a, b, c, e)), Times(s * b, East(frame))), Vec(0.0, 0.0, (1.0 - t) * a))
  {
    FrameColumns(frame);
    UpNorth(frame.lat.Sin(), frame.lat.Cos(), frame.lon.Sin(), frame.lon.Cos(), d.Sin(), d.Cos());
    UpEast(frame.lat.Sin(), frame.lat.Cos(), frame.lon.Sin(), frame.lon.Cos(), d.Sin(), d.Cos());
  }

  /** A local point is so far north, east and down of the origin. */
  lemma LocalAxes(frame: LocalCoord, ned: Vec)
    ensures frame.Ned2Ecef(ned) ==
            Add(frame.initEcef,
                Add(Add(Times(ned.x, North(frame)), Times(ned.y, East(frame))), Times(ned.z, Down(frame))))
  {
    ByColumns(frame.Ned2EcefMatrix(), ned);
  }

  lemma ByColumns(m: Mat, v: Vec)
    ensures Apply(m, v) == Add(Add(Times(v.x, Apply(m, X)), Times(v.y, Apply(m, Y))), Times(v.z, Apply(m, Z)))
  {
  }

  lemma FrameColumns(frame: LocalCoord)
    ensures var a, b, c, e := frame.lat.Sin(), frame.lat.Cos(), frame.lon.Sin(), frame.lon.Cos();
            && North(frame) == Vec(-a * e, -a * c, b) && East(frame) == Vec(-c, e, 0.0)
            && Down(frame) == Times(-1.0, Up(a, b, c, e))
  {
  }

  lemma UpNorth(a: real, b: real, c: real, e: real, s: real, t: real)
    ensures Up(a * t + b * s, b * t - a * s, c, e) == Add(Times(t, Up(a, b, c, e)), Times(s, Vec(-a * e, -a * c, b)))
  {
  }

  lemma UpEast(a: real, b: real, c: real, e: real, s: real, t: real)
    ensures Up(a, b, c * t + e * s, e * t - c * s)
         == Add(Add(Times(t, Up(a, b, c, e)), Times(s * b, Vec(-c, e, 0.0))), Vec(0.0, 0.0, (1.0 - t) * a))
  {
  }
}
