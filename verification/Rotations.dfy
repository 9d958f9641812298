/**
 Quaternions, rotation matrices and Euler angles over the reals. A square root is a parameter with the
 property that defines it; an angle is given by the cosine and sine of its half.
 */
module Rotations {
  import opened Reals

  datatype Quat = Quat(w: real, x: real, y: real, z: real)

  datatype Vec = Vec(x: real, y: real, z: real)

  datatype Mat = Mat(r0: Vec, r1: Vec, r2: Vec)

  // ----- Vectors and matrices -----

  function Dot(a: Vec, b: Vec): real {
    a.x * b.x + a.y * b.y + a.z * b.z
  }

  function Cross(a: Vec, b: Vec): Vec {
    Vec(a.y * b.z - a.z * b.y, a.z * b.x - a.x * b.z, a.x * b.y - a.y * b.x)
  }

  function Transpose(m: Mat): Mat {
    Mat(Vec(m.r0.x, m.r1.x, m.r2.x), Vec(m.r0.y, m.r1.y, m.r2.y), Vec(m.r0.z, m.r1.z, m.r2.z))
  }

  function Apply(m: Mat, v: Vec): Vec {
    Vec(Dot(m.r0, v), Dot(m.r1, v), Dot(m.r2, v))
  }

  function Mul(a: Mat, b: Mat): Mat {
    var t := Transpose(b);
    Mat(Apply(t, a.r0), Apply(t, a.r1), Apply(t, a.r2))
  }

  const IDENTITY := Mat(Vec(1.0, 0.0, 0.0), Vec(0.0, 1.0, 0.0), Vec(0.0, 0.0, 1.0))

  function Det(m: Mat): real {
    Dot(m.r0, Cross(m.r1, m.r2))
  }

  predicate IsRotation(m: Mat) {
    Mul(m, Transpose(m)) == IDENTITY && Mul(Transpose(m), m) == IDENTITY && Det(m) == 1.0
  }

  function Neg(q: Quat): Quat {
    Quat(-q.w, -q.x, -q.y, -q.z)
  }

  predicate IsUnit(q: Quat) {
    q.w * q.w + q.x * q.x + q.y * q.y + q.z * q.z == 1.0
  }

  // ----- The conversions -----

  function Quat2Rot(q: Quat): Mat {
    var xx, yy, zz := q.x * q.x, q.y * q.y, q.z * q.z;
    var xy, xz, yz := q.x * q.y, q.x * q.z, q.y * q.z;
    var wx, wy, wz := q.w * q.x, q.w * q.y, q.w * q.z;
    FromProducts(xx, yy, zz, xy, xz, yz, wx, wy, wz)
  }

  /** The matrix in terms of the products of the components. */
  function FromProducts(xx: real, yy: real, zz: real, xy: real, xz: real, yz: real, wx: real, wy: real, wz: real): Mat {
    Mat(Vec(1.0 - 2.0 * (yy + zz), 2.0 * (xy - wz), 2.0 * (xz + wy)),
        Vec(2.0 * (xy + wz), 1.0 - 2.0 * (xx + zz), 2.0 * (yz - wx)),
        Vec(2.0 * (xz - wy), 2.0 * (yz + wx), 1.0 - 2.0 * (xx + yy)))
  }

  function Trace(m: Mat): real {
    m.r0.x + m.r1.y + m.r2.z
  }

  /** The four branches of the conversion, by the component each computes first. */
  datatype Branch = ByW | ByX | ByY | ByZ

  function BranchOf(m: Mat): Branch {
    if Trace(m) > 0.0 then ByW
    else if m.r0.x > m.r1.y && m.r0.x > m.r2.z then ByX
    else if m.r1.y > m.r2.z then ByY
    else ByZ
  }

  /** What the chosen branch takes the square root of. */
  function Radicand(m: Mat): real {
    match BranchOf(m)
    case ByW => Trace(m) + 1.0
    case ByX => 1.0 + m.r0.x - m.r1.y - m.r2.z
    case ByY => 1.0 + m.r1.y - m.r0.x - m.r2.z
    case ByZ => 1.0 + m.r2.z - m.r0.x - m.r1.y
  }

  predicate IsRoot(root: real, m: Mat) {
    root >= 0.0 && root * root == Radicand(m)
  }

  /** No branch ever divides by zero or takes the root of a negative number, on any matrix at all. */
  lemma RootPositive(root: real, m: Mat)
    ensures Radicand(m) >= 1.0
    ensures IsRoot(root, m) ==> root > 0.0
  {
    if IsRoot(root, m) && root == 0.0 {
      assert false;
    }
  }

  /** The components a branch finds: three quotients by its divisor, and its pivot. */
  datatype Parts = Parts(a: real, b: real, c: real, pivot: real)

  /** The branch for a positive trace. */
  function PartsByTrace(a: real, b: real, c: real, root: real): Parts
    requires root > 0.0
  {
    var s := 0.5 / root;
    Parts(a * s, b * s, c * s, 0.25 / s)
  }

  /** The three branches for a dominant diagonal entry. */
  function PartsByDiagonal(a: real, b: real, c: real, root: real): Parts
    requires root > 0.0
  {
    var s := 2.0 * root;
    Parts(a / s, b / s, c / s, 0.25 * s)
  }

  /** The quaternion whose pivot is the given component, the other parts in order. */
  function Place(p: Parts, b: Branch): Quat {
    match b
    case ByW => Quat(p.pivot, p.a, p.b, p.c)
    case ByX => Quat(p.a, p.pivot, p.b, p.c)
    case ByY => Quat(p.a, p.b, p.pivot, p.c)
    case ByZ => Quat(p.a, p.b, p.c, p.pivot)
  }

  /** The four branches, before the sign is normalised. */
  function Rot2QuatBranch(m: Mat, root: real): Quat
    requires IsRoot(root, m)
  {
    RootPositive(root, m);
    match BranchOf(m)
    case ByW => Place(PartsByTrace(m.r2.y - m.r1.z, m.r0.z - m.r2.x, m.r1.x - m.r0.y, root), ByW)
    case ByX => Place(PartsByDiagonal(m.r2.y - m.r1.z, m.r0.y + m.r1.x, m.r0.z + m.r2.x, root), ByX)
    case ByY => Place(PartsByDiagonal(m.r0.z - m.r2.x, m.r0.y + m.r1.x, m.r1.z + m.r2.y, root), ByY)
    case ByZ => Place(PartsByDiagonal(m.r1.x - m.r0.y, m.r0.z + m.r2.x, m.r1.z + m.r2.y, root), ByZ)
  }

  function Rot2Quat(m: Mat, root: real): Quat
    requires IsRoot(root, m)
  {
    var q := Rot2QuatBranch(m, root);
    if q.w < 0.0 then Neg(q) else q
  }

  // ----- The outer product of a quaternion with itself -----

  /** Four times the products of a quaternion's components, which are linear in the matrix entries. */
  datatype Outer = Outer(ww: real, xx: real, yy: real, zz: real,
                         wx: real, wy: real, wz: real, xy: real, xz: real, yz: real)

  function OuterOfQuat(q: Quat): Outer {
    Outer(4.0 * Prod(q.w, q.w), 4.0 * Prod(q.x, q.x), 4.0 * Prod(q.y, q.y), 4.0 * Prod(q.z, q.z),
          4.0 * Prod(q.w, q.x), 4.0 * Prod(q.w, q.y), 4.0 * Prod(q.w, q.z),
          4.0 * Prod(q.x, q.y), 4.0 * Prod(q.x, q.z), 4.0 * Prod(q.y, q.z))
  }

  function OuterOfRot(m: Mat): Outer {
    Outer(1.0 + m.r0.x + m.r1.y + m.r2.z, 1.0 + m.r0.x - m.r1.y - m.r2.z,
          1.0 + m.r1.y - m.r0.x - m.r2.z, 1.0 + m.r2.z - m.r0.x - m.r1.y,
          m.r2.y - m.r1.z, m.r0.z - m.r2.x, m.r1.x - m.r0.y,
          m.r0.y + m.r1.x, m.r0.z + m.r2.x, m.r1.z + m.r2.y)
  }

  lemma OuterOfUnit(q: Quat)
    requires IsUnit(q)
    ensures OuterOfRot(Quat2Rot(q)) == OuterOfQuat(q)
  {
    EntriesOfUnit(q);
    EntriesAreOuter(q);
  }

  lemma EntriesAreOuter(q: Quat)
    ensures OuterEntries(q) == OuterOfQuat(q)
  {
  }

  /** The outer product, written out. */
  function OuterEntries(q: Quat): Outer {
    Outer(4.0 * (q.w * q.w), 4.0 * (q.x * q.x), 4.0 * (q.y * q.y), 4.0 * (q.z * q.z),
          4.0 * (q.w * q.x), 4.0 * (q.w * q.y), 4.0 * (q.w * q.z),
          4.0 * (q.x * q.y), 4.0 * (q.x * q.z), 4.0 * (q.y * q.z))
  }

  lemma EntriesOfUnit(q: Quat)
    requires IsUnit(q)
    ensures OuterOfRot(Quat2Rot(q)) == OuterEntries(q)
  {
  }

  /** The matrix from the named products of four components. */
  function RotFrom(w: real, x: real, y: real, z: real): Mat {
    FromProducts(Prod(x, x), Prod(y, y), Prod(z, z), Prod(x, y), Prod(x, z), Prod(y, z),
                 Prod(w, x), Prod(w, y), Prod(w, z))
  }

  lemma RotIsFromProducts(q: Quat)
    ensures Quat2Rot(q) == RotFrom(q.w, q.x, q.y, q.z)
  {
  }

  /** The outer product determines the matrix. */
  lemma OuterDeterminesRot(q: Quat, m: Mat)
    requires OuterOfQuat(q) == OuterOfRot(m)
    ensures Quat2Rot(q) == m && IsUnit(q)
  {
    UnitFromOuter(q, m);
    RotIsFromProducts(q);
    MatrixFromOuter(q, m);
  }

  lemma UnitFromOuter(q: Quat, m: Mat)
    requires OuterOfQuat(q) == OuterOfRot(m)
    ensures IsUnit(q)
  {
    assert OuterOfRot(m).ww + OuterOfRot(m).xx + OuterOfRot(m).yy + OuterOfRot(m).zz == 4.0;
  }

  lemma MatrixFromOuter(q: Quat, m: Mat)
    requires OuterOfQuat(q) == OuterOfRot(m)
    ensures RotFrom(q.w, q.x, q.y, q.z) == m
  {
  }

  /** The row of the outer product that belongs to a component, that component's square as the pivot. */
  function RowParts(o: Outer, b: Branch): Parts {
    match b
    case ByW => Parts(o.wx, o.wy, o.wz, o.ww)
    case ByX => Parts(o.wx, o.xy, o.xz, o.xx)
    case ByY => Parts(o.wy, o.xy, o.yz, o.yy)
    case ByZ => Parts(o.wz, o.xz, o.yz, o.zz)
  }

  function Scale(k: real, q: Quat): Quat {
    Quat(Prod(k, q.w), Prod(k, q.x), Prod(k, q.y), Prod(k, q.z))
  }

  lemma PartsScaled(a: real, b: real, c: real, root: real)
    requires root > 0.0
    ensures PartsByTrace(a, b, c, root) == PartsByDiagonal(a, b, c, root)
    ensures var p, k := PartsByDiagonal(a, b, c, root), 2.0 * root;
            Prod(k, p.a) == a && Prod(k, p.b) == b && Prod(k, p.c) == c && Prod(k, p.pivot) == Prod(root, root)
  {
    var s := 0.5 / root;
    assert root * s == 0.5;
    ReciprocalScale(a, s, root);
    ReciprocalScale(b, s, root);
    ReciprocalScale(c, s, root);
    assert 0.25 / s == 0.5 * root by {
      assert s * (0.5 * root) == 0.25;
    }
  }

  lemma ReciprocalScale(a: real, s: real, root: real)
    requires root > 0.0 && root * s == 0.5
    ensures a * s == a / (2.0 * root) && 2.0 * root * (a / (2.0 * root)) == a
  {
    var k := 2.0 * root;
    assert k * (a * s) == a * (2.0 * (root * s)) == a;
  }

  /** Whichever branch is taken, it divides one row of the outer product by twice the root. */
  lemma BranchReadsRow(m: Mat, root: real)
    requires IsRoot(root, m)
    ensures var r := RowParts(OuterOfRot(m), BranchOf(m));
            r.pivot == Prod(root, root) && r.pivot >= 1.0 &&
            Scale(2.0 * root, Rot2QuatBranch(m, root)) == Place(r, BranchOf(m))
  {
    RootPositive(root, m);
    var r := RowParts(OuterOfRot(m), BranchOf(m));
    PartsScaled(r.a, r.b, r.c, root);
  }

  // ----- Unit quaternion to matrix and back -----

  lemma Cancel(k: real, a: real, b: real)
    requires k != 0.0 && Prod(k, a) == Prod(k, b)
    ensures a == b
  {
    assert k * (a - b) == 0.0;
  }

  /** A square root of four times a square is twice the number or its negation. */
  lemma RootOfSquare(root: real, a: real)
    requires Prod(root, root) == 4.0 * Prod(a, a)
    ensures root == 2.0 * a || root == -2.0 * a
  {
    assert (root - 2.0 * a) * (root + 2.0 * a) == 0.0;
  }

  lemma SameComponent(root: real, c: real, p: real, q: real)
    requires root > 0.0 && Prod(2.0 * root, p) == 4.0 * Prod(c, q)
    ensures root == 2.0 * c ==> p == q
    ensures root == -2.0 * c ==> p == -q
  {
    if root == 2.0 * c {
      assert 4.0 * Prod(c, q) == Prod(4.0 * c, q) == Prod(2.0 * root, q);
      Cancel(2.0 * root, p, q);
    } else if root == -2.0 * c {
      assert 4.0 * Prod(c, q) == Prod(-4.0 * c, -q) == Prod(2.0 * root, -q);
      Cancel(2.0 * root, p, -q);
    }
  }

  lemma SameUpToSign(root: real, c: real, p: Quat, q: Quat)
    requires root > 0.0 && Prod(root, root) == 4.0 * Prod(c, c)
    requires Scale(2.0 * root, p) ==
             Quat(4.0 * Prod(c, q.w), 4.0 * Prod(c, q.x), 4.0 * Prod(c, q.y), 4.0 * Prod(c, q.z))
    ensures p == q || p == Neg(q)
  {
    RootOfSquare(root, c);
    SameComponent(root, c, p.w, q.w);
    SameComponent(root, c, p.x, q.x);
    SameComponent(root, c, p.y, q.y);
    SameComponent(root, c, p.z, q.z);
  }

  lemma ProdCommutes(a: real, b: real)
    ensures Prod(a, b) == Prod(b, a)
  {
  }

  /** A row of its outer product, scaled back by twice the root of the row's pivot, is the quaternion again. */
  lemma QuatFromRow(p: Quat, q: Quat, b: Branch, root: real)
    requires root > 0.0 && Prod(root, root) == RowParts(OuterOfQuat(q), b).pivot
    requires Scale(2.0 * root, p) == Place(RowParts(OuterOfQuat(q), b), b)
    ensures p == q || p == Neg(q)
  {
    ProdCommutes(q.w, q.x);
    ProdCommutes(q.w, q.y);
    ProdCommutes(q.w, q.z);
    ProdCommutes(q.x, q.y);
    ProdCommutes(q.x, q.z);
    ProdCommutes(q.y, q.z);
    match b
    case ByW => SameUpToSign(root, q.w, p, q);
    case ByX => SameUpToSign(root, q.x, p, q);
    case ByY => SameUpToSign(root, q.y, p, q);
    case ByZ => SameUpToSign(root, q.z, p, q);
  }

  /** Matrix to quaternion inverts quaternion to matrix, up to the sign that makes w nonnegative. */
  lemma QuatRoundTrip(q: Quat, root: real)
    requires IsUnit(q) && IsRoot(root, Quat2Rot(q))
    ensures var p := Rot2Quat(Quat2Rot(q), root);
            (p == q || p == Neg(q)) && p.w >= 0.0
  {
    var m := Quat2Rot(q);
    RootPositive(root, m);
    BranchReadsRow(m, root);
    OuterOfUnit(q);
    QuatFromRow(Rot2QuatBranch(m, root), q, BranchOf(m), root);
  }

  // ----- Rotation matrix to quaternion and back -----

  /** In a rotation every row is the cross product of the other two. */
  lemma RowIsCross(m: Mat)
    requires IsRotation(m)
    ensures m.r0 == Cross(m.r1, m.r2)
  {
    CrossIsOrthogonal(m.r1.x, m.r1.y, m.r1.z, m.r2.x, m.r2.y, m.r2.z);
    ColumnsSpan(m, Cross(m.r1, m.r2));
  }

  lemma CrossIsOrthogonal(a: real, b: real, c: real, d: real, e: real, f: real)
    ensures Dot(Vec(a, b, c), Cross(Vec(a, b, c), Vec(d, e, f))) == 0.0
    ensures Dot(Vec(d, e, f), Cross(Vec(a, b, c), Vec(d, e, f))) == 0.0
  {
    assert a * (b * f - c * e) + b * (c * d - a * f) + c * (a * e - b * d) == 0.0;
    assert d * (b * f - c * e) + e * (c * d - a * f) + f * (a * e - b * d) == 0.0;
  }

  /** A vector is the sum of the rows weighted by its products with them, when the columns are orthonormal. */
  lemma ColumnsSpan(m: Mat, c: Vec)
    requires Mul(Transpose(m), m) == IDENTITY
    requires Dot(m.r0, c) == 1.0 && Dot(m.r1, c) == 0.0 && Dot(m.r2, c) == 0.0
    ensures c == m.r0
  {
    MulIsDots(Transpose(m));
    SpannedX(m, c);
    SpannedY(m, c);
    SpannedZ(m, c);
    SameVector(c, m.r0);
  }

  /** Orthonormal rows, entry by entry. */
  lemma MulIsDots(m: Mat)
    requires Mul(m, Transpose(m)) == IDENTITY
    ensures Dot(m.r0, m.r0) == 1.0 && Dot(m.r1, m.r1) == 1.0 && Dot(m.r2, m.r2) == 1.0
    ensures Dot(m.r0, m.r1) == 0.0 && Dot(m.r1, m.r2) == 0.0 && Dot(m.r2, m.r0) == 0.0
  {
    assert Mul(m, Transpose(m)).r0 == Vec(1.0, 0.0, 0.0);
    assert Mul(m, Transpose(m)).r1 == Vec(0.0, 1.0, 0.0);
    assert Mul(m, Transpose(m)).r2 == Vec(0.0, 0.0, 1.0);
  }

  lemma SpannedX(m: Mat, c: Vec)
    requires var t := Transpose(m);
             Dot(t.r0, t.r0) == 1.0 && Dot(t.r0, t.r1) == 0.0 && Dot(t.r2, t.r0) == 0.0
    requires Dot(m.r0, c) == 1.0 && Dot(m.r1, c) == 0.0 && Dot(m.r2, c) == 0.0
    ensures c.x == m.r0.x
  {
    var t := Transpose(m);
    assert c.x == Dot(t.r0, t.r0) * c.x + Dot(t.r0, t.r1) * c.y + Dot(t.r2, t.r0) * c.z
               == m.r0.x * Dot(m.r0, c) + m.r1.x * Dot(m.r1, c) + m.r2.x * Dot(m.r2, c);
  }

  lemma SpannedY(m: Mat, c: Vec)
    requires var t := Transpose(m);
             Dot(t.r1, t.r1) == 1.0 && Dot(t.r0, t.r1) == 0.0 && Dot(t.r1, t.r2) == 0.0
    requires Dot(m.r0, c) == 1.0 && Dot(m.r1, c) == 0.0 && Dot(m.r2, c) == 0.0
    ensures c.y == m.r0.y
  {
    var t := Transpose(m);
    assert c.y == Dot(t.r0, t.r1) * c.x + Dot(t.r1, t.r1) * c.y + Dot(t.r1, t.r2) * c.z
               == m.r0.y * Dot(m.r0, c) + m.r1.y * Dot(m.r1, c) + m.r2.y * Dot(m.r2, c);
  }

  lemma SpannedZ(m: Mat, c: Vec)
    requires var t := Transpose(m);
             Dot(t.r2, t.r2) == 1.0 && Dot(t.r2, t.r0) == 0.0 && Dot(t.r1, t.r2) == 0.0
    requires Dot(m.r0, c) == 1.0 && Dot(m.r1, c) == 0.0 && Dot(m.r2, c) == 0.0
    ensures c.z == m.r0.z
  {
    var t := Transpose(m);
    assert c.z == Dot(t.r2, t.r0) * c.x + Dot(t.r1, t.r2) * c.y + Dot(t.r2, t.r2) * c.z
               == m.r0.z * Dot(m.r0, c) + m.r1.z * Dot(m.r1, c) + m.r2.z * Dot(m.r2, c);
  }

  /** The same rotation with the axes renamed: x to y to z to x. */
  function Cycle(m: Mat): Mat {
    Mat(Vec(m.r1.y, m.r1.z, m.r1.x), Vec(m.r2.y, m.r2.z, m.r2.x), Vec(m.r0.y, m.r0.z, m.r0.x))
  }

  lemma CycleOfProduct(a: Mat, b: Mat)
    ensures Cycle(Mul(a, b)) == Mul(Cycle(a), Cycle(b))
  {
  }

  lemma CycleOfTranspose(m: Mat)
    ensures Cycle(Transpose(m)) == Transpose(Cycle(m)) && Cycle(IDENTITY) == IDENTITY
  {
  }

  /** The six signed products of the determinant. */
  lemma DetExpanded(m: Mat)
    ensures Det(m) == m.r0.x * m.r1.y * m.r2.z + m.r0.y * m.r1.z * m.r2.x + m.r0.z * m.r1.x * m.r2.y
                    - m.r0.x * m.r1.z * m.r2.y - m.r0.y * m.r1.x * m.r2.z - m.r0.z * m.r1.y * m.r2.x
  {
  }

  lemma CycleKeepsDet(m: Mat)
    ensures Det(Cycle(m)) == Det(m)
  {
    DetExpanded(m);
    DetExpanded(Cycle(m));
  }

  lemma CycleKeepsInverse(a: Mat, b: Mat)
    requires Mul(a, b) == IDENTITY
    ensures Mul(Cycle(a), Cycle(b)) == IDENTITY
  {
    CycleOfProduct(a, b);
    CycleOfTranspose(a);
  }

  lemma CycleIsRotation(m: Mat)
    requires IsRotation(m)
    ensures IsRotation(Cycle(m))
  {
    CycleKeepsInverse(m, Transpose(m));
    CycleKeepsInverse(Transpose(m), m);
    CycleOfTranspose(m);
    CycleKeepsDet(m);
  }

  lemma AllRowsAreCrosses(m: Mat)
    requires IsRotation(m)
    ensures m.r0 == Cross(m.r1, m.r2) && m.r1 == Cross(m.r2, m.r0) && m.r2 == Cross(m.r0, m.r1)
  {
    RowIsCross(m);
    CycleIsRotation(m);
    RowIsCross(Cycle(m));
    CycleIsRotation(Cycle(m));
    RowIsCross(Cycle(Cycle(m)));
    SecondIsCross(m);
    SecondIsCross(Cycle(m));
    ThirdIsCross(m);
  }

  lemma SecondIsCross(m: Mat)
    requires Cycle(m).r0 == Cross(Cycle(m).r1, Cycle(m).r2)
    ensures m.r1 == Cross(m.r2, m.r0)
  {
  }

  lemma ThirdIsCross(m: Mat)
    requires Cycle(m).r1 == Cross(Cycle(m).r2, Cycle(m).r0)
    ensures m.r2 == Cross(m.r0, m.r1)
  {
  }

  /** One third of the identities that make the outer product have rank one: those that begin at x. */
  predicate RankOneAtX(o: Outer) {
    && Prod(o.wx, o.wx) == Prod(o.ww, o.xx) && Prod(o.xy, o.xy) == Prod(o.xx, o.yy)
    && Prod(o.wx, o.wy) == Prod(o.ww, o.xy) && Prod(o.xy, o.xz) == Prod(o.xx, o.yz)
    && Prod(o.wx, o.xy) == Prod(o.xx, o.wy) && Prod(o.wx, o.xz) == Prod(o.xx, o.wz)
  }

  lemma RotationHasRankOneAtX(m: Mat)
    requires IsRotation(m)
    ensures RankOneAtX(OuterOfRot(m))
  {
    AllRowsAreCrosses(m);
    RowProducts(m);
    ColumnProducts(m);
    CrossEntries(m);
    SquaresAtX(m);
    ProductsXY(m, OuterOfRot(m));
    ProductsYZ(m, OuterOfRot(m));
    ProductsZX(m, OuterOfRot(m));
  }

  lemma RowProducts(m: Mat)
    requires Mul(m, Transpose(m)) == IDENTITY
    ensures m.r0.x * m.r1.x + m.r0.y * m.r1.y + m.r0.z * m.r1.z == 0.0
    ensures m.r1.x * m.r2.x + m.r1.y * m.r2.y + m.r1.z * m.r2.z == 0.0
    ensures m.r0.x * m.r2.x + m.r0.y * m.r2.y + m.r0.z * m.r2.z == 0.0
    ensures m.r0.x * m.r0.x + m.r0.y * m.r0.y + m.r0.z * m.r0.z == 1.0
    ensures m.r1.x * m.r1.x + m.r1.y * m.r1.y + m.r1.z * m.r1.z == 1.0
    ensures m.r2.x * m.r2.x + m.r2.y * m.r2.y + m.r2.z * m.r2.z == 1.0
  {
    MulIsDots(m);
  }

  lemma ColumnProducts(m: Mat)
    requires Mul(Transpose(m), m) == IDENTITY
    ensures m.r0.x * m.r0.y + m.r1.x * m.r1.y + m.r2.x * m.r2.y == 0.0
    ensures m.r0.y * m.r0.z + m.r1.y * m.r1.z + m.r2.y * m.r2.z == 0.0
    ensures m.r0.x * m.r0.z + m.r1.x * m.r1.z + m.r2.x * m.r2.z == 0.0
    ensures m.r0.x * m.r0.x + m.r1.x * m.r1.x + m.r2.x * m.r2.x == 1.0
    ensures m.r0.y * m.r0.y + m.r1.y * m.r1.y + m.r2.y * m.r2.y == 1.0
  {
    RowProducts(Transpose(m));
  }

  lemma CrossEntries(m: Mat)
    requires m.r0 == Cross(m.r1, m.r2) && m.r1 == Cross(m.r2, m.r0) && m.r2 == Cross(m.r0, m.r1)
    ensures m.r0.x == m.r1.y * m.r2.z - m.r1.z * m.r2.y && m.r2.z == m.r0.x * m.r1.y - m.r0.y * m.r1.x
    ensures m.r0.y == m.r1.z * m.r2.x - m.r1.x * m.r2.z && m.r0.z == m.r1.x * m.r2.y - m.r1.y * m.r2.x
    ensures m.r1.x == m.r2.y * m.r0.z - m.r2.z * m.r0.y && m.r1.z == m.r2.x * m.r0.y - m.r2.y * m.r0.x
    ensures m.r2.x == m.r0.y * m.r1.z - m.r0.z * m.r1.y && m.r2.y == m.r0.z * m.r1.x - m.r0.x * m.r1.z
  {
  }

  lemma SquaresAtX(m: Mat)
    requires m.r1.x * m.r1.x + m.r1.y * m.r1.y + m.r1.z * m.r1.z == 1.0
    requires m.r2.x * m.r2.x + m.r2.y * m.r2.y + m.r2.z * m.r2.z == 1.0
    requires m.r0.x * m.r0.x + m.r1.x * m.r1.x + m.r2.x * m.r2.x == 1.0
    requires m.r0.y * m.r0.y + m.r1.y * m.r1.y + m.r2.y * m.r2.y == 1.0
    requires m.r0.x == m.r1.y * m.r2.z - m.r1.z * m.r2.y && m.r2.z == m.r0.x * m.r1.y - m.r0.y * m.r1.x
    ensures var o := OuterOfRot(m);
            Prod(o.wx, o.wx) == Prod(o.ww, o.xx) && Prod(o.xy, o.xy) == Prod(o.xx, o.yy)
  {
    RankOneSquares(m.r0.x, m.r0.y, m.r0.z, m.r1.x, m.r1.y, m.r1.z, m.r2.x, m.r2.y, m.r2.z);
  }

  lemma ProductsXY(m: Mat, o: Outer)
    requires o == OuterOfRot(m)
    requires m.r0.x * m.r1.x + m.r0.y * m.r1.y + m.r0.z * m.r1.z == 0.0
    requires m.r0.x * m.r0.y + m.r1.x * m.r1.y + m.r2.x * m.r2.y == 0.0
    requires m.r0.y == m.r1.z * m.r2.x - m.r1.x * m.r2.z && m.r1.x == m.r2.y * m.r0.z - m.r2.z * m.r0.y
    ensures Prod(o.wx, o.wy) == Prod(o.ww, o.xy) && Prod(o.wx, o.xz) == Prod(o.xx, o.wz)
  {
    RankOneXY(m.r0.x, m.r0.y, m.r0.z, m.r1.x, m.r1.y, m.r1.z, m.r2.x, m.r2.y, m.r2.z);
  }

  lemma ProductsYZ(m: Mat, o: Outer)
    requires o == OuterOfRot(m)
    requires m.r1.x * m.r2.x + m.r1.y * m.r2.y + m.r1.z * m.r2.z == 0.0
    requires m.r0.y * m.r0.z + m.r1.y * m.r1.z + m.r2.y * m.r2.z == 0.0
    requires m.r1.z == m.r2.x * m.r0.y - m.r2.y * m.r0.x && m.r2.y == m.r0.z * m.r1.x - m.r0.x * m.r1.z
    ensures Prod(o.xy, o.xz) == Prod(o.xx, o.yz)
  {
    RankOneYZ(m.r0.x, m.r0.y, m.r0.z, m.r1.x, m.r1.y, m.r1.z, m.r2.x, m.r2.y, m.r2.z);
  }

  lemma ProductsZX(m: Mat, o: Outer)
    requires o == OuterOfRot(m)
    requires m.r0.x * m.r2.x + m.r0.y * m.r2.y + m.r0.z * m.r2.z == 0.0
    requires m.r0.x * m.r0.z + m.r1.x * m.r1.z + m.r2.x * m.r2.z == 0.0
    requires m.r0.z == m.r1.x * m.r2.y - m.r1.y * m.r2.x && m.r2.x == m.r0.y * m.r1.z - m.r0.z * m.r1.y
    ensures Prod(o.wx, o.xy) == Prod(o.xx, o.wy)
  {
    RankOneZX(m.r0.x, m.r0.y, m.r0.z, m.r1.x, m.r1.y, m.r1.z, m.r2.x, m.r2.y, m.r2.z);
  }

  lemma RankOneSquares(a: real, b: real, c: real, d: real, e: real, f: real, g: real, h: real, i: real)
    requires d * d + e * e + f * f == 1.0 && g * g + h * h + i * i == 1.0
    requires a * a + d * d + g * g == 1.0 && b * b + e * e + h * h == 1.0
    requires a == e * i - f * h && i == a * e - b * d
    ensures Prod(h - f, h - f) == Prod(1.0 + a + e + i, 1.0 + a - e - i)
    ensures Prod(d + b, d + b) == Prod(b + d, b + d) == Prod(1.0 + a - e - i, 1.0 + e - a - i)
  {
  }

  lemma RankOneXY(a: real, b: real, c: real, d: real, e: real, f: real, g: real, h: real, i: real)
    requires a * d + b * e + c * f == 0.0 && a * b + d * e + g * h == 0.0
    requires b == f * g - d * i && d == h * c - i * b
    ensures Prod(h - f, c - g) == Prod(1.0 + a + e + i, b + d)
    ensures Prod(h - f, c + g) == Prod(1.0 + a - e - i, d - b)
  {
  }

  lemma RankOneYZ(a: real, b: real, c: real, d: real, e: real, f: real, g: real, h: real, i: real)
    requires d * g + e * h + f * i == 0.0 && b * c + e * f + h * i == 0.0
    requires f == g * b - h * a && h == c * d - a * f
    ensures Prod(b + d, c + g) == Prod(1.0 + a - e - i, f + h)
  {
  }

  lemma RankOneZX(a: real, b: real, c: real, d: real, e: real, f: real, g: real, h: real, i: real)
    requires a * g + b * h + c * i == 0.0 && a * c + d * f + g * i == 0.0
    requires c == d * h - e * g && g == b * f - c * e
    ensures Prod(h - f, b + d) == Prod(1.0 + a - e - i, c - g)
  {
  }

  /** Every product of two entries of row b is the pivot of the row times the entry where they cross. */
  predicate HasRankOne(o: Outer, b: Branch) {
    match b
    case ByW =>
      && Prod(o.wx, o.wx) == Prod(o.ww, o.xx) && Prod(o.wy, o.wy) == Prod(o.ww, o.yy)
      && Prod(o.wz, o.wz) == Prod(o.ww, o.zz)
      && Prod(o.wx, o.wy) == Prod(o.ww, o.xy) && Prod(o.wx, o.wz) == Prod(o.ww, o.xz)
      && Prod(o.wy, o.wz) == Prod(o.ww, o.yz)
    case ByX =>
      && Prod(o.wx, o.wx) == Prod(o.xx, o.ww) && Prod(o.xy, o.xy) == Prod(o.xx, o.yy)
      && Prod(o.xz, o.xz) == Prod(o.xx, o.zz)
      && Prod(o.wx, o.xy) == Prod(o.xx, o.wy) && Prod(o.wx, o.xz) == Prod(o.xx, o.wz)
      && Prod(o.xy, o.xz) == Prod(o.xx, o.yz)
    case ByY =>
      && Prod(o.wy, o.wy) == Prod(o.yy, o.ww) && Prod(o.xy, o.xy) == Prod(o.yy, o.xx)
      && Prod(o.yz, o.yz) == Prod(o.yy, o.zz)
      && Prod(o.wy, o.xy) == Prod(o.yy, o.wx) && Prod(o.wy, o.yz) == Prod(o.yy, o.wz)
      && Prod(o.xy, o.yz) == Prod(o.yy, o.xz)
    case ByZ =>
      && Prod(o.wz, o.wz) == Prod(o.zz, o.ww) && Prod(o.xz, o.xz) == Prod(o.zz, o.xx)
      && Prod(o.yz, o.yz) == Prod(o.zz, o.yy)
      && Prod(o.wz, o.xz) == Prod(o.zz, o.wx) && Prod(o.wz, o.yz) == Prod(o.zz, o.wy)
      && Prod(o.xz, o.yz) == Prod(o.zz, o.xy)
  }

  function CycleOuter(o: Outer): Outer {
    Outer(o.ww, o.yy, o.zz, o.xx, o.wy, o.wz, o.wx, o.yz, o.xy, o.xz)
  }

  lemma OuterOfCycle(m: Mat)
    ensures OuterOfRot(Cycle(m)) == CycleOuter(OuterOfRot(m))
  {
  }

  lemma RankOneFromThirds(o: Outer, b: Branch)
    requires RankOneAtX(o) && RankOneAtX(CycleOuter(o)) && RankOneAtX(CycleOuter(CycleOuter(o)))
    ensures HasRankOne(o, b)
  {
    ProdCommutes(o.ww, o.xx);
    ProdCommutes(o.ww, o.yy);
    ProdCommutes(o.ww, o.zz);
    ProdCommutes(o.xx, o.yy);
    ProdCommutes(o.xx, o.zz);
    ProdCommutes(o.yy, o.zz);
    ProdCommutes(o.wx, o.wz);
    ProdCommutes(o.wy, o.wz);
    ProdCommutes(o.xy, o.yz);
    ProdCommutes(o.xz, o.yz);
    ProdCommutes(o.xy, o.xz);
  }

  /** The outer product read off a rotation matrix has rank one: it is that of some quaternion. */
  lemma RotationHasRankOne(m: Mat, b: Branch)
    requires IsRotation(m)
    ensures HasRankOne(OuterOfRot(m), b)
  {
    CycleIsRotation(m);
    CycleIsRotation(Cycle(m));
    OuterOfCycle(m);
    OuterOfCycle(Cycle(m));
    RotationHasRankOneAtX(m);
    RotationHasRankOneAtX(Cycle(m));
    RotationHasRankOneAtX(Cycle(Cycle(m)));
    RankOneFromThirds(OuterOfRot(m), b);
  }

  /** One entry of the outer product, from the two row entries it comes from. */
  lemma EntryFromRow(root: real, u: real, v: real, ru: real, rv: real, pivot: real, uv: real)
    requires Prod(2.0 * root, u) == ru && Prod(2.0 * root, v) == rv
    requires pivot == Prod(root, root) && pivot > 0.0 && Prod(ru, rv) == Prod(pivot, uv)
    ensures 4.0 * Prod(u, v) == uv
  {
    assert Prod(ru, rv) == Prod(2.0 * root * u, 2.0 * root * v) == Prod(root * root, 4.0 * Prod(u, v));
    assert Prod(root * root, 4.0 * Prod(u, v)) == Prod(pivot, 4.0 * Prod(u, v));
    Cancel(pivot, 4.0 * Prod(u, v), uv);
  }

  /** A quaternion read off one row of a rank-one outer product has that outer product. */
  lemma OuterFromRow(o: Outer, b: Branch, q: Quat, root: real)
    requires HasRankOne(o, b) && RowParts(o, b).pivot == Prod(root, root) && RowParts(o, b).pivot > 0.0
    requires Scale(2.0 * root, q) == Place(RowParts(o, b), b)
    ensures OuterOfQuat(q) == o
  {
    match b
    case ByW =>
      EntryFromRow(root, q.w, q.w, o.ww, o.ww, o.ww, o.ww);
      EntryFromRow(root, q.w, q.x, o.ww, o.wx, o.ww, o.wx);
      EntryFromRow(root, q.w, q.y, o.ww, o.wy, o.ww, o.wy);
      EntryFromRow(root, q.w, q.z, o.ww, o.wz, o.ww, o.wz);
      EntryFromRow(root, q.x, q.x, o.wx, o.wx, o.ww, o.xx);
      EntryFromRow(root, q.x, q.y, o.wx, o.wy, o.ww, o.xy);
      EntryFromRow(root, q.x, q.z, o.wx, o.wz, o.ww, o.xz);
      EntryFromRow(root, q.y, q.y, o.wy, o.wy, o.ww, o.yy);
      EntryFromRow(root, q.y, q.z, o.wy, o.wz, o.ww, o.yz);
      EntryFromRow(root, q.z, q.z, o.wz, o.wz, o.ww, o.zz);
    case ByX =>
      EntryFromRow(root, q.w, q.w, o.wx, o.wx, o.xx, o.ww);
      EntryFromRow(root, q.w, q.x, o.wx, o.xx, o.xx, o.wx);
      EntryFromRow(root, q.w, q.y, o.wx, o.xy, o.xx, o.wy);
      EntryFromRow(root, q.w, q.z, o.wx, o.xz, o.xx, o.wz);
      EntryFromRow(root, q.x, q.x, o.xx, o.xx, o.xx, o.xx);
      EntryFromRow(root, q.x, q.y, o.xx, o.xy, o.xx, o.xy);
      EntryFromRow(root, q.x, q.z, o.xx, o.xz, o.xx, o.xz);
      EntryFromRow(root, q.y, q.y, o.xy, o.xy, o.xx, o.yy);
      EntryFromRow(root, q.y, q.z, o.xy, o.xz, o.xx, o.yz);
      EntryFromRow(root, q.z, q.z, o.xz, o.xz, o.xx, o.zz);
    case ByY =>
      EntryFromRow(root, q.w, q.w, o.wy, o.wy, o.yy, o.ww);
      EntryFromRow(root, q.w, q.x, o.wy, o.xy, o.yy, o.wx);
      EntryFromRow(root, q.w, q.y, o.wy, o.yy, o.yy, o.wy);
      EntryFromRow(root, q.w, q.z, o.wy, o.yz, o.yy, o.wz);
      EntryFromRow(root, q.x, q.x, o.xy, o.xy, o.yy, o.xx);
      EntryFromRow(root, q.x, q.y, o.xy, o.yy, o.yy, o.xy);
      EntryFromRow(root, q.x, q.z, o.xy, o.yz, o.yy, o.xz);
      EntryFromRow(root, q.y, q.y, o.yy, o.yy, o.yy, o.yy);
      EntryFromRow(root, q.y, q.z, o.yy, o.yz, o.yy, o.yz);
      EntryFromRow(root, q.z, q.z, o.yz, o.yz, o.yy, o.zz);
    case ByZ =>
      EntryFromRow(root, q.w, q.w, o.wz, o.wz, o.zz, o.ww);
      EntryFromRow(root, q.w, q.x, o.wz, o.xz, o.zz, o.wx);
      EntryFromRow(root, q.w, q.y, o.wz, o.yz, o.zz, o.wy);
      EntryFromRow(root, q.w, q.z, o.wz, o.zz, o.zz, o.wz);
      EntryFromRow(root, q.x, q.x, o.xz, o.xz, o.zz, o.xx);
      EntryFromRow(root, q.x, q.y, o.xz, o.yz, o.zz, o.xy);
      EntryFromRow(root, q.x, q.z, o.xz, o.zz, o.zz, o.xz);
      EntryFromRow(root, q.y, q.y, o.yz, o.yz, o.zz, o.yy);
      EntryFromRow(root, q.y, q.z, o.yz, o.zz, o.zz, o.yz);
      EntryFromRow(root, q.z, q.z, o.zz, o.zz, o.zz, o.zz);
  }

  lemma OuterOfNeg(q: Quat)
    ensures OuterOfQuat(Neg(q)) == OuterOfQuat(q)
  {
  }

  /** Quaternion to matrix inverts matrix to quaternion on every rotation matrix, through all four branches. */
  lemma RotRoundTrip(m: Mat, root: real)
    requires IsRotation(m) && IsRoot(root, m)
    ensures var q := Rot2Quat(m, root);
            IsUnit(q) && q.w >= 0.0 && Quat2Rot(q) == m
  {
    var q := Rot2QuatBranch(m, root);
    RootPositive(root, m);
    BranchReadsRow(m, root);
    RotationHasRankOne(m, BranchOf(m));
    OuterFromRow(OuterOfRot(m), BranchOf(m), q, root);
    OuterOfNeg(q);
    OuterDeterminesRot(Rot2Quat(m, root), m);
  }

  lemma RootExists(c: real) returns (root: real)
    ensures root >= 0.0 && root * root == 4.0 * (c * c)
  {
    root := if c >= 0.0 then 2.0 * c else -2.0 * c;
  }

  lemma RadicandIsPivot(m: Mat)
    ensures Radicand(m) == RowParts(OuterOfRot(m), BranchOf(m)).pivot
  {
  }

  function Component(q: Quat, b: Branch): real {
    match b
    case ByW => q.w
    case ByX => q.x
    case ByY => q.y
    case ByZ => q.z
  }

  lemma PivotOfQuat(q: Quat, b: Branch)
    ensures var c := Component(q, b);
            RowParts(OuterOfQuat(q), b).pivot == 4.0 * (c * c)
  {
  }

  /** The square root the conversion needs exists for the matrix of every unit quaternion. */
  lemma UnitHasRoot(q: Quat) returns (root: real)
    requires IsUnit(q)
    ensures IsRoot(root, Quat2Rot(q))
  {
    OuterOfUnit(q);
    root := RootOfOuter(q, Quat2Rot(q));
  }

  lemma RootOfOuter(q: Quat, m: Mat) returns (root: real)
    requires OuterOfRot(m) == OuterOfQuat(q)
    ensures IsRoot(root, m)
  {
    var b := BranchOf(m);
    RadicandIsPivot(m);
    PivotOfQuat(q, b);
    root := RootExists(Component(q, b));
  }

  /** Two unit quaternions stand for the same rotation exactly when they agree up to sign. */
  lemma DoubleCover(p: Quat, q: Quat)
    requires IsUnit(p) && IsUnit(q)
    ensures Quat2Rot(p) == Quat2Rot(q) <==> p == q || p == Neg(q)
  {
    OuterOfUnit(p);
    OuterOfUnit(q);
    OuterOfNeg(q);
    if Quat2Rot(p) == Quat2Rot(q) {
      var root := UnitHasRoot(p);
      QuatRoundTrip(p, root);
      QuatRoundTrip(q, root);
    } else if p == Neg(q) {
      OuterDeterminesRot(Neg(q), Quat2Rot(q));
    }
  }

  // ----- The matrix of a unit quaternion is a rotation -----

  /** The identities for four different components, which are no row's own. */
  predicate HasMixed(o: Outer, b: Branch) {
    b == ByW ==> Prod(o.wx, o.yz) == Prod(o.wy, o.xz) == Prod(o.wz, o.xy)
  }

  predicate HasIdentities(o: Outer, b: Branch) {
    HasRankOne(o, b) && HasMixed(o, b)
  }

  /** All the rank-one identities, row by row. */
  ghost predicate IsOuterProduct(o: Outer) {
    forall b: Branch :: HasIdentities(o, b)
  }

  lemma CrossProducts(a: real, b: real, c: real, d: real, ab: real, cd: real, ac: real, bd: real)
    requires ab == 4.0 * Prod(a, b) && cd == 4.0 * Prod(c, d) && ac == 4.0 * Prod(a, c) && bd == 4.0 * Prod(b, d)
    ensures Prod(ab, cd) == Prod(ac, bd)
  {
    assert Prod(4.0 * (a * b), 4.0 * (c * d)) == Prod(4.0 * (a * c), 4.0 * (b * d));
  }

  lemma QuatRankOneW(q: Quat, o: Outer)
    requires o == OuterOfQuat(q)
    ensures HasRankOne(o, ByW)
  {
    ProdCommutes(q.w, q.x);
    ProdCommutes(q.w, q.y);
    ProdCommutes(q.w, q.z);
    CrossProducts(q.w, q.x, q.w, q.x, o.wx, o.wx, o.ww, o.xx);
    CrossProducts(q.w, q.x, q.w, q.y, o.wx, o.wy, o.ww, o.xy);
    CrossProducts(q.w, q.x, q.w, q.z, o.wx, o.wz, o.ww, o.xz);
    CrossProducts(q.w, q.y, q.w, q.y, o.wy, o.wy, o.ww, o.yy);
    CrossProducts(q.w, q.y, q.w, q.z, o.wy, o.wz, o.ww, o.yz);
    CrossProducts(q.w, q.z, q.w, q.z, o.wz, o.wz, o.ww, o.zz);
  }

  lemma QuatRankOneX(q: Quat, o: Outer)
    requires o == OuterOfQuat(q)
    ensures HasRankOne(o, ByX)
  {
    ProdCommutes(q.x, q.w);
    ProdCommutes(q.x, q.y);
    ProdCommutes(q.x, q.z);
    CrossProducts(q.x, q.w, q.x, q.w, o.wx, o.wx, o.xx, o.ww);
    CrossProducts(q.x, q.w, q.x, q.y, o.wx, o.xy, o.xx, o.wy);
    CrossProducts(q.x, q.w, q.x, q.z, o.wx, o.xz, o.xx, o.wz);
    CrossProducts(q.x, q.y, q.x, q.y, o.xy, o.xy, o.xx, o.yy);
    CrossProducts(q.x, q.y, q.x, q.z, o.xy, o.xz, o.xx, o.yz);
    CrossProducts(q.x, q.z, q.x, q.z, o.xz, o.xz, o.xx, o.zz);
  }

  lemma QuatRankOneY(q: Quat, o: Outer)
    requires o == OuterOfQuat(q)
    ensures HasRankOne(o, ByY)
  {
    ProdCommutes(q.y, q.w);
    ProdCommutes(q.y, q.x);
    ProdCommutes(q.y, q.z);
    CrossProducts(q.y, q.w, q.y, q.w, o.wy, o.wy, o.yy, o.ww);
    CrossProducts(q.y, q.w, q.y, q.x, o.wy, o.xy, o.yy, o.wx);
    CrossProducts(q.y, q.w, q.y, q.z, o.wy, o.yz, o.yy, o.wz);
    CrossProducts(q.y, q.x, q.y, q.x, o.xy, o.xy, o.yy, o.xx);
    CrossProducts(q.y, q.x, q.y, q.z, o.xy, o.yz, o.yy, o.xz);
    CrossProducts(q.y, q.z, q.y, q.z, o.yz, o.yz, o.yy, o.zz);
  }

  lemma QuatRankOneZ(q: Quat, o: Outer)
    requires o == OuterOfQuat(q)
    ensures HasRankOne(o, ByZ)
  {
    ProdCommutes(q.z, q.w);
    ProdCommutes(q.z, q.x);
    ProdCommutes(q.z, q.y);
    CrossProducts(q.z, q.w, q.z, q.w, o.wz, o.wz, o.zz, o.ww);
    CrossProducts(q.z, q.w, q.z, q.x, o.wz, o.xz, o.zz, o.wx);
    CrossProducts(q.z, q.w, q.z, q.y, o.wz, o.yz, o.zz, o.wy);
    CrossProducts(q.z, q.x, q.z, q.x, o.xz, o.xz, o.zz, o.xx);
    CrossProducts(q.z, q.x, q.z, q.y, o.xz, o.yz, o.zz, o.xy);
    CrossProducts(q.z, q.y, q.z, q.y, o.yz, o.yz, o.zz, o.yy);
  }

  lemma QuatIsOuterProduct(q: Quat)
    ensures IsOuterProduct(OuterOfQuat(q))
  {
    var o := OuterOfQuat(q);
    QuatRankOneW(q, o);
    QuatRankOneX(q, o);
    QuatRankOneY(q, o);
    QuatRankOneZ(q, o);
    QuatMixed(q, o);
    forall b: Branch
      ensures HasIdentities(o, b)
    {
      match b
      case ByW =>
      case ByX =>
      case ByY =>
      case ByZ =>
    }
  }

  lemma QuatMixed(q: Quat, o: Outer)
    requires o == OuterOfQuat(q)
    ensures HasMixed(o, ByW)
  {
    ProdCommutes(q.y, q.z);
    CrossProducts(q.w, q.x, q.y, q.z, o.wx, o.yz, o.wy, o.xz);
    CrossProducts(q.w, q.x, q.z, q.y, o.wx, o.yz, o.wz, o.xy);
  }

  /** A rank-one outer product makes the first row a unit vector, orthogonal to the second and the cross product. */
  lemma FirstRowFromOuter(m: Mat)
    requires IsOuterProduct(OuterOfRot(m))
    ensures Dot(m.r0, m.r0) == 1.0 && Dot(m.r0, m.r1) == 0.0 && Cross(m.r1, m.r2) == m.r0
  {
    var o := OuterOfRot(m);
    RowsAreEntries(m);
    assert HasIdentities(o, ByW) && HasIdentities(o, ByX) && HasIdentities(o, ByY) && HasIdentities(o, ByZ);
    FirstRowIsUnit(o, m);
    FirstRowsAreOrthogonal(o, m);
    FirstRowCrossX(o, m);
    FirstRowCrossY(o, m);
    FirstRowCrossZ(o, m);
    SameVector(Cross(m.r1, m.r2), m.r0);
  }

  lemma SameVector(a: Vec, b: Vec)
    requires a.x == b.x && a.y == b.y && a.z == b.z
    ensures a == b
  {
  }

  /** The rows, times four, in the entries of the outer product. */
  predicate RowsOf(o: Outer, m: Mat) {
    && o.ww + o.xx + o.yy + o.zz == 4.0
    && 4.0 * m.r0.x == o.ww + o.xx - o.yy - o.zz && 2.0 * m.r0.y == o.xy - o.wz && 2.0 * m.r0.z == o.xz + o.wy
    && 2.0 * m.r1.x == o.xy + o.wz && 4.0 * m.r1.y == o.ww + o.yy - o.xx - o.zz && 2.0 * m.r1.z == o.yz - o.wx
    && 2.0 * m.r2.x == o.xz - o.wy && 2.0 * m.r2.y == o.yz + o.wx && 4.0 * m.r2.z == o.ww + o.zz - o.xx - o.yy
  }

  lemma RowsAreEntries(m: Mat)
    ensures RowsOf(OuterOfRot(m), m)
  {
  }

  lemma FirstRowIsUnit(o: Outer, m: Mat)
    requires RowsOf(o, m)
    requires Prod(o.xy, o.xy) == Prod(o.xx, o.yy) && Prod(o.wz, o.wz) == Prod(o.ww, o.zz)
    requires Prod(o.xz, o.xz) == Prod(o.xx, o.zz) && Prod(o.wy, o.wy) == Prod(o.ww, o.yy)
    requires Prod(o.wy, o.xz) == Prod(o.wz, o.xy)
    ensures Dot(m.r0, m.r0) == 1.0
  {
    UnitEntries(o.ww, o.xx, o.yy, o.zz, o.wy, o.wz, o.xy, o.xz, m.r0.x, m.r0.y, m.r0.z);
  }

  lemma FirstRowsAreOrthogonal(o: Outer, m: Mat)
    requires RowsOf(o, m)
    requires Prod(o.xz, o.yz) == Prod(o.zz, o.xy) && Prod(o.wx, o.wy) == Prod(o.ww, o.xy)
    requires Prod(o.wx, o.xz) == Prod(o.xx, o.wz) && Prod(o.wy, o.yz) == Prod(o.yy, o.wz)
    ensures Dot(m.r0, m.r1) == 0.0
  {
    RowsOrthogonal(o.ww, o.xx, o.yy, o.zz, o.wx, o.wy, o.wz, o.xy, o.xz, o.yz,
                   m.r0.x, m.r0.y, m.r0.z, m.r1.x, m.r1.y, m.r1.z);
  }

  lemma FirstRowCrossX(o: Outer, m: Mat)
    requires RowsOf(o, m) && Prod(o.yz, o.yz) == Prod(o.yy, o.zz) && Prod(o.wx, o.wx) == Prod(o.ww, o.xx)
    ensures Cross(m.r1, m.r2).x == m.r0.x
  {
    CrossAtX(o.ww, o.xx, o.yy, o.zz, o.wx, o.yz, m.r0.x, m.r1.y, m.r1.z, m.r2.y, m.r2.z);
  }

  lemma FirstRowCrossY(o: Outer, m: Mat)
    requires o.ww + o.xx + o.yy + o.zz == 4.0 && 2.0 * m.r0.y == o.xy - o.wz
    requires 2.0 * m.r1.x == o.xy + o.wz && 2.0 * m.r1.z == o.yz - o.wx
    requires 2.0 * m.r2.x == o.xz - o.wy && 4.0 * m.r2.z == o.ww + o.zz - o.xx - o.yy
    requires Prod(o.xz, o.yz) == Prod(o.zz, o.xy) && Prod(o.wx, o.wy) == Prod(o.ww, o.xy)
    requires Prod(o.wx, o.xz) == Prod(o.xx, o.wz) && Prod(o.wy, o.yz) == Prod(o.yy, o.wz)
    ensures Cross(m.r1, m.r2).y == m.r0.y
  {
    CrossAtY(o.ww, o.xx, o.yy, o.zz, o.wx, o.wy, o.wz, o.xy, o.xz, o.yz,
             m.r0.y, m.r1.x, m.r1.z, m.r2.x, m.r2.z);
  }

  lemma FirstRowCrossZ(o: Outer, m: Mat)
    requires o.ww + o.xx + o.yy + o.zz == 4.0 && 2.0 * m.r0.z == o.xz + o.wy
    requires 2.0 * m.r1.x == o.xy + o.wz && 4.0 * m.r1.y == o.ww + o.yy - o.xx - o.zz
    requires 2.0 * m.r2.x == o.xz - o.wy && 2.0 * m.r2.y == o.yz + o.wx
    requires Prod(o.xy, o.yz) == Prod(o.yy, o.xz) && Prod(o.wx, o.xy) == Prod(o.xx, o.wy)
    requires Prod(o.wz, o.yz) == Prod(o.zz, o.wy) && Prod(o.wx, o.wz) == Prod(o.ww, o.xz)
    ensures Cross(m.r1, m.r2).z == m.r0.z
  {
    CrossAtZ(o.ww, o.xx, o.yy, o.zz, o.wx, o.wy, o.wz, o.xy, o.xz, o.yz,
             m.r0.z, m.r1.x, m.r1.y, m.r2.x, m.r2.y);
  }

  lemma UnitEntries(ww: real, xx: real, yy: real, zz: real, wy: real, wz: real, xy: real, xz: real,
                    a: real, b: real, c: real)
    requires ww + xx + yy + zz == 4.0 && 4.0 * a == ww + xx - yy - zz && 2.0 * b == xy - wz && 2.0 * c == xz + wy
    requires Prod(xy, xy) == Prod(xx, yy) && Prod(wz, wz) == Prod(ww, zz)
    requires Prod(xz, xz) == Prod(xx, zz) && Prod(wy, wy) == Prod(ww, yy) && Prod(wy, xz) == Prod(wz, xy)
    ensures a * a + b * b + c * c == 1.0
  {
    var A, B := ww + xx, yy + zz;
    assert (4.0 * a) * (4.0 * a) == (A - B) * (A - B);
    assert (2.0 * b) * (2.0 * b) == xy * xy - 2.0 * (xy * wz) + wz * wz;
    assert (2.0 * c) * (2.0 * c) == xz * xz + 2.0 * (xz * wy) + wy * wy;
    assert A * B == ww * yy + ww * zz + xx * yy + xx * zz;
    assert (A - B) * (A - B) + 4.0 * (A * B) == (A + B) * (A + B) == 16.0;
  }

  lemma RowsOrthogonal(ww: real, xx: real, yy: real, zz: real,
                       wx: real, wy: real, wz: real, xy: real, xz: real, yz: real,
                       a: real, b: real, c: real, d: real, e: real, f: real)
    requires Prod(xz, yz) == Prod(zz, xy) && Prod(wx, wy) == Prod(ww, xy)
    requires Prod(wx, xz) == Prod(xx, wz) && Prod(wy, yz) == Prod(yy, wz)
    requires 4.0 * a == ww + xx - yy - zz && 2.0 * b == xy - wz && 2.0 * c == xz + wy
    requires 2.0 * d == xy + wz && 4.0 * e == ww + yy - xx - zz && 2.0 * f == yz - wx
    ensures a * d + b * e + c * f == 0.0
  {
    OrthogonalEntries(ww, xx, yy, zz, wx, wy, wz, xy, xz, yz);
    assert (4.0 * a) * (2.0 * d) + (2.0 * b) * (4.0 * e) + 2.0 * ((2.0 * c) * (2.0 * f))
        == 8.0 * (a * d + b * e + c * f);
  }

  lemma OrthogonalEntries(ww: real, xx: real, yy: real, zz: real,
                          wx: real, wy: real, wz: real, xy: real, xz: real, yz: real)
    requires Prod(xz, yz) == Prod(zz, xy) && Prod(wx, wy) == Prod(ww, xy)
    requires Prod(wx, xz) == Prod(xx, wz) && Prod(wy, yz) == Prod(yy, wz)
    ensures (ww + xx - yy - zz) * (xy + wz) + (xy - wz) * (ww + yy - xx - zz) + 2.0 * ((xz + wy) * (yz - wx)) == 0.0
  {
    assert (xz + wy) * (yz - wx) == xz * yz - wx * xz + wy * yz - wx * wy;
    assert (ww + xx - yy - zz) * (xy + wz) + (xy - wz) * (ww + yy - xx - zz)
        == 2.0 * (ww * xy - zz * xy + xx * wz - yy * wz);
  }

  lemma CrossAtX(ww: real, xx: real, yy: real, zz: real, wx: real, yz: real,
                 a: real, e: real, f: real, h: real, i: real)
    requires ww + xx + yy + zz == 4.0 && Prod(yz, yz) == Prod(yy, zz) && Prod(wx, wx) == Prod(ww, xx)
    requires 4.0 * e == ww + yy - xx - zz && 2.0 * f == yz - wx
    requires 2.0 * h == yz + wx && 4.0 * i == ww + zz - xx - yy
    requires 4.0 * a == ww + xx - yy - zz
    ensures e * i - f * h == a
  {
    var A, B := ww + xx, yy + zz;
    assert (4.0 * e) * (4.0 * i) == (ww - xx) * (ww - xx) - (yy - zz) * (yy - zz);
    assert (2.0 * f) * (2.0 * h) == yz * yz - wx * wx;
    assert (ww - xx) * (ww - xx) + 4.0 * (ww * xx) == A * A;
    assert (yy - zz) * (yy - zz) + 4.0 * (yy * zz) == B * B;
    assert A * A - B * B == (A + B) * (A - B) == 4.0 * (A - B);
  }

  lemma CrossAtY(ww: real, xx: real, yy: real, zz: real,
                 wx: real, wy: real, wz: real, xy: real, xz: real, yz: real,
                 b: real, d: real, f: real, g: real, i: real)
    requires ww + xx + yy + zz == 4.0
    requires Prod(xz, yz) == Prod(zz, xy) && Prod(wx, wy) == Prod(ww, xy)
    requires Prod(wx, xz) == Prod(xx, wz) && Prod(wy, yz) == Prod(yy, wz)
    requires 2.0 * d == xy + wz && 2.0 * f == yz - wx && 2.0 * g == xz - wy && 4.0 * i == ww + zz - xx - yy
    requires 2.0 * b == xy - wz
    ensures f * g - d * i == b
  {
    assert (2.0 * f) * (2.0 * g) == xz * yz - wy * yz - wx * xz + wx * wy;
    assert (2.0 * d) * (4.0 * i) == (xy + wz) * (ww + zz - xx - yy);
    assert (xy + wz) * (ww + zz - xx - yy)
        == ww * xy + zz * xy - xx * xy - yy * xy + ww * wz + zz * wz - xx * wz - yy * wz;
    assert (ww + xx + yy + zz) * xy == 4.0 * xy && (ww + xx + yy + zz) * wz == 4.0 * wz;
  }

  lemma CrossAtZ(ww: real, xx: real, yy: real, zz: real,
                 wx: real, wy: real, wz: real, xy: real, xz: real, yz: real,
                 c: real, d: real, e: real, g: real, h: real)
    requires ww + xx + yy + zz == 4.0
    requires Prod(xy, yz) == Prod(yy, xz) && Prod(wx, xy) == Prod(xx, wy)
    requires Prod(wz, yz) == Prod(zz, wy) && Prod(wx, wz) == Prod(ww, xz)
    requires 2.0 * d == xy + wz && 4.0 * e == ww + yy - xx - zz && 2.0 * g == xz - wy && 2.0 * h == yz + wx
    requires 2.0 * c == xz + wy
    ensures d * h - e * g == c
  {
    assert (2.0 * d) * (2.0 * h) == xy * yz + wx * xy + wz * yz + wx * wz;
    assert (4.0 * e) * (2.0 * g) == (ww + yy - xx - zz) * (xz - wy);
    assert (ww + yy - xx - zz) * (xz - wy)
        == ww * xz + yy * xz - xx * xz - zz * xz - ww * wy - yy * wy + xx * wy + zz * wy;
    assert (ww + xx + yy + zz) * xz == 4.0 * xz && (ww + xx + yy + zz) * wy == 4.0 * wy;
  }

  lemma CycleKeepsOuterProduct(o: Outer)
    requires IsOuterProduct(o)
    ensures IsOuterProduct(CycleOuter(o))
  {
    assert HasIdentities(o, ByW) && HasIdentities(o, ByX) && HasIdentities(o, ByY) && HasIdentities(o, ByZ);
  }

  lemma SecondRowFromOuter(m: Mat)
    requires IsOuterProduct(OuterOfRot(m))
    ensures Dot(m.r1, m.r1) == 1.0 && Dot(m.r1, m.r2) == 0.0 && IsOuterProduct(OuterOfRot(Cycle(m)))
  {
    CycleKeepsOuterProduct(OuterOfRot(m));
    OuterOfCycle(m);
    FirstRowFromOuter(Cycle(m));
    DotOfCycle(m.r1, m.r1);
    DotOfCycle(m.r1, m.r2);
  }

  lemma RowsFromOuter(m: Mat)
    requires IsOuterProduct(OuterOfRot(m))
    ensures Mul(m, Transpose(m)) == IDENTITY && Det(m) == 1.0
  {
    FirstRowFromOuter(m);
    SecondRowFromOuter(m);
    ThirdRowFromOuter(m);
    OrthonormalRows(m);
    DetOfCross(m);
  }

  lemma ThirdRowFromOuter(m: Mat)
    requires IsOuterProduct(OuterOfRot(m))
    ensures Dot(m.r2, m.r2) == 1.0 && Dot(m.r2, m.r0) == 0.0
  {
    SecondRowFromOuter(m);
    SecondRowFromOuter(Cycle(m));
    DotOfCycle(m.r2, m.r2);
    DotOfCycle(m.r2, m.r0);
  }

  lemma DotOfCycle(a: Vec, b: Vec)
    ensures Dot(Vec(a.y, a.z, a.x), Vec(b.y, b.z, b.x)) == Dot(a, b)
  {
  }

  lemma DetOfCross(m: Mat)
    requires Cross(m.r1, m.r2) == m.r0 && Dot(m.r0, m.r0) == 1.0
    ensures Det(m) == 1.0
  {
  }

  lemma OrthonormalRows(m: Mat)
    requires Dot(m.r0, m.r0) == 1.0 && Dot(m.r1, m.r1) == 1.0 && Dot(m.r2, m.r2) == 1.0
    requires Dot(m.r0, m.r1) == 0.0 && Dot(m.r1, m.r2) == 0.0 && Dot(m.r2, m.r0) == 0.0
    ensures Mul(m, Transpose(m)) == IDENTITY
  {
  }

  function Conjugate(q: Quat): Quat {
    Quat(q.w, -q.x, -q.y, -q.z)
  }

  lemma ProdNegates(a: real, b: real)
    ensures Prod(-a, -b) == Prod(a, b) && Prod(a, -b) == -Prod(a, b)
  {
  }

  lemma TransposeOfQuat(q: Quat)
    ensures Transpose(Quat2Rot(q)) == Quat2Rot(Conjugate(q))
  {
    RotIsFromProducts(q);
    RotIsFromProducts(Conjugate(q));
    ConjugateProducts(q);
  }

  lemma ConjugateProducts(q: Quat)
    ensures var c := Conjugate(q);
            && Prod(c.x, c.x) == Prod(q.x, q.x) && Prod(c.y, c.y) == Prod(q.y, q.y) && Prod(c.z, c.z) == Prod(q.z, q.z)
            && Prod(c.x, c.y) == Prod(q.x, q.y) && Prod(c.x, c.z) == Prod(q.x, q.z) && Prod(c.y, c.z) == Prod(q.y, q.z)
            && Prod(c.w, c.x) == -Prod(q.w, q.x) && Prod(c.w, c.y) == -Prod(q.w, q.y)
            && Prod(c.w, c.z) == -Prod(q.w, q.z)
  {
    ProdNegates(q.x, q.x);
    ProdNegates(q.y, q.y);
    ProdNegates(q.z, q.z);
    ProdNegates(q.x, q.y);
    ProdNegates(q.x, q.z);
    ProdNegates(q.y, q.z);
    ProdNegates(q.w, q.x);
    ProdNegates(q.w, q.y);
    ProdNegates(q.w, q.z);
  }

  lemma RotationFromOuters(m: Mat)
    requires IsOuterProduct(OuterOfRot(m)) && IsOuterProduct(OuterOfRot(Transpose(m)))
    ensures IsRotation(m)
  {
    RowsFromOuter(m);
    RowsFromOuter(Transpose(m));
  }

  lemma OuterProductOfUnit(q: Quat)
    requires IsUnit(q)
    ensures IsOuterProduct(OuterOfRot(Quat2Rot(q)))
  {
    OuterOfUnit(q);
    QuatIsOuterProduct(q);
  }

  /** The matrix of a unit quaternion is orthogonal with determinant one. */
  lemma UnitGivesRotation(q: Quat)
    requires IsUnit(q)
    ensures IsRotation(Quat2Rot(q))
  {
    TransposeOfQuat(q);
    OuterProductOfUnit(q);
    OuterProductOfUnit(Conjugate(q));
    RotationFromOuters(Quat2Rot(q));
  }

  // ----- Euler angles -----

  /** An angle, by the cosine and sine of its half. */
  datatype HalfAngle = HalfAngle(c: real, s: real) {
    predicate Valid() {
      c * c + s * s == 1.0
    }

    /** The double-angle formulas. */
    function Cos(): real {
      c * c - s * s
    }

    function Sin(): real {
      2.0 * (c * s)
    }
  }

  datatype Euler = Euler(phi: HalfAngle, theta: HalfAngle, psi: HalfAngle) {
    predicate Valid() {
      phi.Valid() && theta.Valid() && psi.Valid()
    }
  }

  /** The product of half-angle terms, before the sign is normalised. */
  function Euler2QuatRaw(e: Euler): Quat {
    var c_phi, s_phi := e.phi.c, e.phi.s;
    var c_theta, s_theta := e.theta.c, e.theta.s;
    var c_psi, s_psi := e.psi.c, e.psi.s;
    Quat(c_phi * c_theta * c_psi + s_phi * s_theta * s_psi,
         s_phi * c_theta * c_psi - c_phi * s_theta * s_psi,
         c_phi * s_theta * c_psi + s_phi * c_theta * s_psi,
         c_phi * c_theta * s_psi - s_phi * s_theta * c_psi)
  }

  function Euler2Quat(e: Euler): Quat {
    var q := Euler2QuatRaw(e);
    if q.w < 0.0 then Neg(q) else q
  }

  function AboutX(cos: real, sin: real): Mat {
    Mat(Vec(1.0, 0.0, 0.0), Vec(0.0, cos, -sin), Vec(0.0, sin, cos))
  }

  function AboutY(cos: real, sin: real): Mat {
    Mat(Vec(cos, 0.0, sin), Vec(0.0, 1.0, 0.0), Vec(-sin, 0.0, cos))
  }

  function AboutZ(cos: real, sin: real): Mat {
    Mat(Vec(cos, -sin, 0.0), Vec(sin, cos, 0.0), Vec(0.0, 0.0, 1.0))
  }

  function RotX(h: HalfAngle): Mat {
    AboutX(h.Cos(), h.Sin())
  }

  function RotY(h: HalfAngle): Mat {
    AboutY(h.Cos(), h.Sin())
  }

  function RotZ(h: HalfAngle): Mat {
    AboutZ(h.Cos(), h.Sin())
  }

  function Euler2Rot(e: Euler): Mat {
    Mul(Mul(RotZ(e.psi), RotY(e.theta)), RotX(e.phi))
  }

  /** A further rotation about x, on quaternions. */
  function TimesX(q: Quat, h: HalfAngle): Quat {
    Quat(q.w * h.c - q.x * h.s, q.x * h.c + q.w * h.s, q.y * h.c + q.z * h.s, q.z * h.c - q.y * h.s)
  }

  lemma TimesXRow0(w: real, x: real, y: real, z: real, c: real, s: real,
                 w': real, x': real, y': real, z': real, cos: real, sin: real, m1: real, m2: real)
    requires w' == w * c - x * s && x' == x * c + w * s && y' == y * c + z * s && z' == z * c - y * s
    requires c * c + s * s == 1.0 && cos == c * c - s * s && sin == 2.0 * (c * s)
    requires m1 == 2.0 * (x * y - w * z) && m2 == 2.0 * (x * z + w * y)
    ensures y' * y' + z' * z' == y * y + z * z
    ensures 2.0 * (x' * y' - w' * z') == m1 * cos + m2 * sin
    ensures 2.0 * (x' * z' + w' * y') == m2 * cos - m1 * sin
  {
    assert y' * y' + z' * z' == (y * y + z * z) * (c * c + s * s);
  }

  /** The diagonal entries are where the unit length of the quaternion matters. */
  lemma TimesXDiagonal(x: real, w: real, z: real, y: real, c: real, s: real, x': real, z': real)
    requires x' == x * c + w * s && z' == z * c - y * s && c * c + s * s == 1.0
    requires w * w + x * x + y * y + z * z == 1.0
    ensures 1.0 - 2.0 * (x' * x' + z' * z')
         == (1.0 - 2.0 * (x * x + z * z)) * (c * c - s * s) + 2.0 * (y * z - w * x) * (2.0 * (c * s))
  {
    assert x' * x' + z' * z'
        == (x * x + z * z) * (c * c) + (w * w + y * y) * (s * s) + 2.0 * ((x * w - y * z) * (c * s));
    assert (w * w + x * x + y * y + z * z) * (s * s) == s * s;
  }

  lemma DiagonalAsProducts(x: real, w: real, z: real, y: real, c: real, s: real,
                           m1: real, m2: real, cos: real, sin: real)
    requires m1 == 1.0 - 2.0 * (x * x + z * z) && m2 == 2.0 * (y * z - w * x)
    requires cos == c * c - s * s && sin == 2.0 * (c * s)
    ensures m1 * cos + m2 * sin
         == (1.0 - 2.0 * (x * x + z * z)) * (c * c - s * s) + 2.0 * (y * z - w * x) * (2.0 * (c * s))
  {
  }

  lemma TimesXRow1(w: real, x: real, y: real, z: real, c: real, s: real,
                 w': real, x': real, y': real, z': real, cos: real, sin: real, m1: real, m2: real)
    requires w' == w * c - x * s && x' == x * c + w * s && y' == y * c + z * s && z' == z * c - y * s
    requires c * c + s * s == 1.0 && cos == c * c - s * s && sin == 2.0 * (c * s)
    requires w * w + x * x + y * y + z * z == 1.0
    requires m1 == 1.0 - 2.0 * (x * x + z * z) && m2 == 2.0 * (y * z - w * x)
    ensures x' * y' + w' * z' == x * y + w * z
    ensures 1.0 - 2.0 * (x' * x' + z' * z') == m1 * cos + m2 * sin
    ensures 2.0 * (y' * z' - w' * x') == m2 * cos - m1 * sin
  {
    assert x' * y' + w' * z' == (x * y + w * z) * (c * c + s * s);
    TimesXDiagonal(x, w, z, y, c, s, x', z');
    DiagonalAsProducts(x, w, z, y, c, s, m1, m2, cos, sin);
    assert (w * w + x * x + y * y + z * z) * (c * s) == c * s;
  }

  lemma TimesXRow2(w: real, x: real, y: real, z: real, c: real, s: real,
                   w': real, x': real, y': real, z': real, cos: real, sin: real, m1: real, m2: real)
    requires w' == w * c - x * s && x' == x * c + w * s && y' == y * c + z * s && z' == z * c - y * s
    requires c * c + s * s == 1.0 && cos == c * c - s * s && sin == 2.0 * (c * s)
    requires w * w + x * x + y * y + z * z == 1.0
    requires m1 == 2.0 * (y * z + w * x) && m2 == 1.0 - 2.0 * (x * x + y * y)
    ensures x' * z' - w' * y' == x * z - w * y
    ensures 2.0 * (y' * z' + w' * x') == m1 * cos + m2 * sin
  {
    assert x' * z' - w' * y' == (x * z - w * y) * (c * c + s * s);
    assert (w * w + x * x + y * y + z * z) * (c * s) == c * s;
  }

  lemma TimesXRow2Diagonal(w: real, x: real, y: real, z: real, c: real, s: real,
                           x': real, y': real, cos: real, sin: real, m1: real, m2: real)
    requires x' == x * c + w * s && y' == y * c + z * s
    requires c * c + s * s == 1.0 && cos == c * c - s * s && sin == 2.0 * (c * s)
    requires w * w + x * x + y * y + z * z == 1.0
    requires m1 == 2.0 * (y * z + w * x) && m2 == 1.0 - 2.0 * (x * x + y * y)
    ensures 1.0 - 2.0 * (x' * x' + y' * y') == m2 * cos - m1 * sin
  {
    var n := -z;
    assert n * n == z * z && n * s == -(z * s) && n * y == -(y * z);
    TimesXDiagonal(x, w, y, n, c, s, x', y');
    DiagonalAsProducts(x, w, y, n, c, s, m2, -m1, cos, sin);
    assert -m1 * sin == -(m1 * sin);
  }

  predicate IsTurned(q: Quat, p: Quat, c: real, s: real) {
    && p.w == q.w * c - q.x * s && p.x == q.x * c + q.w * s && p.y == q.y * c + q.z * s && p.z == q.z * c - q.y * s
    && c * c + s * s == 1.0
  }

  /** A row of a matrix, multiplied by a rotation about x. */
  function TurnRow(v: Vec, cos: real, sin: real): Vec {
    Vec(v.x, v.y * cos + v.z * sin, v.z * cos - v.y * sin)
  }

  lemma TurnedRow0(w: real, x: real, y: real, z: real, c: real, s: real,
                   w': real, x': real, y': real, z': real, cos: real, sin: real)
    requires w' == w * c - x * s && x' == x * c + w * s && y' == y * c + z * s && z' == z * c - y * s
    requires c * c + s * s == 1.0 && cos == c * c - s * s && sin == 2.0 * (c * s)
    ensures RotFrom(w', x', y', z').r0 == TurnRow(RotFrom(w, x, y, z).r0, cos, sin)
  {
    TimesXRow0(w, x, y, z, c, s, w', x', y', z', cos, sin, 2.0 * (x * y - w * z), 2.0 * (x * z + w * y));
  }

  lemma TurnedRow1(w: real, x: real, y: real, z: real, c: real, s: real,
                   w': real, x': real, y': real, z': real, cos: real, sin: real)
    requires w' == w * c - x * s && x' == x * c + w * s && y' == y * c + z * s && z' == z * c - y * s
    requires c * c + s * s == 1.0 && cos == c * c - s * s && sin == 2.0 * (c * s)
    requires w * w + x * x + y * y + z * z == 1.0
    ensures RotFrom(w', x', y', z').r1 == TurnRow(RotFrom(w, x, y, z).r1, cos, sin)
  {
    TimesXRow1(w, x, y, z, c, s, w', x', y', z', cos, sin, 1.0 - 2.0 * (x * x + z * z), 2.0 * (y * z - w * x));
  }

  lemma TurnedRow2(w: real, x: real, y: real, z: real, c: real, s: real,
                   w': real, x': real, y': real, z': real, cos: real, sin: real)
    requires w' == w * c - x * s && x' == x * c + w * s && y' == y * c + z * s && z' == z * c - y * s
    requires c * c + s * s == 1.0 && cos == c * c - s * s && sin == 2.0 * (c * s)
    requires w * w + x * x + y * y + z * z == 1.0
    ensures RotFrom(w', x', y', z').r2 == TurnRow(RotFrom(w, x, y, z).r2, cos, sin)
  {
    var m1, m2 := 2.0 * (y * z + w * x), 1.0 - 2.0 * (x * x + y * y);
    TimesXRow2(w, x, y, z, c, s, w', x', y', z', cos, sin, m1, m2);
    TimesXRow2Diagonal(w, x, y, z, c, s, x', y', cos, sin, m1, m2);
  }

  lemma MulTurn(m: Mat, cos: real, sin: real)
    ensures Mul(m, AboutX(cos, sin))
         == Mat(TurnRow(m.r0, cos, sin), TurnRow(m.r1, cos, sin), TurnRow(m.r2, cos, sin))
  {
  }

  lemma TimesXTurns(q: Quat, h: HalfAngle)
    requires h.Valid()
    ensures IsTurned(q, TimesX(q, h), h.c, h.s)
    ensures h.Cos() == h.c * h.c - h.s * h.s && h.Sin() == 2.0 * (h.c * h.s)
  {
  }

  /** Multiplying a quaternion by one about x multiplies its matrix by the rotation about x. */
  lemma RotOfTimesX(q: Quat, h: HalfAngle)
    requires IsUnit(q) && h.Valid()
    ensures Quat2Rot(TimesX(q, h)) == Mul(Quat2Rot(q), RotX(h))
  {
    TimesXTurns(q, h);
    MulTurn(Quat2Rot(q), h.Cos(), h.Sin());
    TurnedRows(q, TimesX(q, h), h.c, h.s, Quat2Rot(q), h.Cos(), h.Sin());
  }

  lemma TurnedRows(q: Quat, p: Quat, c: real, s: real, m: Mat, cos: real, sin: real)
    requires IsTurned(q, p, c, s) && m == Quat2Rot(q) && cos == c * c - s * s && sin == 2.0 * (c * s) && IsUnit(q)
    ensures Quat2Rot(p) == Mat(TurnRow(m.r0, cos, sin), TurnRow(m.r1, cos, sin), TurnRow(m.r2, cos, sin))
  {
    TurnedRow0(q.w, q.x, q.y, q.z, c, s, p.w, p.x, p.y, p.z, cos, sin);
    TurnedRow1(q.w, q.x, q.y, q.z, c, s, p.w, p.x, p.y, p.z, cos, sin);
    TurnedRow2(q.w, q.x, q.y, q.z, c, s, p.w, p.x, p.y, p.z, cos, sin);
    RotIsFromProducts(q);
    RotIsFromProducts(p);
    SameRows(Quat2Rot(p), TurnRow(m.r0, cos, sin), TurnRow(m.r1, cos, sin), TurnRow(m.r2, cos, sin));
  }

  lemma SameRows(m: Mat, a: Vec, b: Vec, c: Vec)
    requires m.r0 == a && m.r1 == b && m.r2 == c
    ensures m == Mat(a, b, c)
  {
  }

  lemma TimesXKeepsUnit(q: Quat, h: HalfAngle)
    requires IsUnit(q) && h.Valid()
    ensures IsUnit(TimesX(q, h))
  {
    TimesXTurns(q, h);
    TurnedIsUnit(q, TimesX(q, h), h.c, h.s);
  }

  lemma TurnedIsUnit(q: Quat, p: Quat, c: real, s: real)
    requires IsTurned(q, p, c, s) && IsUnit(q)
    ensures IsUnit(p)
  {
    TurnKeepsLength(q.w, q.x, c, s, p.w, p.x);
    TurnKeepsLength(q.z, q.y, c, s, p.z, p.y);
  }

  lemma TurnKeepsLength(a: real, b: real, c: real, s: real, a': real, b': real)
    requires a' == a * c - b * s && b' == b * c + a * s && c * c + s * s == 1.0
    ensures a' * a' + b' * b' == a * a + b * b
  {
    assert a' * a' + b' * b' == (a * a + b * b) * (c * c + s * s);
  }

  // The same for a rotation about y, by renaming the axes.

  function CycleQuat(q: Quat): Quat {
    Quat(q.w, q.y, q.z, q.x)
  }

  function TimesY(q: Quat, h: HalfAngle): Quat {
    Quat(q.w * h.c - q.y * h.s, q.x * h.c - q.z * h.s, q.y * h.c + q.w * h.s, q.z * h.c + q.x * h.s)
  }

  lemma CycleOfQuat(q: Quat)
    ensures Quat2Rot(CycleQuat(q)) == Cycle(Quat2Rot(q))
  {
    RotIsFromProducts(q);
    RotIsFromProducts(CycleQuat(q));
    ProdCommutes(q.x, q.y);
    ProdCommutes(q.x, q.z);
  }

  lemma RotOfTimesY(q: Quat, h: HalfAngle)
    requires IsUnit(q) && h.Valid()
    ensures Quat2Rot(TimesY(q, h)) == Mul(Quat2Rot(q), RotY(h)) && IsUnit(TimesY(q, h))
  {
    CycleTurnsYToX(q, h);
    CycleKeepsUnit(q);
    TimesXKeepsUnit(CycleQuat(q), h);
    CycleKeepsUnit(TimesY(q, h));
    CycleOfQuat(q);
    CycleOfQuat(TimesY(q, h));
    RotOfTimesX(CycleQuat(q), h);
    CycleOfProduct(Quat2Rot(q), RotY(h));
    CycleInjective(Quat2Rot(TimesY(q, h)), Mul(Quat2Rot(q), RotY(h)));
  }

  lemma CycleTurnsYToX(q: Quat, h: HalfAngle)
    ensures CycleQuat(TimesY(q, h)) == TimesX(CycleQuat(q), h) && Cycle(RotY(h)) == RotX(h)
  {
  }

  lemma CycleKeepsUnit(q: Quat)
    ensures IsUnit(CycleQuat(q)) <==> IsUnit(q)
  {
  }

  lemma CycleInjective(a: Mat, b: Mat)
    requires Cycle(a) == Cycle(b)
    ensures a == b
  {
  }

  /** A rotation about z turned about y. */
  lemma TwoTurns(psi: HalfAngle, theta: HalfAngle)
    ensures TimesY(Quat(psi.c, 0.0, 0.0, psi.s), theta)
         == Quat(psi.c * theta.c, -(psi.s * theta.s), psi.c * theta.s, psi.s * theta.c)
  {
  }

  lemma ThirdTurn(e: Euler)
    ensures Euler2QuatRaw(e)
         == TimesX(Quat(e.psi.c * e.theta.c, -(e.psi.s * e.theta.s), e.psi.c * e.theta.s, e.psi.s * e.theta.c), e.phi)
  {
  }

  /** The half-angle product is the quaternion about z, turned about y and then about x. */
  lemma EulerIsThreeTurns(e: Euler)
    ensures Euler2QuatRaw(e) == TimesX(TimesY(Quat(e.psi.c, 0.0, 0.0, e.psi.s), e.theta), e.phi)
  {
    TwoTurns(e.psi, e.theta);
    ThirdTurn(e);
  }

  lemma NegSameRotation(q: Quat)
    requires IsUnit(q)
    ensures Quat2Rot(Neg(q)) == Quat2Rot(q) && IsUnit(Neg(q))
  {
    OuterOfUnit(q);
    OuterOfNeg(q);
    OuterDeterminesRot(Neg(q), Quat2Rot(q));
  }

  /** Going through the quaternion gives the same matrix as multiplying the three axis rotations. */
  lemma EulerPathsAgree(e: Euler)
    requires e.Valid()
    ensures Quat2Rot(Euler2Quat(e)) == Euler2Rot(e)
    ensures IsUnit(Euler2Quat(e)) && Euler2Quat(e).w >= 0.0
  {
    var z := Quat(e.psi.c, 0.0, 0.0, e.psi.s);
    assert IsUnit(z) && Quat2Rot(z) == RotZ(e.psi);
    EulerIsThreeTurns(e);
    RotOfTimesY(z, e.theta);
    RotOfTimesX(TimesY(z, e.theta), e.phi);
    TimesXKeepsUnit(TimesY(z, e.theta), e.phi);
    NegSameRotation(Euler2QuatRaw(e));
  }

  // ----- Local coordinates -----

  function Add(a: Vec, b: Vec): Vec {
    Vec(a.x + b.x, a.y + b.y, a.z + b.z)
  }

  function Sub(a: Vec, b: Vec): Vec {
    Vec(a.x - b.x, a.y - b.y, a.z - b.z)
  }

  function FrameMatrix(sin_lat: real, cos_lat: real, sin_lon: real, cos_lon: real): Mat {
    Mat(Vec(-sin_lat * cos_lon, -sin_lon, -cos_lat * cos_lon),
        Vec(-sin_lat * sin_lon, cos_lon, -cos_lat * sin_lon),
        Vec(cos_lat, 0.0, -sin_lat))
  }

  /** The north-east-down frame at an origin, by the angles of its latitude and longitude. */
  datatype LocalCoord = LocalCoord(initEcef: Vec, lat: HalfAngle, lon: HalfAngle) {
    function Ned2EcefMatrix(): Mat {
      FrameMatrix(lat.Sin(), lat.Cos(), lon.Sin(), lon.Cos())
    }

    function Ecef2NedMatrix(): Mat {
      Transpose(Ned2EcefMatrix())
    }

    function Ecef2Ned(ecef: Vec): Vec {
      Apply(Ecef2NedMatrix(), Sub(ecef, initEcef))
    }

    function Ned2Ecef(ned: Vec): Vec {
      Add(Apply(Ned2EcefMatrix(), ned), initEcef)
    }
  }

  lemma CosSin(h: HalfAngle)
    requires h.Valid()
    ensures h.Cos() * h.Cos() + h.Sin() * h.Sin() == 1.0
  {
    assert (h.c * h.c + h.s * h.s) * (h.c * h.c + h.s * h.s) == 1.0;
  }

  lemma FrameFromAngles(sin_lat: real, cos_lat: real, sin_lon: real, cos_lon: real)
    requires sin_lat * sin_lat + cos_lat * cos_lat == 1.0 && sin_lon * sin_lon + cos_lon * cos_lon == 1.0
    ensures IsRotation(FrameMatrix(sin_lat, cos_lat, sin_lon, cos_lon))
  {
    FrameColumns(sin_lat, cos_lat, sin_lon, cos_lon);
    FrameRows(sin_lat, cos_lat, sin_lon, cos_lon);
    var m := FrameMatrix(sin_lat, cos_lat, sin_lon, cos_lon);
    OrthonormalRows(m);
    OrthonormalRows(Transpose(m));
  }

  lemma FrameRows(a: real, b: real, c: real, d: real)
    requires a * a + b * b == 1.0 && c * c + d * d == 1.0
    ensures var m := FrameMatrix(a, b, c, d);
            && Dot(m.r0, m.r0) == 1.0 && Dot(m.r1, m.r1) == 1.0 && Dot(m.r2, m.r2) == 1.0
            && Dot(m.r0, m.r1) == 0.0 && Dot(m.r1, m.r2) == 0.0 && Dot(m.r2, m.r0) == 0.0
            && Cross(m.r1, m.r2) == m.r0
  {
    assert (a * a + b * b) * (c * c) == c * c && (a * a + b * b) * (d * d) == d * d;
    assert (a * a + b * b) * (c * d) == c * d && (a * a + b * b) * c == c && (a * a + b * b) * d == d;
  }

  lemma FrameColumns(a: real, b: real, c: real, d: real)
    requires a * a + b * b == 1.0 && c * c + d * d == 1.0
    ensures var t := Transpose(FrameMatrix(a, b, c, d));
            && Dot(t.r0, t.r0) == 1.0 && Dot(t.r1, t.r1) == 1.0 && Dot(t.r2, t.r2) == 1.0
            && Dot(t.r0, t.r1) == 0.0 && Dot(t.r1, t.r2) == 0.0 && Dot(t.r2, t.r0) == 0.0
  {
    assert (c * c + d * d) * (a * a) == a * a && (c * c + d * d) * (b * b) == b * b;
    assert (c * c + d * d) * (a * b) == a * b;
  }

  /** The frame is a rotation at every latitude and longitude. */
  lemma FrameIsRotation(frame: LocalCoord)
    requires frame.lat.Valid() && frame.lon.Valid()
    ensures IsRotation(frame.Ned2EcefMatrix())
  {
    CosSin(frame.lat);
    CosSin(frame.lon);
    FrameFromAngles(frame.lat.Sin(), frame.lat.Cos(), frame.lon.Sin(), frame.lon.Cos());
  }

  lemma ApplyInverse(m: Mat, v: Vec)
    requires Mul(m, Transpose(m)) == IDENTITY
    ensures Apply(m, Apply(Transpose(m), v)) == v
  {
    assert Apply(m, Apply(Transpose(m), v)) == Apply(Mul(m, Transpose(m)), v);
  }

  /** Converting to local coordinates and back, either way round, changes nothing. */
  lemma LocalRoundTrip(frame: LocalCoord, p: Vec)
    requires frame.lat.Valid() && frame.lon.Valid()
    ensures frame.Ned2Ecef(frame.Ecef2Ned(p)) == p
    ensures frame.Ecef2Ned(frame.Ned2Ecef(p)) == p
  {
    var m := frame.Ned2EcefMatrix();
    FrameIsRotation(frame);
    ApplyInverse(m, Sub(p, frame.initEcef));
    ApplyInverse(Transpose(m), p);
    assert Sub(frame.Ned2Ecef(p), frame.initEcef) == Apply(m, p);
  }
}