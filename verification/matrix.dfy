/**
 4x4 real matrices as immutable records, with the product the source writes
 as `@`, and the homogeneous-transform shape [[R, p], [0, 0, 0, 1]].
 */
module Matrix {

  datatype Vec3 = Vec3(x: real, y: real, z: real)

  function Dot3(u: Vec3, v: Vec3): real {
    u.x * v.x + u.y * v.y + u.z * v.z
  }

  /** A 3x3 matrix by rows. */
  datatype Mat3 = Mat3(r0: Vec3, r1: Vec3, r2: Vec3)

  function Identity3(): Mat3 {
    Mat3(Vec3(1.0, 0.0, 0.0), Vec3(0.0, 1.0, 0.0), Vec3(0.0, 0.0, 1.0))
  }

  /** R·Rᵀ: entry (i, j) is the dot product of rows i and j of R. */
  function GramRows(m: Mat3): Mat3 {
    Mat3(Vec3(Dot3(m.r0, m.r0), Dot3(m.r0, m.r1), Dot3(m.r0, m.r2)),
         Vec3(Dot3(m.r1, m.r0), Dot3(m.r1, m.r1), Dot3(m.r1, m.r2)),
         Vec3(Dot3(m.r2, m.r0), Dot3(m.r2, m.r1), Dot3(m.r2, m.r2)))
  }

  /** R·Rᵀ = I: the rows are unit vectors and pairwise orthogonal. */
  predicate Orthonormal(m: Mat3) {
    GramRows(m) == Identity3()
  }

  datatype Row = Row(c0: real, c1: real, c2: real, c3: real) {
    function At(j: nat): real
      requires j < 4
    {
      if j == 0 then c0 else if j == 1 then c1 else if j == 2 then c2 else c3
    }
  }

  /** A 4x4 matrix by rows; `At(i, j)` is the source's `T[i, j]`. */
  datatype Mat4 = Mat4(r0: Row, r1: Row, r2: Row, r3: Row) {
    function RowAt(i: nat): Row
      requires i < 4
    {
      if i == 0 then r0 else if i == 1 then r1 else if i == 2 then r2 else r3
    }

    function At(i: nat, j: nat): real
      requires i < 4 && j < 4
    {
      RowAt(i).At(j)
    }

    /** The upper-left 3x3 block R. */
    function Rotation(): Mat3 {
      Mat3(Vec3(r0.c0, r0.c1, r0.c2),
           Vec3(r1.c0, r1.c1, r1.c2),
           Vec3(r2.c0, r2.c1, r2.c2))
    }

    /** The last column's first three entries p. */
    function Translation(): Vec3 {
      Vec3(r0.c3, r1.c3, r2.c3)
    }
  }

  const BottomRow: Row := Row(0.0, 0.0, 0.0, 1.0)

  /** The fixed shape of a homogeneous transform: bottom row exactly (0, 0, 0, 1). */
  predicate IsHomogeneous(m: Mat4) {
    m.r3 == BottomRow
  }

  function Identity(): Mat4 {
    Mat4(Row(1.0, 0.0, 0.0, 0.0),
         Row(0.0, 1.0, 0.0, 0.0),
         Row(0.0, 0.0, 1.0, 0.0),
         BottomRow)
  }

  function Dot4(u: Row, v: Row): real {
    u.c0 * v.c0 + u.c1 * v.c1 + u.c2 * v.c2 + u.c3 * v.c3
  }

  /** Column j of `b`, as a row. */
  function Column(b: Mat4, j: nat): Row
    requires j < 4
  {
    Row(b.r0.At(j), b.r1.At(j), b.r2.At(j), b.r3.At(j))
  }

  /** Row vector `u` times matrix `b`. */
  function RowTimes(u: Row, b: Mat4): Row {
    Row(u.c0 * b.r0.c0 + u.c1 * b.r1.c0 + u.c2 * b.r2.c0 + u.c3 * b.r3.c0,
        u.c0 * b.r0.c1 + u.c1 * b.r1.c1 + u.c2 * b.r2.c1 + u.c3 * b.r3.c1,
        u.c0 * b.r0.c2 + u.c1 * b.r1.c2 + u.c2 * b.r2.c2 + u.c3 * b.r3.c2,
        u.c0 * b.r0.c3 + u.c1 * b.r1.c3 + u.c2 * b.r2.c3 + u.c3 * b.r3.c3)
  }

  /** Entry j of u·b is the dot product of u with column j of b. */
  lemma RowTimesAt(u: Row, b: Mat4, j: nat)
    requires j < 4
    ensures RowTimes(u, b).At(j) == Dot4(u, Column(b, j))
  {
  }

  /** The matrix product a·b (the source's `a @ b`). The product of two
      homogeneous transforms is again homogeneous. */
  function MatMul(a: Mat4, b: Mat4): (c: Mat4)
    ensures IsHomogeneous(a) && IsHomogeneous(b) ==> IsHomogeneous(c)
  {
    Mat4(RowTimes(a.r0, b), RowTimes(a.r1, b), RowTimes(a.r2, b), RowTimes(a.r3, b))
  }

  /** Composing homogeneous transforms: the origin of a·b is b's origin
      carried by a (a's rotation applied to it, plus a's translation). */
  lemma ComposeTranslation(a: Mat4, b: Mat4)
    requires IsHomogeneous(b)
    ensures MatMul(a, b).Translation()
         == Vec3(Dot3(a.Rotation().r0, b.Translation()) + a.r0.c3,
                 Dot3(a.Rotation().r1, b.Translation()) + a.r1.c3,
                 Dot3(a.Rotation().r2, b.Translation()) + a.r2.c3)
  {
  }

  /** Entry (i, j) of the product is row i of a dotted with column j of b,
      that is, the sum over k of a[i, k]·b[k, j]. */
  lemma MatMulEntry(a: Mat4, b: Mat4, i: nat, j: nat)
    requires i < 4 && j < 4
    ensures MatMul(a, b).At(i, j) == Dot4(a.RowAt(i), Column(b, j))
  {
    var u := a.RowAt(i);
    assert MatMul(a, b).RowAt(i) == RowTimes(u, b) by {
      if i == 0 {} else if i == 1 {} else if i == 2 {} else {}
    }
    RowTimesAt(u, b, j);
  }
}
