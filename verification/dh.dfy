/**
 One link's Denavit-Hartenberg transform (`dh` in scara_kinematics.py).
 */
module DenavitHartenberg {
  import opened Trig
  import opened Matrix

  /** The standard DH transform of a link with length `a`, twist `alpha`,
      offset `d` and joint angle `theta`:

        [[cosθ, -sinθ·cosα,  sinθ·sinα, a·cosθ],
         [sinθ,  cosθ·cosα, -cosθ·sinα, a·sinθ],
         [0,     sinα,       cosα,      d     ],
         [0,     0,          0,         1     ]]

      Whatever `sin` and `cos` return, the result has the homogeneous shape;
      its origin lies `a` along its own x-axis (the first column) from the
      foot of that axis on the previous z-axis, at height `d`; and that x-axis
      is horizontal (perpendicular to the previous z-axis). */
  function Dh(t: TrigEnv, a: real, alpha: real, d: real, theta: real): (m: Mat4)
    ensures IsHomogeneous(m)
    ensures m.Translation() == Vec3(a * m.At(0, 0), a * m.At(1, 0), d)
    ensures m.At(2, 0) == 0.0
    ensures m.At(0, 0) == t.cos(theta) && m.At(1, 0) == t.sin(theta)
    ensures m.At(2, 1) == t.sin(alpha) && m.At(2, 2) == t.cos(alpha)
  {
    var ca, sa := t.cos(alpha), t.sin(alpha);
    var ct, st := t.cos(theta), t.sin(theta);
    Mat4(Row(ct, -st * ca,  st * sa, a * ct),
         Row(st,  ct * ca, -ct * sa, a * st),
         Row(0.0,      sa,       ca,      d),
         BottomRow)
  }

  /** Rotation about z by `theta`. */
  function RotZ(t: TrigEnv, theta: real): Mat4 {
    var c, s := t.cos(theta), t.sin(theta);
    Mat4(Row(c, -s, 0.0, 0.0), Row(s, c, 0.0, 0.0), Row(0.0, 0.0, 1.0, 0.0), BottomRow)
  }

  /** Rotation about x by `alpha`. */
  function RotX(t: TrigEnv, alpha: real): Mat4 {
    var c, s := t.cos(alpha), t.sin(alpha);
    Mat4(Row(1.0, 0.0, 0.0, 0.0), Row(0.0, c, -s, 0.0), Row(0.0, s, c, 0.0), BottomRow)
  }

  /** Translation by (dx, dy, dz). */
  function Translate(dx: real, dy: real, dz: real): Mat4 {
    Mat4(Row(1.0, 0.0, 0.0, dx), Row(0.0, 1.0, 0.0, dy), Row(0.0, 0.0, 1.0, dz), BottomRow)
  }

  /** The closed form agrees with its definition as a chain of elementary
      motions: rotate about z by theta, slide along z by d, slide along the
      new x by a, rotate about the new x by alpha. */
  lemma DhIsElementaryChain(t: TrigEnv, a: real, alpha: real, d: real, theta: real)
    ensures Dh(t, a, alpha, d, theta)
         == MatMul(MatMul(MatMul(RotZ(t, theta), Translate(0.0, 0.0, d)),
                          Translate(a, 0.0, 0.0)),
                   RotX(t, alpha))
  {
  }

  /** Multiplying by a translation on the right moves the origin along the
      frame's own axes and leaves the other columns alone. */
  lemma MatMulTranslate(m: Mat4, dx: real, dy: real, dz: real)
    ensures MatMul(m, Translate(dx, dy, dz))
         == Mat4(Row(m.r0.c0, m.r0.c1, m.r0.c2, m.r0.c0 * dx + m.r0.c1 * dy + m.r0.c2 * dz + m.r0.c3),
                 Row(m.r1.c0, m.r1.c1, m.r1.c2, m.r1.c0 * dx + m.r1.c1 * dy + m.r1.c2 * dz + m.r1.c3),
                 Row(m.r2.c0, m.r2.c1, m.r2.c2, m.r2.c0 * dx + m.r2.c1 * dy + m.r2.c2 * dz + m.r2.c3),
                 Row(m.r3.c0, m.r3.c1, m.r3.c2, m.r3.c0 * dx + m.r3.c1 * dy + m.r3.c2 * dz + m.r3.c3))
  {
    RowTimesTranslate(m.r0, dx, dy, dz);
    RowTimesTranslate(m.r1, dx, dy, dz);
    RowTimesTranslate(m.r2, dx, dy, dz);
    RowTimesTranslate(m.r3, dx, dy, dz);
  }

  lemma RowTimesTranslate(u: Row, dx: real, dy: real, dz: real)
    ensures RowTimes(u, Translate(dx, dy, dz))
         == Row(u.c0, u.c1, u.c2, u.c0 * dx + u.c1 * dy + u.c2 * dz + u.c3)
  {
  }

  /** With cos 0 = 1 and sin 0 = 0, all-zero parameters give the identity. */
  lemma DhZeroIsIdentity(t: TrigEnv)
    requires t.cos(0.0) == 1.0 && t.sin(0.0) == 0.0
    ensures Dh(t, 0.0, 0.0, 0.0, 0.0) == Identity()
  {
  }

  /** The rotation block is orthonormal (R·Rᵀ = I), using only
      sin² + cos² = 1 at alpha and at theta. */
  lemma {:induction false} DhRotationOrthonormal(t: TrigEnv, a: real, alpha: real, d: real, theta: real)
    requires Pythagorean(t)
    ensures Orthonormal(Dh(t, a, alpha, d, theta).Rotation())
  {
    var ca, sa := t.cos(alpha), t.sin(alpha);
    var ct, st := t.cos(theta), t.sin(theta);
    assert UnitAt(t, alpha) && UnitAt(t, theta);
    assert Dh(t, a, alpha, d, theta).Rotation() == DhRotation(ca, sa, ct, st);
    DhRotationOrthonormalAt(ca, sa, ct, st);
  }

  /** The rotation block of Dh in terms of ca = cos α, sa = sin α,
      ct = cos θ and st = sin θ. */
  function DhRotation(ca: real, sa: real, ct: real, st: real): Mat3 {
    Mat3(Vec3(ct, -st * ca, st * sa),
         Vec3(st, ct * ca, -ct * sa),
         Vec3(0.0, sa, ca))
  }

  /** The algebra behind DhRotationOrthonormal: two unit (cos, sin) pairs
      give an orthonormal rotation block. */
  lemma {:induction false} DhRotationOrthonormalAt(ca: real, sa: real, ct: real, st: real)
    requires ca * ca + sa * sa == 1.0 && ct * ct + st * st == 1.0
    ensures Orthonormal(DhRotation(ca, sa, ct, st))
  {
    var r := DhRotation(ca, sa, ct, st);
    assert Dot3(r.r0, r.r0) == ct * ct + st * st * (ca * ca + sa * sa);
    assert Dot3(r.r1, r.r1) == st * st + ct * ct * (ca * ca + sa * sa);
    assert Dot3(r.r0, r.r1) == ct * st * (1.0 - (ca * ca + sa * sa));
    assert Dot3(r.r1, r.r0) == Dot3(r.r0, r.r1);
    assert Dot3(r.r0, r.r2) == 0.0;
    assert Dot3(r.r2, r.r0) == 0.0;
    assert Dot3(r.r1, r.r2) == 0.0;
    assert Dot3(r.r2, r.r1) == 0.0;
  }
}
