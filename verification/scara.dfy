/**
 Forward kinematics of the 3-DOF SCARA arm (revolute, revolute, prismatic)
 in scara_kinematics.py: the geometry constants, the DH link table, the full
 matrix chain, the closed-form planar shortcut and the joint-limit check.
 */
module ScaraKinematics {
  import opened Trig
  import opened Matrix
  import opened DenavitHartenberg

  /** Link lengths and base height, in metres. */
  const L1: real := 0.10
  const L2: real := 0.15
  const D0: real := 0.012

  /** A closed interval [lo, hi]. */
  datatype Interval = Interval(lo: real, hi: real) {
    predicate Contains(v: real) {
      lo <= v <= hi
    }
  }

  /** Joint ranges: both revolute joints in [-pi/2, pi/2] rad, the prismatic
      joint in [0, 0.06] m. */
  function QLim1(t: TrigEnv): Interval {
    Interval(-t.pi / 2.0, t.pi / 2.0)
  }

  function QLim2(t: TrigEnv): Interval {
    Interval(-t.pi / 2.0, t.pi / 2.0)
  }

  const QLim3: Interval := Interval(0.0, 0.06)

  /** One row of the DH table. */
  datatype DhRow = DhRow(a: real, alpha: real, d: real, theta: real)

  function LinkTransform(t: TrigEnv, p: DhRow): Mat4 {
    Dh(t, p.a, p.alpha, p.d, p.theta)
  }

  /** The DH table of the arm for joint values (q1, q2, d3): link 2 has a
      twist of pi, which turns its z-axis upside down. */
  function DhTable(t: TrigEnv, q1: real, q2: real, d3: real): seq<DhRow> {
    [DhRow(L1, 0.0, D0, q1),
     DhRow(L2, t.pi, 0.0, q2),
     DhRow(0.0, 0.0, d3, 0.0)]
  }

  /** What `fk_scara` returns: the three link transforms, their product and
      the end-effector position. */
  datatype FkResult = FkResult(a1: Mat4, a2: Mat4, a3: Mat4, T: Mat4, x: real, y: real, z: real)

  /** The full forward kinematics: the product A1·A2·A3 (evaluated left to
      right) of the link transforms, position read from its last column.
      Every matrix has the homogeneous shape, and once cos 0 = 1 and sin 0 = 0
      the prismatic link is a pure slide of d3 along z. */
  function FkScara(t: TrigEnv, q1: real, q2: real, d3: real): (r: FkResult)
    ensures IsHomogeneous(r.a1) && IsHomogeneous(r.a2) && IsHomogeneous(r.a3)
    ensures IsHomogeneous(r.T)
    ensures Vec3(r.x, r.y, r.z) == r.T.Translation()
    ensures t.cos(0.0) == 1.0 && t.sin(0.0) == 0.0 ==> r.a3 == Translate(0.0, 0.0, d3)
  {
    var table := DhTable(t, q1, q2, d3);
    var a1 := LinkTransform(t, table[0]);
    var a2 := LinkTransform(t, table[1]);
    var a3 := LinkTransform(t, table[2]);
    var T := MatMul(MatMul(a1, a2), a3);
    FkResult(a1, a2, a3, T, T.At(0, 3), T.At(1, 3), T.At(2, 3))
  }

  datatype Position = Position(x: real, y: real, z: real)

  /** The closed-form planar shortcut `fk_scara_planar`. */
  function FkScaraPlanar(t: TrigEnv, q1: real, q2: real, d3: real): Position {
    Position(L1 * t.cos(q1) + L2 * t.cos(q1 + q2),
             L1 * t.sin(q1) + L2 * t.sin(q1 + q2),
             D0 - d3)
  }

  /** `check_joint_limits`: every joint inside its closed range. */
  function CheckJointLimits(t: TrigEnv, q1: real, q2: real, d3: real): (ok: bool)
    ensures ok <==> && -t.pi / 2.0 <= q1 <= t.pi / 2.0
                    && -t.pi / 2.0 <= q2 <= t.pi / 2.0
                    && 0.0 <= d3 <= 0.06
  {
    QLim1(t).Contains(q1) && QLim2(t).Contains(q2) && QLim3.Contains(d3)
  }

  // ---------------------------------------------------------------------
  // The full chain in closed form, and its agreement with the shortcut.
  // ---------------------------------------------------------------------

  /** The link transforms built from the table rows (L1, 0, D0, q1),
      (L2, pi, 0, q2) and (0, 0, d3, 0): with the values of sin and cos at 0
      and at pi they are these matrices in c_i = cos q_i and s_i = sin q_i. */
  lemma LinkTransformsAtSpecialValues(t: TrigEnv, q1: real, q2: real, d3: real)
    requires SpecialValues(t)
    ensures var r := FkScara(t, q1, q2, d3);
      var c1, s1, c2, s2 := t.cos(q1), t.sin(q1), t.cos(q2), t.sin(q2);
      && r.a1 == Mat4(Row(c1, -s1, 0.0, L1 * c1), Row(s1, c1, 0.0, L1 * s1), Row(0.0, 0.0, 1.0, D0), BottomRow)
      && r.a2 == Mat4(Row(c2, s2, 0.0, L2 * c2), Row(s2, -c2, 0.0, L2 * s2), Row(0.0, 0.0, -1.0, 0.0), BottomRow)
      && r.a3 == Translate(0.0, 0.0, d3)
  {
  }

  /** A pose whose tool z-axis points straight down (the base's -z), turned
      about the vertical by the angle whose cosine is c and sine is s, with
      its origin at p. */
  function ToolDownPose(c: real, s: real, p: Vec3): Mat4 {
    Mat4(Row(c, s, 0.0, p.x),
         Row(s, -c, 0.0, p.y),
         Row(0.0, 0.0, -1.0, p.z),
         BottomRow)
  }

  /** The whole pose in closed form: the tool points straight down (link 2
      is twisted by pi), it is turned by q1 + q2 about the vertical, and it
      sits at (L1·cos q1 + L2·cos(q1+q2), L1·sin q1 + L2·sin(q1+q2), D0 - d3). */
  lemma {:induction false} FkScaraClosedForm(t: TrigEnv, q1: real, q2: real, d3: real)
    requires SpecialValues(t) && AngleAddition(t)
    ensures var c, s := t.cos(q1 + q2), t.sin(q1 + q2);
      FkScara(t, q1, q2, d3).T
        == ToolDownPose(c, s, Vec3(L1 * t.cos(q1) + L2 * c, L1 * t.sin(q1) + L2 * s, D0 - d3))
  {
    ChainAtSpecialValues(t, q1, q2, d3);
    assert AdditionAt(t, q1, q2);
  }

  /** The product A1·A2·A3 multiplied out, before the addition formulas
      fold the products of cosines and sines into cos(q1+q2), sin(q1+q2). */
  lemma ChainAtSpecialValues(t: TrigEnv, q1: real, q2: real, d3: real)
    requires SpecialValues(t)
    ensures var c1, s1, c2, s2 := t.cos(q1), t.sin(q1), t.cos(q2), t.sin(q2);
      var c, s := c1 * c2 - s1 * s2, s1 * c2 + c1 * s2;
      FkScara(t, q1, q2, d3).T
        == ToolDownPose(c, s, Vec3(L1 * c1 + L2 * c, L1 * s1 + L2 * s, D0 - d3))
  {
  }

  /** The full and the planar kinematics compute the same position, z
      included: both give D0 - d3, so the tool descends as d3 grows. */
  lemma FkScaraAgreesWithPlanar(t: TrigEnv, q1: real, q2: real, d3: real)
    requires SpecialValues(t) && AngleAddition(t)
    ensures var r, p := FkScara(t, q1, q2, d3), FkScaraPlanar(t, q1, q2, d3);
      r.x == p.x && r.y == p.y && r.z == p.z
    ensures FkScara(t, q1, q2, d3).z == D0 - d3
  {
    FkScaraClosedForm(t, q1, q2, d3);
  }

  /** The home configuration: arm stretched along x at the base height. */
  lemma FkZeroConfiguration(t: TrigEnv)
    requires SpecialValues(t)
    ensures var r := FkScara(t, 0.0, 0.0, 0.0);
      r.x == L1 + L2 == 0.25 && r.y == 0.0 && r.z == D0
    ensures FkScaraPlanar(t, 0.0, 0.0, 0.0) == Position(0.25, 0.0, D0)
  {
    ChainAtSpecialValues(t, 0.0, 0.0, 0.0);
    PlanarZeroConfiguration(t);
  }

  lemma PlanarZeroConfiguration(t: TrigEnv)
    requires SpecialValues(t)
    ensures FkScaraPlanar(t, 0.0, 0.0, 0.0) == Position(0.25, 0.0, D0)
  {
    assert 0.0 + 0.0 == 0.0;
  }

  /** A quarter turn of the first joint puts the stretched arm on the y-axis:
      x = 0 and |y| = L1 + L2, at the base height. (The laws fix cos(pi/2) but
      only the square of sin(pi/2), so the sign of y is not determined.) This
      is stated for the shortcut only; FkScaraAgreesWithPlanar, which holds for
      all joint values, equates it with the full kinematics. */
  lemma PlanarQuarterTurn(t: TrigEnv)
    requires Laws(t)
    ensures var p := FkScaraPlanar(t, t.pi / 2.0, 0.0, 0.0);
      p.x == 0.0 && p.y * p.y == (L1 + L2) * (L1 + L2) && p.z == D0
  {
    var h := t.pi / 2.0;
    QuarterTurn(t);
    assert h + 0.0 == h;
    var s := t.sin(h);
    var y := FkScaraPlanar(t, h, 0.0, 0.0).y;
    assert y == (L1 + L2) * s;
    assert y * y == (L1 + L2) * (L1 + L2) * (s * s);
  }

  // ---------------------------------------------------------------------
  // What the planar shortcut reaches.
  // ---------------------------------------------------------------------

  /** The squared horizontal distance of the tool from the base axis depends
      on the elbow angle q2 alone (law of cosines), so it lies in the annulus
      between radii L2 - L1 and L1 + L2. */
  lemma {:induction false} PlanarReach(t: TrigEnv, q1: real, q2: real, d3: real)
    requires Pythagorean(t) && AngleAddition(t)
    ensures var p := FkScaraPlanar(t, q1, q2, d3);
      && p.x * p.x + p.y * p.y == L1 * L1 + L2 * L2 + 2.0 * L1 * L2 * t.cos(q2)
      && (L2 - L1) * (L2 - L1) <= p.x * p.x + p.y * p.y <= (L1 + L2) * (L1 + L2)
  {
    var c1, s1, c2, s2 := t.cos(q1), t.sin(q1), t.cos(q2), t.sin(q2);
    var c12, s12 := t.cos(q1 + q2), t.sin(q1 + q2);
    assert AdditionAt(t, q1, q2);
    assert UnitAt(t, q1) && UnitAt(t, q2) && UnitAt(t, q1 + q2);
    assert c12 == c1 * c2 - s1 * s2;
    assert s12 == s1 * c2 + c1 * s2;
    assert c1 * c1 + s1 * s1 == 1.0;
    assert c12 * c12 + s12 * s12 == 1.0;
    assert c2 * c2 + s2 * s2 == 1.0;
    assert c1 * c12 + s1 * s12 == c2 * (c1 * c1 + s1 * s1);
    var p := FkScaraPlanar(t, q1, q2, d3);
    assert p.x * p.x + p.y * p.y
        == L1 * L1 * (c1 * c1 + s1 * s1) + L2 * L2 * (c12 * c12 + s12 * s12)
           + 2.0 * L1 * L2 * (c1 * c12 + s1 * s12);
    assert -1.0 <= c2 <= 1.0 by {
      assert c2 * c2 <= 1.0;
    }
  }

  /** The same annulus for the full kinematics: the tool of `fk_scara` is at
      squared distance L1² + L2² + 2·L1·L2·cos q2 from the base axis. */
  lemma FkScaraReach(t: TrigEnv, q1: real, q2: real, d3: real)
    requires Laws(t)
    ensures var r := FkScara(t, q1, q2, d3);
      && r.x * r.x + r.y * r.y == L1 * L1 + L2 * L2 + 2.0 * L1 * L2 * t.cos(q2)
      && (L2 - L1) * (L2 - L1) <= r.x * r.x + r.y * r.y <= (L1 + L2) * (L1 + L2)
  {
    PlanarReach(t, q1, q2, d3);
    FkScaraAgreesWithPlanar(t, q1, q2, d3);
  }

  // ---------------------------------------------------------------------
  // Joint limits.
  // ---------------------------------------------------------------------

  /** Both ends of every range are accepted, and values just outside are
      refused: d3 = 0.06 and q1 = pi/2 pass, d3 = 0.07 and q1 = 2.0 do not
      (the latter when pi < 4). */
  lemma JointLimitExamples(t: TrigEnv)
    requires 0.0 < t.pi < 4.0
    ensures CheckJointLimits(t, 0.0, 0.0, 0.03)
    ensures CheckJointLimits(t, t.pi / 2.0, 0.0, 0.06)
    ensures CheckJointLimits(t, -t.pi / 2.0, -t.pi / 2.0, 0.0)
    ensures !CheckJointLimits(t, 2.0, 0.0, 0.03)
    ensures !CheckJointLimits(t, 0.0, 0.0, 0.07)
    ensures !CheckJointLimits(t, 0.0, 0.0, -0.01)
  {
  }

  /** The home configuration of FkZeroConfiguration is within the limits. */
  lemma ZeroConfigurationWithinLimits(t: TrigEnv)
    requires t.pi > 0.0
    ensures CheckJointLimits(t, 0.0, 0.0, 0.0)
  {
  }
}
