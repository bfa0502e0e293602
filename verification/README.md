# SCARA RRP forward kinematics in Dafny

A model of `scara_kinematics.py`, the forward kinematics of a three-joint SCARA
arm. The arm has a revolute shoulder `q1`, a revolute elbow `q2` and a
prismatic quill `d3`. The model covers these parts of the module:

- the geometry constants `L1`, `L2` and `D0` and the joint ranges `QLIM_1` to `QLIM_3`;
- `dh`, the standard Denavit-Hartenberg link transform;
- `fk_scara`, the full chain `A1 @ A2 @ A3` and the position read from its last column;
- `fk_scara_planar`, the closed-form shortcut;
- `check_joint_limits`.

The model is split into four modules:

- `Trig` (`trig.dfy`). The source calls the numeric library's `sin`, `cos` and
  `pi`, which cannot be computed over the reals. The model takes them as a
  value `TrigEnv` and states the identities the kinematics needs as predicates:
  - sin² + cos² = 1;
  - cos 0 = 1, sin 0 = 0, cos π = −1, sin π = 0, π > 0;
  - the angle-addition formulas.

  Every lemma lists the identities it uses in its `requires`.
- `Matrix` (`matrix.dfy`). 4x4 real matrices as records, the product `@`, and
  the homogeneous shape (bottom row `0 0 0 1`).
- `DenavitHartenberg` (`dh.dfy`). The function `Dh` and its properties.
- `ScaraKinematics` (`scara.dfy`). The constants, the DH table, `FkScara`,
  `FkScaraPlanar`, `CheckJointLimits`, and the lemmas that relate them.

Arithmetic is exact real arithmetic. `fk_scara`'s result dictionary becomes
the record `FkResult`, and the planar tuple becomes `Position`.

**Height of the tool.** The docstring of `fk_scara_planar`
(scara_kinematics.py:91) says `z = D0 + d3`. The code on line 95 computes
`D0 - d3`. The model follows the code. The full chain also gives `D0 - d3`,
because link 2 is twisted by α = π, which turns the tool axis downward.
`FkScaraAgreesWithPlanar` proves that the two functions agree on x, y and z.
So the tool goes down as `d3` grows, not up.

## Model

| member | source | states |
|---|---|---|
| `Matrix.MatMul` | scara_kinematics.py:70 | the product of two homogeneous transforms (bottom row 0 0 0 1) is again homogeneous |
| `Matrix.MatMulEntry` | scara_kinematics.py:70 | entry (i, j) of `a @ b` is the sum over k of a[i, k]·b[k, j] (row i of a dotted with column j of b) |
| `Matrix.ComposeTranslation` | scara_kinematics.py:70-72 | the origin of a composed transform is the second transform's origin rotated by the first's rotation block and shifted by the first's origin |
| `DenavitHartenberg.Dh` | scara_kinematics.py:26-38 | the link transform is homogeneous. Its first column is (cos θ, sin θ, 0). Its origin is `a` times that column, at height `d`. Its third row is (0, sin α, cos α, d). |
| `DenavitHartenberg.DhIsElementaryChain` | scara_kinematics.py:26-38 | the matrix equals the standard DH product Rot_z(θ)·Trans_z(d)·Trans_x(a)·Rot_x(α) |
| `DenavitHartenberg.MatMulTranslate` | scara_kinematics.py:70 | multiplying a transform on the right by a translation keeps its first three columns. It moves the origin by the translation expressed in the transform's own axes. |
| `DenavitHartenberg.DhZeroIsIdentity` | scara_kinematics.py:30-38 | dh(0, 0, 0, 0) is the 4x4 identity, given cos 0 = 1 and sin 0 = 0 |
| `DenavitHartenberg.DhRotationOrthonormal` | scara_kinematics.py:33-36 | the rotation block R satisfies R·Rᵀ = I for every a, α, d, θ, using only sin² + cos² = 1 |
| `ScaraKinematics.FkScara` | scara_kinematics.py:41-82 | A1, A2, A3 and T are all homogeneous. (x, y, z) is T's translation column. Once cos 0 = 1 and sin 0 = 0, A3 is a pure slide of d3 along z. |
| `ScaraKinematics.LinkTransformsAtSpecialValues` | scara_kinematics.py:62-68 | the link transforms built from the DH table rows (a, α, d, θ) = (L1, 0, D0, q1), (L2, π, 0, q2) and (0, 0, d3, 0), entry by entry: A1 is a planar rotation by q1 lifted by D0, A2 is a rotation by q2 with its z-axis flipped, A3 is the translation (0, 0, d3) |
| `ScaraKinematics.FkScaraClosedForm` | scara_kinematics.py:62-72 | T in closed form: tool axis pointing straight down, heading q1 + q2, origin (L1 cos q1 + L2 cos(q1+q2), L1 sin q1 + L2 sin(q1+q2), D0 − d3) |
| `ScaraKinematics.FkScaraPlanar` | scara_kinematics.py:85-96 | no contract of its own. Its partners are `FkScaraAgreesWithPlanar`, which proves it gives the full chain's x, y and z for every joint value (height D0 − d3, not the docstring's D0 + d3), and `PlanarReach`, which proves the law of cosines for its x and y |
| `ScaraKinematics.FkScaraAgreesWithPlanar` | scara_kinematics.py:93-95 | the full chain and the planar shortcut give the same x, y and z for every joint value. Both heights are D0 − d3. |
| `ScaraKinematics.FkZeroConfiguration` | scara_kinematics.py:16-18 | at q = (0, 0, 0) the arm lies stretched along x: the full chain and the shortcut both give (0.25, 0, D0) |
| `ScaraKinematics.PlanarQuarterTurn` | scara_kinematics.py:93-95 | at q1 = π/2, q2 = 0, d3 = 0 the tool is on the y-axis (x = 0, y² = (L1+L2)²) at height D0 |
| `ScaraKinematics.PlanarReach` | scara_kinematics.py:93-94 | x² + y² = L1² + L2² + 2·L1·L2·cos q2 (law of cosines). So the reach lies between (L2 − L1)² and (L1 + L2)². |
| `ScaraKinematics.FkScaraReach` | scara_kinematics.py:70-72 | the same law of cosines and the same bounds for the full chain's position |
| `ScaraKinematics.CheckJointLimits` | scara_kinematics.py:99-106 | accepts exactly when −π/2 ≤ q1 ≤ π/2, −π/2 ≤ q2 ≤ π/2 and 0 ≤ d3 ≤ 0.06, with both ends closed |
| `ScaraKinematics.JointLimitExamples` | scara_kinematics.py:21-23 | (π/2, 0, 0.06), (−π/2, −π/2, 0) and (0, 0, 0.03) are accepted. q1 = 2.0 (when π < 4), d3 = 0.07 and d3 = −0.01 are rejected. |
| `ScaraKinematics.ZeroConfigurationWithinLimits` | scara_kinematics.py:99-106 | the home configuration (0, 0, 0) passes the limit check |

## Left out

- `create_rtb_robot` (scara_kinematics.py:109-138) builds a robot object in an external robotics library. That library is not part of this model.
- IEEE-754 rounding, and the exact value of the floating-point `np.pi`. The model computes over exact reals, and π is any positive constant that meets the stated identities.
- NaN and infinite inputs. `check_joint_limits` rejects NaN because every comparison with NaN is false. The reals have no NaN.
- numpy arrays. The model uses fixed-size records, and the result dictionary becomes a record with named fields.
- Associativity of the matrix product. `T` is modelled exactly as numpy evaluates it, `(A1 @ A2) @ A3`.
- ScaraKinematics.PlanarQuarterTurn: it states y² = (L1 + L2)² rather than y = L1 + L2. The identities assumed for sine and cosine fix cos(π/2) = 0 but do not fix the sign of sin(π/2).
- ScaraKinematics.JointLimitExamples: it rejects q1 = 2.0 only under the hypothesis π < 4. π is an abstract constant here, not the numeric value 3.14159….
