/**
 * `toMatrix` and `toMatrix4`: the closed-form rotation matrices of a quaternion,
 * flattened row by row as the source returns them.
 */
module Matrix {
  import opened Quaternion
  import Algebra

  /** The 3x3 identity, row by row. */
  const IDENTITY3: seq<real> := [1.0, 0.0, 0.0,
                                 0.0, 1.0, 0.0,
                                 0.0, 0.0, 1.0]

  /** The 4x4 identity, row by row. */
  const IDENTITY4: seq<real> := [1.0, 0.0, 0.0, 0.0,
                                 0.0, 1.0, 0.0, 0.0,
                                 0.0, 0.0, 1.0, 0.0,
                                 0.0, 0.0, 0.0, 1.0]

  /** The factor `s` both matrices use: 0 for a zero quaternion, else 2 / normSq. */
  function Factor(q: Quat): real {
    var n := Algebra.NormSq(q);
    if n == 0.0 then 0.0 else 2.0 / n
  }

  /** `toMatrix`: the 3x3 rotation matrix of `q`, row by row. */
  function ToMatrix(q: Quat): (m: seq<real>)
    ensures |m| == 9
  {
    var s := Factor(q);
    var wx, wy, wz := s * q.w * q.x, s * q.w * q.y, s * q.w * q.z;
    var xx, xy, xz := s * q.x * q.x, s * q.x * q.y, s * q.x * q.z;
    var yy, yz, zz := s * q.y * q.y, s * q.y * q.z, s * q.z * q.z;
    [1.0 - (yy + zz), xy - wz, xz + wy,
     xy + wz, 1.0 - (xx + zz), yz - wx,
     xz - wy, yz + wx, 1.0 - (xx + yy)]
  }

  /** `toMatrix4`: the same rotation as a 4x4 homogeneous matrix, row by row. */
  function ToMatrix4(q: Quat): (m: seq<real>)
    ensures |m| == 16
  {
    var s := Factor(q);
    var wx, wy, wz := s * q.w * q.x, s * q.w * q.y, s * q.w * q.z;
    var xx, xy, xz := s * q.x * q.x, s * q.x * q.y, s * q.x * q.z;
    var yy, yz, zz := s * q.y * q.y, s * q.y * q.z, s * q.z * q.z;
    [1.0 - (yy + zz), xy - wz, xz + wy, 0.0,
     xy + wz, 1.0 - (xx + zz), yz - wx, 0.0,
     xz - wy, yz + wx, 1.0 - (xx + yy), 0.0,
     0.0, 0.0, 0.0, 1.0]
  }

  /** Row `i`, column `j` of a flattened 3x3 matrix. */
  function Entry3(m: seq<real>, i: nat, j: nat): real
    requires |m| == 9 && i < 3 && j < 3
  {
    m[3 * i + j]
  }

  /** Row `i`, column `j` of a flattened 4x4 matrix. */
  function Entry4(m: seq<real>, i: nat, j: nat): real
    requires |m| == 16 && i < 4 && j < 4
  {
    m[4 * i + j]
  }

  /** A 3x3 matrix embedded in a 4x4 one: a zero last column, a zero last row and a 1 in the corner. */
  function Pad(m: seq<real>): (r: seq<real>)
    requires |m| == 9
    ensures |r| == 16
    ensures forall i: nat, j: nat :: i < 3 && j < 3 ==> Entry4(r, i, j) == Entry3(m, i, j)
    ensures forall i: nat :: i < 3 ==> Entry4(r, i, 3) == 0.0 && Entry4(r, 3, i) == 0.0
    ensures Entry4(r, 3, 3) == 1.0
  {
    m[0..3] + [0.0] + m[3..6] + [0.0] + m[6..9] + [0.0] + [0.0, 0.0, 0.0, 1.0]
  }

  /** The transpose of a 3x3 matrix. */
  function Transpose(m: seq<real>): (r: seq<real>)
    requires |m| == 9
    ensures |r| == 9
    ensures forall i: nat, j: nat :: i < 3 && j < 3 ==> Entry3(r, i, j) == Entry3(m, j, i)
  {
    [m[0], m[3], m[6], m[1], m[4], m[7], m[2], m[5], m[8]]
  }

  /** `toMatrix4` is `toMatrix` padded to a homogeneous matrix. */
  lemma ToMatrix4IsPadded(q: Quat)
    ensures ToMatrix4(q) == Pad(ToMatrix(q))
  {
  }

  /** The zero quaternion has `s = 0`, so both of its matrices are identities. */
  lemma MatricesOfZero()
    ensures ToMatrix(ZERO) == IDENTITY3 && ToMatrix4(ZERO) == IDENTITY4
  {
    assert Factor(ZERO) == 0.0;
  }

  /** The identity rotation ONE gives the identity matrices. */
  lemma MatricesOfOne()
    ensures ToMatrix(ONE) == IDENTITY3 && ToMatrix4(ONE) == IDENTITY4
  {
    assert Factor(ONE) == 2.0;
  }

  /** Conjugating the quaternion (the inverse rotation) transposes the matrix. */
  lemma ConjugateTransposes(q: Quat)
    ensures ToMatrix(Algebra.Conjugate(q)) == Transpose(ToMatrix(q))
  {
    var c := Algebra.Conjugate(q);
    assert Algebra.NormSq(c) == Algebra.NormSq(q);
    var s := Factor(q);
    assert Factor(c) == s;
    assert s * c.w * c.x == -(s * q.w * q.x);
    assert s * c.w * c.y == -(s * q.w * q.y);
    assert s * c.w * c.z == -(s * q.w * q.z);
    assert s * c.x * c.x == s * q.x * q.x;
    assert s * c.x * c.y == s * q.x * q.y;
    assert s * c.x * c.z == s * q.x * q.z;
    assert s * c.y * c.y == s * q.y * q.y;
    assert s * c.y * c.z == s * q.y * q.z;
    assert s * c.z * c.z == s * q.z * q.z;
    var m, t := ToMatrix(c), ToMatrix(q);
    assert m[0] == t[0] && m[1] == t[3] && m[2] == t[6];
    assert m[3] == t[1] && m[4] == t[4] && m[5] == t[7];
    assert m[6] == t[2] && m[7] == t[5] && m[8] == t[8];
  }
}
