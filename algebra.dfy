/**
 * The arithmetic of quaternion.js: componentwise add/sub, dot product and norms,
 * the Hamilton product, conjugate, inverse, division and approximate equality.
 * Every operation takes its right-hand operand as an already resolved `Quat`;
 * module Parse says how `parse` resolves it from the caller's arguments.
 */
module Algebra {
  import opened Quaternion

  /** `add`: componentwise sum. */
  function Add(q: Quat, p: Quat): Quat {
    Quat(q.w + p.w, q.x + p.x, q.y + p.y, q.z + p.z)
  }

  /** `sub`: componentwise difference. */
  function Sub(q: Quat, p: Quat): Quat {
    Quat(q.w - p.w, q.x - p.x, q.y - p.y, q.z - p.z)
  }

  /** `sub` undoes `add` and vice versa, `add` commutes, and ZERO is neutral for both. */
  lemma AddSubInverse(q: Quat, p: Quat)
    ensures Sub(Add(q, p), p) == q
    ensures Add(Sub(q, p), p) == q
    ensures Add(q, p) == Add(p, q)
    ensures Add(q, ZERO) == q && Sub(q, ZERO) == q
    ensures Sub(q, q) == ZERO
  {
  }

  /** `dot`: sum of the products of matching components. */
  function Dot(q: Quat, p: Quat): real {
    q.w * p.w + q.x * p.x + q.y * p.y + q.z * p.z
  }

  /** `normSq`: the squared length. */
  function NormSq(q: Quat): (r: real)
    ensures r >= 0.0
  {
    q.w * q.w + q.x * q.x + q.y * q.y + q.z * q.z
  }

  /** Dividing a square by its nonzero root gives the root back. */
  lemma SquareOverRoot(a: real)
    requires a != 0.0
    ensures a * a / a == a
  {
  }

  /** The only real whose square is not positive is 0. */
  lemma SquareZero(a: real)
    requires a * a <= 0.0
    ensures a == 0.0
  {
    if a != 0.0 {
      SquareOverRoot(a);
    }
  }

  /** The squared norm vanishes exactly at ZERO. */
  lemma NormSqZero(q: Quat)
    ensures NormSq(q) == 0.0 <==> q == ZERO
  {
    if NormSq(q) == 0.0 {
      assert q.w * q.w >= 0.0 && q.x * q.x >= 0.0 && q.y * q.y >= 0.0 && q.z * q.z >= 0.0;
      SquareZero(q.w);
      SquareZero(q.x);
      SquareZero(q.y);
      SquareZero(q.z);
    }
  }

  /** `dot` is symmetric and `dot(q, q) == normSq(q)`. */
  lemma DotProperties(q: Quat, p: Quat)
    ensures Dot(q, p) == Dot(p, q)
    ensures Dot(q, q) == NormSq(q)
  {
  }

  /** `Math.sqrt` is a call this model cannot see: `Norm` and `Normalize` take it as a
      parameter, and the lemmas that need it require it to be the non-negative square root. */
  ghost predicate IsSqrt(sqrt: real -> real) {
    forall a: real :: a >= 0.0 ==> sqrt(a) >= 0.0 && sqrt(a) * sqrt(a) == a
  }

  /** A non-negative real other than 1 does not square to 1. */
  lemma SquareNotOne(m: real)
    requires !(m < 0.0)
    ensures m == 1.0 || m * m > 1.0 || m * m < 1.0
  {
    if m > 1.0 {
      assert m * m > m;
    } else if m < 1.0 {
      assert m * m < 1.0;
    }
  }

  /** The non-negative root of 1 is 1. */
  lemma UnitRoot(m: real)
    requires m >= 0.0 && m * m == 1.0
    ensures m == 1.0
  {
    SquareNotOne(m);
  }

  /** `norm`: the length, `sqrt(normSq)`. */
  function Norm(q: Quat, sqrt: real -> real): real {
    sqrt(NormSq(q))
  }

  /** The norm is non-negative, squares to `normSq`, and vanishes only at ZERO. */
  lemma NormProperties(q: Quat, sqrt: real -> real)
    requires IsSqrt(sqrt)
    ensures Norm(q, sqrt) >= 0.0
    ensures Norm(q, sqrt) * Norm(q, sqrt) == NormSq(q)
    ensures Norm(q, sqrt) == 0.0 <==> q == ZERO
  {
    var n := Norm(q, sqrt);
    assert n >= 0.0 && n * n == NormSq(q);
    NormSqZero(q);
    if q == ZERO {
      SquareZero(n);
    }
  }

  /** `q` times the real `s`, componentwise (the multiplications by `1 / norm` and `1 / normSq`). */
  function MulReal(q: Quat, s: real): Quat {
    Quat(q.w * s, q.x * s, q.y * s, q.z * s)
  }

  /** `normalize`: ZERO when the norm is 0, otherwise `q` divided by its norm. */
  function Normalize(q: Quat, sqrt: real -> real): Quat {
    var norm := Norm(q, sqrt);
    if norm == 0.0 then ZERO else MulReal(q, 1.0 / norm)
  }

  /** A real factor multiplies the squared norm by its square. */
  lemma NormSqMulReal(q: Quat, s: real)
    ensures NormSq(MulReal(q, s)) == s * s * NormSq(q)
  {
    assert (q.w * s) * (q.w * s) == s * s * (q.w * q.w);
    assert (q.x * s) * (q.x * s) == s * s * (q.x * q.x);
    assert (q.y * s) * (q.y * s) == s * s * (q.y * q.y);
    assert (q.z * s) * (q.z * s) == s * s * (q.z * q.z);
  }

  /** A nonzero quaternion normalizes to a unit quaternion (normSq and norm 1);
      ZERO normalizes to ZERO. */
  lemma NormalizeIsUnit(q: Quat, sqrt: real -> real)
    requires IsSqrt(sqrt)
    ensures q != ZERO ==> NormSq(Normalize(q, sqrt)) == 1.0
    ensures q != ZERO ==> Norm(Normalize(q, sqrt), sqrt) == 1.0
    ensures q == ZERO ==> Normalize(q, sqrt) == ZERO
  {
    NormProperties(q, sqrt);
    var n := Norm(q, sqrt);
    if q != ZERO {
      var s := 1.0 / n;
      NormSqMulReal(q, s);
      assert s * s * (n * n) == (s * n) * (s * n);
      var u := Normalize(q, sqrt);
      assert NormSq(u) == 1.0;
      UnitRoot(Norm(u, sqrt));
    }
  }

  /** `mul`: the Hamilton product. */
  function Mul(q: Quat, p: Quat): Quat {
    Quat(p.w * q.w - q.x * p.x - q.y * p.y - q.z * p.z,
         q.w * p.x + q.x * p.w + q.y * p.z - q.z * p.y,
         q.w * p.y + q.y * p.w + q.z * p.x - q.x * p.z,
         q.w * p.z + q.z * p.w + q.x * p.y - q.y * p.x)
  }

  /** The quaternion with every component negated. */
  function Negate(q: Quat): Quat {
    Quat(-q.w, -q.x, -q.y, -q.z)
  }

  /** Hamilton's rules i^2 = j^2 = k^2 = ijk = -1, and ij = k = -ji: the product does not commute. */
  lemma UnitRules()
    ensures Mul(I, I) == Negate(ONE) && Mul(J, J) == Negate(ONE) && Mul(K, K) == Negate(ONE)
    ensures Mul(Mul(I, J), K) == Negate(ONE)
    ensures Mul(I, J) == K && Mul(J, I) == Negate(K)
    ensures Mul(J, K) == I && Mul(K, J) == Negate(I)
    ensures Mul(K, I) == J && Mul(I, K) == Negate(J)
  {
  }

  /** ONE is a two-sided identity, a real operand on either side scales every component,
      and ZERO annihilates on both sides. */
  lemma MulIdentityAndReals(q: Quat, s: real)
    ensures Mul(q, ONE) == q && Mul(ONE, q) == q
    ensures Mul(q, Quat(s, 0.0, 0.0, 0.0)) == MulReal(q, s)
    ensures Mul(Quat(s, 0.0, 0.0, 0.0), q) == MulReal(q, s)
    ensures Mul(q, ZERO) == ZERO && Mul(ZERO, q) == ZERO
  {
  }

  /** A real factor moves out of the right operand of a product. */
  lemma MulRealRight(q: Quat, p: Quat, s: real)
    ensures Mul(q, MulReal(p, s)) == MulReal(Mul(q, p), s)
  {
    var r := Quat(s, 0.0, 0.0, 0.0);
    MulIdentityAndReals(p, s);
    MulIdentityAndReals(Mul(q, p), s);
    MulAssociative(q, p, r);
  }

  /** A real factor moves out of the left operand of a product. */
  lemma MulRealLeft(q: Quat, p: Quat, s: real)
    ensures Mul(MulReal(q, s), p) == MulReal(Mul(q, p), s)
  {
    var r := Quat(s, 0.0, 0.0, 0.0);
    MulIdentityAndReals(q, s);
    MulIdentityAndReals(Mul(q, p), s);
    MulAssociative(r, q, p);
  }

  /** The Hamilton product is associative. */
  lemma MulAssociative(a: Quat, b: Quat, c: Quat)
    ensures Mul(Mul(a, b), c) == Mul(a, Mul(b, c))
  {
    ExpandLeftW(a, b, c); ExpandRightW(a, b, c);
    ExpandLeftX(a, b, c); ExpandRightX(a, b, c);
    ExpandLeftY(a, b, c); ExpandRightY(a, b, c);
    ExpandLeftZ(a, b, c); ExpandRightZ(a, b, c);
  }

  // The components of both bracketings of a triple product, expanded to the same
  // sum of monomials; one component per lemma keeps each proof small.

  lemma ExpandLeftW(a: Quat, b: Quat, c: Quat)
    ensures Mul(Mul(a, b), c).w ==
        a.w * b.w * c.w - a.w * b.x * c.x - a.w * b.y * c.y - a.w * b.z * c.z
        - a.x * b.w * c.x - a.x * b.x * c.w - a.x * b.y * c.z + a.x * b.z * c.y
        - a.y * b.w * c.y + a.y * b.x * c.z - a.y * b.y * c.w - a.y * b.z * c.x
        - a.z * b.w * c.z - a.z * b.x * c.y + a.z * b.y * c.x - a.z * b.z * c.w
  {
  }

  lemma ExpandLeftX(a: Quat, b: Quat, c: Quat)
    ensures Mul(Mul(a, b), c).x ==
        a.w * b.w * c.x + a.w * b.x * c.w + a.w * b.y * c.z - a.w * b.z * c.y
        + a.x * b.w * c.w - a.x * b.x * c.x - a.x * b.y * c.y - a.x * b.z * c.z
        + a.y * b.w * c.z + a.y * b.x * c.y - a.y * b.y * c.x + a.y * b.z * c.w
        - a.z * b.w * c.y + a.z * b.x * c.z - a.z * b.y * c.w - a.z * b.z * c.x
  {
  }

  lemma ExpandLeftY(a: Quat, b: Quat, c: Quat)
    ensures Mul(Mul(a, b), c).y ==
        a.w * b.w * c.y - a.w * b.x * c.z + a.w * b.y * c.w + a.w * b.z * c.x
        - a.x * b.w * c.z - a.x * b.x * c.y + a.x * b.y * c.x - a.x * b.z * c.w
        + a.y * b.w * c.w - a.y * b.x * c.x - a.y * b.y * c.y - a.y * b.z * c.z
        + a.z * b.w * c.x + a.z * b.x * c.w + a.z * b.y * c.z - a.z * b.z * c.y
  {
  }

  lemma ExpandLeftZ(a: Quat, b: Quat, c: Quat)
    ensures Mul(Mul(a, b), c).z ==
        a.w * b.w * c.z + a.w * b.x * c.y - a.w * b.y * c.x + a.w * b.z * c.w
        + a.x * b.w * c.y - a.x * b.x * c.z + a.x * b.y * c.w + a.x * b.z * c.x
        - a.y * b.w * c.x - a.y * b.x * c.w - a.y * b.y * c.z + a.y * b.z * c.y
        + a.z * b.w * c.w - a.z * b.x * c.x - a.z * b.y * c.y - a.z * b.z * c.z
  {
  }

  lemma ExpandRightW(a: Quat, b: Quat, c: Quat)
    ensures Mul(a, Mul(b, c)).w ==
        a.w * b.w * c.w - a.w * b.x * c.x - a.w * b.y * c.y - a.w * b.z * c.z
        - a.x * b.w * c.x - a.x * b.x * c.w - a.x * b.y * c.z + a.x * b.z * c.y
        - a.y * b.w * c.y + a.y * b.x * c.z - a.y * b.y * c.w - a.y * b.z * c.x
        - a.z * b.w * c.z - a.z * b.x * c.y + a.z * b.y * c.x - a.z * b.z * c.w
  {
  }

  lemma ExpandRightX(a: Quat, b: Quat, c: Quat)
    ensures Mul(a, Mul(b, c)).x ==
        a.w * b.w * c.x + a.w * b.x * c.w + a.w * b.y * c.z - a.w * b.z * c.y
        + a.x * b.w * c.w - a.x * b.x * c.x - a.x * b.y * c.y - a.x * b.z * c.z
        + a.y * b.w * c.z + a.y * b.x * c.y - a.y * b.y * c.x + a.y * b.z * c.w
        - a.z * b.w * c.y + a.z * b.x * c.z - a.z * b.y * c.w - a.z * b.z * c.x
  {
  }

  lemma ExpandRightY(a: Quat, b: Quat, c: Quat)
    ensures Mul(a, Mul(b, c)).y ==
        a.w * b.w * c.y - a.w * b.x * c.z + a.w * b.y * c.w + a.w * b.z * c.x
        - a.x * b.w * c.z - a.x * b.x * c.y + a.x * b.y * c.x - a.x * b.z * c.w
        + a.y * b.w * c.w - a.y * b.x * c.x - a.y * b.y * c.y - a.y * b.z * c.z
        + a.z * b.w * c.x + a.z * b.x * c.w + a.z * b.y * c.z - a.z * b.z * c.y
  {
  }

  lemma ExpandRightZ(a: Quat, b: Quat, c: Quat)
    ensures Mul(a, Mul(b, c)).z ==
        a.w * b.w * c.z + a.w * b.x * c.y - a.w * b.y * c.x + a.w * b.z * c.w
        + a.x * b.w * c.y - a.x * b.x * c.z + a.x * b.y * c.w + a.x * b.z * c.x
        - a.y * b.w * c.x - a.y * b.x * c.w - a.y * b.y * c.z + a.y * b.z * c.y
        + a.z * b.w * c.w - a.z * b.x * c.x - a.z * b.y * c.y - a.z * b.z * c.z
  {
  }

  /** `conjugate`: negate the imaginary part. */
  function Conjugate(q: Quat): Quat {
    Quat(q.w, -q.x, -q.y, -q.z)
  }

  /** Conjugation is an involution and reverses products: (Q1 * Q2)' = Q2' * Q1'. */
  lemma ConjugateProperties(q: Quat, p: Quat)
    ensures Conjugate(Conjugate(q)) == q
    ensures Conjugate(Mul(q, p)) == Mul(Conjugate(p), Conjugate(q))
  {
  }

  /** Q * Q' = Q' * Q = [w^2 + |v|^2, 0]: the squared norm, with no imaginary part. */
  lemma MulConjugateIsNormSq(q: Quat)
    ensures Mul(q, Conjugate(q)) == Quat(NormSq(q), 0.0, 0.0, 0.0)
    ensures Mul(Conjugate(q), q) == Quat(NormSq(q), 0.0, 0.0, 0.0)
  {
  }

  /** `inverse`: ZERO when normSq is 0, otherwise the conjugate divided by normSq. */
  function Inverse(q: Quat): Quat {
    var normSq := NormSq(q);
    if normSq == 0.0 then ZERO
    else
      var s := 1.0 / normSq;
      Quat(q.w * s, -q.x * s, -q.y * s, -q.z * s)
  }

  /** For a nonzero quaternion the inverse is the conjugate times `1 / normSq`. */
  lemma InverseIsScaledConjugate(q: Quat)
    requires NormSq(q) != 0.0
    ensures Inverse(q) == MulReal(Conjugate(q), 1.0 / NormSq(q))
  {
    var s := 1.0 / NormSq(q);
    assert -q.x * s == (-q.x) * s && -q.y * s == (-q.y) * s && -q.z * s == (-q.z) * s;
  }

  /** Q * Q^-1 = 1 and Q^-1 * Q = 1 for every nonzero Q; ZERO's inverse is ZERO. */
  lemma InverseIsTwoSided(q: Quat)
    ensures q != ZERO ==> Mul(q, Inverse(q)) == ONE && Mul(Inverse(q), q) == ONE
    ensures q == ZERO ==> Inverse(q) == ZERO
  {
    NormSqZero(q);
    if q != ZERO {
      var n := NormSq(q);
      var s := 1.0 / n;
      assert n * s == 1.0;
      InverseIsScaledConjugate(q);
      MulConjugateIsNormSq(q);
      MulRealRight(q, Conjugate(q), s);
      MulRealLeft(Conjugate(q), q, s);
    }
  }

  /** The inverse of a unit quaternion is its conjugate (and so is ZERO's). */
  lemma InverseOfUnit(q: Quat)
    requires NormSq(q) == 1.0 || q == ZERO
    ensures Inverse(q) == Conjugate(q)
  {
    if q == ZERO {
      InverseOfZero();
    } else {
      InverseIsScaledConjugate(q);
      ScaleByReciprocalOfOne(Conjugate(q), NormSq(q));
    }
  }

  /** ZERO's inverse is ZERO, which is also its conjugate. */
  lemma InverseOfZero()
    ensures Inverse(ZERO) == ZERO && Conjugate(ZERO) == ZERO
  {
  }

  /** Scaling by `1 / n` with `n == 1` changes nothing. */
  lemma ScaleByReciprocalOfOne(q: Quat, n: real)
    requires n == 1.0
    ensures MulReal(q, 1.0 / n) == q
  {
  }

  /** Normalizing first makes `inverse` and `conjugate` agree. */
  lemma InverseOfNormalized(q: Quat, sqrt: real -> real)
    requires IsSqrt(sqrt)
    ensures Inverse(Normalize(q, sqrt)) == Conjugate(Normalize(q, sqrt))
  {
    NormalizeIsUnit(q, sqrt);
    InverseOfUnit(Normalize(q, sqrt));
  }

  /** `div`, corrected to Q1 * Q2^-1 as its own comment defines it (DivAsWritten is the
      formula in the source): ZERO when Q2 has normSq 0, else Q1 * Q2' / normSq(Q2). */
  function Div(q: Quat, p: Quat): Quat {
    var normSq := NormSq(p);
    if normSq == 0.0 then ZERO
    else
      var s := 1.0 / normSq;
      Quat((p.w * q.w + q.x * p.x + q.y * p.y + q.z * p.z) * s,
           (-q.w * p.x + q.x * p.w - q.y * p.z + q.z * p.y) * s,
           (-q.w * p.y + q.y * p.w - q.z * p.x + q.x * p.z) * s,
           (-q.w * p.z + q.z * p.w - q.x * p.y + q.y * p.x) * s)
  }

  /** Q1 * Q2', written out componentwise with the products in the order `div` uses. */
  lemma ConjugateProduct(q: Quat, p: Quat)
    ensures Mul(q, Conjugate(p)) ==
      Quat(p.w * q.w + q.x * p.x + q.y * p.y + q.z * p.z,
           -q.w * p.x + q.x * p.w - q.y * p.z + q.z * p.y,
           -q.w * p.y + q.y * p.w - q.z * p.x + q.x * p.z,
           -q.w * p.z + q.z * p.w - q.x * p.y + q.y * p.x)
  {
  }

  /** Inside Div: the product by the conjugate, then the real factor. */
  lemma DivIsScaledProduct(q: Quat, p: Quat)
    requires NormSq(p) != 0.0
    ensures Div(q, p) == MulReal(Mul(q, Conjugate(p)), 1.0 / NormSq(p))
  {
    ConjugateProduct(q, p);
  }

  /** Division is multiplication by the inverse for every divisor, ZERO included, and
      dividing by a nonzero Q2 is undone by multiplying by Q2 on the right. */
  lemma DivIsMulInverse(q: Quat, p: Quat)
    ensures Div(q, p) == Mul(q, Inverse(p))
    ensures p != ZERO ==> Mul(Div(q, p), p) == q
  {
    NormSqZero(p);
    if p != ZERO {
      DivIsScaledProduct(q, p);
      InverseIsScaledConjugate(p);
      MulRealRight(q, Conjugate(p), 1.0 / NormSq(p));
      InverseIsTwoSided(p);
      MulAssociative(q, Inverse(p), p);
      MulIdentityAndReals(q, 1.0);
    }
  }

  /** `div` exactly as the source writes it: its three cross-product terms have the
      signs of Q2^-1 * Q1, not those of Q1 * Q2^-1. */
  function DivAsWritten(q: Quat, p: Quat): Quat {
    var normSq := NormSq(p);
    if normSq == 0.0 then ZERO
    else
      var s := 1.0 / normSq;
      Quat((p.w * q.w + q.x * p.x + q.y * p.y + q.z * p.z) * s,
           (-q.w * p.x + q.x * p.w + q.y * p.z - q.z * p.y) * s,
           (-q.w * p.y + q.y * p.w + q.z * p.x - q.x * p.z) * s,
           (-q.w * p.z + q.z * p.w + q.x * p.y - q.y * p.x) * s)
  }

  /** Q2' * Q1, written out componentwise with the products in the order the source's `div` uses. */
  lemma ProductConjugate(q: Quat, p: Quat)
    ensures Mul(Conjugate(p), q) ==
      Quat(p.w * q.w + q.x * p.x + q.y * p.y + q.z * p.z,
           -q.w * p.x + q.x * p.w + q.y * p.z - q.z * p.y,
           -q.w * p.y + q.y * p.w + q.z * p.x - q.x * p.z,
           -q.w * p.z + q.z * p.w + q.x * p.y - q.y * p.x)
  {
  }

  /** Inside DivAsWritten: the conjugate times Q1, then the real factor. */
  lemma DivAsWrittenIsScaledProduct(q: Quat, p: Quat)
    requires NormSq(p) != 0.0
    ensures DivAsWritten(q, p) == MulReal(Mul(Conjugate(p), q), 1.0 / NormSq(p))
  {
    ProductConjugate(q, p);
  }

  /** The source's `div` computes the LEFT quotient Q2^-1 * Q1, not Q1 * Q2^-1. */
  lemma DivAsWrittenIsLeftQuotient(q: Quat, p: Quat)
    ensures DivAsWritten(q, p) == Mul(Inverse(p), q)
  {
    if NormSq(p) == 0.0 {
      MulIdentityAndReals(q, 0.0);
    } else {
      DivAsWrittenIsScaledProduct(q, p);
      InverseIsScaledConjugate(p);
      MulRealLeft(Conjugate(p), q, 1.0 / NormSq(p));
    }
  }

  /** Already for I / J the two differ: the source's `div` yields K, while I * J^-1 is -K. */
  lemma DivAsWrittenDiffersOnIJ()
    ensures DivAsWritten(I, J) == K
    ensures Div(I, J) == Quat(0.0, 0.0, 0.0, -1.0)
  {
  }

  /** The two agree whenever the operands commute, e.g. when both lie in the complex
      plane (y = z = 0), as every division example of the source's tests does. */
  lemma DivAsWrittenAgreesWhenCommuting(q: Quat, p: Quat)
    requires Mul(q, p) == Mul(p, q)
    ensures DivAsWritten(q, p) == Div(q, p)
  {
    if NormSq(p) != 0.0 {
      DivAsWrittenIsScaledProduct(q, p);
      DivIsScaledProduct(q, p);
      assert Mul(q, Conjugate(p)) == Mul(Conjugate(p), q);
    }
  }

  function Abs(r: real): real {
    if r < 0.0 then -r else r
  }

  /** `equals`: every component differs by less than EPSILON. */
  predicate Equals(q: Quat, p: Quat) {
    Abs(p.w - q.w) < EPSILON && Abs(p.x - q.x) < EPSILON &&
    Abs(p.y - q.y) < EPSILON && Abs(p.z - q.z) < EPSILON
  }

  /** Integers less than 1 apart are equal. */
  lemma IntegersCloserThanOneAreEqual(a: real, b: real)
    requires a == a.Floor as real && b == b.Floor as real
    requires Abs(a - b) < 1.0
    ensures a == b
  {
    assert -1 < a.Floor - b.Floor < 1;
  }

  /** `equals` is reflexive and symmetric, and on integer components it is exact equality. */
  lemma EqualsProperties(q: Quat, p: Quat)
    ensures Equals(q, q)
    ensures Equals(q, p) <==> Equals(p, q)
    ensures IsIntegral(q) && IsIntegral(p) ==> (Equals(q, p) <==> q == p)
  {
    if IsIntegral(q) && IsIntegral(p) && Equals(q, p) {
      IntegersCloserThanOneAreEqual(q.w, p.w);
      IntegersCloserThanOneAreEqual(q.x, p.x);
      IntegersCloserThanOneAreEqual(q.y, p.y);
      IntegersCloserThanOneAreEqual(q.z, p.z);
    }
  }

  /** `toArray`: the four components in the order w, x, y, z. */
  function ToArray(q: Quat): (r: seq<real>)
    ensures |r| == 4 && Quat(r[0], r[1], r[2], r[3]) == q
  {
    [q.w, q.x, q.y, q.z]
  }
}
