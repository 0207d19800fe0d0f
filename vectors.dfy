/** The repository's own test vectors, stated over the model. */
module Examples {
  import opened Quaternion
  import opened Algebra

  /** `add` and `sub` of the test suite's operands. */
  lemma AddSubVectors()
    ensures Add(Quat(1.0, 2.0, 3.0, 4.0), Quat(9.0, 8.0, 7.0, -6.0)) == Quat(10.0, 10.0, 10.0, -2.0)
    ensures Add(Quat(1.0, -2.0, 3.0, -4.0), Quat(9.0, 8.0, 7.0, 6.0)) == Quat(10.0, 6.0, 10.0, 2.0)
    ensures Add(Quat(-9.0, -2.0, 3.0, -4.0), Quat(9.0, 8.0, 7.0, 6.0)) == Quat(0.0, 6.0, 10.0, 2.0)
    ensures Add(ZERO, ZERO) == ZERO
    ensures Add(Quat(2.0, 0.0, 0.0, 0.0), Quat(-1.0, 0.0, 0.0, 0.0)) == Quat(1.0, 0.0, 0.0, 0.0)
    ensures Add(Quat(0.0, 0.0, 0.0, 1.0), Quat(-1.0, 0.0, 0.0, 0.0)) == Quat(-1.0, 0.0, 0.0, 1.0)
    ensures Sub(Quat(1.0, 2.0, 3.0, 4.0), Quat(9.0, 8.0, 4.0, -6.0)) == Quat(-8.0, -6.0, -1.0, 10.0)
    ensures Sub(Quat(1.0, -2.0, 3.0, -4.0), Quat(9.0, 8.0, 7.0, 6.0)) == Quat(-8.0, -10.0, -4.0, -10.0)
    ensures Sub(Quat(-9.0, -2.0, 3.0, -4.0), Quat(9.0, 8.0, 7.0, 6.0)) == Quat(-18.0, -10.0, -4.0, -10.0)
    ensures Sub(ZERO, ZERO) == ZERO
    ensures Sub(Quat(2.0, 0.0, 0.0, 0.0), Quat(-1.0, 0.0, 0.0, 0.0)) == Quat(3.0, 0.0, 0.0, 0.0)
    ensures Sub(Quat(0.0, 0.0, 0.0, 1.0), Quat(-1.0, 0.0, 0.0, 0.0)) == Quat(1.0, 0.0, 0.0, 1.0)
  {
    AddOneTwoThreeFour();
    AddAlternatingSigns();
    AddCancellingReal();
    AddZeros();
    AddTwoMinusOne();
    AddKMinusOne();
    SubOneTwoThreeFour();
    SubAlternatingSigns();
    SubCancellingReal();
    SubZeros();
    SubTwoMinusOne();
    SubKMinusOne();
  }

  lemma AddOneTwoThreeFour()
    ensures Add(Quat(1.0, 2.0, 3.0, 4.0), Quat(9.0, 8.0, 7.0, -6.0)) == Quat(10.0, 10.0, 10.0, -2.0)
  {
  }

  lemma AddAlternatingSigns()
    ensures Add(Quat(1.0, -2.0, 3.0, -4.0), Quat(9.0, 8.0, 7.0, 6.0)) == Quat(10.0, 6.0, 10.0, 2.0)
  {
  }

  lemma AddCancellingReal()
    ensures Add(Quat(-9.0, -2.0, 3.0, -4.0), Quat(9.0, 8.0, 7.0, 6.0)) == Quat(0.0, 6.0, 10.0, 2.0)
  {
  }

  lemma AddZeros()
    ensures Add(ZERO, ZERO) == ZERO
  {
  }

  lemma AddTwoMinusOne()
    ensures Add(Quat(2.0, 0.0, 0.0, 0.0), Quat(-1.0, 0.0, 0.0, 0.0)) == Quat(1.0, 0.0, 0.0, 0.0)
  {
  }

  lemma AddKMinusOne()
    ensures Add(Quat(0.0, 0.0, 0.0, 1.0), Quat(-1.0, 0.0, 0.0, 0.0)) == Quat(-1.0, 0.0, 0.0, 1.0)
  {
  }

  lemma SubOneTwoThreeFour()
    ensures Sub(Quat(1.0, 2.0, 3.0, 4.0), Quat(9.0, 8.0, 4.0, -6.0)) == Quat(-8.0, -6.0, -1.0, 10.0)
  {
  }

  lemma SubAlternatingSigns()
    ensures Sub(Quat(1.0, -2.0, 3.0, -4.0), Quat(9.0, 8.0, 7.0, 6.0)) == Quat(-8.0, -10.0, -4.0, -10.0)
  {
  }

  lemma SubCancellingReal()
    ensures Sub(Quat(-9.0, -2.0, 3.0, -4.0), Quat(9.0, 8.0, 7.0, 6.0)) == Quat(-18.0, -10.0, -4.0, -10.0)
  {
  }

  lemma SubZeros()
    ensures Sub(ZERO, ZERO) == ZERO
  {
  }

  lemma SubTwoMinusOne()
    ensures Sub(Quat(2.0, 0.0, 0.0, 0.0), Quat(-1.0, 0.0, 0.0, 0.0)) == Quat(3.0, 0.0, 0.0, 0.0)
  {
  }

  lemma SubKMinusOne()
    ensures Sub(Quat(0.0, 0.0, 0.0, 1.0), Quat(-1.0, 0.0, 0.0, 0.0)) == Quat(1.0, 0.0, 0.0, 1.0)
  {
  }

  /** `normSq`, `dot`, `conjugate` and `inverse` of the test suite's operands. */
  lemma MetricVectors()
    ensures NormSq(Quat(1.0, 2.0, 3.0, 4.0)) == 30.0
    ensures Dot(Quat(9.0, 8.0, 7.0, 6.0), Quat(1.0, 2.0, 3.0, 4.0)) == 70.0
    ensures Dot(Quat(9.0, 8.0, 7.0, 6.0), Quat(9.0, 8.0, 7.0, 6.0)) == NormSq(Quat(9.0, 8.0, 7.0, 6.0))
    ensures Conjugate(Quat(1.0, 2.0, 3.0, 4.0)) == Quat(1.0, -2.0, -3.0, -4.0)
    ensures Inverse(Quat(1.0, 2.0, 3.0, 4.0)) == Quat(1.0 / 30.0, -2.0 / 30.0, -3.0 / 30.0, -4.0 / 30.0)
  {
  }

  /** `mul` of the test suite's operands, scaling by a real included. */
  lemma MulVectors()
    ensures Mul(Quat(5.0, 0.0, 0.0, 0.0), Quat(6.0, 0.0, 0.0, 0.0)) == Quat(30.0, 0.0, 0.0, 0.0)
    ensures Mul(Quat(1.0, 2.0, 3.0, 4.0), Quat(6.0, 0.0, 0.0, 0.0)) == Quat(6.0, 12.0, 18.0, 24.0)
    ensures Mul(Quat(6.0, 0.0, 0.0, 0.0), Quat(1.0, 2.0, 3.0, 4.0)) == Quat(6.0, 12.0, 18.0, 24.0)
    ensures Mul(Quat(5.0, 6.0, 0.0, 0.0), Quat(6.0, 7.0, 0.0, 0.0)) == Quat(-12.0, 71.0, 0.0, 0.0)
    ensures Mul(Quat(1.0, 1.0, 1.0, 1.0), Quat(2.0, 2.0, 2.0, 2.0)) == Quat(-4.0, 4.0, 4.0, 4.0)
  {
    var r := Mul(Quat(5.0, 0.0, 0.0, 0.0), Quat(6.0, 0.0, 0.0, 0.0));
    assert r == Quat(30.0, 0.0, 0.0, 0.0);
    r := Mul(Quat(1.0, 2.0, 3.0, 4.0), Quat(6.0, 0.0, 0.0, 0.0));
    assert r == Quat(6.0, 12.0, 18.0, 24.0);
    r := Mul(Quat(6.0, 0.0, 0.0, 0.0), Quat(1.0, 2.0, 3.0, 4.0));
    assert r == Quat(6.0, 12.0, 18.0, 24.0);
    r := Mul(Quat(5.0, 6.0, 0.0, 0.0), Quat(6.0, 7.0, 0.0, 0.0));
    assert r == Quat(-12.0, 71.0, 0.0, 0.0);
    r := Mul(Quat(1.0, 1.0, 1.0, 1.0), Quat(2.0, 2.0, 2.0, 2.0));
    assert r == Quat(-4.0, 4.0, 4.0, 4.0);
  }

  /** Complex numbers (`y = z = 0`) divide as complex numbers, and there the source's
      `div` formula and the corrected one agree. */
  lemma ComplexQuotient(a: real, b: real, c: real, d: real)
    requires c * c + d * d != 0.0
    ensures Div(Quat(a, b, 0.0, 0.0), Quat(c, d, 0.0, 0.0)) ==
      Quat((a * c + b * d) / (c * c + d * d), (b * c - a * d) / (c * c + d * d), 0.0, 0.0)
    ensures DivAsWritten(Quat(a, b, 0.0, 0.0), Quat(c, d, 0.0, 0.0)) ==
      Div(Quat(a, b, 0.0, 0.0), Quat(c, d, 0.0, 0.0))
  {
    var n := c * c + d * d;
    assert NormSq(Quat(c, d, 0.0, 0.0)) == n;
    var s := 1.0 / n;
    assert (c * a + b * d) * s == (a * c + b * d) / n;
    assert (-a * d + b * c) * s == (b * c - a * d) / n;
  }

  /** `div` of the test suite's operands, by the corrected formula and by the source's:
      every pair commutes, so the test suite cannot tell the two apart. */
  lemma DivVectors()
    ensures Div(Quat(6.0, 0.0, 0.0, 0.0), Quat(2.0, 0.0, 0.0, 0.0)) == Quat(3.0, 0.0, 0.0, 0.0)
    ensures Div(Quat(1.0, 0.0, 0.0, 0.0), Quat(2.0, 0.0, 0.0, 0.0)) == Quat(0.5, 0.0, 0.0, 0.0)
    ensures Div(Quat(4.0, 2.0, 0.0, 0.0), Quat(1.0, 1.0, 0.0, 0.0)) == Quat(3.0, -1.0, 0.0, 0.0)
    ensures Div(Quat(3.0, -2.0, 0.0, 0.0), I) == Quat(-2.0, -3.0, 0.0, 0.0)
    ensures Div(Quat(25.0, 0.0, 0.0, 0.0), Quat(3.0, -4.0, 0.0, 0.0)) == Quat(3.0, 4.0, 0.0, 0.0)
    ensures DivAsWritten(Quat(6.0, 0.0, 0.0, 0.0), Quat(2.0, 0.0, 0.0, 0.0)) == Quat(3.0, 0.0, 0.0, 0.0)
    ensures DivAsWritten(Quat(1.0, 0.0, 0.0, 0.0), Quat(2.0, 0.0, 0.0, 0.0)) == Quat(0.5, 0.0, 0.0, 0.0)
    ensures DivAsWritten(Quat(4.0, 2.0, 0.0, 0.0), Quat(1.0, 1.0, 0.0, 0.0)) == Quat(3.0, -1.0, 0.0, 0.0)
    ensures DivAsWritten(Quat(3.0, -2.0, 0.0, 0.0), I) == Quat(-2.0, -3.0, 0.0, 0.0)
    ensures DivAsWritten(Quat(25.0, 0.0, 0.0, 0.0), Quat(3.0, -4.0, 0.0, 0.0)) == Quat(3.0, 4.0, 0.0, 0.0)
  {
    DivSixByTwo(); DivOneByTwo(); DivByOnePlusI(); DivByI(); DivByThreeMinusFourI();
    DivAsWrittenSixByTwo(); DivAsWrittenOneByTwo(); DivAsWrittenByOnePlusI(); DivAsWrittenByI(); DivAsWrittenByThreeMinusFourI();
  }

  lemma DivSixByTwo()
    ensures Div(Quat(6.0, 0.0, 0.0, 0.0), Quat(2.0, 0.0, 0.0, 0.0)) == Quat(3.0, 0.0, 0.0, 0.0)
  {
  }

  lemma DivOneByTwo()
    ensures Div(Quat(1.0, 0.0, 0.0, 0.0), Quat(2.0, 0.0, 0.0, 0.0)) == Quat(0.5, 0.0, 0.0, 0.0)
  {
  }

  lemma DivByOnePlusI()
    ensures Div(Quat(4.0, 2.0, 0.0, 0.0), Quat(1.0, 1.0, 0.0, 0.0)) == Quat(3.0, -1.0, 0.0, 0.0)
  {
  }

  lemma DivByI()
    ensures Div(Quat(3.0, -2.0, 0.0, 0.0), I) == Quat(-2.0, -3.0, 0.0, 0.0)
  {
  }

  lemma DivByThreeMinusFourI()
    ensures Div(Quat(25.0, 0.0, 0.0, 0.0), Quat(3.0, -4.0, 0.0, 0.0)) == Quat(3.0, 4.0, 0.0, 0.0)
  {
  }

  lemma DivAsWrittenSixByTwo()
    ensures DivAsWritten(Quat(6.0, 0.0, 0.0, 0.0), Quat(2.0, 0.0, 0.0, 0.0)) == Quat(3.0, 0.0, 0.0, 0.0)
  {
  }

  lemma DivAsWrittenOneByTwo()
    ensures DivAsWritten(Quat(1.0, 0.0, 0.0, 0.0), Quat(2.0, 0.0, 0.0, 0.0)) == Quat(0.5, 0.0, 0.0, 0.0)
  {
  }

  lemma DivAsWrittenByOnePlusI()
    ensures DivAsWritten(Quat(4.0, 2.0, 0.0, 0.0), Quat(1.0, 1.0, 0.0, 0.0)) == Quat(3.0, -1.0, 0.0, 0.0)
  {
  }

  lemma DivAsWrittenByI()
    ensures DivAsWritten(Quat(3.0, -2.0, 0.0, 0.0), I) == Quat(-2.0, -3.0, 0.0, 0.0)
  {
  }

  lemma DivAsWrittenByThreeMinusFourI()
    ensures DivAsWritten(Quat(25.0, 0.0, 0.0, 0.0), Quat(3.0, -4.0, 0.0, 0.0)) == Quat(3.0, 4.0, 0.0, 0.0)
  {
  }

  /** `equals` of the test suite's operands: equal, and off by one in each component. */
  lemma EqualsVectors()
    ensures Equals(Quat(9.0, 8.0, 7.0, 6.0), Quat(9.0, 8.0, 7.0, 6.0))
    ensures !Equals(Quat(8.0, 8.0, 7.0, 6.0), Quat(9.0, 8.0, 7.0, 6.0))
    ensures !Equals(Quat(9.0, 7.0, 7.0, 6.0), Quat(9.0, 8.0, 7.0, 6.0))
    ensures !Equals(Quat(9.0, 8.0, 6.0, 6.0), Quat(9.0, 8.0, 7.0, 6.0))
    ensures !Equals(Quat(9.0, 8.0, 7.0, 5.0), Quat(9.0, 8.0, 7.0, 6.0))
  {
  }
}
