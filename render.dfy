/**
 * `numToStr` and `toString`: the text form of a quaternion, the inverse direction of
 * the text grammar. Modelled for integer components of magnitude at most 2^53, which JavaScript
 * prints as plain digit strings.
 */
module Render {
  import opened Quaternion
  import opened Lexer
  import opened Grammar

  /** The digit character for 0..9. */
  function DigitChar(d: nat): (c: char)
    requires d < 10
    ensures IsDigit(c) && DigitValue(c) == d
  {
    ('0' as int + d) as char
  }

  /** The decimal digits of `n`, most significant first, with no leading zero. */
  function Digits(n: nat): (s: string)
    ensures s != [] && AllDigits(s) && DigitsValue(s) == n
    ensures s[0] != '0' || s == "0"
    decreases n
  {
    if n < 10 then [DigitChar(n)]
    else
      var front := Digits(n / 10);
      var s := front + [DigitChar(n % 10)];
      assert s[..|s| - 1] == front;
      assert s[0] == front[0];
      s
  }

  /** The magnitude of an integer component. */
  function Magnitude(n: int): nat {
    if n < 0 then -n else n
  }

  /** The integer a component holds. */
  function IntOf(r: real): int {
    r.Floor
  }

  /** 2^53: every integer up to it in magnitude is a double that prints as its exact digits. */
  const MAX_EXACT: nat := 9007199254740992

  /** The values the renderer covers: integer components of magnitude at most 2^53. */
  predicate Renderable(q: Quat) {
    IsIntegral(q) &&
    Magnitude(IntOf(q.w)) <= MAX_EXACT && Magnitude(IntOf(q.x)) <= MAX_EXACT &&
    Magnitude(IntOf(q.y)) <= MAX_EXACT && Magnitude(IntOf(q.z)) <= MAX_EXACT
  }

  /** `numToStr(n, unit, prev)`: nothing for 0; otherwise the sign (` - `/` + ` after
      earlier text, a bare `-` or nothing at the start), the magnitude unless it is 1 on
      a unit letter, then the unit. */
  function NumToStr(n: int, unit: string, prev: string): string {
    if n == 0 then ""
    else
      var sign := if prev != "" then (if n < 0 then " - " else " + ") else if n < 0 then "-" else "";
      var mag := Magnitude(n);
      sign + (if mag != 1 || unit == "" then Digits(mag) else "") + unit
  }

  /** A nonzero component to print: its integer value and its unit ("" for w). */
  datatype Term = Term(coef: int, unit: string)

  predicate ValidTerm(t: Term) {
    t.coef != 0 && (t.unit == "" || t.unit == "i" || t.unit == "j" || t.unit == "k")
  }

  /** The component a unit names. */
  function ComponentOf(unit: string): Component {
    if unit == "i" then X else if unit == "j" then Y else if unit == "k" then Z else W
  }

  /** The term for a component, or none if it is 0. */
  function Keep(n: int, unit: string): seq<Term> {
    if n == 0 then [] else [Term(n, unit)]
  }

  /** The nonzero components in the order w, i, j, k. */
  function Terms(q: Quat): (ts: seq<Term>)
    ensures forall t :: t in ts ==> ValidTerm(t)
  {
    Keep(IntOf(q.w), "") + Keep(IntOf(q.x), "i") + Keep(IntOf(q.y), "j") + Keep(IntOf(q.z), "k")
  }

  /** The sign part of a piece. */
  function SignText(t: Term, first: bool): string {
    if first then (if t.coef < 0 then "-" else "") else if t.coef < 0 then " - " else " + "
  }

  /** The magnitude part of a piece. */
  function CoefText(t: Term): string {
    if Magnitude(t.coef) == 1 && t.unit != "" then "" else Digits(Magnitude(t.coef))
  }

  /** One term's text: first in the output, or joined to what precedes it. */
  function Piece(t: Term, first: bool): string {
    SignText(t, first) + CoefText(t) + t.unit
  }

  /** The terms' texts one after another. */
  function Join(ts: seq<Term>, first: bool): string {
    if ts == [] then "" else Piece(ts[0], first) + Join(ts[1..], false)
  }

  /** The reference text of `q`: its nonzero terms joined, or "0" when there are none. */
  function Render(q: Quat): string {
    var ts := Terms(q);
    if ts == [] then "0" else Join(ts, true)
  }

  /** `toString`: append each component's text, each told whether text precedes it;
      an empty result becomes "0". */
  method ToString(q: Quat) returns (ret: string)
    requires Renderable(q)
    ensures ret == Render(q)
  {
    ret := "";
    ret := NumToStr(IntOf(q.w), "", ret);
    ret := ret + NumToStr(IntOf(q.x), "i", ret);
    ret := ret + NumToStr(IntOf(q.y), "j", ret);
    ret := ret + NumToStr(IntOf(q.z), "k", ret);
    if ret == "" {
      ret := "0";
    }
    ToStringIsRender(q);
  }

  /** `numToStr` is the term's piece, first exactly when nothing precedes it. */
  lemma NumToStrIsPiece(n: int, unit: string, prev: string)
    ensures NumToStr(n, unit, prev) == if n == 0 then "" else Piece(Term(n, unit), prev == "")
  {
  }

  /** A valid term's piece is never empty. */
  lemma PieceNonEmpty(t: Term, first: bool)
    requires ValidTerm(t)
    ensures Piece(t, first) != ""
  {
  }

  /** Joining one more term appends its piece, first exactly when nothing precedes it. */
  lemma {:induction false} JoinAppend(ts: seq<Term>, t: Term, first: bool)
    ensures Join(ts + [t], first) == Join(ts, first) + Piece(t, first && ts == [])
    decreases |ts|
  {
    if ts == [] {
      assert [] + [t] == [t];
    } else {
      assert (ts + [t])[1..] == ts[1..] + [t];
      JoinAppend(ts[1..], t, false);
    }
  }

  /** The joined text is empty exactly when there are no terms. */
  lemma JoinEmpty(ts: seq<Term>, first: bool)
    requires forall t :: t in ts ==> ValidTerm(t)
    ensures Join(ts, first) == "" <==> ts == []
  {
    if ts != [] {
      PieceNonEmpty(ts[0], first);
    }
  }

  /** Appending each component's text in turn builds the join of the nonzero terms so far. */
  lemma ToStringStep(ts: seq<Term>, ret: string, n: int, unit: string)
    requires forall t :: t in ts ==> ValidTerm(t)
    requires ret == Join(ts, true)
    ensures ret + NumToStr(n, unit, ret) == Join(ts + Keep(n, unit), true)
  {
    NumToStrIsPiece(n, unit, ret);
    JoinEmpty(ts, true);
    if n == 0 {
      assert ts + [] == ts;
    } else {
      JoinAppend(ts, Term(n, unit), true);
    }
  }

  /** The four appends `toString` makes, in order, followed by its "0" fallback, produce the reference text. */
  lemma ToStringIsRender(q: Quat)
    ensures var r0 := NumToStr(IntOf(q.w), "", "");
            var r1 := r0 + NumToStr(IntOf(q.x), "i", r0);
            var r2 := r1 + NumToStr(IntOf(q.y), "j", r1);
            var r3 := r2 + NumToStr(IntOf(q.z), "k", r2);
            (if r3 == "" then "0" else r3) == Render(q)
  {
    var a := Keep(IntOf(q.w), "");
    var b := Keep(IntOf(q.x), "i");
    var c := Keep(IntOf(q.y), "j");
    var d := Keep(IntOf(q.z), "k");
    var r0 := NumToStr(IntOf(q.w), "", "");
    ToStringStep([], "", IntOf(q.w), "");
    assert [] + a == a;
    var r1 := r0 + NumToStr(IntOf(q.x), "i", r0);
    ToStringStep(a, r0, IntOf(q.x), "i");
    var r2 := r1 + NumToStr(IntOf(q.y), "j", r1);
    ToStringStep(a + b, r1, IntOf(q.y), "j");
    var r3 := r2 + NumToStr(IntOf(q.z), "k", r2);
    ToStringStep(a + b + c, r2, IntOf(q.z), "k");
    assert Terms(q) == a + b + c + d;
    JoinEmpty(Terms(q), true);
  }

  /** The tokens of a magnitude part. */
  function CoefTokens(t: Term): seq<Token> {
    if Magnitude(t.coef) == 1 && t.unit != "" then [] else [Num(Magnitude(t.coef) as real)]
  }

  /** The tokens of a piece: its sign and blank characters, its numeral, its unit letter. */
  function PieceTokens(t: Term, first: bool): seq<Token> {
    Chars(SignText(t, first)) + CoefTokens(t) + Chars(t.unit)
  }

  /** The sign part is plain characters: blanks and signs, with one `-` exactly for a
      negative term, and at least one sign unless it is the first piece. */
  lemma SignFacts(t: Term, first: bool)
    ensures forall i :: 0 <= i < |SignText(t, first)| ==> Plain(SignText(t, first)[i])
    ensures var signs := Chars(SignText(t, first));
      (forall i :: 0 <= i < |signs| ==> IsBlank(signs[i]) || IsSign(signs[i])) &&
      CountMinus(signs) == (if t.coef < 0 then 1 else 0) &&
      (if first then 1 else 0) + CountPlus(signs) + CountMinus(signs) > 0
  {
    var text := SignText(t, first);
    var sign := if t.coef < 0 then '-' else '+';
    CharsOfShort(sign, ' ', ' ');
    CharsOfShort(' ', sign, ' ');
    if first && t.coef < 0 {
      assert text == [sign];
    } else if first {
      assert Chars(text) == [];
    } else {
      assert text == [' ', sign, ' '];
      var signs := [Ch(' '), Ch(sign), Ch(' ')];
      var last := [Ch(' ')];
      assert last[1..] == [];
      assert CountMinus(last) == 0 && CountPlus(last) == 0;
      assert signs[1..] == [Ch(sign)] + last;
      assert signs[1..][1..] == last;
      assert CountMinus(signs[1..]) == (if t.coef < 0 then 1 else 0);
      assert CountPlus(signs[1..]) == (if t.coef < 0 then 0 else 1);
    }
  }

  /** Plain characters, a digit string or nothing, more plain characters, then anything
      that cannot continue a numeral: tokens for each part in turn. */
  lemma LexParts(sign: string, coef: string, unit: string, rest: string)
    requires forall i :: 0 <= i < |sign| ==> Plain(sign[i])
    requires AllDigits(coef)
    requires forall i :: 0 <= i < |unit| ==> Plain(unit[i])
    requires unit + rest == [] || (!IsDigit((unit + rest)[0]) && (unit + rest)[0] != '.' &&
                                   (unit + rest)[0] != 'e')
    ensures Tokenize(sign + coef + unit + rest) ==
      Chars(sign) + (if coef == [] then [] else [Num(DigitsValue(coef) as real)]) + Chars(unit) + Tokenize(rest)
  {
    var afterSign := coef + (unit + rest);
    assert sign + coef + unit + rest == sign + afterSign;
    LexPlain(unit, rest);
    if coef == [] {
      assert afterSign == unit + rest;
    } else {
      LexDigits(coef, unit + rest);
    }
    LexPlain(sign, afterSign);
  }

  /** A piece followed by a blank or by nothing tokenizes into its own tokens. */
  lemma LexPiece(t: Term, first: bool, rest: string)
    requires ValidTerm(t)
    requires rest == [] || rest[0] == ' '
    ensures Tokenize(Piece(t, first) + rest) == PieceTokens(t, first) + Tokenize(rest)
  {
    SignFacts(t, first);
    LexParts(SignText(t, first), CoefText(t), t.unit, rest);
  }

  /** The numeral and unit tokens of a term, read with the sign counters of its sign
      part, add its value to its component. */
  lemma WalkTermTokens(t: Term, rest: seq<Token>, plus: nat, minus: nat, acc: Quat)
    requires ValidTerm(t)
    requires rest == [] || rest[0] == Ch(' ')
    requires plus + minus > 0 && minus == if t.coef < 0 then 1 else 0
    ensures Walk(CoefTokens(t) + Chars(t.unit) + rest, plus, minus, acc) ==
            Walk(rest, 0, 0, AddTo(acc, ComponentOf(t.unit), t.coef as real))
  {
    var toks := CoefTokens(t) + Chars(t.unit) + rest;
    if t.unit != "" {
      CharsOfShort(t.unit[0], ' ', ' ');
      assert t.unit == [t.unit[0]];
    }
    if CoefTokens(t) == [] {
      assert toks == [Ch(t.unit[0])] + rest;
      assert toks[1..] == rest;
    } else if t.unit == "" {
      assert toks == [Num(Magnitude(t.coef) as real)] + rest;
      assert toks[1..] == rest;
    } else {
      assert toks == [Num(Magnitude(t.coef) as real), Ch(t.unit[0])] + rest;
      assert toks[2..] == rest;
    }
    TermStep(toks, plus, minus, acc);
  }

  /** Walking a piece's tokens adds the term's value to its component and leaves both
      sign counters at 0. */
  lemma WalkPiece(t: Term, first: bool, rest: seq<Token>, acc: Quat)
    requires ValidTerm(t)
    requires rest == [] || rest[0] == Ch(' ')
    ensures Walk(PieceTokens(t, first) + rest, if first then 1 else 0, 0, acc) ==
            Walk(rest, 0, 0, AddTo(acc, ComponentOf(t.unit), t.coef as real))
  {
    var signs := Chars(SignText(t, first));
    var toks := CoefTokens(t) + Chars(t.unit) + rest;
    var p0 := if first then 1 else 0;
    assert PieceTokens(t, first) + rest == signs + toks;
    SignFacts(t, first);
    SignsAreCounted(signs, toks, p0, 0, acc);
    WalkTermTokens(t, rest, p0 + CountPlus(signs), CountMinus(signs), acc);
  }

  /** The components the terms add up to, starting from `acc`. */
  function SumTerms(acc: Quat, ts: seq<Term>): Quat
    decreases |ts|
  {
    if ts == [] then acc else SumTerms(AddTo(acc, ComponentOf(ts[0].unit), ts[0].coef as real), ts[1..])
  }

  /** A piece after the first starts with a blank. */
  lemma JoinStartsWithBlank(ts: seq<Term>)
    requires ts != []
    ensures Join(ts, false) != [] && Join(ts, false)[0] == ' '
  {
  }

  /** The walk over a join of terms reads every term and ends after the last. */
  lemma {:induction false} JoinRoundTrip(ts: seq<Term>, first: bool, acc: Quat)
    requires forall t :: t in ts ==> ValidTerm(t)
    requires first ==> ts != []
    ensures Walk(Tokenize(Join(ts, first)), if first then 1 else 0, 0, acc) == Ok(SumTerms(acc, ts))
    decreases |ts|
  {
    if ts != [] {
      var rest := Join(ts[1..], false);
      var next := AddTo(acc, ComponentOf(ts[0].unit), ts[0].coef as real);
      if ts[1..] != [] {
        JoinStartsWithBlank(ts[1..]);
        LexChar(' ', rest[1..]);
        assert rest == [' '] + rest[1..];
      }
      LexPiece(ts[0], first, rest);
      WalkPiece(ts[0], first, Tokenize(rest), acc);
      JoinRoundTrip(ts[1..], false, next);
    }
  }

  /** Summing a concatenation sums one part after the other. */
  lemma {:induction false} SumTermsAppend(acc: Quat, a: seq<Term>, b: seq<Term>)
    ensures SumTerms(acc, a + b) == SumTerms(SumTerms(acc, a), b)
    decreases |a|
  {
    if a == [] {
      assert a + b == b;
    } else {
      assert (a + b)[1..] == a[1..] + b;
      SumTermsAppend(AddTo(acc, ComponentOf(a[0].unit), a[0].coef as real), a[1..], b);
    }
  }

  /** The terms of an integer quaternion add up to it: the omitted ones are 0. */
  lemma TermsSumToQuat(q: Quat)
    requires IsIntegral(q)
    ensures SumTerms(ZERO, Terms(q)) == q
  {
    var a := Keep(IntOf(q.w), "");
    var b := Keep(IntOf(q.x), "i");
    var c := Keep(IntOf(q.y), "j");
    var d := Keep(IntOf(q.z), "k");
    SumTermsAppend(ZERO, a + b + c, d);
    SumTermsAppend(ZERO, a + b, c);
    SumTermsAppend(ZERO, a, b);
  }

  /** "0" reads back as ZERO. */
  lemma ZeroRoundTrip()
    ensures TextToQuat(Tokenize("0")) == Ok(ZERO)
  {
    LexDigits("0", "");
    assert "0" + "" == "0";
    assert Tokenize("0") == [Num(0.0)];
  }

  /** Reading back the text `toString` prints gives the same quaternion: the renderer
      is a right inverse of the text grammar on the values it covers. */
  lemma RenderRoundTrip(q: Quat)
    requires Renderable(q)
    ensures TextToQuat(Tokenize(Render(q))) == Ok(q)
  {
    var ts := Terms(q);
    TermsSumToQuat(q);
    if ts == [] {
      ZeroRoundTrip();
    } else {
      JoinRoundTrip(ts, true, ZERO);
    }
  }
}
