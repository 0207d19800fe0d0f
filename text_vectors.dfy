/** The test suite's string vectors, stated over the tokenizer, the grammar and the renderer. */
module TextExamples {
  import opened Quaternion
  import opened Lexer
  import opened Grammar
  import Render

  /** The text forms the test suite expects from `toString`. */
  lemma RenderVectors()
    ensures Render.Render(Quat(-13.0, 55.0, -1.0, -5.0)) == "-13 + 55i - j - 5k"
    ensures Render.Render(Quat(1.0, 1.0, 1.0, -1.0)) == "1 + i + j - k"
    ensures Render.Render(ZERO) == "0"
  {
    RenderNegativeTerms();
    RenderUnitTerms();
  }

  lemma RenderNegativeTerms()
    ensures Render.Render(Quat(-13.0, 55.0, -1.0, -5.0)) == "-13 + 55i - j - 5k"
  {
    var ts := Render.Terms(Quat(-13.0, 55.0, -1.0, -5.0));
    assert ts == [Render.Term(-13, ""), Render.Term(55, "i"), Render.Term(-1, "j"), Render.Term(-5, "k")];
    JoinNegativeTerms(ts);
  }

  lemma JoinNegativeTerms(ts: seq<Render.Term>)
    requires ts == [Render.Term(-13, ""), Render.Term(55, "i"), Render.Term(-1, "j"), Render.Term(-5, "k")]
    ensures Render.Join(ts, true) == "-13 + 55i - j - 5k"
  {
    DigitsOfVectors();
    assert Render.Piece(ts[3], false) == " - 5k";
    assert Render.Join(ts[3..], false) == " - 5k";
    assert Render.Piece(ts[2], false) == " - j";
    assert Render.Join(ts[2..], false) == " - j - 5k" by { assert ts[2..][1..] == ts[3..]; }
    assert Render.Piece(ts[1], false) == " + 55i";
    assert Render.Join(ts[1..], false) == " + 55i - j - 5k" by { assert ts[1..][1..] == ts[2..]; }
    assert Render.Piece(ts[0], true) == "-13";
  }

  lemma DigitsOfVectors()
    ensures Render.Digits(5) == "5" && Render.Digits(13) == "13" && Render.Digits(55) == "55"
  {
    assert Render.Digits(1) == "1" && Render.Digits(5) == "5";
    assert Render.Digits(13) == "13" by { assert Render.DigitChar(3) == '3'; }
  }

  lemma RenderUnitTerms()
    ensures Render.Render(Quat(1.0, 1.0, 1.0, -1.0)) == "1 + i + j - k"
  {
    var ts := Render.Terms(Quat(1.0, 1.0, 1.0, -1.0));
    assert ts == [Render.Term(1, ""), Render.Term(1, "i"), Render.Term(1, "j"), Render.Term(-1, "k")];
    assert Render.Digits(1) == "1";
  }

  /** The rendered texts parse back to the values they came from. */
  lemma ParseVectors()
    ensures TextToQuat(Tokenize("-13 + 55i - j - 5k")) == Ok(Quat(-13.0, 55.0, -1.0, -5.0))
    ensures TextToQuat(Tokenize("1 + i + j - k")) == Ok(Quat(1.0, 1.0, 1.0, -1.0))
  {
    RenderVectors();
    Render.RenderRoundTrip(Quat(-13.0, 55.0, -1.0, -5.0));
    Render.RenderRoundTrip(Quat(1.0, 1.0, 1.0, -1.0));
  }

  /** "1+1" is 2 and "1-1" is 0: a term's sign applies to that term only. */
  lemma SumAndDifference()
    ensures TextToQuat(Tokenize("1+1")) == Ok(Quat(2.0, 0.0, 0.0, 0.0))
    ensures TextToQuat(Tokenize("1-1")) == Ok(ZERO)
  {
    TokensOfOneSignOne('+');
    WalkOfOneSignOne('+');
    assert "1" + ['+'] + "1" == "1+1";
    TokensOfOneSignOne('-');
    WalkOfOneSignOne('-');
    assert "1" + ['-'] + "1" == "1-1";
  }

  lemma TokensOfOneSignOne(c: char)
    requires c == '+' || c == '-'
    ensures Tokenize("1" + [c] + "1") == [Num(1.0), Ch(c), Num(1.0)]
  {
    LexDigits("1", "");
    assert "1" + "" == "1";
    LexChar(c, "1");
    LexDigits("1", [c] + "1");
    assert "1" + [c] + "1" == "1" + ([c] + "1");
  }

  lemma WalkOfOneSignOne(c: char)
    requires c == '+' || c == '-'
    ensures TextToQuat([Num(1.0), Ch(c), Num(1.0)]) == Ok(Quat(if c == '+' then 2.0 else 0.0, 0.0, 0.0, 0.0))
  {
    var t := [Num(1.0), Ch(c), Num(1.0)];
    assert t[1..] == [Ch(c), Num(1.0)] && t[1..][1..] == [Num(1.0)];
    var q1 := AddTo(ZERO, W, 1.0);
    assert Walk(t, 1, 0, ZERO) == Walk(t[1..], 0, 0, q1);
    var p, m := if c == '+' then 1 else 0, if c == '-' then 1 else 0;
    assert Walk(t[1..], 0, 0, q1) == Walk([Num(1.0)], p, m, q1);
    assert Walk([Num(1.0)], p, m, q1) == Walk([], 0, 0, AddTo(q1, W, if c == '+' then 1.0 else -1.0));
  }

  /** "55 i": a unit letter after a numeral and a blank is a second term with no sign. */
  lemma NoSignVector()
    ensures TextToQuat(Tokenize("55 i")) == Err(ParseError)
  {
    TokensOfNoSign();
    WalkOfNoSign();
  }

  lemma WalkOfNoSign()
    ensures TextToQuat([Num(55.0), Ch(' '), Ch('i')]) == Err(ParseError)
  {
    var t := [Num(55.0), Ch(' '), Ch('i')];
    assert t[1..] == [Ch(' ')] + [Ch('i')] + [];
    assert Walk(t, 1, 0, ZERO) == Walk(t[1..], 0, 0, Quat(55.0, 0.0, 0.0, 0.0));
    TermWithoutSign([Ch(' ')], Ch('i'), [], Quat(55.0, 0.0, 0.0, 0.0));
  }

  lemma TokensOfNoSign()
    ensures Tokenize("55 i") == [Num(55.0), Ch(' '), Ch('i')]
  {
    LexChar('i', "");
    LexChar(' ', "i");
    assert " i" == [' '] + "i";
    LexDigits("55", " i");
    assert "55 i" == "55" + " i";
  }

  /** One chunk: a run of signs and blanks, then a term, then the rest. */
  lemma Chunk(signs: seq<Token>, term: seq<Token>, rest: seq<Token>, acc: Quat, c: Component, v: real, neg: bool)
    requires forall i :: 0 <= i < |signs| ==> IsBlank(signs[i]) || IsSign(signs[i])
    requires CountPlus(signs) + CountMinus(signs) > 0 && (CountMinus(signs) % 2 == 1 <==> neg)
    requires term == [Num(v)] + (if c == W then [] else [Ch(if c == X then 'i' else if c == Y then 'j' else 'k')])
    requires rest == [] || rest[0] == Ch(' ')
    ensures Walk(signs + term + rest, 0, 0, acc) == Walk(rest, 0, 0, AddTo(acc, c, if neg then -v else v))
  {
    assert signs + term + rest == signs + (term + rest);
    var toks := term + rest;
    assert toks[0] == Num(v);
    if c == W {
      assert toks[1..] == rest;
    } else {
      assert toks[1] == term[1];
      assert toks[2..] == rest;
    }
    SignedTerm(signs, toks, acc);
  }

  /** The sign counts of the three sign runs of the spaced vector. */
  lemma Counts()
    ensures CountPlus([Ch(' '), Ch('+'), Ch(' ')]) == 1 && CountMinus([Ch(' '), Ch('+'), Ch(' ')]) == 0
    ensures CountPlus([Ch(' '), Ch('-'), Ch(' ')]) == 0 && CountMinus([Ch(' '), Ch('-'), Ch(' ')]) == 1
    ensures CountPlus([Ch(' '), Ch('-'), Ch(' '), Ch(' ')]) == 0 && CountMinus([Ch(' '), Ch('-'), Ch(' '), Ch(' ')]) == 1
  {
    var b := [Ch(' ')];
    assert b[1..] == [];
    var bb := [Ch(' '), Ch(' ')];
    assert bb[1..] == b;
    assert [Ch('-'), Ch(' '), Ch(' ')][1..] == bb;
    assert [Ch(' '), Ch('-'), Ch(' '), Ch(' ')][1..] == [Ch('-'), Ch(' '), Ch(' ')];
    assert [Ch('+'), Ch(' ')][1..] == b;
    assert [Ch('-'), Ch(' ')][1..] == b;
    assert [Ch(' '), Ch('+'), Ch(' ')][1..] == [Ch('+'), Ch(' ')];
    assert [Ch(' '), Ch('-'), Ch(' ')][1..] == [Ch('-'), Ch(' ')];
  }

  /** The leading run " -  " negates the first numeral, which goes to `w`. */
  lemma LeadingTerm(s1: seq<Token>, rest: seq<Token>)
    requires s1 == [Ch(' '), Ch('-'), Ch(' '), Ch(' ')]
    requires rest == [] || rest[0] == Ch(' ')
    ensures Walk(s1 + [Num(13.0)] + rest, 1, 0, ZERO) == Walk(rest, 0, 0, Quat(-13.0, 0.0, 0.0, 0.0))
  {
    Counts();
    SignsAreCounted(s1, [Num(13.0)] + rest, 1, 0, ZERO);
    assert s1 + [Num(13.0)] + rest == s1 + ([Num(13.0)] + rest);
    assert ([Num(13.0)] + rest)[1..] == rest;
  }

  /** The tokens of " -  13 + 55i - 1j - 5k" sum to (-13, 55, -1, -5): blanks anywhere,
      a sign run before the first term, and an explicit coefficient 1. */
  lemma SpacedTerms(s1: seq<Token>, s2: seq<Token>, s3: seq<Token>)
    requires s1 == [Ch(' '), Ch('-'), Ch(' '), Ch(' ')]
    requires s2 == [Ch(' '), Ch('+'), Ch(' ')]
    requires s3 == [Ch(' '), Ch('-'), Ch(' ')]
    ensures TextToQuat(s1 + [Num(13.0)] + s2 + [Num(55.0), Ch('i')] + s3 + [Num(1.0), Ch('j')] + s3 + [Num(5.0), Ch('k')])
            == Ok(Quat(-13.0, 55.0, -1.0, -5.0))
  {
    Counts();
    var t4 := s3 + [Num(5.0), Ch('k')];
    var t3 := s3 + [Num(1.0), Ch('j')] + t4;
    var t2 := s2 + [Num(55.0), Ch('i')] + t3;
    assert s1 + [Num(13.0)] + s2 + [Num(55.0), Ch('i')] + s3 + [Num(1.0), Ch('j')] + s3 + [Num(5.0), Ch('k')] ==
           s1 + [Num(13.0)] + t2;
    LeadingTerm(s1, t2);
    Chunk(s2, [Num(55.0), Ch('i')], t3, Quat(-13.0, 0.0, 0.0, 0.0), X, 55.0, false);
    Chunk(s3, [Num(1.0), Ch('j')], t4, Quat(-13.0, 55.0, 0.0, 0.0), Y, 1.0, true);
    assert t4 == s3 + [Num(5.0), Ch('k')] + [];
    Chunk(s3, [Num(5.0), Ch('k')], [], Quat(-13.0, 55.0, -1.0, 0.0), Z, 5.0, true);
  }
}
