/**
 * The meaning of `parse`'s text path over the token sequence: signed terms summed
 * into components that start at 0. `Walk` is the reference definition the token
 * loop (Parse.ParseText) is proved against.
 */
module Grammar {
  import opened Quaternion
  import opened Lexer
  import opened Algebra

  /** The three tokens the loop skips. The newline case never arises, since the
      tokenizer drops line terminators; the loop's test keeps it all the same. */
  predicate IsBlank(t: Token) {
    t == Ch(' ') || t == Ch('\t') || t == Ch('\n')
  }

  predicate IsSign(t: Token) {
    t == Ch('+') || t == Ch('-')
  }

  /** A unit letter `i`, `j` or `k`. */
  predicate IsUnit(t: Token) {
    t == Ch('i') || t == Ch('j') || t == Ch('k')
  }

  /** The component a unit letter names. */
  function UnitComponent(t: Token): Component
    requires IsUnit(t)
  {
    if t == Ch('i') then X else if t == Ch('j') then Y else Z
  }

  /** The term's value: negated exactly when an odd number of `-` preceded it. */
  function Signed(minus: nat, v: real): real {
    if minus % 2 == 1 then -v else v
  }

  /**
   * The rest of the loop from a state: `toks` still to read, the sign counters `plus`
   * and `minus` since the last term, and the components `acc` summed so far.
   *  - blanks are skipped, `+` and `-` are counted;
   *  - any other token with both counters 0 is a term with no sign before it: ParseError;
   *  - a unit letter takes the numeral right after it as its coefficient, else 1;
   *  - a numeral goes to the unit letter right after it, else to `w`;
   *  - any other character is ParserError;
   *  - at the end, a sign not yet used by a term is ParserError.
   */
  function Walk(toks: seq<Token>, plus: nat, minus: nat, acc: Quat): Result<Quat>
    decreases |toks|
  {
    if toks == [] then
      if plus + minus > 0 then Err(ParserError) else Ok(acc)
    else
      var c := toks[0];
      if IsBlank(c) then Walk(toks[1..], plus, minus, acc)
      else if c == Ch('+') then Walk(toks[1..], plus + 1, minus, acc)
      else if c == Ch('-') then Walk(toks[1..], plus, minus + 1, acc)
      else if plus + minus == 0 then Err(ParseError)
      else if IsUnit(c) then
        if |toks| > 1 && toks[1].Num? then
          Walk(toks[2..], 0, 0, AddTo(acc, UnitComponent(c), Signed(minus, toks[1].v)))
        else
          Walk(toks[1..], 0, 0, AddTo(acc, UnitComponent(c), Signed(minus, 1.0)))
      else if c.Ch? then Err(ParserError)
      else if |toks| > 1 && IsUnit(toks[1]) then
        Walk(toks[2..], 0, 0, AddTo(acc, UnitComponent(toks[1]), Signed(minus, c.v)))
      else
        Walk(toks[1..], 0, 0, AddTo(acc, W, Signed(minus, c.v)))
  }

  /** The text path from the token list: no tokens at all is ParseError; otherwise the
      loop starts with `plus = 1`, so the first term needs no sign, from all-zero components. */
  function TextToQuat(toks: seq<Token>): Result<Quat> {
    if toks == [] then Err(ParseError) else Walk(toks, 1, 0, ZERO)
  }

  /** The components are sums: a walk from `acc` succeeds exactly when the walk from
      ZERO does, and then ends at `acc` plus that walk's result. */
  lemma {:induction false} WalkAccumulates(toks: seq<Token>, plus: nat, minus: nat, acc: Quat)
    ensures Walk(toks, plus, minus, acc).Ok? <==> Walk(toks, plus, minus, ZERO).Ok?
    ensures Walk(toks, plus, minus, acc).Ok? ==>
      Walk(toks, plus, minus, acc).value == Add(acc, Walk(toks, plus, minus, ZERO).value)
    ensures Walk(toks, plus, minus, acc).Err? ==>
      Walk(toks, plus, minus, acc) == Walk(toks, plus, minus, ZERO)
    decreases |toks|
  {
    if toks == [] {
    } else {
      var c := toks[0];
      if IsBlank(c) || IsSign(c) {
        WalkAccumulates(toks[1..], if c == Ch('+') then plus + 1 else plus,
                        if c == Ch('-') then minus + 1 else minus, acc);
        WalkAccumulates(toks[1..], if c == Ch('+') then plus + 1 else plus,
                        if c == Ch('-') then minus + 1 else minus, ZERO);
      } else if plus + minus == 0 || (c.Ch? && !IsUnit(c)) {
      } else {
        var (rest, comp, v) := NextTerm(toks, minus);
        TermStep(toks, plus, minus, acc);
        TermStep(toks, plus, minus, ZERO);
        WalkAccumulates(rest, 0, 0, AddTo(acc, comp, v));
        WalkAccumulates(rest, 0, 0, AddTo(ZERO, comp, v));
        AddToIsSum(acc, comp, v);
      }
    }
  }

  /** One term read: the walk continues after it with both counters at 0. */
  lemma TermStep(toks: seq<Token>, plus: nat, minus: nat, acc: Quat)
    requires toks != [] && (IsUnit(toks[0]) || toks[0].Num?) && plus + minus > 0
    ensures var (rest, comp, v) := NextTerm(toks, minus);
      Walk(toks, plus, minus, acc) == Walk(rest, 0, 0, AddTo(acc, comp, v))
  {
  }

  /**
   * How tokens pair into terms, with a sign pending: a unit letter takes a numeral right
   * after it as its coefficient and 1 otherwise; a numeral takes a unit letter right after
   * it as its component and `w` otherwise. The term is negated by an odd number of `-`,
   * and the walk goes on after it with both counters at 0.
   */
  lemma TermPairing(u: Token, v: real, t: Token, rest: seq<Token>, plus: nat, minus: nat, acc: Quat)
    requires IsUnit(u) && plus + minus > 0
    ensures Walk([u, Num(v)] + rest, plus, minus, acc) ==
            Walk(rest, 0, 0, AddTo(acc, UnitComponent(u), Signed(minus, v)))
    ensures Walk([Num(v), u] + rest, plus, minus, acc) ==
            Walk(rest, 0, 0, AddTo(acc, UnitComponent(u), Signed(minus, v)))
    ensures !t.Num? ==> (Walk([u, t] + rest, plus, minus, acc) ==
                         Walk([t] + rest, 0, 0, AddTo(acc, UnitComponent(u), Signed(minus, 1.0))))
    ensures !IsUnit(t) ==> (Walk([Num(v), t] + rest, plus, minus, acc) ==
                            Walk([t] + rest, 0, 0, AddTo(acc, W, Signed(minus, v))))
    ensures Walk([u], plus, minus, acc) == Ok(AddTo(acc, UnitComponent(u), Signed(minus, 1.0)))
    ensures Walk([Num(v)], plus, minus, acc) == Ok(AddTo(acc, W, Signed(minus, v)))
  {
    assert ([u, Num(v)] + rest)[2..] == rest;
    assert ([Num(v), u] + rest)[2..] == rest;
    assert ([u, t] + rest)[1..] == [t] + rest;
    assert ([Num(v), t] + rest)[1..] == [t] + rest;
  }

  /** The same pairing from the text: a unit letter and a run of digits in either order
      are one term, a lone unit letter is 1 on its component, and lone digits go to `w`. */
  lemma TermPairingText(u: char, ds: string)
    requires u == 'i' || u == 'j' || u == 'k'
    requires ds != [] && AllDigits(ds)
    ensures TextToQuat(Tokenize([u] + ds)) == Ok(AddTo(ZERO, UnitComponent(Ch(u)), DigitsValue(ds) as real))
    ensures TextToQuat(Tokenize(ds + [u])) == Ok(AddTo(ZERO, UnitComponent(Ch(u)), DigitsValue(ds) as real))
    ensures TextToQuat(Tokenize([u])) == Ok(AddTo(ZERO, UnitComponent(Ch(u)), 1.0))
    ensures TextToQuat(Tokenize(ds)) == Ok(AddTo(ZERO, W, DigitsValue(ds) as real))
  {
    var v := DigitsValue(ds) as real;
    TermTokens(u, ds);
    TermPairing(Ch(u), v, Ch(u), [], 1, 0, ZERO);
    assert [Ch(u), Num(v)] + [] == [Ch(u), Num(v)];
    assert [Num(v), Ch(u)] + [] == [Num(v), Ch(u)];
  }

  /** The tokens of a unit letter and a run of digits, in either order and alone. */
  lemma TermTokens(u: char, ds: string)
    requires u == 'i' || u == 'j' || u == 'k'
    requires ds != [] && AllDigits(ds)
    ensures Tokenize([u] + ds) == [Ch(u), Num(DigitsValue(ds) as real)]
    ensures Tokenize(ds + [u]) == [Num(DigitsValue(ds) as real), Ch(u)]
    ensures Tokenize([u]) == [Ch(u)]
    ensures Tokenize(ds) == [Num(DigitsValue(ds) as real)]
  {
    LexDigits(ds, []);
    assert ds + [] == ds;
    LexChar(u, []);
    assert [u] + [] == [u];
    LexDigits(ds, [u]);
    LexChar(u, ds);
  }

  /** Adding to one component is adding the quaternion that has only that component. */
  lemma AddToIsSum(q: Quat, c: Component, v: real)
    ensures AddTo(q, c, v) == Add(q, AddTo(ZERO, c, v))
    ensures forall p :: Add(AddTo(q, c, v), p) == Add(q, Add(AddTo(ZERO, c, v), p))
  {
  }

  /** The term a walk reads at the head of `toks` (a unit letter or a numeral with both
      counters not 0): what is left after it, its component and its signed value. */
  function NextTerm(toks: seq<Token>, minus: nat): (r: (seq<Token>, Component, real))
    requires toks != [] && (IsUnit(toks[0]) || toks[0].Num?)
    ensures |r.0| < |toks|
  {
    var c := toks[0];
    if IsUnit(c) then
      if |toks| > 1 && toks[1].Num? then (toks[2..], UnitComponent(c), Signed(minus, toks[1].v))
      else (toks[1..], UnitComponent(c), Signed(minus, 1.0))
    else if |toks| > 1 && IsUnit(toks[1]) then (toks[2..], UnitComponent(toks[1]), Signed(minus, c.v))
    else (toks[1..], W, Signed(minus, c.v))
  }

  /** The number of `+` tokens in a run of signs and blanks. */
  function CountPlus(s: seq<Token>): nat {
    if s == [] then 0 else (if s[0] == Ch('+') then 1 else 0) + CountPlus(s[1..])
  }

  /** The number of `-` tokens in a run of signs and blanks. */
  function CountMinus(s: seq<Token>): nat {
    if s == [] then 0 else (if s[0] == Ch('-') then 1 else 0) + CountMinus(s[1..])
  }

  /** Sign law: a run of signs and blanks only adds its `+` and `-` tokens to the counters. */
  lemma {:induction false} SignsAreCounted(signs: seq<Token>, rest: seq<Token>, plus: nat, minus: nat, acc: Quat)
    requires forall i :: 0 <= i < |signs| ==> IsBlank(signs[i]) || IsSign(signs[i])
    ensures Walk(signs + rest, plus, minus, acc) ==
            Walk(rest, plus + CountPlus(signs), minus + CountMinus(signs), acc)
    decreases |signs|
  {
    if signs != [] {
      assert (signs + rest)[1..] == signs[1..] + rest;
      var c := signs[0];
      SignsAreCounted(signs[1..], rest, if c == Ch('+') then plus + 1 else plus,
                      if c == Ch('-') then minus + 1 else minus, acc);
    } else {
      assert signs + rest == rest;
    }
  }

  /** After a run of signs and blanks with at least one sign, the next term is read with
      its value negated exactly when the run holds an odd number of `-`, and both
      counters restart at 0. */
  lemma SignedTerm(signs: seq<Token>, toks: seq<Token>, acc: Quat)
    requires forall i :: 0 <= i < |signs| ==> IsBlank(signs[i]) || IsSign(signs[i])
    requires CountPlus(signs) + CountMinus(signs) > 0
    requires toks != [] && (IsUnit(toks[0]) || toks[0].Num?)
    ensures var (rest, comp, v) := NextTerm(toks, 0);
      Walk(signs + toks, 0, 0, acc) ==
      Walk(rest, 0, 0, AddTo(acc, comp, if CountMinus(signs) % 2 == 1 then -v else v))
  {
    SignsAreCounted(signs, toks, 0, 0, acc);
    TermStep(toks, CountPlus(signs), CountMinus(signs), acc);
  }

  /** A term straight after another, with only blanks between them, is ParseError (as in "55 i"). */
  lemma {:induction false} TermWithoutSign(blanks: seq<Token>, t: Token, rest: seq<Token>, acc: Quat)
    requires forall i :: 0 <= i < |blanks| ==> IsBlank(blanks[i])
    requires !IsBlank(t) && !IsSign(t)
    ensures Walk(blanks + [t] + rest, 0, 0, acc) == Err(ParseError)
    decreases |blanks|
  {
    if blanks == [] {
      assert blanks + [t] + rest == [t] + rest;
    } else {
      assert (blanks + [t] + rest)[1..] == blanks[1..] + [t] + rest;
      TermWithoutSign(blanks[1..], t, rest, acc);
    }
  }

  /** A character that is no blank, sign or unit letter, met where a term may start, is ParserError. */
  lemma UnknownCharacter(c: char, rest: seq<Token>, plus: nat, minus: nat, acc: Quat)
    requires plus + minus > 0
    requires !IsBlank(Ch(c)) && !IsSign(Ch(c)) && !IsUnit(Ch(c))
    ensures Walk([Ch(c)] + rest, plus, minus, acc) == Err(ParserError)
  {
  }

  /** Signs with no term after them (a dangling sign at the end) are ParserError. */
  lemma DanglingSign(signs: seq<Token>, plus: nat, minus: nat, acc: Quat)
    requires forall i :: 0 <= i < |signs| ==> IsBlank(signs[i]) || IsSign(signs[i])
    requires plus + minus + CountPlus(signs) + CountMinus(signs) > 0
    ensures Walk(signs, plus, minus, acc) == Err(ParserError)
  {
    SignsAreCounted(signs, [], plus, minus, acc);
    assert signs + [] == signs;
  }

  /** No tokens at all (an empty text, or one of line terminators only) is ParseError;
      blanks only is ParserError, since the initial `plus = 1` is never used. */
  lemma EmptyText(blanks: seq<Token>)
    requires forall i :: 0 <= i < |blanks| ==> IsBlank(blanks[i])
    ensures TextToQuat([]) == Err(ParseError)
    ensures blanks != [] ==> TextToQuat(blanks) == Err(ParserError)
  {
    if blanks != [] {
      DanglingSign(blanks, 1, 0, ZERO);
    }
  }
}
