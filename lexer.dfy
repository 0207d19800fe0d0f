/**
 * The tokenizer of `parse`'s text path: a global match of the pattern
 *   digits [.] [digits] e [+|-] digits  |  digits [.] [digits]  |  . digits  |  any one character
 * against the input, tried in that order at each position. The any-character
 * alternative does not match line terminators, so those are skipped. A numeral
 * token carries its exact value as a real.
 */
module Lexer {

  /** A match of the pattern: a numeral, or any other single character. */
  datatype Token = Num(v: real) | Ch(c: char)

  predicate IsDigit(c: char) {
    '0' <= c <= '9'
  }

  /** The four characters a regular expression's `.` does not match. */
  predicate IsLineTerminator(c: char) {
    c == '\n' || c == '\r' || c == '\U{2028}' || c == '\U{2029}'
  }

  /** The value of a decimal digit. */
  function DigitValue(c: char): nat
    requires IsDigit(c)
  {
    (c as int - '0' as int) as nat
  }

  /** The length of the run of digits at the start of `s`. */
  function DigitRun(s: string): (n: nat)
    ensures n <= |s|
    ensures forall i :: 0 <= i < n ==> IsDigit(s[i])
    ensures n < |s| ==> !IsDigit(s[n])
  {
    if s != [] && IsDigit(s[0]) then 1 + DigitRun(s[1..]) else 0
  }

  predicate AllDigits(s: string) {
    forall i :: 0 <= i < |s| ==> IsDigit(s[i])
  }

  /** The value of a string of decimal digits, most significant first. */
  function DigitsValue(s: string): nat
    requires AllDigits(s)
  {
    if s == [] then 0 else 10 * DigitsValue(s[..|s| - 1]) + DigitValue(s[|s| - 1])
  }

  function Pow10(n: nat): (r: nat)
    ensures r >= 1
  {
    if n == 0 then 1 else 10 * Pow10(n - 1)
  }

  /** The length of the digits, optional point and optional fraction digits at the
      start of `s` (0 digits before the point are allowed; at least one digit overall
      is the caller's business). */
  function MantissaLength(s: string): (n: nat)
    ensures n <= |s|
  {
    var a := DigitRun(s);
    if a < |s| && s[a] == '.' then a + 1 + DigitRun(s[a + 1..]) else a
  }

  /** The length of an exponent `e [+|-] digits` at the start of `s`, or 0 if there is none. */
  function ExponentLength(s: string): (n: nat)
    ensures n <= |s|
    ensures n == 0 || n >= 2
    ensures n > 0 ==> |s| >= 2 && s[0] == 'e'
  {
    if s != [] && s[0] == 'e' then
      var k := if |s| > 1 && (s[1] == '+' || s[1] == '-') then 2 else 1;
      var d := DigitRun(s[k..]);
      if d > 0 then k + d else 0
    else 0
  }

  /** The length of the numeral the pattern matches at the start of `s`, or 0 if the
      first alternatives all fail there. */
  function NumeralLength(s: string): (n: nat)
    ensures n <= |s|
    ensures n > 0 ==> IsDigit(s[0]) || (|s| >= 2 && s[0] == '.' && IsDigit(s[1]))
  {
    if s != [] && IsDigit(s[0]) then
      var m := MantissaLength(s);
      m + ExponentLength(s[m..])
    else if |s| >= 2 && s[0] == '.' && IsDigit(s[1]) then
      1 + DigitRun(s[1..])
    else 0
  }

  /** The value of `digits [. digits]` at the start of `s`. */
  function MantissaValue(s: string): real {
    var a := DigitRun(s);
    var m := MantissaLength(s);
    var whole := DigitsValue(s[..a]) as real;
    if m > a then whole + DigitsValue(s[a + 1..m]) as real / Pow10(m - a - 1) as real else whole
  }

  /** The signed power of ten an exponent `e [+|-] digits` at the start of `s` stands for. */
  function ExponentValue(s: string): int
    requires ExponentLength(s) > 0
  {
    var k := if s[1] == '+' || s[1] == '-' then 2 else 1;
    var digits := s[k..][..DigitRun(s[k..])];
    var d := DigitsValue(digits) as int;
    if s[1] == '-' then -d else d
  }

  /** `v` times 10 to the power `e`. */
  function Scale10(v: real, e: int): real {
    if e < 0 then v / Pow10(-e) as real else v * Pow10(e) as real
  }

  /** The exact value `parseFloat` approximates for a numeral `digits [. digits] [e [+|-] digits]`. */
  function NumeralValue(s: string): real {
    var m := MantissaLength(s);
    if ExponentLength(s[m..]) == 0 then MantissaValue(s)
    else Scale10(MantissaValue(s), ExponentValue(s[m..]))
  }

  /** The global match: every token in order, line terminators skipped. */
  function Tokenize(s: string): seq<Token>
    decreases |s|
  {
    if s == [] then []
    else if IsLineTerminator(s[0]) then Tokenize(s[1..])
    else
      var n := NumeralLength(s);
      if n == 0 then [Ch(s[0])] + Tokenize(s[1..])
      else [Num(NumeralValue(s[..n]))] + Tokenize(s[n..])
  }

  /** A digit run stops exactly where the digits stop. */
  lemma {:induction false} DigitRunOfDigits(ds: string, rest: string)
    requires AllDigits(ds)
    requires rest == [] || !IsDigit(rest[0])
    ensures DigitRun(ds + rest) == |ds|
    decreases |ds|
  {
    if ds == [] {
      assert ds + rest == rest;
    } else {
      assert (ds + rest)[1..] == ds[1..] + rest;
      DigitRunOfDigits(ds[1..], rest);
    }
  }

  /** A run of digits followed by anything that cannot continue a numeral (no digit,
      point or exponent letter) is one numeral token with the digits' value. */
  lemma LexDigits(ds: string, rest: string)
    requires ds != [] && AllDigits(ds)
    requires rest == [] || (!IsDigit(rest[0]) && rest[0] != '.' && rest[0] != 'e')
    ensures Tokenize(ds + rest) == [Num(DigitsValue(ds) as real)] + Tokenize(rest)
  {
    var s := ds + rest;
    DigitRunOfDigits(ds, rest);
    DigitRunOfDigits(ds, []);
    assert ds + [] == ds;
    assert s[..|ds|] == ds && s[|ds|..] == rest;
    assert ds[|ds|..] == [];
    assert MantissaLength(ds) == |ds|;
    assert MantissaLength(s) == |ds|;
    assert NumeralLength(s) == |ds|;
    assert NumeralValue(ds) == DigitsValue(ds) as real;
  }

  /** A character that starts no numeral (and is no line terminator) is a token of its own. */
  lemma LexChar(c: char, rest: string)
    requires !IsDigit(c) && !IsLineTerminator(c)
    requires c == '.' ==> rest == [] || !IsDigit(rest[0])
    ensures Tokenize([c] + rest) == [Ch(c)] + Tokenize(rest)
  {
    assert ([c] + rest)[1..] == rest;
  }

  /** A character that never starts or continues a numeral and is never skipped. */
  predicate Plain(c: char) {
    !IsDigit(c) && !IsLineTerminator(c) && c != '.'
  }

  /** One character token per character. */
  function Chars(cs: string): (r: seq<Token>)
    ensures |r| == |cs|
    ensures forall i :: 0 <= i < |cs| ==> r[i] == Ch(cs[i])
  {
    if cs == [] then [] else [Ch(cs[0])] + Chars(cs[1..])
  }

  /** Plain characters are tokens of their own, whatever follows them. */
  lemma {:induction false} LexPlain(cs: string, rest: string)
    requires forall i :: 0 <= i < |cs| ==> Plain(cs[i])
    ensures Tokenize(cs + rest) == Chars(cs) + Tokenize(rest)
    decreases |cs|
  {
    if cs == [] {
      assert cs + rest == rest;
    } else {
      var tail := cs[1..] + rest;
      assert cs + rest == [cs[0]] + tail;
      assert Plain(cs[0]);
      LexChar(cs[0], tail);
      assert forall i :: 0 <= i < |cs[1..]| ==> Plain(cs[1..][i]);
      LexPlain(cs[1..], rest);
      assert Chars(cs) == [Ch(cs[0])] + Chars(cs[1..]);
    }
  }

  /** The character tokens of one- and three-character strings. */
  lemma CharsOfShort(a: char, b: char, c: char)
    ensures Chars([a]) == [Ch(a)]
    ensures Chars([a, b, c]) == [Ch(a), Ch(b), Ch(c)]
  {
    assert [c][1..] == [] && [a][1..] == [];
    assert Chars([c]) == [Ch(c)];
    assert [b, c][1..] == [c];
    assert Chars([b, c]) == [Ch(b), Ch(c)];
    assert [a, b, c][1..] == [b, c];
  }
}
