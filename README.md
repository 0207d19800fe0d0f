# quaternion.js in Dafny

A verified model of the core of quaternion.js, a JavaScript library for quaternion
arithmetic. A quaternion `w + xi + yj + zk` is the datatype `Quaternion.Quat` over `real`.
The model has three parts, as the library does:

- **Input resolution (`parse`).** Every operation first turns its arguments into four
  components. The argument shapes are a tagged union (`Parse.Call`), and `Parse.Resolve`
  says what each means. The constructor and the binary operations differ on omitted
  arguments (`Parse.Context`). The text path is split in three:
  - `Lexer.Tokenize` is the tokenizer regular expression;
  - `Grammar.Walk` is the reference meaning of the token loop;
  - `Parse.ParseText` is that loop, imperative over a `Parse.Target` object whose fields it
    updates in place, proved equal to `Grammar.TextToQuat`.
- **Rendering (`numToStr`, `toString`).** `Render.ToString` appends each component's text
  as the source does, and is proved equal to the reference `Render.Render`. Rendering is
  proved to be a right inverse of parsing: `Render.RenderRoundTrip` shows the printed text
  reads back as the same quaternion.
- **The algebra.** Module `Algebra` covers add, sub, dot, normSq, norm, normalize, the
  Hamilton product, conjugate, inverse, div and equals. Module `Matrix` covers the rotation
  matrices. The proved identities include:
  - associativity of the product;
  - conjugate of a product;
  - two-sided inverse;
  - division as multiplication by the inverse;
  - matrix padding and transposition.

`Examples` and `TextExamples` state the repository's own test vectors over the model.

## Model

| member | source | states |
|---|---|---|
| Algebra.AddSubInverse | quaternion.js:207-240 | `sub` undoes `add` and `add` undoes `sub`; `add` commutes; ZERO is neutral for both; `q - q` is ZERO |
| Algebra.DotProperties | quaternion.js:360-367 | `dot` is symmetric and `dot(q, q)` equals `normSq(q)` |
| Algebra.NormSqZero | quaternion.js:275-290 | `normSq` is 0 exactly at ZERO (its own contract: never negative) |
| Algebra.NormProperties | quaternion.js:257-269 | for a square-root function, `norm` is non-negative, squares to `normSq`, and is 0 exactly at ZERO |
| Algebra.NormSqMulReal | quaternion.js:312-314 | scaling by a real `s` multiplies `normSq` by `s * s` |
| Algebra.NormalizeIsUnit | quaternion.js:297-315 | a nonzero quaternion normalizes to one with `normSq` and `norm` 1; ZERO normalizes to ZERO |
| Algebra.UnitRules | quaternion.js:330-332 | Hamilton's rules: i² = j² = k² = ijk = -1, ij = k = -ji, jk = i = -kj, ki = j = -ik, so the product does not commute |
| Algebra.MulIdentityAndReals | quaternion.js:344-349 | ONE is a two-sided identity; a real operand on either side scales every component; ZERO annihilates on both sides |
| Algebra.MulRealRight | quaternion.js:344-349 | a real factor moves out of the right operand of a product |
| Algebra.MulRealLeft | quaternion.js:344-349 | a real factor moves out of the left operand of a product |
| Algebra.MulAssociative | quaternion.js:344-349 | the product is associative |
| Algebra.ConjugateProperties | quaternion.js:457-459 | conjugation is an involution, and `(Q1 * Q2)' = Q2' * Q1'` |
| Algebra.MulConjugateIsNormSq | quaternion.js:277-282 | `Q * Q'` and `Q' * Q` both equal `[normSq(Q), 0]` |
| Algebra.InverseIsScaledConjugate | quaternion.js:376-398 | for nonzero `normSq`, `inverse` is the conjugate times `1 / normSq` |
| Algebra.InverseIsTwoSided | quaternion.js:379-383 | `Q * Q^-1 = Q^-1 * Q = ONE` for every nonzero Q; ZERO's inverse is ZERO |
| Algebra.InverseOfZero | quaternion.js:392-394 | ZERO's inverse is ZERO, which is also its conjugate |
| Algebra.InverseOfUnit | quaternion.js:449-451 | the inverse of a unit quaternion (or of ZERO) is its conjugate |
| Algebra.InverseOfNormalized | tests/quaternion.test.js:73-75 | after `normalize`, `inverse` and `conjugate` agree, for every quaternion |
| Algebra.DivIsScaledProduct | quaternion.js:425-438 | corrected `div`: for a nonzero divisor it is `Q1 * Q2'` times `1 / normSq(Q2)` |
| Algebra.DivIsMulInverse | quaternion.js:413 | corrected `div` is `Q1 * Q2^-1` for every divisor, ZERO included; multiplying the quotient by a nonzero Q2 on the right gives Q1 back |
| Algebra.DivAsWrittenIsScaledProduct | quaternion.js:425-438 | the source's `div`: for a nonzero divisor it is `Q2' * Q1` times `1 / normSq(Q2)` |
| Algebra.DivAsWrittenIsLeftQuotient | quaternion.js:425-438 | the source's `div` is the left quotient `Q2^-1 * Q1` for every divisor |
| Algebra.DivAsWrittenDiffersOnIJ | quaternion.js:433-438 | on I / J the source's `div` gives K, and `I * J^-1` is -K |
| Algebra.DivAsWrittenAgreesWhenCommuting | quaternion.js:425-438 | when the operands commute, the source's `div` and the corrected one agree |
| Algebra.EqualsProperties | quaternion.js:470-475 | `equals` is reflexive and symmetric; on integer components it holds exactly when the quaternions are equal |
| Matrix.ToMatrix4IsPadded | quaternion.js:544-562 | `toMatrix4` is `toMatrix` with a zero last column and last row and a 1 in the corner |
| Matrix.MatricesOfZero | quaternion.js:528-537 | for ZERO the factor `s` is 0 and both matrices are identities |
| Matrix.MatricesOfOne | quaternion.js:521-538 | ONE gives both identity matrices |
| Matrix.ConjugateTransposes | quaternion.js:453-454 | the conjugate (the opposite rotation) has the transposed matrix |
| Lexer.NumeralLength | quaternion.js:70 | a numeral match starts with a digit, or with a point followed by a digit, and never runs past the input |
| Lexer.ExponentLength | quaternion.js:70 | an exponent match is absent, or starts with `e` and has at least two characters |
| Lexer.LexDigits | quaternion.js:70 | a run of digits that nothing can continue is one numeral token with the digits' value |
| Lexer.LexChar | quaternion.js:70 | a character that starts no numeral and is no line terminator is a token of its own |
| Lexer.LexPlain | quaternion.js:70 | characters that never start a numeral are one token each, whatever follows |
| Grammar.WalkAccumulates | quaternion.js:81-84 | the loop's result is its starting components plus what the terms add: success does not depend on the start, and errors are the same |
| Grammar.TermPairing | quaternion.js:102-129 | with a sign pending, a unit letter followed by a numeral, or a numeral followed by a unit letter, is one term on that unit's component; a unit letter followed by anything else (or by nothing) is 1 on its component; a numeral followed by anything else (or by nothing) goes to `w`; the term is negated by an odd number of `-` and both counters restart at 0 |
| Grammar.TermTokens | quaternion.js:70 | a unit letter and a run of digits, in either order or alone, tokenize as one character token and one numeral token with the digits' value |
| Grammar.TermPairingText | quaternion.js:68-137 | from the text: "i" followed by digits and digits followed by "i" (likewise j, k) both parse to the digits' value on that component; a lone unit letter parses to 1 on it; lone digits parse to that value on `w` |
| Grammar.SignsAreCounted | quaternion.js:91-96 | a run of blanks and signs only adds its `+` and `-` tokens to the counters |
| Grammar.SignedTerm | quaternion.js:128-129 | after a run of signs, the next term is negated exactly when the run holds an odd number of `-` |
| Grammar.TermWithoutSign | quaternion.js:99-101 | a term after another with only blanks between them is ParseError |
| Grammar.UnknownCharacter | quaternion.js:117-119 | with a sign pending, a character that is no blank, sign, unit letter or numeral is ParserError (with no sign pending the earlier check at 99-101 gives ParseError) |
| Grammar.DanglingSign | quaternion.js:134-136 | signs with no term after them are ParserError |
| Grammar.EmptyText | quaternion.js:76-78 | no tokens at all is ParseError; blanks only are ParserError, since the initial `plus = 1` is never used |
| Parse.Defaults | quaternion.js:140-145 | a bare constructor gives ONE, and a bare operand gives ZERO |
| Parse.ContextMatters | quaternion.js:141-158 | constructor and operand differ exactly when the first argument is omitted; then the constructor gives ONE and the operand's real part is 0 |
| Parse.Shapes | quaternion.js:146-158 | omitted numbers default to 0; `(w, [a, b, c])`, `[w, x, y, z]` and `{re, im}` give the expected components |
| Algebra.ToArray | quaternion.js:511-514 | four entries, w, x, y, z in that order: a quaternion built from them is the original |
| Parse.FieldsAndArrayRoundTrip | quaternion.js:39-62 | a quaternion's own fields and its `toArray` parse back to it in either context |
| Parse.InvalidObjects | quaternion.js:56-64 | a record with neither all of w, x, y, z nor both of re, im, and an array whose length is not 4, are InvalidObject |
| Parse.Target.constructor | quaternion.js:193-197 | a new object reads as ONE, the prototype's defaults |
| Parse.Target.AddToField | quaternion.js:128 | `dest[g] += v` adds `v` to one field and leaves the others |
| Parse.ParseText | quaternion.js:67-138 | the token loop ends with the components or the error that `TextToQuat` of the tokens gives |
| Parse.ParseInto | quaternion.js:25-160 | `parse` writes the components `Resolve` gives, or reports its error |
| Parse.Construct | quaternion.js:184-191 | `new Quaternion(...)` is a fresh object holding what `Resolve` gives in the constructor context, or the thrown error |
| Parse.Clone | quaternion.js:568-571 | `clone` is a fresh object with equal components |
| Render.Digits | quaternion.js:177 | the decimal digits of `n`: non-empty, all digits, reading back as `n`, and with no leading zero (only 0 itself starts with "0") |
| Render.Terms | quaternion.js:166 | the terms printed are nonzero and carry one of the units "", i, j, k |
| Render.NumToStrIsPiece | quaternion.js:162-182 | `numToStr` prints nothing for 0, else the term's sign, its magnitude (left out for a magnitude of 1 on a unit letter) and its unit; the sign is " - "/" + " after earlier text and a bare "-" at the start |
| Render.PieceNonEmpty | quaternion.js:166-180 | a nonzero term always prints something |
| Render.JoinAppend | quaternion.js:496-499 | appending a term's text extends the joined text by that term's piece |
| Render.JoinEmpty | quaternion.js:501-502 | the joined text is empty exactly when every component is 0 |
| Render.ToStringStep | quaternion.js:496-499 | each append builds the join of the nonzero terms so far |
| Render.ToStringIsRender | quaternion.js:496-504 | the four appends and the "0" fallback give the reference text |
| Render.ToString | quaternion.js:481-505 | `toString` of an integer quaternion returns the reference text |
| Render.LexPiece | quaternion.js:166-181 | a printed term tokenizes into its sign characters, its numeral and its unit letter |
| Render.WalkPiece | quaternion.js:86-129 | reading a printed term's tokens adds its value to its component and resets the counters |
| Render.JoinRoundTrip | quaternion.js:86-136 | reading the joined text adds every term in turn and ends without error |
| Render.TermsSumToQuat | quaternion.js:166 | the printed terms of an integer quaternion add up to it, the omitted ones being 0 |
| Render.ZeroRoundTrip | quaternion.js:501-502 | "0" reads back as ZERO |
| Render.RenderRoundTrip | quaternion.js:481-505 | the text `toString` prints for an integer quaternion parses back to the same quaternion |
| Examples.AddSubVectors | tests/quaternion.test.js:37-52 | all twelve of the test suite's `add` and `sub` results |
| Examples.MetricVectors | tests/quaternion.test.js:57-68 | `normSq(1,2,3,4) = 30`, `dot` 70, the conjugate, and the inverse `(1, -2, -3, -4) / 30` |
| Examples.MulVectors | tests/quaternion.test.js:95-99 | the test suite's products, including scaling by a real on either side and (1,1,1,1)·(2,2,2,2) = (-4,4,4,4) |
| Examples.ComplexQuotient | quaternion.js:425-438 | on complex numbers (y = z = 0) both `div` formulas are complex division |
| Examples.DivVectors | tests/quaternion.test.js:109-114 | all of the test suite's quotients, each by the corrected formula and by the source's |
| Examples.EqualsVectors | tests/quaternion.test.js:80-84 | `equals` holds for equal components and fails when one component is off by one |
| TextExamples.RenderVectors | tests/quaternion.test.js:27-32 | the texts "-13 + 55i - j - 5k", "1 + i + j - k" and "0" |
| TextExamples.ParseVectors | tests/quaternion.test.js:31-32 | the texts "-13 + 55i - j - 5k" and "1 + i + j - k" parse to (-13, 55, -1, -5) and (1, 1, 1, -1) |
| TextExamples.SumAndDifference | tests/quaternion.test.js:28-29 | "1+1" is 2 and "1-1" is 0 |
| TextExamples.SpacedTerms | tests/quaternion.test.js:32 | the tokens of " -  13 + 55i - 1j - 5k" sum to (-13, 55, -1, -5) |
| TextExamples.NoSignVector | quaternion.js:99-101 | "55 i" is ParseError |

## Left out

- `neg` (quaternion.js:246-251) reads `this.s`, a property that does not exist. Its real part is therefore NaN, and the model has no NaN, so `neg` is not modelled. `Algebra.Negate` is only a helper for stating results and does not stand for `neg`.
- `scale` is used by the test suite but not defined in the library, so it is not modelled.
- `setFromAxisAngle` and `setFromEuler` rest on `Math.sin` and `Math.cos`, so they are not modelled.
- The module export wiring is packaging and is not modelled.
- Numbers are exact reals. The model does not capture:
  - IEEE-754 rounding, overflow to Infinity, or NaN;
  - rounding in `parseFloat`, which becomes the exact value of the decimal numeral (`Lexer.NumeralValue`);
  - the decimal text the source prints for non-integer results, such as the inverse vector at tests/quaternion.test.js:63.
- `Math.sqrt` is a function parameter of `Algebra.Norm` and `Algebra.Normalize`. Lemmas about them require it to be the non-negative square root.
- The shared scratch object `P` that binary operations parse into is not modelled. Operands are resolved values. Its one observable effect, the zero-versus-identity default rule, is the `Parse.Context` parameter.
- JavaScript argument coercions are not modelled. Arguments are numbers, records of numbers, arrays of numbers or strings. The model does not capture:
  - `null` (a TypeError in the source);
  - objects with their own `length` property;
  - non-numeric elements;
  - `w || 0` turning NaN into 0.
- Whitespace coercion in the text loop differs from the source in three cases:
  - After a unit letter, the source's `isNaN` test accepts a tab token, or any other whitespace character other than a space, as a number (JavaScript reads it as 0), and `parseFloat` then adds NaN to the unit's component. The model takes only a numeral token as a coefficient and uses 1 otherwise. The model then skips a tab, and reports ParseError for any other such character, since no sign is pending after a term. A newline is never a token: the pattern's `.` does not match line terminators, and the tokenizer skips them (`Lexer.IsLineTerminator`).
  - Where a term may start with a sign pending, a vertical tab, form feed, no-break space or other whitespace character passes the source's `isNaN` test and adds NaN (to `w`, or to the unit letter right after it). The model reports ParserError there. With no sign pending, the source and the model both report ParseError, since that check comes first.
  - The error text of `'Parse error' + c` is reduced to the error kind.
- The state of the object after a thrown error is left unspecified: `Parse.ParseInto` states only the result on success.
- Render.ToString: its contract covers only integer components of magnitude at most 2^53 (`Render.Renderable`), the integers JavaScript prints as their exact digits. Larger integers print as the shortest digits that read back as the same double, padded with zeros (2^64 prints as "18446744073709552000"); that conversion is not modelled. The "NaN" output for a NaN component is not modelled.
- TextExamples.SpacedTerms: it is stated over the token list. That the tokenizer turns the text " -  13 + 55i - 1j - 5k" into those tokens is covered only by the general lemmas `Lexer.LexDigits`, `Lexer.LexChar` and `Lexer.LexPlain`.
- "1+ i +j - k" at tests/quaternion.test.js:31 is not stated as a literal vector. Its value follows from the grammar lemmas, and `TextExamples.ParseVectors` covers the text it renders to.
- Where the source and its documentation disagree, the model follows the code:
  - A record must have all of `w`, `x`, `y`, `z` to be read as a quaternion (quaternion.js:39).
  - A three-element array on its own is InvalidObject (quaternion.js:57-64).
  - `normalize` tests `norm === 0`, not a tolerance (quaternion.js:308).

## Findings

| source | as written | input that shows it | evidently intended | confidence | as-written member | corrected member |
|---|---|---|---|---|---|---|
| quaternion.js:433-438 | `div` flips the signs of the three cross-product terms, so it computes `Q2^-1 * Q1` | `I.div(J)` yields K, while `I * J^-1` is -K | `Q1 / Q2 := Q1 * Q2^-1`, as the comment at quaternion.js:413 defines it | not executed; follows from the formulas, and the test suite's divisions all commute, so it does not see the difference | Algebra.DivAsWrittenIsLeftQuotient, Algebra.DivAsWrittenDiffersOnIJ | Algebra.DivIsMulInverse |
