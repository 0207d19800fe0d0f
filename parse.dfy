/**
 * `parse`: how every operation's arguments become four components. The shapes of
 * arguments it accepts are a tagged union; `Resolve` says what each means, and the
 * method `ParseInto` writes them into an object's fields as the source does.
 */
module Parse {
  import opened Quaternion
  import opened Lexer
  import opened Grammar
  import Algebra

  datatype Option<T> = None | Some(value: T)

  /** The number an omitted argument or a falsy one reads as (`w || 0`). */
  function OrZero(v: Option<real>): real {
    if v.Some? then v.value else 0.0
  }

  /** Who is parsing: the constructor filling a new object, or a binary operation
      filling its shared operand object (the `dest !== P` test). */
  datatype Context = Constructor | Operand

  /** The argument shapes `parse` tells apart, in the order it tests them. */
  datatype Call =
    | Four(w: real, x: real, y: real, z: real)     // a fourth argument is given
    | Record(fields: map<string, real>)            // a non-array object as the first argument
    | List(items: seq<real>)                       // an array as the first argument
    | Text(s: string)                              // a string as the first argument
    | Vector(first: Option<real>, a: real, b: real, c: real)   // (w, [a, b, c]), w possibly omitted
    | Fewer(first: Option<real>, second: Option<real>, third: Option<real>)  // at most three numbers

  /** Whether a record has every one of the given keys. */
  predicate HasKeys(fields: map<string, real>, keys: set<string>) {
    forall k :: k in keys ==> k in fields
  }

  /**
   * The components `parse` produces, or the error it throws:
   *  - four numbers are taken as they are;
   *  - a record with all of w, x, y, z is copied; one with re and im is the complex
   *    number re + im i; any other record is InvalidObject;
   *  - an array of exactly four numbers is (w, x, y, z); any other array is InvalidObject;
   *  - a string is read by the text grammar;
   *  - with no first argument the constructor gives ONE, while an operand's missing
   *    arguments all read as 0;
   *  - otherwise missing arguments read as 0, and an array of three as second argument
   *    is the imaginary part.
   */
  function Resolve(call: Call, ctx: Context): Result<Quat> {
    match call
    case Four(w, x, y, z) => Ok(Quat(w, x, y, z))
    case Record(f) =>
      if HasKeys(f, {"w", "x", "y", "z"}) then Ok(Quat(f["w"], f["x"], f["y"], f["z"]))
      else if HasKeys(f, {"re", "im"}) then Ok(Quat(f["re"], f["im"], 0.0, 0.0))
      else Err(InvalidObject)
    case List(items) =>
      if |items| == 4 then Ok(Quat(items[0], items[1], items[2], items[3])) else Err(InvalidObject)
    case Text(s) => TextToQuat(Tokenize(s))
    case Vector(w, a, b, c) =>
      if w.None? && ctx == Constructor then Ok(ONE) else Ok(Quat(OrZero(w), a, b, c))
    case Fewer(w, x, y) =>
      if w.None? && ctx == Constructor then Ok(ONE) else Ok(Quat(OrZero(w), OrZero(x), OrZero(y), 0.0))
  }

  /** The default rule: a bare constructor gives the identity ONE, a bare operand ZERO. */
  lemma Defaults()
    ensures Resolve(Fewer(None, None, None), Constructor) == Ok(ONE)
    ensures Resolve(Fewer(None, None, None), Operand) == Ok(ZERO)
  {
  }

  /** The context matters exactly when the first argument is omitted: then the constructor
      gives ONE whatever follows, and an operand reads every missing number as 0. */
  lemma ContextMatters(call: Call)
    ensures Resolve(call, Constructor) != Resolve(call, Operand) <==>
      (call.Fewer? || call.Vector?) && call.first.None?
    ensures (call.Fewer? || call.Vector?) && call.first.None? ==>
      Resolve(call, Constructor) == Ok(ONE) && Resolve(call, Operand).value.w == 0.0
  {
  }

  /** Omitted numbers after the first default to 0; `(w, [a, b, c])` and `[w, x, y, z]`
      give the obvious components; `{re, im}` is re + im i. */
  lemma Shapes(w: real, x: real, y: real, z: real, ctx: Context)
    ensures Resolve(Fewer(Some(w), None, None), ctx) == Ok(Quat(w, 0.0, 0.0, 0.0))
    ensures Resolve(Fewer(Some(w), Some(x), None), ctx) == Ok(Quat(w, x, 0.0, 0.0))
    ensures Resolve(Fewer(Some(w), Some(x), Some(y)), ctx) == Ok(Quat(w, x, y, 0.0))
    ensures Resolve(Vector(Some(w), x, y, z), ctx) == Ok(Quat(w, x, y, z))
    ensures Resolve(List([w, x, y, z]), ctx) == Ok(Quat(w, x, y, z))
    ensures Resolve(Record(map["re" := w, "im" := x]), ctx) == Ok(Quat(w, x, 0.0, 0.0))
  {
    var m := map["re" := w, "im" := x];
    assert !("w" in m);
  }

  /** The fields of a quaternion object, as `clone` passes them. */
  function Fields(q: Quat): map<string, real> {
    map["w" := q.w, "x" := q.x, "y" := q.y, "z" := q.z]
  }

  /** A quaternion's own fields, or its `toArray`, parse back to it in either context. */
  lemma FieldsAndArrayRoundTrip(q: Quat, ctx: Context)
    ensures Resolve(Record(Fields(q)), ctx) == Ok(q)
    ensures Resolve(List(Algebra.ToArray(q)), ctx) == Ok(q)
  {
    assert HasKeys(Fields(q), {"w", "x", "y", "z"});
  }

  /** Objects of no recognised shape: a record lacking one of w, x, y, z and one of re, im,
      or an array whose length is not 4 (such as a three-element array on its own). */
  lemma InvalidObjects(f: map<string, real>, items: seq<real>, ctx: Context)
    requires !("w" in f && "x" in f && "y" in f && "z" in f)
    requires !("re" in f && "im" in f)
    requires |items| != 4
    ensures Resolve(Record(f), ctx) == Err(InvalidObject)
    ensures Resolve(List(items), ctx) == Err(InvalidObject)
  {
  }

  /** The object `parse` writes into: a quaternion's four fields. */
  class Target {
    var w: real
    var x: real
    var y: real
    var z: real

    /** The prototype's defaults: a new object reads as ONE until written. */
    constructor()
      ensures Value() == ONE
    {
      w, x, y, z := 1.0, 0.0, 0.0, 0.0;
    }

    function Value(): Quat
      reads this
    {
      Quat(w, x, y, z)
    }

    /** `dest[g] += v`: add to one field. */
    method AddToField(g: Component, v: real)
      modifies this
      ensures Value() == AddTo(old(Value()), g, v)
    {
      match g
      case W => w := w + v;
      case X => x := x + v;
      case Y => y := y + v;
      case Z => z := z + v;
    }
  }

  /** The text path: tokenize, fail on no tokens, zero the fields, then run the token
      loop with one token of lookahead; the result is what the grammar says. */
  method ParseText(dest: Target, s: string) returns (err: Option<Error>)
    modifies dest
    ensures TextToQuat(Tokenize(s)) == if err.None? then Ok(dest.Value()) else Err(err.value)
  {
    var tokens := Tokenize(s);
    var plus: nat, minus: nat := 1, 0;
    if tokens == [] {
      return Some(ParseError);
    }
    dest.w, dest.x, dest.y, dest.z := 0.0, 0.0, 0.0, 0.0;
    var i := 0;
    while i < |tokens|
      invariant 0 <= i <= |tokens|
      invariant Walk(tokens[i..], plus, minus, dest.Value()) == TextToQuat(tokens)
    {
      var c := tokens[i];
      assert tokens[i..][1..] == tokens[i + 1..];
      if IsBlank(c) {
      } else if c == Ch('+') {
        plus := plus + 1;
      } else if c == Ch('-') {
        minus := minus + 1;
      } else {
        if plus + minus == 0 {
          return Some(ParseError);
        }
        var g: Component, v: real;
        if IsUnit(c) {
          g := UnitComponent(c);
          if i + 1 < |tokens| && tokens[i + 1].Num? {
            v := tokens[i + 1].v;
            assert tokens[i..][2..] == tokens[i + 2..];
            i := i + 1;
          } else {
            v := 1.0;
          }
        } else {
          if c.Ch? {
            return Some(ParserError);
          }
          v := c.v;
          if i + 1 < |tokens| && IsUnit(tokens[i + 1]) {
            g := UnitComponent(tokens[i + 1]);
            assert tokens[i..][2..] == tokens[i + 2..];
            i := i + 1;
          } else {
            g := W;
          }
        }
        dest.AddToField(g, Signed(minus, v));
        plus, minus := 0, 0;
      }
      i := i + 1;
    }
    if plus + minus > 0 {
      return Some(ParserError);
    }
    return None;
  }

  /** `parse(dest, w, x, y, z)`: write the components the arguments stand for into `dest`,
      or report the error it throws. */
  method ParseInto(dest: Target, call: Call, ctx: Context) returns (err: Option<Error>)
    modifies dest
    ensures Resolve(call, ctx) == if err.None? then Ok(dest.Value()) else Err(err.value)
  {
    match call
    case Four(w, x, y, z) =>
      dest.w, dest.x, dest.y, dest.z := w, x, y, z;
      return None;
    case Record(f) =>
      if "w" in f && "x" in f && "y" in f && "z" in f {
        dest.w, dest.x, dest.y, dest.z := f["w"], f["x"], f["y"], f["z"];
        return None;
      }
      if "re" in f && "im" in f {
        dest.w, dest.x, dest.y, dest.z := f["re"], f["im"], 0.0, 0.0;
        return None;
      }
      return Some(InvalidObject);
    case List(items) =>
      if |items| == 4 {
        dest.w, dest.x, dest.y, dest.z := items[0], items[1], items[2], items[3];
        return None;
      }
      return Some(InvalidObject);
    case Text(s) =>
      err := ParseText(dest, s);
    case Vector(w, a, b, c) =>
      if w.None? && ctx == Constructor {
        dest.w, dest.x, dest.y, dest.z := 1.0, 0.0, 0.0, 0.0;
      } else {
        dest.w, dest.x, dest.y, dest.z := OrZero(w), a, b, c;
      }
      return None;
    case Fewer(w, x, y) =>
      if w.None? && ctx == Constructor {
        dest.w, dest.x, dest.y, dest.z := 1.0, 0.0, 0.0, 0.0;
      } else {
        dest.w, dest.x, dest.y, dest.z := OrZero(w), OrZero(x), OrZero(y), 0.0;
      }
      return None;
  }

  /** `new Quaternion(...)`: a new object filled by `parse` in the constructor context. */
  method Construct(call: Call) returns (r: Result<Target>)
    ensures r.Ok? ==> fresh(r.value) && Resolve(call, Constructor) == Ok(r.value.Value())
    ensures r.Err? ==> Resolve(call, Constructor) == Err(r.error)
  {
    var t := new Target();
    var err := ParseInto(t, call, Constructor);
    if err.Some? {
      return Err(err.value);
    }
    return Ok(t);
  }

  /** `clone`: a new object built from this one's fields, equal to it. */
  method Clone(q: Target) returns (c: Target)
    ensures fresh(c) && c.Value() == q.Value()
  {
    c := new Target();
    var fields := Fields(q.Value());
    FieldsAndArrayRoundTrip(q.Value(), Constructor);
    var err := ParseInto(c, Record(fields), Constructor);
  }
}
