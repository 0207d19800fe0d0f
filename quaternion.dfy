/** The quaternion value `w + xi + yj + zk` and the errors its constructor can raise. */
module Quaternion {

  /** A quaternion: real part `w`, imaginary parts `x`, `y`, `z` (IEEE doubles in the source, reals here). */
  datatype Quat = Quat(w: real, x: real, y: real, z: real)

  /** The additive identity. */
  const ZERO := Quat(0.0, 0.0, 0.0, 0.0)
  /** The multiplicative identity. */
  const ONE := Quat(1.0, 0.0, 0.0, 0.0)
  /** The three imaginary units. */
  const I := Quat(0.0, 1.0, 0.0, 0.0)
  const J := Quat(0.0, 0.0, 1.0, 0.0)
  const K := Quat(0.0, 0.0, 0.0, 1.0)

  /** The tolerance used by `equals`. */
  const EPSILON: real := 1e-16

  /** The four string exceptions `parse` throws. */
  datatype Error =
    | InvalidObject   // 'Invalid object': an object of no recognised shape
    | ParseError      // 'Parse error': no tokens at all, or a term with no sign before it
    | ParserError     // 'Parser error': an unknown token, or a sign with no term after it

  datatype Result<T> = Ok(value: T) | Err(error: Error)

  /** Which of the four components a term or an update goes to. */
  datatype Component = W | X | Y | Z

  /** `q` with `v` added to one component, as `dest[g] += v` does. */
  function AddTo(q: Quat, c: Component, v: real): Quat {
    match c
    case W => q.(w := q.w + v)
    case X => q.(x := q.x + v)
    case Y => q.(y := q.y + v)
    case Z => q.(z := q.z + v)
  }

  /** Whether every component is an integer (the renderer's domain). */
  predicate IsIntegral(q: Quat) {
    q.w == q.w.Floor as real && q.x == q.x.Floor as real &&
    q.y == q.y.Floor as real && q.z == q.z.Floor as real
  }
}
