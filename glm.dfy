/**
 * The glm value types the engine stores and copies: single-precision floats,
 * 2- and 4-component vectors and column-major 4x4 matrices.
 *
 * A float is represented by its IEEE-754 bit pattern, so that copying a
 * matrix into a byte buffer (as `memcpy` does) is an exact, invertible
 * encoding. No floating-point arithmetic is modelled except negation.
 */
module Glm {

  /** The 32-bit IEEE-754 pattern of a `float`. */
  type Float32 = bv32

  const FLOAT_ZERO: Float32 := 0x0000_0000
  const FLOAT_ONE: Float32 := 0x3F80_0000
  const FLOAT_NEG_ONE: Float32 := 0xBF80_0000
  const SIGN_BIT: Float32 := 0x8000_0000

  /** `x * -1.0f`: for every non-NaN float this flips the sign bit and nothing else. */
  function Negate(x: Float32): (r: Float32)
    ensures r & !SIGN_BIT == x & !SIGN_BIT
    ensures r & SIGN_BIT != x & SIGN_BIT
  {
    x ^ SIGN_BIT
  }

  lemma NegateInvolutive(x: Float32)
    ensures Negate(Negate(x)) == x
  {
  }

  datatype Vec2 = Vec2(x: Float32, y: Float32)

  datatype Vec4 = Vec4(x: Float32, y: Float32, z: Float32, w: Float32)

  /** A `glm::mat4`: four columns; `m[c][r]` is component r of column c. */
  datatype Mat4 = Mat4(c0: Vec4, c1: Vec4, c2: Vec4, c3: Vec4)

  /** `glm::mat4(1.0f)`. */
  function Identity(): Mat4
  {
    Mat4(Vec4(FLOAT_ONE, FLOAT_ZERO, FLOAT_ZERO, FLOAT_ZERO),
         Vec4(FLOAT_ZERO, FLOAT_ONE, FLOAT_ZERO, FLOAT_ZERO),
         Vec4(FLOAT_ZERO, FLOAT_ZERO, FLOAT_ONE, FLOAT_ZERO),
         Vec4(FLOAT_ZERO, FLOAT_ZERO, FLOAT_ZERO, FLOAT_ONE))
  }

  /** A value-initialised `glm::mat4{}`: every entry is +0.0f. */
  function Zero(): Mat4
  {
    var z := Vec4(FLOAT_ZERO, FLOAT_ZERO, FLOAT_ZERO, FLOAT_ZERO);
    Mat4(z, z, z, z)
  }

  /** `m[1][1] *= -1`: negates the y scale of a projection and leaves every other entry alone. */
  function FlipY(m: Mat4): (r: Mat4)
    ensures r.c1.y == Negate(m.c1.y)
    ensures r.c0 == m.c0 && r.c2 == m.c2 && r.c3 == m.c3
    ensures r.c1.x == m.c1.x && r.c1.z == m.c1.z && r.c1.w == m.c1.w
    ensures r != m
  {
    m.(c1 := m.c1.(y := Negate(m.c1.y)))
  }

  /** Flipping twice restores the original matrix. */
  lemma FlipYInvolutive(m: Mat4)
    ensures FlipY(FlipY(m)) == m
  {
  }
}
