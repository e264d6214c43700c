/**
 * The C-level value types the activation code moves between: the unsigned
 * 32-bit register word, the signed `int` field of the deactivated-flags record,
 * the conversions the compiler inserts between them, and a nullable value
 * (a `const char *` that may be a null pointer).
 */
module CTypes {

  const U32_MODULUS: int := 0x1_0000_0000
  const INT32_MIN: int := -0x8000_0000
  const INT32_MAX: int := 0x7fff_ffff

  /** An unsigned 32-bit integer (`u32`). */
  type U32 = x: int | 0 <= x < U32_MODULUS

  /** A signed 32-bit integer (C `int` on the targets the runtime supports). */
  type Int32 = x: int | INT32_MIN <= x <= INT32_MAX

  /** A value or nothing; `None` stands for a null pointer. */
  datatype Option<T> = None | Some(value: T) {
    function GetOr(default: T): T {
      match this
      case Some(v) => v
      case None => default
    }
  }

  /**
   * The implicit conversion from `u32` to `int`: values that fit keep their
   * value, larger ones wrap to the negative value with the same low 32 bits.
   */
  function U32ToInt32(x: U32): (r: Int32)
    ensures x <= INT32_MAX ==> r == x
    ensures x > INT32_MAX ==> r < 0
    ensures (x - r) % U32_MODULUS == 0
  {
    if x <= INT32_MAX then x else x - U32_MODULUS
  }

  /**
   * The implicit conversion from `int` to `u32`: the result is the unique
   * `u32` congruent to the argument modulo 2^32.
   */
  function Int32ToU32(x: Int32): (r: U32)
    ensures 0 <= x ==> r == x
    ensures x < 0 ==> r > INT32_MAX
    ensures (r - x) % U32_MODULUS == 0
  {
    if 0 <= x then x else x + U32_MODULUS
  }

  /** Storing a `u32` into an `int` and back loses nothing. */
  lemma U32RoundTrip(x: U32)
    ensures Int32ToU32(U32ToInt32(x)) == x
  {
  }

  /** Storing an `int` into a `u32` and back loses nothing either. */
  lemma Int32RoundTrip(x: Int32)
    ensures U32ToInt32(Int32ToU32(x)) == x
  {
  }
}
