/** Small value types shared by the whole model: optional values, error-carrying
    results, and the fixed-width integer types the Rust source works with. */
module Prelude {

  datatype Option<+T> = None | Some(value: T)

  /** The source's `Result<T, JsValue>`; the error side is the message text. */
  datatype Result<+T> = Success(value: T) | Failure(error: string)

  /** The source's `Result<(), JsValue>`. */
  datatype Outcome = Pass | Fail(error: string)

  type u8 = x: int | 0 <= x < 0x100
  type u16 = x: int | 0 <= x < 0x1_0000
  type u32 = x: int | 0 <= x < 0x1_0000_0000
  type i32 = x: int | -0x8000_0000 <= x < 0x8000_0000

  /** An IEEE-754 single-precision value, kept as its bit pattern: the model
      copies such values into buffers and never computes with them. */
  type f32 = bv32

  const TWO_TO_32: int := 0x1_0000_0000

  /** Rust's `x as u32` on an `i32`: the same 32 bits read as unsigned. */
  function I32AsU32(x: i32): (r: u32)
    ensures (r - x) % TWO_TO_32 == 0
    ensures x >= 0 ==> r == x
  {
    if x < 0 then x + TWO_TO_32 else x
  }

  /** Rust's `x as i32` on a `u32`: the same 32 bits read as two's complement. */
  function U32AsI32(x: u32): (r: i32)
    ensures (r - x) % TWO_TO_32 == 0
    ensures x < 0x8000_0000 ==> r == x
  {
    if x < 0x8000_0000 then x else x - TWO_TO_32
  }

  /** The reinterpretation loses nothing, in both directions. */
  lemma ReinterpretRoundTrip(x: i32, y: u32)
    ensures U32AsI32(I32AsU32(x)) == x
    ensures I32AsU32(U32AsI32(y)) == y
  {
  }

  /** The driver's "not found" location, -1, becomes the largest `u32`. */
  lemma NotFoundAsU32()
    ensures I32AsU32(-1) == 0xFFFF_FFFF
  {
  }
}
