/** Machine integers and exact ratios used by the spritesheet model. */
module Num {

  const U32_LIMIT: int := 0x1_0000_0000

  /** Rust `u32`. */
  type U32 = x: int | 0 <= x < U32_LIMIT

  /** Rust `NonZeroU32`. */
  type NonZeroU32 = x: int | 0 < x < U32_LIMIT witness 1

  /** The `as u32` cast from `usize`: keeps the low 32 bits. */
  function AsU32(n: nat): (r: U32)
    ensures n < U32_LIMIT ==> r == n
    ensures r <= n
  {
    n % U32_LIMIT
  }

  /** An exact fraction `num / den`; stands for the `f32` quotient
      `num as f32 / den as f32` without rounding. */
  datatype Ratio = Ratio(num: nat, den: nat)
  {
    /** The fraction is a well-defined number. */
    predicate Defined() { den > 0 }

    predicate IsZero() { num == 0 }

    /** Strictly below one. */
    predicate BelowOne() { num < den }

    /** `this < other` as numbers, by cross-multiplication. */
    predicate Less(other: Ratio) { num * other.den < other.num * den }
  }
}
