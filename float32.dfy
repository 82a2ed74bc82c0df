/** Float-valued settings are kept as their IEEE-754 binary32 bit patterns.
    The settings engine never computes with them: it only compares them with
    each other and with literals, so this module gives the comparisons (the
    order of the real values they denote, with NaN unordered) and the
    literals the engine's guards use, and nothing else. */
module Float32 {

  type Float = v: int | 0 <= v < 0x1_0000_0000

  const SignBit := 0x8000_0000
  /** Bit pattern of +infinity; a larger magnitude with all exponent bits set is a NaN. */
  const InfinityBits := 0x7F80_0000

  predicate IsNaN(f: Float) {
    f % SignBit > InfinityBits
  }

  /** A sign-magnitude key: on non-NaN patterns its order is the order of the
      denoted values (and +0.0 and -0.0 share the key 0). */
  function Key(f: Float): int {
    if f >= SignBit then -(f - SignBit) else f
  }

  /** `a < b` on floats. */
  predicate Lt(a: Float, b: Float) {
    !IsNaN(a) && !IsNaN(b) && Key(a) < Key(b)
  }

  /** `a <= b` on floats. */
  predicate Le(a: Float, b: Float) {
    !IsNaN(a) && !IsNaN(b) && Key(a) <= Key(b)
  }

  /** The two-argument minimum the firmware's math helper takes: the first
      argument when it is smaller, otherwise the second. */
  function Min(a: Float, b: Float): (r: Float)
    ensures r == a || r == b
    ensures !IsNaN(a) && !IsNaN(b) ==> Le(r, a) && Le(r, b)
  {
    if Lt(a, b) then a else b
  }

  // Literals used by the load-time guards (bit patterns of the float values).
  const Zero: Float := 0            // 0.0f
  const F100: Float := 0x42C8_0000   // 100.0f
  const F245: Float := 0x4375_0000   // 245.0f
  const F5540: Float := 0x45AD_2000  // 5540.0f
  const F10000: Float := 0x461C_4000 // 10000.0f

  /** On non-NaN values `<` and `<=` are complementary, as for reals. */
  lemma LtLeComplement(a: Float, b: Float)
    requires !IsNaN(a) && !IsNaN(b)
    ensures Lt(a, b) <==> !Le(b, a)
  {
  }
}
