/**
 * Numeric helpers shared by the gateway: the 32-bit unsigned clock of `millis()`
 * and the unit conversions (`convertCtoF`, `convertFtoC`, `convertToPlato`),
 * which live in helper files of the firmware and are modelled here with exact
 * real arithmetic.
 */
module Units {
  const TWO_32: int := 0x1_0000_0000

  /** Values of a C `uint32_t`, e.g. timestamps returned by `millis()`. */
  type u32 = x: int | 0 <= x < 0x1_0000_0000

  /** Values of a C `int` on the target (32 bits). */
  type i32 = x: int | -0x8000_0000 <= x < 0x8000_0000

  /**
   * The value a 32-bit `int` takes when C's usual arithmetic conversions
   * compare it with a `uint32_t`: it is reinterpreted modulo 2^32.
   */
  function ToUnsigned(x: i32): (r: u32)
    ensures (r - x) % TWO_32 == 0
  {
    if x < 0 then x + TWO_32 else x
  }

  /** The conversion is well defined: only one `uint32_t` value is congruent to `x` modulo 2^32. */
  lemma ToUnsignedUnique(x: i32, y: u32)
    requires (y - x) % TWO_32 == 0
    ensures y == ToUnsigned(x)
  {
  }

  /** Celsius to Fahrenheit. */
  function CtoF(c: real): real { c * 9.0 / 5.0 + 32.0 }

  /** Fahrenheit to Celsius. */
  function FtoC(f: real): real { (f - 32.0) * 5.0 / 9.0 }

  /** Coefficients of the Plato polynomial, constant term first. */
  const PLATO_COEFFICIENTS: seq<real> := [-616.868, 1111.14, -630.272, 135.997]

  /**
   * The polynomial with coefficients `c` (constant term first) at `x`, by
   * Horner's rule: `acc` holds the value of the higher terms already folded.
   */
  function Horner(c: seq<real>, x: real, acc: real): real
    decreases |c|
  {
    if c == [] then acc else Horner(c[..|c| - 1], x, acc * x + c[|c| - 1])
  }

  /** Specific gravity to degrees Plato (a cubic polynomial in the gravity). */
  function ToPlato(sg: real): real
  {
    Horner(PLATO_COEFFICIENTS, sg, 0.0)
  }

  /** Horner's rule gives the usual expanded cubic. */
  lemma PlatoCubic(sg: real)
    ensures ToPlato(sg) == -616.868 + 1111.14 * sg - 630.272 * sg * sg + 135.997 * sg * sg * sg
  {
    var c := PLATO_COEFFICIENTS;
    assert c[..3] == [-616.868, 1111.14, -630.272];
    assert c[..3][..2] == [-616.868, 1111.14];
    assert c[..3][..2][..1] == [-616.868];
    assert c[..3][..2][..1][..0] == [];
    var a3 := 0.0 * sg + 135.997;
    var a2 := a3 * sg - 630.272;
    var a1 := a2 * sg + 1111.14;
    var a0 := a1 * sg - 616.868;
    assert ToPlato(sg) == Horner(c[..3], sg, a3);
    assert Horner(c[..3], sg, a3) == Horner(c[..3][..2], sg, a2);
    assert Horner(c[..3][..2], sg, a2) == Horner(c[..3][..2][..1], sg, a1);
    assert Horner(c[..3][..2][..1], sg, a1) == a0;
  }

  /** The two temperature conversions are inverse to each other. */
  lemma CtoFRoundTrip(c: real)
    ensures FtoC(CtoF(c)) == c
  {
  }
}
