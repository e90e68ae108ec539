/** Machine-integer behaviour of the Rust sources that the model relies on:
    the fixed-width ranges, the truncating `as` casts and the signed division
    that rounds toward zero. Values are unbounded `int`s everywhere else. */
module RustInt {

  type u8 = x: int | 0 <= x < 0x100
  type u16 = x: int | 0 <= x < 0x1_0000
  type i16 = x: int | -0x8000 <= x < 0x8000
  type u32 = x: int | 0 <= x < 0x1_0000_0000

  function Abs(x: int): nat
  {
    if x < 0 then -x else x
  }

  /** Rust's `/` on signed integers: the quotient rounded toward zero, so the
      remainder is smaller than the divisor and carries the dividend's sign. */
  function TruncDiv(a: int, b: int): (q: int)
    requires b != 0
    ensures Abs(a - q * b) < Abs(b)
    ensures a - q * b == 0 || ((a - q * b < 0) == (a < 0))
  {
    var qa := Abs(a) / Abs(b);
    var rr := Abs(a) % Abs(b);
    var q := if (a < 0) == (b < 0) then qa else -qa;
    RemainderOfTruncation(a, b, qa, rr, q);
    q
  }

  lemma RemainderOfTruncation(a: int, b: int, qa: int, rr: int, q: int)
    requires b != 0 && Abs(a) == qa * Abs(b) + rr
    requires q == if (a < 0) == (b < 0) then qa else -qa
    ensures a - q * b == if a < 0 then -rr else rr
  {
    var p := qa * Abs(b);
    assert q * b == (if a < 0 then -p else p) by {
      if b < 0 {
        assert qa * b == -p;
      } else {
        assert qa * b == p;
      }
    }
  }

  /** `x as i16`: keeps the low 16 bits and reads them as two's complement.
      The result is congruent to x modulo 2^16 and equals x when x fits. */
  function AsI16(x: int): (r: i16)
    ensures (x - r) % 0x1_0000 == 0
    ensures -0x8000 <= x < 0x8000 ==> r == x
  {
    var low := x % 0x1_0000;
    if low < 0x8000 then low else low - 0x1_0000
  }

  /** `x as u16`: keeps the low 16 bits. */
  function AsU16(x: int): (r: u16)
    ensures (x - r) % 0x1_0000 == 0
    ensures 0 <= x < 0x1_0000 ==> r == x
  {
    x % 0x1_0000
  }
}
