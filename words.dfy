/** Machine words, bytes and the Option wrapper shared by every part of the
    Universal Machine model. */
module Words {

  /** 2^32: every register, segment word and instruction is an unsigned
      32-bit value, and arithmetic wraps modulo this number. */
  const WordModulus: int := 0x1_0000_0000

  /** A `uint32_t`. Kept as a bounded integer so that wrap-around is written
      out explicitly wherever the machine performs it. */
  type Word = x: int | 0 <= x < WordModulus

  /** One byte of console input/output or of the program binary. */
  type Byte = x: int | 0 <= x < 256

  /** The value `fgetc`'s end-of-file result (-1) takes once cast to `uint32_t`. */
  const EndOfInput: Word := 0xFFFF_FFFF

  /** Truncation of a non-negative integer to 32 bits, as a `(uint32_t)` cast does. */
  function ToWord(n: nat): (w: Word)
    ensures n < WordModulus ==> w == n
    ensures (n - w) % WordModulus == 0
  {
    n % WordModulus
  }

  /** Euclidean division by a positive divisor has one quotient and one
      remainder. */
  lemma DivisionUnique(x: int, d: int, q: int, r: int)
    requires 0 < d && 0 <= r < d && x == q * d + r
    ensures x / d == q && x % d == r
  {
    var k := q - x / d;
    assert d * k == x % d - r;
  }

  datatype Option<T> = None | Some(value: T)
}
