/** Unsigned 64-bit integers, the width of every value the aspect keeps in its state. */
module U64 {

  /** 2^64 */
  const Modulus: int := 0x1_0000_0000_0000_0000

  type u64 = x: int | 0 <= x < Modulus

  /** The value a u64 holds after an integer result `x` is truncated to 64 bits
      (AssemblyScript arithmetic on u64 wraps around modulo 2^64). */
  function Wrap(x: int): (r: u64)
    ensures 0 <= x < Modulus ==> r == x
    ensures (r - x) % Modulus == 0
  {
    x % Modulus
  }
}
