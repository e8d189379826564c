/** Small types shared by the other modules. */
module Basics {

  datatype Option<+T> = None | Some(value: T)

  /** One octet of an image or of an encoded payload. */
  type Byte = b: int | 0 <= b < 256
  type Bytes = seq<Byte>

  /** A hexadecimal digest. The hash itself is always a parameter: nothing is known about it. */
  type Digest = string
  type Hash = Bytes -> Digest

  function Min(a: int, b: int): int { if a <= b then a else b }
  function Max(a: int, b: int): int { if a >= b then a else b }

  function Pow2(n: nat): (p: nat)
    ensures p > 0
  {
    if n == 0 then 1 else 2 * Pow2(n - 1)
  }

  lemma {:induction false} Pow2Grows(m: nat, n: nat)
    requires m <= n
    ensures Pow2(m) <= Pow2(n)
    decreases n - m
  {
    if m < n { Pow2Grows(m, n - 1); }
  }
}
