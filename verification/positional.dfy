/**
  Multi-byte numbers as the 8-bit processors keep them: a sequence of digits, least
  significant first, read in some base (256 for binary bytes, 100 for packed decimal ones).
 */
module Positional {
  import opened Basics

  function Power(base: nat, n: nat): (p: nat)
  {
    if n == 0 then 1 else base * Power(base, n - 1)
  }

  // The number denoted by a sequence of digits, least significant first.
  function Number(digits: seq<nat>, base: nat): (v: nat)
  {
    if digits == [] then 0 else digits[0] + base * Number(digits[1..], base)
  }

  // A carry or borrow as the number the arithmetic adds for it.
  function Bit(b: bool): (v: nat)
    ensures v == 1 <==> b
  {
    if b then 1 else 0
  }

  // Two's complement reading of a byte.
  function Signed(b: Byte): (v: int)
    ensures -128 <= v < 128 && (v - b) % 256 == 0
  {
    if b < 128 then b else b - 256
  }
}
