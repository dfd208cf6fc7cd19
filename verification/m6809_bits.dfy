/**
  Facts about thirty-two-bit words with no function in sight: what the carry and overflow
  formulas of the 6809 core come to, in terms of the lower bits of the words.
 */
module M6809Bits {

  // ---------- overflow ----------

  lemma SumOut8(x: bv32, y: bv32, c: bv32)
    requires c == 0 || c == 1
    ensures ((((!(x ^ y)) & (x ^ (x + y + c))) >> 7) & 1 == 1)
            <==> (((x & 0xff) ^ 0x80) - 0x80) + (((y & 0xff) ^ 0x80) - 0x80) + c != ((((x + y + c) & 0xff) ^ 0x80) - 0x80)
  {
  }

  lemma SumOut16(x: bv32, y: bv32, r: bv32, a: bv32, b: bv32, q: bv32)
    requires r == x + y && a == x >> 8 && b == y >> 8 && q == r >> 8
    ensures (((!(a ^ b)) & (a ^ q)) >> 7) & 1 == 1
            <==> (((x & 0xffff) ^ 0x8000) - 0x8000) + (((y & 0xffff) ^ 0x8000) - 0x8000) != ((((x + y) & 0xffff) ^ 0x8000) - 0x8000)
  {
  }

  lemma SignsDiffer8(x: bv32, y: bv32, ny: bv32, r: bv32)
    requires ny == !y
    ensures (((!(x ^ ny)) & (x ^ r)) >> 7) & 1 == (((x ^ y) & (x ^ r)) >> 7) & 1
  {
  }

  lemma DifferenceBits8(x: bv32, y: bv32, r: bv32)
    requires x == r + y
    ensures (((x ^ y) & (x ^ r)) >> 7) & 1 == 1
            <==> (((x & 0xff) ^ 0x80) - 0x80) != (((y & 0xff) ^ 0x80) - 0x80) + (((r & 0xff) ^ 0x80) - 0x80)
  {
  }

  lemma DifferenceBits8Borrow(x: bv32, y: bv32, r: bv32)
    requires x == r + y + 1
    ensures (((x ^ y) & (x ^ r)) >> 7) & 1 == 1
            <==> (((x & 0xff) ^ 0x80) - 0x80) != (((y & 0xff) ^ 0x80) - 0x80) + (((r & 0xff) ^ 0x80) - 0x80) + 1
  {
  }

  lemma SignsDiffer16(x: bv32, y: bv32, r: bv32, a: bv32, nb: bv32, q: bv32)
    requires a == x >> 8 && nb == (!y) >> 8 && q == r >> 8
    ensures (((!(a ^ nb)) & (a ^ q)) >> 7) & 1 == (((x ^ y) & (x ^ r)) >> 15) & 1
  {
  }

  lemma DifferenceBits16(x: bv32, y: bv32, r: bv32)
    requires x == r + y
    ensures (((x ^ y) & (x ^ r)) >> 15) & 1 == 1
            <==> (((x & 0xffff) ^ 0x8000) - 0x8000) != (((y & 0xffff) ^ 0x8000) - 0x8000) + (((r & 0xffff) ^ 0x8000) - 0x8000)
  {
  }

  // ---------- carries of words ----------

  lemma Exceeds16(x: bv32, y: bv32, r: bv32, a: bv32, b: bv32, q: bv32)
    requires r == x + y && a == x >> 8 && b == y >> 8 && q == r >> 8
    ensures (((((a | b) & !q) | (a & b)) >> 7) & 1 == 1) <==> (x & 0xffff) + (y & 0xffff) > 0xffff
  {
  }

  // A borrow, half by half.
  lemma ByHalves(x: bv32, y: bv32)
    ensures (x & 0xffff) < (y & 0xffff)
            <==> (((x >> 8) & 0xff) < ((y >> 8) & 0xff) || (((x >> 8) & 0xff) == ((y >> 8) & 0xff) && (x & 0xff) < (y & 0xff)))
  {
  }

  lemma HighHalfBorrows(x: bv32, y: bv32)
    requires (x & 0xff) < (y & 0xff)
    ensures ((x - y) >> 8) & 0xff == ((x >> 8) - (y >> 8) - 1) & 0xff
  {
  }

  lemma HighHalf(x: bv32, y: bv32)
    requires !((x & 0xff) < (y & 0xff))
    ensures ((x - y) >> 8) & 0xff == ((x >> 8) - (y >> 8)) & 0xff
  {
  }

  lemma ComplementHigh(y: bv32)
    ensures ((!y) >> 8) & 0xff == (!(y >> 8)) & 0xff
  {
  }

  // ---------- comparisons ----------

  // Sign and overflow together say which of two bytes is less as a signed number.
  lemma SignedLess8(x: bv32, y: bv32, r: bv32)
    requires r == x - y
    ensures ((r >> 7) & 1) != ((((x ^ y) & (x ^ r)) >> 7) & 1) <==> ((x & 0xff) ^ 0x80) < ((y & 0xff) ^ 0x80)
  {
  }

  lemma NothingLeft8(x: bv32, y: bv32)
    ensures (x - y) & 0xff == 0 <==> x & 0xff == y & 0xff
  {
  }

  lemma NothingLeft16(x: bv32, y: bv32)
    ensures (x - y) & 0xffff == 0 <==> x & 0xffff == y & 0xffff
  {
  }

  // ---------- the lower bits of a result come from the lower bits of its operands ----------

  lemma AddSame8(x: bv32, x': bv32, y: bv32, y': bv32, c: bv32)
    requires x & 0xff == x' & 0xff && y & 0xff == y' & 0xff
    ensures (x + y + c) & 0xff == (x' + y' + c) & 0xff
  {
  }

  lemma AddSame16(x: bv32, x': bv32, y: bv32, y': bv32, c: bv32)
    requires x & 0xffff == x' & 0xffff && y & 0xffff == y' & 0xffff
    ensures (x + y + c) & 0xffff == (x' + y' + c) & 0xffff
  {
  }

  lemma SubtractSame8(x: bv32, x': bv32, y: bv32, y': bv32)
    requires x & 0xff == x' & 0xff && y & 0xff == y' & 0xff
    ensures (x + !y + 1) & 0xff == (x' + !y' + 1) & 0xff
  {
  }

  lemma SubtractSame8Borrow(x: bv32, x': bv32, y: bv32, y': bv32)
    requires x & 0xff == x' & 0xff && y & 0xff == y' & 0xff
    ensures (x + !y + 0) & 0xff == (x' + !y' + 0) & 0xff
  {
  }

  lemma SubtractFrom16(x: bv32, x': bv32, y: bv32)
    requires x & 0xffff == x' & 0xffff
    ensures (x - y) & 0xffff == (x' - y) & 0xffff
  {
  }

  lemma SubtractOf16(x: bv32, y: bv32, y': bv32)
    requires y & 0xffff == y' & 0xffff
    ensures (x - y) & 0xffff == (x - y') & 0xffff
  {
  }

  lemma AddComplementTo16(x: bv32, x': bv32, y: bv32)
    requires x & 0xffff == x' & 0xffff
    ensures (x + !y + 1) & 0xffff == (x' + !y + 1) & 0xffff
  {
  }

  lemma AddComplementOf16(x: bv32, y: bv32, y': bv32)
    requires y & 0xffff == y' & 0xffff
    ensures (x + !y + 1) & 0xffff == (x + !y' + 1) & 0xffff
  {
  }

  lemma NotSame16(x: bv32, x': bv32)
    requires x & 0xffff == x' & 0xffff
    ensures !x & 0xffff == !x' & 0xffff
  {
  }

  lemma JoinSame(x: bv32, x': bv32, y: bv32, y': bv32)
    requires x & 0xff == x' & 0xff && y & 0xff == y' & 0xff
    ensures ((x << 8) | (y & 0xff)) & 0xffff == ((x' << 8) | (y' & 0xff)) & 0xffff
  {
  }
}
