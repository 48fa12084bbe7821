/**
 The bit operations of the encoder and the decoder, on bytes as bit vectors: they are the quotients, remainders and
 sums that stand for them in Base64. C computes them in an int and keeps the low eight bits, as a shift
 of a bit vector of that width does.
 */
module Base64Bits {
  import opened Base64

  lemma ShiftRight(x: bv8)
    ensures (x >> 2) as int == x as int / 4 && (x >> 4) as int == x as int / 16 && (x >> 6) as int == x as int / 64
  {
  }

  lemma LowTwo(x: bv8)
    ensures (x & 3) as int == x as int % 4
  {
  }

  lemma LowFour(x: bv8)
    ensures (x & 15) as int == x as int % 16
  {
  }

  lemma LowSix(x: bv8)
    ensures (x & 63) as int == x as int % 64
  {
  }

  lemma HighBit(x: bv8)
    ensures x & 0x80 == 0 <==> x as int / 128 % 2 == 0
  {
  }

  lemma ShiftLeft(x: bv8)
    ensures (x << 2) as int == x as int * 4 % 256
    ensures (x << 4) as int == x as int * 16 % 256
    ensures (x << 6) as int == x as int * 64 % 256
  {
  }

  /** Fields without a common bit are joined by adding them. */
  lemma JoinIsSum(x: bv8, y: bv8)
    requires x & y == 0
    ensures (x | y) as int == x as int + y as int
  {
  }

  /** The four table indices that the encoder cuts out of three bytes are the base-64 digits of their number. */
  lemma EncoderBits(x: bv8, y: bv8, z: bv8)
    ensures var v := Group(x as int, y as int, z as int);
      && (x >> 2) as int == Digit(v, 0)
      && (((x & 3) << 4) | (y >> 4)) as int == Digit(v, 1)
      && (((y & 15) << 2) | (z >> 6)) as int == Digit(v, 2)
      && (z & 63) as int == Digit(v, 3)
  {
    DigitsAreFields(x as int, y as int, z as int);
    SecondField(x, y);
    ThirdField(y, z);
    ShiftRight(x);
    LowSix(z);
  }

  lemma SecondField(x: bv8, y: bv8)
    ensures (((x & 3) << 4) | (y >> 4)) as int == x as int % 4 * 16 + y as int / 16
  {
    LowTwo(x);
    ShiftLeft(x & 3);
    ShiftRight(y);
    JoinIsSum((x & 3) << 4, y >> 4);
  }

  lemma ThirdField(y: bv8, z: bv8)
    ensures (((y & 15) << 2) | (z >> 6)) as int == y as int % 16 * 4 + z as int / 64
  {
    LowFour(y);
    ShiftLeft(y & 15);
    ShiftRight(z);
    JoinIsSum((y & 15) << 2, z >> 6);
  }

  lemma LowPart(u: int, v: int)
    requires 0 <= v < 256
    ensures (256 * u + v) % 256 == v
  {
  }

  lemma FirstLow(a: int, e: int)
    requires 0 <= e < 4
    ensures Low(Shift(a, 4) + e) == a * 4 % 256 + e
  {
    var u, v := a / 64, a % 64;
    assert a * 4 == 256 * u + 4 * v;
    LowPart(u, 4 * v);
    LowPart(u, 4 * v + e);
  }

  lemma SecondLow(a: int, e: int)
    requires 0 <= e < 16
    ensures Low(Shift(a, 16) + e) == a * 16 % 256 + e
  {
    var u, v := a / 16, a % 16;
    assert a * 16 == 256 * u + 16 * v;
    LowPart(u, 16 * v);
    LowPart(u, 16 * v + e);
  }

  lemma ThirdLow(a: int, e: int)
    requires 0 <= e < 64
    ensures Low(Shift(a, 64) + e) == a * 64 % 256 + e
  {
    var u, v := a / 4, a % 4;
    assert a * 64 == 256 * u + 64 * v;
    LowPart(u, 64 * v);
    LowPart(u, 64 * v + e);
  }

  lemma FirstJoin(p: bv8, q: bv8)
    requires p & 0xC0 == 0 && q & 0xC0 == 0
    ensures ((p << 2) | (q >> 4)) as int == Low(Shift(p as int, 4) + q as int / 16)
  {
    ShiftLeft(p);
    ShiftRight(q);
    JoinIsSum(p << 2, q >> 4);
    FirstLow(p as int, q as int / 16);
  }

  lemma SecondJoin(p: bv8, q: bv8)
    requires p & 0xC0 == 0 && q & 0xC0 == 0
    ensures ((p << 4) | (q >> 2)) as int == Low(Shift(p as int, 16) + q as int / 4)
  {
    ShiftLeft(p);
    ShiftRight(q);
    JoinIsSum(p << 4, q >> 2);
    SecondLow(p as int, q as int / 4);
  }

  lemma ThirdJoin(p: bv8, q: bv8)
    requires p & 0xC0 == 0 && q & 0xC0 == 0
    ensures ((p << 6) | q) as int == Low(Shift(p as int, 64) + q as int)
  {
    ShiftLeft(p);
    JoinIsSum(p << 6, q);
    ThirdLow(p as int, q as int);
  }

  /** A weight of six bits: none of the others is set. */
  lemma SixBits(x: bv8)
    ensures x & 0xC0 == 0 <==> x as int < 64
  {
  }

  /** The three bytes that the decoder joins from four weights are the ones that their sum stands for. */
  lemma DecoderBits(p: bv8, q: bv8, r: bv8, s: bv8)
    requires p as int < 64 && q as int < 64 && r as int < 64 && s as int < 64
    ensures Joined([p as int, q as int, r as int, s as int])
         == [((p << 2) | (q >> 4)) as int, ((q << 4) | (r >> 2)) as int, ((r << 6) | s) as int]
  {
    SixBits(p);
    SixBits(q);
    SixBits(r);
    SixBits(s);
    FirstJoin(p, q);
    SecondJoin(q, r);
    ThirdJoin(r, s);
  }

  /** The decoder's test of the high bit of a table entry tells the characters to be skipped. */
  lemma SkipBit(c: byte, entry: bv8)
    requires entry as int == Weight(c)
    ensures entry & 0x80 != 0 <==> !Significant(c)
  {
    HighBit(entry);
  }
}
