/**
 The encoding told of its letters: the alphabet as a string, each group of characters as a number to the base 64 of
 which the bytes are the digits to the base 256, and the test vectors of section 10 of RFC 4648.
 */
module Base64Letters {
  import opened Base64

  const UPPER := "ABCDEFGHIJKLMNOPQRSTUVWXYZ"
  const LOWER := "abcdefghijklmnopqrstuvwxyz"
  const FIGURES := "0123456789"

  /** The letters in the order of their values (table 1 of RFC 4648). */
  function Alphabet(): (letters: string)
    ensures |letters| == 64
  {
    UPPER + LOWER + FIGURES + "+/"
  }

  lemma UpperIs(v: nat)
    requires v < 26
    ensures UPPER[v] as int == 65 + v
  {
  }

  lemma LowerIs(v: nat)
    requires v < 26
    ensures LOWER[v] as int == 97 + v
  {
  }

  lemma LetterIs(v: Sextet)
    ensures Letter(v) == Alphabet()[v] as int
  {
    if v < 26 {
      UpperIs(v);
    } else if v < 52 {
      LowerIs(v - 26);
    }
  }

  /** A character counts if it is a letter of the alphabet or an equals sign, and its value is its place. */
  lemma SignificantIs(c: byte)
    ensures Significant(c) <==> c == '=' as int || exists v: Sextet :: c == Alphabet()[v] as int
    ensures forall v: Sextet :: c == Alphabet()[v] as int ==> Weight(c) == v
  {
    forall v: Sextet | c == Alphabet()[v] as int
      ensures Weight(c) == v && Significant(c)
    {
      LetterIs(v);
      WeightOfLetter(v);
    }
    if Significant(c) && c != '=' as int {
      LetterOfWeight(c);
      LetterIs(Weight(c));
    }
  }

  lemma LetterOfWeight(c: byte)
    requires Significant(c) && c != PAD
    ensures Weight(c) < 64 && Letter(Weight(c)) == c
  {
  }

  /** Four characters as a number to the base 64. */
  function ToBase64(w: seq<int>): int
    requires |w| == 4
  {
    ((w[0] * 64 + w[1]) * 64 + w[2]) * 64 + w[3]
  }

  /** Three bytes as a number to the base 256. */
  function ToBase256(s: seq<int>): int
    requires |s| == 3
  {
    (s[0] * 256 + s[1]) * 256 + s[2]
  }

  /** Joining changes the base and not the number, whatever the four characters are. */
  lemma JoinedIsSameNumber(w: seq<byte>)
    requires |w| == 4 && forall i :: 0 <= i < 4 ==> w[i] < 64
    ensures ToBase256(Joined(w)) == ToBase64(w)
  {
    var q1, r1 := w[1] / 16, w[1] % 16;
    var q2, r2 := w[2] / 4, w[2] % 4;
    assert w[1] == 16 * q1 + r1 && w[2] == 4 * q2 + r2;
    FirstOfJoined(w[0], w[1], q1);
    SecondOfJoined(w[1], w[2], q1, r1, q2);
    ThirdOfJoined(w[2], w[3], q2, r2);
  }

  lemma FirstOfJoined(x: int, y: int, q: int)
    requires 0 <= x < 64 && 0 <= q < 4 && q == y / 16
    ensures Low(Shift(x, 4) + y / 16) == 4 * x + q
  {
  }

  lemma SecondOfJoined(y: int, z: int, q1: int, r1: int, q2: int)
    requires y == 16 * q1 + r1 && 0 <= r1 < 16 && q2 == z / 4 && 0 <= q2 < 16
    ensures Low(Shift(y, 16) + z / 4) == 16 * r1 + q2
  {
    assert Shift(y, 16) + q2 == 256 * q1 + (16 * r1 + q2);
  }

  lemma ThirdOfJoined(z: int, w: int, q2: int, r2: int)
    requires z == 4 * q2 + r2 && 0 <= r2 < 4 && 0 <= w < 64
    ensures Low(Shift(z, 64) + w) == 64 * r2 + w
  {
    assert Shift(z, 64) + w == 256 * q2 + (64 * r2 + w);
  }

  /**
   What a text of significant characters decodes to, padded where it should be or not: each group of four is three bytes
   of the same number, of which an equals sign in the last place drops one, and one before it two and all that follows.
   */
  lemma DecodedIsSameNumber(text: seq<byte>)
    requires |text| >= 4 && forall c :: c in text ==> Significant(c)
    ensures exists s: seq<byte> ::
              && |s| == 3 && ToBase256(s) == ToBase64(Weights(text[..4]))
              && Decoded(text) == if text[2] == '=' as int then s[..1] else if text[3] == '=' as int then s[..2]
                                  else s + Decoded(text[4..])
  {
    var q := text[..4];
    assert forall i :: 0 <= i < 4 ==> q[i] in text;
    JoinedIsSameNumber(Weights(q));
    var s := Joined(Weights(q));
    assert s[..3] == s && s[..1] + [] == s[..1] && s[..2] + [] == s[..2];
  }

  /** What a string encodes to: the letters of the same number, and equals signs where one or two bytes are missing. */
  lemma EncodedIsSameNumber(s: seq<byte>)
    ensures |Encoded(s)| == (|s| + 2) / 3 * 4
    ensures |s| >= 3 ==> IsQuad(Encoded(s)[..4], s[0], s[1], s[2], 4) && Encoded(s)[4..] == Encoded(s[3..])
    ensures |s| == 2 ==> IsQuad(Encoded(s), s[0], s[1], 0, 3)
    ensures |s| == 1 ==> IsQuad(Encoded(s), s[0], 0, 0, 2)
  {
    if |s| >= 3 {
      FirstQuad(s);
      QuadIs(s[0], s[1], s[2]);
    } else if |s| > 0 {
      QuadIs(s[0], if |s| == 2 then s[1] else 0, 0);
    }
  }

  /** The digits to the base 64 of three bytes. */
  ghost predicate DigitsOf(w: seq<int>, a: byte, b: byte, c: byte) {
    |w| == 4 && (forall i :: 0 <= i < 4 ==> 0 <= w[i] < 64) && ToBase64(w) == ToBase256([a, b, c])
  }

  /** The first characters are the letters of these values, and the last are equals signs. */
  ghost predicate Shows(q: seq<byte>, w: seq<int>, letters: nat)
    requires |w| == 4 && forall i :: 0 <= i < 4 ==> 0 <= w[i] < 64
  {
    && |q| == 4
    && forall i :: 0 <= i < 4 ==> q[i] == if i < letters then Alphabet()[w[i]] as int else '=' as int
  }

  ghost predicate IsQuad(q: seq<byte>, a: byte, b: byte, c: byte, letters: nat) {
    exists w :: DigitsOf(w, a, b, c) && Shows(q, w, letters)
  }

  lemma QuadIs(a: byte, b: byte, c: byte)
    ensures IsQuad(Quad(a, b, c), a, b, c, 4)
    ensures IsQuad(Quad(a, b, c)[3 := PAD], a, b, c, 3)
    ensures IsQuad(Quad(a, b, c)[2 := PAD][3 := PAD], a, b, c, 2)
  {
    var w := DigitsMakeNumber(a, b, c);
    assert Shows(Quad(a, b, c)[3 := PAD], w, 3) && Shows(Quad(a, b, c)[2 := PAD][3 := PAD], w, 2);
  }

  lemma DigitsMakeNumber(a: byte, b: byte, c: byte) returns (w: seq<int>)
    ensures DigitsOf(w, a, b, c) && Shows(Quad(a, b, c), w, 4)
  {
    JoinDigits(a, b, c);
    var v := Group(a, b, c);
    w := [Digit(v, 0), Digit(v, 1), Digit(v, 2), Digit(v, 3)];
    JoinedIsSameNumber([Digit(v, 0), Digit(v, 1), Digit(v, 2), Digit(v, 3)]);
    LetterIs(w[0]);
    LetterIs(w[1]);
    LetterIs(w[2]);
    LetterIs(w[3]);
  }

  lemma OneByte()
    ensures Encoded([102]) == [90, 103, 61, 61]
  {
  }

  lemma TwoBytes()
    ensures Encoded([102, 111]) == [90, 109, 56, 61]
  {
  }

  lemma ThreeBytes()
    ensures Quad(102, 111, 111) == [90, 109, 57, 118]
  {
  }

  lemma ThreeMore()
    ensures Quad(98, 97, 114) == [89, 109, 70, 121]
  {
  }

  lemma ThreeFirst(a: byte, b: byte, c: byte, rest: seq<byte>)
    ensures Encoded([a, b, c] + rest) == Quad(a, b, c) + Encoded(rest)
  {
    assert ([a, b, c] + rest)[3..] == rest;
  }

  /** The characters of a text as bytes. */
  ghost predicate Spells(s: seq<byte>, text: string) {
    |s| == |text| && forall i :: 0 <= i < |s| ==> s[i] == text[i] as int
  }

  /** "f", "fo", "foo" and "foobar". */
  lemma TestVectors()
    ensures forall s :: Spells(s, "f") ==> Spells(Encoded(s), "Zg==")
    ensures forall s :: Spells(s, "fo") ==> Spells(Encoded(s), "Zm8=")
    ensures forall s :: Spells(s, "foo") ==> Spells(Encoded(s), "Zm9v")
    ensures forall s :: Spells(s, "foobar") ==> Spells(Encoded(s), "Zm9vYmFy")
  {
    OneByte();
    TwoBytes();
    ThreeBytes();
    ThreeMore();
    ThreeFirst(102, 111, 111, []);
    ThreeFirst(98, 97, 114, []);
    ThreeFirst(102, 111, 111, [98, 97, 114]);
    assert [98, 97, 114] + [] == [98, 97, 114] && [102, 111, 111] + [] == [102, 111, 111];
    forall s | Spells(s, "f") ensures Spells(Encoded(s), "Zg==") {
      assert s == [102];
    }
    forall s | Spells(s, "fo") ensures Spells(Encoded(s), "Zm8=") {
      assert s == [102, 111];
    }
    forall s | Spells(s, "foo") ensures Spells(Encoded(s), "Zm9v") {
      assert s == [102, 111, 111];
    }
    forall s | Spells(s, "foobar") ensures Spells(Encoded(s), "Zm9vYmFy") {
      assert s == [102, 111, 111] + [98, 97, 114];
    }
  }
}
