/**
 Base64 (section 4 of RFC 4648): an encoder and a decoder that work through one shared table, group by
 group, into the caller's buffer. The decoder skips characters outside the alphabet (section 6.8 of
 RFC 2045).

 Bit fields that a shift or a mask cuts out are written as quotients and remainders of powers of two,
 and the join of disjoint fields as their sum; Base64Bits proves that they are that.
 */
module Base64 {
  type byte = x: int | 0 <= x < 256
  type Sextet = x: int | 0 <= x < 64

  const PAD: byte := 61
  const PLUS: byte := 43
  const SLASH: byte := 47
  const INVALID: byte := 128

  // ---------- the alphabet ----------

  function Letter(v: Sextet): (c: byte)
    ensures 0 < c < 128 && c != PAD
  {
    if v < 26 then 65 + v
    else if v < 52 then 97 + (v - 26)
    else if v < 62 then 48 + (v - 52)
    else if v == 62 then PLUS else SLASH
  }

  /** The value of a character: its place in the alphabet, zero for padding, or a mark that it is none of these. */
  function Weight(c: byte): (w: byte)
    ensures w < 64 || w == INVALID
  {
    if 65 <= c <= 90 then c - 65
    else if 97 <= c <= 122 then 26 + (c - 97)
    else if 48 <= c <= 57 then 52 + (c - 48)
    else if c == PLUS then 62
    else if c == SLASH then 63
    else if c == PAD then 0 else INVALID
  }

  lemma WeightOfLetter(v: Sextet)
    ensures Weight(Letter(v)) == v
  {
    assert v < 26 || 26 <= v < 52 || 52 <= v < 62 || v == 62 || v == 63;
  }

  // ---------- the reference ----------

  /** Three bytes as one number of 24 bits. */
  function Group(a: byte, b: byte, c: byte): nat {
    (a * 256 + b) * 256 + c
  }

  /** The four digits of a 24-bit number, six bits each. */
  function Digit(v: nat, k: nat): Sextet
    requires k < 4
  {
    (match k case 0 => v / 262144 case 1 => v / 4096 case 2 => v / 64 case _ => v) % 64
  }

  function Quad(a: byte, b: byte, c: byte): (q: seq<byte>)
    ensures |q| == 4
  {
    var v := Group(a, b, c);
    [Letter(Digit(v, 0)), Letter(Digit(v, 1)), Letter(Digit(v, 2)), Letter(Digit(v, 3))]
  }

  /** The text for a string of bytes: four letters for three bytes, and padding where one or two remain. */
  function Encoded(s: seq<byte>): (text: seq<byte>)
    ensures |text| == (|s| + 2) / 3 * 4
  {
    if |s| == 0 then []
    else if |s| == 1 then Quad(s[0], 0, 0)[2 := PAD][3 := PAD]
    else if |s| == 2 then Quad(s[0], s[1], 0)[3 := PAD]
    else Quad(s[0], s[1], s[2]) + Encoded(s[3..])
  }

  /** A character that carries a value or pads. */
  predicate Significant(c: byte) {
    Weight(c) != INVALID
  }

  function Kept(text: seq<byte>): (kept: seq<byte>)
    ensures |kept| <= |text|
    ensures forall c :: c in kept ==> Significant(c)
  {
    if text == [] then [] else (if Significant(text[0]) then [text[0]] else []) + Kept(text[1..])
  }

  /** How many bytes a group of four characters stands for. */
  function Yield(q: seq<byte>): nat
    requires |q| == 4
  {
    if q[2] == PAD then 1 else if q[3] == PAD then 2 else 3
  }

  /** What a byte keeps of a number. */
  function Low(x: int): byte {
    x % 256
  }

  function Shift(x: int, power: int): int {
    x * power
  }

  /** The three bytes of four sextets. */
  function Joined(w: seq<byte>): (o: seq<byte>)
    requires |w| == 4
    ensures |o| == 3
  {
    [Low(Shift(w[0], 4) + w[1] / 16), Low(Shift(w[1], 16) + w[2] / 4), Low(Shift(w[2], 64) + w[3])]
  }

  function Weights(q: seq<byte>): (w: seq<byte>)
    ensures |w| == |q| && forall i :: 0 <= i < |q| ==> w[i] == Weight(q[i])
  {
    seq(|q|, i requires 0 <= i < |q| => Weight(q[i]))
  }

  /** The bytes that significant characters stand for: whole groups of four, up to the first padded one. */
  function Decoded(text: seq<byte>): (s: seq<byte>)
    ensures |s| <= |text| / 4 * 3
  {
    if |text| < 4 then []
    else
      var q := text[..4];
      Joined(Weights(q))[..Yield(q)] + if Yield(q) < 3 then [] else Decoded(text[4..])
  }

  // ---------- the round trip ----------

  /** Cutting three bytes into sextets and joining the sextets gives the bytes back. */
  lemma JoinDigits(a: byte, b: byte, c: byte)
    ensures var v := Group(a, b, c);
            Joined([Digit(v, 0), Digit(v, 1), Digit(v, 2), Digit(v, 3)]) == [a, b, c]
  {
    DigitsAreFields(a, b, c);
    FieldsJoin(a, b, c);
  }

  /** The digits of the 24-bit number are the bit fields that the encoder cuts out. */
  lemma DigitsAreFields(a: byte, b: byte, c: byte)
    ensures var v := Group(a, b, c);
            && Digit(v, 0) == a / 4 && Digit(v, 1) == a % 4 * 16 + b / 16
            && Digit(v, 2) == b % 16 * 4 + c / 64 && Digit(v, 3) == c % 64
  {
    FirstDigit(a, b, c);
    SecondDigit(a, b, c);
    ThirdDigit(a, b, c);
    LastDigit(a, b, c);
  }

  lemma DividedBy262144(q: int, r: int)
    requires 0 <= r < 262144
    ensures (262144 * q + r) / 262144 == q
  {
  }

  lemma DividedBy4096(q: int, r: int)
    requires 0 <= r < 4096
    ensures (4096 * q + r) / 4096 == q
  {
  }

  lemma DividedBy64(q: int, r: int)
    requires 0 <= r < 64
    ensures (64 * q + r) / 64 == q && (64 * q + r) % 64 == r
  {
  }

  lemma FirstDigit(a: byte, b: byte, c: byte)
    ensures Digit(Group(a, b, c), 0) == a / 4
  {
    var q, r := a / 4, a % 4;
    assert Group(a, b, c) == 262144 * q + (r * 65536 + b * 256 + c) by {
      assert a == 4 * q + r;
    }
    DividedBy262144(q, r * 65536 + b * 256 + c);
    DividedBy64(0, q);
  }

  lemma SecondDigit(a: byte, b: byte, c: byte)
    ensures Digit(Group(a, b, c), 1) == a % 4 * 16 + b / 16
  {
    var q, r := a / 4, a % 4;
    var s, u := b / 16, b % 16;
    assert Group(a, b, c) == 4096 * (64 * q + (r * 16 + s)) + (u * 256 + c) by {
      assert a == 4 * q + r && b == 16 * s + u;
    }
    DividedBy4096(64 * q + (r * 16 + s), u * 256 + c);
    DividedBy64(q, r * 16 + s);
  }

  lemma ThirdDigit(a: byte, b: byte, c: byte)
    ensures Digit(Group(a, b, c), 2) == b % 16 * 4 + c / 64
  {
    var s, u := b / 16, b % 16;
    var v, w := c / 64, c % 64;
    assert Group(a, b, c) == 64 * (64 * (a * 16 + s) + (u * 4 + v)) + w by {
      assert b == 16 * s + u && c == 64 * v + w;
    }
    DividedBy64(64 * (a * 16 + s) + (u * 4 + v), w);
    DividedBy64(a * 16 + s, u * 4 + v);
  }

  lemma LastDigit(a: byte, b: byte, c: byte)
    ensures Digit(Group(a, b, c), 3) == c % 64
  {
    var v, w := c / 64, c % 64;
    assert Group(a, b, c) == 64 * (a * 1024 + b * 4 + v) + w by {
      assert c == 64 * v + w;
    }
    DividedBy64(a * 1024 + b * 4 + v, w);
  }

  lemma FieldsJoin(a: byte, b: byte, c: byte)
    ensures Joined([a / 4, a % 4 * 16 + b / 16, b % 16 * 4 + c / 64, c % 64]) == [a, b, c]
  {
    var w: seq<int> := [a / 4, a % 4 * 16 + b / 16, b % 16 * 4 + c / 64, c % 64];
    assert w[1] / 16 == a % 4 && w[2] / 4 == b % 16;
    FirstByte(a, b);
    SecondByte(a, b, c);
    ThirdByte(b, c);
  }

  lemma FirstByte(a: byte, b: byte)
    ensures Low(Shift(a / 4, 4) + (a % 4 * 16 + b / 16) / 16) == a
  {
    assert (a % 4 * 16 + b / 16) / 16 == a % 4;
  }

  lemma SecondByte(a: byte, b: byte, c: byte)
    ensures Low(Shift(a % 4 * 16 + b / 16, 16) + (b % 16 * 4 + c / 64) / 4) == b
  {
    assert (b % 16 * 4 + c / 64) / 4 == b % 16;
    assert Shift(a % 4 * 16 + b / 16, 16) + b % 16 == a % 4 * 256 + b;
  }

  lemma ThirdByte(b: byte, c: byte)
    ensures Low(Shift(b % 16 * 4 + c / 64, 64) + c % 64) == c
  {
    assert Shift(b % 16 * 4 + c / 64, 64) + c % 64 == b % 16 * 256 + c;
  }

  lemma DecodedQuad(a: byte, b: byte, c: byte)
    ensures Joined(Weights(Quad(a, b, c))) == [a, b, c] && Yield(Quad(a, b, c)) == 3
  {
    var v := Group(a, b, c);
    var d := [Digit(v, 0), Digit(v, 1), Digit(v, 2), Digit(v, 3)];
    forall i | 0 <= i < 4
      ensures Weights(Quad(a, b, c))[i] == d[i]
    {
      assert Quad(a, b, c)[i] == Letter(d[i]);
      WeightOfLetter(d[i]);
    }
    assert Weights(Quad(a, b, c)) == d;
    JoinDigits(a, b, c);
  }

  /** Where padding replaces a letter, that letter stood for no bits of the input. */
  lemma DecodedPadded(a: byte, b: byte)
    ensures var q := Quad(a, b, 0)[3 := PAD]; Joined(Weights(q))[..2] == [a, b] && Yield(q) == 2
    ensures var q := Quad(a, 0, 0)[2 := PAD][3 := PAD]; Joined(Weights(q))[..1] == [a] && Yield(q) == 1
  {
    DecodedQuad(a, b, 0);
    DigitsAreFields(a, b, 0);
    WeightOfLetter(Digit(Group(a, b, 0), 3));
    assert Weights(Quad(a, b, 0)[3 := PAD]) == Weights(Quad(a, b, 0));
    DecodedQuad(a, 0, 0);
    DigitsAreFields(a, 0, 0);
    WeightOfLetter(Digit(Group(a, 0, 0), 2));
    WeightOfLetter(Digit(Group(a, 0, 0), 3));
    assert Weights(Quad(a, 0, 0)[2 := PAD][3 := PAD]) == Weights(Quad(a, 0, 0));
  }

  lemma {:induction false} DecodedRemainder(s: seq<byte>)
    requires 0 < |s| < 3
    ensures Decoded(Encoded(s)) == s
  {
    var b := if |s| == 2 then s[1] else 0;
    DecodedPadded(s[0], b);
    assert Encoded(s)[..4] == Encoded(s);
  }

  lemma {:induction false} DecodedOfEncoded(s: seq<byte>)
    ensures Decoded(Encoded(s)) == s
    decreases |s|
  {
    if |s| == 0 {
    } else if |s| < 3 {
      DecodedRemainder(s);
    } else {
      DecodedQuad(s[0], s[1], s[2]);
      FirstQuad(s);
      DecodedOfEncoded(s[3..]);
      assert [s[0], s[1], s[2]] + s[3..] == s;
    }
  }

  lemma FirstQuad(s: seq<byte>)
    requires |s| >= 3
    ensures Encoded(s)[..4] == Quad(s[0], s[1], s[2]) && Encoded(s)[4..] == Encoded(s[3..])
  {
  }

  /** `text` is `clean` with characters outside the alphabet put in anywhere. */
  ghost predicate Sprinkled(text: seq<byte>, clean: seq<byte>)
    decreases |text|
  {
    if text == [] then clean == []
    else if Significant(text[0]) then clean != [] && clean[0] == text[0] && Sprinkled(text[1..], clean[1..])
    else Sprinkled(text[1..], clean)
  }

  lemma FirstAndRest(c: byte, rest: seq<byte>, clean: seq<byte>)
    ensures [c] + rest == clean <==> clean != [] && clean[0] == c && clean[1..] == rest
  {
    if clean != [] && clean[0] == c && clean[1..] == rest {
      assert clean == [clean[0]] + clean[1..];
    }
  }

  lemma {:induction false} SprinkledIsKept(text: seq<byte>, clean: seq<byte>)
    ensures Sprinkled(text, clean) <==> Kept(text) == clean
    decreases |text|
  {
    if text == [] {
    } else if Significant(text[0]) {
      FirstAndRest(text[0], Kept(text[1..]), clean);
      if clean != [] {
        SprinkledIsKept(text[1..], clean[1..]);
      }
    } else {
      SprinkledIsKept(text[1..], clean);
    }
  }

  /** Decoding an encoded string gives the string back, whatever insignificant characters got into the text. */
  lemma RoundTrip(s: seq<byte>, text: seq<byte>)
    requires Sprinkled(text, Encoded(s))
    ensures Decoded(Kept(text)) == s
  {
    SprinkledIsKept(text, Encoded(s));
    DecodedOfEncoded(s);
  }

  /** An encoded string is significant throughout and holds no NUL, so it is one reading of itself. */
  lemma {:induction false} EncodedIsClean(s: seq<byte>)
    ensures forall c :: c in Encoded(s) ==> Significant(c) && 0 < c < 128
    decreases |s|
  {
    if |s| > 0 {
      forall v: Sextet
        ensures Significant(Letter(v))
      {
        WeightOfLetter(v);
      }
      if |s| >= 3 {
        EncodedIsClean(s[3..]);
      }
    }
  }

  // ---------- the loops over buffers ----------

  /** Where the C string in a buffer ends. */
  predicate EndsAt(source: seq<byte>, n: nat) {
    && n < |source| && source[n] == 0
    && forall i :: 0 <= i < n ==> source[i] != 0
  }

  /** Where the decoder stops reading: at the given length or at a NUL before it, whichever comes first. */
  predicate StopsAt(source: seq<byte>, length: nat, n: nat) {
    && n <= |source| && n <= length
    && (n == length || (n < |source| && source[n] == 0))
    && forall i :: 0 <= i < n ==> source[i] != 0
  }

  /** The encoder and the decoder with the table they share. */
  class Codec {
    const dtable: array<byte>

    constructor ()
      ensures fresh(dtable) && dtable.Length == 256
    {
      dtable := new byte[256](_ => 0);
    }

    method FillLetters()
      requires dtable.Length == 256
      modifies dtable
      ensures forall v :: 0 <= v < 64 ==> dtable[v] == Letter(v)
    {
      for i := 0 to 26
        invariant forall v :: 0 <= v < i ==> dtable[v] == 65 + v
        invariant forall v :: 26 <= v < 26 + i ==> dtable[v] == 97 + (v - 26)
      {
        dtable[i] := 65 + i;
        dtable[26 + i] := 97 + i;
      }
      for i := 0 to 10
        invariant forall v :: 0 <= v < 26 ==> dtable[v] == 65 + v
        invariant forall v :: 26 <= v < 52 ==> dtable[v] == 97 + (v - 26)
        invariant forall v :: 52 <= v < 52 + i ==> dtable[v] == 48 + (v - 52)
      {
        dtable[52 + i] := 48 + i;
      }
      dtable[62] := PLUS;
      dtable[63] := SLASH;
    }

    /** Fills the table for every 7-bit character; entry 255 is left as it was. */
    method FillWeights()
      requires dtable.Length == 256
      modifies dtable
      ensures forall c :: 0 <= c < 128 ==> dtable[c] == Weight(c)
      ensures dtable[255] == old(dtable[255])
    {
      for i := 0 to 255
        invariant forall c :: 0 <= c < i ==> dtable[c] == INVALID
        invariant dtable[255] == old(dtable[255])
      {
        dtable[i] := INVALID;
      }
      FillRange(65, 26, 0);
      FillRange(97, 26, 26);
      FillRange(48, 10, 52);
      dtable[43] := 62;
      dtable[47] := 63;
      dtable[61] := 0;
    }

    /** One of the three runs of characters with consecutive weights. */
    method FillRange(first: byte, count: nat, weight: byte)
      requires dtable.Length == 256 && first + count <= 128 && weight + count <= 64
      modifies dtable
      ensures forall c :: 0 <= c < 256 ==>
                dtable[c] == if first <= c < first + count then weight + (c - first) else old(dtable[c])
    {
      for i := first to first + count
        invariant forall c :: 0 <= c < 256 ==>
                    dtable[c] == if first <= c < i then weight + (c - first) else old(dtable[c])
      {
        dtable[i] := weight + (i - first);
      }
    }

    /** Reads up to three bytes; fewer than three means the end of the string was met. */
    method ReadGroup(source: seq<byte>, start: nat, ghost end: nat) returns (igroup: seq<byte>, n: nat, spos: nat)
      requires EndsAt(source, end) && start <= end
      ensures |igroup| == 3 && n <= 3 && start + n <= end
      ensures forall i :: 0 <= i < 3 ==> igroup[i] == if i < n then source[start + i] else 0
      ensures n < 3 ==> start + n == end
      ensures n == 3 ==> spos == start + 3
    {
      igroup, n, spos := [0, 0, 0], 0, start;
      while n < 3
        invariant n <= 3 && |igroup| == 3 && spos == start + n <= end
        invariant forall i :: 0 <= i < 3 ==> igroup[i] == if i < n then source[start + i] else 0
      {
        var c := source[spos];
        spos := spos + 1;
        if c == 0 {
          break;
        }
        igroup := igroup[n := c];
        n := n + 1;
      }
    }

    /** The four characters for a group of which `n` bytes were read. */
    method Compose(igroup: seq<byte>, n: nat) returns (ogroup: seq<byte>)
      requires dtable.Length == 256 && forall v :: 0 <= v < 64 ==> dtable[v] == Letter(v)
      requires |igroup| == 3 && 0 < n <= 3
      ensures var q := Quad(igroup[0], igroup[1], igroup[2]);
              ogroup == match n case 1 => q[2 := PAD][3 := PAD] case 2 => q[3 := PAD] case _ => q
    {
      DigitsAreFields(igroup[0], igroup[1], igroup[2]);
      ogroup := [dtable[igroup[0] / 4],
                 dtable[igroup[0] % 4 * 16 + igroup[1] / 16],
                 dtable[igroup[1] % 16 * 4 + igroup[2] / 64],
                 dtable[igroup[2] % 64]];
      if n < 3 {
        ogroup := ogroup[3 := PAD];
        if n < 2 {
          ogroup := ogroup[2 := PAD];
        }
      }
    }

    /** Appends to the text in a buffer and ends it with a NUL after every character. */
    method Append(dest: array<byte>, start: nat, group: seq<byte>) returns (dpos: nat)
      requires start + |group| < dest.Length
      modifies dest
      ensures dpos == start + |group|
      ensures dest[..dpos] == old(dest[..start]) + group
      ensures group != [] ==> dest[dpos] == 0
      ensures forall k :: dpos < k < dest.Length ==> dest[k] == old(dest[k])
    {
      dpos := start;
      for i := 0 to |group|
        invariant dpos == start + i
        invariant dest[..dpos] == old(dest[..start]) + group[..i]
        invariant i > 0 ==> dest[dpos] == 0
        invariant forall k :: dpos < k < dest.Length ==> dest[k] == old(dest[k])
      {
        dest[dpos] := group[i];
        dpos := dpos + 1;
        dest[dpos] := 0;
        assert dest[..dpos] == dest[..dpos - 1] + [group[i]];
        assert group[..i + 1] == group[..i] + [group[i]];
      }
      assert group[..|group|] == group;
    }

    /** Encodes one more group; `clean` is what the buffer will hold in the end. */
    method EncodeGroup(dest: array<byte>, source: seq<byte>, spos: nat, dpos: nat, ghost end: nat,
                       ghost clean: seq<byte>)
      returns (spos': nat, dpos': nat, hiteof: bool)
      requires dtable.Length == 256 && forall v :: 0 <= v < 64 ==> dtable[v] == Letter(v)
      requires EndsAt(source, end) && spos <= end && dpos <= |clean|
      requires end > 0 ==> |clean| < dest.Length
      requires dpos <= dest.Length && dest[..dpos] + Encoded(source[spos..end]) == clean
      modifies dest
      ensures spos <= spos' <= end && dpos <= dpos' <= |clean| && dpos' <= dest.Length
      ensures dest[..dpos'] + Encoded(source[spos'..end]) == clean
      ensures hiteof ==> spos' == end
      ensures !hiteof ==> spos < spos'
      ensures spos == spos' ==> dpos' == dpos && dest[..] == old(dest[..])
      ensures spos < spos' ==> dpos' < dest.Length && dest[dpos'] == 0
      ensures forall k :: |clean| < k < dest.Length ==> dest[k] == old(dest[k])
    {
      var igroup, n, _ := ReadGroup(source, spos, end);
      spos', dpos', hiteof := spos + n, dpos, n < 3;
      if n > 0 {
        var ogroup := Compose(igroup, n);
        StepEncoded(source[spos..end], igroup, n, ogroup);
        assert source[spos..end][n..] == source[spos'..end];
        Reassociate(dest[..dpos], ogroup, Encoded(source[spos'..end]));
        dpos' := Append(dest, dpos, ogroup);
      }
    }

    /** Encodes the string in `source`. Nothing, not even a NUL, is written for an empty one. */
    method Encode(dest: array<byte>, source: seq<byte>, ghost end: nat) returns (dpos: nat)
      requires dtable.Length == 256 && dest != dtable
      requires EndsAt(source, end)
      requires end > 0 ==> (end + 2) / 3 * 4 < dest.Length
      modifies dest, dtable
      ensures dpos == (end + 2) / 3 * 4 && dpos <= dest.Length
      ensures dest[..dpos] == Encoded(source[..end])
      ensures end > 0 ==> dest[dpos] == 0
      ensures forall k :: dpos < k < dest.Length ==> dest[k] == old(dest[k])
      ensures end == 0 ==> dest[..] == old(dest[..])
    {
      FillLetters();
      var hiteof, spos := false, 0;
      dpos := 0;
      ghost var clean := Encoded(source[..end]);
      while !hiteof
        invariant spos <= end && dpos <= |clean| && dpos <= dest.Length
        invariant dest[..dpos] + Encoded(source[spos..end]) == clean
        invariant spos == 0 ==> dest[..] == old(dest[..])
        invariant spos > 0 ==> dpos < dest.Length && dest[dpos] == 0
        invariant hiteof ==> spos == end
        invariant forall k :: |clean| < k < dest.Length ==> dest[k] == old(dest[k])
        invariant forall v :: 0 <= v < 64 ==> dtable[v] == Letter(v)
        decreases !hiteof, end - spos
        modifies dest
      {
        spos, dpos, hiteof := EncodeGroup(dest, source, spos, dpos, end, clean);
      }
      assert Encoded(source[end..end]) == [];
    }

    /** Reads the next four significant characters and their weights, or runs into the end of the text. */
    method ReadQuad(source: seq<byte>, length: nat, start: nat, ghost end: nat)
      returns (a: seq<byte>, b: seq<byte>, spos: nat, full: bool)
      requires dtable.Length == 256 && forall c :: 0 <= c < 128 ==> dtable[c] == Weight(c)
      requires StopsAt(source, length, end) && SevenBit(source[..end]) && start <= end
      ensures start <= spos <= end && |a| == |b| <= 4 && full == (|a| == 4)
      ensures Kept(source[start..end]) == a + Kept(source[spos..end])
      ensures b == Weights(a) && forall w :: w in b ==> w < 64
      ensures !full ==> spos == end
      ensures full ==> start < spos
    {
      a, b, spos := [], [], start;
      while |a| < 4
        invariant start <= spos <= end && |a| == |b| <= 4 && |a| <= spos - start
        // compared with true: taken as one fact
        invariant Taken(source, start, spos, end, a) == true
        invariant b == Weights(a) && forall w :: w in b ==> w < 64
        decreases end - spos
      {
        if spos >= length {
          return a, b, spos, false;
        }
        var c := source[spos];
        if c == 0 {
          return a, b, spos, false;
        }
        TakeNext(source, start, spos, end, a);
        assert source[..end][spos] == c;
        MarkIsHighBit(c);
        spos := spos + 1;
        if dtable[c] / 128 % 2 == 0 {
          OneMoreWeight(a, c);
          a, b := a + [c], b + [dtable[c]];
        }
      }
      full := true;
    }

    /** Writes the bytes a group of four stands for, and a NUL after them. */
    method WriteBytes(dest: array<byte>, start: nat, a: seq<byte>, b: seq<byte>) returns (dpos: nat, i: nat)
      requires |a| == 4 && b == Weights(a) && forall w :: w in b ==> w < 64
      requires start + Yield(a) < dest.Length
      modifies dest
      ensures i == Yield(a) && dpos == start + i
      ensures dest[..dpos] == old(dest[..start]) + Joined(Weights(a))[..i]
      ensures dest[dpos] == 0
      ensures forall k :: dpos < k < dest.Length ==> dest[k] == old(dest[k])
    {
      var o := [Low(Shift(b[0], 4) + b[1] / 16), Low(Shift(b[1], 16) + b[2] / 4), Low(Shift(b[2], 64) + b[3])];
      i := if a[2] == PAD then 1 else if a[3] == PAD then 2 else 3;
      dpos := start;
      if i >= 1 {
        dest[dpos] := o[0];
        dpos := dpos + 1;
      }
      if i >= 2 {
        dest[dpos] := o[1];
        dpos := dpos + 1;
      }
      if i >= 3 {
        dest[dpos] := o[2];
        dpos := dpos + 1;
      }
      dest[dpos] := 0;
      assert dest[..dpos] == old(dest[..start]) + o[..i];
    }

    /** Decodes one more group; `clean` is what the buffer will hold in the end. */
    method DecodeGroup(dest: array<byte>, source: seq<byte>, length: nat, spos: nat, dpos: nat,
                       ghost end: nat, ghost clean: seq<byte>)
      returns (spos': nat, dpos': nat, done: bool)
      requires dtable.Length == 256 && forall c :: 0 <= c < 128 ==> dtable[c] == Weight(c)
      requires StopsAt(source, length, end) && SevenBit(source[..end]) && spos <= end
      requires clean != [] ==> |clean| < dest.Length
      requires dpos <= dest.Length && dest[..dpos] + Decoded(Kept(source[spos..end])) == clean
      modifies dest
      ensures spos <= spos' <= end && dpos <= dpos' <= |clean| && dpos' <= dest.Length
      ensures if done then dest[..dpos'] == clean
              else dest[..dpos'] + Decoded(Kept(source[spos'..end])) == clean
      ensures !done ==> spos < spos'
      ensures if dpos' == dpos then dest[..] == old(dest[..]) else dpos' < dest.Length && dest[dpos'] == 0
      ensures forall k :: |clean| < k < dest.Length ==> dest[k] == old(dest[k])
    {
      var a, b, next, full := ReadQuad(source, length, spos, end);
      if !full {
        return next, dpos, true;
      }
      ghost var rest := Kept(source[next..end]);
      StepDecoded(a, rest);
      Reassociate(dest[..dpos], Joined(Weights(a))[..Yield(a)], if Yield(a) < 3 then [] else Decoded(rest));
      var i;
      spos' := next;
      dpos', i := WriteBytes(dest, dpos, a, b);
      done := i < 3;
    }

    /**
     Decodes the text in `source`. The bytes go to the start of the buffer, a NUL follows unless there are
     none, and nothing after that place is written.
     */
    method Decode(dest: array<byte>, source: seq<byte>, length: nat, ghost end: nat) returns (dpos: nat)
      requires dtable.Length == 256 && dest != dtable
      requires StopsAt(source, length, end) && SevenBit(source[..end])
      requires var bytes := Decoded(Kept(source[..end])); bytes != [] ==> |bytes| < dest.Length
      modifies dest, dtable
      ensures dpos == |Decoded(Kept(source[..end]))| <= dest.Length
      ensures dest[..dpos] == Decoded(Kept(source[..end]))
      ensures if dpos > 0 then dpos < dest.Length && dest[dpos] == 0 else dest[..] == old(dest[..])
      ensures forall k :: dpos < k < dest.Length ==> dest[k] == old(dest[k])
    {
      FillWeights();
      var spos, done := 0, false;
      dpos := 0;
      ghost var clean := Decoded(Kept(source[..end]));
      while !done
        invariant spos <= end && dpos <= |clean| && dpos <= dest.Length
        invariant if done then dest[..dpos] == clean else dest[..dpos] + Decoded(Kept(source[spos..end])) == clean
        invariant if dpos > 0 then dpos < dest.Length && dest[dpos] == 0 else dest[..] == old(dest[..])
        invariant forall k :: |clean| < k < dest.Length ==> dest[k] == old(dest[k])
        invariant forall c :: 0 <= c < 128 ==> dtable[c] == Weight(c)
        decreases !done, end - spos
        modifies dest
      {
        spos, dpos, done := DecodeGroup(dest, source, length, spos, dpos, end, clean);
      }
    }
  }

  predicate SevenBit(text: seq<byte>) {
    forall i :: 0 <= i < |text| ==> text[i] < 128
  }

  lemma MarkIsHighBit(c: byte)
    ensures Weight(c) / 128 % 2 == 0 <==> Significant(c)
  {
  }

  lemma OneMoreWeight(a: seq<byte>, c: byte)
    requires (forall w :: w in Weights(a) ==> w < 64) && Significant(c)
    ensures Weights(a + [c]) == Weights(a) + [Weight(c)]
    ensures forall w :: w in Weights(a + [c]) ==> w < 64
  {
  }

  /** What is significant between `start` and `end` are the characters taken and what is significant from `spos`. */
  ghost predicate Taken(source: seq<byte>, start: nat, spos: nat, end: nat, a: seq<byte>)
    requires start <= spos <= end <= |source|
  {
    Kept(source[start..end]) == a + Kept(source[spos..end])
  }

  lemma TakeNext(source: seq<byte>, start: nat, spos: nat, end: nat, a: seq<byte>)
    requires start <= spos < end <= |source| && Taken(source, start, spos, end, a)
    ensures Significant(source[spos]) ==> Taken(source, start, spos + 1, end, a + [source[spos]])
    ensures !Significant(source[spos]) ==> Taken(source, start, spos + 1, end, a)
  {
    KeptStep(source, spos, end, a);
  }

  lemma KeptStep(source: seq<byte>, spos: nat, end: nat, a: seq<byte>)
    requires spos < end <= |source|
    ensures a + Kept(source[spos..end])
         == (if Significant(source[spos]) then a + [source[spos]] else a) + Kept(source[spos + 1..end])
  {
    var text := source[spos..end];
    assert text[1..] == source[spos + 1..end];
    Reassociate(a, if Significant(text[0]) then [text[0]] else [], Kept(text[1..]));
  }

  lemma StepDecoded(a: seq<byte>, rest: seq<byte>)
    requires |a| == 4
    ensures Decoded(a + rest) == Joined(Weights(a))[..Yield(a)] + if Yield(a) < 3 then [] else Decoded(rest)
  {
    assert (a + rest)[..4] == a && (a + rest)[4..] == rest;
  }

  lemma Reassociate(a: seq<byte>, b: seq<byte>, c: seq<byte>)
    ensures a + (b + c) == a + b + c && |a + b| + |c| == |a + (b + c)|
  {
  }

  lemma StepEncoded(rest: seq<byte>, igroup: seq<byte>, n: nat, ogroup: seq<byte>)
    requires |igroup| == 3 && 0 < n <= 3 && n <= |rest| && (n < 3 ==> n == |rest|)
    requires forall i :: 0 <= i < 3 ==> igroup[i] == if i < n then rest[i] else 0
    requires var q := Quad(igroup[0], igroup[1], igroup[2]);
             ogroup == match n case 1 => q[2 := PAD][3 := PAD] case 2 => q[3 := PAD] case _ => q
    ensures Encoded(rest) == ogroup + Encoded(rest[n..])
  {
    if n == 1 {
      assert rest[1..] == [] && igroup[0] == rest[0] && igroup[1] == 0 && igroup[2] == 0;
    } else if n == 2 {
      assert rest[2..] == [] && igroup[0] == rest[0] && igroup[1] == rest[1] && igroup[2] == 0;
    } else {
      assert igroup[0] == rest[0] && igroup[1] == rest[1] && igroup[2] == rest[2];
      assert ogroup == Quad(rest[0], rest[1], rest[2]);
    }
  }

  /**
   The law at the centre: decoding a text that holds an encoded string, with any 7-bit characters outside
   the alphabet put in, gives the string back in a buffer with room for the string and its NUL.
   */
  method DecodeEncoded(codec: Codec, dest: array<byte>, source: seq<byte>, length: nat, ghost end: nat,
                       ghost s: seq<byte>)
    returns (dpos: nat)
    requires codec.dtable.Length == 256 && dest != codec.dtable
    requires StopsAt(source, length, end) && SevenBit(source[..end])
    requires Sprinkled(source[..end], Encoded(s))
    requires |s| < dest.Length
    modifies dest, codec.dtable
    ensures dpos == |s| && dest[..dpos] == s
    ensures s != [] ==> dest[dpos] == 0
    ensures forall k :: |s| < k < dest.Length ==> dest[k] == old(dest[k])
  {
    RoundTrip(s, source[..end]);
    dpos := codec.Decode(dest, source, length, end);
  }
}
