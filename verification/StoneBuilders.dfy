/**
 The two builders that print a size into the program text of a stone, with the memory they set aside
 for it.
 */
module StoneBuilders {
  import opened Wrappers
  import opened Decimals

  /** A text in a buffer, and the highest index of the buffer that was written. */
  datatype Built = Built(text: string, buffer: nat, lastWritten: int) {
    predicate Fits() {
      lastWritten < buffer
    }
  }

  // ---------- the rolling bucket ----------

  /** The loop that counts the digits that "%d" needs beyond the first. */
  method ExtraDigits(size: nat) returns (lengthOfAdd: nat)
    requires size > 0
    ensures lengthOfAdd + 1 == |Decimal(size)|
  {
    DecimalLength(size);
    lengthOfAdd := 0;
    var tempSize := size;
    while tempSize != 0
      invariant tempSize != 0 ==> lengthOfAdd + DigitCount(tempSize) == DigitCount(size)
      invariant tempSize == 0 ==> lengthOfAdd + 1 == DigitCount(size)
    {
      tempSize := tempSize / 10;
      if tempSize != 0 {
        lengthOfAdd := lengthOfAdd + 1;
      }
    }
  }

  /** `text` is the template with a numeral for `size` between its two parts. */
  ghost predicate Names(text: string, before: string, size: int, after: string) {
    exists digits :: text == before + digits + after && Canonical(digits) && Value(digits) == size
  }

  /**
   No program for a size that is not positive. Otherwise the text names the size, the buffer of its top part
   is filled to the last byte, and both terminators of the whole stay inside the second buffer.
   */
  method BuildBucketSpec(size: int, before: string, after: string, funcSource: string, bottom: string)
    returns (top: Option<Built>, whole: Option<Built>)
    ensures top.Some? == whole.Some? == (size > 0)
    ensures size > 0 ==>
      && Names(top.value.text, before, size, after)
      && whole.value.text == top.value.text + funcSource + bottom
      && top.value.Fits() && top.value.lastWritten + 1 == top.value.buffer
      && whole.value.Fits() && whole.value.lastWritten == |whole.value.text| + 1
  {
    if size <= 0 {
      return None, None;
    }
    var template := before + "%d" + after;
    var lengthOfAdd := ExtraDigits(size);
    var topText := before + Decimal(size) + after;
    DecimalIsValue(size);
    DecimalIsCanonical(size);
    top := Some(Built(topText, |template| + lengthOfAdd, |topText|));
    var stringSize := |topText| + |funcSource| + |bottom|;
    var text := topText + funcSource + bottom;
    whole := Some(Built(text, stringSize + 2, |text| + 1));
  }

  // ---------- the transaction stone ----------

  /**
   One character is set aside for the size, whatever it is, and a second terminator is written behind the
   first. The writes stay inside the buffer exactly for sizes of one digit; the length check warns of every
   size but those whose numeral has two characters, so whenever it is silent the text does not fit.
   */
  method BuildTransactionSpec(size: int, parts: seq<string>) returns (spec: Built, warned: bool)
    requires |parts| == 5
    ensures spec.text == parts[0] + Printed(size) + parts[1] + "%d" + parts[2] + "%d" + parts[3] + "%d" + parts[4]
    ensures spec.Fits() <==> 0 <= size <= 9
    ensures |spec.text| < spec.buffer <==> |Printed(size)| <= 2
    ensures !warned <==> 10 <= size <= 99 || -9 <= size <= -1
    ensures !warned ==> !spec.Fits()
  {
    OneCharacter(size);
    var template := parts[0] + "%d" + parts[1] + "%s" + parts[2] + "%s" + parts[3] + "%s" + parts[4];
    var lengthOfAdd := 1;
    var text := parts[0] + Printed(size) + parts[1] + "%d" + parts[2] + "%d" + parts[3] + "%d" + parts[4];
    warned := |template| + lengthOfAdd != |text| + 1;
    assert |text| == |template| - 2 + |Printed(size)|;
    spec := Built(text, |template| + lengthOfAdd, |text| + 1);
  }
}
