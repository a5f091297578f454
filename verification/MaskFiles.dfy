/** The 256-bit masks of the AP bus, written as hexadecimal text with the most significant bit first. */
module MaskFiles {
  import opened Wrappers

  const MASK_BYTES := 32

  /** Bit k of a byte, counted from the most significant one. */
  function ByteBit(k: nat): bv8 {
    if k == 0 then 0x80 else if k == 1 then 0x40 else if k == 2 then 0x20 else if k == 3 then 0x10
    else if k == 4 then 0x08 else if k == 5 then 0x04 else if k == 6 then 0x02 else 0x01
  }

  /** Bit k of a hexadecimal digit, counted from the most significant one. */
  function NibbleBit(k: nat): bv8 {
    if k == 0 then 8 else if k == 1 then 4 else if k == 2 then 2 else 1
  }

  predicate HasBit(b: bv8, k: nat) {
    b & ByteBit(k) != 0
  }

  /** A digit of the verb %x. */
  function HexDigit(n: bv8): char {
    match n
    case 0 => '0' case 1 => '1' case 2 => '2' case 3 => '3'
    case 4 => '4' case 5 => '5' case 6 => '6' case 7 => '7'
    case 8 => '8' case 9 => '9' case 10 => 'a' case 11 => 'b'
    case 12 => 'c' case 13 => 'd' case 14 => 'e' case _ => 'f'
  }

  /** The value of a hexadecimal digit; None for any other character. */
  function HexValue(c: char): Option<bv8> {
    match c
    case '0' => Some(0) case '1' => Some(1) case '2' => Some(2) case '3' => Some(3)
    case '4' => Some(4) case '5' => Some(5) case '6' => Some(6) case '7' => Some(7)
    case '8' => Some(8) case '9' => Some(9) case 'a' => Some(10) case 'b' => Some(11)
    case 'c' => Some(12) case 'd' => Some(13) case 'e' => Some(14) case 'f' => Some(15)
    case _ => None
  }

  const HEX_DIGITS := "0123456789abcdef"

  /** The digits are the sixteen usual ones, in their order. */
  lemma HexDigitIs(n: bv8)
    requires n <= 15
    ensures HexDigit(n) == HEX_DIGITS[n as nat] && HexDigit(n) in HEX_DIGITS
    ensures HexValue(HEX_DIGITS[n as nat]) == Some(n)
  {
    assert n as nat <= 15;
  }

  /** The verb %02x for a byte. */
  function HexByte(b: bv8): (s: string)
    ensures |s| == 2
  {
    [HexDigit(b >> 4), HexDigit(b & 0x0f)]
  }

  /** How a reader of the mask file finds bit m: four bits a digit, behind the leading 0x. */
  predicate BitInText(text: string, m: nat)
    requires m < 256 && |text| == 67
  {
    DigitHasBit(text[2 + m / 4], m % 4)
  }

  /** The character is a hexadecimal digit with bit k set. */
  predicate DigitHasBit(c: char, k: nat) {
    HexValue(c).Some? && HexValue(c).value & NibbleBit(k) != 0
  }

  /** Bit k of byte j of the mask: the listed ones are set in an empty mask and cleared in any other. */
  predicate Wanted(fill: bv8, mods: seq<int>, j: nat, k: nat) {
    if 8 * j + k in mods then fill == 0 else HasBit(fill, k)
  }

  lemma HexDigitRoundTrip(n: bv8)
    requires n <= 15
    ensures HexValue(HexDigit(n)) == Some(n)
  {
  }

  lemma HexByteBits(b: bv8, k: nat)
    requires k < 8
    ensures DigitHasBit(HexByte(b)[k / 4], k % 4) <==> HasBit(b, k)
  {
    if k < 4 {
      HexDigitRoundTrip(b >> 4);
      HighNibble(b, k);
    } else {
      HexDigitRoundTrip(b & 0x0f);
      LowNibble(b, k - 4);
    }
  }

  lemma HighNibble(b: bv8, k: nat)
    requires k < 4
    ensures (b >> 4) & NibbleBit(k) != 0 <==> b & ByteBit(k) != 0
  {
  }

  lemma LowNibble(b: bv8, k: nat)
    requires k < 4
    ensures (b & 0x0f) & NibbleBit(k) != 0 <==> b & ByteBit(k + 4) != 0
  {
  }

  lemma ShiftedBit(k: nat)
    requires k < 8
    ensures (0x80 as bv8) >> k == ByteBit(k)
  {
  }

  lemma SetBit(b: bv8, q: nat, k: nat)
    requires q < 8 && k < 8
    ensures HasBit(b | ByteBit(q), k) <==> q == k || HasBit(b, k)
  {
  }

  lemma ClearBit(b: bv8, q: nat, k: nat)
    requires q < 8 && k < 8
    ensures HasBit(b & !ByteBit(q), k) <==> q != k && HasBit(b, k)
  {
  }

  /** Byte j of the mask holds the wanted bits. */
  ghost predicate ByteDone(b: bv8, fill: bv8, mods: seq<int>, j: nat) {
    forall k :: 0 <= k < 8 ==> (HasBit(b, k) <==> Wanted(fill, mods, j, k))
  }

  /** One listed bit, applied to the byte it falls into. */
  lemma ModifyByte(b: bv8, fill: bv8, mods: seq<int>, j: nat, q: nat)
    requires q < 8 && ByteDone(b, fill, mods, j)
    ensures ByteDone(Modified(b, fill, q), fill, mods + [8 * j + q], j)
  {
    var m := 8 * j + q;
    var b' := Modified(b, fill, q);
    forall k | 0 <= k < 8
      ensures HasBit(b', k) <==> Wanted(fill, mods + [m], j, k)
    {
      SetBit(b, q, k);
      ClearBit(b, q, k);
      assert 8 * j + k in mods + [m] <==> 8 * j + k in mods || k == q;
    }
  }

  lemma OtherByte(b: bv8, fill: bv8, mods: seq<int>, m: int, j: nat)
    requires !(8 * j <= m < 8 * j + 8) && ByteDone(b, fill, mods, j)
    ensures ByteDone(b, fill, mods + [m], j)
  {
    forall k | 0 <= k < 8
      ensures HasBit(b, k) <==> Wanted(fill, mods + [m], j, k)
    {
      assert 8 * j + k in mods + [m] <==> 8 * j + k in mods;
    }
  }

  function HexText(bytes: seq<bv8>): (s: string)
    ensures |s| == 2 * |bytes|
  {
    if bytes == [] then "" else HexText(bytes[..|bytes| - 1]) + HexByte(bytes[|bytes| - 1])
  }

  lemma {:induction false} HexTextAt(bytes: seq<bv8>, j: nat)
    requires j < |bytes|
    ensures HexText(bytes)[2 * j] == HexByte(bytes[j])[0]
    ensures HexText(bytes)[2 * j + 1] == HexByte(bytes[j])[1]
  {
    if j < |bytes| - 1 {
      HexTextAt(bytes[..|bytes| - 1], j);
    }
  }

  lemma HexByteIsHex(b: bv8)
    ensures HexByte(b)[0] in HEX_DIGITS && HexByte(b)[1] in HEX_DIGITS
  {
    HexDigitIs(b >> 4);
    HexDigitIs(b & 0x0f);
  }

  lemma {:induction false} HexTextIsHex(bytes: seq<bv8>)
    ensures forall i :: 0 <= i < |HexText(bytes)| ==> HexText(bytes)[i] in HEX_DIGITS
  {
    if bytes == [] {
    } else {
      HexTextIsHex(bytes[..|bytes| - 1]);
      HexByteIsHex(bytes[|bytes| - 1]);
    }
  }

  /** Bit k of a digit counts 8, 4, 2 and 1, in this order. */
  lemma DigitBitCounts(c: char, k: nat)
    requires k < 4
    ensures DigitHasBit(c, k) <==>
            HexValue(c).Some? &&
            (HexValue(c).value as nat / (if k == 0 then 8 else if k == 1 then 4 else if k == 2 then 2 else 1)) % 2 == 1
  {
  }

  /** A mask of the first and the last bit. */
  method FirstAndLastBit() returns (text: string)
    ensures |text| == 67 && text[2] == '8' && text[65] == '1' && forall i :: 3 <= i < 65 ==> text[i] == '0'
  {
    text := Make256BitMask(0x00, [0, 255]);
    forall i, k | 2 <= i < 66 && 0 <= k < 4
      ensures DigitHasBit(text[i], k) <==> (i == 2 && k == 0) || (i == 65 && k == 3)
    {
      var m: nat := 4 * (i - 2) + k;
      assert m / 4 == i - 2 && m % 4 == k;
      assert BitInText(text, m) <==> m in [0, 255];
    }
    forall i | 2 <= i < 66
      ensures text[i] == if i == 2 then '8' else if i == 65 then '1' else '0'
    {
      DigitFromBits(text[i], i == 2, false, false, i == 65);
    }
  }

  /** A digit is determined by its bits. */
  lemma DigitFromBits(c: char, b0: bool, b1: bool, b2: bool, b3: bool)
    requires c in HEX_DIGITS
    requires (DigitHasBit(c, 0) <==> b0) && (DigitHasBit(c, 1) <==> b1)
    requires (DigitHasBit(c, 2) <==> b2) && (DigitHasBit(c, 3) <==> b3)
    ensures c == HEX_DIGITS[(if b0 then 8 else 0) + (if b1 then 4 else 0) + (if b2 then 2 else 0) + if b3 then 1 else 0]
  {
  }

  /** The text of a mask, read back bit by bit. */
  lemma TextHoldsBits(bytes: seq<bv8>, fill: bv8, mods: seq<int>, j: nat, k: nat)
    requires MaskDone(bytes, fill, mods) && j < MASK_BYTES && k < 8
    ensures BitInText("0x" + HexText(bytes) + "\n", 8 * j + k) <==> Wanted(fill, mods, j, k)
  {
    var text := "0x" + HexText(bytes) + "\n";
    HexTextAt(bytes, j);
    HexByteBits(bytes[j], k);
    DigitOfBit(j, k);
    assert text[2 + 2 * j + k / 4] == HexText(bytes)[2 * j + k / 4] == HexByte(bytes[j])[k / 4];
  }

  lemma DigitOfBit(j: nat, k: nat)
    requires k < 8
    ensures (8 * j + k) / 4 == 2 * j + k / 4 && (8 * j + k) % 4 == k % 4
  {
  }

  /** All bytes of the mask hold the wanted bits. */
  ghost predicate MaskDone(bytes: seq<bv8>, fill: bv8, mods: seq<int>) {
    |bytes| == MASK_BYTES && forall j :: 0 <= j < MASK_BYTES ==> ByteDone(bytes[j], fill, mods, j)
  }

  function Modified(b: bv8, fill: bv8, q: nat): bv8 {
    if fill == 0 then b | ByteBit(q) else b & !ByteBit(q)
  }

  lemma ModifyMask(bytes: seq<bv8>, fill: bv8, mods: seq<int>, m: int)
    requires MaskDone(bytes, fill, mods) && 0 <= m < 256
    ensures MaskDone(bytes[m / 8 := Modified(bytes[m / 8], fill, m % 8)], fill, mods + [m])
  {
    var i, q := m / 8, m % 8;
    assert m == 8 * i + q;
    var bytes' := bytes[i := Modified(bytes[i], fill, q)];
    ModifyByte(bytes[i], fill, mods, i, q);
    forall j | 0 <= j < MASK_BYTES
      ensures ByteDone(bytes'[j], fill, mods + [m], j)
    {
      if j != i {
        OtherByte(bytes[j], fill, mods, m, j);
      }
    }
  }

  method BitOf(m: int) returns (b: bv8)
    requires 0 <= m
    ensures b == ByteBit(m % 8)
  {
    b := (0x80 as bv8) >> (m % 8);
    ShiftedBit(m % 8);
  }

  /** One listed bit, applied to the mask. */
  method ApplyBit(mask: array<bv8>, fill: bv8, m: int)
    requires mask.Length == MASK_BYTES && 0 <= m < 256
    modifies mask
    ensures mask[..] == old(mask[..])[m / 8 := Modified(old(mask[m / 8]), fill, m % 8)]
  {
    var b := BitOf(m);
    if fill == 0 {
      mask[m / 8] := mask[m / 8] | b;
    } else {
      mask[m / 8] := mask[m / 8] & !b;
    }
  }

  /** Applies the listed bits to a filled mask. */
  method BuildMask(fill: bv8, mods: seq<int>) returns (mask: array<bv8>)
    requires forall i :: 0 <= i < |mods| ==> 0 <= mods[i] < 256
    ensures fresh(mask) && mask.Length == MASK_BYTES && MaskDone(mask[..], fill, mods)
  {
    mask := new bv8[MASK_BYTES];
    for i := 0 to MASK_BYTES
      invariant forall j :: 0 <= j < i ==> mask[j] == fill
    {
      mask[i] := fill;
    }
    for n := 0 to |mods|
      invariant MaskDone(mask[..], fill, mods[..n])
    {
      assert mods[..n + 1] == mods[..n] + [mods[n]];
      ModifyMask(mask[..], fill, mods[..n], mods[n]);
      ApplyBit(mask, fill, mods[n]);
    }
    assert mods[..|mods|] == mods;
  }

  /** The text of 32 bytes is 64 hexadecimal digits in one line. */
  lemma MaskTextLooks(bytes: seq<bv8>)
    requires |bytes| == 32
    ensures var text := "0x" + HexText(bytes) + "\n";
            && |text| == 67 && text[..2] == "0x" && text[66] == '\n'
            && forall i :: 2 <= i < 66 ==> text[i] in HEX_DIGITS
  {
    var text := "0x" + HexText(bytes) + "\n";
    HexTextIsHex(bytes);
    forall i | 2 <= i < 66
      ensures text[i] in HEX_DIGITS
    {
      assert text[i] == HexText(bytes)[i - 2];
    }
  }

  lemma TextHoldsBit(text: string, bytes: seq<bv8>, fill: bv8, mods: seq<int>, m: nat)
    requires MaskDone(bytes, fill, mods) && m < 256 && text == "0x" + HexText(bytes) + "\n"
    ensures |text| == 67 && (BitInText(text, m) <==> Wanted(fill, mods, m / 8, m % 8))
  {
    var j, k := m / 8, m % 8;
    assert m == 8 * j + k;
    HexTextIsHex(bytes);
    TextHoldsBits(bytes, fill, mods, j, k);
  }

  /** The text of a finished mask. */
  lemma MaskTextMeans(bytes: seq<bv8>, fill: bv8, mods: seq<int>)
    requires MaskDone(bytes, fill, mods)
    ensures var text := "0x" + HexText(bytes) + "\n";
            && |text| == 67 && text[..2] == "0x" && text[66] == '\n'
            && (forall i :: 2 <= i < 66 ==> text[i] in HEX_DIGITS)
            && forall m: nat :: m < 256 ==> (BitInText(text, m) <==> Wanted(fill, mods, m / 8, m % 8))
  {
    var text := "0x" + HexText(bytes) + "\n";
    MaskTextLooks(bytes);
    forall m: nat | m < 256
      ensures BitInText(text, m) <==> Wanted(fill, mods, m / 8, m % 8)
    {
      TextHoldsBit(text, bytes, fill, mods, m);
    }
  }

  lemma WantedOf(fill: bv8, mods: seq<int>, m: nat)
    requires m < 256
    ensures fill == 0x00 ==> (Wanted(fill, mods, m / 8, m % 8) <==> m in mods)
    ensures fill == 0xff ==> (Wanted(fill, mods, m / 8, m % 8) <==> m !in mods)
  {
  }

  /**
     The mask file's text, in hexadecimal digits. Reading it back gives, most significant bit first, exactly the
     listed bits for fill 0x00 and exactly the others for fill 0xff, in any order and however often listed.
   */
  method Make256BitMask(fill: bv8, mods: seq<int>) returns (text: string)
    requires forall i :: 0 <= i < |mods| ==> 0 <= mods[i] < 256
    ensures |text| == 67 && text[..2] == "0x" && text[66] == '\n'
    ensures forall i :: 2 <= i < 66 ==> text[i] in HEX_DIGITS
    ensures forall m: nat :: m < 256 ==> (BitInText(text, m) <==> Wanted(fill, mods, m / 8, m % 8))
    ensures fill == 0x00 ==> forall m: nat :: m < 256 ==> (BitInText(text, m) <==> m in mods)
    ensures fill == 0xff ==> forall m: nat :: m < 256 ==> (BitInText(text, m) <==> m !in mods)
  {
    var mask := BuildMask(fill, mods);
    text := "0x";
    for i := 0 to mask.Length
      invariant text == "0x" + HexText(mask[..i])
    {
      assert mask[..i + 1][..i] == mask[..i];
      text := text + HexByte(mask[i]);
    }
    assert mask[..mask.Length] == mask[..];
    text := text + "\n";
    MaskTextMeans(mask[..], fill, mods);
    forall m: nat | m < 256
      ensures fill == 0x00 ==> (BitInText(text, m) <==> m in mods)
      ensures fill == 0xff ==> (BitInText(text, m) <==> m !in mods)
    {
      WantedOf(fill, mods, m);
    }
  }
}
