/**
 * The switch-to-hex display: the four low slide switches select a
 * hexadecimal digit, whose seven-segment pattern is stored into HEX0,
 * then HEX0 is blanked. The HEX0 pointer is a `char` pointer, so each
 * store replaces byte 0 of the HEX3..HEX0 word and nothing else.
 */
module HexDisplay {
  import opened Options
  import opened Registers
  import opened SevenSegment

  /** `HEX_CODES`: the pattern of hexadecimal digit `d` is entry `d`. */
  const HEX_CODES: seq<bv8> :=
    [0x3F, 0x06, 0x5B, 0x4F, 0x66, 0x6D, 0x7D, 0x07,
     0x7F, 0x6F, 0x77, 0x7C, 0x39, 0x5E, 0x79, 0x71]

  /** The pattern that blanks a digit. */
  const BLANK: bv8 := 0x00

  /**
   * `read_switches`: the switch word masked to its low four bits, so a
   * value below 16 that, put back beside the upper bits, gives the word.
   */
  function ReadSwitches(switches: bv32): (v: bv32)
    ensures v < 16
    ensures v | (switches & !0xF) == switches
  {
    switches & 0xF
  }

  /**
   * `display_digit`: store the digit's pattern into HEX0. The C code
   * indexes the 16-entry table directly, so the digit must be in 0..15.
   */
  function ShowDigit(hex: bv32, digit: nat): (r: bv32)
    requires digit < |HEX_CODES|
    ensures Bytes(r) == Bytes(hex)[0 := HEX_CODES[digit]]
  {
    SetByteFields(hex, 0, HEX_CODES[digit]);
    SetByte(hex, 0, HEX_CODES[digit])
  }

  /**
   * One pass of the `main` loop, as the two successive values of the
   * HEX3..HEX0 word: first the pattern of the switch value, then HEX0
   * blanked. The other three digits keep what they held.
   */
  function MainIteration(hex: bv32, switches: bv32): (writes: seq<bv32>)
    ensures |writes| == 2
    ensures Bytes(writes[0]) == Bytes(hex)[0 := HEX_CODES[ReadSwitches(switches) as int]]
    ensures Bytes(writes[1]) == Bytes(hex)[0 := BLANK]
  {
    var shown := ShowDigit(hex, ReadSwitches(switches) as int);
    SetByteFields(shown, 0, BLANK);
    [shown, SetByte(shown, 0, BLANK)]
  }

  /** Reading a hexadecimal digit back from a segment pattern. */
  function DecodeHex(b: bv8): (r: Option<nat>)
    ensures r.Some? ==> r.value < |HEX_CODES| && HEX_CODES[r.value] == b
    ensures r.None? ==> b !in HEX_CODES
  {
    if b == 0x3F then Some(0)
    else if b == 0x06 then Some(1)
    else if b == 0x5B then Some(2)
    else if b == 0x4F then Some(3)
    else if b == 0x66 then Some(4)
    else if b == 0x6D then Some(5)
    else if b == 0x7D then Some(6)
    else if b == 0x07 then Some(7)
    else if b == 0x7F then Some(8)
    else if b == 0x6F then Some(9)
    else if b == 0x77 then Some(10)
    else if b == 0x7C then Some(11)
    else if b == 0x39 then Some(12)
    else if b == 0x5E then Some(13)
    else if b == 0x79 then Some(14)
    else if b == 0x71 then Some(15)
    else None
  }

  /** Every hexadecimal digit reads back as itself. */
  lemma DecodeHexEncode(d: nat)
    requires d < |HEX_CODES|
    ensures DecodeHex(HEX_CODES[d]) == Some(d)
  {
  }

  /** Sixteen digits, sixteen different patterns: the hex encoding is injective. */
  lemma HexCodesDistinct()
    ensures Distinct(HEX_CODES)
  {
    forall i, j | 0 <= i < j < |HEX_CODES|
      ensures HEX_CODES[i] != HEX_CODES[j]
    {
      DecodeHexEncode(i);
      DecodeHexEncode(j);
    }
  }

  /** The decimal digits are drawn exactly as the stopwatch draws them. */
  lemma HexExtendsDecimal()
    ensures HEX_CODES[..10] == DIGIT_SEGMENTS
    ensures forall d :: 0 <= d < 10 ==> HEX_CODES[d] == Encode(d)
  {
  }

  /** The blank pattern is no digit, so the two writes of a pass are always told apart. */
  lemma BlankIsNoDigit()
    ensures DecodeHex(BLANK).None?
  {
  }

  /**
   * What a pass shows: while it is lit, HEX0 reads back as the value of
   * the four low switches; then it reads as no digit. Every switch word
   * indexes the table in bounds.
   */
  lemma MainIterationShowsSwitches(hex: bv32, switches: bv32)
    ensures DecodeHex(Bytes(MainIteration(hex, switches)[0])[0]) == Some(ReadSwitches(switches) as int)
    ensures DecodeHex(Bytes(MainIteration(hex, switches)[1])[0]).None?
  {
    DecodeHexEncode(ReadSwitches(switches) as int);
  }
}
