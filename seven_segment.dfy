/**
 * The seven-segment encoder of the stopwatch: a fixed table from the
 * decimal digits 0..9 to segment patterns (bit 0 = segment a, ...,
 * bit 6 = segment g), and its inverse.
 */
module SevenSegment {
  import opened Options

  /** `seven_seg_digits`: the pattern of digit `d` is entry `d`. */
  const DIGIT_SEGMENTS: seq<bv8> :=
    [0x3F, 0x06, 0x5B, 0x4F, 0x66, 0x6D, 0x7D, 0x07, 0x7F, 0x6F]

  /** No entry of a table occurs twice. */
  predicate Distinct<T(==)>(table: seq<T>)
  {
    forall i, j :: 0 <= i < j < |table| ==> table[i] != table[j]
  }

  /** The segment pattern of a decimal digit; the table is only indexed with digits. */
  function Encode(d: nat): (b: bv8)
    requires d < 10
    ensures b < 0x80
  {
    DIGIT_SEGMENTS[d]
  }

  /** Reading a digit back from a segment pattern; `None` for a pattern that is no digit. */
  function Decode(b: bv8): (r: Option<nat>)
    ensures r.Some? ==> r.value < 10 && Encode(r.value) == b
    ensures r.None? ==> b !in DIGIT_SEGMENTS
  {
    if b == 0x3F then Some(0)
    else if b == 0x06 then Some(1)
    else if b == 0x5B then Some(2)
    else if b == 0x4F then Some(3)
    else if b == 0x66 then Some(4)
    else if b == 0x6D then Some(5)
    else if b == 0x7D then Some(6)
    else if b == 0x07 then Some(7)
    else if b == 0x7F then Some(8)
    else if b == 0x6F then Some(9)
    else None
  }

  /** Ten digits, ten different patterns. */
  lemma SegmentsDistinct()
    ensures Distinct(DIGIT_SEGMENTS)
  {
  }

  /** Every digit reads back as itself, so the encoding is injective. */
  lemma DecodeEncode(d: nat)
    requires d < 10
    ensures Decode(Encode(d)) == Some(d)
  {
  }
}
