/**
 * What `display_time` puts on the six seven-segment digits: position 0
 * (HEX0) is the units of the hundredths, then the tens of the
 * hundredths, the units and tens of the seconds, and the units and tens
 * of the minutes on HEX5. A reader of the display recovers the counter.
 */
module StopwatchDisplay {
  import opened Options
  import opened SevenSegment
  import opened StopwatchTime

  /**
   * Field values `display_time` can show: each splits into two decimal
   * digits, so every index into the digit table stays below 10.
   */
  predicate Showable(t: Time)
  {
    t.minutes < 100 && t.seconds < 100 && t.hundredths < 100
  }

  lemma ValidShowable(t: Time)
    requires t.Valid()
    ensures Showable(t)
  {
  }

  /** The digit shown at each of the six positions, position 0 first. */
  function Digits(t: Time): (d: seq<nat>)
    requires Showable(t)
    ensures |d| == 6 && forall i :: 0 <= i < 6 ==> d[i] < 10
  {
    [t.hundredths % 10, t.hundredths / 10,
     t.seconds % 10, t.seconds / 10,
     t.minutes % 10, t.minutes / 10]
  }

  /** The six segment patterns `display_time` writes, position 0 first. */
  function Render(t: Time): (r: seq<bv8>)
    requires Showable(t)
    ensures |r| == 6
  {
    var d := Digits(t);
    [Encode(d[0]), Encode(d[1]), Encode(d[2]), Encode(d[3]), Encode(d[4]), Encode(d[5])]
  }

  /** Read a two-digit field off its units and tens patterns. */
  function ReadField(units: bv8, tens: bv8): (v: Option<nat>)
    ensures v.Some? ==> v.value < 100
  {
    var u, t := Decode(units), Decode(tens);
    if u.Some? && t.Some? then Some(t.value * 10 + u.value) else None
  }

  /** Read a counter value off the six display bytes, as a person reading the board would. */
  function ReadDisplay(r: seq<bv8>): (t: Option<Time>)
    ensures t.Some? ==> Showable(t.value) && |r| == 6
  {
    if |r| != 6 then None
    else
      var m, s, h := ReadField(r[4], r[5]), ReadField(r[2], r[3]), ReadField(r[0], r[1]);
      if m.Some? && s.Some? && h.Some? then Some(Time(m.value, s.value, h.value)) else None
  }

  lemma TensAndUnits(v: nat)
    ensures v == (v / 10) * 10 + v % 10
  {
  }

  /** Two digit patterns read back as the two-digit number they spell. */
  lemma ReadFieldDigits(u: nat, t: nat)
    requires u < 10 && t < 10
    ensures ReadField(Encode(u), Encode(t)) == Some(t * 10 + u)
  {
    DecodeEncode(u);
    DecodeEncode(t);
  }

  /** A two-digit value reads back from its two patterns. */
  lemma ReadFieldBack(v: nat)
    requires v < 100
    ensures ReadField(Encode(v % 10), Encode(v / 10)) == Some(v)
  {
    ReadFieldDigits(v % 10, v / 10);
    TensAndUnits(v);
  }

  /** Every showable counter value reads back from the display as itself. */
  lemma ReadBack(t: Time)
    requires Showable(t)
    ensures ReadDisplay(Render(t)) == Some(t)
  {
    ReadFieldBack(t.minutes);
    ReadFieldBack(t.seconds);
    ReadFieldBack(t.hundredths);
  }

  /** Different showable values light different segments. */
  lemma RenderInjective(t: Time, u: Time)
    requires Showable(t) && Showable(u) && Render(t) == Render(u)
    ensures t == u
  {
    ReadBack(t);
    ReadBack(u);
  }
}
