/**
 * The potentiometer level meter: a 12-bit ADC reading, taken from the
 * channel switch 0 selects, is scaled to a level 0..9 and shown as a bar
 * of that many lit LEDs, the lowest LED first.
 *
 * The C code computes in 32-bit `int` and stores into `uint16_t`
 * variables; every intermediate value here fits those widths, so the
 * arithmetic is done on `bv32` and the stores are explicit conversions
 * to `bv16`.
 */
module LevelMeter {

  /** The ten LED outputs `init_gpio` configures (bits 0..9). */
  const LED_OUTPUTS: bv32 := 0x3FF

  /** The data and direction registers of the LED port. */
  class LedPort {
    var data: bv32
    var direction: bv32

    constructor (data: bv32, direction: bv32)
      ensures this.data == data && this.direction == direction
    {
      this.data := data;
      this.direction := direction;
    }
  }

  /** `init_gpio`: make the ten LED pins outputs. */
  method InitGpio(port: LedPort)
    modifies port`direction
    ensures port.direction == LED_OUTPUTS
  {
    port.direction := LED_OUTPUTS;
  }

  /**
   * The result `read_adc` returns once the conversion word is complete:
   * its low 12 bits, so a value below 4096 that, put back beside the
   * word's upper bits, gives the word.
   */
  function ReadAdc(word: bv32): (r: bv16)
    ensures r < 4096
    ensures (r as bv32) | (word & !0xFFF) == word
  {
    (word & 0x0FFF) as bv16
  }

  /**
   * `led_level`: the reading times 10, divided by 4096. Any 16-bit
   * reading gives at most 159; a 12-bit one at most 9.
   */
  function LedLevel(adc: bv16): (level: bv32)
    ensures level <= 159
    ensures adc < 4096 ==> level <= 9
  {
    (adc as bv32) * 10 / 4096
  }

  /**
   * The `uint16_t` bar pattern with the low `n` bits set: `2^n - 1`,
   * saturating at all sixteen bits.
   */
  function Bar(n: bv32): bv16
  {
    if n >= 16 then 0xFFFF else (((1 as bv32) << n) - 1) as bv16
  }

  /**
   * The loop body's `led_pattern |= (1 << i)`: the OR is done in `int`
   * and stored back into the 16-bit pattern, so bits from 16 on are cut
   * off. From 31 on the C shift overflows `int`.
   */
  function SetLed(pattern: bv16, i: bv16): bv16
    requires i < 31
  {
    (((pattern as bv32) | ((1 as bv32) << (i as bv32))) & 0xFFFF) as bv16
  }

  /** Lighting LED `i` on the bar of length `i` gives the bar of length `i + 1`. */
  lemma BarStep(i: bv16)
    requires i < 31
    ensures SetLed(Bar(i as bv32), i) == Bar(i as bv32 + 1)
  {
  }

  /**
   * `display_on_leds`: build the bar for the scaled reading one bit at a
   * time and write it to the LED data register. Past a level of 31 the
   * C shift `1 << i` overflows `int`, so the reading must keep the level
   * at or below 31 (every 12-bit reading does).
   */
  method DisplayOnLeds(adc: bv16, port: LedPort)
    requires LedLevel(adc) <= 31
    modifies port`data
    ensures port.data == Bar(LedLevel(adc)) as bv32
  {
    var pattern: bv16 := 0;
    var level := LedLevel(adc) as bv16;
    var i: bv16 := 0;
    while i < level
      invariant i <= level
      invariant pattern == Bar(i as bv32)
      decreases level - i
    {
      BarStep(i);
      pattern := SetLed(pattern, i);
      i := i + 1;
    }
    port.data := pattern as bv32;
  }

  /** Exactly the low `n` LEDs of the bar are lit. */
  lemma BarBits(n: bv32, j: bv32)
    requires j < 16
    ensures (Bar(n) >> j) & 1 == 1 <==> j < n
  {
  }

  /**
   * A 12-bit reading lights at most nine LEDs: the pattern is at most
   * 0x1FF, LED 9 stays dark and nothing falls outside the ten outputs.
   */
  lemma BarWithinOutputs(adc: bv16)
    requires adc < 4096
    ensures Bar(LedLevel(adc)) <= 0x1FF
    ensures (Bar(LedLevel(adc)) as bv32) & !LED_OUTPUTS == 0
  {
  }

  /** A higher reading never gives a lower level. */
  lemma LevelMonotone(a: bv16, b: bv16)
    requires a <= b
    ensures LedLevel(a) <= LedLevel(b)
  {
  }

  /** A longer bar contains a shorter one. */
  lemma BarSubset(m: bv32, n: bv32)
    requires m <= n
    ensures Bar(m) & Bar(n) == Bar(m)
  {
  }

  /** A higher reading lights every LED a lower one lights. */
  lemma BarMonotone(a: bv16, b: bv16)
    requires a <= b
    ensures Bar(LedLevel(a)) & Bar(LedLevel(b)) == Bar(LedLevel(a))
  {
    LevelMonotone(a, b);
    BarSubset(LedLevel(a), LedLevel(b));
  }

  /**
   * One pass of the `main` loop: switch 0 clear reads channel 0, set
   * reads channel 1; the reading's bar goes to the LEDs. The channel
   * words are the registers' contents once their conversions are done.
   */
  method MeterIteration(switches: bv32, channel0: bv32, channel1: bv32, port: LedPort)
    modifies port`data
    ensures port.data == Bar(LedLevel(ReadAdc(if switches & 1 == 0 then channel0 else channel1))) as bv32
    ensures port.data & !LED_OUTPUTS == 0
  {
    var switchValue := switches & 0x1;
    var adc: bv16;
    if switchValue == 0 {
      adc := ReadAdc(channel0);
    } else {
      adc := ReadAdc(channel1);
    }
    BarWithinOutputs(adc);
    DisplayOnLeds(adc, port);
  }
}
