/**
 * The polled stopwatch program: its global state, the memory-mapped
 * devices it talks to, one method per C function and `Step` for one
 * pass of the `main` loop.
 *
 * Each device is an object whose fields are its registers. The
 * environment (the hardware, the user) may change the timer's status
 * register and the inputs between calls; the program itself only reads
 * the inputs.
 */
module StopwatchProgram {
  import opened Registers
  import opened SevenSegment
  import opened StopwatchTime
  import opened StopwatchEngine
  import opened StopwatchDisplay

  /** Control word that enables the timer with auto-reload. */
  const TIMER_ENABLE: bv32 := 0x3

  /** Control word that stops the timer. */
  const TIMER_DISABLE: bv32 := 0x0

  /**
   * The status register is write-one-to-clear: storing 1 to it clears
   * the timeout bit F (bit 0). This is the register after such a store.
   */
  function AcknowledgeTimeout(status: bv32): (r: bv32)
    ensures r & 1 == 0
    ensures r | 1 == status | 1
  {
    status & !1
  }

  /** Acknowledging a timeout that is already acknowledged changes nothing. */
  lemma AcknowledgeTwice(status: bv32)
    ensures AcknowledgeTimeout(AcknowledgeTimeout(status)) == AcknowledgeTimeout(status)
  {
    var once := status & !1;
    assert once & !1 == once;
  }

  /** The six digit patterns shown by the two display words, HEX0 first. */
  function Board(low: bv32, high: bv32): (r: seq<bv8>)
    ensures |r| == 6
  {
    Bytes(low) + Bytes(high)[..2]
  }

  /** Writing byte `p` of HEX3..HEX0 changes digit `p` of the board and nothing else. */
  lemma BoardSetLow(low: bv32, high: bv32, p: bv32, b: bv8)
    requires p < 4
    ensures Board(SetByte(low, p, b), high) == Board(low, high)[p as int := b]
  {
    SetByteFields(low, p, b);
    UpdateLeft(Bytes(low), Bytes(high)[..2], p as int, b);
  }

  /**
   * Writing byte `q` of HEX5..HEX4 changes digit `q + 4` of the board and
   * nothing else; the word's upper two bytes are not on the board.
   */
  lemma BoardSetHigh(low: bv32, high: bv32, q: bv32, b: bv8)
    requires q < 4
    ensures q < 2 ==> Board(low, SetByte(high, q, b)) == Board(low, high)[q as int + 4 := b]
    ensures q >= 2 ==> Board(low, SetByte(high, q, b)) == Board(low, high)
  {
    SetByteFields(high, q, b);
    var i := q as int;
    if q < 2 {
      assert Bytes(high)[i := b][..2] == Bytes(high)[..2][i := b];
      UpdateRight(Bytes(low), Bytes(high)[..2], i, b);
    } else {
      assert Bytes(high)[i := b][..2] == Bytes(high)[..2];
    }
  }

  /** The interval timer: its status register (bit 0 is the timeout flag F) and its control register. */
  class Timer {
    var status: bv32
    var control: bv32

    constructor (status: bv32, control: bv32)
      ensures this.status == status && this.control == control
    {
      this.status := status;
      this.control := control;
    }

    /** The timeout flag is set. */
    predicate Expired()
      reads this
    {
      status & 1 != 0
    }
  }

  /** The seven-segment display: HEX3..HEX0 (positions 0..3) and HEX5..HEX4 (positions 4 and 5). */
  class SegmentDisplay {
    var low: bv32
    var high: bv32

    constructor (low: bv32, high: bv32)
      ensures this.low == low && this.high == high
    {
      this.low := low;
      this.high := high;
    }

    /** The six digit patterns on the board, HEX0 first. */
    function Shown(): (r: seq<bv8>)
      reads this
      ensures |r| == 6
    {
      Board(low, high)
    }
  }

  /** The pushbutton data register (KEY3..KEY0, active low) and the slide switches. */
  class Inputs {
    var keys: bv32
    var switches: bv32

    constructor (keys: bv32, switches: bv32)
      ensures this.keys == keys && this.switches == switches
    {
      this.keys := keys;
      this.switches := switches;
    }
  }

  class Stopwatch {
    var minutes: nat
    var seconds: nat
    var hundredths: nat
    var lapMinutes: nat
    var lapSeconds: nat
    var lapHundredths: nat
    var isRunning: bool
    var lapMode: bool
    var previousKeys: bv32

    const timer: Timer
    const display: SegmentDisplay
    const inputs: Inputs

    /** Both counters stay in range. */
    ghost predicate Valid()
      reads this
    {
      Snapshot().Valid()
    }

    function Live(): Time
      reads this
    {
      Time(minutes, seconds, hundredths)
    }

    function Lap(): Time
      reads this
    {
      Time(lapMinutes, lapSeconds, lapHundredths)
    }

    /** The state the engine model describes. */
    function Snapshot(): Engine
      reads this
    {
      Engine(Live(), Lap(), isRunning)
    }

    /** Program start: the globals' initial values, attached to the three devices. */
    constructor (timer: Timer, display: SegmentDisplay, inputs: Inputs)
      ensures Valid()
      ensures Snapshot() == Engine(Zero, Zero, false) && !lapMode
      ensures previousKeys == ALL_RELEASED
      ensures this.timer == timer && this.display == display && this.inputs == inputs
    {
      minutes, seconds, hundredths := 0, 0, 0;
      lapMinutes, lapSeconds, lapHundredths := 0, 0, 0;
      isRunning, lapMode := false, false;
      previousKeys := ALL_RELEASED;
      this.timer, this.display, this.inputs := timer, display, inputs;
    }

    /**
     * `start_timer`: acknowledge a pending timeout, enable the timer and
     * set the run flag, whether or not it was already running.
     */
    method StartTimer()
      modifies this`isRunning, timer
      ensures Snapshot() == Start(old(Snapshot()))
      ensures timer.status == AcknowledgeTimeout(old(timer.status))
      ensures timer.control == TIMER_ENABLE
    {
      timer.status := AcknowledgeTimeout(timer.status);
      timer.control := TIMER_ENABLE;
      isRunning := true;
    }

    /** `stop_timer`: disable the timer and clear the run flag. */
    method StopTimer()
      modifies this`isRunning, timer`control
      ensures Snapshot() == Stop(old(Snapshot()))
      ensures timer.control == TIMER_DISABLE
    {
      timer.control := TIMER_DISABLE;
      isRunning := false;
    }

    /** `clear_stopwatch`: all six counters to zero; the run flag and the display mode are kept. */
    method ClearStopwatch()
      modifies this`minutes, this`seconds, this`hundredths
      modifies this`lapMinutes, this`lapSeconds, this`lapHundredths
      ensures Snapshot() == Clear(old(Snapshot()))
      ensures Valid()
    {
      minutes := 0;
      seconds := 0;
      hundredths := 0;
      lapMinutes := 0;
      lapSeconds := 0;
      lapHundredths := 0;
    }

    /**
     * `update_time`: one hundredth more, with carry into the seconds and
     * the minutes and a wrap of the minutes at 60.
     */
    method UpdateTime()
      modifies this`minutes, this`seconds, this`hundredths
      ensures Live() == Tick(old(Live()))
      ensures old(Valid()) ==> Valid()
    {
      hundredths := hundredths + 1;
      if hundredths >= 100 {
        hundredths := 0;
        seconds := seconds + 1;
        if seconds >= 60 {
          seconds := 0;
          minutes := minutes + 1;
          if minutes >= 60 {
            minutes := 0;
          }
        }
      }
    }

    /** `store_lap_time`: the lap triple becomes a copy of the live triple. */
    method StoreLapTime()
      modifies this`lapMinutes, this`lapSeconds, this`lapHundredths
      ensures Snapshot() == StoreLap(old(Snapshot()))
      ensures old(Valid()) ==> Valid()
    {
      lapMinutes := minutes;
      lapSeconds := seconds;
      lapHundredths := hundredths;
    }

    /**
     * `display_digit`: read-modify-write of the byte for `position` in
     * HEX3..HEX0 (positions 0..3) or HEX5..HEX4 (positions 4 and up):
     * that byte becomes the digit's pattern and every other byte of both
     * words is kept. Positions 6 and 7 land in the unused upper bytes of
     * HEX5..HEX4; from 8 on the shift would leave the word.
     */
    method DisplayDigit(digit: nat, position: bv32)
      requires digit < 10 && position < 8
      modifies display
      ensures position < 4 ==>
        Bytes(display.low) == Bytes(old(display.low))[position as int := Encode(digit)] && display.high == old(display.high)
      ensures position >= 4 ==>
        Bytes(display.high) == Bytes(old(display.high))[(position - 4) as int := Encode(digit)] && display.low == old(display.low)
      ensures position < 6 ==> display.Shown() == old(display.Shown())[position as int := Encode(digit)]
      ensures position >= 6 ==> display.Shown() == old(display.Shown())
    {
      var pattern := DIGIT_SEGMENTS[digit];
      assert pattern == Encode(digit);
      if position < 4 {
        display.low := ClearByte(display.low, position);
        display.low := OrByte(display.low, position, pattern);
        SetByteFields(old(display.low), position, pattern);
        BoardSetLow(old(display.low), display.high, position, pattern);
      } else {
        display.high := ClearByte(display.high, position - 4);
        display.high := OrByte(display.high, position - 4, pattern);
        SetByteFields(old(display.high), position - 4, pattern);
        BoardSetHigh(display.low, old(display.high), position - 4, pattern);
      }
    }

    /**
     * `display_time`: the six digits of a counter value, each field split
     * into units and tens. Fields below 100 keep every table index below 10.
     */
    method DisplayTime(min: nat, sec: nat, hnd: nat)
      requires min < 100 && sec < 100 && hnd < 100
      modifies display
      ensures display.Shown() == Render(Time(min, sec, hnd))
    {
      DisplayDigit(hnd % 10, 0);
      DisplayDigit(hnd / 10, 1);
      DisplayDigit(sec % 10, 2);
      DisplayDigit(sec / 10, 3);
      DisplayDigit(min % 10, 4);
      DisplayDigit(min / 10, 5);
    }

    /** `update_display`: show the lap triple in lap mode, the live triple otherwise. */
    method UpdateDisplay()
      requires Valid()
      modifies display
      ensures display.Shown() == Render(DisplayedTime(Snapshot(), lapMode))
    {
      if lapMode {
        DisplayTime(lapMinutes, lapSeconds, lapHundredths);
      } else {
        DisplayTime(minutes, seconds, hundredths);
      }
    }

    /**
     * The first two edge handlers of `check_buttons`: Start, then Stop,
     * each fired when its key's bit fell from 1 to 0 since `previousKeys`.
     */
    method RunKeyEdges(keys: bv32)
      modifies this`isRunning, timer
      ensures isRunning ==
        if Pressed(previousKeys, keys, STOP_KEY) then false
        else if Pressed(previousKeys, keys, START_KEY) then true
        else old(isRunning)
      ensures timer.control ==
        if Pressed(previousKeys, keys, STOP_KEY) then TIMER_DISABLE
        else if Pressed(previousKeys, keys, START_KEY) then TIMER_ENABLE
        else old(timer.control)
      ensures timer.status ==
        if Pressed(previousKeys, keys, START_KEY) then AcknowledgeTimeout(old(timer.status))
        else old(timer.status)
    {
      if Pressed(previousKeys, keys, START_KEY) {
        StartTimer();
      }
      if Pressed(previousKeys, keys, STOP_KEY) {
        StopTimer();
      }
    }

    /**
     * The last two edge handlers of `check_buttons`: Lap copies the live
     * counter, then Clear zeroes both counters and redraws.
     */
    method CounterKeyEdges(keys: bv32)
      modifies this`minutes, this`seconds, this`hundredths
      modifies this`lapMinutes, this`lapSeconds, this`lapHundredths, display
      ensures Live() == if Pressed(previousKeys, keys, CLEAR_KEY) then Zero else old(Live())
      ensures Lap() ==
        if Pressed(previousKeys, keys, CLEAR_KEY) then Zero
        else if Pressed(previousKeys, keys, LAP_KEY) then old(Live())
        else old(Lap())
      ensures Pressed(previousKeys, keys, CLEAR_KEY) ==> display.Shown() == Render(Zero)
      ensures !Pressed(previousKeys, keys, CLEAR_KEY) ==> unchanged(display)
    {
      if Pressed(previousKeys, keys, LAP_KEY) {
        StoreLapTime();
      }
      if Pressed(previousKeys, keys, CLEAR_KEY) {
        ClearStopwatch();
        UpdateDisplay();
      }
    }

    /**
     * `check_buttons`: fire Start, Stop, Lap and Clear, in that order, for
     * every key whose bit fell from 1 to 0 since the previous sample;
     * redraw on Clear; take the display mode from switch 0; remember the
     * sample.
     */
    method CheckButtons()
      modifies this, timer, display
      ensures Snapshot() == ApplyEdges(old(Snapshot()), old(previousKeys), inputs.keys)
      ensures timer.control ==
        if Pressed(old(previousKeys), inputs.keys, STOP_KEY) then TIMER_DISABLE
        else if Pressed(old(previousKeys), inputs.keys, START_KEY) then TIMER_ENABLE
        else old(timer.control)
      ensures timer.status ==
        if Pressed(old(previousKeys), inputs.keys, START_KEY) then AcknowledgeTimeout(old(timer.status))
        else old(timer.status)
      ensures Pressed(old(previousKeys), inputs.keys, CLEAR_KEY) ==> display.Shown() == Render(Zero)
      ensures !Pressed(old(previousKeys), inputs.keys, CLEAR_KEY) ==> unchanged(display)
      ensures lapMode == (inputs.switches & 1 != 0)
      ensures previousKeys == inputs.keys
    {
      var keys := inputs.keys;
      var sw := inputs.switches;
      ApplyEdgesEffect(Snapshot(), previousKeys, keys);
      RunKeyEdges(keys);
      CounterKeyEdges(keys);
      lapMode := sw & 0x1 != 0;
      previousKeys := keys;
    }

    /**
     * The timeout half of a `main` loop pass: when the flag is set,
     * acknowledge it, tick if running and redraw.
     */
    method ServiceTimeout()
      requires Valid()
      modifies this`minutes, this`seconds, this`hundredths, timer`status, display
      ensures Valid()
      ensures Snapshot() == Advance(old(Snapshot()), old(timer.Expired()))
      ensures timer.status == if old(timer.Expired()) then AcknowledgeTimeout(old(timer.status)) else old(timer.status)
      ensures old(timer.Expired()) ==> display.Shown() == Render(DisplayedTime(Snapshot(), lapMode))
      ensures !old(timer.Expired()) ==> unchanged(display)
    {
      if timer.status & 0x1 != 0 {
        timer.status := AcknowledgeTimeout(timer.status);
        if isRunning {
          UpdateTime();
        }
        UpdateDisplay();
      }
    }

    /** One pass of the `main` loop: service a timeout, then poll the keys and switches. */
    method Step()
      requires Valid()
      modifies this, timer, display
      ensures Valid()
      ensures Snapshot() ==
        ApplyEdges(Advance(old(Snapshot()), old(timer.Expired())), old(previousKeys), inputs.keys)
      ensures timer.status ==
        if old(timer.Expired()) || Pressed(old(previousKeys), inputs.keys, START_KEY)
        then AcknowledgeTimeout(old(timer.status)) else old(timer.status)
      ensures timer.control ==
        if Pressed(old(previousKeys), inputs.keys, STOP_KEY) then TIMER_DISABLE
        else if Pressed(old(previousKeys), inputs.keys, START_KEY) then TIMER_ENABLE
        else old(timer.control)
      ensures Pressed(old(previousKeys), inputs.keys, CLEAR_KEY) ==> display.Shown() == Render(Zero)
      ensures !Pressed(old(previousKeys), inputs.keys, CLEAR_KEY) && old(timer.Expired()) ==>
        display.Shown() == Render(DisplayedTime(Advance(old(Snapshot()), true), old(lapMode)))
      ensures !Pressed(old(previousKeys), inputs.keys, CLEAR_KEY) && !old(timer.Expired()) ==>
        unchanged(display)
      ensures lapMode == (inputs.switches & 1 != 0)
      ensures previousKeys == inputs.keys
    {
      ghost var e0, expired, status0 := Snapshot(), timer.Expired(), timer.status;
      ServiceTimeout();
      assert Snapshot() == Advance(e0, expired);
      assert lapMode == old(lapMode) && previousKeys == old(previousKeys);
      IterationKeepsValid(e0, expired, previousKeys, inputs.keys);
      CheckButtons();
      AcknowledgeTwice(status0);
    }

    /**
     * The `main` loop over a run of samples: before each pass the timer
     * raises its flag or not and the keys take the sampled word, then one
     * pass runs. The stopwatch ends where the value-level `Run` ends.
     */
    method Drive(samples: seq<Sample>)
      requires Valid()
      modifies this, timer, display, inputs
      ensures Valid()
      ensures Snapshot() == Run(old(Snapshot()), old(previousKeys), samples)
      ensures |samples| > 0 ==> previousKeys == samples[|samples| - 1].keys
    {
      var i := 0;
      while i < |samples|
        invariant i <= |samples|
        invariant Valid()
        invariant Run(old(Snapshot()), old(previousKeys), samples) == Run(Snapshot(), previousKeys, samples[i..])
        invariant i > 0 ==> previousKeys == samples[i - 1].keys
      {
        var s := samples[i];
        timer.status := if s.expired then 1 else 0;
        inputs.keys := s.keys;
        assert samples[i..][1..] == samples[i + 1..];
        Step();
        i := i + 1;
      }
    }
  }
}
