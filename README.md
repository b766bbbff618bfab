# FPGA lab programs in Dafny

This project models three small bare-metal C programs for a DE1-SoC-style
board and proves properties of them:

- **The polled stopwatch** (`Lab2/lab2.c`). A hardware interval timer
  raises a timeout flag every hundredth of a second. The program keeps
  minutes, seconds and hundredths, with carry and a wrap after 59:59.99.
  It also keeps a lap copy of those three counters and a run flag.
  Four active-low push buttons fire Start, Stop, Lap and Clear on their
  falling edges. Slide switch 0 chooses whether the live time or the lap
  time is shown. The time goes on six seven-segment digits held in two
  32-bit display registers, one byte per digit.
- **The level meter** (`Lab3/lab3.c`). A 12-bit ADC reading comes from
  the channel chosen by switch 0. It is scaled to a level from 0 to 9,
  and that many LEDs light as a bar.
- **The switch-to-hex display** (`Lab1/Lab1Part2.c`). The four low
  switches pick a hexadecimal digit. Its seven-segment pattern is shown
  on HEX0, then HEX0 is blanked.

## Layout

| file | module | what it holds |
|---|---|---|
| `options.dfy` | `Options` | the `Option` result of the pattern decoders |
| `registers.dfy` | `Registers` | 32-bit register words as four byte fields, and the read-modify-write of one byte |
| `seven_segment.dfy` | `SevenSegment` | the decimal digit table and its decoder |
| `stopwatch_time.dfy` | `StopwatchTime` | the counter as a value (see below) |
| `stopwatch_engine.dfy` | `StopwatchEngine` | the stopwatch state as a value (see below) |
| `stopwatch_display.dfy` | `StopwatchDisplay` | the six patterns `display_time` writes, and reading them back |
| `stopwatch.dfy` | `StopwatchProgram` | the C program itself (see below) |
| `level_meter.dfy` | `LevelMeter` | the Lab 3 program |
| `hex_display.dfy` | `HexDisplay` | the Lab 1 program |

`StopwatchTime` holds:

- `Tick`, the carry of `update_time`;
- its meaning as counting in hundredths modulo one hour, through `ToTotal` and `FromTotal`.

`StopwatchEngine` holds:

- the four commands;
- `ApplyEdges`, the edge detector;
- `Advance`, the timeout half of a loop pass;
- `Run`, many loop passes.

`StopwatchProgram` has the device classes `Timer`, `SegmentDisplay` and `Inputs`, whose fields are their registers. It also has the class `Stopwatch`, whose fields are the C globals. Its methods follow the C functions:

- `StartTimer`, `StopTimer`, `ClearStopwatch`, `UpdateTime`, `StoreLapTime`, `DisplayDigit`, `DisplayTime` and `UpdateDisplay` are one method each;
- `check_buttons` is `CheckButtons`, which hands the run keys to `RunKeyEdges` and the counter keys to `CounterKeyEdges`;
- one pass of the `main` loop is `Step`: `ServiceTimeout` handles the timer flag, then `CheckButtons` runs;
- `Drive` runs `Step` once per sample of a sequence of timer flags and key words;
- `init_timer` and `reset_timer` have no method (see "Left out").

`Snapshot()` is the engine value of the object's fields. The methods are
tied to the value-level model in four ways:

- `StartTimer`, `StopTimer`, `ClearStopwatch`, `StoreLapTime`, `CheckButtons`, `ServiceTimeout`, `Step` and `Drive` state `Snapshot()` as `Start`, `Stop`, `Clear`, `StoreLap`, `ApplyEdges`, `Advance` or `Run` applied to `old(Snapshot())`;
- `UpdateTime` states the live counter as `Tick` of the old one;
- `DisplayDigit`, `DisplayTime` and `UpdateDisplay` state the display registers through `Bytes`, `Board` and `Render`;
- the helpers `RunKeyEdges` and `CounterKeyEdges` state each field they change.

The lemmas about the engine and the counter then say what the program
does over time.

A reader might expect the following; the code does otherwise, and the model follows the code:

- **Minutes after N ticks.** One might read the counter as `(N/10000) mod 60` minutes. The carry code gives `(N/6000) mod 60`. That is what `TicksFromZero` proves.
- **`start_timer` and `stop_timer`.** One might expect them to do nothing when already running (resp. stopped). The code always writes the timer registers and sets (resp. clears) the flag.
- **The keys.** One might expect them normalised to active-high booleans. The code compares the raw active-low words.
- **Display refresh.** One might expect a redraw on every pass. The code redraws only on a timeout or a Clear, so `Step` leaves the display untouched otherwise.

## Model

| member | source | states |
|---|---|---|
| SevenSegment.Encode | Lab2/lab2.c:17-28 | every digit pattern leaves bit 7 (the decimal point) dark |
| SevenSegment.Decode | Lab2/lab2.c:17-28 | a pattern decodes to a digit only if that digit's entry is the pattern; a pattern not in the table decodes to nothing |
| SevenSegment.DecodeEncode | Lab2/lab2.c:17-28 | every digit 0..9 reads back from its pattern as itself |
| SevenSegment.SegmentsDistinct | Lab2/lab2.c:17-28 | the ten digit patterns are pairwise different |
| Registers.ByteAtSetByte | Lab2/lab2.c:93-94 | after clearing byte k with `~(0xFF << 8k)` and OR-ing in the shifted pattern, byte k reads as the pattern and every other byte as before |
| Registers.SetByteFields | Lab2/lab2.c:93-94 | the four bytes after the write are the old four with entry k replaced |
| Registers.BytesInjective | Lab2/lab2.c:89-100 | a register word is determined by its four bytes |
| StopwatchTime.FromTotal | Lab2/lab2.c:68-81 | the counter value of any number of hundredths has hundredths < 100, seconds < 60, minutes < 60 |
| StopwatchTime.Tick | Lab2/lab2.c:68-81 | the carry keeps an in-range counter in range |
| StopwatchTime.ToTotalBound | Lab2/lab2.c:68-81 | an in-range counter stands for fewer than 360000 hundredths |
| StopwatchTime.FromToTotal | Lab2/lab2.c:68-81 | an in-range counter is recovered from the hundredths it stands for |
| StopwatchTime.FromTotalPeriodic | Lab2/lab2.c:68-81 | counter values repeat with a period of one hour (360000 hundredths) |
| StopwatchTime.ToFromTotal | Lab2/lab2.c:68-81 | the counter value of n hundredths stands for n mod 360000 |
| StopwatchTime.TickWraps | Lab2/lab2.c:68-81 | one tick adds one hundredth to the total, except that 59:59.99 wraps to 0:00.00 |
| StopwatchTime.TickFromTotal | Lab2/lab2.c:68-81 | the carry is counting: ticking the value of k hundredths gives the value of k + 1 |
| StopwatchTime.TicksFromTotal | Lab2/lab2.c:68-81 | n ticks from the value of k hundredths give the value of k + n |
| StopwatchTime.TicksFrom | Lab2/lab2.c:68-81 | n ticks from an in-range counter standing for k give the value of k + n |
| StopwatchTime.TicksTotal | Lab2/lab2.c:68-81 | n ticks keep an in-range counter in range and raise its total by n modulo 360000 |
| StopwatchTime.TickTotal | Lab2/lab2.c:68-81 | one tick keeps the ranges and raises `minutes*6000 + seconds*100 + hundredths` by 1 modulo 360000 |
| StopwatchTime.TicksFromZero | Lab2/lab2.c:68-81 | n ticks from 0:00.00 show hundredths n % 100, seconds (n/100) % 60, minutes (n/6000) % 60 |
| StopwatchEngine.ApplyEdgesEffect | Lab2/lab2.c:120-142 | after one sample the run flag is false on a Stop edge, else true on a Start edge, else unchanged; Clear zeroes both counters; otherwise Lap copies the live counter into the lap slot |
| StopwatchEngine.StoreLapIdempotent | Lab2/lab2.c:83-87 | Lap copies the live counter into the lap slot, keeps the live counter and the run flag, and a second Lap changes nothing |
| StopwatchEngine.ClearKeepsRunFlag | Lab2/lab2.c:59-66 | Clear zeroes both counters, keeps the run flag and leaves the state in range |
| StopwatchEngine.StartAndStopTogether | Lab2/lab2.c:125-130 | Start and Stop edges in one sample leave the stopwatch stopped |
| StopwatchEngine.HeldKeysFireNothing | Lab2/lab2.c:124-141 | a key word equal to the previous sample fires no command, so a held key fires once |
| StopwatchEngine.IterationKeepsValid | Lab2/lab2.c:148-158 | the timeout half and the key half of a loop pass keep both counters in range |
| StopwatchEngine.FrozenWhileStopped | Lab2/lab2.c:150-154 | while stopped, and with no Start or Clear edge, any number of passes leaves the live counter where it was and the stopwatch stopped |
| StopwatchEngine.CountsWhileRunning | Lab2/lab2.c:148-158 | while running, with a timeout in every pass and no Stop or Clear edge, n passes advance the live counter by n ticks |
| StopwatchDisplay.ValidShowable | Lab2/lab2.c:102-109 | an in-range counter splits into digits below 10 |
| StopwatchDisplay.Digits | Lab2/lab2.c:102-109 | six digits, each below 10 |
| StopwatchDisplay.Render | Lab2/lab2.c:102-109 | six patterns, one per position |
| StopwatchDisplay.ReadFieldBack | Lab2/lab2.c:102-109 | a two-digit field reads back from its units and tens patterns |
| StopwatchDisplay.ReadBack | Lab2/lab2.c:102-109 | reading the six patterns as units/tens of hundredths, seconds and minutes gives back the counter |
| StopwatchDisplay.RenderInjective | Lab2/lab2.c:102-109 | different counter values light different segments |
| StopwatchProgram.AcknowledgeTimeout | Lab2/lab2.c:49 | storing 1 to the write-one-to-clear status register clears the timeout bit and keeps every other bit |
| StopwatchProgram.AcknowledgeTwice | Lab2/lab2.c:151 | acknowledging an acknowledged timeout changes nothing |
| StopwatchProgram.Board | Lab2/lab2.c:89-100 | the board shows six digits: the four bytes of HEX3..HEX0, then the low two bytes of HEX5..HEX4 |
| StopwatchProgram.BoardSetLow | Lab2/lab2.c:91-94 | writing byte p of HEX3..HEX0 changes digit p of the board and no other |
| StopwatchProgram.BoardSetHigh | Lab2/lab2.c:95-99 | writing byte q of HEX5..HEX4 changes digit q + 4 if q < 2 and nothing on the board otherwise |
| StopwatchProgram.SegmentDisplay.Shown | Lab2/lab2.c:89-100 | the display always shows six digit patterns |
| StopwatchProgram.Stopwatch.constructor | Lab2/lab2.c:30-35 | the program starts stopped at 0:00.00 with a zero lap, live mode and all keys released |
| StopwatchProgram.Stopwatch.StartTimer | Lab2/lab2.c:48-52 | the run flag is set whatever it was; the timeout flag is cleared; the control register is 0x3; the counters are untouched |
| StopwatchProgram.Stopwatch.StopTimer | Lab2/lab2.c:54-57 | the run flag is cleared; the control register is 0x0; the status register and the counters are untouched |
| StopwatchProgram.Stopwatch.ClearStopwatch | Lab2/lab2.c:59-66 | all six counters become 0; the run flag, the display mode and the devices are untouched |
| StopwatchProgram.Stopwatch.UpdateTime | Lab2/lab2.c:68-81 | the live counter becomes its tick (see `TickTotal`: +1 hundredth mod one hour); in-range counters stay in range; the lap counter is untouched |
| StopwatchProgram.Stopwatch.StoreLapTime | Lab2/lab2.c:83-87 | the lap triple becomes the live triple; the live triple is untouched |
| StopwatchProgram.Stopwatch.DisplayDigit | Lab2/lab2.c:89-100 | for p < 4 byte p of HEX3..HEX0 becomes the digit's pattern; for p >= 4 byte p - 4 of HEX5..HEX4 does; every other byte of both words is kept; the board changes at position p only (not at all for p = 6, 7) |
| StopwatchProgram.Stopwatch.DisplayTime | Lab2/lab2.c:102-109 | the board shows the units and tens of the hundredths, seconds and minutes, in that order from HEX0 |
| StopwatchProgram.Stopwatch.UpdateDisplay | Lab2/lab2.c:111-117 | the board shows the lap counter in lap mode and the live counter otherwise |
| StopwatchProgram.Stopwatch.RunKeyEdges | Lab2/lab2.c:125-130 | on the Start then Stop edges the run flag and the control register follow Stop over Start; the timeout flag is cleared only on a Start edge |
| StopwatchProgram.Stopwatch.CounterKeyEdges | Lab2/lab2.c:131-137 | on the Lap then Clear edges the lap slot copies the live counter unless Clear zeroes both; the board is redrawn as 0:00.00 on Clear and untouched otherwise |
| StopwatchProgram.Stopwatch.CheckButtons | Lab2/lab2.c:120-142 | the state becomes `ApplyEdges` of the old state; the timer registers and the board change as the fired commands say; the display mode is switch bit 0; the sample is remembered |
| StopwatchProgram.Stopwatch.ServiceTimeout | Lab2/lab2.c:150-156 | on a timeout the flag is cleared, the live counter ticks only if running, and the board is redrawn; without one nothing changes |
| StopwatchProgram.Stopwatch.Step | Lab2/lab2.c:148-158 | one pass: the state becomes `ApplyEdges(Advance(old state, timeout))`; the state stays in range; the board changes only on a timeout or a Clear |
| StopwatchProgram.Stopwatch.Drive | Lab2/lab2.c:148-158 | passes over a run of samples keep the counters in range and leave the object in the state `Run` gives for those samples, with the last sampled key word remembered |
| HexDisplay.ReadSwitches | Lab1/Lab1Part2.c:15-17 | the value is below 16 and, with the upper bits of the word beside it, gives the word back |
| HexDisplay.ShowDigit | Lab1/Lab1Part2.c:20-22 | HEX0 gets the digit's table entry and the other three digits keep theirs |
| HexDisplay.MainIteration | Lab1/Lab1Part2.c:30-37 | a pass writes two words: the first with HEX0 showing the switch value's pattern, the second with HEX0 blanked (0x00) |
| HexDisplay.DecodeHex | Lab1/Lab1Part2.c:9-12 | a pattern decodes to a digit only if that digit's entry is the pattern; a pattern not in the table decodes to nothing |
| HexDisplay.DecodeHexEncode | Lab1/Lab1Part2.c:9-12 | every hex digit reads back from its pattern as itself |
| HexDisplay.HexCodesDistinct | Lab1/Lab1Part2.c:9-12 | the sixteen patterns are pairwise different |
| HexDisplay.HexExtendsDecimal | Lab1/Lab1Part2.c:10-11 | entries 0..9 equal the stopwatch's digit table |
| HexDisplay.BlankIsNoDigit | Lab1/Lab1Part2.c:35 | the blank pattern 0x00 is no digit |
| HexDisplay.MainIterationShowsSwitches | Lab1/Lab1Part2.c:32-35 | every switch word indexes the table in bounds; HEX0 reads back as the switch value, then as no digit |
| LevelMeter.InitGpio | Lab3/lab3.c:15-18 | the direction register gets the ten LED outputs 0x3FF |
| LevelMeter.ReadAdc | Lab3/lab3.c:31 | the result is below 4096 and, with the upper bits of the word beside it, gives the word back |
| LevelMeter.LedLevel | Lab3/lab3.c:38 | the level is at most 159, and at most 9 for a 12-bit reading |
| LevelMeter.BarStep | Lab3/lab3.c:41-43 | OR-ing `1 << i` into the bar of i LEDs and storing it in 16 bits gives the bar of i + 1 LEDs |
| LevelMeter.DisplayOnLeds | Lab3/lab3.c:34-47 | the LED data register gets `2^level - 1` (16 bits at most) for the scaled level; the loop keeps `pattern == 2^i - 1` |
| LevelMeter.BarBits | Lab3/lab3.c:41-43 | exactly the low `level` bits of the bar are set |
| LevelMeter.BarWithinOutputs | Lab3/lab3.c:38-46 | for a 12-bit reading the pattern is at most 0x1FF and lies inside the 0x3FF output mask |
| LevelMeter.LevelMonotone | Lab3/lab3.c:38 | a higher reading never gives a lower level |
| LevelMeter.BarSubset | Lab3/lab3.c:41-43 | a shorter bar is a bit-subset of a longer one |
| LevelMeter.BarMonotone | Lab3/lab3.c:38-43 | the bar of a lower reading is a bit-subset of the bar of a higher one |
| LevelMeter.MeterIteration | Lab3/lab3.c:55-64 | switch 0 clear reads channel 0, set reads channel 1; the LEDs show that reading's bar, inside the output mask |

## Left out

- **Memory-mapped addresses and `volatile`.** Registers are object fields or parameters. The hardware and the user may change the timer status and the input words between calls. The program only reads the input words.
- **Timing.** The timer's reload value of 2000000 and its clock are not modelled, nor the auto-reload itself (`init_timer`). The timeout flag is an input.
- **`reset_timer`.** It is never called.
- **`init_timer`.** Its only effect is hardware setup.
- **The `while (1)` loops.** `StopwatchProgram.Stopwatch.Step`, `LevelMeter.MeterIteration` and `HexDisplay.MainIteration` are one pass each. `StopwatchEngine.Run` strings passes of the stopwatch together at the value level, and `StopwatchProgram.Stopwatch.Drive` runs `Step` over a finite sequence of samples. The loop never ends; only finite prefixes of it are modelled. Between passes `Drive` itself writes each sample's timer flag and key word into the device objects, standing in for the hardware.
- **`read_adc`'s start write and busy wait.** The start write `*channel = 1` and the wait for bit 15 are a hardware handshake. The channel words given to `MeterIteration` are the registers once the conversion is done, and `ReadAdc` is the final mask.
- **`delay()` in Lab 1.** It is a busy wait with no effect on state.
- **`Lab1/Lab1Part1.c`.** An LED blink with a counting delay; it is not part of this model.
- **Signed-shift overflow of `0xFF << 24` in `display_digit`.** The masks are computed on unsigned 32-bit words.
- StopwatchProgram.Stopwatch.UpdateTime: the counters are `uint32_t` in C and `nat` here. The 2^32 wrap of `hundredths++` is not modelled. Every state reachable from the constructor keeps the counters below 100.
- StopwatchProgram.Stopwatch.DisplayDigit: requires `digit < 10` and `position < 8`. Past those, the C code reads outside the table or shifts by 32 or more.
- StopwatchProgram.Stopwatch.Step: requires the counters in range. This holds from the constructor on, by the `Valid()` ensures of `Step` itself.
- LevelMeter.DisplayOnLeds: requires a level of at most 31. Past that, the C shift `1 << i` overflows `int`; every 12-bit reading gives at most 9.
- **The unused upper bytes of HEX5..HEX4.** The methods do not state what happens to them, except through `DisplayDigit`.
