/**
 * The stopwatch engine as values: the live counter, the lap slot and the
 * run flag, the commands the four keys trigger, the edge detector over
 * the active-low key word, and the counter's behaviour over many
 * iterations of the polling loop.
 */
module StopwatchEngine {
  import opened StopwatchTime

  datatype Engine = Engine(live: Time, lap: Time, running: bool)
  {
    /** Both counters in range. */
    predicate Valid()
    {
      live.Valid() && lap.Valid()
    }
  }

  // Bits of the KEY word: KEY0 Start, KEY1 Stop, KEY2 Lap, KEY3 Clear.
  const START_KEY: bv32 := 0x1
  const STOP_KEY: bv32 := 0x2
  const LAP_KEY: bv32 := 0x4
  const CLEAR_KEY: bv32 := 0x8

  /** The KEY word with every key released (the keys are active low). */
  const ALL_RELEASED: bv32 := 0xF

  /**
   * Falling edge of an active-low key: its bit was 1 (released) in the
   * previous sample and is 0 (pressed) in this one.
   */
  predicate Pressed(previous: bv32, keys: bv32, key: bv32)
  {
    previous & key != 0 && keys & key == 0
  }

  /** The run-flag effect of `start_timer`; it does not look at the old flag. */
  function Start(e: Engine): Engine
  {
    e.(running := true)
  }

  /** The run-flag effect of `stop_timer`. */
  function Stop(e: Engine): Engine
  {
    e.(running := false)
  }

  /** `store_lap_time`: the lap slot becomes a copy of the live counter. */
  function StoreLap(e: Engine): Engine
  {
    e.(lap := e.live)
  }

  /** `clear_stopwatch`: both counters back to 0:00.00. */
  function Clear(e: Engine): Engine
  {
    e.(live := Zero, lap := Zero)
  }

  /** The commands of one key sample, applied in the fixed order Start, Stop, Lap, Clear. */
  function ApplyEdges(e: Engine, previous: bv32, keys: bv32): Engine
  {
    var e1 := if Pressed(previous, keys, START_KEY) then Start(e) else e;
    var e2 := if Pressed(previous, keys, STOP_KEY) then Stop(e1) else e1;
    var e3 := if Pressed(previous, keys, LAP_KEY) then StoreLap(e2) else e2;
    if Pressed(previous, keys, CLEAR_KEY) then Clear(e3) else e3
  }

  /** The timer half of a loop iteration: a timeout ticks the live counter only while running. */
  function Advance(e: Engine, expired: bool): Engine
  {
    if expired && e.running then e.(live := Tick(e.live)) else e
  }

  /** The value the display shows: the lap slot in lap mode, the live counter otherwise. */
  function DisplayedTime(e: Engine, lapMode: bool): Time
  {
    if lapMode then e.lap else e.live
  }

  /** What one loop iteration observes: the timeout flag and the KEY word. */
  datatype Sample = Sample(expired: bool, keys: bv32)

  /** The engine after the loop has seen `samples`, starting from key word `previous`. */
  function Run(e: Engine, previous: bv32, samples: seq<Sample>): Engine
    decreases |samples|
  {
    if |samples| == 0 then e
    else
      var s := samples[0];
      Run(ApplyEdges(Advance(e, s.expired), previous, s.keys), s.keys, samples[1..])
  }

  /** Key `key` has no falling edge anywhere in `samples`. */
  predicate NeverPressed(previous: bv32, samples: seq<Sample>, key: bv32)
    decreases |samples|
  {
    |samples| == 0 ||
    (!Pressed(previous, samples[0].keys, key) && NeverPressed(samples[0].keys, samples[1..], key))
  }

  /** Every sample of `samples` saw a timeout. */
  predicate AllExpired(samples: seq<Sample>)
  {
    forall i :: 0 <= i < |samples| ==> samples[i].expired
  }

  /**
   * The closed form of one key sample: Stop beats Start, Lap copies the
   * live counter before Clear runs, Clear zeroes both counters, and the
   * run flag survives Lap and Clear.
   */
  lemma ApplyEdgesEffect(e: Engine, previous: bv32, keys: bv32)
    ensures ApplyEdges(e, previous, keys).running ==
      if Pressed(previous, keys, STOP_KEY) then false
      else if Pressed(previous, keys, START_KEY) then true
      else e.running
    ensures ApplyEdges(e, previous, keys).live ==
      if Pressed(previous, keys, CLEAR_KEY) then Zero else e.live
    ensures ApplyEdges(e, previous, keys).lap ==
      if Pressed(previous, keys, CLEAR_KEY) then Zero
      else if Pressed(previous, keys, LAP_KEY) then e.live
      else e.lap
  {
  }

  /**
   * A Lap edge copies the live counter and nothing else, so a second Lap
   * right after it changes nothing.
   */
  lemma StoreLapIdempotent(e: Engine)
    ensures StoreLap(e).live == e.live && StoreLap(e).lap == e.live
    ensures StoreLap(e).running == e.running
    ensures StoreLap(StoreLap(e)) == StoreLap(e)
  {
  }

  /** Clear zeroes both counters and keeps the run flag. */
  lemma ClearKeepsRunFlag(e: Engine)
    ensures Clear(e).live == Zero && Clear(e).lap == Zero
    ensures Clear(e).running == e.running
    ensures Clear(e).Valid()
  {
  }

  /** Start and Stop edges in the same sample leave the stopwatch stopped. */
  lemma StartAndStopTogether(e: Engine, previous: bv32, keys: bv32)
    requires Pressed(previous, keys, START_KEY) && Pressed(previous, keys, STOP_KEY)
    ensures !ApplyEdges(e, previous, keys).running
  {
  }

  /** A key held down over two samples fires no command the second time. */
  lemma HeldKeysFireNothing(e: Engine, keys: bv32)
    ensures ApplyEdges(e, keys, keys) == e
  {
  }

  /** Commands and ticks keep both counters in range. */
  lemma IterationKeepsValid(e: Engine, expired: bool, previous: bv32, keys: bv32)
    requires e.Valid()
    ensures Advance(e, expired).Valid()
    ensures ApplyEdges(Advance(e, expired), previous, keys).Valid()
  {
    TickWraps(e.live);
  }

  /**
   * Freeze: while stopped, and as long as neither Start nor Clear is
   * pressed, the live counter does not move however many timeouts occur.
   */
  lemma {:induction false} FrozenWhileStopped(e: Engine, previous: bv32, samples: seq<Sample>)
    requires !e.running
    requires NeverPressed(previous, samples, START_KEY)
    requires NeverPressed(previous, samples, CLEAR_KEY)
    ensures Run(e, previous, samples).live == e.live
    ensures !Run(e, previous, samples).running
    decreases |samples|
  {
    if |samples| > 0 {
      var s := samples[0];
      var e' := ApplyEdges(Advance(e, s.expired), previous, s.keys);
      ApplyEdgesEffect(Advance(e, s.expired), previous, s.keys);
      FrozenWhileStopped(e', s.keys, samples[1..]);
    }
  }

  /**
   * While running, with a timeout in every iteration and no Stop or Clear
   * edge, the live counter advances by one hundredth per iteration.
   */
  lemma {:induction false} CountsWhileRunning(e: Engine, previous: bv32, samples: seq<Sample>)
    requires e.running
    requires AllExpired(samples)
    requires NeverPressed(previous, samples, STOP_KEY)
    requires NeverPressed(previous, samples, CLEAR_KEY)
    ensures Run(e, previous, samples).live == Ticks(e.live, |samples|)
    ensures Run(e, previous, samples).running
    decreases |samples|
  {
    if |samples| > 0 {
      var s := samples[0];
      var e' := ApplyEdges(Advance(e, s.expired), previous, s.keys);
      assert s.expired;
      ApplyEdgesEffect(Advance(e, s.expired), previous, s.keys);
      assert AllExpired(samples[1..]) by {
        forall i | 0 <= i < |samples| - 1 ensures samples[1..][i].expired {
          assert samples[1..][i] == samples[i + 1];
        }
      }
      CountsWhileRunning(e', s.keys, samples[1..]);
    }
  }
}
