/**
 * The stopwatch's elapsed-time counter: minutes, seconds and hundredths
 * with carry, wrapping to zero after 59:59.99 (there is no hour field).
 * A counter value stands for a number of hundredths of a second within
 * the hour; one tick adds one hundredth modulo an hour.
 */
module StopwatchTime {

  datatype Time = Time(minutes: nat, seconds: nat, hundredths: nat)
  {
    /** Every field below its modulus. */
    predicate Valid()
    {
      hundredths < 100 && seconds < 60 && minutes < 60
    }
  }

  const Zero := Time(0, 0, 0)

  /** The number of hundredths a counter value stands for. */
  function ToTotal(t: Time): nat
  {
    t.minutes * 6000 + t.seconds * 100 + t.hundredths
  }

  /** The counter value shown after `n` hundredths from zero. */
  function FromTotal(n: nat): (t: Time)
    ensures t.Valid()
  {
    Time((n / 6000) % 60, (n / 100) % 60, n % 100)
  }

  /**
   * One tick of `update_time`: add a hundredth and carry into seconds and
   * minutes; the minutes wrap to zero (there is no hour field).
   */
  function Tick(t: Time): (u: Time)
    ensures t.Valid() ==> u.Valid()
  {
    if t.hundredths + 1 < 100 then t.(hundredths := t.hundredths + 1)
    else if t.seconds + 1 < 60 then t.(seconds := t.seconds + 1, hundredths := 0)
    else if t.minutes + 1 < 60 then Time(t.minutes + 1, 0, 0)
    else Time(0, 0, 0)
  }

  /** `n` ticks in a row. */
  function Ticks(t: Time, n: nat): Time
    decreases n
  {
    if n == 0 then t else Ticks(Tick(t), n - 1)
  }

  lemma ToTotalBound(t: Time)
    requires t.Valid()
    ensures ToTotal(t) < 360000
  {
  }

  // Division by the counter's fixed moduli, stated once per modulus.

  lemma DivBy100(n: int, a: int, b: int)
    requires n == a * 100 + b && 0 <= b < 100
    ensures n / 100 == a && n % 100 == b
  {
  }

  lemma DivBy6000(n: int, a: int, b: int)
    requires n == a * 6000 + b && 0 <= b < 6000
    ensures n / 6000 == a && n % 6000 == b
  {
  }

  lemma ModShift60(x: nat, k: nat)
    ensures (x + 60 * k) % 60 == x % 60
  {
  }

  /** A valid counter value is recovered from the hundredths it stands for. */
  lemma FromToTotal(t: Time)
    requires t.Valid()
    ensures FromTotal(ToTotal(t)) == t
  {
    var n := ToTotal(t);
    DivBy100(n, t.minutes * 60 + t.seconds, t.hundredths);
    DivBy6000(n, t.minutes, t.seconds * 100 + t.hundredths);
    ModShift60(t.seconds, t.minutes);
  }

  /** Counting is periodic with period one hour. */
  lemma FromTotalPeriodic(n: nat)
    ensures FromTotal(n % 360000) == FromTotal(n)
  {
    var q, r := n / 360000, n % 360000;
    DivBy100(n, q * 3600 + r / 100, r % 100);
    DivBy6000(n, q * 60 + r / 6000, r % 6000);
    ModShift60(r / 100, q * 60);
    ModShift60(r / 6000, q);
  }

  /** The counter value of `n` hundredths stands for `n` modulo an hour. */
  lemma ToFromTotal(n: nat)
    ensures ToTotal(FromTotal(n)) == n % 360000
  {
    var r := n % 360000;
    FromTotalPeriodic(n);
    var s := r / 100;
    DivBy6000(r, s / 60, (s % 60) * 100 + r % 100);
  }

  lemma DivBy60(n: int, a: int, b: int)
    requires n == a * 60 + b && 0 <= b < 60
    ensures n / 60 == a && n % 60 == b
  {
  }

  /** Whole minutes are whole seconds divided by sixty. */
  lemma MinutesOfSeconds(k: nat)
    ensures k / 6000 == (k / 100) / 60
  {
    var q := k / 100;
    DivBy60(q, q / 60, q % 60);
    DivBy6000(k, q / 60, (q % 60) * 100 + k % 100);
  }

  /**
   * A tick keeps every field in range and advances the total by one
   * hundredth, except that 59:59.99 wraps round to 0:00.00.
   */
  lemma TickWraps(t: Time)
    requires t.Valid()
    ensures Tick(t).Valid()
    ensures ToTotal(Tick(t)) == if ToTotal(t) + 1 < 360000 then ToTotal(t) + 1 else 0
  {
  }

  /**
   * The carry of `update_time` is counting: ticking the value of `k`
   * hundredths gives the value of `k + 1` hundredths.
   */
  lemma TickFromTotal(k: nat)
    ensures Tick(FromTotal(k)) == FromTotal(k + 1)
  {
    var q := k / 100;
    DivBy100(k, q, k % 100);
    MinutesOfSeconds(k);
    MinutesOfSeconds(k + 1);
    if k % 100 + 1 < 100 {
      DivBy100(k + 1, q, k % 100 + 1);
    } else {
      DivBy100(k + 1, q + 1, 0);
      var p := q / 60;
      DivBy60(q, p, q % 60);
      if q % 60 + 1 < 60 {
        DivBy60(q + 1, p, q % 60 + 1);
      } else {
        DivBy60(q + 1, p + 1, 0);
        var m := p % 60;
        DivBy60(p, p / 60, m);
        if m + 1 < 60 {
          DivBy60(p + 1, p / 60, m + 1);
        } else {
          DivBy60(p + 1, p / 60 + 1, 0);
        }
      }
    }
  }

  /** `n` ticks from the value of `k` hundredths land on the value of `k + n` hundredths. */
  lemma {:induction false} TicksFromTotal(t: Time, k: nat, n: nat)
    requires t == FromTotal(k)
    ensures Ticks(t, n) == FromTotal(k + n)
    decreases n
  {
    if n > 0 {
      TickFromTotal(k);
      TicksFromTotal(Tick(t), k + 1, n - 1);
    }
  }

  /** `n` ticks from a valid value standing for `k` hundredths land on the value of `k + n` hundredths. */
  lemma TicksFrom(t: Time, k: nat, n: nat)
    requires t.Valid() && k == ToTotal(t)
    ensures Ticks(t, n) == FromTotal(k + n)
  {
    FromToTotal(t);
    TicksFromTotal(t, k, n);
  }

  /** `n` ticks keep a valid value valid and advance its total by `n`, modulo an hour. */
  lemma TicksTotal(t: Time, n: nat)
    requires t.Valid()
    ensures Ticks(t, n).Valid()
    ensures ToTotal(Ticks(t, n)) == (ToTotal(t) + n) % 360000
  {
    TicksFrom(t, ToTotal(t), n);
    ToFromTotal(ToTotal(t) + n);
  }

  /** One tick keeps a valid value valid and advances its total by one, modulo an hour. */
  lemma TickTotal(t: Time)
    requires t.Valid()
    ensures Tick(t).Valid()
    ensures ToTotal(Tick(t)) == (ToTotal(t) + 1) % 360000
  {
    TicksTotal(t, 1);
    assert Ticks(t, 1) == Tick(t);
  }

  /**
   * `n` ticks from 0:00.00 show hundredths `n % 100`, seconds
   * `(n / 100) % 60` and minutes `(n / 6000) % 60`.
   */
  lemma TicksFromZero(n: nat)
    ensures Ticks(Zero, n) == Time((n / 6000) % 60, (n / 100) % 60, n % 100)
  {
    assert FromTotal(0) == Zero;
    TicksFromTotal(Zero, 0, n);
  }
}
