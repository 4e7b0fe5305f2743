/**
 * The "offer ends in" countdown of the TikTok landing pages: hours, minutes and
 * seconds, lowered by one second per interval tick and reset to 2:00:00 when it
 * would reach zero.
 */
module Countdown {

  datatype Time = Time(hours: int, minutes: int, seconds: int)

  /** The initial value and the value a reset restores. */
  const Start := Time(2, 0, 0)

  /** The length of one cycle, in ticks: the seconds in 2:00:00. */
  const Period := 7200

  function TotalSeconds(t: Time): int {
    t.hours * 3600 + t.minutes * 60 + t.seconds
  }

  /**
   * The `setTimeLeft` updater. With `total` the previous value minus one second:
   * a `total` of zero or less resets to 2:00:00; otherwise the result is `total`
   * split into hours, minutes below 60 and seconds below 60. `Math.floor` and `%`
   * agree with Dafny's division here because `total` is positive on that branch.
   */
  function Tick(prev: Time): (next: Time)
    ensures TotalSeconds(prev) - 1 <= 0 ==> next == Start
    ensures TotalSeconds(prev) - 1 > 0 ==>
              Canonical(next) && TotalSeconds(next) == TotalSeconds(prev) - 1
  {
    var total := prev.hours * 3600 + prev.minutes * 60 + prev.seconds - 1;
    if total <= 0 then Start
    else Time(total / 3600, (total % 3600) / 60, total % 60)
  }

  /** Hours non-negative, minutes and seconds in [0, 59]. */
  predicate Canonical(t: Time) {
    0 <= t.hours && 0 <= t.minutes < 60 && 0 <= t.seconds < 60
  }

  /** What the page can show: a canonical time between 0:00:01 and 2:00:00. */
  predicate Displayable(t: Time) {
    Canonical(t) && 1 <= TotalSeconds(t) <= Period
  }

  /** A canonical time is determined by its total number of seconds. */
  lemma CanonicalUnique(t: Time, u: Time)
    requires Canonical(t) && Canonical(u) && TotalSeconds(t) == TotalSeconds(u)
    ensures t == u
  {
  }

  /** A tick keeps the countdown displayable: 0:00:00 never appears. */
  lemma TickKeepsDisplayable(t: Time)
    requires Displayable(t)
    ensures Displayable(Tick(t))
  {
  }

  /** Away from the reset, every tick takes exactly one second off. */
  lemma TickLowersByOne(t: Time)
    requires Displayable(t) && TotalSeconds(t) > 1
    ensures TotalSeconds(Tick(t)) == TotalSeconds(t) - 1
  {
  }

  /** The last second before the reset: 0:00:01 ticks to 2:00:00. */
  lemma LastSecondResets()
    ensures Tick(Time(0, 0, 1)) == Start
  {
  }

  /** The countdown after `n` ticks. */
  function Iterate(t: Time, n: nat): Time {
    if n == 0 then t else Tick(Iterate(t, n - 1))
  }

  /** After `n` ticks from 2:00:00 the countdown shows 7200 - (n mod 7200) seconds. */
  lemma {:induction false} IterateFromStart(n: nat)
    ensures Displayable(Iterate(Start, n))
    ensures TotalSeconds(Iterate(Start, n)) == Period - n % Period
  {
    if n > 0 {
      IterateFromStart(n - 1);
      ModStep(n);
    }
  }

  /** The countdown repeats every 7200 ticks. */
  lemma CountdownPeriodic(n: nat)
    ensures Iterate(Start, n + Period) == Iterate(Start, n)
  {
    var later, now := Iterate(Start, n + Period), Iterate(Start, n);
    IterateFromStart(n);
    IterateFromStart(n + Period);
    ModUnique(n + Period, n / Period + 1, n % Period);
    CanonicalUnique(later, now);
  }

  // --- remainders modulo the period -------------------------------------------

  lemma ModUnique(n: int, q: int, r: int)
    requires n == q * Period + r && 0 <= r < Period
    ensures n % Period == r
  {
    var q', r' := n / Period, n % Period;
    assert n == q' * Period + r';
  }

  /** One more tick moves the remainder on by one, wrapping from 7199 to 0. */
  lemma ModStep(n: nat)
    requires n > 0
    ensures n % Period == if (n - 1) % Period == Period - 1 then 0 else (n - 1) % Period + 1
  {
    var q, r := (n - 1) / Period, (n - 1) % Period;
    assert n - 1 == q * Period + r;
    if r == Period - 1 {
      ModUnique(n, q + 1, 0);
    } else {
      ModUnique(n, q, r + 1);
    }
  }
}
