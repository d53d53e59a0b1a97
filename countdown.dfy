/** The countdown on the invitation's front page: once a second the page
    recomputes how far the wedding is and shows it as days, hours, minutes
    and seconds; once the moment has passed it shows zeros and the interval
    is cleared for good. Times are integer milliseconds (`Date.now()`,
    `getTime()`), passed in as parameters. */
module Countdown {

  import opened Arith

  const MsPerSecond: int := 1000
  const MsPerMinute: int := 60 * MsPerSecond
  const MsPerHour: int := 60 * MsPerMinute
  const MsPerDay: int := 24 * MsPerHour

  datatype TimeLeft = TimeLeft(days: int, hours: int, minutes: int, seconds: int)

  const Zero := TimeLeft(0, 0, 0, 0)

  /** The four displayed numbers are in their clock ranges. */
  predicate InRange(t: TimeLeft)
  {
    t.days >= 0 && 0 <= t.hours < 24 && 0 <= t.minutes < 60 && 0 <= t.seconds < 60
  }

  /** The whole-second span that `t` denotes, in milliseconds. */
  function Millis(t: TimeLeft): int
  {
    t.days * MsPerDay + t.hours * MsPerHour + t.minutes * MsPerMinute + t.seconds * MsPerSecond
  }

  /** The split of a positive distance: `Math.floor(distance / unit)` with
      each unit but days taken modulo its parent. On positive operands the
      source's floor division and `%` agree with Dafny's `/` and `%`.
      The result is in range and is the distance rounded down to a whole
      second. */
  function Split(distance: int): (t: TimeLeft)
    requires distance > 0
    ensures InRange(t)
    ensures Millis(t) <= distance < Millis(t) + MsPerSecond
  {
    var t := TimeLeft(
      distance / MsPerDay,
      (distance % MsPerDay) / MsPerHour,
      (distance % MsPerHour) / MsPerMinute,
      (distance % MsPerMinute) / MsPerSecond);
    ModOfMultiple(distance, 24, MsPerHour);
    ModOfMultiple(distance, 60, MsPerMinute);
    ModOfMultiple(distance, 60, MsPerSecond);
    t
  }

  /** `(a % (k * m)) % m == a % m` for positive `k` and `m`. */
  lemma ModOfMultiple(a: int, k: int, m: int)
    requires k > 0 && m > 0
    ensures (a % (k * m)) / m < k
    ensures a % (k * m) == ((a % (k * m)) / m) * m + a % m
  {
    var q1, r1 := a / (k * m), a % (k * m);
    var q2, r2 := r1 / m, r1 % m;
    assert a == q1 * (k * m) + r1;
    assert r1 == q2 * m + r2;
    assert a == (q1 * k + q2) * m + r2;
    DivModUnique(a, m, q1 * k + q2, r2);
  }

  /** The split is the only in-range reading of a distance: any display
      whose span is the distance rounded down to a second is the split. */
  lemma SplitUnique(distance: int, t: TimeLeft)
    requires distance > 0
    requires InRange(t)
    requires Millis(t) <= distance < Millis(t) + MsPerSecond
    ensures Split(distance) == t
  {
    var ms := distance - Millis(t);
    var underDay := t.hours * MsPerHour + t.minutes * MsPerMinute + t.seconds * MsPerSecond + ms;
    var underHour := t.minutes * MsPerMinute + t.seconds * MsPerSecond + ms;
    var underMinute := t.seconds * MsPerSecond + ms;
    DivModUnique(distance, MsPerDay, t.days, underDay);
    DivModUnique(distance, MsPerHour, t.days * 24 + t.hours, underHour);
    DivModUnique(distance, MsPerMinute, (t.days * 24 + t.hours) * 60 + t.minutes, underMinute);
    DivModUnique(underDay, MsPerHour, t.hours, underHour);
    DivModUnique(underHour, MsPerMinute, t.minutes, underMinute);
    DivModUnique(underMinute, MsPerSecond, t.seconds, ms);
  }

  /** 90,061,001 ms is one day, one hour, one minute and one second. */
  lemma SplitExample()
    ensures Split(90061001) == TimeLeft(1, 1, 1, 1)
  {
    SplitUnique(90061001, TimeLeft(1, 1, 1, 1));
  }

  /** What the page holds between ticks: the displayed `timeLeft` and
      whether the interval has been cleared. */
  datatype Clock = Clock(timeLeft: TimeLeft, stopped: bool)

  const Initial := Clock(Zero, false)

  /** The display is always in range, and a cleared interval shows zeros. */
  predicate Consistent(c: Clock)
  {
    InRange(c.timeLeft) && (c.stopped ==> c.timeLeft == Zero)
  }

  /** One interval callback at time `now`. A cleared interval fires no more
      callbacks, so a tick after the stop changes nothing. */
  function Tick(c: Clock, weddingDate: int, now: int): (c': Clock)
  {
    if c.stopped then c
    else
      var distance := weddingDate - now;
      if distance <= 0 then Clock(Zero, true)
      else Clock(Split(distance), false)
  }

  /** The clock after a run of ticks at the given times. */
  function Run(c: Clock, weddingDate: int, times: seq<int>): (c': Clock)
    decreases |times|
  {
    if times == [] then c else Run(Tick(c, weddingDate, times[0]), weddingDate, times[1..])
  }

  /** Every tick keeps the display consistent. */
  lemma TickConsistent(c: Clock, weddingDate: int, now: int)
    requires Consistent(c)
    ensures Consistent(Tick(c, weddingDate, now))
  {
  }

  /** A tick before the wedding shows the remaining time and keeps counting;
      a tick at or after it shows zeros and clears the interval. */
  lemma TickOutcome(c: Clock, weddingDate: int, now: int)
    requires !c.stopped
    ensures now < weddingDate ==> Tick(c, weddingDate, now) == Clock(Split(weddingDate - now), false)
    ensures now >= weddingDate ==> Tick(c, weddingDate, now) == Clock(Zero, true)
  {
  }

  /** Elapsed is final: once the interval is cleared no later run of ticks
      changes the display. */
  lemma {:induction false} StoppedIsFinal(c: Clock, weddingDate: int, times: seq<int>)
    requires c.stopped
    ensures Run(c, weddingDate, times) == c
    decreases |times|
  {
    if times != [] {
      StoppedIsFinal(c, weddingDate, times[1..]);
    }
  }

  /** From the initial zeros, any run of ticks keeps the display consistent;
      and once any tick has come at or after the wedding, the clock is
      stopped at zeros whatever times follow. */
  lemma {:induction false} RunConsistent(c: Clock, weddingDate: int, times: seq<int>)
    requires Consistent(c)
    ensures Consistent(Run(c, weddingDate, times))
    ensures (exists k :: 0 <= k < |times| && times[k] >= weddingDate) ==>
              Run(c, weddingDate, times) == Clock(Zero, true)
    decreases |times|
  {
    if times != [] {
      var c1 := Tick(c, weddingDate, times[0]);
      RunConsistent(c1, weddingDate, times[1..]);
      if times[0] >= weddingDate {
        assert c1 == Clock(Zero, true);
        StoppedIsFinal(c1, weddingDate, times[1..]);
      } else if exists k :: 0 <= k < |times| && times[k] >= weddingDate {
        var k :| 0 <= k < |times| && times[k] >= weddingDate;
        assert times[1..][k - 1] >= weddingDate;
      }
    }
  }

  /** The page's countdown: `timeLeft` state plus the interval, whose
      clearing is the `stopped` flag. */
  class Countdown {
    const weddingDate: int
    var timeLeft: TimeLeft
    var stopped: bool

    function State(): Clock
      reads this
    {
      Clock(timeLeft, stopped)
    }

    /** `useState({days: 0, ...})` and the interval being set up. */
    constructor (weddingDate: int)
      ensures this.weddingDate == weddingDate
      ensures State() == Initial && Consistent(State())
    {
      this.weddingDate := weddingDate;
      timeLeft := Zero;
      stopped := false;
    }

    /** The interval callback at time `now`. */
    method OnInterval(now: int)
      requires Consistent(State())
      modifies this
      ensures State() == Tick(old(State()), weddingDate, now)
      ensures Consistent(State())
    {
      if stopped {
        return;
      }
      var distance := weddingDate - now;
      if distance <= 0 {
        stopped := true;
        timeLeft := Zero;
        return;
      }
      timeLeft := Split(distance);
    }
  }
}
