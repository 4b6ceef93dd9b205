/**
 A model of `ncTimer`: a stopwatch with a running flag, the start and stop
 instants of the current measurement, and an accumulated total.

 The clock (`GetNow`, an SDL tick query) is passed in as the `now` argument,
 so every operation is a pure transition on the timer's four fields. All
 arithmetic is that of the source's `unsigned long int`, taken here to be
 64 bits wide (the LP64 targets), so differences and sums wrap around.
 */
module Timer {

  import opened CTypes

  /** Unsigned subtraction: the result is the number of ticks from `b` forward to `a`. */
  function Sub(a: ULong, b: ULong): (r: ULong)
    ensures (b + r) % ULongModulus == a
    ensures b <= a ==> r == a - b
  {
    (a - b) % ULongModulus
  }

  /** Unsigned addition: the exact sum when it fits, otherwise the sum less one modulus. */
  function Add(a: ULong, b: ULong): (r: ULong)
    ensures a + b < ULongModulus ==> r == a + b
    ensures ULongModulus <= a + b ==> r == a + b - ULongModulus
  {
    (a + b) % ULongModulus
  }

  datatype Timer = Timer(running: bool, start: ULong, stop: ULong, total: ULong)

  /** The interval reported by `GetInterval` at clock value `now`: up to `now`
      while running, up to the stop instant otherwise. Reading it changes nothing. */
  function GetInterval(t: Timer, now: ULong): (r: ULong)
    ensures t.running ==> (t.start + r) % ULongModulus == now
    ensures !t.running ==> (t.start + r) % ULongModulus == t.stop
  {
    if t.running then Sub(now, t.start) else Sub(t.stop, t.start)
  }

  /** The accumulated total; reading it changes nothing. */
  function GetTotal(t: Timer): ULong
  {
    t.total
  }

  /** `Reset`: a stopped timer with every instant and the total cleared. */
  function Reset(t: Timer): (r: Timer)
    ensures !r.running && r.start == 0 && r.stop == 0 && GetTotal(r) == 0
    ensures forall now: ULong :: GetInterval(r, now) == 0
  {
    Timer(false, 0, 0, 0)
  }

  /** `Continue`: resume measuring from `now`, keeping the stop instant and the total. */
  function Continue(t: Timer, now: ULong): (r: Timer)
    ensures r.running && r.start == now
    ensures r.stop == t.stop && GetTotal(r) == GetTotal(t)
    ensures GetInterval(r, now) == 0
  {
    t.(running := true, start := now)
  }

  /** `Start` is `Reset` followed by `Continue`. */
  function Start(t: Timer, now: ULong): (r: Timer)
    ensures r.running && r.start == now && r.stop == 0 && GetTotal(r) == 0
    ensures GetInterval(r, now) == 0
  {
    Continue(Reset(t), now)
  }

  /** `Stop`: freeze the interval at `now` and add it to the total. The source does
      not test the running flag, so stopping a stopped timer adds `now - start` again. */
  function Stop(t: Timer, now: ULong): (r: Timer)
    ensures !r.running && r.stop == now && r.start == t.start
    ensures forall later: ULong :: GetInterval(r, later) == Sub(now, t.start)
    ensures GetTotal(r) == Add(GetTotal(t), GetInterval(r, now))
    ensures t.running ==> GetTotal(r) == Add(GetTotal(t), GetInterval(t, now))
  {
    t.(running := false, stop := now, total := Add(t.total, Sub(now, t.start)))
  }

  /** Start at `t0`, stop at `t1`, continue at `t2`, stop at `t3`: the total is the
      sum of the two measured intervals (modulo the word size). */
  lemma TwoIntervalsAccumulate(t: Timer, t0: ULong, t1: ULong, t2: ULong, t3: ULong)
    ensures var s := Stop(Continue(Stop(Start(t, t0), t1), t2), t3);
            GetTotal(s) == Add(Sub(t1, t0), Sub(t3, t2))
    ensures var s1 := Stop(Start(t, t0), t1);
            var s := Stop(Continue(s1, t2), t3);
            GetTotal(s) == Add(GetInterval(s1, t3), GetInterval(s, t3))
  {
  }

  /** A timer that is only stopped, never resumed, keeps reporting the same interval,
      whatever the clock says afterwards. */
  lemma StoppedIntervalIsFrozen(t: Timer, now: ULong, later1: ULong, later2: ULong)
    ensures GetInterval(Stop(t, now), later1) == GetInterval(Stop(t, now), later2)
    ensures t.running ==> GetInterval(Stop(t, now), later1) == GetInterval(t, now)
  {
  }

  /** Stopping twice counts the interval since the last start twice. */
  lemma StopTwiceCountsTwice(t: Timer, n1: ULong, n2: ULong)
    ensures GetTotal(Stop(Stop(t, n1), n2)) == Add(Add(GetTotal(t), Sub(n1, t.start)), Sub(n2, t.start))
  {
  }
}
