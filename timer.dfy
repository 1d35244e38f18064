/** The Timer of src/utils/timer.js: converts a tick count since the start
    of a track into seconds, over a list of tempo changes. Each critical
    point holds the number of ticks since the previous change and the tempo
    (microseconds per beat) that applies once those ticks have elapsed;
    before the first change the tempo is 500000 microseconds per beat. The
    arithmetic is exact, in `real`. */
module Timing {

  /** Tempo at the start of every Standard MIDI File. */
  const DefaultTempo: real := 500000.0
  const MicrosecondsPerSecond: real := 1000000.0

  datatype CriticalPoint = CriticalPoint(delta: nat, microsecondsPerBeat: int)

  /** Seconds taken by `ticks` ticks at `tempo` microseconds per beat. */
  function Ticks(ticks: int, tempo: real, ticksPerBeat: int): real
    requires ticksPerBeat != 0
  {
    Seconds(ticks as real * tempo, ticksPerBeat)
  }

  /** Seconds taken by as many ticks as make `micros` microseconds of beats. */
  function Seconds(micros: real, ticksPerBeat: int): real
    requires ticksPerBeat != 0
  {
    micros / ticksPerBeat as real / MicrosecondsPerSecond
  }

  /** getTime's loop from the point list `points` on, with `tempo` in force
      and `delta` ticks still to time. */
  function TimeFrom(points: seq<CriticalPoint>, tempo: real, delta: int, ticksPerBeat: int): real
    requires ticksPerBeat != 0
    decreases |points|
  {
    if points == [] || delta <= 0 then Ticks(delta, tempo, ticksPerBeat)
    else
      var next := points[0].microsecondsPerBeat as real;
      if delta >= points[0].delta then
        Ticks(points[0].delta, tempo, ticksPerBeat) + TimeFrom(points[1..], next, delta - points[0].delta, ticksPerBeat)
      else
        Ticks(delta, tempo, ticksPerBeat) + TimeFrom(points[1..], next, 0, ticksPerBeat)
  }

  /** An independent description: tick `k` (counted from 0) lasts as long as
      the tempo in force at it, the tempo set by the last change whose
      cumulative tick count is at most `k`. */
  function TempoAt(points: seq<CriticalPoint>, tempo: real, k: nat): real
    decreases |points|
  {
    if points == [] || k < points[0].delta then tempo
    else TempoAt(points[1..], points[0].microsecondsPerBeat as real, k - points[0].delta)
  }

  /** The sum of the tempos in force at ticks 0 .. n-1. */
  function TempoSum(points: seq<CriticalPoint>, tempo: real, n: nat): real {
    if n == 0 then 0.0 else TempoSum(points, tempo, n - 1) + TempoAt(points, tempo, n - 1)
  }

  class Timer {
    const ticksPerBeat: int
    var criticalPoints: seq<CriticalPoint>

    constructor (ticksPerBeat: int)
      ensures this.ticksPerBeat == ticksPerBeat && criticalPoints == []
    {
      this.ticksPerBeat := ticksPerBeat;
      criticalPoints := [];
    }

    /** Seconds elapsed after `delta` ticks. */
    function TimeAt(delta: int): real
      requires ticksPerBeat != 0
      reads this
    {
      TimeFrom(criticalPoints, DefaultTempo, delta, ticksPerBeat)
    }

    method AddCriticalPoint(delta: nat, microsecondsPerBeat: int)
      modifies this
      ensures criticalPoints == old(criticalPoints) + [CriticalPoint(delta, microsecondsPerBeat)]
    {
      criticalPoints := criticalPoints + [CriticalPoint(delta, microsecondsPerBeat)];
    }

    method GetTime(delta: int) returns (time: real)
      requires ticksPerBeat != 0
      ensures time == TimeAt(delta)
    {
      time := 0.0;
      var microsecondsPerBeat := DefaultTempo;
      var remaining := delta;
      var i := 0;
      while i < |criticalPoints| && remaining > 0
        invariant 0 <= i <= |criticalPoints|
        invariant time + TimeFrom(criticalPoints[i..], microsecondsPerBeat, remaining, ticksPerBeat) == TimeAt(delta)
      {
        var criticalPoint := criticalPoints[i];
        assert criticalPoints[i..][1..] == criticalPoints[i + 1..];
        if remaining >= criticalPoint.delta {
          time := time + Ticks(criticalPoint.delta, microsecondsPerBeat, ticksPerBeat);
          remaining := remaining - criticalPoint.delta;
        } else {
          time := time + Ticks(remaining, microsecondsPerBeat, ticksPerBeat);
          remaining := 0;
        }
        microsecondsPerBeat := criticalPoint.microsecondsPerBeat as real;
        i := i + 1;
      }
      time := time + Ticks(remaining, microsecondsPerBeat, ticksPerBeat);
    }
  }

  // ---------------------------------------------------------------------
  // Properties of the timeline

  /** No time passes in zero ticks. */
  lemma {:induction false} TimeAtZero(points: seq<CriticalPoint>, tempo: real, ticksPerBeat: int)
    requires ticksPerBeat != 0
    ensures TimeFrom(points, tempo, 0, ticksPerBeat) == 0.0
  {
  }

  /** With no tempo change, time is proportional to ticks. */
  lemma NoCriticalPoints(tempo: real, delta: int, ticksPerBeat: int)
    requires ticksPerBeat != 0
    ensures TimeFrom([], tempo, delta, ticksPerBeat) == delta as real * tempo / ticksPerBeat as real / 1000000.0
  {
  }

  /** Before the first change, every tick is timed at the starting tempo. */
  lemma {:induction false} TempoSumBeforeChange(points: seq<CriticalPoint>, tempo: real, n: nat)
    requires points == [] || n <= points[0].delta
    ensures TempoSum(points, tempo, n) == n as real * tempo
  {
    if n > 0 {
      TempoSumBeforeChange(points, tempo, n - 1);
    }
  }

  /** After the first change, the sum splits into the ticks before it and
      the sum over the remaining changes. */
  lemma {:induction false} TempoSumAfterChange(points: seq<CriticalPoint>, tempo: real, r: nat)
    requires points != []
    ensures TempoSum(points, tempo, points[0].delta + r)
         == points[0].delta as real * tempo + TempoSum(points[1..], points[0].microsecondsPerBeat as real, r)
  {
    if r == 0 {
      TempoSumBeforeChange(points, tempo, points[0].delta);
    } else {
      TempoSumAfterChange(points, tempo, r - 1);
    }
  }

  /** Dividing by the time division and by 10^6 is linear. */
  lemma ScaleAdd(a: real, b: real, ticksPerBeat: int)
    requires ticksPerBeat != 0
    ensures Seconds(a + b, ticksPerBeat) == Seconds(a, ticksPerBeat) + Seconds(b, ticksPerBeat)
  {
  }

  lemma ScaleMonotone(a: real, b: real, ticksPerBeat: int)
    requires ticksPerBeat > 0 && a <= b
    ensures Seconds(a, ticksPerBeat) <= Seconds(b, ticksPerBeat)
  {
    var t := ticksPerBeat as real;
    assert a / t <= b / t;
  }

  /** getTime agrees with the per-tick description: the time of `delta`
      ticks is the sum of the tempos in force at each of them, over ticks
      per beat and microseconds per second. */
  lemma {:induction false} TimeIsTempoSum(points: seq<CriticalPoint>, tempo: real, delta: nat, ticksPerBeat: int)
    requires ticksPerBeat != 0
    ensures TimeFrom(points, tempo, delta, ticksPerBeat) == Seconds(TempoSum(points, tempo, delta), ticksPerBeat)
    decreases |points|
  {
    if points == [] || delta == 0 {
      TempoSumBeforeChange(points, tempo, delta);
    } else if delta >= points[0].delta {
      var r: nat := delta - points[0].delta;
      TimeIsTempoSum(points[1..], points[0].microsecondsPerBeat as real, r, ticksPerBeat);
      TimeAfterChange(points, tempo, r, ticksPerBeat);
    } else {
      TempoSumBeforeChange(points, tempo, delta);
      TimeAtZero(points[1..], points[0].microsecondsPerBeat as real, ticksPerBeat);
    }
  }

  /** The inductive step of TimeIsTempoSum past the first change. */
  lemma {:induction false} TimeAfterChange(points: seq<CriticalPoint>, tempo: real, r: nat, ticksPerBeat: int)
    requires ticksPerBeat != 0 && points != [] && points[0].delta + r > 0
    requires TimeFrom(points[1..], points[0].microsecondsPerBeat as real, r, ticksPerBeat)
          == Seconds(TempoSum(points[1..], points[0].microsecondsPerBeat as real, r), ticksPerBeat)
    ensures TimeFrom(points, tempo, points[0].delta + r, ticksPerBeat)
         == Seconds(TempoSum(points, tempo, points[0].delta + r), ticksPerBeat)
  {
    var d0 := points[0].delta;
    var next := points[0].microsecondsPerBeat as real;
    TimeFromAfterChange(points, tempo, d0 + r, ticksPerBeat);
    TempoSumAfterChange(points, tempo, r);
    SecondsJoin(TimeFrom(points, tempo, d0 + r, ticksPerBeat), TempoSum(points, tempo, d0 + r),
                d0, tempo, TimeFrom(points[1..], next, r, ticksPerBeat), TempoSum(points[1..], next, r), ticksPerBeat);
  }

  /** A time made of `d` ticks at `tempo` and a part that is the seconds of
      its own microseconds is the seconds of their total. */
  lemma SecondsJoin(t: real, w: real, d: int, tempo: real, y: real, b: real, ticksPerBeat: int)
    requires ticksPerBeat != 0
    requires t == Ticks(d, tempo, ticksPerBeat) + y && w == d as real * tempo + b && y == Seconds(b, ticksPerBeat)
    ensures t == Seconds(w, ticksPerBeat)
  {
    ScaleAdd(d as real * tempo, b, ticksPerBeat);
  }

  lemma TimeFromAfterChange(points: seq<CriticalPoint>, tempo: real, delta: int, ticksPerBeat: int)
    requires ticksPerBeat != 0 && points != [] && delta > 0 && delta >= points[0].delta
    ensures TimeFrom(points, tempo, delta, ticksPerBeat)
         == Ticks(points[0].delta, tempo, ticksPerBeat)
          + TimeFrom(points[1..], points[0].microsecondsPerBeat as real, delta - points[0].delta, ticksPerBeat)
  {
  }

  lemma {:induction false} TempoSumMonotone(points: seq<CriticalPoint>, tempo: real, m: nat, n: nat)
    requires tempo >= 0.0
    requires forall i :: 0 <= i < |points| ==> points[i].microsecondsPerBeat >= 0
    requires m <= n
    ensures TempoSum(points, tempo, m) <= TempoSum(points, tempo, n)
    decreases n
  {
    if m < n {
      TempoSumMonotone(points, tempo, m, n - 1);
      TempoNonNegative(points, tempo, n - 1);
    }
  }

  lemma {:induction false} TempoNonNegative(points: seq<CriticalPoint>, tempo: real, k: nat)
    requires tempo >= 0.0
    requires forall i :: 0 <= i < |points| ==> points[i].microsecondsPerBeat >= 0
    ensures TempoAt(points, tempo, k) >= 0.0
    decreases |points|
  {
    if points != [] && k >= points[0].delta {
      assert points[1..][0..] == points[1..];
      assert forall i :: 0 <= i < |points[1..]| ==> points[1..][i] == points[i + 1];
      TempoNonNegative(points[1..], points[0].microsecondsPerBeat as real, k - points[0].delta);
    }
  }

  /** With non-negative tempos and a positive time division, time never goes
      backwards as ticks accumulate, so a note's duration is never negative. */
  lemma TimeMonotone(points: seq<CriticalPoint>, tempo: real, d1: nat, d2: nat, ticksPerBeat: int)
    requires ticksPerBeat > 0 && tempo >= 0.0
    requires forall i :: 0 <= i < |points| ==> points[i].microsecondsPerBeat >= 0
    requires d1 <= d2
    ensures TimeFrom(points, tempo, d1, ticksPerBeat) <= TimeFrom(points, tempo, d2, ticksPerBeat)
  {
    TimeIsTempoSum(points, tempo, d1, ticksPerBeat);
    TimeIsTempoSum(points, tempo, d2, ticksPerBeat);
    TempoSumMonotone(points, tempo, d1, d2);
    ScaleMonotone(TempoSum(points, tempo, d1), TempoSum(points, tempo, d2), ticksPerBeat);
  }

  /** Each further tick adds the time of one tick at the tempo in force at it. */
  lemma TimeOfNextTick(points: seq<CriticalPoint>, tempo: real, delta: nat, ticksPerBeat: int)
    requires ticksPerBeat != 0
    ensures TimeFrom(points, tempo, delta + 1, ticksPerBeat)
         == TimeFrom(points, tempo, delta, ticksPerBeat) + Seconds(TempoAt(points, tempo, delta), ticksPerBeat)
  {
    TimeIsTempoSum(points, tempo, delta, ticksPerBeat);
    TimeIsTempoSum(points, tempo, delta + 1, ticksPerBeat);
    ScaleAdd(TempoSum(points, tempo, delta), TempoAt(points, tempo, delta), ticksPerBeat);
  }

  /** Ticks beyond all the changes are timed at the tempo of the last change. */
  lemma {:induction false} BeyondLastChange(points: seq<CriticalPoint>, tempo: real, k: nat)
    requires points != []
    requires k >= TotalDelta(points)
    ensures TempoAt(points, tempo, k) == points[|points| - 1].microsecondsPerBeat as real
    decreases |points|
  {
    if |points| > 1 {
      BeyondLastChange(points[1..], points[0].microsecondsPerBeat as real, k - points[0].delta);
    }
  }

  /** The cumulative tick count of the last change. */
  function TotalDelta(points: seq<CriticalPoint>): nat {
    if points == [] then 0 else points[0].delta + TotalDelta(points[1..])
  }

  /** The worked example: one change to 600000 microseconds per beat after
      480 ticks, at 480 ticks per beat; 240 ticks take 0.25 s and 720 ticks
      take 0.5 s plus 0.3 s. */
  lemma TimerExample()
    ensures TimeFrom([CriticalPoint(480, 600000)], DefaultTempo, 240, 480) == 0.25
    ensures TimeFrom([CriticalPoint(480, 600000)], DefaultTempo, 720, 480) == 0.8
  {
    var p := [CriticalPoint(480, 600000)];
    assert p[1..] == [];
  }
}
