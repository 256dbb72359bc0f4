/** An abstract model of the engine's `Timer`: a duration, the time elapsed so
    far, a mode, and whether the last tick finished it.  Only `from_seconds`,
    `tick`, `finished` and `reset` are used by the game. */
module Timers {
  import opened Numeric

  datatype TimerMode = Once | Repeating

  datatype Timer = Timer(duration: real, elapsed: real, mode: TimerMode, finished: bool) {

    /** Elapsed time stays within the duration; a finished once-timer sits at its duration;
        a repeating timer has wrapped below its duration. */
    predicate Valid() {
      && 0.0 <= elapsed <= duration
      && (mode == Once && finished ==> elapsed == duration)
      && (mode == Repeating ==> elapsed < duration || elapsed == 0.0)
    }

    /** `timer.tick(delta)`.  A finished once-timer no longer changes; otherwise the elapsed
        time grows by `delta`, a once-timer stops at its duration, and a repeating timer wraps. */
    function Tick(delta: real): (t: Timer)
      requires Valid() && delta >= 0.0
      ensures t.Valid()
      ensures t.duration == duration && t.mode == mode
      ensures mode == Once ==> (t.finished <==> finished || elapsed + delta >= duration)
      ensures mode == Repeating ==> (t.finished <==> elapsed + delta >= duration)
      ensures !t.finished ==> t.elapsed == elapsed + delta
      ensures mode == Repeating && t.finished ==>
                t.elapsed == (if duration == 0.0 then 0.0 else FMod(elapsed + delta, duration))
    {
      if mode == Once && finished then this
      else
        var e := elapsed + delta;
        if e < duration then Timer(duration, e, mode, false)
        else if mode == Once then Timer(duration, duration, mode, true)
        else if duration == 0.0 then Timer(duration, 0.0, mode, true)
        else Timer(duration, FMod(e, duration), mode, true)
    }

    /** `timer.reset()`: back to zero elapsed time, not finished. */
    function Reset(): (t: Timer)
      requires Valid()
      ensures t.Valid() && !t.finished && t.elapsed == 0.0
      ensures t.duration == duration && t.mode == mode
    {
      Timer(duration, 0.0, mode, false)
    }
  }

  /** `Timer::from_seconds(d, mode)`; a negative duration panics in the engine. */
  function FromSeconds(d: real, mode: TimerMode): (t: Timer)
    requires d >= 0.0
    ensures t.Valid() && !t.finished && t.elapsed == 0.0
    ensures t.duration == d && t.mode == mode
  {
    Timer(d, 0.0, mode, false)
  }

  /** The timer after one tick per frame, in order. */
  function TickAll(t: Timer, deltas: seq<real>): (r: Timer)
    requires t.Valid()
    requires forall i :: 0 <= i < |deltas| ==> deltas[i] >= 0.0
    ensures r.Valid()
    decreases |deltas|
  {
    if deltas == [] then t else TickAll(t.Tick(deltas[0]), deltas[1..])
  }

  function Sum(deltas: seq<real>): real
    decreases |deltas|
  {
    if deltas == [] then 0.0 else deltas[0] + Sum(deltas[1..])
  }

  lemma {:induction false} SumNonNegative(deltas: seq<real>)
    requires forall i :: 0 <= i < |deltas| ==> deltas[i] >= 0.0
    ensures Sum(deltas) >= 0.0
    decreases |deltas|
  {
    if deltas != [] {
      SumNonNegative(deltas[1..]);
    }
  }

  /** A once-timer is finished after a non-empty sequence of ticks exactly when it was already
      finished or the elapsed time plus the ticks reach the duration; while it is not
      finished the ticks simply add up. */
  lemma {:induction false} OnceTimerFinishesAtDuration(t: Timer, deltas: seq<real>)
    requires t.Valid() && t.mode == Once
    requires forall i :: 0 <= i < |deltas| ==> deltas[i] >= 0.0
    ensures TickAll(t, deltas).finished <==> t.finished || (deltas != [] && t.elapsed + Sum(deltas) >= t.duration)
    ensures !TickAll(t, deltas).finished ==> TickAll(t, deltas).elapsed == t.elapsed + Sum(deltas)
    decreases |deltas|
  {
    if deltas != [] {
      var t1 := t.Tick(deltas[0]);
      OnceTimerFinishesAtDuration(t1, deltas[1..]);
      SumNonNegative(deltas[1..]);
      assert t.elapsed + Sum(deltas) == t.elapsed + deltas[0] + Sum(deltas[1..]);
    }
  }

  /** A fresh once-timer of duration `d` is finished after at least one frame iff the frames add up to `d`. */
  lemma FreshOnceTimerFinishedIff(d: real, deltas: seq<real>)
    requires d >= 0.0 && deltas != []
    requires forall i :: 0 <= i < |deltas| ==> deltas[i] >= 0.0
    ensures TickAll(FromSeconds(d, Once), deltas).finished <==> Sum(deltas) >= d
  {
    OnceTimerFinishesAtDuration(FromSeconds(d, Once), deltas);
  }
}
