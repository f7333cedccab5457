/**
 * The useTimer hook: a stopwatch kept in three refs. timerRef holds the
 * interval while the stopwatch runs, startTimeRef the moment counting would
 * have begun had it never paused, elapsedTimeRef the milliseconds counted
 * at the last tick. The clock is passed in as `now`, in milliseconds, and
 * the interval's callback is the method Tick.
 */
module UseTimer {
  import opened Wrappers

  /** The three refs as a value; `running` is whether timerRef holds an interval. */
  datatype TimerState = TimerState(running: bool, startTime: Option<int>, elapsed: int)

  /** The refs on the hook's first render. */
  const Initial: TimerState := TimerState(false, None, 0)

  /** startTimeRef as the subtraction in the interval reads it: JavaScript turns null into 0. */
  function StartOrZero(s: TimerState): int
  {
    if s.startTime.Some? then s.startTime.value else 0
  }

  /**
   * start: does nothing while running; otherwise backdates the start by the
   * time already counted and starts the interval.
   */
  function Started(s: TimerState, now: int): (r: TimerState)
    ensures s.running ==> r == s
    ensures !s.running ==> r.running && r.startTime == Some(now - s.elapsed) && r.elapsed == s.elapsed
  {
    if s.running then s else TimerState(true, Some(now - s.elapsed), s.elapsed)
  }

  /** pause: stops the interval and keeps the time counted; on a stopped timer it does nothing. */
  function Paused(s: TimerState): (r: TimerState)
    ensures !r.running
    ensures r.startTime == s.startTime && r.elapsed == s.elapsed
    ensures !s.running ==> r == s
  {
    if s.running then s.(running := false) else s
  }

  /** reset: pause, then zero the count and forget the start. */
  function Zeroed(s: TimerState): (r: TimerState)
    ensures r == Initial
  {
    Paused(s).(elapsed := 0, startTime := None)
  }

  /** The interval's callback: the count becomes the time since the (backdated) start. */
  function Ticked(s: TimerState, now: int): (r: TimerState)
    requires s.running
    ensures r.running && r.startTime == s.startTime
    ensures s.startTime.Some? ==> r.elapsed + s.startTime.value == now
    ensures s.startTime.None? ==> r.elapsed == now
  {
    s.(elapsed := now - StartOrZero(s))
  }

  /**
   * Pausing and resuming counts each run up to its last tick: the count
   * continues from the reading the last tick took before the pause.
   */
  lemma ResumeContinues(s: TimerState, t1: int, t2: int, t3: int, t4: int)
    requires !s.running
    ensures Ticked(Started(Paused(Ticked(Started(s, t1), t2)), t3), t4).elapsed
         == s.elapsed + (t2 - t1) + (t4 - t3)
  {
  }

  /**
   * pause takes no reading of the clock, so the running time between the
   * last tick (at t2) and the pause (at tp) is not counted.
   */
  lemma PauseDropsUntickedTime(s: TimerState, t1: int, t2: int, tp: int, t3: int, t4: int)
    requires !s.running && t1 <= t2 <= tp <= t3 <= t4
    ensures Ticked(Started(Paused(Ticked(Started(s, t1), t2)), t3), t4).elapsed
         == s.elapsed + (tp - t1) + (t4 - t3) - (tp - t2)
    ensures tp > t2 ==>
      Ticked(Started(Paused(Ticked(Started(s, t1), t2)), t3), t4).elapsed < s.elapsed + (tp - t1) + (t4 - t3)
  {
  }

  /** Date.now() is the wall clock: when it steps back, a tick can make the count negative. */
  lemma BackwardClockExample()
    ensures Ticked(Started(Initial, 100), 50).elapsed == -50
  {
  }

  /** What can happen to the hook: its three callbacks and the interval firing, each at a clock reading. */
  datatype TimerEvent = StartAt(now: int) | PauseNow | ResetNow | TickAt(now: int)

  /** The clock after an event: unchanged by events that do not read it. */
  function ClockAfter(e: TimerEvent, clock: int): int
  {
    match e
    case StartAt(now) => now
    case TickAt(now) => now
    case _ => clock
  }

  /** The clock never runs backwards across the events. */
  ghost predicate Monotone(es: seq<TimerEvent>, clock: int)
    decreases |es|
  {
    es == [] || (ClockAfter(es[0], clock) >= clock && Monotone(es[1..], ClockAfter(es[0], clock)))
  }

  /** One event; the interval only fires while it exists. */
  function Step(s: TimerState, e: TimerEvent): TimerState
  {
    match e
    case StartAt(now) => Started(s, now)
    case PauseNow => Paused(s)
    case ResetNow => Zeroed(s)
    case TickAt(now) => if s.running then Ticked(s, now) else s
  }

  function Run(s: TimerState, es: seq<TimerEvent>): TimerState
    decreases |es|
  {
    if es == [] then s else Run(Step(s, es[0]), es[1..])
  }

  /**
   * The count is never negative, and while running the count so far plus
   * the backdated start lies no later than the clock.
   */
  ghost predicate Sane(s: TimerState, clock: int)
  {
    s.elapsed >= 0 &&
    (s.running ==> s.startTime.Some? && s.startTime.value + s.elapsed <= clock)
  }

  lemma StepSane(s: TimerState, e: TimerEvent, clock: int)
    requires Sane(s, clock) && ClockAfter(e, clock) >= clock
    ensures Sane(Step(s, e), ClockAfter(e, clock))
    ensures e.ResetNow? || Step(s, e).elapsed >= s.elapsed
  {
  }

  /**
   * With a clock that never runs backwards, the count is never negative and
   * never decreases except through reset.
   */
  lemma {:induction false} RunSane(s: TimerState, es: seq<TimerEvent>, clock: int)
    requires Sane(s, clock) && Monotone(es, clock)
    ensures Run(s, es).elapsed >= 0
    ensures (forall i :: 0 <= i < |es| ==> !es[i].ResetNow?) ==> Run(s, es).elapsed >= s.elapsed
    decreases |es|
  {
    if es != [] {
      StepSane(s, es[0], clock);
      RunSane(Step(s, es[0]), es[1..], ClockAfter(es[0], clock));
      if forall i :: 0 <= i < |es| ==> !es[i].ResetNow? {
        assert forall i :: 0 <= i < |es[1..]| ==> !es[1..][i].ResetNow? by {
          forall i | 0 <= i < |es[1..]| ensures !es[1..][i].ResetNow? {
            assert es[1..][i] == es[i + 1];
          }
        }
      }
    }
  }

  /** The hook's refs, updated in place. */
  class Timer {
    var running: bool
    var startTime: Option<int>
    var elapsed: int

    function State(): TimerState
      reads this
    {
      TimerState(running, startTime, elapsed)
    }

    constructor ()
      ensures State() == Initial
    {
      running := false;
      startTime := None;
      elapsed := 0;
    }

    method Start(now: int)
      modifies this
      ensures State() == Started(old(State()), now)
    {
      if running {
        return;
      }
      startTime := Some(now - elapsed);
      running := true;
    }

    method Pause()
      modifies this
      ensures State() == Paused(old(State()))
    {
      if running {
        running := false;
      }
    }

    method Reset()
      modifies this
      ensures State() == Zeroed(old(State()))
    {
      Pause();
      elapsed := 0;
      startTime := None;
    }

    /** The interval's callback; it only fires while the interval exists. */
    method Tick(now: int)
      requires running
      modifies this
      ensures State() == Ticked(old(State()), now)
    {
      elapsed := now - StartOrZero(State());
    }

    method GetElapsedTime() returns (ms: int)
      ensures ms == elapsed
    {
      ms := elapsed;
    }
  }
}
