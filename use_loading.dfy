/** The loading hook (src/hooks/useLoading.ts): a simulated progress counter
    and the `isLoading` flag the app's overlay follows.

    Timers and events are explicit calls: `ProgressTick` is one firing of the
    120 ms interval (with `Math.random()` as the draw `r`), `MinTimeElapsed`
    the minimum-time timer, `ResourcesChecked` the load / DOMContentLoaded
    listener, and `HideTimerFires` one of the short timers that end loading. */
module UseLoading {
  import opened Arith

  /** Progress is a percentage. */
  const Full: real := 100.0

  /** The smallest advance of a tick that is not capped. */
  const MinAdvance: real := 3.0

  /** The progress updater: pinned at 100 once reached, otherwise
      `min(prev + 8r + 3, 100)`. */
  function Step(prev: real, r: real): (next: real)
    requires IsDraw(r)
    ensures next <= Full
    ensures prev >= Full ==> next == Full
    ensures prev < Full ==> prev < next && (next == Full || prev + MinAdvance <= next)
  {
    if prev >= Full then Full else MinReal(prev + r * 8.0 + 3.0, Full)
  }

  /** Progress after a run of ticks with the given draws. */
  function Run(start: real, draws: seq<real>): real
    requires forall i :: 0 <= i < |draws| ==> IsDraw(draws[i])
    decreases |draws|
  {
    if draws == [] then start else Run(Step(start, draws[0]), draws[1..])
  }

  /** From any value in [0,100] a run never goes down, never passes 100, and
      gains at least 3 per tick until it is capped. */
  lemma {:induction false} RunBounds(start: real, draws: seq<real>)
    requires forall i :: 0 <= i < |draws| ==> IsDraw(draws[i])
    requires 0.0 <= start <= Full
    ensures start <= Run(start, draws) <= Full
    ensures MinReal(start + MinAdvance * |draws| as real, Full) <= Run(start, draws)
    decreases |draws|
  {
    if draws != [] {
      var next := Step(start, draws[0]);
      RunBounds(next, draws[1..]);
      assert MinReal(next + MinAdvance * (|draws| - 1) as real, Full)
          >= MinReal(start + MinAdvance * |draws| as real, Full);
    }
  }

  /** From 0, 34 ticks always reach 100, where progress stays. */
  lemma RunReachesFull(draws: seq<real>)
    requires forall i :: 0 <= i < |draws| ==> IsDraw(draws[i])
    requires |draws| >= 34
    ensures Run(0.0, draws) == Full
  {
    RunBounds(0.0, draws);
  }

  /** `document.readyState`. */
  datatype ReadyState = Loading | Interactive | Complete

  /** The hook's state. `intervalActive` is the progress interval,
      `minTimerPending` the minimum-time timer, and `hideTimers` the number of
      scheduled `setIsLoading(false)` timers. */
  class LoadingHook {
    var isLoading: bool
    var loadingProgress: real
    var intervalActive: bool
    var minTimerPending: bool
    var hideTimers: nat

    ghost predicate Valid()
      reads this
    {
      0.0 <= loadingProgress <= Full
    }

    /** Mounting: loading, progress reset to 0, the interval and the
      minimum-time timer started. */
    constructor ()
      ensures Valid()
      ensures isLoading && loadingProgress == 0.0
      ensures intervalActive && minTimerPending && hideTimers == 0
    {
      isLoading, loadingProgress := true, 0.0;
      intervalActive, minTimerPending, hideTimers := true, true, 0;
    }

    /** One firing of the progress interval; at 100 it pins the value and
      cancels itself. */
    method ProgressTick(r: real)
      requires Valid() && IsDraw(r)
      modifies this
      ensures Valid()
      ensures old(intervalActive) ==> loadingProgress == Step(old(loadingProgress), r)
      ensures !old(intervalActive) ==> loadingProgress == old(loadingProgress)
      ensures intervalActive == (old(intervalActive) && old(loadingProgress) < Full)
      ensures old(loadingProgress) <= loadingProgress
      ensures isLoading == old(isLoading) && minTimerPending == old(minTimerPending)
      ensures hideTimers == old(hideTimers)
    {
      if intervalActive {
        if loadingProgress >= Full {
          intervalActive := false;
        }
        loadingProgress := Step(loadingProgress, r);
      }
    }

    /** The minimum-time timer: progress to 100, then a hide timer. */
    method MinTimeElapsed()
      requires Valid()
      modifies this
      ensures Valid()
      ensures old(minTimerPending) ==> loadingProgress == Full && hideTimers == old(hideTimers) + 1
      ensures !old(minTimerPending) ==> loadingProgress == old(loadingProgress) && hideTimers == old(hideTimers)
      ensures !minTimerPending
      ensures isLoading == old(isLoading) && intervalActive == old(intervalActive)
    {
      if minTimerPending {
        loadingProgress := Full;
        hideTimers := hideTimers + 1;
        minTimerPending := false;
      }
    }

    /** The load / DOMContentLoaded listener: acts only once the document is
      complete. */
    method ResourcesChecked(readyState: ReadyState)
      requires Valid()
      modifies this
      ensures Valid()
      ensures readyState == Complete ==> loadingProgress == Full && hideTimers == old(hideTimers) + 1
      ensures readyState != Complete ==> loadingProgress == old(loadingProgress) && hideTimers == old(hideTimers)
      ensures isLoading == old(isLoading) && intervalActive == old(intervalActive)
      ensures minTimerPending == old(minTimerPending)
    {
      if readyState == Complete {
        loadingProgress := Full;
        hideTimers := hideTimers + 1;
      }
    }

    /** One scheduled hide timer fires: loading ends for good. */
    method HideTimerFires()
      requires Valid()
      modifies this
      ensures Valid()
      ensures old(hideTimers) > 0 ==> !isLoading && hideTimers == old(hideTimers) - 1
      ensures old(hideTimers) == 0 ==> isLoading == old(isLoading) && hideTimers == 0
      ensures isLoading ==> old(isLoading)
      ensures loadingProgress == old(loadingProgress) && intervalActive == old(intervalActive)
      ensures minTimerPending == old(minTimerPending)
    {
      if hideTimers > 0 {
        isLoading := false;
        hideTimers := hideTimers - 1;
      }
    }
  }
}
