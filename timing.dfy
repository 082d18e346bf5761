/** The step timer of the animation: it gathers elapsed milliseconds and releases one step per delay. */
module Timing {
  /** max(0, n): the accumulator after consume never drops below zero. */
  function Drained(accum: int, stepDelay: int): (r: int)
    ensures r >= 0
    ensures accum >= stepDelay ==> r == accum - stepDelay
    ensures accum < stepDelay ==> r == 0
  {
    if accum - stepDelay > 0 then accum - stepDelay else 0
  }

  /** Once ready, consume takes away exactly one delay; a timer that is not ready is emptied. */
  lemma DrainedOneStep(accum: int, stepDelay: int)
    requires stepDelay >= 0
    ensures accum >= stepDelay ==> Drained(accum, stepDelay) + stepDelay == accum
    ensures Drained(accum, stepDelay) <= if accum > 0 then accum else 0
  {
  }

  class StepTimer {
    var stepDelay: int
    var accum: int
    var paused: bool

    /** StepTimer(step_delay_ms): running, with nothing accumulated. */
    constructor (stepDelay: int)
      ensures this.stepDelay == stepDelay && accum == 0 && !paused
    {
      this.stepDelay := stepDelay;
      accum := 0;
      paused := false;
    }

    /** Empties the accumulator: with a positive delay the timer is then not ready. */
    method Reset()
      modifies this`accum
      ensures accum == 0
      ensures stepDelay > 0 ==> !IsReady()
    {
      accum := 0;
    }

    /** Elapsed time counts only while running. */
    method Update(dt: int)
      modifies this`accum
      ensures paused ==> accum == old(accum)
      ensures !paused ==> accum == old(accum) + dt
      ensures IsReady() <==> !paused && old(accum) + dt >= stepDelay
    {
      if paused {
        return;
      }
      accum := accum + dt;
    }

    /**
     * Running and at least one delay accumulated: a paused timer is never ready, and a ready one
     * holds a whole delay that consume takes away exactly.
     */
    predicate IsReady(): (r: bool)
      reads this
      ensures paused ==> !r
      ensures r ==> Drained(accum, stepDelay) + stepDelay == accum
      ensures !paused && !r ==> accum < stepDelay
    {
      !paused && accum >= stepDelay
    }

    /** Takes one step's worth of time, never going below zero. */
    method Consume()
      modifies this`accum
      ensures accum == Drained(old(accum), stepDelay)
      ensures old(IsReady()) ==> accum == old(accum) - stepDelay
      ensures stepDelay > 0 && !paused ==> (IsReady() <==> old(accum) >= 2 * stepDelay)
    {
      accum := Drained(accum, stepDelay);
    }

    /** While paused, makes exactly one step ready to be taken after resuming; running, does nothing. */
    method StepOnce()
      modifies this`accum
      ensures paused ==> accum == stepDelay && !IsReady()
      ensures !paused ==> accum == old(accum) && (IsReady() <==> old(IsReady()))
    {
      if paused {
        accum := stepDelay;
      }
    }
  }
}
