/**
 * An abstract model of the SDK's polling engine (core/wait's
 * AsyncActionHandler). Its source is not part of this model: its
 * behaviour here is what the handler tests rely on. The engine applies
 * the handler's check function to one probe per tick; it stops at the
 * first terminal step and returns that step's response and error; when
 * the deadline passes first it returns no response and a timeout error.
 * The deadline is given as the number of ticks that start before it.
 *
 * `S` is the type of snapshot a probe reads and `T` the type of
 * response a wait returns; they differ for the disable handler, which
 * reads a project's status and returns nothing.
 */
module AsyncWait {
  import opened Wrappers
  import opened Probes

  /** Go's time.Duration: a count of nanoseconds. */
  type Duration = int

  const Nanosecond: Duration := 1
  const Millisecond: Duration := 1_000_000 * Nanosecond
  const Second: Duration := 1000 * Millisecond
  const Minute: Duration := 60 * Second

  /** What a wait returns, with the number of probes it made. */
  datatype WaitResult<T> = WaitResult(resp: Option<T>, err: Option<Error>, polls: nat)

  /** Every tick in [from, to) gives a step on which polling goes on. */
  ghost predicate PendingBetween<S, T>(check: ProbeResult<S> -> Step<T>, probe: nat -> ProbeResult<S>, from: nat, to: int)
  {
    forall j: nat :: from <= j < to ==> !Terminal(check(probe(j)))
  }

  /**
   * The wait from tick `tick` on. Either the deadline passes with every
   * remaining tick pending, or the last poll made is the first terminal
   * one and its response and error are returned.
   */
  function RunFrom<S, T>(check: ProbeResult<S> -> Step<T>, probe: nat -> ProbeResult<S>, budget: nat, tick: nat): (r: WaitResult<T>)
    requires tick <= budget
    ensures tick <= r.polls <= budget
    ensures
      || (&& r.polls == budget
          && PendingBetween(check, probe, tick, budget)
          && r.resp == None && r.err == Some(TimedOut))
      || (&& tick < r.polls
          && Terminal(check(probe(r.polls - 1)))
          && PendingBetween(check, probe, tick, r.polls - 1)
          && r.resp == check(probe(r.polls - 1)).resp
          && r.err == check(probe(r.polls - 1)).err)
    decreases budget - tick
  {
    if tick == budget then
      WaitResult(None, Some(TimedOut), budget)
    else
      var s := check(probe(tick));
      if Terminal(s) then WaitResult(s.resp, s.err, tick + 1)
      else RunFrom(check, probe, budget, tick + 1)
  }

  /** A whole wait, from the first tick. */
  function Run<S, T>(check: ProbeResult<S> -> Step<T>, probe: nat -> ProbeResult<S>, budget: nat): WaitResult<T>
  {
    RunFrom(check, probe, budget, 0)
  }

  /**
   * When ticks 0..n-1 are pending and tick n is terminal, before the
   * deadline, the wait returns tick n's response and error after exactly
   * n + 1 probes.
   */
  lemma RunStopsAt<S, T>(check: ProbeResult<S> -> Step<T>, probe: nat -> ProbeResult<S>, budget: nat, n: nat)
    requires n < budget
    requires PendingBetween(check, probe, 0, n)
    requires Terminal(check(probe(n)))
    ensures Run(check, probe, budget)
         == WaitResult(check(probe(n)).resp, check(probe(n)).err, n + 1)
  {
    // Follows from the contract of RunFrom: the wait's last probe is its first terminal one.
  }

  /** When every tick before the deadline is pending, the wait times out with no response. */
  lemma RunTimesOut<S, T>(check: ProbeResult<S> -> Step<T>, probe: nat -> ProbeResult<S>, budget: nat)
    requires PendingBetween(check, probe, 0, budget)
    ensures Run(check, probe, budget) == WaitResult(None, Some(TimedOut), budget)
  {
    // Follows from the contract of RunFrom: no tick before the deadline is terminal.
  }

  /**
   * The engine handle: the check function it applies on every tick and
   * the timeout the caller set, `None` standing for the engine's own
   * default whose value is not part of this model.
   */
  class AsyncActionHandler<S, T> {
    const check: ProbeResult<S> -> Step<T>
    var timeout: Option<Duration>

    /** wait.New(checkFn) */
    constructor New(check: ProbeResult<S> -> Step<T>)
      ensures this.check == check
      ensures timeout == None
    {
      this.check := check;
      timeout := None;
    }

    /** Sets the timeout and returns the same handler, for chaining. */
    method SetTimeout(d: Duration) returns (self: AsyncActionHandler<S, T>)
      modifies this
      ensures self == this
      ensures timeout == Some(d)
    {
      timeout := Some(d);
      self := this;
    }

    /**
     * Polls `probe(0)`, `probe(1)`, ... with the check function until a
     * step is terminal or `budget` ticks have gone by.
     */
    method WaitWithContext(probe: nat -> ProbeResult<S>, budget: nat) returns (resp: Option<T>, err: Option<Error>, polls: nat)
      ensures WaitResult(resp, err, polls) == Run(check, probe, budget)
    {
      polls := 0;
      while polls < budget
        invariant polls <= budget
        invariant RunFrom(check, probe, budget, polls) == Run(check, probe, budget)
      {
        var s := check(probe(polls));
        polls := polls + 1;
        if Terminal(s) {
          return s.resp, s.err, polls;
        }
      }
      return None, Some(TimedOut), polls;
    }
  }
}
