/** The leading- and trailing-edge rate limiter that wraps `updateRecords`.
    Its closure state is `last` (the time of the last execution) and
    `deferTimer` (at most one scheduled call). Time is an explicit integer
    clock in milliseconds; the timer running is the separate `Fire` step. */
module Throttling {
  import opened Values

  /** The interval used when the caller passes a falsy one. */
  const DefaultThreshold: nat := 250

  /** `threshhold || (threshhold = 250)`. */
  function EffectiveThreshold(threshold: nat): (t: nat)
    ensures t > 0
    ensures threshold != 0 ==> t == threshold
    ensures threshold == 0 ==> t == DefaultThreshold
  {
    if threshold == 0 then DefaultThreshold else threshold
  }

  /** A scheduled trailing call: the time of the call that scheduled it, the
      time its timer runs out, and that call's arguments. */
  datatype Deferred<A> = Deferred(scheduledAt: nat, fireAt: nat, args: A)

  datatype ThrottleState<A> = ThrottleState(last: Option<nat>, pending: Option<Deferred<A>>)

  /** The state after a step, and the arguments the wrapped function was
      called with during the step, if it was. */
  datatype Step<A> = Step(state: ThrottleState<A>, run: Option<A>)

  /** A call made at one time with some arguments. */
  datatype Invocation<A> = Invocation(at: nat, args: A)

  /** `last && now < last + threshhold`: a `last` of 0 is falsy, so it
      never holds a call back. */
  predicate WithinWindow(threshold: nat, last: Option<nat>, now: nat)
  {
    last.Some? && last.value != 0 && now < last.value + threshold
  }

  /** A call to the throttled function at time `now`. Inside the window it
      cancels the pending call and schedules a new one for `now + threshold`
      with these arguments; otherwise it runs at once and records `now`,
      leaving any pending call in place. */
  function CallStep<A>(threshold: nat, s: ThrottleState<A>, now: nat, args: A): Step<A>
  {
    if WithinWindow(threshold, s.last, now) then
      Step(ThrottleState(s.last, Some(Deferred(now, now + threshold, args))), None)
    else
      Step(ThrottleState(Some(now), s.pending), Some(args))
  }

  /** The pending timer runs out: `last` becomes the time of the call that
      scheduled it and the wrapped function runs with that call's arguments.
      A cancelled timer never runs. */
  function FireStep<A>(s: ThrottleState<A>): Step<A>
  {
    match s.pending
    case None => Step(s, None)
    case Some(d) => Step(ThrottleState(Some(d.scheduledAt), None), Some(d.args))
  }

  /** Every pending call is due one interval after the call that made it. */
  predicate WellScheduled<A>(threshold: nat, s: ThrottleState<A>)
  {
    s.pending.Some? ==> s.pending.value.fireAt == s.pending.value.scheduledAt + threshold
  }

  /** The calls in order, with no timer running in between: the final state
      and the arguments of the calls that ran at once. */
  function RunCalls<A>(threshold: nat, s: ThrottleState<A>, calls: seq<Invocation<A>>): (ThrottleState<A>, seq<A>)
    decreases |calls|
  {
    if calls == [] then (s, [])
    else
      var step := CallStep(threshold, s, calls[0].at, calls[0].args);
      var (s', ran) := RunCalls(threshold, step.state, calls[1..]);
      (s', (if step.run.Some? then [step.run.value] else []) + ran)
  }

  /** A call either runs at once or is deferred, never both; what runs at
      once is this call, what is deferred carries this call's arguments and
      is due one interval later; the two steps keep the schedule well formed. */
  lemma StepsKeepSchedule<A>(threshold: nat, s: ThrottleState<A>, now: nat, args: A)
    requires WellScheduled(threshold, s)
    ensures var c := CallStep(threshold, s, now, args);
            && WellScheduled(threshold, c.state)
            && (c.run.Some? <==> !WithinWindow(threshold, s.last, now))
            && (c.run.Some? ==> c.run == Some(args) && c.state.last == Some(now) && c.state.pending == s.pending)
            && (c.run.None? ==> c.state.last == s.last && c.state.pending == Some(Deferred(now, now + threshold, args)))
    ensures WellScheduled(threshold, FireStep(s).state)
  {
  }

  /** The calls are made in the order of the clock. */
  predicate Chronological<A>(calls: seq<Invocation<A>>)
  {
    forall i, j | 0 <= i <= j < |calls| :: calls[i].at <= calls[j].at
  }

  /** A burst of calls, made in order after the last execution and all
      inside its window, before any pending timer runs out, runs nothing at
      once and leaves exactly one pending call: the last one's, due one
      interval after it. */
  lemma {:induction false} BurstIsCoalesced<A>(threshold: nat, s: ThrottleState<A>, calls: seq<Invocation<A>>)
    requires s.last.Some? && s.last.value != 0
    requires calls != [] && Chronological(calls)
    requires s.last.value <= calls[0].at
    requires s.pending.Some? ==> calls[0].at < s.pending.value.fireAt
    requires forall i | 0 <= i < |calls| :: calls[i].at < s.last.value + threshold
    ensures var (s', ran) := RunCalls(threshold, s, calls);
            var final := calls[|calls| - 1];
            && ran == []
            && s' == ThrottleState(s.last, Some(Deferred(final.at, final.at + threshold, final.args)))
    decreases |calls|
  {
    var step := CallStep(threshold, s, calls[0].at, calls[0].args);
    assert WithinWindow(threshold, s.last, calls[0].at);
    if |calls| > 1 {
      var rest := calls[1..];
      assert forall i | 0 <= i < |rest| :: rest[i].at < s.last.value + threshold by {
        forall i | 0 <= i < |rest| ensures rest[i].at < s.last.value + threshold {
          assert rest[i] == calls[i + 1];
        }
      }
      assert Chronological(rest) by {
        forall i, j | 0 <= i <= j < |rest| ensures rest[i].at <= rest[j].at {
          assert rest[i] == calls[i + 1] && rest[j] == calls[j + 1];
        }
      }
      assert rest[0] == calls[1];
      BurstIsCoalesced(threshold, step.state, rest);
    }
  }

  /** The leading and trailing edges together: after a quiet period with
      nothing pending, the first call of a burst runs at once; the later
      calls inside its window collapse into one deferred call carrying the
      latest arguments, which runs when its timer fires and sets `last` to
      the time it was made. */
  lemma BurstAfterQuietPeriod<A>(threshold: nat, s: ThrottleState<A>, first: Invocation<A>, rest: seq<Invocation<A>>)
    requires s.pending.None?
    requires !WithinWindow(threshold, s.last, first.at)
    requires first.at != 0
    requires rest != [] && Chronological([first] + rest)
    requires forall i | 0 <= i < |rest| :: rest[i].at < first.at + threshold
    ensures var (s', ran) := RunCalls(threshold, s, [first] + rest);
            var final := rest[|rest| - 1];
            && ran == [first.args]
            && s'.last == Some(first.at)
            && FireStep(s') == Step(ThrottleState(Some(final.at), None), Some(final.args))
  {
    var calls := [first] + rest;
    assert calls[1..] == rest;
    assert Chronological(rest) by {
      forall i, j | 0 <= i <= j < |rest| ensures rest[i].at <= rest[j].at {
        assert rest[i] == calls[i + 1] && rest[j] == calls[j + 1];
      }
    }
    assert calls[0] == first && calls[1] == rest[0];
    var step := CallStep(threshold, s, first.at, first.args);
    assert step.run == Some(first.args);
    BurstIsCoalesced(threshold, step.state, rest);
  }

  /** The immediate branch does not cancel the pending call: a call outside
      the window runs at once and records its time, the stale trailing call
      stays pending, and when that one fires it runs its own arguments and
      moves `last` back to the time it was scheduled, earlier than the
      call's own. */
  lemma StalePendingMovesLastBack<A>(threshold: nat, s: ThrottleState<A>, now: nat, args: A)
    requires s.pending.Some? && !WithinWindow(threshold, s.last, now)
    ensures var c := CallStep(threshold, s, now, args);
            var d := s.pending.value;
            && c.run == Some(args)
            && c.state == ThrottleState(Some(now), s.pending)
            && FireStep(c.state) == Step(ThrottleState(Some(d.scheduledAt), None), Some(d.args))
            && (d.scheduledAt < now ==> FireStep(c.state).state.last.value < c.state.last.value)
  {
  }

  /** `last` is tested for truthiness: a `last` of 0 never holds a call
      back, whatever the time and whatever is pending. */
  lemma LastZeroNeverHoldsBack<A>(threshold: nat, p: Option<Deferred<A>>, now: nat, args: A)
    ensures var c := CallStep(threshold, ThrottleState(Some(0), p), now, args);
            c.run == Some(args) && c.state == ThrottleState(Some(now), p)
  {
  }

  /** One such run: calls at 1400 and 1500 after an execution at 1000, with
      an interval of 500. */
  lemma StalePendingExample()
    ensures var s0 := ThrottleState(Some(1000), None);
            var s1 := CallStep(500, s0, 1400, "b").state;
            var c2 := CallStep(500, s1, 1500, "c");
            var f := FireStep(c2.state);
            && c2.run == Some("c")
            && c2.state.last == Some(1500)
            && f.run == Some("b")
            && f.state.last == Some(1400)
  {
  }

  /** The throttled wrapper's closure: the interval it was made with and
      the `last`/`deferTimer` pair it updates. */
  class Throttle<A> {
    const threshold: nat
    var last: Option<nat>
    var pending: Option<Deferred<A>>

    ghost predicate Valid()
      reads this
    {
      threshold > 0 && WellScheduled(threshold, State())
    }

    function State(): ThrottleState<A>
      reads this
    {
      ThrottleState(last, pending)
    }

    /** `throttle(fn, threshhold)`: nothing has run and nothing is pending. */
    constructor (threshold: nat)
      ensures Valid()
      ensures this.threshold == EffectiveThreshold(threshold)
      ensures last.None? && pending.None?
    {
      this.threshold := EffectiveThreshold(threshold);
      last := None;
      pending := None;
    }

    /** One call of the wrapper at time `now`; `run` is what the wrapped
      function is called with now, if anything. */
    method Call(now: nat, args: A) returns (run: Option<A>)
      requires Valid()
      modifies this
      ensures Valid()
      ensures Step(State(), run) == CallStep(threshold, old(State()), now, args)
      ensures run.Some? <==> !WithinWindow(threshold, old(last), now)
      ensures run.Some? ==> run == Some(args) && last == Some(now) && pending == old(pending)
      ensures run.None? ==> last == old(last) && pending == Some(Deferred(now, now + threshold, args))
    {
      if WithinWindow(threshold, last, now) {
        pending := Some(Deferred(now, now + threshold, args));
        run := None;
      } else {
        last := Some(now);
        run := Some(args);
      }
    }

    /** The deferred timer runs out. */
    method Fire() returns (run: Option<A>)
      requires Valid()
      modifies this
      ensures Valid()
      ensures Step(State(), run) == FireStep(old(State()))
      ensures old(pending).None? ==> run.None? && last == old(last) && pending.None?
      ensures old(pending).Some? ==> run == Some(old(pending).value.args)
                                     && last == Some(old(pending).value.scheduledAt) && pending.None?
    {
      if pending.Some? {
        run := Some(pending.value.args);
        last := Some(pending.value.scheduledAt);
        pending := None;
      } else {
        run := None;
      }
    }
  }
}
