/**
 * Sequences of calls on one switch, as the hosting framework makes them: reads of
 * `is_on` against the metric store of the moment, and "on"/"off" commands with the
 * command channel's response. Each call has the effect the controller's methods
 * are proved to have; the lemmas state what holds over any history.
 */
module SwitchTraces {
  import opened OcppSwitch

  datatype Call =
    | Read(store: MetricStore)
    | On(resp: bool)
    | Off(resp: bool)

  /** What a sequence of calls leaves behind: the state, the dispatches and the metric queries. */
  datatype Trace = Trace(state: bool, sent: seq<Dispatch>, queries: seq<MetricQuery>)

  /** The effect of one call on a switch of charge point `cpId` with descriptor `d`. */
  function Apply(cpId: string, d: Descriptor, state: bool, c: Call): Trace
  {
    match c
    case Read(store) => Trace(ReadState(cpId, d, store, state), [], ReadQueries(cpId, d))
    case On(resp) => Trace(TurnOnState(d, resp), OnDispatches(cpId, d), [])
    case Off(resp) => Trace(TurnOffState(d, resp), OffDispatches(cpId, d), [])
  }

  /** The effect of a sequence of calls, starting from `state`: each call acts on the state the earlier ones left. */
  function Run(cpId: string, d: Descriptor, state: bool, calls: seq<Call>): Trace
    decreases |calls|
  {
    if calls == [] then Trace(state, [], [])
    else
      var before := Run(cpId, d, state, calls[..|calls| - 1]);
      var last := Apply(cpId, d, before.state, calls[|calls| - 1]);
      Trace(last.state, before.sent + last.sent, before.queries + last.queries)
  }

  /**
   * Running `first` and then `second` is running `second` from the state `first`
   * leaves, with the dispatches and metric queries of both, in order.
   */
  lemma {:induction false} RunAppend(cpId: string, d: Descriptor, state: bool, first: seq<Call>, second: seq<Call>)
    ensures Run(cpId, d, state, first + second).state
         == Run(cpId, d, Run(cpId, d, state, first).state, second).state
    ensures Run(cpId, d, state, first + second).sent
         == Run(cpId, d, state, first).sent + Run(cpId, d, Run(cpId, d, state, first).state, second).sent
    ensures Run(cpId, d, state, first + second).queries
         == Run(cpId, d, state, first).queries + Run(cpId, d, Run(cpId, d, state, first).state, second).queries
    decreases |second|
  {
    if second == [] {
      assert first + second == first;
    } else {
      var init := second[..|second| - 1];
      assert (first + second)[..|first + second| - 1] == first + init;
      assert (first + second)[|first + second| - 1] == second[|second| - 1];
      RunAppend(cpId, d, state, first, init);
    }
  }

  /** A dispatch the switch may make: its on service without argument, or its off dispatch. */
  predicate Allowed(cpId: string, d: Descriptor, x: Dispatch)
  {
    x == Dispatch(cpId, d.on, None)
    || (d.off.Some? && x == Dispatch(cpId, d.off.value, if d.off.value == d.on then Some(false) else None))
  }

  /** Whatever the history, every dispatch names this charge point and one of the switch's own services. */
  lemma {:induction false} RunDispatchesAllowed(cpId: string, d: Descriptor, state: bool, calls: seq<Call>)
    ensures forall k :: 0 <= k < |Run(cpId, d, state, calls).sent| ==>
      Allowed(cpId, d, Run(cpId, d, state, calls).sent[k])
    decreases |calls|
  {
    if calls != [] {
      var before := Run(cpId, d, state, calls[..|calls| - 1]);
      var last := Apply(cpId, d, before.state, calls[|calls| - 1]);
      RunDispatchesAllowed(cpId, d, state, calls[..|calls| - 1]);
      forall k | 0 <= k < |before.sent + last.sent|
        ensures Allowed(cpId, d, (before.sent + last.sent)[k])
      {
        if k >= |before.sent| {
          assert (before.sent + last.sent)[k] == last.sent[k - |before.sent|];
        }
      }
    }
  }

  /** The number of calls of `calls` that are commands "on" (or "off", when `countOff` holds). */
  function Commands(calls: seq<Call>, countOff: bool): nat
    decreases |calls|
  {
    if calls == [] then 0
    else
      var c := calls[|calls| - 1];
      Commands(calls[..|calls| - 1], countOff) + (if c.On? || (countOff && c.Off?) then 1 else 0)
  }

  /**
   * Every "on" sends exactly one dispatch, every "off" sends one when the
   * descriptor has an off service and none otherwise, and reads send nothing.
   */
  lemma {:induction false} RunDispatchCount(cpId: string, d: Descriptor, state: bool, calls: seq<Call>)
    ensures |Run(cpId, d, state, calls).sent| == Commands(calls, d.off.Some?)
    decreases |calls|
  {
    if calls != [] {
      RunDispatchCount(cpId, d, state, calls[..|calls| - 1]);
    }
  }

  /** A switch without an off service never dispatches anything but its on service. */
  lemma {:induction false} NoOffServiceOnlySendsOn(cpId: string, d: Descriptor, state: bool, calls: seq<Call>)
    requires d.off.None?
    ensures forall k :: 0 <= k < |Run(cpId, d, state, calls).sent| ==>
      Run(cpId, d, state, calls).sent[k] == Dispatch(cpId, d.on, None)
  {
    RunDispatchesAllowed(cpId, d, state, calls);
  }

  /** A switch without a metric never queries the metric store. */
  lemma {:induction false} NoMetricNoQueries(cpId: string, d: Descriptor, state: bool, calls: seq<Call>)
    requires d.metric.None?
    ensures Run(cpId, d, state, calls).queries == []
    decreases |calls|
  {
    if calls != [] {
      NoMetricNoQueries(cpId, d, state, calls[..|calls| - 1]);
    }
  }

  /**
   * A read of a metric-driven switch gives the same answer after any history,
   * from any starting state: on exactly when the reading equals the condition.
   */
  lemma MetricReadForgetsHistory(cpId: string, d: Descriptor, state: bool, calls: seq<Call>, store: MetricStore)
    requires d.metric.Some?
    ensures Run(cpId, d, state, calls + [Read(store)]).state
        <==> GetMetric(store, MetricQuery(cpId, d.metric.value.metric)) == Some(d.metric.value.condition)
  {
  }

  /** A read of a switch without a metric returns what the history left, and changes nothing. */
  lemma CachedReadKeepsState(cpId: string, d: Descriptor, state: bool, calls: seq<Call>, store: MetricStore)
    requires d.metric.None?
    ensures Run(cpId, d, state, calls + [Read(store)]).state == Run(cpId, d, state, calls).state
    ensures Run(cpId, d, state, calls + [Read(store)]).sent == Run(cpId, d, state, calls).sent
  {
  }

  /** Reading twice against the same store gives what reading once gives. */
  lemma ReadIdempotent(cpId: string, d: Descriptor, state: bool, store: MetricStore)
    ensures Run(cpId, d, state, [Read(store), Read(store)]).state == Run(cpId, d, state, [Read(store)]).state
  {
  }

  /**
   * On a pulse switch without an off service (Reset, Unlock), whatever the
   * history: "off" leaves the switch off, and "on" leaves it off exactly when
   * the charger accepted the command.
   */
  lemma PulseSwitchAfterCommand(cpId: string, d: Descriptor, state: bool, calls: seq<Call>, resp: bool)
    requires d.pulse && d.off.None?
    ensures !Run(cpId, d, state, calls + [Off(resp)]).state
    ensures Run(cpId, d, state, calls + [On(resp)]).state == !resp
  {
  }

  /**
   * A fresh Availability switch starts on, but its first read without a status
   * reading turns it off: the metric overrides the default.
   */
  lemma AvailabilityDefaultOverriddenByRead(cpId: string, store: MetricStore)
    requires MetricQuery(cpId, STATUS_METRIC) !in store
    ensures Run(cpId, SWITCH_AVAILABILITY, InitialState(SWITCH_AVAILABILITY), []).state
    ensures !Run(cpId, SWITCH_AVAILABILITY, InitialState(SWITCH_AVAILABILITY), [Read(store)]).state
  {
  }
}
