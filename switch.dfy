/**
 * The switch platform of the OCPP integration: four switch descriptors and the
 * `ChargePointSwitch` controller that turns them into commands for a charge point
 * and into a boolean on/off state.
 *
 * The two collaborators the controller talks to are not modelled; they become
 * parameters:
 *  - the metric store (`get_metric`) is a map from (charge point, metric) to the
 *    current reading; a key that is absent is a metric with no reading;
 *  - the command channel (`set_charger_state`) is the boolean response `resp`
 *    handed to a command, and every command reports the dispatches it made.
 */
module OcppSwitch {

  datatype Option<T> = None | Some(value: T)

  /** The integration's domain, the name of its directory under custom_components. */
  const DOMAIN: string := "ocpp"

  /**
   * The charger services a switch may invoke. The source passes the NAME of an
   * enum member, so two services are equal exactly when they are the same member.
   */
  datatype Service =
    | ServiceChargeStart
    | ServiceChargeStop
    | ServiceAvailability
    | ServiceReset
    | ServiceUnlock

  /** The status metric key and the two OCPP 1.6 charge point statuses used as conditions. */
  const STATUS_METRIC: string := "Status"
  const STATUS_CHARGING: string := "Charging"
  const STATUS_AVAILABLE: string := "Available"

  /** A metric whose current reading decides the switch state, and the reading that means "on". */
  datatype MetricCondition = MetricCondition(metric: string, condition: string)

  /**
   * A switch descriptor. `on` is mandatory; `off`, `default` and the metric are
   * optional; `pulse` is false unless the descriptor says otherwise.
   */
  datatype Descriptor = Descriptor(
    name: string,
    on: Service,
    off: Option<Service>,
    pulse: bool,
    default: Option<bool>,
    metric: Option<MetricCondition>)

  const SWITCH_CHARGE: Descriptor := Descriptor(
    "Charge_Control", ServiceChargeStart, Some(ServiceChargeStop), false, None,
    Some(MetricCondition(STATUS_METRIC, STATUS_CHARGING)))

  const SWITCH_AVAILABILITY: Descriptor := Descriptor(
    "Availability", ServiceAvailability, Some(ServiceAvailability), false, Some(true),
    Some(MetricCondition(STATUS_METRIC, STATUS_AVAILABLE)))

  const SWITCH_RESET: Descriptor := Descriptor(
    "Reset", ServiceReset, None, true, None, None)

  const SWITCH_UNLOCK: Descriptor := Descriptor(
    "Unlock", ServiceUnlock, None, true, None, None)

  /** The descriptors, in the order in which setup creates their switches. */
  const SWITCHES: seq<Descriptor> := [SWITCH_CHARGE, SWITCH_AVAILABILITY, SWITCH_RESET, SWITCH_UNLOCK]

  /** One call of the command channel: charge point, service and the optional state argument. */
  datatype Dispatch = Dispatch(cpId: string, command: Service, value: Option<bool>)

  /** One query of the metric store. */
  datatype MetricQuery = MetricQuery(cpId: string, metric: string)

  /** The metric store: the current reading of each (charge point, metric) that has one. */
  type MetricStore = map<MetricQuery, string>

  function GetMetric(store: MetricStore, q: MetricQuery): Option<string>
  {
    if q in store then Some(store[q]) else None
  }

  // ---------------------------------------------------------------------------
  // Identifiers

  /** Python's `sep.join(parts)`. */
  function Join(sep: string, parts: seq<string>): string
    decreases |parts|
  {
    if |parts| == 0 then ""
    else if |parts| == 1 then parts[0]
    else parts[0] + sep + Join(sep, parts[1..])
  }

  /** The unique id: `".".join(["switch", DOMAIN, cp_id, name])`. */
  function UniqueIdOf(cpId: string, name: string): (id: string)
    ensures id == "switch." + DOMAIN + "." + cpId + "." + name
  {
    var parts := ["switch", DOMAIN, cpId, name];
    assert parts[1..] == [DOMAIN, cpId, name];
    assert parts[1..][1..] == [cpId, name];
    assert parts[1..][1..][1..] == [name];
    assert Join(".", [cpId, name]) == cpId + "." + name;
    assert Join(".", [DOMAIN, cpId, name]) == DOMAIN + "." + (cpId + "." + name);
    Join(".", parts)
  }

  /** The display name: `".".join([cp_id, name])`. */
  function DisplayNameOf(cpId: string, name: string): (n: string)
    ensures n == cpId + "." + name
  {
    var parts := [cpId, name];
    assert parts[1..] == [name];
    assert Join(".", parts) == parts[0] + "." + Join(".", parts[1..]);
    Join(".", parts)
  }

  /** The entity id: `"switch." + "_".join([cp_id, name])`. */
  function EntityIdOf(cpId: string, name: string): (id: string)
    ensures id == "switch." + cpId + "_" + name
  {
    var parts := [cpId, name];
    assert parts[1..] == [name];
    assert Join("_", parts) == parts[0] + "_" + Join("_", parts[1..]);
    "switch." + Join("_", parts)
  }

  /** Within one charge point, the unique id determines the switch name. */
  lemma UniqueIdInjective(cpId: string, name1: string, name2: string)
    requires UniqueIdOf(cpId, name1) == UniqueIdOf(cpId, name2)
    ensures name1 == name2
  {
    var prefix := "switch." + DOMAIN + "." + cpId + ".";
    assert UniqueIdOf(cpId, name1) == prefix + name1;
    assert UniqueIdOf(cpId, name2) == prefix + name2;
    assert (prefix + name1)[|prefix|..] == name1;
    assert (prefix + name2)[|prefix|..] == name2;
  }

  /** Within one charge point, the display name determines the switch name. */
  lemma DisplayNameInjective(cpId: string, name1: string, name2: string)
    requires DisplayNameOf(cpId, name1) == DisplayNameOf(cpId, name2)
    ensures name1 == name2
  {
    var prefix := cpId + ".";
    assert DisplayNameOf(cpId, name1) == prefix + name1;
    assert DisplayNameOf(cpId, name2) == prefix + name2;
    assert (prefix + name1)[|prefix|..] == name1;
    assert (prefix + name2)[|prefix|..] == name2;
  }

  /** Within one charge point, the entity id determines the switch name. */
  lemma EntityIdInjective(cpId: string, name1: string, name2: string)
    requires EntityIdOf(cpId, name1) == EntityIdOf(cpId, name2)
    ensures name1 == name2
  {
    var prefix := "switch." + cpId + "_";
    assert EntityIdOf(cpId, name1) == prefix + name1;
    assert EntityIdOf(cpId, name2) == prefix + name2;
    assert (prefix + name1)[|prefix|..] == name1;
    assert (prefix + name2)[|prefix|..] == name2;
  }

  /**
   * Across charge points the unique id is injective only for switch names without
   * a ".": with a dotted name, a charge point id that contains "." can produce the
   * id of another charge point's switch.
   */
  lemma UniqueIdAmbiguousAcrossChargePoints()
    ensures UniqueIdOf("cp.Reset", "Unlock") == UniqueIdOf("cp", "Reset.Unlock")
  {
  }

  /** In `head + "." + tail` with a dot-free tail, the dot at `|head|` is the last one. */
  lemma LastDot(head: string, tail: string)
    requires '.' !in tail
    ensures (head + "." + tail)[|head|] == '.'
    ensures forall k :: |head| < k < |head + "." + tail| ==> (head + "." + tail)[k] != '.'
  {
  }

  /**
   * For switch names without a ".", the unique id determines both the charge
   * point id and the switch name: the name is what follows the last ".".
   */
  lemma UniqueIdInjectiveForDotFreeNames(cpId1: string, name1: string, cpId2: string, name2: string)
    requires '.' !in name1 && '.' !in name2
    requires UniqueIdOf(cpId1, name1) == UniqueIdOf(cpId2, name2)
    ensures cpId1 == cpId2 && name1 == name2
  {
    var prefix := "switch." + DOMAIN + ".";
    var id := UniqueIdOf(cpId1, name1);
    var head1, head2 := prefix + cpId1, prefix + cpId2;
    assert id == head1 + "." + name1;
    assert id == head2 + "." + name2;
    LastDot(head1, name1);
    LastDot(head2, name2);
    assert |head1| == |head2|;
    assert name1 == id[|head1| + 1..] == name2;
    assert head1 == id[..|head1|] == head2;
    assert cpId1 == head1[|prefix|..] && cpId2 == head2[|prefix|..];
  }

  /** None of the four descriptor names contains a ".". */
  lemma SwitchNamesDotFree(i: nat)
    requires i < |SWITCHES|
    ensures '.' !in SWITCHES[i].name
  {
  }

  /** The four switches of one charge point have pairwise distinct identifiers. */
  lemma SetupIdentifiersDistinct(cpId: string, i: nat, j: nat)
    requires i < j < |SWITCHES|
    ensures UniqueIdOf(cpId, SWITCHES[i].name) != UniqueIdOf(cpId, SWITCHES[j].name)
    ensures DisplayNameOf(cpId, SWITCHES[i].name) != DisplayNameOf(cpId, SWITCHES[j].name)
    ensures EntityIdOf(cpId, SWITCHES[i].name) != EntityIdOf(cpId, SWITCHES[j].name)
  {
  }

  /**
   * The unique ids of all switches set up in one installation are pairwise
   * distinct, across charge points too: two switches share an id only when they
   * are the same descriptor on the same charge point.
   */
  lemma SetupUniqueIdsDistinctAcrossChargePoints(cpId1: string, i: nat, cpId2: string, j: nat)
    requires i < |SWITCHES| && j < |SWITCHES|
    requires cpId1 != cpId2 || i != j
    ensures UniqueIdOf(cpId1, SWITCHES[i].name) != UniqueIdOf(cpId2, SWITCHES[j].name)
  {
    if UniqueIdOf(cpId1, SWITCHES[i].name) == UniqueIdOf(cpId2, SWITCHES[j].name) {
      SwitchNamesDotFree(i);
      SwitchNamesDotFree(j);
      UniqueIdInjectiveForDotFreeNames(cpId1, SWITCHES[i].name, cpId2, SWITCHES[j].name);
    }
  }

  // ---------------------------------------------------------------------------
  // The state machine, one step at a time

  /** The state a new switch starts in. */
  function InitialState(d: Descriptor): (s: bool)
    ensures s <==> d.default == Some(true)
  {
    match d.default
    case Some(b) => b
    case None => false
  }

  /** The metric queries a read makes: one for a metric-driven descriptor, none otherwise. */
  function ReadQueries(cpId: string, d: Descriptor): (qs: seq<MetricQuery>)
    ensures d.metric.None? <==> qs == []
    ensures d.metric.Some? ==> |qs| == 1 && qs[0].cpId == cpId && qs[0].metric == d.metric.value.metric
  {
    match d.metric
    case None => []
    case Some(m) => [MetricQuery(cpId, m.metric)]
  }

  /**
   * The state after a read. A metric-driven switch is on exactly when the
   * metric has a reading equal to the condition, whatever the cached state was;
   * any other switch keeps its cached state.
   */
  function ReadState(cpId: string, d: Descriptor, store: MetricStore, cached: bool): (on: bool)
    ensures d.metric.None? ==> on == cached
    ensures d.metric.Some? ==>
      (on <==> MetricQuery(cpId, d.metric.value.metric) in store
               && store[MetricQuery(cpId, d.metric.value.metric)] == d.metric.value.condition)
  {
    match d.metric
    case None => cached
    case Some(m) => GetMetric(store, MetricQuery(cpId, m.metric)) == Some(m.condition)
  }

  /** The dispatch "on" makes: the on service, without a state argument. */
  function OnDispatches(cpId: string, d: Descriptor): (sent: seq<Dispatch>)
    ensures |sent| == 1 && sent[0].cpId == cpId && sent[0].command == d.on && sent[0].value.None?
  {
    [Dispatch(cpId, d.on, None)]
  }

  /** The state after "on" with command response `resp`: a pulse switch inverts it. */
  function TurnOnState(d: Descriptor, resp: bool): (s: bool)
    ensures s <==> (resp != d.pulse)
  {
    if d.pulse then !resp else resp
  }

  /**
   * The dispatches "off" makes: none without an off service; the off service
   * with an explicit False when it is the on service too; the off service alone
   * otherwise.
   */
  function OffDispatches(cpId: string, d: Descriptor): (sent: seq<Dispatch>)
    ensures d.off.None? <==> sent == []
    ensures d.off.Some? ==>
      |sent| == 1 && sent[0].cpId == cpId && sent[0].command == d.off.value
      && (sent[0].value.Some? <==> d.off.value == d.on)
      && sent[0].value != Some(true)
  {
    match d.off
    case None => []
    case Some(off) =>
      if off == d.on then [Dispatch(cpId, off, Some(false))]
      else [Dispatch(cpId, off, None)]
  }

  /**
   * The state after "off" with command response `resp`. Without an off service
   * the response is taken to be True; in every case the stored state is its
   * negation, so the switch stays on only after a failed off command.
   */
  function TurnOffState(d: Descriptor, resp: bool): (s: bool)
    ensures s <==> (d.off.Some? && !resp)
  {
    var response := if d.off.None? then true else resp;
    !response
  }

  // ---------------------------------------------------------------------------
  // The controller

  class ChargePointSwitch {
    const cpId: string
    const purpose: Descriptor
    const id: string
    const displayName: string
    const entityId: string
    var state: bool

    /** The identifiers are those built from the charge point id and the descriptor name. */
    ghost predicate Valid()
    {
      id == UniqueIdOf(cpId, purpose.name)
      && displayName == DisplayNameOf(cpId, purpose.name)
      && entityId == EntityIdOf(cpId, purpose.name)
    }

    constructor (cpId: string, servDesc: Descriptor)
      ensures Valid()
      ensures this.cpId == cpId && purpose == servDesc
      ensures state == InitialState(servDesc)
    {
      this.cpId := cpId;
      state := false;
      purpose := servDesc;
      if servDesc.default.Some? {
        state := servDesc.default.value;
      } else {
        state := false;
      }
      id := Join(".", ["switch", DOMAIN, cpId, servDesc.name]);
      displayName := Join(".", [cpId, servDesc.name]);
      entityId := "switch." + Join("_", [cpId, servDesc.name]);
    }

    /** The `unique_id` property. */
    function UniqueId(): (r: string)
      requires Valid()
      ensures r == "switch." + DOMAIN + "." + cpId + "." + purpose.name
    {
      id
    }

    /** The `name` property. */
    function Name(): (r: string)
      requires Valid()
      ensures r == cpId + "." + purpose.name
    {
      displayName
    }

    /**
     * The `is_on` property. A metric-driven switch queries its metric and stores
     * whether the reading equals the condition; any other switch returns its
     * cached state. Returns the state and the metric queries made.
     */
    method IsOn(store: MetricStore) returns (on: bool, queries: seq<MetricQuery>)
      modifies this`state
      ensures state == ReadState(cpId, purpose, store, old(state))
      ensures on == state
      ensures queries == ReadQueries(cpId, purpose)
    {
      queries := [];
      if purpose.metric.Some? {
        var q := MetricQuery(cpId, purpose.metric.value.metric);
        queries := [q];
        var resp := GetMetric(store, q);
        if resp == Some(purpose.metric.value.condition) {
          state := true;
        } else {
          state := false;
        }
      }
      on := state;
    }

    /**
     * `async_turn_on`: dispatches the on service; `resp` is the command
     * channel's answer to that dispatch.
     */
    method TurnOn(resp: bool) returns (sent: seq<Dispatch>)
      modifies this`state
      ensures sent == OnDispatches(cpId, purpose)
      ensures state == TurnOnState(purpose, resp)
    {
      sent := [Dispatch(cpId, purpose.on, None)];
      if purpose.pulse {
        state := !resp;
      } else {
        state := resp;
      }
    }

    /**
     * `async_turn_off`: dispatches according to the off service, if any; `resp`
     * is the command channel's answer and is unused when nothing is dispatched.
     */
    method TurnOff(resp: bool) returns (sent: seq<Dispatch>)
      modifies this`state
      ensures sent == OffDispatches(cpId, purpose)
      ensures state == TurnOffState(purpose, resp)
    {
      var response: bool;
      if purpose.off.None? {
        sent := [];
        response := true;
      } else if purpose.off.value == purpose.on {
        sent := [Dispatch(cpId, purpose.off.value, Some(false))];
        response := resp;
      } else {
        sent := [Dispatch(cpId, purpose.off.value, None)];
        response := resp;
      }
      state := !response;
    }
  }

  /** `async_setup_entry`: one switch per descriptor, in descriptor order. */
  method SetupEntry(cpId: string) returns (entities: seq<ChargePointSwitch>)
    ensures |entities| == |SWITCHES|
    ensures forall i :: 0 <= i < |entities| ==>
      fresh(entities[i]) && entities[i].Valid()
      && entities[i].cpId == cpId && entities[i].purpose == SWITCHES[i]
      && entities[i].state == InitialState(SWITCHES[i])
  {
    entities := [];
    for k := 0 to |SWITCHES|
      invariant |entities| == k
      invariant forall i :: 0 <= i < k ==>
        fresh(entities[i]) && entities[i].Valid()
        && entities[i].cpId == cpId && entities[i].purpose == SWITCHES[i]
        && entities[i].state == InitialState(SWITCHES[i])
    {
      var ent := new ChargePointSwitch(cpId, SWITCHES[k]);
      entities := entities + [ent];
    }
  }

  // ---------------------------------------------------------------------------
  // The four descriptors

  /** Only Availability starts on. */
  lemma InitialStatesOfSetup()
    ensures InitialState(SWITCH_AVAILABILITY)
    ensures !InitialState(SWITCH_CHARGE) && !InitialState(SWITCH_RESET) && !InitialState(SWITCH_UNLOCK)
  {
  }

  /** "off" on Reset or Unlock never contacts the charger and always leaves the switch off. */
  lemma PulseSwitchesOffIsLocal(cpId: string, d: Descriptor, resp: bool)
    requires d == SWITCH_RESET || d == SWITCH_UNLOCK
    ensures OffDispatches(cpId, d) == []
    ensures !TurnOffState(d, resp)
  {
  }

  /** "off" on Availability sends the availability service with an explicit False. */
  lemma AvailabilityOffSendsFalse(cpId: string, resp: bool)
    ensures OffDispatches(cpId, SWITCH_AVAILABILITY) == [Dispatch(cpId, ServiceAvailability, Some(false))]
    ensures TurnOffState(SWITCH_AVAILABILITY, resp) == !resp
  {
  }

  /** "off" on Charge_Control sends the stop service without an argument. */
  lemma ChargeOffSendsStop(cpId: string, resp: bool)
    ensures OffDispatches(cpId, SWITCH_CHARGE) == [Dispatch(cpId, ServiceChargeStop, None)]
    ensures TurnOffState(SWITCH_CHARGE, resp) == !resp
  {
  }
}
