/**
 * Clients of the controller: call sequences on freshly set-up switches, proved
 * from the methods' contracts alone.
 */
module SwitchScenarios {
  import opened OcppSwitch

  /**
   * Reset: an accepted "on" leaves the switch reading off; a following "off"
   * contacts nobody and leaves it off.
   */
  method ResetScenario(cpId: string, store: MetricStore) returns (onSent: seq<Dispatch>, read: bool, offSent: seq<Dispatch>)
    ensures onSent == [Dispatch(cpId, ServiceReset, None)]
    ensures !read
    ensures offSent == []
  {
    var sw := new ChargePointSwitch(cpId, SWITCH_RESET);
    onSent := sw.TurnOn(true);
    var queries;
    read, queries := sw.IsOn(store);
    offSent := sw.TurnOff(true);
  }

  /**
   * Availability: the reading decides the state, whatever the commands did
   * before; "off" dispatches the availability service with an explicit False.
   */
  method AvailabilityScenario(cpId: string, store: MetricStore, resp: bool) returns (offSent: seq<Dispatch>, read: bool)
    ensures offSent == [Dispatch(cpId, ServiceAvailability, Some(false))]
    ensures read <==> GetMetric(store, MetricQuery(cpId, STATUS_METRIC)) == Some(STATUS_AVAILABLE)
  {
    var sw := new ChargePointSwitch(cpId, SWITCH_AVAILABILITY);
    offSent := sw.TurnOff(resp);
    var queries;
    read, queries := sw.IsOn(store);
  }
}
