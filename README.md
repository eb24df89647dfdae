# OCPP charge point switches — a Dafny model

This project models the switch platform of the Home Assistant OCPP integration
(`custom_components/ocpp/switch.py`). That platform gives each charge point four
switches: Charge_Control, Availability, Reset and Unlock. Each switch is a
`ChargePointSwitch` driven by a descriptor. The descriptor names the service sent
on "on", an optional service for "off", whether the switch is a pulse, an
optional default state, and an optional metric with the reading that means "on".
The controller caches one boolean, `_state`. A read (`is_on`) recomputes it from
the metric when the descriptor has one. "On" (`async_turn_on`) sends the on
service and stores the response: as it is on a non-pulse switch, negated on a
pulse switch. "Off" (`async_turn_off`) sends the off service and stores the
negated response. A descriptor without an off service (Reset, Unlock) sends
nothing on "off" and stores `not True`, that is, off.

Files:

- `switch.dfy`, module `OcppSwitch`: the descriptors, the identifier strings, one
  pure function per step (the state after a read, an "on" or an "off", and the
  dispatches each makes), the class `ChargePointSwitch` whose methods are proved
  against those functions, and `SetupEntry`, the setup loop.
- `traces.dfy`, module `SwitchTraces`: any sequence of reads and commands on one
  switch (`Run`), with lemmas that hold after any history.
- `scenarios.dfy`, module `SwitchScenarios`: two clients that drive fresh Reset and
  Availability switches through the class's methods.

The two collaborators are parameters, not models. The metric store
(`CentralSystem.get_metric`) is a `map` from (charge point, metric) to the current
reading; a key that is absent is a missing reading, and it never equals the
condition. The command channel (`CentralSystem.set_charger_state`) is the boolean
`resp` given to a command. Every command returns the list of dispatches it made,
each as (charge point, service, optional state argument).

The external constants are modelled as follows:
- The `HAChargerServices` members are the datatype `Service`. The source passes
  member names, so two services are equal exactly when they are the same member.
- The status metric key and the `ChargePointStatus` values "Charging" and
  "Available" are string constants. The proofs do not depend on the values of
  these strings.
- `DOMAIN` is "ocpp", the integration's directory name. `const.py` is not part of
  this model.

Two modelling decisions:
- Descriptors keep metric, pulse and default as independent optional fields, as
  the code does. Availability has both a default and a metric.
- A read for which the store has no reading turns the switch off. The `api`
  module decides what `get_metric` returns for a missing reading, and it is not
  part of this model. The model assumes that such a reading never equals the
  condition. `SwitchTraces.AvailabilityDefaultOverriddenByRead` shows that this
  overrides Availability's default of on.

## Model

| member | source | states |
|---|---|---|
| `OcppSwitch.UniqueIdOf` | custom_components/ocpp/switch.py:67 | the dot-join of "switch", the domain, the charge point id and the name is `"switch." + DOMAIN + "." + cpId + "." + name` |
| `OcppSwitch.DisplayNameOf` | custom_components/ocpp/switch.py:68 | the dot-join of charge point id and name is `cpId + "." + name` |
| `OcppSwitch.EntityIdOf` | custom_components/ocpp/switch.py:69 | the entity id is `"switch." + cpId + "_" + name` |
| `OcppSwitch.UniqueIdInjective` | custom_components/ocpp/switch.py:67 | for one charge point, equal unique ids imply equal switch names |
| `OcppSwitch.DisplayNameInjective` | custom_components/ocpp/switch.py:68 | for one charge point, equal display names imply equal switch names |
| `OcppSwitch.EntityIdInjective` | custom_components/ocpp/switch.py:69 | for one charge point, equal entity ids imply equal switch names |
| `OcppSwitch.UniqueIdAmbiguousAcrossChargePoints` | custom_components/ocpp/switch.py:67 | two different (charge point, name) pairs can share a unique id when the switch name contains "." and a charge point id contains "." too |
| `OcppSwitch.UniqueIdInjectiveForDotFreeNames` | custom_components/ocpp/switch.py:67 | for switch names without ".", equal unique ids imply equal charge point ids and equal names, across charge points |
| `OcppSwitch.SwitchNamesDotFree` | custom_components/ocpp/switch.py:14-38 | none of the four descriptor names contains "." |
| `OcppSwitch.SetupIdentifiersDistinct` | custom_components/ocpp/switch.py:48-49 | the four switches set up for one charge point have pairwise distinct unique ids, display names and entity ids |
| `OcppSwitch.SetupUniqueIdsDistinctAcrossChargePoints` | custom_components/ocpp/switch.py:48-49 | any two switches set up in one installation, on the same or different charge points, have distinct unique ids unless they are the same descriptor on the same charge point |
| `OcppSwitch.InitialState` | custom_components/ocpp/switch.py:60-66 | a new switch is on exactly when its descriptor's default is true |
| `OcppSwitch.ReadQueries` | custom_components/ocpp/switch.py:85-86 | a read makes one query, for this charge point and the descriptor's metric, when there is a metric, and none otherwise |
| `OcppSwitch.ReadState` | custom_components/ocpp/switch.py:85-91 | with a metric, the state after a read is true iff the store has a reading for (charge point, metric) equal to the condition, whatever the cached state was; without a metric it is the cached state |
| `OcppSwitch.OnDispatches` | custom_components/ocpp/switch.py:95-103 | "on" sends exactly one dispatch: this charge point, the on service, no state argument |
| `OcppSwitch.TurnOnState` | custom_components/ocpp/switch.py:95-103 | after "on" the state is the response on a non-pulse switch and its negation on a pulse switch |
| `OcppSwitch.OffDispatches` | custom_components/ocpp/switch.py:108-117 | "off" sends nothing without an off service; otherwise exactly one dispatch of the off service, with an argument iff off equals on, and that argument is never True |
| `OcppSwitch.TurnOffState` | custom_components/ocpp/switch.py:108-118 | after "off" the switch is on iff it has an off service and the charger rejected it |
| `OcppSwitch.ChargePointSwitch.constructor` | custom_components/ocpp/switch.py:57-69 | keeps the charge point id and descriptor, builds the three identifiers from them, and starts in `InitialState` |
| `OcppSwitch.ChargePointSwitch.UniqueId` | custom_components/ocpp/switch.py:71-74 | the `unique_id` property is `"switch." + DOMAIN + "." + cpId + "." + name` |
| `OcppSwitch.ChargePointSwitch.Name` | custom_components/ocpp/switch.py:125-128 | the `name` property is `cpId + "." + name` |
| `OcppSwitch.ChargePointSwitch.IsOn` | custom_components/ocpp/switch.py:81-91 | stores `ReadState` of the old state, returns it, and reports the queries of `ReadQueries`; changes no other field |
| `OcppSwitch.ChargePointSwitch.TurnOn` | custom_components/ocpp/switch.py:93-103 | sends `OnDispatches` and stores `TurnOnState`; changes no other field |
| `OcppSwitch.ChargePointSwitch.TurnOff` | custom_components/ocpp/switch.py:105-118 | sends `OffDispatches` and stores `TurnOffState`; changes no other field |
| `OcppSwitch.SetupEntry` | custom_components/ocpp/switch.py:41-51 | creates exactly four fresh switches for the charge point, one per descriptor, in the order Charge_Control, Availability, Reset, Unlock, each in its initial state |
| `OcppSwitch.InitialStatesOfSetup` | custom_components/ocpp/switch.py:14-38 | of the four descriptors only Availability starts on |
| `OcppSwitch.PulseSwitchesOffIsLocal` | custom_components/ocpp/switch.py:29-38 | "off" on Reset or Unlock sends nothing and leaves the switch off, whatever the response |
| `OcppSwitch.AvailabilityOffSendsFalse` | custom_components/ocpp/switch.py:21-28 | "off" on Availability sends the availability service with an explicit False and stores the negated response |
| `OcppSwitch.ChargeOffSendsStop` | custom_components/ocpp/switch.py:14-20 | "off" on Charge_Control sends the stop service without an argument and stores the negated response |
| `SwitchTraces.RunAppend` | custom_components/ocpp/switch.py:82-118 | running one history and then another is running the second from the state the first left, with the dispatches and metric queries of both concatenated in order |
| `SwitchTraces.RunDispatchesAllowed` | custom_components/ocpp/switch.py:95-117 | after any history, every dispatch is to this charge point: the on service without argument, or the off service with False iff off equals on |
| `SwitchTraces.RunDispatchCount` | custom_components/ocpp/switch.py:93-118 | after any history, the number of dispatches is the number of "on" calls, plus the number of "off" calls when there is an off service |
| `SwitchTraces.NoOffServiceOnlySendsOn` | custom_components/ocpp/switch.py:108-109 | a switch without an off service never dispatches anything but its on service |
| `SwitchTraces.NoMetricNoQueries` | custom_components/ocpp/switch.py:85 | a switch without a metric never queries the metric store, after any history |
| `SwitchTraces.MetricReadForgetsHistory` | custom_components/ocpp/switch.py:85-90 | for a metric-driven switch, a read after any history from any start state is on iff the reading equals the condition |
| `SwitchTraces.CachedReadKeepsState` | custom_components/ocpp/switch.py:85-91 | for a switch without a metric, a read after any history changes neither the state nor the dispatches |
| `SwitchTraces.ReadIdempotent` | custom_components/ocpp/switch.py:82-91 | two reads against the same store leave the same state as one |
| `SwitchTraces.PulseSwitchAfterCommand` | custom_components/ocpp/switch.py:93-118 | on any pulse switch without an off service (Reset, Unlock), after any history, "off" leaves the switch off and "on" leaves it equal to the negated response |
| `SwitchTraces.AvailabilityDefaultOverriddenByRead` | custom_components/ocpp/switch.py:21-28 | a new Availability switch starts on, and a read with no status reading turns it off |
| `SwitchScenarios.ResetScenario` | custom_components/ocpp/switch.py:29-33 | on a new Reset switch, an accepted "on" sends the reset service, the next read is off, and "off" sends nothing |
| `SwitchScenarios.AvailabilityScenario` | custom_components/ocpp/switch.py:21-28 | on a new Availability switch, "off" sends the availability service with False, and a following read is on iff the status reading is "Available" |

## Left out

- Home Assistant plumbing is not modelled: the `hass.data` lookup of the central system, `async_add_devices`, and the properties `available`, `icon`, `device_info`, `extra_state_attributes` and `update`. They are framework metadata with no behaviour of their own.
- `current_power_w` is not modelled; it only passes a metric through, and that metric is a float.
- The internals of `CentralSystem.get_metric` and `set_charger_state` are not modelled. The `api` module is not part of this model. Their results become parameters: the metric store map and the response `resp`.
- `async`/`await` scheduling is not modelled. Each command is one atomic step that receives its response, and reads never interleave with commands.
- Descriptors are typed: `default` is `Option<bool>`, `pulse` is a `bool`, and the metric always comes with its condition. The source accepts any `default` value and applies `bool()` to it. It treats `pulse` as set only when the value is the object `True`, and it raises `KeyError` for a metric without a condition. The four descriptors use only `True` for both keys, so none of these cases arises for them.
- Metric readings: the model takes readings to be strings compared by equality with the condition, and a missing reading never to equal it; what `get_metric` returns is outside this model.
- The concrete strings behind the `HAChargerServices`, `HAChargerStatuses` and `ChargePointStatus` enums are not modelled. `enums.py` and the `ocpp` library are not part of this model, so the model uses distinct stand-in constants.
