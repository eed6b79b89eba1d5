/** `SmartThermostat`: a device with a validated target temperature. Java
    `double` is modelled as `real`; only the literals 10.0, 35.0, 20.0, 18.0
    and a subtraction of 2.0 occur. */
module SmartThermostat {
  import opened Outcomes
  import opened SmartDevice

  const DefaultTemperature: real := 20.0
  /** How far eco mode lowers the target. */
  const EcoDelta: real := 2.0

  /** A new thermostat: off, no roles, target and current reading 20.0. */
  function New(id: string, name: string): (d: Device)
    ensures d.id == id && d.name == name
    ensures !d.on && d.roles == []
    ensures d.attrs == Thermostat(DefaultTemperature, DefaultTemperature)
    ensures Valid(d)
  {
    Create(id, name, Thermostat(DefaultTemperature, DefaultTemperature))
  }

  /** `setTemperature`: accepted exactly when `t` is within [10.0, 35.0], bounds
      included; otherwise no change. Power is neither read nor written. */
  function SetTemperature(d: Device, t: real): (r: Reported<Device>)
    requires d.attrs.Thermostat?
    ensures r.report == Done || r.report == Rejected
    ensures r.report == Done <==> MinTemperature <= t <= MaxTemperature
    ensures r.report == Done ==> r.state == d.(attrs := Thermostat(t, d.attrs.current))
    ensures r.report == Rejected ==> r.state == d
    ensures r.state.attrs.Thermostat? && r.state.attrs.current == d.attrs.current
    ensures SameIdentityAndRoles(d, r.state) && r.state.on == d.on
    ensures Valid(d) ==> Valid(r.state)
  {
    if t >= MinTemperature && t <= MaxTemperature then
      Reported(d.(attrs := d.attrs.(target := t)), Done)
    else Reported(d, Rejected)
  }

  /** `enableEcoMode`: lower the target by 2.0 through `setTemperature`. A target
      below 12.0 is left as it is (the new value is rejected, not clamped to 10.0). */
  function EnableEcoMode(d: Device): (r: Reported<Device>)
    requires d.attrs.Thermostat?
    ensures r.report == Done || r.report == Rejected
    ensures r.report == Done <==> MinTemperature + EcoDelta <= d.attrs.target <= MaxTemperature + EcoDelta
    ensures Valid(d) ==> (r.report == Done <==> d.attrs.target >= MinTemperature + EcoDelta)
    ensures r.report == Done ==> r.state == d.(attrs := Thermostat(d.attrs.target - EcoDelta, d.attrs.current))
    ensures r.report != Done ==> r.state == d
    ensures r.state.attrs.Thermostat? && SameIdentityAndRoles(d, r.state) && r.state.on == d.on
    ensures Valid(d) ==> Valid(r.state)
  {
    SetTemperature(d, d.attrs.target - EcoDelta)
  }

  /** Eco mode applied repeatedly to a valid thermostat never leaves the range:
      it stops lowering once the target is below 12.0. */
  lemma {:induction false} EcoModeNeverBelowMinimum(d: Device, n: nat)
    requires d.attrs.Thermostat? && Valid(d)
    ensures EcoRepeated(d, n).attrs.Thermostat?
    ensures Valid(EcoRepeated(d, n))
    ensures EcoRepeated(d, n).attrs.target >= MinTemperature
    ensures EcoRepeated(d, n).attrs.target <= d.attrs.target
    decreases n
  {
    if n > 0 {
      EcoModeNeverBelowMinimum(EnableEcoMode(d).state, n - 1);
    }
  }

  /** `enableEcoMode` applied `n` times. */
  function EcoRepeated(d: Device, n: nat): Device
    requires d.attrs.Thermostat?
    decreases n
  {
    if n == 0 then d else EcoRepeated(EnableEcoMode(d).state, n - 1)
  }
}
