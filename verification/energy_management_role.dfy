/** `EnergyManagementRole`: dim a light to 30, quiet a speaker to 20, and put a
    thermostat into eco mode. Power is never switched. */
module EnergyManagementRole {
  import opened SmartDevice
  import SmartLight
  import SmartSpeaker
  import SmartThermostat

  const Name: string := "Energy Management Role"
  const Description: string := "Optimizes device operation to reduce power consumption and save energy"

  const SavingBrightness: int := 30
  const SavingVolume: int := 20

  /** `execute`. */
  function Execute(d: Device): (r: Device)
    ensures SameIdentityAndRoles(d, r) && r.on == d.on
    ensures d.attrs.Light? ==> r.attrs == Light(SavingBrightness)
    ensures d.attrs.Speaker? ==> r.attrs == Speaker(SavingVolume, d.attrs.sound)
    ensures d.attrs.Thermostat? ==> r.attrs.Thermostat? && r.attrs.current == d.attrs.current
    ensures d.attrs.Thermostat? ==>
      r.attrs.target == if MinTemperature + SmartThermostat.EcoDelta <= d.attrs.target
                           <= MaxTemperature + SmartThermostat.EcoDelta
                        then d.attrs.target - SmartThermostat.EcoDelta
                        else d.attrs.target
    ensures d.attrs.Thermostat? && Valid(d) ==>
      r.attrs.target == if d.attrs.target >= MinTemperature + SmartThermostat.EcoDelta
                        then d.attrs.target - SmartThermostat.EcoDelta
                        else d.attrs.target
    ensures Valid(d) ==> Valid(r)
  {
    match d.attrs
    case Light(_) => SmartLight.SetBrightness(d, SavingBrightness).state
    case Speaker(_, _) => SmartSpeaker.SetVolume(d, SavingVolume).state
    case Thermostat(_, _) => SmartThermostat.EnableEcoMode(d).state
  }

  /** On lights and speakers, saving energy twice is the same as saving it once.
      On a thermostat it is not: each run lowers the target again. */
  lemma IdempotentOnLightsAndSpeakers(d: Device)
    requires !d.attrs.Thermostat?
    ensures Execute(Execute(d)) == Execute(d)
  {
  }

  /** On a valid thermostat at 14.0 or above, two runs lower the target by 4.0,
      twice the single-run step. */
  lemma TwoRunsLowerThermostatTwice(d: Device)
    requires d.attrs.Thermostat? && Valid(d) && d.attrs.target >= 14.0
    ensures Execute(d).attrs.target == d.attrs.target - SmartThermostat.EcoDelta
    ensures Execute(Execute(d)).attrs.target == d.attrs.target - 2.0 * SmartThermostat.EcoDelta
    ensures Execute(Execute(d)) != Execute(d)
  {
  }

  /** A thermostat at 20.0 goes to 18.0 after one run and 16.0 after two. */
  lemma NotIdempotentOnThermostat()
    ensures var t := SmartThermostat.New("t", "Hall Thermostat");
      Execute(t).attrs.target == 18.0 && Execute(Execute(t)).attrs.target == 16.0
  {
  }
}
