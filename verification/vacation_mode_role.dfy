/** `VacationModeRole`: simulate presence. A light is switched on at a random
    brightness or off, a speaker sometimes plays "TV sounds", and a thermostat
    is set to 18.0. The `Math.random()` draws are explicit inputs. */
module VacationModeRole {
  import opened Outcomes
  import opened SmartDevice
  import SmartLight
  import SmartSpeaker
  import SmartThermostat

  const Name: string := "Vacation Mode Role"
  const Description: string := "Simulates home presence when residents are away on vacation to deter burglars"

  const AmbientSound: string := "TV sounds"
  const AwayTemperature: real := 18.0

  /** A value `Math.random()` can return. */
  type Draw = x: real | 0.0 <= x < 1.0

  /** The draws one `execute` may consume, in call order: a light uses `first`
      to choose on or off and `second` for the brightness; a speaker uses
      `first`; a thermostat uses none. */
  datatype Draws = Draws(first: Draw, second: Draw)

  /** `(int)(x * 50 + 50)`: the cast truncates, which is the floor on this
      non-negative value. */
  function RandomBrightness(x: Draw): (b: int)
    ensures 50 <= b <= 99
    ensures (b as real) <= x * 50.0 + 50.0 < (b as real) + 1.0
  {
    (x * 50.0 + 50.0).Floor
  }

  /** `execute`. */
  function Execute(d: Device, r: Draws): (e: Device)
    ensures SameIdentityAndRoles(d, e)
    ensures d.attrs.Light? && r.first > 0.5 ==>
      e.on && e.attrs == Light(RandomBrightness(r.second))
    ensures d.attrs.Light? && r.first <= 0.5 ==> !e.on && e.attrs == d.attrs
    ensures d.attrs.Speaker? ==> e.on == d.on && e.attrs.Speaker? && e.attrs.volume == d.attrs.volume
    ensures d.attrs.Speaker? ==>
      e.attrs.sound == if r.first > 0.7 && d.on then AmbientSound else d.attrs.sound
    ensures d.attrs.Thermostat? ==> e == d.(attrs := Thermostat(AwayTemperature, d.attrs.current))
    ensures Valid(d) ==> Valid(e)
  {
    match d.attrs
    case Light(_) =>
      if r.first > 0.5 then SmartLight.SetBrightness(TurnOn(d), RandomBrightness(r.second)).state
      else TurnOff(d)
    case Speaker(_, _) =>
      if r.first > 0.7 then SmartSpeaker.PlaySound(d, AmbientSound).state else d
    case Thermostat(_, _) =>
      SmartThermostat.SetTemperature(d, AwayTemperature).state
  }

  /** A switched-on light always ends with brightness in [50, 99]. */
  lemma LitBrightnessRange(d: Device, r: Draws)
    requires d.attrs.Light?
    ensures Execute(d, r).on ==> 50 <= Execute(d, r).attrs.brightness <= 99
  {
  }
}
