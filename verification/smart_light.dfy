/** `SmartLight`: a device with a validated brightness. `flash` and `setColor`
    only print, so they change no state; the colour is not stored anywhere. */
module SmartLight {
  import opened Outcomes
  import opened SmartDevice

  const DefaultBrightness: int := 100

  /** A new light: off, no roles, full brightness. */
  function New(id: string, name: string): (d: Device)
    ensures d.id == id && d.name == name
    ensures !d.on && d.roles == []
    ensures d.attrs == Light(DefaultBrightness)
    ensures Valid(d)
  {
    Create(id, name, Light(DefaultBrightness))
  }

  /** `setBrightness`: accepted exactly when `v` is within 0..100; a rejected
      value leaves the light untouched. Power and roles never change. */
  function SetBrightness(d: Device, v: int): (r: Reported<Device>)
    requires d.attrs.Light?
    ensures r.report == Done || r.report == Rejected
    ensures r.report == Done <==> MinLevel <= v <= MaxLevel
    ensures r.report == Done ==> r.state == d.(attrs := Light(v))
    ensures r.report == Rejected ==> r.state == d
    ensures r.state.attrs.Light? && SameIdentityAndRoles(d, r.state) && r.state.on == d.on
    ensures Valid(d) ==> Valid(r.state)
  {
    if v >= MinLevel && v <= MaxLevel then Reported(d.(attrs := Light(v)), Done)
    else Reported(d, Rejected)
  }

  /** Brightness stays in range whatever sequence of values is offered. */
  lemma {:induction false} BrightnessStaysInRange(d: Device, vs: seq<int>)
    requires d.attrs.Light? && InRange(d.attrs)
    ensures InRange(ApplyBrightnesses(d, vs).attrs)
    ensures ApplyBrightnesses(d, vs).attrs.Light?
    decreases |vs|
  {
    if vs != [] {
      BrightnessStaysInRange(SetBrightness(d, vs[0]).state, vs[1..]);
    }
  }

  /** Offer each value of `vs` to `setBrightness` in turn. */
  function ApplyBrightnesses(d: Device, vs: seq<int>): Device
    requires d.attrs.Light?
    decreases |vs|
  {
    if vs == [] then d
    else ApplyBrightnesses(SetBrightness(d, vs[0]).state, vs[1..])
  }

  /** `flash`: a console effect only. */
  function Flash(d: Device): Device {
    d
  }

  /** `setColor`: a console effect only; the colour is not stored. */
  function SetColor(d: Device, color: string): Device {
    d
  }
}
