/** `SmartSpeaker`: a device with a validated volume and the name of the
    sound it is currently playing. A sound starts only while the speaker is on. */
module SmartSpeaker {
  import opened Outcomes
  import opened SmartDevice

  const DefaultVolume: int := 50
  const NoSound: string := "None"
  const AlarmSound: string := "🚨 ALARM! ALARM! ALARM!"
  const NotificationSound: string := "🔔 NOTIFICATION ALERT"

  /** A new speaker: off, no roles, volume 50, nothing playing. */
  function New(id: string, name: string): (d: Device)
    ensures d.id == id && d.name == name
    ensures !d.on && d.roles == []
    ensures d.attrs == Speaker(DefaultVolume, NoSound)
    ensures Valid(d)
  {
    Create(id, name, Speaker(DefaultVolume, NoSound))
  }

  /** `setVolume`: accepted exactly when `v` is within 0..100; otherwise no change. */
  function SetVolume(d: Device, v: int): (r: Reported<Device>)
    requires d.attrs.Speaker?
    ensures r.report == Done || r.report == Rejected
    ensures r.report == Done <==> MinLevel <= v <= MaxLevel
    ensures r.report == Done ==> r.state == d.(attrs := Speaker(v, d.attrs.sound))
    ensures r.report == Rejected ==> r.state == d
    ensures r.state.attrs.Speaker? && r.state.attrs.sound == d.attrs.sound
    ensures SameIdentityAndRoles(d, r.state) && r.state.on == d.on
    ensures Valid(d) ==> Valid(r.state)
  {
    if v >= MinLevel && v <= MaxLevel then Reported(d.(attrs := d.attrs.(volume := v)), Done)
    else Reported(d, Rejected)
  }

  /** `playSound`: the current sound becomes `s` only while the speaker is on;
      when it is off the call is refused and nothing changes. */
  function PlaySound(d: Device, s: string): (r: Reported<Device>)
    requires d.attrs.Speaker?
    ensures r.report == Done || r.report == Rejected
    ensures r.report == Done <==> d.on
    ensures r.report == Done ==> r.state == d.(attrs := Speaker(d.attrs.volume, s))
    ensures r.report == Rejected ==> r.state == d
    ensures r.state.attrs.Speaker? && r.state.attrs.volume == d.attrs.volume
    ensures SameIdentityAndRoles(d, r.state) && r.state.on == d.on
    ensures Valid(d) ==> Valid(r.state)
  {
    if d.on then Reported(d.(attrs := d.attrs.(sound := s)), Done)
    else Reported(d, Rejected)
  }

  /** `stopSound`: nothing is playing afterwards, whether the speaker is on or off. */
  function StopSound(d: Device): (r: Device)
    requires d.attrs.Speaker?
    ensures r == d.(attrs := Speaker(d.attrs.volume, NoSound))
    ensures Valid(d) ==> Valid(r)
  {
    d.(attrs := d.attrs.(sound := NoSound))
  }

  /** `playAlarm`: `playSound` with the fixed alarm string. */
  function PlayAlarm(d: Device): (r: Reported<Device>)
    requires d.attrs.Speaker?
    ensures r.report == Done <==> d.on
    ensures r.report == Done ==> r.state == d.(attrs := Speaker(d.attrs.volume, AlarmSound))
    ensures r.report != Done ==> r.state == d
    ensures Valid(d) ==> Valid(r.state)
  {
    PlaySound(d, AlarmSound)
  }

  /** `playNotification`: `playSound` with the fixed notification string. */
  function PlayNotification(d: Device): (r: Reported<Device>)
    requires d.attrs.Speaker?
    ensures r.report == Done <==> d.on
    ensures r.report == Done ==> r.state == d.(attrs := Speaker(d.attrs.volume, NotificationSound))
    ensures r.report != Done ==> r.state == d
    ensures Valid(d) ==> Valid(r.state)
  {
    PlaySound(d, NotificationSound)
  }

  /** `announce`: a console effect only. */
  function Announce(d: Device, message: string): Device {
    d
  }

  /** A sound started and then stopped leaves the speaker as if stop alone had run. */
  lemma StopAfterPlay(d: Device, s: string)
    requires d.attrs.Speaker?
    ensures StopSound(PlaySound(d, s).state) == StopSound(d)
  {
  }
}
