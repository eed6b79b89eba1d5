/** `NotificationRole`: switch a light on and flash it, switch a speaker on and
    play the notification sound; a thermostat only shows a message. */
module NotificationRole {
  import opened SmartDevice
  import SmartLight
  import SmartSpeaker

  const Name: string := "Notification Role"
  const Description: string := "Enables device to alert users about important events and messages"

  /** `execute`. */
  function Execute(d: Device): (r: Device)
    ensures SameIdentityAndRoles(d, r)
    ensures d.attrs.Light? ==> r.on && r.attrs == d.attrs
    ensures d.attrs.Speaker? ==> r.on && r.attrs == Speaker(d.attrs.volume, SmartSpeaker.NotificationSound)
    ensures d.attrs.Thermostat? ==> r == d
    ensures Valid(d) ==> Valid(r)
  {
    match d.attrs
    case Light(_) => SmartLight.Flash(SmartLight.SetColor(TurnOn(d), "Blue"))
    case Speaker(_, _) => SmartSpeaker.PlayNotification(TurnOn(d)).state
    case Thermostat(_, _) => d
  }
}
