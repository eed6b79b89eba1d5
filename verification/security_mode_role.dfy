/** `SecurityModeRole`: full brightness on a light, a loud alarm on a speaker,
    and only a log line on a thermostat. */
module SecurityModeRole {
  import opened SmartDevice
  import SmartLight
  import SmartSpeaker

  const Name: string := "Security Mode Role"
  const Description: string := "Enables device to participate in home security alerts and intrusion detection"

  /** `execute`. The speaker is switched on before the alarm is played, so the
      alarm always starts. Identity and roles are never touched. */
  function Execute(d: Device): (r: Device)
    ensures SameIdentityAndRoles(d, r)
    ensures d.attrs.Light? ==> r.on && r.attrs == Light(MaxLevel)
    ensures d.attrs.Speaker? ==> r.on && r.attrs == Speaker(MaxLevel, SmartSpeaker.AlarmSound)
    ensures d.attrs.Thermostat? ==> r == d
    ensures Valid(d) ==> Valid(r)
  {
    match d.attrs
    case Light(_) =>
      var lit := SmartLight.SetBrightness(TurnOn(d), MaxLevel).state;
      SmartLight.Flash(SmartLight.SetColor(lit, "Red"))
    case Speaker(_, _) =>
      var loud := SmartSpeaker.SetVolume(TurnOn(d), MaxLevel).state;
      SmartSpeaker.PlayAlarm(loud).state
    case Thermostat(_, _) =>
      d
  }
}
