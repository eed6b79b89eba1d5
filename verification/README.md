# Smart home roles and mediator, modelled in Dafny

This project models the core of a small Java smart-home system. Devices (lights,
speakers, thermostats) gain and lose roles at runtime: Security Mode, Vacation
Mode, Energy Management and Notification. A single controller, the mediator,
keeps the registry of devices. It attaches a role to every device, detaches it
again, and runs the role on every device that holds it.

The model is purely functional:

- `SmartDevice.Device` is one record for every device. It holds the id, the
  name, the power flag, the ordered list of held role kinds and a tagged
  `Attributes` value: `Light(brightness)`, `Speaker(volume, sound)` or
  `Thermostat(target, current)`. Roles carry no per-device state. A held role is
  therefore its kind (`Roles.RoleKind`). Role identity is exact-class equality
  in the Java code, which is equality of kinds here.
- `SmartHomeController.Home` pairs a map from handles to device states with the
  registry, a sequence of handles. A handle stands for a Java object reference.
  Registry membership is reference identity, as in the source.
- Every operation returns its new state. Some Java operations print a
  "rejected", "already present" or "not found" line, or return the boolean of
  `removeIf`/`List.remove`. Those operations also return an `Outcomes.Report`.
- The invariants are `SmartDevice.Valid` and `SmartHomeController.Invariant`.
  `Valid` says a device holds at most one role per kind and its attributes are
  in range. `Invariant` says the registry has no duplicates, refers only to
  existing devices, and every device is valid. Every operation preserves them.
- The `Math.random()` draws of the vacation role are explicit inputs
  (`VacationModeRole.Draws`). `SimulatePresence` takes one pair of draws per
  device.

Modules follow the Java files: `SmartDevice`, `SmartLight`, `SmartSpeaker`,
`SmartThermostat`, `SecurityModeRole`, `EnergyManagementRole`,
`NotificationRole`, `VacationModeRole`, `SmartHomeController`. `Seqs` holds the
list operations the Java collections provide (`anyMatch`, `findFirst`,
`removeIf`, `List.remove`) and their lemmas. `Outcomes` holds the report and
option types.

One code comment disagrees with the code, and the model follows the code.
Vacation brightness is `(int)(x * 50 + 50)` with `0 <= x < 1`. The comment
beside it (src/roles/VacationModeRole.java:22) says 50-100%, but in exact
arithmetic the cast gives 50..99.

Other behaviours of the code that the model makes explicit:

- Eco mode (`enableEcoMode`) goes through `setTemperature` and does not clamp.
  When the target is below 12.0, the lowered value is rejected and the target
  stays as it was.
- `removeRole` on an absent kind prints nothing. The model reports `NotFound`,
  which stands for the `false` that `removeIf` returns.
- The vacation role does not switch a speaker on. "TV sounds" therefore starts
  only on a speaker that is already on.
- Role names and descriptions are constants (`SecurityModeRole.Name` and the
  like).

## Model

| member | source | states |
|---|---|---|
| `SmartDevice.Create` | src/devices/SmartDevice.java:22-27 | a new device is off, holds no roles, and keeps the given id and name |
| `SmartDevice.TurnOn` | src/devices/SmartDevice.java:31-35 | power is on afterwards and nothing else differs |
| `SmartDevice.TurnOff` | src/devices/SmartDevice.java:37-41 | power is off afterwards and nothing else differs |
| `SmartDevice.PowerLastWriteWins` | src/devices/SmartDevice.java:31-41 | switching is idempotent, the last switch wins, and validity is kept |
| `SmartDevice.AddRole` | src/devices/SmartDevice.java:60-69 | appends `k` iff no role of kind `k` is held, otherwise reports a duplicate and changes nothing; `k` is held afterwards, other kinds are unaffected, and at most one role per kind is preserved |
| `SmartDevice.AddRoleTwiceHoldsOnce` | src/devices/SmartDevice.java:60-69 | adding a kind twice leaves exactly one role of that kind, and the second add is a reported no-op |
| `SmartDevice.RemoveRole` | src/devices/SmartDevice.java:71-77 | afterwards `k` is not held, every other kind is held iff it was before, nothing else changes, and the report is `Done` iff `k` was held |
| `SmartDevice.RemoveRoleKeepsOrder` | src/devices/SmartDevice.java:71-77 | removing a held kind cuts it out of its position, and the other roles keep their relative order |
| `SmartDevice.AddThenRemoveRestores` | src/devices/SmartDevice.java:60-77 | addRole then removeRole of a kind not held before restores the device exactly |
| `SmartDevice.HasRole` | src/devices/SmartDevice.java:79-82 | the `anyMatch` scan is true iff some held role has kind `k` |
| `SmartDevice.GetRole` | src/devices/SmartDevice.java:84-90 | returns a role iff `hasRole` holds, and the returned role has the requested kind; otherwise absent (null) |
| `SmartDevice.AllRoles` | src/devices/SmartDevice.java:92-95 | lists exactly the held kinds, one entry per held role, without duplicates on a valid device |
| `SmartDevice.AllRolesInInsertionOrder` | src/devices/SmartDevice.java:60-69 | the listing after adding a new kind is the old listing with that kind at the end |
| `SmartLight.New` | src/devices/SmartLight.java:14-17 | a new light is off, holds no roles, has brightness 100 and is valid |
| `SmartLight.SetBrightness` | src/devices/SmartLight.java:23-30 | accepted iff 0 <= v <= 100, and then brightness is exactly v; otherwise rejected with the light unchanged; power and roles are never touched |
| `SmartLight.BrightnessStaysInRange` | src/devices/SmartLight.java:7-30 | whatever values are offered in turn, brightness stays within 0..100 |
| `SmartSpeaker.New` | src/devices/SmartSpeaker.java:15-19 | a new speaker is off, holds no roles, has volume 50, plays "None" and is valid |
| `SmartSpeaker.SetVolume` | src/devices/SmartSpeaker.java:25-32 | accepted iff 0 <= v <= 100, and then volume is exactly v; otherwise unchanged; the current sound, power and roles are kept |
| `SmartSpeaker.PlaySound` | src/devices/SmartSpeaker.java:46-53 | the current sound becomes `s` iff the speaker is on; when it is off nothing changes; volume and power are kept |
| `SmartSpeaker.StopSound` | src/devices/SmartSpeaker.java:58-61 | the current sound is "None" afterwards whether the speaker is on or off, and only that field changes |
| `SmartSpeaker.PlayNotification` | src/devices/SmartSpeaker.java:66-68 | plays the fixed notification string iff the speaker is on, otherwise no change |
| `SmartSpeaker.PlayAlarm` | src/devices/SmartSpeaker.java:73-75 | plays the fixed alarm string iff the speaker is on, otherwise no change |
| `SmartSpeaker.StopAfterPlay` | src/devices/SmartSpeaker.java:46-61 | stopping after playing leaves the same state as stopping alone |
| `SmartThermostat.New` | src/devices/SmartThermostat.java:15-19 | a new thermostat is off, holds no roles, has target and current temperature 20.0 and is valid |
| `SmartThermostat.SetTemperature` | src/devices/SmartThermostat.java:25-32 | accepted iff 10.0 <= t <= 35.0 (bounds included), and then the target is t; otherwise unchanged; power is neither read nor changed |
| `SmartThermostat.EnableEcoMode` | src/devices/SmartThermostat.java:63-67 | lowers the target by exactly 2.0 iff the lowered value is in range (on a valid thermostat: iff target >= 12.0), and otherwise leaves it unchanged rather than clamping |
| `SmartThermostat.EcoModeNeverBelowMinimum` | src/devices/SmartThermostat.java:63-67 | any number of eco-mode runs keeps a valid thermostat valid, never lowers the target below 10.0, and never raises it |
| `SecurityModeRole.Execute` | src/roles/SecurityModeRole.java:14-37 | a light ends on at brightness 100; a speaker ends on at volume 100 playing the alarm, because it is switched on first; a thermostat is unchanged; identity and roles are never touched |
| `EnergyManagementRole.Execute` | src/roles/EnergyManagementRole.java:14-33 | a light goes to brightness 30, a speaker to volume 20 with its sound kept, and a thermostat gets eco mode (target - 2.0 if >= 12.0 on a valid device, else unchanged); power and roles are never changed |
| `EnergyManagementRole.IdempotentOnLightsAndSpeakers` | src/roles/EnergyManagementRole.java:18-26 | on lights and speakers, running the role twice equals running it once |
| `EnergyManagementRole.NotIdempotentOnThermostat` | src/roles/EnergyManagementRole.java:28-31 | on a new thermostat one run gives 18.0 and two runs give 16.0 |
| `EnergyManagementRole.TwoRunsLowerThermostatTwice` | src/roles/EnergyManagementRole.java:28-31 | on every valid thermostat at 14.0 or above, each run lowers the target by another 2.0, so two runs differ from one |
| `NotificationRole.Execute` | src/roles/NotificationRole.java:14-35 | a light is switched on with its brightness kept; a speaker is switched on and plays the notification string with its volume kept; a thermostat is unchanged; roles never change |
| `VacationModeRole.RandomBrightness` | src/roles/VacationModeRole.java:22 | the truncating cast of `x * 50 + 50` lies in 50..99 and is the floor of that value |
| `VacationModeRole.Execute` | src/roles/VacationModeRole.java:14-41 | a light with first draw > 0.5 ends on at the drawn brightness, otherwise off with brightness kept; a speaker keeps power and volume and plays "TV sounds" only when the draw is > 0.7 and it was already on; a thermostat's target becomes 18.0 |
| `VacationModeRole.LitBrightnessRange` | src/roles/VacationModeRole.java:20-23 | a light left on by the role has brightness within 50..99 |
| `SmartHomeController.Empty` | src/mediator/SmartHomeController.java:22 | a new controller has an empty registry, keeps the given devices, has count 0, and satisfies the invariant iff every device is valid |
| `SmartHomeController.DeviceCount` | src/mediator/SmartHomeController.java:279-281 | on a well-formed controller the count is the number of distinct registered devices: no device is counted twice, because registration never adds a duplicate |
| `SmartHomeController.RegisterDevice` | src/mediator/SmartHomeController.java:49-56 | appends iff not already registered, otherwise reports a duplicate and changes nothing; no duplicates ever; the count grows by one exactly on success |
| `SmartHomeController.UnregisterDevice` | src/mediator/SmartHomeController.java:62-66 | removes the device iff registered, otherwise a reported no-op; it is absent afterwards and the device state itself is untouched |
| `SmartHomeController.UnregisterKeepsOrder` | src/mediator/SmartHomeController.java:62-66 | the remaining registered devices keep their order |
| `SmartHomeController.RegisterThenUnregisterRestores` | src/mediator/SmartHomeController.java:49-66 | registering a new device and then unregistering it restores the controller |
| `SmartHomeController.ForEach` | src/mediator/SmartHomeController.java:78-80 | visiting a duplicate-free registry transforms exactly the listed devices, each once |
| `SmartHomeController.Activate` | src/mediator/SmartHomeController.java:74-82 | afterwards every registered device holds the kind; devices that held it and unregistered devices are unchanged; the others gain it at the end of their list; the registry is unchanged |
| `SmartHomeController.Deactivate` | src/mediator/SmartHomeController.java:88-96 | afterwards no registered device holds the kind; each keeps its other roles in order; unregistered devices are unchanged |
| `SmartHomeController.ActivateSecurityMode` | src/mediator/SmartHomeController.java:74-82 | every registered device holds Security afterwards; a registered device without it gets Security appended at the end of its roles and nothing else changes; devices already holding it and unregistered ones are unchanged; the invariant is preserved |
| `SmartHomeController.DeactivateSecurityMode` | src/mediator/SmartHomeController.java:88-96 | no registered device holds Security afterwards; each registered device loses exactly its Security role, its other roles stay in order and nothing else changes; devices not holding it are unchanged; the invariant is preserved |
| `SmartHomeController.ActivateVacationMode` | src/mediator/SmartHomeController.java:125-133 | every registered device holds Vacation afterwards; a registered device without it gets Vacation appended at the end of its roles and nothing else changes; devices already holding it and unregistered ones are unchanged; the invariant is preserved |
| `SmartHomeController.DeactivateVacationMode` | src/mediator/SmartHomeController.java:138-146 | no registered device holds Vacation afterwards; each registered device loses exactly its Vacation role, its other roles stay in order and nothing else changes; devices not holding it are unchanged; the invariant is preserved |
| `SmartHomeController.ActivateEnergyManagementMode` | src/mediator/SmartHomeController.java:168-176 | every registered device holds Energy afterwards; a registered device without it gets Energy appended at the end of its roles and nothing else changes; devices already holding it and unregistered ones are unchanged; the invariant is preserved |
| `SmartHomeController.DeactivateEnergyManagementMode` | src/mediator/SmartHomeController.java:181-189 | no registered device holds Energy afterwards; each registered device loses exactly its Energy role, its other roles stay in order and nothing else changes; devices not holding it are unchanged; the invariant is preserved |
| `SmartHomeController.ActivateThenDeactivateRestores` | src/mediator/SmartHomeController.java:74-96 | activate then deactivate of a kind restores the whole controller when no registered device held that kind before |
| `SmartHomeController.RoundTripDropsPreexistingRole` | src/mediator/SmartHomeController.java:74-96 | a device that held the kind before the round trip does not come back unchanged |
| `SmartHomeController.Invoke` | src/mediator/SmartHomeController.java:107-118 | runs the role exactly on the registered holders of the kind; every other device and the registry are unchanged; reports no eligible devices iff there is no holder, and then nothing changes |
| `SmartHomeController.TriggerSecurityAlert` | src/mediator/SmartHomeController.java:102-120 | every registered Security holder gets the security effect, all other devices are unchanged, roles and registry are untouched, and "no devices available" occurs iff nobody holds Security |
| `SmartHomeController.SimulatePresence` | src/mediator/SmartHomeController.java:151-163 | every registered Vacation holder gets the vacation effect with its own draws; all other devices, roles and the registry are unchanged |
| `SmartHomeController.ApplyEnergySaving` | src/mediator/SmartHomeController.java:194-206 | every registered Energy holder gets the energy effect; no device's power or roles change; other devices and the registry are unchanged |
| `SmartHomeController.SendNotification` | src/mediator/SmartHomeController.java:212-230 | every registered Notification holder gets the notification effect, and "no devices available" occurs iff nobody holds Notification; the message affects no state |
| `SmartHomeController.AssignRoleToDevice` | src/mediator/SmartHomeController.java:236-244 | not found iff no registered device has the name, and then nothing changes; otherwise addRole is applied to the first registered device with that name and nothing else changes |
| `SmartHomeController.SecurityScenario` | src/mediator/SmartHomeController.java:74-120 | after activating Security and triggering the alert, registered lights are on at 100, speakers are on at 100 playing the alarm, and thermostats differ only by holding the role |
| `Seqs.Without` | src/devices/SmartDevice.java:73 | `removeIf` by kind leaves no element of that kind and shrinks the list iff one was present |
| `Seqs.WithoutAt` | src/devices/SmartDevice.java:73 | on a duplicate-free list, removing by value deletes exactly one position and keeps the rest in order |
| `Seqs.RemoveFirstIsWithout` | src/mediator/SmartHomeController.java:63 | on a duplicate-free registry, `List.remove` removes every occurrence |
| `Seqs.DistinctCount` | src/mediator/SmartHomeController.java:280 | a duplicate-free list is as long as its set of elements |

## Left out

- Console output: every `System.out.println`. The reports in `Outcomes.Report` keep the distinctions those lines make.
- `flash`, `setColor` and `announce` only print. They are the identity functions `SmartLight.Flash`, `SmartLight.SetColor` and `SmartSpeaker.Announce`, so they have no contract of their own.
- `getDeviceInfo`, `listAllDevices`, `getAllDevices`, `getBrightness`, `getVolume` and the other getters. They are display strings or plain field reads.
- `getInstance` and its `synchronized` lazy initialisation. The controller is one `Home` value that the caller threads through.
- `SmartThermostat.readTemperature`. It draws `Math.random()` to update the current reading, and the reading never feeds back into the core.
- Floating point: temperatures are `real` and the vacation brightness is computed on exact reals. In IEEE doubles the largest draw below 1.0 rounds `x * 50 + 50` up to 100.0, which would give brightness 100. That single value is not modelled.
- `SmartHomeController.SimulatePresence`: does not model one shared `Math.random()` stream. Each device gets its own pair of draws instead. Each device consumes only its own draws and the registry has no duplicates. So every stream of draws matches one such assignment, and the reachable states are the same.
- The Swing UI and the demo script in `Main.java`. They only call the operations above.
- Java `int` overflow: brightness and volume arguments are unbounded integers. The range check accepts the same values for every 32-bit input.
