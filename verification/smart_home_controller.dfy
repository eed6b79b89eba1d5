/** `SmartHomeController`: the mediator. It owns an insertion-ordered,
    duplicate-free registry of devices and runs every scenario over it.

    Java object references become `Handle`s: `devices` maps each handle to the
    current state of that device, registered or not, and `registry` is the
    controller's list. Scenario operations visit `registry` front to back and
    touch only the devices found there.
 */
module SmartHomeController {
  import opened Outcomes
  import opened Roles
  import opened Seqs
  import opened SmartDevice
  import SmartSpeaker
  import SecurityModeRole
  import EnergyManagementRole
  import NotificationRole
  import VacationModeRole

  /** Stands for a Java reference to a device object. */
  type Handle = nat

  datatype Home = Home(devices: map<Handle, Device>, registry: seq<Handle>)

  /** What holds of every controller by construction: each registry entry
      refers to a device and no device is registered twice. */
  predicate WellFormed(home: Home) {
    && NoDups(home.registry)
    && forall h :: h in home.registry ==> h in home.devices
  }

  /** The full invariant: well formed, and every device keeps its own invariant. */
  predicate Invariant(home: Home) {
    && WellFormed(home)
    && forall h :: h in home.devices ==> Valid(home.devices[h])
  }

  /** `h` is registered and holds a role of kind `k`. */
  predicate Holds(home: Home, h: Handle, k: RoleKind)
    requires WellFormed(home)
  {
    h in home.registry && HasRole(home.devices[h], k)
  }

  /** A controller with nothing registered yet. */
  function Empty(devices: map<Handle, Device>): (home: Home)
    ensures home.registry == [] && home.devices == devices
    ensures Invariant(home) <==> forall h :: h in devices ==> Valid(devices[h])
    ensures DeviceCount(home) == 0
  {
    Home(devices, [])
  }

  /** Visit `hs` front to back, replacing each visited device `d` at handle `h`
      by `f(h, d)`; the Java `for (ISmartDevice device : devices)` loop. Since
      `hs` has no duplicates, each listed device is visited exactly once. */
  function ForEach(devices: map<Handle, Device>, hs: seq<Handle>,
                   f: (Handle, Device) -> Device): (r: map<Handle, Device>)
    requires NoDups(hs)
    requires forall h :: h in hs ==> h in devices
    ensures r.Keys == devices.Keys
    ensures forall h :: h in devices && h in hs ==> r[h] == f(h, devices[h])
    ensures forall h :: h in devices && h !in hs ==> r[h] == devices[h]
    decreases |hs|
  {
    if hs == [] then devices
    else
      var h := hs[0];
      assert NoDups(hs[1..]);
      assert h !in hs[1..];
      ForEach(devices[h := f(h, devices[h])], hs[1..], f)
  }

  /** `getDeviceCount`: the number of distinct registered devices. */
  function DeviceCount(home: Home): (n: nat)
    ensures n == |home.registry|
    ensures WellFormed(home) ==> n == |Elements(home.registry)|
  {
    var n := |home.registry|;
    assert WellFormed(home) ==> n == |Elements(home.registry)| by {
      if WellFormed(home) {
        DistinctCount(home.registry);
      }
    }
    n
  }

  /** `registerDevice`: append `h` unless it is already registered. */
  function RegisterDevice(home: Home, h: Handle): (r: Reported<Home>)
    requires WellFormed(home)
    requires h in home.devices
    ensures r.report == Done || r.report == AlreadyPresent
    ensures r.report == Done <==> h !in home.registry
    ensures r.report == Done ==> r.state.registry == home.registry + [h]
    ensures r.report == AlreadyPresent ==> r.state == home
    ensures r.state.devices == home.devices
    ensures h in r.state.registry
    ensures WellFormed(r.state)
    ensures Invariant(home) ==> Invariant(r.state)
    ensures DeviceCount(r.state) == DeviceCount(home) + (if r.report == Done then 1 else 0)
  {
    if h in home.registry then Reported(home, AlreadyPresent)
    else
      NoDupsAppend(home.registry, h);
      Reported(home.(registry := home.registry + [h]), Done)
  }

  /** `unregisterDevice`: remove `h` if registered; otherwise a no-op. The
      device itself keeps existing, it just stops being managed. */
  function UnregisterDevice(home: Home, h: Handle): (r: Reported<Home>)
    requires WellFormed(home)
    ensures r.report == Done || r.report == NotFound
    ensures r.report == Done <==> h in home.registry
    ensures r.report == NotFound ==> r.state == home
    ensures r.state.devices == home.devices
    ensures r.state.registry == Without(home.registry, h)
    ensures h !in r.state.registry
    ensures WellFormed(r.state)
    ensures Invariant(home) ==> Invariant(r.state)
    ensures DeviceCount(r.state) == DeviceCount(home) - (if r.report == Done then 1 else 0)
  {
    var registry := RemoveFirst(home.registry, h);
    RemoveFirstIsWithout(home.registry, h);
    NoDupsWithout(home.registry, h);
    WithoutSubset(home.registry, h);
    Reported(home.(registry := registry),
             if |registry| < |home.registry| then Done else NotFound)
  }

  /** Unregistering keeps every other registered device in its order. */
  lemma UnregisterKeepsOrder(home: Home, i: nat)
    requires WellFormed(home)
    requires i < |home.registry|
    ensures UnregisterDevice(home, home.registry[i]).state.registry
         == home.registry[..i] + home.registry[i+1..]
  {
    WithoutAt(home.registry, i);
  }

  /** Registering a new device and unregistering it again restores the controller. */
  lemma RegisterThenUnregisterRestores(home: Home, h: Handle)
    requires WellFormed(home)
    requires h in home.devices && h !in home.registry
    ensures UnregisterDevice(RegisterDevice(home, h).state, h).state == home
  {
    WithoutAppend(home.registry, [h], h);
    assert Without([h], h) == Without([h][1..], h);
  }

  /** The activate*Mode pattern: add a role of kind `k` to every registered device. */
  function Activate(home: Home, k: RoleKind): (r: Home)
    requires WellFormed(home)
    ensures r.registry == home.registry && r.devices.Keys == home.devices.Keys
    ensures forall h :: h in home.registry ==> HasRole(r.devices[h], k)
    ensures forall h :: Holds(home, h, k) ==> r.devices[h] == home.devices[h]
    ensures forall h :: h in home.registry && !HasRole(home.devices[h], k) ==>
      r.devices[h] == home.devices[h].(roles := home.devices[h].roles + [k])
    ensures forall h :: h in home.devices && h !in home.registry ==> r.devices[h] == home.devices[h]
    ensures WellFormed(r)
    ensures Invariant(home) ==> Invariant(r)
  {
    home.(devices := ForEach(home.devices, home.registry, (h, d) => AddRole(d, k).state))
  }

  /** The deactivate*Mode pattern: remove the role of kind `k` from every
      registered device; every other role stays, in order. */
  function Deactivate(home: Home, k: RoleKind): (r: Home)
    requires WellFormed(home)
    ensures r.registry == home.registry && r.devices.Keys == home.devices.Keys
    ensures forall h :: h in home.registry ==> !HasRole(r.devices[h], k)
    ensures forall h :: h in home.registry ==>
      r.devices[h] == home.devices[h].(roles := Without(home.devices[h].roles, k))
    ensures forall h :: h in home.devices && h !in home.registry ==> r.devices[h] == home.devices[h]
    ensures WellFormed(r)
    ensures Invariant(home) ==> Invariant(r)
  {
    home.(devices := ForEach(home.devices, home.registry, (h, d) => RemoveRole(d, k).state))
  }

  /** `activateSecurityMode`. */
  function ActivateSecurityMode(home: Home): (r: Home)
    requires WellFormed(home)
    ensures r.registry == home.registry && r.devices.Keys == home.devices.Keys
    ensures forall h :: h in home.registry ==> HasRole(r.devices[h], Security)
    ensures forall h :: h in home.devices && (h !in home.registry || HasRole(home.devices[h], Security)) ==>
      r.devices[h] == home.devices[h]
    ensures forall h :: h in home.registry && !HasRole(home.devices[h], Security) ==>
      r.devices[h] == home.devices[h].(roles := home.devices[h].roles + [Security])
    ensures Invariant(home) ==> Invariant(r)
  {
    Activate(home, Security)
  }

  /** `deactivateSecurityMode`. */
  function DeactivateSecurityMode(home: Home): (r: Home)
    requires WellFormed(home)
    ensures r.registry == home.registry && r.devices.Keys == home.devices.Keys
    ensures forall h :: h in home.registry ==> !HasRole(r.devices[h], Security)
    ensures forall h :: h in home.devices && !Holds(home, h, Security) ==> r.devices[h] == home.devices[h]
    ensures forall h :: h in home.registry ==>
      r.devices[h] == home.devices[h].(roles := Without(home.devices[h].roles, Security))
    ensures Invariant(home) ==> Invariant(r)
  {
    Deactivate(home, Security)
  }

  /** `activateVacationMode`. */
  function ActivateVacationMode(home: Home): (r: Home)
    requires WellFormed(home)
    ensures r.registry == home.registry && r.devices.Keys == home.devices.Keys
    ensures forall h :: h in home.registry ==> HasRole(r.devices[h], Vacation)
    ensures forall h :: h in home.devices && (h !in home.registry || HasRole(home.devices[h], Vacation)) ==>
      r.devices[h] == home.devices[h]
    ensures forall h :: h in home.registry && !HasRole(home.devices[h], Vacation) ==>
      r.devices[h] == home.devices[h].(roles := home.devices[h].roles + [Vacation])
    ensures Invariant(home) ==> Invariant(r)
  {
    Activate(home, Vacation)
  }

  /** `deactivateVacationMode`. */
  function DeactivateVacationMode(home: Home): (r: Home)
    requires WellFormed(home)
    ensures r.registry == home.registry && r.devices.Keys == home.devices.Keys
    ensures forall h :: h in home.registry ==> !HasRole(r.devices[h], Vacation)
    ensures forall h :: h in home.devices && !Holds(home, h, Vacation) ==> r.devices[h] == home.devices[h]
    ensures forall h :: h in home.registry ==>
      r.devices[h] == home.devices[h].(roles := Without(home.devices[h].roles, Vacation))
    ensures Invariant(home) ==> Invariant(r)
  {
    Deactivate(home, Vacation)
  }

  /** `activateEnergyManagementMode`. */
  function ActivateEnergyManagementMode(home: Home): (r: Home)
    requires WellFormed(home)
    ensures r.registry == home.registry && r.devices.Keys == home.devices.Keys
    ensures forall h :: h in home.registry ==> HasRole(r.devices[h], Energy)
    ensures forall h :: h in home.devices && (h !in home.registry || HasRole(home.devices[h], Energy)) ==>
      r.devices[h] == home.devices[h]
    ensures forall h :: h in home.registry && !HasRole(home.devices[h], Energy) ==>
      r.devices[h] == home.devices[h].(roles := home.devices[h].roles + [Energy])
    ensures Invariant(home) ==> Invariant(r)
  {
    Activate(home, Energy)
  }

  /** `deactivateEnergyManagementMode`. */
  function DeactivateEnergyManagementMode(home: Home): (r: Home)
    requires WellFormed(home)
    ensures r.registry == home.registry && r.devices.Keys == home.devices.Keys
    ensures forall h :: h in home.registry ==> !HasRole(r.devices[h], Energy)
    ensures forall h :: h in home.devices && !Holds(home, h, Energy) ==> r.devices[h] == home.devices[h]
    ensures forall h :: h in home.registry ==>
      r.devices[h] == home.devices[h].(roles := Without(home.devices[h].roles, Energy))
    ensures Invariant(home) ==> Invariant(r)
  {
    Deactivate(home, Energy)
  }

  /** Activating and then deactivating a mode restores every device, provided
      no registered device held that role beforehand. */
  lemma ActivateThenDeactivateRestores(home: Home, k: RoleKind)
    requires WellFormed(home)
    requires forall h :: h in home.registry ==> !HasRole(home.devices[h], k)
    ensures Deactivate(Activate(home, k), k) == home
  {
    DevicesRestored(home, k);
  }

  /** The device map part of the round trip. */
  lemma DevicesRestored(home: Home, k: RoleKind)
    requires WellFormed(home)
    requires forall h :: h in home.registry ==> !HasRole(home.devices[h], k)
    ensures Deactivate(Activate(home, k), k).devices == home.devices
  {
    var r := Deactivate(Activate(home, k), k).devices;
    assert r.Keys == home.devices.Keys;
    EveryDeviceRestored(home, k);
    MapExt(r, home.devices);
  }

  /** The round trip restores each device. */
  lemma EveryDeviceRestored(home: Home, k: RoleKind)
    requires WellFormed(home)
    requires forall h :: h in home.registry ==> !HasRole(home.devices[h], k)
    ensures forall h :: h in home.devices ==> Deactivate(Activate(home, k), k).devices[h] == home.devices[h]
  {
    forall h | h in home.devices
      ensures Deactivate(Activate(home, k), k).devices[h] == home.devices[h]
    {
      RoundTripAt(home, k, h);
    }
  }

  /** Two device maps with the same handles and the same devices are equal. */
  lemma MapExt(a: map<Handle, Device>, b: map<Handle, Device>)
    requires a.Keys == b.Keys
    requires forall h :: h in a ==> a[h] == b[h]
    ensures a == b
  {
  }

  /** The round trip restores one device. */
  lemma RoundTripAt(home: Home, k: RoleKind, h: Handle)
    requires WellFormed(home)
    requires h in home.devices
    requires h in home.registry ==> !HasRole(home.devices[h], k)
    ensures Deactivate(Activate(home, k), k).devices[h] == home.devices[h]
  {
    if h in home.registry {
      var d := home.devices[h];
      var a := Activate(home, k);
      assert a.devices[h] == d.(roles := d.roles + [k]);
      WithoutAppend(d.roles, [k], k);
      assert Without([k], k) == Without([k][1..], k);
      assert Without(d.roles + [k], k) == d.roles;
    }
  }

  /** A device that already held the role before activation loses it on
      deactivation: the round trip restores only what activation added. */
  lemma RoundTripDropsPreexistingRole(home: Home, k: RoleKind, h: Handle)
    requires WellFormed(home)
    requires Holds(home, h, k)
    ensures Deactivate(Activate(home, k), k).devices[h] != home.devices[h]
  {
  }

  /** The scenario loop of trigger/simulate/apply/notify: every registered
      device holding `k` is passed to `run`, the role's `execute`; reports
      `NoEligibleDevices` when no registered device holds `k`. */
  function Invoke(home: Home, k: RoleKind, run: (Handle, Device) -> Device): (r: Reported<Home>)
    requires WellFormed(home)
    ensures r.report == Done || r.report == NoEligibleDevices
    ensures r.report == NoEligibleDevices <==> forall h :: h in home.registry ==> !HasRole(home.devices[h], k)
    ensures r.report == NoEligibleDevices ==> r.state == home
    ensures r.state.registry == home.registry && r.state.devices.Keys == home.devices.Keys
    ensures forall h :: Holds(home, h, k) ==> r.state.devices[h] == run(h, home.devices[h])
    ensures forall h :: h in home.devices && !Holds(home, h, k) ==> r.state.devices[h] == home.devices[h]
  {
    var step := (h: Handle, d: Device) => if HasRole(d, k) then run(h, d) else d;
    var devices := ForEach(home.devices, home.registry, step);
    match FindIndex(home.registry, (h: Handle) => h in home.devices && HasRole(home.devices[h], k))
    case None =>
      assert devices == home.devices;
      Reported(home, NoEligibleDevices)
    case Some(i) =>
      Reported(home.(devices := devices), Done)
  }

  /** `triggerSecurityAlert`. */
  function TriggerSecurityAlert(home: Home): (r: Reported<Home>)
    requires WellFormed(home)
    ensures r.report == NoEligibleDevices <==> forall h :: h in home.registry ==> !HasRole(home.devices[h], Security)
    ensures r.report == NoEligibleDevices ==> r.state == home
    ensures r.state.registry == home.registry && r.state.devices.Keys == home.devices.Keys
    ensures forall h :: Holds(home, h, Security) ==>
      r.state.devices[h] == SecurityModeRole.Execute(home.devices[h])
    ensures forall h :: h in home.devices && !Holds(home, h, Security) ==>
      r.state.devices[h] == home.devices[h]
    ensures forall h :: h in home.devices ==> SameIdentityAndRoles(home.devices[h], r.state.devices[h])
    ensures Invariant(home) ==> Invariant(r.state)
  {
    Invoke(home, Security, (h, d) => SecurityModeRole.Execute(d))
  }

  /** `simulatePresence`. `draws(h)` are the `Math.random()` values device `h`
      consumes while it runs. */
  function SimulatePresence(home: Home, draws: Handle -> VacationModeRole.Draws): (r: Home)
    requires WellFormed(home)
    ensures r.registry == home.registry && r.devices.Keys == home.devices.Keys
    ensures forall h :: Holds(home, h, Vacation) ==>
      r.devices[h] == VacationModeRole.Execute(home.devices[h], draws(h))
    ensures forall h :: h in home.devices && !Holds(home, h, Vacation) ==>
      r.devices[h] == home.devices[h]
    ensures forall h :: h in home.devices ==> SameIdentityAndRoles(home.devices[h], r.devices[h])
    ensures Invariant(home) ==> Invariant(r)
  {
    Invoke(home, Vacation, (h: Handle, d: Device) => VacationModeRole.Execute(d, draws(h))).state
  }

  /** `applyEnergySaving`. */
  function ApplyEnergySaving(home: Home): (r: Home)
    requires WellFormed(home)
    ensures r.registry == home.registry && r.devices.Keys == home.devices.Keys
    ensures forall h :: Holds(home, h, Energy) ==>
      r.devices[h] == EnergyManagementRole.Execute(home.devices[h])
    ensures forall h :: h in home.devices && !Holds(home, h, Energy) ==>
      r.devices[h] == home.devices[h]
    ensures forall h :: h in home.devices ==>
      SameIdentityAndRoles(home.devices[h], r.devices[h]) && r.devices[h].on == home.devices[h].on
    ensures Invariant(home) ==> Invariant(r)
  {
    Invoke(home, Energy, (h, d) => EnergyManagementRole.Execute(d)).state
  }

  /** `sendNotification`. The message is only printed, so it has no effect on state. */
  function SendNotification(home: Home, message: string): (r: Reported<Home>)
    requires WellFormed(home)
    ensures r.report == NoEligibleDevices <==> forall h :: h in home.registry ==> !HasRole(home.devices[h], Notification)
    ensures r.report == NoEligibleDevices ==> r.state == home
    ensures r.state.registry == home.registry && r.state.devices.Keys == home.devices.Keys
    ensures forall h :: Holds(home, h, Notification) ==>
      r.state.devices[h] == NotificationRole.Execute(home.devices[h])
    ensures forall h :: h in home.devices && !Holds(home, h, Notification) ==>
      r.state.devices[h] == home.devices[h]
    ensures forall h :: h in home.devices ==> SameIdentityAndRoles(home.devices[h], r.state.devices[h])
    ensures Invariant(home) ==> Invariant(r.state)
  {
    Invoke(home, Notification, (h, d) => NotificationRole.Execute(d))
  }

  /** Registry position `i` is the first registered device called `name`. */
  predicate FirstNamed(home: Home, name: string, i: nat)
    requires WellFormed(home)
  {
    && i < |home.registry|
    && home.devices[home.registry[i]].name == name
    && forall j :: 0 <= j < i ==> home.devices[home.registry[j]].name != name
  }

  /** `addRole` applied to the device at registry position `i` alone. */
  function AssignAt(home: Home, i: nat, k: RoleKind): Reported<Home>
    requires WellFormed(home)
    requires i < |home.registry|
  {
    var h := home.registry[i];
    var added := AddRole(home.devices[h], k);
    Reported(home.(devices := home.devices[h := added.state]), added.report)
  }

  /** `assignRoleToDevice`: `addRole` on the first registered device whose name
      is `name`, and on no other; `NotFound` and no change when none matches. */
  function AssignRoleToDevice(home: Home, name: string, k: RoleKind): (r: Reported<Home>)
    requires WellFormed(home)
    ensures r.report == NotFound <==> forall h :: h in home.registry ==> home.devices[h].name != name
    ensures r.report == NotFound ==> r.state == home
    ensures r.report != NotFound ==>
      exists i: nat :: FirstNamed(home, name, i) && r == AssignAt(home, i, k)
    ensures r.state.registry == home.registry && r.state.devices.Keys == home.devices.Keys
    ensures WellFormed(r.state)
    ensures Invariant(home) ==> Invariant(r.state)
  {
    var names := seq(|home.registry|, i requires 0 <= i < |home.registry| => home.devices[home.registry[i]].name);
    match FindIndex(names, (n: string) => n == name)
    case None =>
      assert forall h :: h in home.registry ==> home.devices[h].name != name by {
        forall h | h in home.registry ensures home.devices[h].name != name {
          var j :| 0 <= j < |home.registry| && home.registry[j] == h;
          assert names[j] != name;
        }
      }
      Reported(home, NotFound)
    case Some(i) =>
      assert FirstNamed(home, name, i) by {
        assert names[i] == name;
        forall j | 0 <= j < i ensures home.devices[home.registry[j]].name != name {
          assert names[j] != name;
        }
      }
      AssignAt(home, i, k)
  }

  /** A Security scenario end to end: after activating Security mode and then
      triggering the alert, every registered light is on at full brightness,
      every registered speaker is on at full volume playing the alarm, and every
      registered thermostat differs from before only by holding the role. */
  lemma SecurityScenario(home: Home, h: Handle)
    requires WellFormed(home)
    requires h in home.registry
    ensures var r := TriggerSecurityAlert(Activate(home, Security));
      && r.report == Done
      && HasRole(r.state.devices[h], Security)
      && (home.devices[h].attrs.Light? ==> r.state.devices[h].on && r.state.devices[h].attrs == Light(MaxLevel))
      && (home.devices[h].attrs.Speaker? ==>
            r.state.devices[h].on && r.state.devices[h].attrs == Speaker(MaxLevel, SmartSpeaker.AlarmSound))
      && (home.devices[h].attrs.Thermostat? ==>
            r.state.devices[h].(roles := home.devices[h].roles) == home.devices[h])
  {
  }
}
