/** The abstract `SmartDevice` base class: identity, power flag and the ordered
    list of held roles, plus the state every concrete kind adds.

    Java's subclassing is a tagged variant here: `Attributes` is the part of the
    state that differs between a light, a speaker and a thermostat. Kind-specific
    operations live in the modules `SmartLight`, `SmartSpeaker` and
    `SmartThermostat`.
 */
module SmartDevice {
  import opened Outcomes
  import opened Roles
  import opened Seqs

  /** Range of a light's brightness and of a speaker's volume, both inclusive. */
  const MinLevel: int := 0
  const MaxLevel: int := 100

  /** Range of a thermostat's target temperature in degrees Celsius, both inclusive. */
  const MinTemperature: real := 10.0
  const MaxTemperature: real := 35.0

  /** Kind-specific state. A thermostat's `current` reading is set at construction
      and otherwise only changed by the random `readTemperature`, which is not modelled. */
  datatype Attributes =
    | Light(brightness: int)
    | Speaker(volume: int, sound: string)
    | Thermostat(target: real, current: real)

  datatype Device = Device(
    id: string,
    name: string,
    on: bool,
    roles: seq<RoleKind>,
    attrs: Attributes)

  /** Every validated attribute is within its declared range. */
  predicate InRange(a: Attributes) {
    match a
    case Light(b) => MinLevel <= b <= MaxLevel
    case Speaker(v, _) => MinLevel <= v <= MaxLevel
    case Thermostat(t, _) => MinTemperature <= t <= MaxTemperature
  }

  /** The invariant every device keeps: at most one role per kind, attributes in range. */
  predicate Valid(d: Device) {
    NoDups(d.roles) && InRange(d.attrs)
  }

  /** `r` differs from `d` at most in its power flag and kind-specific attributes. */
  predicate SameIdentityAndRoles(d: Device, r: Device) {
    r.id == d.id && r.name == d.name && r.roles == d.roles
  }

  /** The base constructor: off, no roles, with the given kind-specific defaults. */
  function Create(id: string, name: string, attrs: Attributes): (d: Device)
    ensures !d.on && d.roles == []
    ensures d.id == id && d.name == name && d.attrs == attrs
    ensures InRange(attrs) ==> Valid(d)
  {
    Device(id, name, false, [], attrs)
  }

  function TurnOn(d: Device): (r: Device)
    ensures r.on
    ensures r.(on := d.on) == d
  {
    d.(on := true)
  }

  function TurnOff(d: Device): (r: Device)
    ensures !r.on
    ensures r.(on := d.on) == d
  {
    d.(on := false)
  }

  /** Power switching is idempotent and the last switch wins. */
  lemma PowerLastWriteWins(d: Device)
    ensures TurnOn(TurnOn(d)) == TurnOn(d) && TurnOff(TurnOff(d)) == TurnOff(d)
    ensures TurnOn(TurnOff(d)) == TurnOn(d) && TurnOff(TurnOn(d)) == TurnOff(d)
    ensures Valid(d) ==> Valid(TurnOn(d)) && Valid(TurnOff(d))
  {
  }

  /** `hasRole`: some held role has kind `k`. */
  function HasRole(d: Device, k: RoleKind): (b: bool)
    ensures b <==> k in d.roles
  {
    Contains(d.roles, k)
  }

  /** `getRole`: the first held role of kind `k`, or absent (Java `null`). */
  function GetRole(d: Device, k: RoleKind): (r: Option<RoleKind>)
    ensures r.Some? <==> HasRole(d, k)
    ensures r.Some? ==> r.value == k
  {
    match FindIndex(d.roles, (j: RoleKind) => j == k)
    case Some(i) => Some(d.roles[i])
    case None => None
  }

  /** `getAllRoles`: the held roles in insertion order. A Dafny sequence is a
      value, so the result is independent of later changes to the device. */
  function AllRoles(d: Device): (r: seq<RoleKind>)
    ensures |r| == |d.roles|
    ensures forall k :: k in r <==> HasRole(d, k)
    ensures Valid(d) ==> NoDups(r)
  {
    d.roles
  }

  /** `addRole`: append `k` unless a role of that kind is already held. */
  function AddRole(d: Device, k: RoleKind): (r: Reported<Device>)
    ensures r.report == Done || r.report == AlreadyPresent
    ensures r.report == Done <==> !HasRole(d, k)
    ensures HasRole(r.state, k)
    ensures r.report == AlreadyPresent ==> r.state == d
    ensures r.report == Done ==> r.state.roles == d.roles + [k]
    ensures r.state.(roles := d.roles) == d
    ensures forall j :: j != k ==> (HasRole(r.state, j) <==> HasRole(d, j))
    ensures NoDups(d.roles) ==> NoDups(r.state.roles)
    ensures Valid(d) ==> Valid(r.state)
  {
    if HasRole(d, k) then Reported(d, AlreadyPresent)
    else
      var roles := d.roles + [k];
      assert forall j :: j != k ==> (j in roles <==> j in d.roles);
      Reported(d.(roles := roles), Done)
  }

  /** `removeRole`: drop every role of kind `k`; reports whether anything went. */
  function RemoveRole(d: Device, k: RoleKind): (r: Reported<Device>)
    ensures r.report == Done || r.report == NotFound
    ensures r.report == Done <==> HasRole(d, k)
    ensures !HasRole(r.state, k)
    ensures r.report == NotFound ==> r.state == d
    ensures r.state.(roles := d.roles) == d
    ensures forall j :: j != k ==> (HasRole(r.state, j) <==> HasRole(d, j))
    ensures NoDups(d.roles) ==> NoDups(r.state.roles)
    ensures Valid(d) ==> Valid(r.state)
  {
    var roles := Without(d.roles, k);
    NoDupsWithout(d.roles, k);
    forall j ensures j in roles <==> j in d.roles && j != k {
      WithoutMembers(d.roles, k, j);
    }
    Reported(d.(roles := roles), if |roles| < |d.roles| then Done else NotFound)
  }

  /** After `removeRole`, the remaining roles keep their relative order: the
      held role is cut out of its position and nothing else moves. */
  lemma RemoveRoleKeepsOrder(d: Device, i: nat)
    requires NoDups(d.roles)
    requires i < |d.roles|
    ensures RemoveRole(d, d.roles[i]).state.roles == d.roles[..i] + d.roles[i+1..]
  {
    WithoutAt(d.roles, i);
  }

  /** Adding a role of a kind not yet held and then removing that kind restores the device. */
  lemma AddThenRemoveRestores(d: Device, k: RoleKind)
    requires !HasRole(d, k)
    ensures RemoveRole(AddRole(d, k).state, k).state == d
  {
    WithoutAppend(d.roles, [k], k);
    assert Without([k], k) == Without([k][1..], k);
  }

  /** Adding the same kind twice in succession leaves exactly one role of that
      kind, and the second attempt is reported as a duplicate. */
  lemma AddRoleTwiceHoldsOnce(d: Device, k: RoleKind)
    requires NoDups(d.roles)
    ensures AddRole(AddRole(d, k).state, k) == Reported(AddRole(d, k).state, AlreadyPresent)
    ensures multiset(AddRole(d, k).state.roles)[k] == 1
  {
    NoDupsCount(AddRole(d, k).state.roles, k);
  }

  /** `addRole` appends: the listing returned by `getAllRoles` grows at its end. */
  lemma AllRolesInInsertionOrder(d: Device, k: RoleKind)
    requires !HasRole(d, k)
    ensures AllRoles(AddRole(d, k).state) == AllRoles(d) + [k]
  {
  }
}
