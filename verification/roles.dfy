/** The four role kinds. Roles carry no per-device state, so a held role
    instance is fully described by its kind; role identity in the source is
    exact-class equality (`getClass().equals`), which is equality of kinds here.
 */
module Roles {

  datatype RoleKind = Security | Vacation | Energy | Notification
}
