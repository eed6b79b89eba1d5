/** Outcome values the smart-home core reports instead of printing.

    The Java code signals every no-op or rejection with a console line (or, for
    `removeRole` and `unregisterDevice`, with the boolean that `removeIf` and
    `List.remove` return). The model makes that report part of the result, so a
    caller can tell "changed" from "duplicate", "absent", "out of range" and
    "nobody holds the role".
 */
module Outcomes {

  /** A value that may be absent; stands in for a Java `null` return. */
  datatype Option<+T> = None | Some(value: T)

  /** What an operation reports besides its new state. */
  datatype Report =
    | Done               // the operation took effect
    | AlreadyPresent     // duplicate role or duplicate registration: a no-op
    | NotFound           // nothing to remove / unregister / no device with that name
    | Rejected           // a setter's argument was out of range, or the speaker was off
    | NoEligibleDevices  // no registered device holds the role being invoked

  /** A new state together with the report of the operation that produced it. */
  datatype Reported<+T> = Reported(state: T, report: Report)
}
