// The parts of the Kubernetes API the operator sees: how a read or a write can end.
module Kube {

  datatype Option<+T> = None | Some(value: T)

  /** How an API write ends: an optimistic-lock conflict is told apart from every other error. */
  datatype Write = Accepted | Conflict | Rejected

  /** The faults of one create-or-update call: its own read can fail, and so can the write that follows. */
  datatype Call = Call(readFails: bool, write: Write)

  /** What create-or-update reports; `Unchanged` means nothing was written. */
  datatype Upsert<+T> =
    | Unchanged
    | Created(object: T)
    | Updated(object: T)
    | Refused(conflict: bool)

  /** The faults of a call that succeeds. */
  const SUCCEEDS := Call(false, Accepted)
}
