/** Failure-carrying values shared by the ledger's components: an operation
    either produces its value or fails with the reason the contract reverts. */
module Outcomes {

  datatype Option<+T> = None | Some(value: T)

  datatype Result<+T, +E> = Ok(value: T) | Err(error: E)
}
