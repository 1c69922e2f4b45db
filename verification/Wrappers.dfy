/** Result types shared by every module of the model. */
module Wrappers {

  datatype Option<+T> = None | Some(value: T)

  /** A decision of a validator: the two failures are told apart because only
      `Invalid` may be quarantined, while `Incompatible` is reported unchanged. */
  datatype Verdict = Fine | Invalid | Incompatible
}
