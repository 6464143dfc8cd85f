/** Success, absence and failure values shared by the models. */
module Wrappers {
  datatype Option<+T> = None | Some(value: T)

  /** `Failure` stands for a thrown exception or an error return; its text is not modelled. */
  datatype Result<+T> = Success(value: T) | Failure
}
