/** Outcomes of the model's operations: a value, or the error the model layer rejects with. */
module Results {

  datatype Option<+T> = None | Some(value: T)

  /** The ways an operation of the model layer fails.
      DataEmpty and DataMustBeArray are the layer's own rejections (locale keys
      DATA_EMPTY and DATA_MUST_BE_ARRAY); TypeError stands for the runtime errors
      the JavaScript engine raises (a property read on a missing driver reply,
      `reduce` of an empty array without a seed). */
  datatype ErrorKind = DataEmpty | DataMustBeArray | TypeError

  datatype Result<+T> = Ok(value: T) | Err(error: ErrorKind)
}
