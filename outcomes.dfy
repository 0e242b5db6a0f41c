/** Optional values, results and the errors the training module raises. */
module Outcomes {

  datatype Option<+T> = None | Some(value: T)

  /** The exceptions raised by the modelled code, one per raise site. */
  datatype Error =
    | UnrecognizedPoolingType(name: string)  // the assertion in the Pooler constructor
    | HardNegativeNotImplemented             // three views combined with the rank loss
    | SimilarityNotImplemented(simf: string) // a similarity function other than "Spearmanr"
    | LossTypeNotImplemented(lossType: string)
    | ShapeMismatch                          // MSE operands that cannot be broadcast together
    | MissingLmHead                          // MLM inputs given to a model built without an LM head
    | MissingDistances                       // Spearman targets asked for without `distances1`

  datatype Result<+T> = Ok(value: T) | Err(error: Error)
}
