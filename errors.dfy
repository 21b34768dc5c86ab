/** Error values and result wrappers shared by the training model. */
module Errors {

  /** The Python exceptions the modelled training loop can raise. */
  datatype Error =
    | ZeroDivisionError   // `lr_final / learning_rate` with a zero learning rate
    | UnboundLocalError   // `progress` read before anything was assigned to it
    | AttributeError      // `self.lr` read before any training step set it

  datatype Result<T> = Ok(value: T) | Err(error: Error)

  datatype Option<T> = None | Some(value: T)
}
