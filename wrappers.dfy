/** Small value wrappers shared by every module of the model. */
module Wrappers {

  /** JavaScript's `null`/`undefined` versus a present value. */
  datatype Option<+T> = None | Some(value: T)

  /**
   * The outcome of a call into code outside the model (the hosted backend client,
   * the browser): it either returns a value or throws with a message
   * (`""` when the thrown value has no message).
   */
  datatype Call<+T> = Done(value: T) | Threw(message: string)
}
