/** The panics of the sampling layer, as values. The source reports a caller's
    mistake with `assert!`/`assert_ne!`; here an operation returns `Err(panic)`
    instead, and the panic carries the message the source prints. */
module Outcome {

  datatype Panic = ZeroLimit | EmptyRange | LessThanZero | GreaterThanOne
  {
    /** The text the source's assertion prints (for a probability, the part after
        the value). */
    function Message(): string
    {
      match this
      case ZeroLimit => "zero limit"
      case EmptyRange => "empty range"
      case LessThanZero => "cannot be less than 0"
      case GreaterThanOne => "cannot be greater than 1"
    }
  }

  datatype Result<T> = Ok(value: T) | Err(panic: Panic)
}
