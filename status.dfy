/** Result values of the framework's entry points and of user calculator code. */
module Statuses {

  datatype Option<T> = None | Some(value: T)

  /** The canonical error codes the modelled code produces or passes on. */
  datatype Code = Internal | NotFound | InvalidArgument | Unimplemented | Unknown

  /**
   * A `::mediapipe::Status`: success, the designated stop sentinel that a
   * calculator returns to say it is done producing data, or an error.
   */
  datatype Status = Ok | Stop | Error(code: Code, message: string)

  /** The status a failed `RET_CHECK` returns; its source-location prefix is not modelled. */
  function RetCheckFailure(message: string): Status
  {
    Error(Internal, message)
  }
}
