/** The vocabulary shared by everything that waits on boost::asio. */
module Asio {
  datatype Option<+T> = None | Some(value: T)

  /** The error code a completion handler receives: none, operation_aborted, or another. */
  datatype Outcome = Ok | Aborted | Failed
}
