/** Optional values, and the result of evaluating Python code that may raise. */
module Outcomes {

  datatype Option<+T> = None | Some(value: T)

  /** `Raises` stands for an exception that nothing in the server catches:
      the connection handler stops there and writes nothing back. */
  datatype Outcome<+T> = Returns(value: T) | Raises
}
