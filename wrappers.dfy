/** Small value wrappers shared by every module. */
module Wrappers {

  /** JavaScript's `T | null`, and the answer "absent" of a key-value lookup. */
  datatype Option<+T> = None | Some(value: T)

  /** The answer of an awaited platform call: the value it resolves to, or a rejection. */
  datatype Probe<+T> = Returns(value: T) | Throws
}
