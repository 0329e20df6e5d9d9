/** Explicit absence for the optional members of the response envelope. */
module Wrappers {

  /**
   * `None` stands for a key that is missing (`undefined`). For `data`, `error`
   * and `fields` it also stands for JSON `null`; a `null` in `items` is the
   * runtime value `Null`.
   */
  datatype Option<+T> = None | Some(value: T)
}
