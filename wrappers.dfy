/** Optional values and error returns.
    `None` stands for both `null` and `undefined` of the original program. */
module Wrappers {

  datatype Option<+T> = None | Some(value: T)

  datatype Result<+T, +E> = Ok(value: T) | Err(error: E)

  /** JavaScript truthiness of an optional boolean: only `true` is truthy. */
  predicate IsTrue(b: Option<bool>)
  {
    b == Some(true)
  }

  /** JavaScript truthiness of an optional string: present and not empty. */
  predicate Present(s: Option<string>)
  {
    s.Some? && s.value != ""
  }
}
