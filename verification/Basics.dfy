/** Small value types shared by the other modules. */
module Basics {

  datatype Option<+T> = None | Some(value: T)

  /** A `last_seen` text: absent, present but not a timestamp, or a point in time. */
  datatype Stamp = Missing | Garbled(text: string) | At(time: real)

  datatype Severity = Low | Medium | High | Critical | Other(text: string)

  /** A Python string field where the empty string stands for "absent". */
  function OrElse(text: string, fallback: string): string {
    if text == "" then fallback else text
  }

  /** `int(value or fallback)`: zero counts as absent. */
  function CountOr(count: int, fallback: int): int {
    if count == 0 then fallback else count
  }
}
