/** Shared vocabulary: time as exact integers, identifiers, and option/result values. */
module Basics {

  // A point in time, in nanoseconds after Go's zero time, and a length of time in nanoseconds.
  type Time = int
  type Duration = int

  const ZERO_TIME: Time := 0
  const MILLISECOND: Duration := 1_000_000
  const SECOND: Duration := 1000 * MILLISECOND

  type MonitorId = nat
  type LocationId = nat
  type AgentId = nat
  type RunId = nat
  type ResultId = string
  type Token = nat

  datatype Option<+T> = None | Some(value: T)

  datatype Result<+T, +E> = Ok(value: T) | Err(error: E)

  function Min(a: int, b: int): int {
    if a <= b then a else b
  }

  function Max(a: int, b: int): int {
    if a <= b then b else a
  }

  function Last<T>(s: seq<T>): T
    requires s != []
  {
    s[|s| - 1]
  }

  function Front<T>(s: seq<T>): seq<T>
    requires s != []
  {
    s[..|s| - 1]
  }
}
