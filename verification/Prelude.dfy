/** Small types and text functions shared by every module. */
module Prelude {

  datatype Option<+T> = None | Some(value: T)

  datatype Result<+T, +E> = Ok(value: T) | Err(error: E)

  /** Instants and durations are integers counting nanoseconds. */
  const SECOND: int := 1_000_000_000
  const MINUTE: int := 60 * SECOND

  /** Whole seconds, rounded down: what the tables store for an instant. */
  function Unix(t: int): int {
    t / SECOND
  }

  /** The instant a table gives back for `t`: its whole second. */
  function Whole(t: int): int {
    Unix(t) * SECOND
  }

  /** A lifetime kept in a table lost less than one second and gained nothing. */
  lemma Truncation(now: int, ttl: int)
    ensures ttl - SECOND < Whole(now + ttl) - now <= ttl
  {
  }

  function Min(a: int, b: int): int {
    if a < b then a else b
  }
}
