/** Options, results, the error values shared by every component, and time. */
module Basics {

  datatype Option<+T> = None | Some(value: T)

  datatype Result<+T> = Ok(value: T) | Err(error: Error)

  /** The sentinel errors of the notification packages. */
  datatype Error =
    | PolicyMismatch
    | StaleRevision
    | UnorderedRevision
    | RevisionUnreachable
    | NotDue
    | ClaimLost
    | InvalidState
    | CapacityExhausted
    | WriteConflict
    | AbsentLedger
    | Unavailable

  /** Nanoseconds since the zero instant of the source's clock type. */
  type Time = nat

  /** The zero instant, which the source tests with IsZero. */
  const NEVER: Time := 0
  const SECOND: nat := 1_000_000_000
  const MINUTE: nat := 60 * SECOND
  const HOUR: nat := 60 * MINUTE

  function Min(a: int, b: int): (m: int)
    ensures m <= a && m <= b && (m == a || m == b)
  {
    if a <= b then a else b
  }

  function Max(a: int, b: int): (m: int)
    ensures m >= a && m >= b && (m == a || m == b)
  {
    if a >= b then a else b
  }

  /** No element occurs twice. */
  predicate Distinct<T(==)>(s: seq<T>) {
    forall i, j :: 0 <= i < j < |s| ==> s[i] != s[j]
  }

  /** A strict order under which any two different values are comparable. */
  ghost predicate StrictTotalOrder<T(!new)>(less: (T, T) -> bool) {
    && (forall a :: !less(a, a))
    && (forall a, b, c :: less(a, b) && less(b, c) ==> less(a, c))
    && (forall a, b :: a != b ==> less(a, b) || less(b, a))
  }
}
