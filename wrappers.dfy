/** Failure-carrying result types used for Go's (value, error) returns. */
module Wrappers {

  /** Go's nil-or-value: `None` stands for nil. */
  datatype Option<+T> = None | Some(value: T)

  /** A Go `(value, error)` pair where exactly one side is meaningful. */
  datatype Result<+T> = Success(value: T) | Failure(error: string)

  /** A Go `error` return: `Pass` is nil, `Fail` carries the message. */
  datatype Outcome = Pass | Fail(error: string)

  /** True when a sequence holds no element twice. */
  predicate NoDuplicates<T(==)>(s: seq<T>)
  {
    forall i, j :: 0 <= i < j < |s| ==> s[i] != s[j]
  }
}
