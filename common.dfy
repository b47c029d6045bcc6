/** Small shared vocabulary: optional values (JavaScript's `undefined`), settled
    promises, navigation targets and the subsequence relation used to state that
    a filter keeps the original order. */
module Common {

  /** `None` stands for JavaScript's `undefined`. */
  datatype Option<+T> = None | Some(value: T) {
    function GetOr(default: T): T {
      match this
      case Some(v) => v
      case None => default
    }
  }

  /** The outcome of a promise: resolved with a value or rejected with an error. */
  datatype Result<+T, +E> = Success(value: T) | Failure(error: E)

  /** Entries of the application's route table that the containers navigate to. */
  datatype Route = DashboardRoute | NewBillRoute

  /** `a` is obtained from `b` by deleting elements (greedy matching is complete). */
  predicate IsSubsequence<T(==)>(a: seq<T>, b: seq<T>)
    decreases |b|
  {
    if a == [] then true
    else if b == [] then false
    else if a[0] == b[0] then IsSubsequence(a[1..], b[1..])
    else IsSubsequence(a, b[1..])
  }
}
