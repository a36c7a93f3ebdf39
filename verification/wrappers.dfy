/** Failure-compatible wrappers shared by every module of the model.
    `Option` stands for Python's `Optional[...]` (None / a value) and `Result`
    for a call that either returns a value or raises with an error. */
module Wrappers {

  datatype Option<+T> = None | Some(value: T)

  /** `Success` is a normal return, `Failure` an exception carrying its message. */
  datatype Result<+R, +E> = Success(value: R) | Failure(error: E) {

    predicate IsFailure() {
      Failure?
    }

    function PropagateFailure<U>(): Result<U, E>
      requires Failure?
    {
      Failure(error)
    }

    function Extract(): R
      requires Success?
    {
      value
    }
  }

  /** The map lookup `m.get(k)` of Python. */
  function Get<K, V>(m: map<K, V>, k: K): (r: Option<V>)
    ensures r.Some? <==> k in m
    ensures r.Some? ==> r.value == m[k]
  {
    if k in m then Some(m[k]) else None
  }
}
