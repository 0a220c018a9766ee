/** Error kinds raised by the approximator layer, the result types that carry
    them in place of exceptions, and Python's rule for indexing a sequence. */
module Common {

  /** The exceptions the modelled code raises or lets through. */
  datatype Error =
    | NotFitted        // a regressor predicted before its first fit
    | NotImplemented   // reset asked of a regressor that has no reset
    | AttributeError   // a regressor lacks the attribute being called
    | ValueError       // unknown aggregation mode, inhomogeneous stack, empty random choice
    | IndexError       // index out of range or indices that cannot be used together
    | AssertionError   // a failed `assert` in the source

  datatype Result<+T> = Ok(value: T) | Err(error: Error)

  datatype Outcome = Pass | Fail(error: Error)

  /** Position addressed by index `i` in a sequence of length `n`, the way
      Python lists and numpy arrays read it: non-negative indices count from
      the front, negative ones from the back, anything outside `[-n, n)` is
      an IndexError (None here). */
  function NormIndex(n: nat, i: int): (r: Option<nat>)
    ensures r.Some? <==> -(n as int) <= i < n
    ensures r.Some? ==> r.value < n && r.value as int % n == i % n
  {
    if 0 <= i < n then Some(i)
    else if -(n as int) <= i < 0 then Some(n + i)
    else None
  }

  datatype Option<+T> = None | Some(value: T)

  /** A count of `n` in Python's `range(n)` sense: negative counts yield nothing. */
  function RangeLength(n: int): (r: nat)
    ensures r == 0 <==> n <= 0
    ensures n > 0 ==> r == n
  {
    if n > 0 then n else 0
  }
}
