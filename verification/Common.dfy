/** Result types and sequence facts shared by every component model. */
module Common {

  datatype Option<+T> = None | Some(value: T)

  datatype Result<+T, +E> = Ok(value: T) | Err(error: E)

  function Min(a: int, b: int): int {
    if a < b then a else b
  }

  function Max(a: int, b: int): int {
    if a < b then b else a
  }

  /** Consecutive times at least an interval apart. */
  predicate Spaced(times: seq<real>, interval: real) {
    forall i | 0 < i < |times| :: times[i] - times[i - 1] >= interval
  }

  /** Over any stretch the intervals add up. */
  lemma {:induction false} SpacedFar(times: seq<real>, interval: real, i: nat, j: nat)
    requires Spaced(times, interval) && i < j < |times|
    ensures times[j] - times[i] >= interval * (j - i) as real
    decreases j
  {
    assert times[j] - times[j - 1] >= interval;
    if i < j - 1 {
      SpacedFar(times, interval, i, j - 1);
    }
  }
}
