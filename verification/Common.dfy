/** Vocabulary shared by all models. Instants and durations are integers counting nanoseconds, as in
    Go's time package. */
module Common {
  const SECOND: int := 1_000_000_000
  const DAY: int := 24 * 3600 * SECOND

  datatype Option<+T> = None | Some(value: T) {
    function GetOr(default: T): T {
      if Some? then value else default
    }
  }

  lemma SubsetSize<T>(a: set<T>, b: set<T>)
    requires a <= b
    ensures |a| <= |b|
  {
    assert b == a + (b - a);
  }
}
