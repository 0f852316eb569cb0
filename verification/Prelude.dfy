/** Small shared vocabulary: optional values, the Go-style (value, error) result, durations and fresh ids. */
module Prelude {

  datatype Option<+T> = None | Some(value: T)

  datatype Result<+T, +E> = Ok(value: T) | Err(error: E)

  type Duration = int  // nanoseconds, as time.Duration

  const SECOND: Duration := 1_000_000_000

  /** There is always an id that is not in use yet: one above all that are. */
  lemma {:induction false} UnusedId(used: set<nat>) returns (n: nat)
    ensures n !in used && forall m :: m in used ==> m < n
    decreases |used|
  {
    if used == {} {
      n := 0;
    } else {
      var x :| x in used;
      var n0 := UnusedId(used - {x});
      n := Max(n0, x + 1);
      assert forall m :: m in used ==> m == x || m in used - {x};
    }
  }

  function Min(a: int, b: int): int {
    if a <= b then a else b
  }

  function Max(a: int, b: int): int {
    if a <= b then b else a
  }
}
