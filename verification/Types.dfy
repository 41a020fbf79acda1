/** Vocabulary shared by every module: optional values, durations and the answers an external call can give. */
module Types {

  datatype Option<+T> = None | Some(value: T)

  /** Durations are counted in nanoseconds, as Go's time.Duration does. */
  const SECOND: int := 1_000_000_000
  const MINUTE: int := 60 * SECOND
  const HOUR: int := 60 * MINUTE

  function Max(a: int, b: int): int {
    if a >= b then a else b
  }

  function Min(a: int, b: int): int {
    if a <= b then a else b
  }

  /** The answer to a call that changes something outside this process: a database save, a provider or a
      forge call. A call that reports an error may still have had its effect (a timeout after the commit). */
  datatype Reply = Ok | Err(applied: bool)
  {
    predicate Applied() { Ok? || applied }
  }

  /** `order` lists every element of `s` exactly once, in an arbitrary order. */
  ghost predicate Enumerates<T(!new)>(order: seq<T>, s: set<T>) {
    && (forall i, j :: 0 <= i < j < |order| ==> order[i] != order[j])
    && (forall x :: x in order <==> x in s)
  }

  /** Lists the elements of a finite set once each, in an unspecified order. */
  method Enumerate<T(!new, ==)>(s: set<T>) returns (order: seq<T>)
    ensures Enumerates(order, s)
  {
    order := [];
    var left := s;
    while left != {}
      invariant left <= s
      invariant forall i, j :: 0 <= i < j < |order| ==> order[i] != order[j]
      invariant forall x :: x in order <==> x in s - left
      decreases left
    {
      var x :| x in left;
      assert x !in order;
      order := order + [x];
      left := left - {x};
    }
  }
}
