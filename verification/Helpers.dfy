/** What several modules need: options, casts and extremes of reals, and the slots of a ring. */
module Helpers {

  datatype Option<+T> = None | Some(value: T)

  /** A cast from floating point to an integer type: less than one off, towards zero. */
  function Truncate(r: real): (i: int)
    ensures 0.0 <= r ==> 0 <= i && i as real <= r < (i + 1) as real
    ensures r <= 0.0 ==> i <= 0 && (i - 1) as real < r <= i as real
  {
    if r >= 0.0 then r.Floor else -((-r).Floor)
  }

  /** An integer edge less than one off a given one, towards zero. */
  predicate CutTo(i: int, r: real) {
    && (0.0 <= r ==> 0 <= i && i as real <= r < (i + 1) as real)
    && (r <= 0.0 ==> i <= 0 && (i - 1) as real < r <= i as real)
  }

  function Max(a: real, b: real): (r: real)
    ensures a <= r && b <= r && (r == a || r == b)
  {
    if a < b then b else a
  }

  function Min(a: real, b: real): (r: real)
    ensures r <= a && r <= b && (r == a || r == b)
  {
    if b < a then b else a
  }

  /** The slots of a ring. */
  const RING_SIZE: nat := 256

  lemma SlotsDiffer(i: nat, j: nat)
    requires i < j < i + RING_SIZE
    ensures i % RING_SIZE != j % RING_SIZE
  {
  }
}
