/** The adaptive chunk size of internal/extract/chunker.go. */
module Chunking {
  import opened Prelude

  /** The size after a refused request. */
  function Shrink(min: uint64, current: uint64): uint64 {
    if current <= min then current
    else
      var next := current / 2;
      if next < min then min else next
  }

  /** The size after a successful request; the sum is taken modulo 2^64, as the original does. */
  function Grow(max: uint64, current: uint64): uint64 {
    if current >= max then current
    else
      var next := Wrap(current + (current / 10 + 1));
      if next > max then max else next
  }

  /** No size up to `max` can make the sum in `Grow` wrap. */
  predicate Headroom(max: uint64) {
    max + (max - 1) / 10 < TWO_64
  }

  predicate InBounds(min: uint64, max: uint64, current: uint64) {
    1 <= min <= current <= max && Headroom(max)
  }

  /** In bounds, a refusal halves the size down to the minimum and a success adds a tenth up to the maximum. */
  lemma StepsStayInBounds(min: uint64, max: uint64, current: uint64)
    requires InBounds(min, max, current)
    ensures Shrink(min, current) == Max(min, current / 2) && InBounds(min, max, Shrink(min, current))
    ensures Grow(max, current) == Min(max, current + current / 10 + 1) && InBounds(min, max, Grow(max, current))
    ensures Grow(max, current) <= 2 * current
  {
    if current < max {
      NoWrap(current + (current / 10 + 1));
    }
  }

  class Chunker {
    const min: uint64
    const max: uint64
    var current: uint64

    /** Every field is in bounds and the size can never wrap. */
    ghost predicate Valid()
      reads this
    {
      InBounds(min, max, current)
    }

    lemma ValidMeans()
      ensures Valid() ==> 1 <= min <= current <= max
    {
    }

    constructor (min: uint64, max: uint64, start: uint64)
      ensures this.min == Max(1, min)
      ensures this.max == Max(this.min, max)
      ensures this.min <= current <= this.max
      ensures this.min <= start <= this.max ==> current == start
      ensures start < this.min ==> current == this.min
      ensures start > this.max ==> current == this.max
      ensures Headroom(this.max) ==> Valid()
    {
      var lo, hi, size := min, max, start;
      if lo == 0 {
        lo := 1;
      }
      if hi < lo {
        hi := lo;
      }
      if size < lo {
        size := lo;
      }
      if size > hi {
        size := hi;
      }
      this.min, this.max, this.current := lo, hi, size;
    }

    method Current() returns (size: uint64)
      ensures size == current
    {
      size := current;
    }

    method OnError()
      modifies this
      ensures current == Shrink(min, old(current))
      ensures old(Valid()) ==> Valid() && current == Max(min, old(current) / 2)
    {
      if Valid() {
        StepsStayInBounds(min, max, current);
      }
      if current <= min {
        return;
      }
      var next := current / 2;
      if next < min {
        next := min;
      }
      current := next;
    }

    method OnSuccess()
      modifies this
      ensures current == Grow(max, old(current))
      ensures old(Valid()) ==> Valid() && current == Min(max, old(current) + old(current) / 10 + 1)
    {
      if Valid() {
        StepsStayInBounds(min, max, current);
      }
      if current >= max {
        return;
      }
      NoWrap(current / 10 + 1);
      var grow := Wrap(current / 10 + 1);
      var next := Wrap(current + grow);
      if next > max {
        next := max;
      }
      current := next;
    }
  }

  /** Success never shrinks the chunk, from any size in range, exactly when `max` leaves headroom. */
  lemma GrowthNeverShrinksIffHeadroom(min: uint64, max: uint64)
    requires 1 <= min <= max
    ensures (forall c: uint64 | min <= c <= max :: c <= Grow(max, c)) <==> (min == max || Headroom(max))
  {
    if min < max && !Headroom(max) {
      var c: uint64 := max - 1;
      assert Grow(max, c) < c;
    }
  }

  /** A maximum without headroom can bring the size to zero, below every minimum. */
  lemma GrowthCanReachZero()
    ensures Grow(TWO_64 - 1, 16769767339735956014) == 0
    ensures !Headroom(TWO_64 - 1)
  {
  }

  /** size * 2^k */
  function Doubled(size: nat, k: nat): nat {
    if k == 0 then size else 2 * Doubled(size, k - 1)
  }

  /** The number of halvings, rounding up, that lead from `current` to the minimum. */
  function Level(min: nat, current: nat): nat
    requires min >= 1
    decreases current
  {
    if current <= min then 0 else 1 + Level(min, (current + 1) / 2)
  }

  /** Level is the least k with current <= min * 2^k, which is ceil(log2(current / min)). */
  lemma {:induction false} LevelIsCeilLog2(min: nat, current: nat)
    requires min >= 1
    ensures current <= Doubled(min, Level(min, current))
    ensures forall k: nat | k < Level(min, current) :: Doubled(min, k) < current
    decreases current
  {
    if current > min {
      var half := (current + 1) / 2;
      LevelIsCeilLog2(min, half);
      forall k: nat | k < Level(min, current)
        ensures Doubled(min, k) < current
      {
        if k > 0 {
          assert Doubled(min, k - 1) < half;
        }
      }
    }
  }

  lemma {:induction false} LevelMonotone(min: nat, a: nat, b: nat)
    requires min >= 1 && a <= b
    ensures Level(min, a) <= Level(min, b)
    decreases b
  {
    if a > min {
      LevelMonotone(min, (a + 1) / 2, (b + 1) / 2);
    }
  }

  /** A refusal above the minimum costs at least one level; a success gains at most one. */
  lemma LevelSteps(min: uint64, max: uint64, current: uint64)
    requires InBounds(min, max, current)
    ensures current > min ==> Level(min, Shrink(min, current)) < Level(min, current)
    ensures Level(min, Grow(max, current)) <= Level(min, current) + 1
  {
    hide Shrink, Grow, Headroom, Wrap;
    StepsStayInBounds(min, max, current);
    if current > min {
      LevelMonotone(min, current / 2, (current + 1) / 2);
    }
    var next := Grow(max, current);
    if next > min {
      LevelMonotone(min, (next + 1) / 2, current);
    }
  }
}
