/**
 * `OrderCounter` (entities/partner/components/order-counter/index.tsx): a
 * count that starts at `min` (0 when not given), steps up unless it sits at
 * a truthy `max`, steps down unless it sits at `min`, and reports every new
 * value through `onChange`.
 */
module OrderCounter {
  import opened Wrappers

  /** `max` is truthy: given and not 0. Only then does it stop `increment`. */
  predicate HasMax(max: Option<int>) {
    max.Some? && max.value != 0
  }

  /** The count after `increment`. */
  function Incremented(count: int, max: Option<int>): (r: int)
    ensures r == count <==> HasMax(max) && count == max.value
    ensures r != count ==> r == count + 1
  {
    if HasMax(max) && count == max.value then count else count + 1
  }

  /** The count after `decrement`. */
  function Decremented(count: int, min: int): (r: int)
    ensures r == count <==> count == min
    ensures r != count ==> r == count - 1
  {
    if count == min then count else count - 1
  }

  datatype Press = Plus | Minus

  /** The count after a sequence of presses. */
  function Run(count: int, presses: seq<Press>, min: int, max: Option<int>): int
    decreases |presses|
  {
    if presses == [] then count
    else
      var next := if presses[0] == Plus then Incremented(count, max) else Decremented(count, min);
      Run(next, presses[1..], min, max)
  }

  /** From any count at or above `min`, no presses take it below `min`. */
  lemma {:induction false} NeverBelowMin(count: int, presses: seq<Press>, min: int, max: Option<int>)
    requires min <= count
    ensures min <= Run(count, presses, min, max)
    decreases |presses|
  {
    if presses != [] {
      var next := if presses[0] == Plus then Incremented(count, max) else Decremented(count, min);
      NeverBelowMin(next, presses[1..], min, max);
    }
  }

  /** With a truthy `max` not below `min`, no presses take the count above `max`. */
  lemma {:induction false} NeverAboveMax(count: int, presses: seq<Press>, min: int, max: Option<int>)
    requires HasMax(max) && min <= count <= max.value
    ensures Run(count, presses, min, max) <= max.value
    decreases |presses|
  {
    if presses != [] {
      var next := if presses[0] == Plus then Incremented(count, max) else Decremented(count, min);
      NeverAboveMax(next, presses[1..], min, max);
    }
  }

  /** Without a truthy `max`, or with one below the count, the plus button never stops: n presses add n. */
  lemma {:induction false} UnboundedAbove(count: int, n: nat, min: int, max: Option<int>)
    requires !HasMax(max) || max.value < count
    ensures Run(count, seq(n, _ => Plus), min, max) == count + n
    decreases n
  {
    if n > 0 {
      assert seq(n, _ => Plus)[1..] == seq(n - 1, _ => Plus);
      UnboundedAbove(count + 1, n - 1, min, max);
    }
  }

  class Counter {
    const min: int
    const max: Option<int>
    var count: int
    /** Every value handed to `onChange`, oldest first. */
    var reported: seq<int>

    predicate Valid()
      reads this
    {
      && min <= count
      && (HasMax(max) && min <= max.value ==> count <= max.value)
      && reported != [] && reported[|reported| - 1] == count
    }

    /** Mounting: the count starts at `min`, which defaults to 0, and the effect reports it once. */
    constructor (minProp: Option<int>, max: Option<int>)
      ensures Valid()
      ensures min == minProp.GetOr(0) && this.max == max
      ensures count == min && reported == [min]
    {
      min := minProp.GetOr(0);
      this.max := max;
      count := minProp.GetOr(0);
      reported := [minProp.GetOr(0)];
    }

    method Increment()
      requires Valid()
      modifies this`count, this`reported
      ensures Valid()
      ensures count == Incremented(old(count), max)
      ensures reported == if count == old(count) then old(reported) else old(reported) + [count]
    {
      if HasMax(max) && count == max.value {
        return;
      }
      count := count + 1;
      reported := reported + [count];
    }

    method Decrement()
      requires Valid()
      modifies this`count, this`reported
      ensures Valid()
      ensures count == Decremented(old(count), min)
      ensures reported == if count == old(count) then old(reported) else old(reported) + [count]
    {
      if count == min {
        return;
      }
      count := count - 1;
      reported := reported + [count];
    }

    /** The minus button is grey exactly at `min`. */
    function MinusGrey(): bool
      reads this
    {
      count == min
    }

    /** The plus button is grey exactly at a given `max` (including a `max` of 0). */
    function PlusGrey(): bool
      reads this
    {
      max.Some? && count == max.value
    }

    /** A grey minus button means pressing it changes nothing; a grey plus button means the same when `max` is truthy. */
    lemma GreyMeansNoOp()
      requires Valid()
      ensures MinusGrey() <==> Decremented(count, min) == count
      ensures HasMax(max) ==> (PlusGrey() <==> Incremented(count, max) == count)
    {
    }
  }
}
