/** The margin-tier classifier of the second generation (`getMarginLevel`):
    four bands with closed lower bounds at 70, 40 and 20, checked in order. */
module Margin {

  datatype Tier = High | Medium | Low | Zero

  /** The tier of a margin percentage; total over all numbers, negative ones included. */
  function MarginLevel(m: real): (t: Tier)
    ensures t == High <==> m >= 70.0
    ensures t == Medium <==> 40.0 <= m < 70.0
    ensures t == Low <==> 20.0 <= m < 40.0
    ensures t == Zero <==> m < 20.0
  {
    if m >= 70.0 then High
    else if m >= 40.0 then Medium
    else if m >= 20.0 then Low
    else Zero
  }

  /** The tiers in increasing order. */
  function Rank(t: Tier): (r: nat)
    ensures r <= 3
  {
    match t
    case Zero => 0
    case Low => 1
    case Medium => 2
    case High => 3
  }

  /** A larger margin never lands in a lower tier. */
  lemma MarginLevelMonotone(m1: real, m2: real)
    requires m1 <= m2
    ensures Rank(MarginLevel(m1)) <= Rank(MarginLevel(m2))
  {
  }

  /** The boundary values: 70 is high, just under is medium, 40 medium, just under
      low, 20 low, just under zero, and a negative margin is zero. */
  lemma MarginLevelBoundaries(eps: real)
    requires 0.0 < eps <= 1.0
    ensures MarginLevel(70.0) == High && MarginLevel(70.0 - eps) == Medium
    ensures MarginLevel(40.0) == Medium && MarginLevel(40.0 - eps) == Low
    ensures MarginLevel(20.0) == Low && MarginLevel(20.0 - eps) == Zero
    ensures MarginLevel(-5.0) == Zero
  {
  }
}
