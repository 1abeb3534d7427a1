/**
 * `KeyUpButtonsStrategy`: the order in which the UP (or W) key visits the
 * items of a menu of `size` buttons, from the last one upwards, wrapping
 * around. Indices and sizes are Java `int`s.
 */
module GameStates {
  import opened JavaLang

  /** `firstIndex`: the last item. */
  function FirstIndex(size: int): (r: int)
    requires IsInt32(size)
    ensures size > INT_MIN ==> r == size - 1
    ensures size > 0 ==> 0 <= r < size
  {
    Wrap32(size - 1)
  }

  /** `nextIndex`: the item above `i`, or the last item when `i` is the first one. */
  function NextIndex(i: int, size: int): (r: int)
    requires IsInt32(i) && IsInt32(size)
    ensures i >= 1 ==> r == i - 1
    ensures INT_MIN < i <= 0 ==> r == FirstIndex(size)
    ensures i == INT_MIN ==> r == INT_MAX
    ensures 0 <= i < size ==> 0 <= r < size && (r + 1) % size == i
  {
    var next := Wrap32(i - 1);
    DecrementWraps(i);
    if next < 0 then
      CyclicPredecessor(i, size, Wrap32(size - 1));
      Wrap32(size - 1)
    else
      CyclicPredecessor(i, size, next);
      next
  }

  /** Java's `i - 1` is exact except at `INT_MIN`, where it wraps to `INT_MAX`. */
  lemma DecrementWraps(i: int)
    requires IsInt32(i)
    ensures Wrap32(i - 1) == if i == INT_MIN then INT_MAX else i - 1
  {
    if i == INT_MIN {
      assert (i - 1) - INT_MIN == -1;
      assert (-1) % 0x1_0000_0000 == 0xffff_ffff;
    }
  }

  /** `size - 1` precedes `0`, and `i - 1` precedes `i`, cyclically. */
  lemma CyclicPredecessor(i: int, size: int, r: int)
    requires 0 <= i < size ==> r == if i == 0 then size - 1 else i - 1
    ensures 0 <= i < size ==> (r + 1) % size == i
  {
  }

  /** Pressing UP on the first item goes where the first press goes. */
  lemma WrapsToFirstIndex(size: int)
    requires IsInt32(size)
    ensures NextIndex(0, size) == FirstIndex(size)
  {
  }

  /** The item reached after `k` more presses. */
  function Pressed(i: int, size: int, k: nat): (r: int)
    requires IsInt32(i) && IsInt32(size)
    ensures IsInt32(r)
  {
    if k == 0 then i else NextIndex(Pressed(i, size, k - 1), size)
  }

  /**
   * Starting from `firstIndex`, the k-th further press lands on `size - 1 - k`,
   * so every item is visited once before the cycle returns to the start after
   * `size` presses.
   */
  lemma {:induction false} VisitsEveryItemThenCycles(size: int, k: nat)
    requires 0 < size <= INT_MAX && k <= size
    ensures Pressed(FirstIndex(size), size, k) == if k == size then FirstIndex(size) else size - 1 - k
  {
    if k > 0 {
      VisitsEveryItemThenCycles(size, k - 1);
    }
  }
}
