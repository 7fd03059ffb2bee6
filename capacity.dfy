/** The capacity of a growable list (.NET's List<T>): adding an element to a full
    list replaces its storage by one twice as large, or by 4 slots when it had
    none; setting the capacity below the number of elements throws. */
module ListCapacity {

  /** The storage size after one growth step. */
  function NextCapacity(capacity: nat): (r: nat)
    ensures r > capacity
  {
    if capacity == 0 then 4 else 2 * capacity
  }

  /** The capacity of a list that started with `capacity` slots once elements have
      been added one at a time until it holds `count`. */
  function GrowCapacity(capacity: nat, count: nat): (r: nat)
    ensures r >= count && r >= capacity
    ensures count <= capacity ==> r == capacity
    decreases if count > capacity then count - capacity else 0
  {
    if count <= capacity then capacity else GrowCapacity(NextCapacity(capacity), count)
  }

  /** One Add to a list of `count` elements in `capacity` slots: it keeps its
      storage while there is room, and grows once when it is full. */
  lemma AddGrows(capacity: nat, count: nat)
    requires count <= capacity
    ensures GrowCapacity(capacity, count + 1) == (if count < capacity then capacity else NextCapacity(capacity))
  {
    if count == capacity {
      assert GrowCapacity(NextCapacity(capacity), count + 1) == NextCapacity(capacity);
    }
  }

  /** Growing in two stretches ends in the same capacity as growing in one, so the
      capacity after a run of Adds depends only on where it started and the final count. */
  lemma {:induction false} GrowCompose(capacity: nat, middle: nat, count: nat)
    requires middle <= count
    ensures GrowCapacity(GrowCapacity(capacity, middle), count) == GrowCapacity(capacity, count)
    decreases if middle > capacity then middle - capacity else 0
  {
    if middle > capacity {
      GrowCompose(NextCapacity(capacity), middle, count);
    }
  }
}
