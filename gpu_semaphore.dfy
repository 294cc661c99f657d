/** The GPU slot semaphore as a permit counter. `value` is what the
    semaphore reports as its free permits; `held` counts the permits taken
    and not yet given back, so the two always add up to the capacity. A wait
    for a free permit is not modelled: acquiring requires one to be free. */
module GpuSemaphore {

  class Semaphore {
    const capacity: nat
    var value: int
    ghost var held: nat

    ghost predicate Valid()
      reads this
    {
      0 <= value && value + held == capacity
    }

    /** `asyncio.Semaphore(MAX_CONCURRENCY)`: every permit free. */
    constructor(capacity: nat)
      ensures Valid()
      ensures this.capacity == capacity && value == capacity && held == 0
    {
      this.capacity := capacity;
      value := capacity;
      held := 0;
    }

    method Acquire()
      requires Valid() && value > 0
      modifies this
      ensures Valid()
      ensures value == old(value) - 1 && held == old(held) + 1
    {
      value := value - 1;
      held := held + 1;
    }

    /** Giving a permit back; only a holder may, so the count never exceeds the capacity. */
    method Release()
      requires Valid() && held > 0
      modifies this
      ensures Valid()
      ensures value == old(value) + 1 && held == old(held) - 1
    {
      value := value + 1;
      held := held - 1;
    }
  }
}
