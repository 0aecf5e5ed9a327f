/** The bounded drop-oldest buffer between producers and the sender (src/interceptor/egress/ring_buffer.py). */
module RingBuffer {
  import opened Collections

  // ---------- the queue operations on values; the head of the queue is the oldest item ----------

  function PushTo<T>(queue: seq<T>, capacity: nat, item: T): seq<T>
    requires 0 < capacity
  {
    if |queue| == capacity then queue[1..] + [item] else queue + [item]
  }

  function UnpopTo<T>(queue: seq<T>, capacity: nat, item: T): seq<T> {
    if |queue| < capacity then [item] + queue else queue
  }

  /** queue holds exactly the last items of pushed. */
  ghost predicate IsSuffix<T>(queue: seq<T>, pushed: seq<T>) {
    |queue| <= |pushed| && queue == pushed[|pushed| - |queue|..]
  }

  class BoundedRingBuffer<T> {
    const capacity: nat
    var queue: seq<T>
    var droppedCount: nat

    constructor (capacity: nat)
      requires 0 < capacity
      ensures this.capacity == capacity && queue == [] && droppedCount == 0
    {
      this.capacity := capacity;
      queue, droppedCount := [], 0;
    }

    predicate Valid()
      reads this
    {
      0 < capacity && |queue| <= capacity
    }

    method Push(item: T)
      requires Valid()
      modifies this
      ensures Valid()
      ensures queue == PushTo(old(queue), capacity, item)
      ensures droppedCount == old(droppedCount) + (if |old(queue)| == capacity then 1 else 0)
    {
      if |queue| == capacity {
        droppedCount := droppedCount + 1;
        queue := queue[1..];
      }
      queue := queue + [item];
    }

    method Pop() returns (item: Option<T>)
      requires Valid()
      modifies this`queue
      ensures Valid()
      ensures if old(queue) == [] then item == None && queue == [] else item == Some(old(queue)[0]) && queue == old(queue)[1..]
    {
      if queue == [] {
        return None;
      }
      item := Some(queue[0]);
      queue := queue[1..];
    }

    method Unpop(item: T)
      requires Valid()
      modifies this
      ensures Valid()
      ensures queue == UnpopTo(old(queue), capacity, item)
      ensures droppedCount == old(droppedCount) + (if |old(queue)| < capacity then 0 else 1)
    {
      if |queue| < capacity {
        queue := [item] + queue;
      } else {
        droppedCount := droppedCount + 1;
      }
    }
  }

  /** BoundedRingBuffer(capacity), which raises ValueError unless the capacity is positive. */
  method NewBuffer<T>(capacity: int) returns (buffer: Option<BoundedRingBuffer<T>>)
    ensures buffer.Some? <==> 0 < capacity
    ensures buffer.Some? ==> fresh(buffer.value) && buffer.value.Valid()
                             && buffer.value.capacity == capacity && buffer.value.queue == [] && buffer.value.droppedCount == 0
  {
    if capacity <= 0 {
      return None;
    }
    var b := new BoundedRingBuffer<T>(capacity);
    return Some(b);
  }
}
