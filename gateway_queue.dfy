/**
 * The gateway's message queue, `GatewayQueue<T>`, as far as the recording
 * test sender uses it: `Push`, `TryPop` and `Count`, in a single thread.
 * The queue's own source is not part of this model, so it is modelled as a
 * first-in first-out sequence that the methods reassign.
 */
module GatewayQueues {

  /** Outcome of a non-blocking pop: the head of the queue, or nothing when it was empty. */
  datatype PopResult<T> = Success(result: T) | Empty

  class GatewayQueue<T> {
    /** Pending messages, head first. */
    var items: seq<T>

    constructor ()
      ensures items == []
    {
      items := [];
    }

    /** Number of messages currently queued. */
    function Count(): (n: nat)
      reads this
      ensures n == 0 <==> items == []
    {
      |items|
    }

    /** Inserts `data` at the tail; never fails. */
    method Push(data: T)
      modifies this
      ensures items == old(items) + [data]
    {
      items := items + [data];
    }

    /**
     * Removes and returns the head when there is one; on an empty queue it
     * reports `Empty` and leaves the queue as it was.
     */
    method TryPop() returns (popped: PopResult<T>)
      modifies this
      ensures popped.Empty? <==> old(items) == []
      ensures popped.Success? ==> popped.result == old(items)[0] && items == old(items)[1..]
      ensures popped.Empty? ==> items == old(items)
    {
      if items == [] {
        popped := Empty;
      } else {
        popped := Success(items[0]);
        items := items[1..];
      }
    }
  }
}
