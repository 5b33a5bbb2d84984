/**
 * The recording test sender of the batch-sender tests,
 * `MockSenderAsyncQueue<T>`, and the map-like recorder it drains into,
 * `MockSenderMap<T>`. Sending is synchronous and always succeeds here.
 */
module MockSender {
  import opened GatewayQueues

  /**
   * The assertable recorder. Its own source is not part of this model; it is
   * modelled as an append-only log of what it was sent, in order.
   */
  class MockSenderMap<T> {
    var received: seq<T>

    constructor ()
      ensures received == []
    {
      received := [];
    }

    /** Records `data` after everything recorded so far. */
    method SendMessage(data: T)
      modifies this
      ensures received == old(received) + [data]
    {
      received := received + [data];
    }
  }

  /** A sender that keeps every message it is given in its own queue. */
  class MockSenderAsyncQueue<T> {
    const sentMessagesQueue: GatewayQueue<T>

    constructor ()
      ensures fresh(sentMessagesQueue)
      ensures Recorded() == []
    {
      sentMessagesQueue := new GatewayQueue<T>();
    }

    /** The messages recorded and not yet drained, oldest first. */
    function Recorded(): (r: seq<T>)
      reads sentMessagesQueue
    {
      sentMessagesQueue.items
    }

    /** Always succeeds: `data` is queued behind everything recorded before it. */
    method SendMessage(data: T)
      modifies sentMessagesQueue
      ensures Recorded() == old(Recorded()) + [data]
    {
      sentMessagesQueue.Push(data);
    }

    /**
     * Drains the recorded messages into a new map: the queue's count is
     * sampled once, and exactly that many successful pops are forwarded, in
     * the order the queue yields them. Nothing is lost or duplicated, and the
     * queue is left empty.
     */
    method ToMockSenderMap() returns (result: MockSenderMap<T>)
      modifies sentMessagesQueue
      ensures fresh(result)
      ensures result.received == old(Recorded())
      ensures Recorded() == []
    {
      result := new MockSenderMap<T>();
      var count := sentMessagesQueue.Count();
      var processedCount := 0;
      while processedCount < count
        invariant 0 <= processedCount <= count
        invariant |result.received| == processedCount
        invariant result.received + sentMessagesQueue.items == old(sentMessagesQueue.items)
        invariant count == |old(sentMessagesQueue.items)|
        decreases count - processedCount
      {
        var popped := sentMessagesQueue.TryPop();
        if popped.Success? {
          result.SendMessage(popped.result);
          processedCount := processedCount + 1;
        }
      }
    }

    /** Releases nothing: the recorded messages are untouched. */
    method Close()
      ensures Recorded() == old(Recorded())
    {
    }
  }

  /**
   * A test pipeline's use of the recorder: record `first`, drain, record
   * `second`, drain again. Each drain hands over exactly the messages
   * recorded since the previous one, in the order they were sent.
   */
  method RecordAndDrainTwice<T>(first: seq<T>, second: seq<T>) returns (firstDrain: seq<T>, secondDrain: seq<T>)
    ensures firstDrain == first
    ensures secondDrain == second
  {
    var sender := new MockSenderAsyncQueue<T>();
    RecordAll(sender, first);
    var map1 := sender.ToMockSenderMap();
    RecordAll(sender, second);
    var map2 := sender.ToMockSenderMap();
    sender.Close();
    firstDrain, secondDrain := map1.received, map2.received;
  }

  /** Sends every element of `messages` to `sender`, in order. */
  method RecordAll<T>(sender: MockSenderAsyncQueue<T>, messages: seq<T>)
    modifies sender.sentMessagesQueue
    ensures sender.Recorded() == old(sender.Recorded()) + messages
  {
    for k := 0 to |messages|
      invariant sender.Recorded() == old(sender.Recorded()) + messages[..k]
    {
      sender.SendMessage(messages[k]);
    }
  }
}
