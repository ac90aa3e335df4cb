/** The steering and follow-up queues of an agent. */
module PendingQueues {
  import opened Types

  datatype DeliveryMode = All | OneAtATime

  class PendingQueue {
    var mode: DeliveryMode
    var messages: seq<Message>

    ghost var enqueued: seq<Message>  // everything ever enqueued, oldest first
    ghost var taken: seq<Message>     // everything ever drained, oldest first
    ghost var clears: nat             // how often somebody cleared the queue

    /** Nothing is lost, duplicated or reordered unless the queue is cleared. */
    ghost predicate Valid()
      reads this
    {
      clears == 0 ==> enqueued == taken + messages
    }

    constructor (mode: DeliveryMode)
      ensures Valid() && this.mode == mode
      ensures messages == [] && enqueued == [] && taken == [] && clears == 0
    {
      this.mode := mode;
      messages, enqueued, taken, clears := [], [], [], 0;
    }

    method Enqueue(m: Message)
      requires Valid()
      modifies this`messages, this`enqueued
      ensures Valid()
      ensures messages == old(messages) + [m] && enqueued == old(enqueued) + [m]
    {
      messages := messages + [m];
      enqueued := enqueued + [m];
    }

    /** Takes the whole queue, or its oldest message only. */
    method Drain() returns (batch: seq<Message>)
      requires Valid()
      modifies this`messages, this`taken
      ensures Valid()
      ensures old(messages) == batch + messages && taken == old(taken) + batch
      ensures mode == All ==> messages == []
      ensures mode == OneAtATime ==> |batch| == if old(messages) == [] then 0 else 1
      ensures batch == [] ==> unchanged(this)
    {
      if mode == All {
        batch := messages;
        messages := [];
      } else if messages == [] {
        batch := [];
      } else {
        batch := [messages[0]];
        messages := messages[1..];
      }
      AppendEmpty(taken);
      taken := taken + batch;
    }

    method Clear()
      requires Valid()
      modifies this`messages, this`clears
      ensures Valid() && messages == [] && clears == old(clears) + 1
    {
      messages := [];
      clears := clears + 1;
    }
  }
}
