/**
 A queue of the message broker with one consumer: the highest priority first, first in first out within a
 priority, and one message unacknowledged at a time.
 */
module TaskQueue {
  import opened Options

  datatype Queue<T> = Queue(high: seq<T>, low: seq<T>, unacked: Option<T>)
  {
    /** The messages not yet delivered, in the order of delivery. */
    function Waiting(): seq<T> { high + low }

    /** `sendToQueue`: priority 1 for the tasks of a running event, 0 for everything else. */
    function Sent(item: T, priority: nat): Queue<T>
    {
      if priority > 0 then this.(high := high + [item]) else this.(low := low + [item])
    }

    predicate CanDeliver() { unacked.None? && Waiting() != [] }

    function Delivered(): Queue<T>
      requires CanDeliver()
    {
      if high != [] then Queue(high[1..], low, Some(high[0])) else Queue([], low[1..], Some(low[0]))
    }

    function Acked(): Queue<T> { this.(unacked := None) }

    ghost predicate Holds(item: T)
    {
      item in high || item in low || unacked == Some(item)
    }
  }

  /** Where a message goes: to the end of those with its priority, and before all with the lower one. */
  lemma SentWaitsInOrder<T>(q: Queue<T>, item: T, priority: nat)
    ensures priority == 0 ==> q.Sent(item, priority).Waiting() == q.Waiting() + [item]
    ensures priority == 1 ==> q.Sent(item, priority).Waiting() == q.high + [item] + q.low
    ensures q.Sent(item, priority).unacked == q.unacked && q.Acked().Waiting() == q.Waiting()
    ensures q.Acked().unacked == None && (q.CanDeliver() <==> q.unacked == None && (q.high != [] || q.low != []))
  {
    assert q.high + (q.low + [item]) == q.high + q.low + [item];
  }

  /** What a delivery does: the first waiting message is unacknowledged, the others keep their places. */
  lemma DeliveryIsInOrder<T>(q: Queue<T>)
    requires q.CanDeliver()
    ensures q.Delivered().unacked == Some(q.Waiting()[0])
    ensures q.Delivered().Waiting() == q.Waiting()[1..]
  {
    if q.high != [] {
      assert q.Waiting()[1..] == q.high[1..] + q.low;
    } else {
      assert q.Waiting() == q.low;
    }
  }
}
