/**
 * The bounded FIFO channel behind `define_channel!` (capacity 4 for every
 * channel of the controller), with the two non-blocking operations the
 * controller uses on its configuration channels. The channel is owned by the
 * controller, so it is modelled as a value that the owner reassigns.
 */
module Channel {
  import opened Wrappers

  const Capacity: nat := 4

  datatype Queue<T> = Queue(items: seq<T>)

  function Empty<T>(): Queue<T> { Queue([]) }

  /** A queue never holds more than the capacity. */
  predicate Valid<T>(q: Queue<T>) { |q.items| <= Capacity }

  predicate Full<T>(q: Queue<T>) { |q.items| >= Capacity }

  datatype Sent<T> = Sent(queue: Queue<T>, ok: bool)

  datatype Received<T> = Received(queue: Queue<T>, value: Option<T>)

  /** `try_send`: enqueue at the back when there is room, otherwise drop `x`. */
  function TrySend<T>(q: Queue<T>, x: T): (r: Sent<T>)
    ensures r.ok <==> !Full(q)
    ensures r.ok ==> r.queue.items == q.items + [x]
    ensures !r.ok ==> r.queue == q
    ensures Valid(q) ==> Valid(r.queue)
  {
    if |q.items| < Capacity then Sent(Queue(q.items + [x]), true) else Sent(q, false)
  }

  /** `try_receive`: take the front element, or report an empty queue. */
  function TryReceive<T>(q: Queue<T>): (r: Received<T>)
    ensures r.value.None? <==> q.items == []
    ensures r.value.Some? ==> r.value.value == q.items[0] && r.queue.items == q.items[1..]
    ensures r.value.None? ==> r.queue == q
    ensures Valid(q) ==> Valid(r.queue)
  {
    if q.items == [] then Received(q, None) else Received(Queue(q.items[1..]), Some(q.items[0]))
  }

  /** A value sent to an empty queue is the next one received (round trip). */
  lemma ReceiveSentIntoEmpty<T>(x: T)
    ensures TryReceive(TrySend(Empty<T>(), x).queue) == Received(Empty<T>(), Some(x))
  {
  }

  /**
   * Receiving and sending commute on a queue that is neither empty nor full:
   * what was at the front comes out first, and the new value goes to the back.
   */
  lemma ReceiveAfterSend<T>(q: Queue<T>, x: T)
    requires q.items != [] && !Full(q)
    ensures TryReceive(TrySend(q, x).queue)
         == Received(TrySend(TryReceive(q).queue, x).queue, Some(q.items[0]))
  {
    assert (q.items + [x])[1..] == q.items[1..] + [x];
  }

  /** A burst of `try_send` calls with nothing draining the queue. */
  function SendAll<T>(q: Queue<T>, xs: seq<T>): (r: (Queue<T>, seq<bool>))
    // One result per send; nothing already queued is lost or reordered.
    ensures |r.1| == |xs|
    ensures q.items <= r.0.items
    ensures Valid(q) ==> Valid(r.0)
    decreases |xs|
  {
    if xs == [] then (q, [])
    else
      var s := TrySend(q, xs[0]);
      var rest := SendAll(s.queue, xs[1..]);
      (rest.0, [s.ok] + rest.1)
  }

  function Min(a: int, b: int): int { if a <= b then a else b }

  /**
   * A burst fills the free room with the first values sent and drops all the
   * others: the first `k` sends succeed and the remaining ones report "full",
   * where `k` is the smaller of the burst length and the free room.
   */
  lemma {:induction false} SendAllFills<T>(q: Queue<T>, xs: seq<T>)
    requires Valid(q)
    ensures var k := Min(|xs|, Capacity - |q.items|);
      && SendAll(q, xs).0.items == q.items + xs[..k]
      && |SendAll(q, xs).1| == |xs|
      && (forall i :: 0 <= i < |xs| ==> (SendAll(q, xs).1[i] <==> i < k))
    decreases |xs|
  {
    if xs != [] {
      var s := TrySend(q, xs[0]);
      SendAllFills(s.queue, xs[1..]);
      var k := Min(|xs|, Capacity - |q.items|);
      var r := SendAll(q, xs);
      if s.ok {
        assert xs[1..][..k - 1] == xs[1..k];
        assert q.items + [xs[0]] + xs[1..k] == q.items + xs[..k];
      } else {
        assert k == 0;
      }
      forall i | 0 <= i < |xs|
        ensures r.1[i] <==> i < k
      {
        if i > 0 {
          assert r.1[i] == SendAll(s.queue, xs[1..]).1[i - 1];
        }
      }
    }
  }

  /** Five values sent in a row to an empty channel: four are kept, one is dropped. */
  lemma FiveIntoFour<T>(a: T, b: T, c: T, d: T, e: T)
    ensures SendAll(Empty<T>(), [a, b, c, d, e]) == (Queue([a, b, c, d]), [true, true, true, true, false])
  {
    var xs := [a, b, c, d, e];
    SendAllFills(Empty<T>(), xs);
    var r := SendAll(Empty<T>(), xs);
    assert r.0.items == [a, b, c, d];
    assert r.1 == [true, true, true, true, false] by {
      assert r.1[0] && r.1[1] && r.1[2] && r.1[3] && !r.1[4];
    }
  }
}
