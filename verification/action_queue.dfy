/** The bounded FIFO of LED actions as the LED agents use it: a fixed-capacity
    queue written to with a zero wait, so a send to a full queue fails at once
    and leaves the queue as it was. Sends go to the back, except the one made
    from the switch interrupt, which goes to the front. */
module ActionQueue {
  import opened Base

  /** The queued items, oldest first, and the capacity fixed at creation. */
  datatype Queue<T> = Queue(items: seq<T>, capacity: nat) {

    /** No more items than the capacity allows. */
    predicate Valid() {
      |items| <= capacity
    }
  }

  /** An empty queue of the given capacity. */
  function Empty<T>(capacity: nat): (q: Queue<T>)
    ensures q.Valid() && q.items == [] && q.capacity == capacity
  {
    Queue([], capacity)
  }

  /** The queue after a send, and whether the send was accepted. */
  datatype Pushed<T> = Pushed(queue: Queue<T>, ok: bool)

  /** The item at the head, if any, and the queue after taking it. */
  datatype Received<T> = Received(item: Option<T>, queue: Queue<T>)

  /** A zero-wait send to the back: accepted iff there is room, in which case
      `x` becomes the newest item; refused sends change nothing. */
  function SendToBack<T>(q: Queue<T>, x: T): (r: Pushed<T>)
    requires q.Valid()
    ensures r.queue.Valid() && r.queue.capacity == q.capacity
    ensures r.ok <==> |q.items| < q.capacity
    ensures r.ok ==> r.queue.items == q.items + [x]
    ensures !r.ok ==> r.queue == q
  {
    if |q.items| < q.capacity then Pushed(q.(items := q.items + [x]), true)
    else Pushed(q, false)
  }

  /** A send to the front, as made from an interrupt: accepted iff there is
      room, in which case `x` is the next item to be received. */
  function SendToFront<T>(q: Queue<T>, x: T): (r: Pushed<T>)
    requires q.Valid()
    ensures r.queue.Valid() && r.queue.capacity == q.capacity
    ensures r.ok <==> |q.items| < q.capacity
    ensures r.ok ==> r.queue.items == [x] + q.items
    ensures !r.ok ==> r.queue == q
  {
    if |q.items| < q.capacity then Pushed(q.(items := [x] + q.items), true)
    else Pushed(q, false)
  }

  /** A zero-wait receive: the oldest item, removed, or nothing from an empty queue. */
  function Receive<T>(q: Queue<T>): (r: Received<T>)
    requires q.Valid()
    ensures r.queue.Valid() && r.queue.capacity == q.capacity
    ensures r.item.None? <==> q.items == []
    ensures r.item.None? ==> r.queue == q
    ensures r.item.Some? ==> r.item.value == q.items[0] && r.queue.items == q.items[1..]
  {
    if q.items == [] then Received(None, q)
    else Received(Some(q.items[0]), q.(items := q.items[1..]))
  }

  /** Everything a sequence of receives yields until the queue is empty. */
  function Drain<T>(q: Queue<T>): (r: seq<T>)
    requires q.Valid()
    ensures r == q.items
    decreases |q.items|
  {
    var got := Receive(q);
    match got.item
    case None => []
    case Some(x) => [x] + Drain(got.queue)
  }

  /** First in, first out: an item sent to the back comes out after
      everything already queued. */
  lemma BackIsLast<T>(q: Queue<T>, x: T)
    requires q.Valid() && |q.items| < q.capacity
    ensures Drain(SendToBack(q, x).queue) == Drain(q) + [x]
  {
  }

  /** An item sent to the front overtakes everything queued: it is the very
      next item received, and the rest follow in their old order. */
  lemma FrontIsNext<T>(q: Queue<T>, x: T)
    requires q.Valid() && |q.items| < q.capacity
    ensures var r := Receive(SendToFront(q, x).queue);
      r.item == Some(x) && r.queue.items == q.items
  {
  }

  /** A full queue refuses every kind of send, so a burst of sends to a full
      queue changes nothing. */
  lemma {:induction false} FullQueueDropsAll<T>(q: Queue<T>, xs: seq<T>, front: bool)
    requires q.Valid() && |q.items| == q.capacity
    ensures SendAll(q, xs, front) == q
    decreases |xs|
  {
    if xs != [] {
      FullQueueDropsAll(q, xs[1..], front);
    }
  }

  /** The queue after sending each of `xs` in turn, to the front or to the back. */
  function SendAll<T>(q: Queue<T>, xs: seq<T>, front: bool): (r: Queue<T>)
    requires q.Valid()
    ensures r.Valid() && r.capacity == q.capacity
    ensures |q.items| <= |r.items| <= |q.items| + |xs|
    decreases |xs|
  {
    if xs == [] then q
    else
      var p := if front then SendToFront(q, xs[0]) else SendToBack(q, xs[0]);
      SendAll(p.queue, xs[1..], front)
  }

  /** Sending to the back keeps as many of `xs` as there is room for, in order,
      and drops the rest. */
  lemma {:induction false} BackSendsKeepPrefix<T>(q: Queue<T>, xs: seq<T>)
    requires q.Valid()
    ensures var room := q.capacity - |q.items|;
      var kept := if |xs| <= room then |xs| else room;
      SendAll(q, xs, false).items == q.items + xs[..kept]
    decreases |xs|
  {
    if xs != [] {
      var p := SendToBack(q, xs[0]);
      BackSendsKeepPrefix(p.queue, xs[1..]);
      var room := q.capacity - |q.items|;
      if room == 0 {
        assert p.queue == q;
        FullQueueDropsAll(q, xs[1..], false);
      } else {
        var kept := if |xs| <= room then |xs| else room;
        assert xs[..kept] == [xs[0]] + xs[1..][..kept - 1];
      }
    }
  }
}
