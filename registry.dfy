/**
 * The delivery registry of message_queue_mediator.py: a dictionary from
 * session id to an unbounded FIFO queue of reply strings. Queues are objects
 * (`Channel`), as `asyncio.Queue`s are, so that a stream holding a queue that
 * was since replaced in the registry is modelled.
 */
module MessageQueue {
  import opened Wrappers

  /** An `asyncio.Queue` of strings without a size bound. */
  class Channel {
    var items: seq<string>

    constructor ()
      ensures items == []
    {
      items := [];
    }

    /** `put`: never blocks, since the queue is unbounded. */
    method Put(x: string)
      modifies this
      ensures items == old(items) + [x]
    {
      items := items + [x];
    }

    /** `get`: the head, or `None` where `await get()` would suspend. */
    method Take() returns (r: Option<string>)
      modifies this
      ensures old(items) == [] ==> r == None && items == old(items)
      ensures old(items) != [] ==> r == Some(old(items)[0]) && items == old(items)[1..]
    {
      if items == [] {
        return None;
      }
      r := Some(items[0]);
      items := items[1..];
    }
  }

  /** What `MessageQueueMediator.get` gives: an item, `None` for an absent key, or a suspension. */
  datatype Pull = Item(value: string) | Absent | WouldBlock

  // ---- The registry as a value: session id to pending replies ----

  type Queues = map<string, seq<string>>

  /** `put`: append at the tail of that key's queue; drop silently when the key is absent. */
  function Enqueued(q: Queues, key: string, content: string): (r: Queues)
    ensures r.Keys == q.Keys
    ensures key !in q ==> r == q
    ensures key in q ==> r[key] == q[key] + [content]
    ensures forall k :: k in q && k != key ==> r[k] == q[k]
  {
    if key in q then q[key := q[key] + [content]] else q
  }

  /** `get`: remove and return the head of that key's queue. */
  function Dequeued(q: Queues, key: string): (r: (Pull, Queues))
    ensures r.1.Keys == q.Keys
    ensures key !in q ==> r == (Absent, q)
    ensures key in q && q[key] == [] ==> r == (WouldBlock, q)
    ensures key in q && q[key] != [] ==> r == (Item(q[key][0]), q[key := q[key][1..]])
  {
    if key !in q then (Absent, q)
    else if q[key] == [] then (WouldBlock, q)
    else (Item(q[key][0]), q[key := q[key][1..]])
  }

  /** Publishing `xs` one after another. */
  function PutAll(q: Queues, key: string, xs: seq<string>): Queues
    decreases |xs|
  {
    if xs == [] then q else PutAll(Enqueued(q, key, xs[0]), key, xs[1..])
  }

  /** Pulling up to `n` items in turn, stopping at the first pull that yields none. */
  function Drain(q: Queues, key: string, n: nat): (seq<string>, Queues)
    decreases n
  {
    if n == 0 then ([], q)
    else
      var step := Dequeued(q, key);
      if step.0.Item? then
        var rest := Drain(step.1, key, n - 1);
        ([step.0.value] + rest.0, rest.1)
      else ([], q)
  }

  /** Publishing a sequence appends all of it to a present key's queue and drops it otherwise. */
  lemma {:induction false} PutAllAppends(q: Queues, key: string, xs: seq<string>)
    ensures key in q ==> PutAll(q, key, xs) == q[key := q[key] + xs]
    ensures key !in q ==> PutAll(q, key, xs) == q
    decreases |xs|
  {
    if xs == [] {
      if key in q {
        assert q[key] + xs == q[key];
        assert q[key := q[key]] == q;
      }
    } else {
      var q1 := Enqueued(q, key, xs[0]);
      assert PutAll(q, key, xs) == PutAll(q1, key, xs[1..]);
      PutAllAppends(q1, key, xs[1..]);
      if key in q {
        assert q1[key := q1[key] + xs[1..]] == q[key := q[key] + xs] by {
          assert q1 == q[key := q[key] + [xs[0]]];
          assert q1[key] + xs[1..] == q[key] + xs;
        }
      }
    }
  }

  /** Pulling `n` items from a queue holding at least `n` yields its first `n`, in order. */
  lemma {:induction false} DrainTakesPrefix(q: Queues, key: string, n: nat)
    requires key in q && n <= |q[key]|
    ensures Drain(q, key, n) == (q[key][..n], q[key := q[key][n..]])
    decreases n
  {
    if n == 0 {
      assert q[key][0..] == q[key];
      assert q[key := q[key]] == q;
    } else {
      var q1 := q[key := q[key][1..]];
      DrainTakesPrefix(q1, key, n - 1);
      assert [q[key][0]] + q[key][1..][..n - 1] == q[key][..n];
      assert q[key][1..][n - 1..] == q[key][n..];
      assert q1[key := q1[key][n - 1..]] == q[key := q[key][n..]];
    }
  }

  /**
   * FIFO delivery: whatever is published to a freshly subscribed, empty queue
   * comes out in publication order, and the queue ends empty.
   */
  lemma FifoDelivery(q: Queues, key: string, xs: seq<string>)
    requires key in q && q[key] == []
    ensures Drain(PutAll(q, key, xs), key, |xs|) == (xs, q)
  {
    var q1 := q[key := xs];
    assert PutAll(q, key, xs) == q1 by {
      PutAllAppends(q, key, xs);
      assert q[key] + xs == xs;
    }
    assert Drain(q1, key, |xs|) == (xs, q) by {
      DrainTakesPrefix(q1, key, |xs|);
      assert q1[key][..|xs|] == xs;
      assert q1[key][|xs|..] == [];
      assert q1[key := []] == q;
    }
  }

  /** `MessageQueueMediator`: the process-wide registry. */
  class MessageQueueMediator {
    var mq: map<string, Channel>

    /** No queue is registered under two keys. */
    ghost predicate Valid()
      reads this
    {
      forall k1, k2 :: k1 in mq && k2 in mq && k1 != k2 ==> mq[k1] != mq[k2]
    }

    /** The pending replies of every registered session. */
    function Contents(): Queues
      reads this, mq.Values
    {
      map k | k in mq :: mq[k].items
    }

    /** The registry starts empty. */
    constructor ()
      ensures Valid() && mq == map[] && Contents() == map[]
    {
      mq := map[];
    }

    method Get(key: string) returns (r: Pull)
      requires Valid()
      modifies mq.Values
      ensures Valid() && mq == old(mq)
      ensures (r, Contents()) == Dequeued(old(Contents()), key)
    {
      assert Contents().Keys == mq.Keys;
      if key !in mq {
        return Absent;
      }
      var channel := mq[key];
      if channel.items == [] {
        return WouldBlock;
      }
      ghost var before := Contents();
      var x := channel.Take();
      r := Item(x.value);
      assert forall k :: k in mq && k != key ==> mq[k].items == before[k];
      assert Contents() == before[key := before[key][1..]];
    }

    method Put(key: string, content: string)
      requires Valid()
      modifies mq.Values
      ensures Valid() && mq == old(mq)
      ensures Contents() == Enqueued(old(Contents()), key, content)
    {
      if key in mq {
        mq[key].Put(content);
      }
    }
  }
}
