/**
 * The chat endpoints of chat_router.py: `create`, `user_message` and the
 * server-sent-event stream `sse` with its `event_generator`. A coroutine
 * handed to `asyncio.create_task` is returned as a `Task` for the event
 * loop to run later; the stream runs until its queue is empty, where
 * `await queue.get()` would suspend.
 */
module ChatRouter {
  import opened Wrappers
  import opened Sequences
  import opened Repositories
  import opened MessageQueue
  import opened Orchestration

  /** The reply that ends a stream. */
  const Sentinel: string := "FINISHED"

  /** What the generator yields: `{"event": "message", "data": data}`. */
  datatype ServerEvent = ServerEvent(event: string, data: string)

  /** A coroutine scheduled with `asyncio.create_task`. */
  datatype Task = GreetingTask(sessionId: Id) | QueryTask(sessionId: Id, message: string)

  /**
   * How a stream stopped: at the sentinel, having unregistered the session;
   * at the sentinel, with `del` raising `KeyError` because nothing was
   * registered; or suspended on an empty queue.
   */
  datatype StreamEnd = Finished | KeyErrorRaised | Suspended

  /** The events for a run of replies, one per reply and in order. */
  function Events(xs: seq<string>): (es: seq<ServerEvent>)
    ensures |es| == |xs|
    ensures forall i :: 0 <= i < |xs| ==> es[i] == ServerEvent("message", xs[i])
  {
    if xs == [] then [] else Events(xs[..|xs| - 1]) + [ServerEvent("message", xs[|xs| - 1])]
  }

  /** `create`: store a session without a transcript, then schedule its greeting. */
  method Create(orch: AgentOrchestrator, freshId: Id, now: Stamp) returns (session: Record, task: Task)
    requires orch.Valid() && freshId !in orch.chats.rows
    modifies orch.chats
    ensures orch.Valid()
    ensures session == Record(freshId, now, now, ChatSessionColumns(None))
    ensures orch.chats.rows == old(orch.chats.rows)[freshId := session]
    ensures task == GreetingTask(session.id)
  {
    var created := orch.chats.Create(Open, freshId, ChatSessionColumns(None), now);
    session := created.value;
    task := GreetingTask(session.id);
  }

  /** `user_message`: acknowledge with the message itself and schedule the turn. */
  method UserMessage(sessionId: Id, message: string) returns (ack: string, task: Task)
    ensures ack == message && task.QueryTask? && task.sessionId == sessionId && task.message == message
  {
    ack := message;
    task := QueryTask(sessionId, message);
  }

  /** `sse`: register a new empty queue for the session, replacing any earlier one. */
  method Subscribe(reg: MessageQueueMediator, sessionId: Id) returns (queue: Channel)
    requires reg.Valid()
    modifies reg
    ensures reg.Valid() && fresh(queue) && queue.items == []
    ensures reg.mq == old(reg.mq)[sessionId := queue]
    ensures reg.Contents() == old(reg.Contents())[sessionId := []]
  {
    queue := new Channel();
    reg.mq := reg.mq[sessionId := queue];
  }

  /**
   * `event_generator`: take replies from the queue captured at subscription
   * and emit each one, until the sentinel, where the session's entry is
   * deleted from the registry, whichever queue it now holds.
   */
  method EventGenerator(reg: MessageQueueMediator, sessionId: Id, queue: Channel)
    returns (events: seq<ServerEvent>, end: StreamEnd)
    requires reg.Valid()
    modifies reg, queue
    ensures reg.Valid()
    ensures var xs := old(queue.items); var k := FirstIndexOf(xs, Sentinel);
      && (k == |xs| ==> events == Events(xs) && queue.items == [] && end == Suspended && reg.mq == old(reg.mq))
      && (k < |xs| ==>
            && events == Events(xs[..k]) && queue.items == xs[k + 1..]
            && reg.mq == old(reg.mq) - {sessionId}
            && end == (if sessionId in old(reg.mq) then Finished else KeyErrorRaised))
  {
    ghost var xs := queue.items;
    ghost var k := FirstIndexOf(xs, Sentinel);
    ghost var n := 0;
    events := [];
    while true
      invariant 0 <= n <= k
      invariant queue.items == xs[n..]
      invariant events == Events(xs[..n])
      invariant reg.mq == old(reg.mq)
      decreases |queue.items|
    {
      var data := queue.Take();
      if data.None? {
        assert xs[..n] == xs;
        return events, Suspended;
      }
      if data.value == Sentinel {
        if sessionId in reg.mq {
          reg.mq := reg.mq - {sessionId};
          end := Finished;
        } else {
          end := KeyErrorRaised;
        }
        return;
      }
      assert xs[..n + 1][..n] == xs[..n];
      events := events + [ServerEvent("message", data.value)];
      n := n + 1;
    }
  }

  /**
   * The `CancelledError` raised into a stream whose client went away: the
   * session's entry is deleted, `KeyError` (`ok == false`) when there is none.
   */
  method Disconnect(reg: MessageQueueMediator, sessionId: Id) returns (ok: bool)
    requires reg.Valid()
    modifies reg
    ensures reg.Valid()
    ensures ok == (sessionId in old(reg.mq))
    ensures reg.mq == old(reg.mq) - {sessionId}
  {
    ok := sessionId in reg.mq;
    reg.mq := reg.mq - {sessionId};
  }

  // ---- Properties of a stream ----

  /** Replies put before the first sentinel are exactly the ones a stream emits. */
  lemma {:induction false} SentinelCut(xs: seq<string>, ys: seq<string>)
    requires Sentinel !in xs
    ensures var s := xs + [Sentinel] + ys;
      FirstIndexOf(s, Sentinel) == |xs| && s[..|xs|] == xs && s[|xs| + 1..] == ys
  {
    var s := xs + [Sentinel] + ys;
    if xs == [] {
      assert s == [Sentinel] + ys;
    } else {
      assert s[1..] == xs[1..] + [Sentinel] + ys;
      SentinelCut(xs[1..], ys);
    }
  }

  /**
   * A scenario step, not an operation of its own: `MessageQueueMediator.Put`
   * restated for a caller that holds the session's current queue object.
   */
  method Publish(reg: MessageQueueMediator, queue: Channel, sessionId: Id, content: string)
    requires reg.Valid() && sessionId in reg.mq && reg.mq[sessionId] == queue
    modifies reg.mq.Values
    ensures reg.Valid() && reg.mq == old(reg.mq)
    ensures queue.items == old(queue.items) + [content]
  {
    reg.Put(sessionId, content);
    assert queue.items == reg.Contents()[sessionId];
  }

  /**
   * One subscriber: every reply put before the sentinel reaches it in
   * order, the sentinel closes the stream and unregisters the session, and
   * a reply put afterwards is dropped.
   */
  method DeliveryScenario() returns (events: seq<ServerEvent>, end: StreamEnd, registered: bool, late: seq<string>)
    ensures events == [ServerEvent("message", "hello"), ServerEvent("message", "bye")]
    ensures end == Finished && !registered && late == []
  {
    var reg := new MessageQueueMediator();
    var queue := Subscribe(reg, "s");
    Publish(reg, queue, "s", "hello");
    Publish(reg, queue, "s", "bye");
    Publish(reg, queue, "s", Sentinel);
    assert queue.items == ["hello", "bye"] + [Sentinel] + [];
    SentinelCut(["hello", "bye"], []);
    events, end := EventGenerator(reg, "s", queue);
    registered := "s" in reg.mq;
    reg.Put("s", "late");
    late := queue.items;
  }

  /**
   * A reconnect replaces the queue: only the newer stream receives replies,
   * and when the older stream's client goes away its `del` unregisters the
   * newer stream's queue, which then receives nothing more.
   */
  method ReconnectScenario() returns (older: seq<string>, newer: seq<string>, stale: bool, afterwards: seq<string>)
    ensures older == [] && newer == ["x"] && stale && afterwards == ["x"]
  {
    var reg := new MessageQueueMediator();
    var first := Subscribe(reg, "s");
    var second := Subscribe(reg, "s");
    reg.Put("s", "x");
    older := first.items;
    newer := second.items;
    stale := Disconnect(reg, "s");
    reg.Put("s", "y");
    afterwards := second.items;
  }
}
