/** The table of unread messages that all three mailbox generations keep: a map
    from username to a FIFO queue holding at most five messages. Queue keys in the
    source are client objects whose `equals` and `hashCode` use the username only, so
    a probe built from a receiver's username finds that user's queue; the key here is
    the username itself. */
module MailboxQueues {
  import opened JavaLang
  import opened Messages

  /** The `size() < 5` guard of every `sendMessage`. */
  const Capacity: nat := 5

  type Table = map<string, seq<Message>>

  /** No queue holds more than `Capacity` messages. */
  predicate Bounded(t: Table) {
    forall u :: u in t ==> |t[u]| <= Capacity
  }

  /** The receiver id names a queue of the table. A null id names none, as no queue
      is ever keyed by a client with a null username. */
  predicate Registered(t: Table, key: Option<string>) {
    key.Some? && key.value in t
  }

  /** `put(client, new LinkedList<>())`: a fresh empty queue, replacing any queue the
      user had. */
  function AddRecipient(t: Table, u: string): Table {
    t[u := []]
  }

  /** The queue of `u` has room for one more message. */
  predicate HasRoom(t: Table, u: string)
    requires u in t
  {
    |t[u]| < Capacity
  }

  /** `add(message)` behind the capacity guard: appended at the tail when there is
      room, otherwise the table is left alone. */
  function Enqueue(t: Table, u: string, m: Message): (r: Table)
    requires u in t
    ensures r.Keys == t.Keys
  {
    if HasRoom(t, u) then t[u := t[u] + [m]] else t
  }

  /** `pop()`: the oldest message of `u`'s queue, removed; `None` when the queue is
      empty (where `LinkedList.pop` throws `NoSuchElementException`). */
  function Dequeue(t: Table, u: string): (r: (Table, Option<Message>))
    requires u in t
    ensures r.0.Keys == t.Keys
  {
    if t[u] == [] then (t, None) else (t[u := t[u][1..]], Some(t[u][0]))
  }

  /** `remove(client)`: the queue and its unread messages are discarded. */
  function RemoveRecipient(t: Table, u: string): Table {
    t - {u}
  }

  /** Adding a recipient and enqueueing preserve the bound; every operation leaves
      the queues of the other users as they were. */
  lemma {:induction false} OperationsKeepBound(t: Table, u: string, m: Message)
    requires Bounded(t)
    ensures Bounded(AddRecipient(t, u)) && Bounded(RemoveRecipient(t, u))
    ensures u in t ==> Bounded(Enqueue(t, u, m)) && Bounded(Dequeue(t, u).0)
  {
    if u in t {
      assert |t[u]| <= Capacity;
    }
  }

  /** Enqueueing touches the receiver's queue only: a message is appended at its
      tail exactly when it has room, and every other queue is unchanged. */
  lemma {:induction false} EnqueueAppendsAtTail(t: Table, u: string, m: Message)
    requires u in t
    ensures HasRoom(t, u) ==> Enqueue(t, u, m)[u] == t[u] + [m]
    ensures !HasRoom(t, u) ==> Enqueue(t, u, m) == t
    ensures forall v :: v in t && v != u ==> Enqueue(t, u, m)[v] == t[v]
  {
  }

  /** Dequeueing returns the head of the receiver's queue and keeps the rest in
      order; nothing changes when the queue is empty. */
  lemma {:induction false} DequeueTakesHead(t: Table, u: string)
    requires u in t
    ensures t[u] == [] ==> Dequeue(t, u) == (t, None)
    ensures t[u] != [] ==> Dequeue(t, u).1 == Some(t[u][0]) && [t[u][0]] + Dequeue(t, u).0[u] == t[u]
    ensures forall v :: v in t && v != u ==> Dequeue(t, u).0[v] == t[v]
  {
  }

  /** A removed user no longer has a queue, so any later send to that user finds
      none. */
  lemma RemovedIsUnregistered(t: Table, u: string)
    ensures !Registered(RemoveRecipient(t, u), Some(u))
    ensures forall v :: v in t && v != u ==> v in RemoveRecipient(t, u) && RemoveRecipient(t, u)[v] == t[v]
  {
  }

  /** A sequence of messages sent to `u`, one after another. */
  function EnqueueAll(t: Table, u: string, ms: seq<Message>): (r: Table)
    requires u in t
    ensures r.Keys == t.Keys
    decreases |ms|
  {
    if ms == [] then t else EnqueueAll(Enqueue(t, u, ms[0]), u, ms[1..])
  }

  /** Up to `n` messages opened by `u`, one after another, stopping at an empty
      queue; the table afterwards and the messages in the order they came out. */
  function DequeueAll(t: Table, u: string, n: nat): (r: (Table, seq<Message>))
    requires u in t
    ensures r.0.Keys == t.Keys
    ensures |r.1| <= n && |r.1| <= |t[u]|
    ensures |r.0[u]| == |t[u]| - |r.1|
  {
    if n == 0 then (t, [])
    else
      var (t', m) := Dequeue(t, u);
      match m
      case None => (t', [])
      case Some(x) =>
        var (t'', rest) := DequeueAll(t', u, n - 1);
        (t'', [x] + rest)
  }

  /** While there is room, messages sent one after another all land at the tail of
      the queue, in the order they were sent. */
  lemma {:induction false} EnqueueAllAppends(t: Table, u: string, ms: seq<Message>)
    requires u in t && |t[u]| + |ms| <= Capacity
    ensures EnqueueAll(t, u, ms)[u] == t[u] + ms
    ensures forall v :: v in t && v != u ==> EnqueueAll(t, u, ms)[v] == t[v]
    decreases |ms|
  {
    if ms != [] {
      var t' := Enqueue(t, u, ms[0]);
      assert t'[u] == t[u] + [ms[0]];
      EnqueueAllAppends(t', u, ms[1..]);
      assert t[u] + [ms[0]] + ms[1..] == t[u] + ms;
    }
  }

  /** Opening as many messages as are queued returns them oldest first and leaves
      the queue empty. */
  lemma {:induction false} DequeueAllDrains(t: Table, u: string)
    requires u in t
    ensures DequeueAll(t, u, |t[u]|).1 == t[u]
    ensures DequeueAll(t, u, |t[u]|).0[u] == []
    ensures forall v :: v in t && v != u ==> DequeueAll(t, u, |t[u]|).0[v] == t[v]
    decreases |t[u]|
  {
    if t[u] != [] {
      var t' := Dequeue(t, u).0;
      assert t'[u] == t[u][1..];
      DequeueAllDrains(t', u);
      assert [t[u][0]] + t[u][1..] == t[u];
    }
  }

  /** FIFO delivery: messages sent to an empty queue within its capacity are opened
      in exactly the order they were sent, after which the queue is empty again. */
  lemma {:induction false} FifoDelivery(t: Table, u: string, ms: seq<Message>)
    requires u in t && t[u] == [] && |ms| <= Capacity
    ensures DequeueAll(EnqueueAll(t, u, ms), u, |ms|).1 == ms
    ensures DequeueAll(EnqueueAll(t, u, ms), u, |ms|).0[u] == []
  {
    EnqueueAllAppends(t, u, ms);
    assert EnqueueAll(t, u, ms)[u] == ms;
    DequeueAllDrains(EnqueueAll(t, u, ms), u);
  }

  /** Once `Capacity` messages are pending, a further message is rejected and the
      queue keeps its length: the sixth of six sends to an empty queue fails. */
  lemma {:induction false} SixthSendRejected(t: Table, u: string, ms: seq<Message>, m: Message)
    requires u in t && t[u] == [] && |ms| == Capacity
    ensures EnqueueAll(t, u, ms)[u] == ms
    ensures !HasRoom(EnqueueAll(t, u, ms), u)
    ensures Enqueue(EnqueueAll(t, u, ms), u, m) == EnqueueAll(t, u, ms)
  {
    EnqueueAllAppends(t, u, ms);
    assert EnqueueAll(t, u, ms)[u] == ms;
  }
}
